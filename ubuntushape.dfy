// UCUbuntuShape (ucubuntushape.cpp): the property setters with their
// deprecation layer, the premultiplied colour packing used for the background
// vertices, and the choices updatePaintNode makes from the item's state.
module UbuntuShape {
  import opened Common

  /** QRgb, laid out as 0xAARRGGBB. */
  type QRgb = bv32

  function QAlpha(c: QRgb): bv32 { c >> 24 }
  function QRed(c: QRgb): bv32 { (c >> 16) & 0xff }
  function QGreen(c: QRgb): bv32 { (c >> 8) & 0xff }
  function QBlue(c: QRgb): bv32 { c & 0xff }

  const Transparent: QRgb := 0

  /** packColor: a premultiplied ABGR word, alpha in the top byte, red in the lowest. */
  function PackColor(a: bv32, b: bv32, g: bv32, r: bv32): (p: bv32)
    ensures a < 256 ==> p >> 24 == a
  {
    var pb := Premultiply(b, a);
    var pg := Premultiply(g, a);
    var pr := Premultiply(r, a);
    (a << 24) | ((pb & 0xff) << 16) | ((pg & 0xff) << 8) | (pr & 0xff)
  }

  /** One premultiplied channel: (c * a + 255) >> 8. */
  function Premultiply(c: bv32, a: bv32): bv32
  {
    ((c * a) + 0xff) >> 8
  }

  lemma PremultiplyOpaque(c: bv32)
    requires c < 256
    ensures Premultiply(c, 255) == c
  {
  }

  lemma PremultiplyClear(c: bv32)
    requires c < 256
    ensures Premultiply(c, 0) == 0
  {
  }

  /** With full alpha the packed colour holds the input bytes unchanged, in ABGR order. */
  lemma PackOpaque(b: bv32, g: bv32, r: bv32)
    requires b < 256 && g < 256 && r < 256
    ensures PackColor(255, b, g, r) == (255 << 24) | (b << 16) | (g << 8) | r
  {
    PremultiplyOpaque(b);
    PremultiplyOpaque(g);
    PremultiplyOpaque(r);
    ByteLayout(255, b, g, r);
  }

  lemma ByteLayout(a: bv32, b: bv32, g: bv32, r: bv32)
    requires b < 256 && g < 256 && r < 256
    ensures (a << 24) | ((b & 0xff) << 16) | ((g & 0xff) << 8) | (r & 0xff) == (a << 24) | (b << 16) | (g << 8) | r
  {
  }

  /** With zero alpha every colour byte is zero, whatever the inputs. */
  lemma PackClear(b: bv32, g: bv32, r: bv32)
    requires b < 256 && g < 256 && r < 256
    ensures PackColor(0, b, g, r) == 0
  {
    PremultiplyClear(b);
    PremultiplyClear(g);
    PremultiplyClear(r);
    assert PackColor(0, b, g, r)
      == (0 << 24) | ((Premultiply(b, 0) & 0xff) << 16) | ((Premultiply(g, 0) & 0xff) << 8) | (Premultiply(r, 0) & 0xff);
  }

  /** The packed form of one QRgb, as used for the first and the last background vertex. */
  function PackRgb(c: QRgb): bv32
  {
    PackColor(QAlpha(c), QBlue(c), QGreen(c), QRed(c))
  }

  /** One lerp'd channel with unsigned 32-bit wrap-around, as quint32 arithmetic does. */
  function LerpChannel(t: bv32, c1: bv32, c2: bv32): bv32
  {
    c1 + ((t * (c2 - c1) + 0xff) >> 8)
  }

  /** lerpColor(t, c1, c2), t in [0, 255]. */
  function LerpColor(t: bv32, c1: QRgb, c2: QRgb): bv32
  {
    PackColor(LerpChannel(t, QAlpha(c1), QAlpha(c2)), LerpChannel(t, QBlue(c1), QBlue(c2)),
              LerpChannel(t, QGreen(c1), QGreen(c2)), LerpChannel(t, QRed(c1), QRed(c2)))
  }

  lemma LerpChannelStart(c1: bv32, c2: bv32)
    ensures LerpChannel(0, c1, c2) == c1
  {
  }

  lemma LerpChannelSame(t: bv32, c: bv32)
    ensures LerpChannel(t, c, c) == c
  {
  }

  /** lerpColor at t = 0 is the packed start colour. */
  lemma LerpColorStart(c1: QRgb, c2: QRgb)
    ensures LerpColor(0, c1, c2) == PackRgb(c1)
  {
    LerpChannelStart(QAlpha(c1), QAlpha(c2));
    LerpChannelStart(QBlue(c1), QBlue(c2));
    LerpChannelStart(QGreen(c1), QGreen(c2));
    LerpChannelStart(QRed(c1), QRed(c2));
  }

  /** lerpColor between a colour and itself is that colour packed, for every t. */
  lemma LerpColorSame(t: bv32, c: QRgb)
    ensures LerpColor(t, c, c) == PackRgb(c)
  {
    LerpChannelSame(t, QAlpha(c));
    LerpChannelSame(t, QBlue(c));
    LerpChannelSame(t, QGreen(c));
    LerpChannelSame(t, QRed(c));
  }

  datatype Radius = SmallRadius | MediumRadius
  datatype Border = RawBorder | IdleBorder | PressedBorder
  datatype BackgroundMode = SolidColor | VerticalGradient
  datatype HAlignment = AlignLeft | AlignHCenter | AlignRight
  datatype VAlignment = AlignTop | AlignVCenter | AlignBottom

  /** The bits of flags_ that the deprecation layer and the source transform use. */
  datatype Flag = SourceApiSet | BackgroundApiSet | GradientColorSet | DirtySourceTransform | Stretched

  /** An item that can be a texture source; null is None. */
  type ItemId = nat

  /** The properties of a deprecated `image` item that the shape follows. */
  datatype ImageProperties = ImageProperties(fillMode: int, horizontalAlignment: int, verticalAlignment: int)

  /** QQuickImage::PreserveAspectCrop. */
  const PreserveAspectCrop: int := 2
  /** Qt::AlignLeft, Qt::AlignRight, Qt::AlignTop, Qt::AlignBottom. */
  const QtAlignLeft: int := 0x1
  const QtAlignRight: int := 0x2
  const QtAlignTop: int := 0x20
  const QtAlignBottom: int := 0x40

  function HAlignmentOf(q: int): (h: HAlignment)
    ensures h == AlignLeft <==> q == QtAlignLeft
    ensures h == AlignRight <==> q == QtAlignRight
  {
    if q == QtAlignLeft then AlignLeft else if q == QtAlignRight then AlignRight else AlignHCenter
  }

  function VAlignmentOf(q: int): (v: VAlignment)
    ensures v == AlignTop <==> q == QtAlignTop
    ensures v == AlignBottom <==> q == QtAlignBottom
  {
    if q == QtAlignTop then AlignTop else if q == QtAlignBottom then AlignBottom else AlignVCenter
  }

  datatype ShapeEvent =
    | Update
    | RadiusChanged | BorderSourceChanged
    | SourceChanged | ImageChanged
    | BackgroundColorChanged | SecondaryBackgroundColorChanged | BackgroundModeChanged
    | ColorChanged | GradientColorChanged
    | StretchedChanged | HorizontalAlignmentChanged | VerticalAlignmentChanged

  /** The radius a `radius` string selects. */
  function RadiusOf(s: string): (r: Radius)
    ensures r == MediumRadius <==> s == "medium"
  {
    if s == "medium" then MediumRadius else SmallRadius
  }

  /** The border a `borderSource` string selects, by its suffix. */
  function BorderOf(s: string): (b: Border)
    ensures b == IdleBorder <==> EndsWith(s, "radius_idle.sci")
    ensures b == PressedBorder <==> !EndsWith(s, "radius_idle.sci") && EndsWith(s, "radius_pressed.sci")
  {
    if EndsWith(s, "radius_idle.sci") then IdleBorder
    else if EndsWith(s, "radius_pressed.sci") then PressedBorder
    else RawBorder
  }

  /** The shape texture coordinate set chosen in updatePaintNode. */
  function ShapeIndex(border: Border, radius: Radius): (i: nat)
    ensures i < 6
    ensures (i >= 3) <==> radius == SmallRadius
    ensures i % 3 == (match border case RawBorder => 0 case IdleBorder => 1 case PressedBorder => 2)
  {
    var index := if border == RawBorder then 0 else if border == IdleBorder then 1 else 2;
    if radius == SmallRadius then index + 3 else index
  }

  /** ShapeIndex tells both choices apart: no two states share an index. */
  lemma ShapeIndexInjective(b1: Border, r1: Radius, b2: Border, r2: Radius)
    requires ShapeIndex(b1, r1) == ShapeIndex(b2, r2)
    ensures b1 == b2 && r1 == r2
  {
  }

  /** The two background colours chosen in updatePaintNode. */
  function BackgroundColors(flags: set<Flag>, mode: BackgroundMode, background: QRgb, secondary: QRgb,
                            hasSourceTexture: bool): (colors: (QRgb, QRgb))
    ensures BackgroundApiSet in flags ==> colors.0 == background
    ensures BackgroundApiSet in flags && mode == SolidColor ==> colors.1 == background
    ensures BackgroundApiSet in flags && mode == VerticalGradient ==> colors.1 == secondary
    ensures BackgroundApiSet !in flags && hasSourceTexture ==> colors == (Transparent, Transparent)
    ensures BackgroundApiSet !in flags && !hasSourceTexture ==> colors == (background, secondary)
  {
    if BackgroundApiSet in flags then
      (background, if mode == SolidColor then background else secondary)
    else if !hasSourceTexture then (background, secondary)
    else (Transparent, Transparent)
  }

  /** The four packed vertex colours of the background, top to bottom. */
  function BackgroundStops(colors: (QRgb, QRgb), radiusHeight: bv32): seq<bv32>
  {
    [PackRgb(colors.0), LerpColor(radiusHeight, colors.0, colors.1),
     LerpColor(255 - radiusHeight, colors.0, colors.1), PackRgb(colors.1)]
  }

  /** A solid background yields the same packed colour at all four stops. */
  lemma SolidBackgroundUniform(flags: set<Flag>, background: QRgb, secondary: QRgb,
                               hasSourceTexture: bool, radiusHeight: bv32)
    requires BackgroundApiSet in flags
    ensures var s := BackgroundStops(BackgroundColors(flags, SolidColor, background, secondary, hasSourceTexture), radiusHeight);
      s == [PackRgb(background), PackRgb(background), PackRgb(background), PackRgb(background)]
  {
    LerpColorSame(radiusHeight, background);
    LerpColorSame(255 - radiusHeight, background);
  }

  /** The update and change signal a setter emits, exactly when the value changes. */
  function ChangeEvents<T(==)>(before: T, after: T, changed: ShapeEvent): seq<ShapeEvent>
  {
    if before == after then [] else [Update, changed]
  }

  /** What dropImageSupport emits: only its first call, and only when an image was set. */
  function DropImageEvents(flags: set<Flag>, source: Option<ItemId>): seq<ShapeEvent>
  {
    if SourceApiSet !in flags && source.Some? then [Update, ImageChanged] else []
  }

  /** What dropColorSupport emits: only its first call, one signal per non-zero colour. */
  function DropColorEvents(flags: set<Flag>, background: QRgb, secondary: QRgb): seq<ShapeEvent>
  {
    if BackgroundApiSet in flags then []
    else (if background != 0 then [ColorChanged] else []) + (if secondary != 0 then [GradientColorChanged] else [])
  }

  /** A colour after dropColorSupport: kept once the new API is in use, zeroed on its first use. */
  function ColorAfterDrop(flags: set<Flag>, c: QRgb): QRgb
  {
    if BackgroundApiSet in flags then c else Transparent
  }

  /** The stretched flag an image's fill mode asks for. */
  function StretchedFor(p: ImageProperties): bool
  {
    p.fillMode != PreserveAspectCrop
  }

  /** The signals of updateFromImageProperties: stretched, then the two alignments, each on a change. */
  function ImagePropertyEvents(flags: set<Flag>, h: HAlignment, v: VAlignment, p: ImageProperties): seq<ShapeEvent>
  {
    ChangeEvents(Stretched in flags, StretchedFor(p), StretchedChanged)
    + ChangeEvents(h, HAlignmentOf(p.horizontalAlignment), HorizontalAlignmentChanged)
    + ChangeEvents(v, VAlignmentOf(p.verticalAlignment), VerticalAlignmentChanged)
  }

  /** The flags after updateFromImageProperties: Stretched follows the fill mode, and the
      source transform is dirtied exactly when one of the three properties changed. */
  function ImagePropertyFlags(flags: set<Flag>, h: HAlignment, v: VAlignment, p: ImageProperties): set<Flag>
  {
    (flags - {Stretched}) + (if StretchedFor(p) then {Stretched} else {})
    + (if ImagePropertyEvents(flags, h, v, p) == [] then {} else {DirtySourceTransform})
  }

  class UCUbuntuShape {
    var radius: Radius
    var border: Border
    var source: Option<ItemId>
    var backgroundColor: QRgb
    var secondaryBackgroundColor: QRgb
    var backgroundMode: BackgroundMode
    var imageHorizontalAlignment: HAlignment
    var imageVerticalAlignment: VAlignment
    var flags: set<Flag>
    var events: seq<ShapeEvent>

    constructor ()
      ensures radius == SmallRadius && border == IdleBorder && source == None
      ensures backgroundColor == Transparent && secondaryBackgroundColor == Transparent
      ensures backgroundMode == SolidColor
      ensures imageHorizontalAlignment == AlignHCenter && imageVerticalAlignment == AlignVCenter
      ensures flags == {Stretched} && events == []
    {
      radius := SmallRadius;
      border := IdleBorder;
      source := None;
      backgroundColor := Transparent;
      secondaryBackgroundColor := Transparent;
      backgroundMode := SolidColor;
      imageHorizontalAlignment := AlignHCenter;
      imageVerticalAlignment := AlignVCenter;
      flags := {Stretched};
      events := [];
    }

    method SetRadius(s: string)
      modifies this`radius, this`events
      ensures radius == RadiusOf(s)
      ensures events == old(events) + (if old(radius) == radius then [] else [Update, RadiusChanged])
    {
      var newRadius := RadiusOf(s);
      if radius != newRadius {
        radius := newRadius;
        events := events + [Update, RadiusChanged];
      }
    }

    method SetBorderSource(s: string)
      modifies this`border, this`events
      ensures border == BorderOf(s)
      ensures events == old(events) + (if old(border) == border then [] else [Update, BorderSourceChanged])
    {
      var newBorder := BorderOf(s);
      if border != newBorder {
        border := newBorder;
        events := events + [Update, BorderSourceChanged];
      }
    }

    /** Latches SourceApiSet; only the first call drops a deprecated image. */
    method DropImageSupport()
      modifies this`flags, this`source, this`events
      ensures flags == old(flags) + {SourceApiSet}
      ensures SourceApiSet in old(flags) ==> source == old(source) && events == old(events)
      ensures SourceApiSet !in old(flags) ==>
        source == None && events == old(events) + (if old(source).Some? then [Update, ImageChanged] else [])
    {
      if SourceApiSet !in flags {
        flags := flags + {SourceApiSet};
        if source.Some? {
          source := None;
          events := events + [Update, ImageChanged];
        }
      }
    }

    method SetSource(newSource: Option<ItemId>)
      modifies this`flags, this`source, this`events
      ensures source == newSource
      ensures flags == old(flags) + {SourceApiSet}
        + (if newSource.Some? && newSource != (if SourceApiSet in old(flags) then old(source) else None)
           then {DirtySourceTransform} else {})
      ensures events == old(events) + DropImageEvents(old(flags), old(source))
        + ChangeEvents(if SourceApiSet in old(flags) then old(source) else None, newSource, SourceChanged)
    {
      DropImageSupport();
      if source != newSource {
        if newSource.Some? {
          flags := flags + {DirtySourceTransform};
        }
        source := newSource;
        events := events + [Update, SourceChanged];
      }
    }

    /** Latches BackgroundApiSet; only the first call clears the colours. */
    method DropColorSupport()
      modifies this`flags, this`backgroundColor, this`secondaryBackgroundColor, this`events
      ensures flags == old(flags) + {BackgroundApiSet}
      ensures BackgroundApiSet in old(flags) ==>
        backgroundColor == old(backgroundColor) && secondaryBackgroundColor == old(secondaryBackgroundColor) &&
        events == old(events)
      ensures BackgroundApiSet !in old(flags) ==>
        backgroundColor == Transparent && secondaryBackgroundColor == Transparent &&
        events == old(events) + (if old(backgroundColor) != 0 then [ColorChanged] else [])
                              + (if old(secondaryBackgroundColor) != 0 then [GradientColorChanged] else [])
    {
      if BackgroundApiSet !in flags {
        flags := flags + {BackgroundApiSet};
        if backgroundColor != 0 {
          backgroundColor := Transparent;
          events := events + [ColorChanged];
        }
        if secondaryBackgroundColor != 0 {
          secondaryBackgroundColor := Transparent;
          events := events + [GradientColorChanged];
        }
      }
    }

    method SetBackgroundColor(c: QRgb)
      modifies this`flags, this`backgroundColor, this`secondaryBackgroundColor, this`events
      ensures BackgroundApiSet in flags && backgroundColor == c
      ensures flags == old(flags) + {BackgroundApiSet}
      ensures secondaryBackgroundColor == ColorAfterDrop(old(flags), old(secondaryBackgroundColor))
      ensures events == old(events) + DropColorEvents(old(flags), old(backgroundColor), old(secondaryBackgroundColor))
        + ChangeEvents(ColorAfterDrop(old(flags), old(backgroundColor)), c, BackgroundColorChanged)
    {
      DropColorSupport();
      if backgroundColor != c {
        backgroundColor := c;
        events := events + [Update, BackgroundColorChanged];
      }
    }

    method SetSecondaryBackgroundColor(c: QRgb)
      modifies this`flags, this`backgroundColor, this`secondaryBackgroundColor, this`events
      ensures BackgroundApiSet in flags && secondaryBackgroundColor == c
      ensures flags == old(flags) + {BackgroundApiSet}
      ensures backgroundColor == ColorAfterDrop(old(flags), old(backgroundColor))
      ensures events == old(events) + DropColorEvents(old(flags), old(backgroundColor), old(secondaryBackgroundColor))
        + ChangeEvents(ColorAfterDrop(old(flags), old(secondaryBackgroundColor)), c, SecondaryBackgroundColorChanged)
    {
      DropColorSupport();
      if secondaryBackgroundColor != c {
        secondaryBackgroundColor := c;
        events := events + [Update, SecondaryBackgroundColorChanged];
      }
    }

    method SetBackgroundMode(mode: BackgroundMode)
      modifies this`flags, this`backgroundColor, this`secondaryBackgroundColor, this`backgroundMode, this`events
      ensures BackgroundApiSet in flags && backgroundMode == mode
      ensures flags == old(flags) + {BackgroundApiSet}
      ensures backgroundColor == ColorAfterDrop(old(flags), old(backgroundColor))
      ensures secondaryBackgroundColor == ColorAfterDrop(old(flags), old(secondaryBackgroundColor))
      ensures events == old(events) + DropColorEvents(old(flags), old(backgroundColor), old(secondaryBackgroundColor))
        + ChangeEvents(old(backgroundMode), mode, BackgroundModeChanged)
    {
      DropColorSupport();
      if backgroundMode != mode {
        backgroundMode := mode;
        events := events + [Update, BackgroundModeChanged];
      }
    }

    /** Deprecated `color`: also feeds the secondary colour until a gradient colour is set. */
    method SetColor(c: QRgb)
      modifies this`backgroundColor, this`secondaryBackgroundColor, this`events
      ensures BackgroundApiSet in flags || old(backgroundColor) == c ==>
        backgroundColor == old(backgroundColor) && secondaryBackgroundColor == old(secondaryBackgroundColor) &&
        events == old(events)
      ensures BackgroundApiSet !in flags && old(backgroundColor) != c ==>
        backgroundColor == c &&
        secondaryBackgroundColor == (if GradientColorSet in flags then old(secondaryBackgroundColor) else c) &&
        events == old(events) + (if GradientColorSet in flags then [] else [GradientColorChanged]) + [Update, ColorChanged]
    {
      if BackgroundApiSet !in flags {
        if backgroundColor != c {
          backgroundColor := c;
          if GradientColorSet !in flags {
            secondaryBackgroundColor := c;
            events := events + [GradientColorChanged];
          }
          events := events + [Update, ColorChanged];
        }
      }
    }

    /** Deprecated `gradientColor`: latches GradientColorSet. */
    method SetGradientColor(c: QRgb)
      modifies this`flags, this`secondaryBackgroundColor, this`events
      ensures BackgroundApiSet in old(flags) ==>
        flags == old(flags) && secondaryBackgroundColor == old(secondaryBackgroundColor) && events == old(events)
      ensures BackgroundApiSet !in old(flags) ==>
        flags == old(flags) + {GradientColorSet} && secondaryBackgroundColor == c &&
        events == old(events) + (if old(secondaryBackgroundColor) == c then [] else [Update, GradientColorChanged])
    {
      if BackgroundApiSet !in flags {
        flags := flags + {GradientColorSet};
        if secondaryBackgroundColor != c {
          secondaryBackgroundColor := c;
          events := events + [Update, GradientColorChanged];
        }
      }
    }

    method SetStretched(stretched: bool)
      modifies this`flags, this`events
      ensures SourceApiSet in old(flags) || (Stretched in old(flags)) == stretched ==>
        flags == old(flags) && events == old(events)
      ensures SourceApiSet !in old(flags) && (Stretched in old(flags)) != stretched ==>
        flags == (if stretched then old(flags) + {Stretched} else old(flags) - {Stretched}) + {DirtySourceTransform} &&
        events == old(events) + [Update, StretchedChanged]
    {
      if SourceApiSet !in flags {
        if (Stretched in flags) != stretched {
          if stretched {
            flags := flags + {Stretched};
          } else {
            flags := flags - {Stretched};
          }
          flags := flags + {DirtySourceTransform};
          events := events + [Update, StretchedChanged];
        }
      }
    }

    method SetHorizontalAlignment(h: HAlignment)
      modifies this`flags, this`imageHorizontalAlignment, this`events
      ensures SourceApiSet in old(flags) || old(imageHorizontalAlignment) == h ==>
        flags == old(flags) && imageHorizontalAlignment == old(imageHorizontalAlignment) && events == old(events)
      ensures SourceApiSet !in old(flags) && old(imageHorizontalAlignment) != h ==>
        imageHorizontalAlignment == h && flags == old(flags) + {DirtySourceTransform} &&
        events == old(events) + [Update, HorizontalAlignmentChanged]
    {
      if SourceApiSet !in flags {
        if imageHorizontalAlignment != h {
          imageHorizontalAlignment := h;
          flags := flags + {DirtySourceTransform};
          events := events + [Update, HorizontalAlignmentChanged];
        }
      }
    }

    method SetVerticalAlignment(v: VAlignment)
      modifies this`flags, this`imageVerticalAlignment, this`events
      ensures SourceApiSet in old(flags) || old(imageVerticalAlignment) == v ==>
        flags == old(flags) && imageVerticalAlignment == old(imageVerticalAlignment) && events == old(events)
      ensures SourceApiSet !in old(flags) && old(imageVerticalAlignment) != v ==>
        imageVerticalAlignment == v && flags == old(flags) + {DirtySourceTransform} &&
        events == old(events) + [Update, VerticalAlignmentChanged]
    {
      if SourceApiSet !in flags {
        if imageVerticalAlignment != v {
          imageVerticalAlignment := v;
          flags := flags + {DirtySourceTransform};
          events := events + [Update, VerticalAlignmentChanged];
        }
      }
    }

    /** updateFromImageProperties: the shape follows the image's fill mode and alignments. */
    method UpdateFromImageProperties(p: ImageProperties)
      modifies this`flags, this`imageHorizontalAlignment, this`imageVerticalAlignment, this`events
      ensures SourceApiSet in old(flags) ==>
        flags == old(flags) && imageHorizontalAlignment == old(imageHorizontalAlignment) &&
        imageVerticalAlignment == old(imageVerticalAlignment) && events == old(events)
      ensures SourceApiSet !in old(flags) ==>
        flags == ImagePropertyFlags(old(flags), old(imageHorizontalAlignment), old(imageVerticalAlignment), p) &&
        imageHorizontalAlignment == HAlignmentOf(p.horizontalAlignment) &&
        imageVerticalAlignment == VAlignmentOf(p.verticalAlignment) &&
        events == old(events) + ImagePropertyEvents(old(flags), old(imageHorizontalAlignment), old(imageVerticalAlignment), p)
    {
      SetStretched(p.fillMode != PreserveAspectCrop);
      SetHorizontalAlignment(HAlignmentOf(p.horizontalAlignment));
      SetVerticalAlignment(VAlignmentOf(p.verticalAlignment));
    }

    /** Deprecated `image`. */
    method SetImage(newImage: Option<ItemId>, p: ImageProperties)
      modifies this`flags, this`source, this`imageHorizontalAlignment, this`imageVerticalAlignment, this`events
      ensures SourceApiSet in old(flags) || old(source) == newImage ==>
        flags == old(flags) && source == old(source) && events == old(events) &&
        imageHorizontalAlignment == old(imageHorizontalAlignment) &&
        imageVerticalAlignment == old(imageVerticalAlignment)
      ensures SourceApiSet !in old(flags) && old(source) != newImage && newImage.None? ==>
        source == None && flags == old(flags) && events == old(events) + [Update, ImageChanged] &&
        imageHorizontalAlignment == old(imageHorizontalAlignment) &&
        imageVerticalAlignment == old(imageVerticalAlignment)
      ensures SourceApiSet !in old(flags) && old(source) != newImage && newImage.Some? ==>
        source == newImage &&
        flags == ImagePropertyFlags(old(flags), old(imageHorizontalAlignment), old(imageVerticalAlignment), p)
                 + {DirtySourceTransform} &&
        imageHorizontalAlignment == HAlignmentOf(p.horizontalAlignment) &&
        imageVerticalAlignment == VAlignmentOf(p.verticalAlignment) &&
        events == old(events) + ImagePropertyEvents(old(flags), old(imageHorizontalAlignment), old(imageVerticalAlignment), p)
                  + [Update, ImageChanged]
    {
      if SourceApiSet !in flags {
        if source != newImage {
          if newImage.Some? {
            UpdateFromImageProperties(p);
            flags := flags + {DirtySourceTransform};
          }
          events := events + [Update];
          source := newImage;
          events := events + [ImageChanged];
        }
      }
    }

    /** The background colours the next paint would use. */
    function PaintColors(hasSourceTexture: bool): (colors: (QRgb, QRgb))
      reads this
      ensures (BackgroundApiSet !in flags && GradientColorSet !in flags && !hasSourceTexture &&
               backgroundColor == secondaryBackgroundColor) ==> colors.0 == colors.1
    {
      BackgroundColors(flags, backgroundMode, backgroundColor, secondaryBackgroundColor, hasSourceTexture)
    }
  }

  /** After the new colour API has been used once, the deprecated colour setters change nothing. */
  method DeprecatedColorIgnored(c1: QRgb, c2: QRgb, c3: QRgb) returns (bg: QRgb, sec: QRgb)
    ensures bg == c1 && sec == Transparent
  {
    var shape := new UCUbuntuShape();
    shape.SetBackgroundColor(c1);
    shape.SetColor(c2);
    shape.SetGradientColor(c3);
    bg, sec := shape.backgroundColor, shape.secondaryBackgroundColor;
  }

  /** Until setGradientColor is called, the deprecated colour paints a uniform background. */
  method DeprecatedColorIsUniform(c: QRgb) returns (colors: (QRgb, QRgb))
    ensures colors == (c, c)
  {
    var shape := new UCUbuntuShape();
    shape.SetColor(c);
    colors := shape.PaintColors(false);
  }

  /** Once the source API is in use, the deprecated image setters leave the shape alone. */
  method DeprecatedImageIgnored(item: ItemId, other: ItemId, p: ImageProperties) returns (src: Option<ItemId>, stretched: bool)
    ensures src == Some(item) && stretched
  {
    var shape := new UCUbuntuShape();
    shape.SetSource(Some(item));
    shape.SetImage(Some(other), p);
    shape.SetStretched(false);
    shape.SetHorizontalAlignment(AlignLeft);
    src, stretched := shape.source, Stretched in shape.flags;
  }
}
