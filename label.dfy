// UCLabel (uclabel.cpp): the adaptive size of a Label and the deprecated
// string `fontSize` property, whose value is decoded from its first four
// Latin-1 characters read as one little-endian 32-bit word.
module Label {
  import opened Common

  /** Label.AdaptiveSize, smallest first. */
  datatype AdaptiveSize = XxSmall | XSmall | Small | Medium | Large | XLarge

  datatype LabelEvent = FontSizeChanged | AdaptiveSizeChanged | PixelSizeUpdated

  /** QString::toLatin1 on one character: code points above 255 become '?'. */
  function Latin1(c: char): (b: nat)
    ensures b < 256
    ensures c as int < 256 ==> b == c as int
  {
    if c as int < 256 then c as int else '?' as int
  }

  /** Four bytes read as one little-endian word. */
  function Pack(b0: nat, b1: nat, b2: nat, b3: nat): nat
  {
    b0 + 256 * (b1 + 256 * (b2 + 256 * b3))
  }

  /** The int the source reads through `reinterpret_cast<int*>` on a little-endian machine. */
  function FirstWord(s: string): nat
    requires |s| >= 4
  {
    Pack(Latin1(s[0]), Latin1(s[1]), Latin1(s[2]), Latin1(s[3]))
  }

  /** The switch in setFontSize. */
  function SizeOfWord(w: nat): Option<AdaptiveSize>
  {
    if w == 0x6964656d then Some(Medium)
    else if w == 0x6772616c then Some(Large)
    else if w == 0x6c616d73 then Some(Small)
    else if w == 0x616c2d78 then Some(XLarge)
    else if w == 0x6d732d78 then Some(XSmall)
    else if w == 0x732d7878 then Some(XxSmall)
    else None
  }

  /** The four characters that select each size. */
  function Keyword(a: AdaptiveSize): (k: string)
    ensures |k| == 4
  {
    match a
    case Medium => "medi"
    case Large => "larg"
    case Small => "smal"
    case XLarge => "x-la"
    case XSmall => "x-sm"
    case XxSmall => "xx-s"
  }

  /** The size a fontSize string selects, or None when setFontSize ignores it. */
  function DecodeFontSize(s: string): (r: Option<AdaptiveSize>)
    ensures |s| < 4 ==> r.None?
    ensures forall a :: r == Some(a) <==> (|s| >= 4 && s[..4] == Keyword(a))
  {
    if |s| < 4 then None
    else
      DecodeByKeyword(s);
      SizeOfWord(FirstWord(s))
  }

  lemma PackDigits(b0: nat, rest: nat)
    requires b0 < 256
    ensures (b0 + 256 * rest) % 256 == b0 && (b0 + 256 * rest) / 256 == rest
  {
  }

  lemma PackInjective(a0: nat, a1: nat, a2: nat, a3: nat, b0: nat, b1: nat, b2: nat, b3: nat)
    requires a0 < 256 && a1 < 256 && a2 < 256 && b0 < 256 && b1 < 256 && b2 < 256
    ensures Pack(a0, a1, a2, a3) == Pack(b0, b1, b2, b3) <==> (a0 == b0 && a1 == b1 && a2 == b2 && a3 == b3)
  {
    if Pack(a0, a1, a2, a3) == Pack(b0, b1, b2, b3) {
      PackDigits(a0, a1 + 256 * (a2 + 256 * a3));
      PackDigits(b0, b1 + 256 * (b2 + 256 * b3));
      PackDigits(a1, a2 + 256 * a3);
      PackDigits(b1, b2 + 256 * b3);
      PackDigits(a2, a3);
      PackDigits(b2, b3);
    }
  }

  lemma WordOfKeyword(a: AdaptiveSize)
    ensures SizeOfWord(FirstWord(Keyword(a))) == Some(a)
  {
  }

  /** The packed word of s equals that of a keyword exactly when s starts with the keyword. */
  lemma WordMatchesKeyword(s: string, a: AdaptiveSize)
    requires |s| >= 4
    ensures FirstWord(s) == FirstWord(Keyword(a)) <==> s[..4] == Keyword(a)
  {
    var k := Keyword(a);
    PackInjective(Latin1(s[0]), Latin1(s[1]), Latin1(s[2]), Latin1(s[3]),
                  Latin1(k[0]), Latin1(k[1]), Latin1(k[2]), Latin1(k[3]));
    forall i | 0 <= i < 4
      ensures Latin1(s[i]) == Latin1(k[i]) <==> s[i] == k[i]
    {
      assert k[i] as int < 256 && k[i] != '?';
    }
    if s[..4] == k {
      assert forall i | 0 <= i < 4 :: s[i] == k[i];
    }
    if FirstWord(s) == FirstWord(k) {
      assert forall i | 0 <= i < 4 :: s[..4][i] == k[i];
    }
  }

  lemma DecodeByKeyword(s: string)
    requires |s| >= 4
    ensures forall a :: SizeOfWord(FirstWord(s)) == Some(a) <==> s[..4] == Keyword(a)
  {
    forall a
      ensures SizeOfWord(FirstWord(s)) == Some(a) <==> s[..4] == Keyword(a)
    {
      WordMatchesKeyword(s, a);
      WordOfKeyword(a);
      if SizeOfWord(FirstWord(s)) == Some(a) {
        KeywordWords(a);
      }
    }
  }

  /** The six keyword words are exactly the six cases of the switch. */
  lemma KeywordWords(a: AdaptiveSize)
    ensures SizeOfWord(FirstWord(Keyword(a))) == Some(a)
    ensures forall w :: SizeOfWord(w) == Some(a) ==> w == FirstWord(Keyword(a))
  {
  }

  /** The documented property values decode to the documented sizes. */
  lemma DocumentedFontSizes()
    ensures DecodeFontSize("xx-small") == Some(XxSmall)
    ensures DecodeFontSize("x-small") == Some(XSmall)
    ensures DecodeFontSize("small") == Some(Small)
    ensures DecodeFontSize("medium") == Some(Medium)
    ensures DecodeFontSize("large") == Some(Large)
    ensures DecodeFontSize("x-large") == Some(XLarge)
    ensures DecodeFontSize("huge") == None
  {
    assert "xx-small"[..4] == Keyword(XxSmall);
    assert "x-small"[..4] == Keyword(XSmall);
    assert "small"[..4] == Keyword(Small);
    assert "medium"[..4] == Keyword(Medium);
    assert "large"[..4] == Keyword(Large);
    assert "x-large"[..4] == Keyword(XLarge);
  }

  class UCLabel {
    var adaptiveSize: AdaptiveSize
    /** The AdaptiveSizeSet bit of m_flags. */
    var adaptiveSizeSet: bool
    var events: seq<LabelEvent>

    constructor ()
      ensures adaptiveSize == Medium && !adaptiveSizeSet && events == [PixelSizeUpdated]
    {
      adaptiveSize := Medium;
      adaptiveSizeSet := false;
      events := [PixelSizeUpdated];
    }

    method SetAdaptiveSize(size: AdaptiveSize)
      modifies this
      ensures adaptiveSizeSet && adaptiveSize == size
      ensures events == old(events)
        + (if old(adaptiveSizeSet) then [] else [FontSizeChanged])
        + (if old(adaptiveSize) == size then [] else [PixelSizeUpdated, AdaptiveSizeChanged])
    {
      var emitted: seq<LabelEvent> := [];
      if !adaptiveSizeSet {
        emitted := [FontSizeChanged];
        adaptiveSizeSet := true;
      }
      if adaptiveSize != size {
        adaptiveSize := size;
        emitted := emitted + [PixelSizeUpdated, AdaptiveSizeChanged];
      }
      events := events + emitted;
    }

    /** The deprecated fontSize setter. */
    method SetFontSize(fontSize: string)
      modifies this
      ensures adaptiveSizeSet == old(adaptiveSizeSet)
      ensures old(adaptiveSizeSet) || DecodeFontSize(fontSize).None? ==>
        adaptiveSize == old(adaptiveSize) && events == old(events)
      ensures !old(adaptiveSizeSet) && DecodeFontSize(fontSize).Some? ==>
        adaptiveSize == DecodeFontSize(fontSize).value &&
        events == old(events) + (if old(adaptiveSize) == adaptiveSize then [] else [PixelSizeUpdated, FontSizeChanged])
    {
      if adaptiveSizeSet {
        return;
      }
      if |fontSize| < 4 {
        return;
      }
      var decoded := SizeOfWord(FirstWord(fontSize));
      if decoded.None? {
        return;
      }
      if adaptiveSize != decoded.value {
        adaptiveSize := decoded.value;
        events := events + [PixelSizeUpdated, FontSizeChanged];
      }
    }
  }

  /** Once setAdaptiveSize has been called, setFontSize can never change the size again. */
  method AdaptiveSizeWins(size: AdaptiveSize, fontSize: string) returns (final: AdaptiveSize)
    ensures final == size
  {
    var item := new UCLabel();
    item.SetAdaptiveSize(size);
    item.SetFontSize(fontSize);
    final := item.adaptiveSize;
  }
}
