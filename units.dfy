// Units (src/UbuntuToolkit/ucunits.cpp): the grid unit, the conversion of
// grid units and density-independent pixels to pixels, and the lookup of an
// image resource designed for the nearest grid unit.
module Units {
  import opened Common

  /** DEFAULT_GRID_UNIT_PX. */
  const DefaultGridUnitPx: real := 8.0

  /** qCeil. */
  function Ceil(x: real): (r: int)
    ensures x <= r as real < x + 1.0
  {
    -Floor(-x)
  }

  /** qFuzzyCompare on floats: the difference is at most a 100000th of the smaller magnitude. */
  predicate FuzzyEqual(p1: real, p2: real)
  {
    AbsR(p1 - p2) * 100000.0 <= MinR(AbsR(p1), AbsR(p2))
  }

  /** value scaled and rounded to a whole number of device pixels, as qRound does. */
  function DevicePixels(value: real, scale: real): int
  {
    Round(value * scale)
  }

  /** A whole number of device pixels in density-independent pixels. */
  function PerDevicePixel(pixels: int, devicePixelRatio: real): (r: real)
    requires devicePixelRatio > 0.0
    ensures r * devicePixelRatio == pixels as real
  {
    pixels as real / devicePixelRatio
  }

  /** gu(value): value grid units in whole device pixels, expressed in density-independent pixels. */
  function GridUnits(gridUnit: real, devicePixelRatio: real, value: real): real
    requires devicePixelRatio > 0.0
  {
    PerDevicePixel(DevicePixels(value, gridUnit), devicePixelRatio)
  }

  /**
   * dp(value): the ratio of the grid unit to 8 pixels scales value; values
   * up to 2 scale only by the whole part of that ratio.
   */
  function DensityPixels(gridUnit: real, devicePixelRatio: real, value: real): real
    requires devicePixelRatio > 0.0
  {
    var ratio := gridUnit / DefaultGridUnitPx;
    if value <= 2.0 then PerDevicePixel(DevicePixels(value, Floor(ratio) as real), devicePixelRatio)
    else PerDevicePixel(DevicePixels(value, ratio), devicePixelRatio)
  }

  /** Multiplying back by the device pixel ratio gives a whole number of pixels. */
  predicate WholeDevicePixels(x: real, devicePixelRatio: real)
  {
    (x * devicePixelRatio).Floor as real == x * devicePixelRatio
  }

  /** gu lands on whole device pixels, at most half a pixel from the exact product. */
  lemma GridUnitsRounded(gridUnit: real, devicePixelRatio: real, value: real)
    requires devicePixelRatio > 0.0
    ensures WholeDevicePixels(GridUnits(gridUnit, devicePixelRatio, value), devicePixelRatio)
    ensures AbsR(GridUnits(gridUnit, devicePixelRatio, value) * devicePixelRatio - value * gridUnit) <= 1.0 / 2.0
  {
    var px := DevicePixels(value, gridUnit);
    assert GridUnits(gridUnit, devicePixelRatio, value) * devicePixelRatio == px as real;
    assert (px as real).Floor == px;
  }

  /** Rounding to the nearest integer never reverses an order. */
  lemma DevicePixelsMonotone(v1: real, s1: real, v2: real, s2: real)
    requires v1 * s1 <= v2 * s2
    ensures DevicePixels(v1, s1) <= DevicePixels(v2, s2)
  {
  }

  lemma PerDevicePixelMonotone(p1: int, p2: int, devicePixelRatio: real)
    requires devicePixelRatio > 0.0 && p1 <= p2
    ensures PerDevicePixel(p1, devicePixelRatio) <= PerDevicePixel(p2, devicePixelRatio)
  {
    assert (p2 as real - p1 as real) / devicePixelRatio >= 0.0;
  }

  /** A larger value never gives fewer pixels. */
  lemma GridUnitsMonotone(gridUnit: real, devicePixelRatio: real, v1: real, v2: real)
    requires devicePixelRatio > 0.0 && gridUnit >= 0.0 && v1 <= v2
    ensures GridUnits(gridUnit, devicePixelRatio, v1) <= GridUnits(gridUnit, devicePixelRatio, v2)
  {
    ScaleMonotone(v1, v2, gridUnit, gridUnit);
    DevicePixelsMonotone(v1, gridUnit, v2, gridUnit);
    PerDevicePixelMonotone(DevicePixels(v1, gridUnit), DevicePixels(v2, gridUnit), devicePixelRatio);
  }

  lemma ScaleMonotone(v1: real, v2: real, s1: real, s2: real)
    requires v1 <= v2 && 0.0 <= s1 <= s2 && (v2 >= 0.0 || s1 == s2)
    ensures v1 * s1 <= v2 * s2
  {
    assert (v2 - v1) * s1 >= 0.0;
    assert v2 * (s2 - s1) >= 0.0 || s1 == s2;
  }

  /**
   * dp of a value up to 2 depends only on the whole part of gridUnit / 8:
   * two grid units with the same whole ratio give the same small sizes.
   */
  lemma DensityPixelsSmallWhole(g1: real, g2: real, devicePixelRatio: real, value: real)
    requires devicePixelRatio > 0.0 && value <= 2.0
    requires Floor(g1 / DefaultGridUnitPx) == Floor(g2 / DefaultGridUnitPx)
    ensures DensityPixels(g1, devicePixelRatio, value) == DensityPixels(g2, devicePixelRatio, value)
  {
  }

  /** A whole number of dp up to 2 is that many whole multiples of the ratio, in device pixels. */
  lemma DensityPixelsSmallMultiple(gridUnit: real, devicePixelRatio: real, n: int)
    requires devicePixelRatio > 0.0 && n <= 2
    ensures DensityPixels(gridUnit, devicePixelRatio, n as real) * devicePixelRatio ==
            (n * Floor(gridUnit / DefaultGridUnitPx)) as real
  {
    var k := Floor(gridUnit / DefaultGridUnitPx);
    assert n as real * k as real == (n * k) as real;
    assert DevicePixels(n as real, k as real) == n * k;
  }

  /** Above 2 dp the exact ratio applies, to within half a device pixel. */
  lemma DensityPixelsLarge(gridUnit: real, devicePixelRatio: real, value: real)
    requires devicePixelRatio > 0.0 && value > 2.0
    ensures AbsR(DensityPixels(gridUnit, devicePixelRatio, value) * devicePixelRatio -
                 value * (gridUnit / DefaultGridUnitPx)) <= 1.0 / 2.0
  {
    assert DensityPixels(gridUnit, devicePixelRatio, value) * devicePixelRatio ==
           DevicePixels(value, gridUnit / DefaultGridUnitPx) as real;
  }

  /** For a non-negative grid unit dp never gives fewer pixels for a larger value, across the 2 dp threshold too. */
  lemma DensityPixelsMonotone(gridUnit: real, devicePixelRatio: real, v1: real, v2: real)
    requires devicePixelRatio > 0.0 && gridUnit >= 0.0 && v1 <= v2
    ensures DensityPixels(gridUnit, devicePixelRatio, v1) <= DensityPixels(gridUnit, devicePixelRatio, v2)
  {
    var ratio := gridUnit / DefaultGridUnitPx;
    var k := Floor(ratio) as real;
    var s1 := if v1 <= 2.0 then k else ratio;
    var s2 := if v2 <= 2.0 then k else ratio;
    ScaleMonotone(v1, v2, s1, s2);
    DevicePixelsMonotone(v1, s1, v2, s2);
    PerDevicePixelMonotone(DevicePixels(v1, s1), DevicePixels(v2, s2), devicePixelRatio);
  }

  // ---------------------------------------------------------------------
  // Grid unit suffixes of resource file names

  /** suffixForGridUnit, for a whole grid unit: "@" and its decimal digits. */
  function SuffixForGridUnit(unit: nat): string
  {
    "@" + NatToString(unit)
  }

  /**
   * gridUnitSuffixFromFileName: the pattern ^.*@([0-9]*).*$ captures the
   * (possibly empty) digit run after the last '@'; no '@' gives 0, as does an
   * empty run.
   */
  function SuffixFromFileName(fileName: string): (unit: nat)
  {
    match LastIndexOf(fileName, '@')
    case None => 0
    case Some(k) =>
      var rest := fileName[k + 1..];
      ParseDigits(rest[..DigitRunLength(rest)])
  }

  /** A file name without an '@' has suffix 0. */
  lemma SuffixWithoutAt(fileName: string)
    requires forall i :: 0 <= i < |fileName| ==> fileName[i] != '@'
    ensures SuffixFromFileName(fileName) == 0
  {
  }

  /**
   * Reading the suffix back from base + suffixForGridUnit(n) + extension gives
   * n, whatever the base, when the extension has no '@' and does not start
   * with a digit.
   */
  lemma SuffixRoundTrip(base: string, unit: nat, extension: string)
    requires forall i :: 0 <= i < |extension| ==> extension[i] != '@'
    requires extension == [] || !IsDigit(extension[0])
    ensures SuffixFromFileName(base + SuffixForGridUnit(unit) + extension) == unit
  {
    var digits := NatToString(unit);
    var name := base + SuffixForGridUnit(unit) + extension;
    assert name == base + ['@'] + (digits + extension);
    var k := |base|;
    assert name[k] == '@';
    forall j | k < j < |name|
      ensures name[j] != '@'
    {
      if j < k + 1 + |digits| {
        assert name[j] == digits[j - k - 1];
      } else {
        assert name[j] == extension[j - k - 1 - |digits|];
      }
    }
    assert LastIndexOf(name, '@') == Some(k);
    var rest := name[k + 1..];
    assert rest == digits + extension;
    DigitRunOfPrefix(digits, extension);
    assert rest[..|digits|] == digits;
    ParseNatToString(unit);
  }

  // ---------------------------------------------------------------------
  // Resource resolution

  /** A resolved resource file: a path as given, or prefix + suffixForGridUnit(unit) + suffix. */
  datatype ResourceFile = File(path: string) | UnitFile(prefix: string, unit: real, suffix: string)

  /**
   * What resolveResource returns: "" or "<scale>/<file>". A scale of None is
   * the infinity of a division by a zero grid unit suffix.
   */
  datatype Resolution = Unresolved | Resolved(scale: Option<real>, file: ResourceFile)

  /**
   * What the file system answers about one lookup: whether the path is present
   * and is a file, whether prefix + suffixForGridUnit(gridUnit) + suffix
   * exists, and the directory's files matching baseName@[0-9]*suffix, in
   * listing order.
   */
  datatype FileQueries = FileQueries(present: bool, isFile: bool, unitFileExists: bool, entries: seq<string>)

  /** dir().absolutePath() + "/" + baseName(). */
  function ResourcePrefix(path: string): string
  {
    DirPath(path) + "/" + BaseName(path)
  }

  /** "." + completeSuffix(). */
  function ResourceSuffix(path: string): string
  {
    "." + CompleteSuffix(path)
  }

  /** The grid unit suffixes of the listed files, as the floats the loop compares. */
  function EntryUnits(entries: seq<string>): (units: seq<real>)
    ensures |units| == |entries|
    ensures forall i :: 0 <= i < |entries| ==> units[i] == SuffixFromFileName(entries[i]) as real
  {
    seq(|entries|, i requires 0 <= i < |entries| => SuffixFromFileName(entries[i]) as real)
  }

  /** Some suffix is at least the grid unit. */
  predicate SomeAtLeast(units: seq<real>, gridUnit: real)
  {
    exists u :: u in units && u >= gridUnit
  }

  /**
   * The suffix to prefer: the smallest one at or above the grid unit when
   * there is one (downscaling a larger asset), otherwise the largest.
   */
  predicate BestSuffix(selected: real, units: seq<real>, gridUnit: real)
  {
    selected in units &&
    (SomeAtLeast(units, gridUnit) ==>
      selected >= gridUnit && forall u :: u in units && u >= gridUnit ==> selected <= u) &&
    (!SomeAtLeast(units, gridUnit) ==> forall u :: u in units ==> u <= selected)
  }

  /** The best suffix is unique, so the choice does not depend on the listing order. */
  lemma BestSuffixUnique(a: real, b: real, units: seq<real>, gridUnit: real)
    requires BestSuffix(a, units, gridUnit) && BestSuffix(b, units, gridUnit)
    ensures a == b
  {
  }

  /** Listing the same files in another order leaves the best suffix where it was. */
  lemma BestSuffixPermutation(selected: real, units: seq<real>, other: seq<real>, gridUnit: real)
    requires BestSuffix(selected, units, gridUnit)
    requires multiset(units) == multiset(other)
    ensures BestSuffix(selected, other, gridUnit)
  {
    forall u
      ensures u in units <==> u in other
    {
      assert u in units <==> u in multiset(units);
      assert u in other <==> u in multiset(other);
    }
  }

  /**
   * The selection loop of resolveResource: start from the first file's
   * suffix and go through all of them, taking a smaller suffix that is still
   * at or above the grid unit, or any larger suffix while below it.
   */
  method SelectSuffix(units: seq<real>, gridUnit: real) returns (selected: real)
    requires |units| > 0
    ensures BestSuffix(selected, units, gridUnit)
  {
    selected := units[0];
    var n := 0;
    while n < |units|
      invariant 0 <= n <= |units|
      invariant selected in units
      invariant n > 0 ==> selected in units[..n]
      invariant n == 0 ==> selected == units[0]
      invariant SomeAtLeast(units[..n], gridUnit) ==>
        selected >= gridUnit && forall u :: u in units[..n] && u >= gridUnit ==> selected <= u
      invariant !SomeAtLeast(units[..n], gridUnit) && n > 0 ==>
        selected < gridUnit && forall u :: u in units[..n] ==> u <= selected
    {
      var unit := units[n];
      if (selected >= gridUnit && unit >= gridUnit && unit < selected) || (selected < gridUnit && unit > selected) {
        selected := unit;
      }
      assert units[..n + 1] == units[..n] + [unit];
      n := n + 1;
    }
    assert units[..n] == units;
  }

  /** The example of the lookup's own description: grid unit 10 with @9, @14 and @18 picks @14. */
  lemma FourteenForTen(selected: real)
    requires BestSuffix(selected, [9.0, 14.0, 18.0], 10.0)
    ensures selected == 14.0
  {
    assert 14.0 in [9.0, 14.0, 18.0];
  }

  /** With only smaller assets, the largest is upscaled: grid unit 20 with @14 and @9 picks @14. */
  lemma LargestWhenAllSmaller(selected: real)
    requires BestSuffix(selected, [14.0, 9.0], 20.0)
    ensures selected == 14.0
  {
    assert 14.0 in [14.0, 9.0];
  }

  /** gridUnit / selected, with None for the infinity of a zero suffix. */
  function ScaleFactor(gridUnit: real, selected: real): (r: Option<real>)
    ensures selected != 0.0 ==> r.Some? && r.value * selected == gridUnit
    ensures selected == 0.0 ==> r.None?
  {
    if selected == 0.0 then None else Some(DivCancel(gridUnit, selected))
  }

  function DivCancel(x: real, d: real): (r: real)
    requires d != 0.0
    ensures r * d == x
  {
    x / d
  }

  datatype UnitsEvent = GridUnitChanged

  /** A "scale" window property counts unless several windows are open and it comes from the internal screen. */
  predicate ScaleApplies(isScale: bool, severalWindows: bool, onInternalScreen: bool, scale: Option<real>)
  {
    isScale && !(severalWindows && onInternalScreen) && scale.Some? && scale.value > 0.0
  }

  /** The grid unit for a window scale: the whole number of pixels at or above scale * 8 (qCeil), times the ratio. */
  function ScaledGridUnit(scale: real, devicePixelRatio: real): real
  {
    Ceil(scale * DefaultGridUnitPx) as real * devicePixelRatio
  }

  /** The GRID_UNIT_PX environment variable: unset, not a float, or a float. */
  datatype EnvValue = Unset | Unparsable | Value(value: real)

  class UCUnits {
    var gridUnit: real
    var devicePixelRatio: real
    var events: seq<UnitsEvent>

    predicate Valid()
      reads this
    {
      devicePixelRatio > 0.0
    }

    /**
     * GRID_UNIT_PX, when set, gives the grid unit (8 if it does not parse);
     * otherwise the grid unit is 8 device pixels.
     */
    constructor (env: EnvValue, ratio: real)
      requires ratio > 0.0
      ensures Valid() && devicePixelRatio == ratio && events == []
      ensures gridUnit == match env
        case Unset => DefaultGridUnitPx * ratio
        case Unparsable => DefaultGridUnitPx
        case Value(v) => v
    {
      devicePixelRatio := ratio;
      events := [];
      match env
      case Unset => gridUnit := DefaultGridUnitPx * ratio;
      case Unparsable => gridUnit := DefaultGridUnitPx;
      case Value(v) => gridUnit := v;
    }

    /** setGridUnit: a value fuzzily equal to the current one changes nothing and emits nothing. */
    method SetGridUnit(value: real)
      modifies this`gridUnit, this`events
      ensures FuzzyEqual(value, old(gridUnit)) ==> gridUnit == old(gridUnit) && events == old(events)
      ensures !FuzzyEqual(value, old(gridUnit)) ==> gridUnit == value && events == old(events) + [GridUnitChanged]
    {
      if FuzzyEqual(value, gridUnit) {
        return;
      }
      gridUnit := value;
      events := events + [GridUnitChanged];
    }

    /**
     * windowPropertyChanged: a positive "scale" window property sets the grid
     * unit to the whole number of pixels closest above scale * 8, times the
     * device pixel ratio; with several windows, the internal (LVDS) screen's
     * scale is ignored.
     */
    method WindowPropertyChanged(isScale: bool, severalWindows: bool, onInternalScreen: bool, scale: Option<real>)
      requires Valid()
      modifies this`gridUnit, this`events
      ensures !ScaleApplies(isScale, severalWindows, onInternalScreen, scale) ==>
        gridUnit == old(gridUnit) && events == old(events)
      ensures ScaleApplies(isScale, severalWindows, onInternalScreen, scale) ==>
        var target := ScaledGridUnit(scale.value, devicePixelRatio);
        (FuzzyEqual(target, old(gridUnit)) ==> gridUnit == old(gridUnit) && events == old(events)) &&
        (!FuzzyEqual(target, old(gridUnit)) ==> gridUnit == target && events == old(events) + [GridUnitChanged])
    {
      if !isScale || (severalWindows && onInternalScreen) || scale.None? || scale.value <= 0.0 {
        return;
      }
      SetGridUnit(ScaledGridUnit(scale.value, devicePixelRatio));
    }

    /**
     * resolveResource, for the local path of the url (an empty url has an
     * empty path). An existing file is used as is and an existing non-file
     * gives nothing; then the asset for exactly this grid unit; then the best
     * suffixed asset in the directory, scaled by gridUnit / its suffix.
     */
    method ResolveResource(path: string, fs: FileQueries) returns (r: Resolution)
      ensures path == [] ==> r == Unresolved
      ensures path != [] && fs.present ==> r == (if fs.isFile then Resolved(Some(1.0), File(path)) else Unresolved)
      ensures path != [] && !fs.present && fs.unitFileExists ==>
        r == Resolved(Some(1.0), UnitFile(ResourcePrefix(path), gridUnit, ResourceSuffix(path)))
      ensures path != [] && !fs.present && !fs.unitFileExists && fs.entries == [] ==> r == Unresolved
      ensures path != [] && !fs.present && !fs.unitFileExists && fs.entries != [] ==>
        r.Resolved? && r.file.UnitFile? &&
        r.file.prefix == ResourcePrefix(path) && r.file.suffix == ResourceSuffix(path) &&
        BestSuffix(r.file.unit, EntryUnits(fs.entries), gridUnit) &&
        r.scale == ScaleFactor(gridUnit, r.file.unit)
    {
      if path == [] {
        return Unresolved;
      }
      if fs.present {
        return if fs.isFile then Resolved(Some(1.0), File(path)) else Unresolved;
      }
      var prefix, suffix := ResourcePrefix(path), ResourceSuffix(path);
      if fs.unitFileExists {
        return Resolved(Some(1.0), UnitFile(prefix, gridUnit, suffix));
      }
      if fs.entries == [] {
        return Unresolved;
      }
      var selected := SelectSuffix(EntryUnits(fs.entries), gridUnit);
      r := Resolved(ScaleFactor(gridUnit, selected), UnitFile(prefix, selected, suffix));
    }
  }
}
