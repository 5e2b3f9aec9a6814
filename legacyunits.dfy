// The older Units (modules/Ubuntu/Components/plugin/ucunits.cpp): whole
// pixels with no device pixel ratio, an optional resources unit file that
// says which grid unit the assets were designed for, and a two-step resource
// lookup.
module LegacyUnits {
  import opened Common
  import Units

  /** DEFAULT_RESOURCES_UNIT_PX. */
  const DefaultResourcesUnitPx: int := 8

  /** gu(value) = qRound(value * gridUnit). */
  function GridUnits(gridUnit: real, value: real): int
  {
    Round(value * gridUnit)
  }

  /** dp(value) = qRound(value * gridUnit / 8). */
  function DensityPixels(gridUnit: real, value: real): int
  {
    Round(value * gridUnit / Units.DefaultGridUnitPx)
  }

  /** gu is within half a pixel of the exact product, and exact for whole products. */
  lemma GridUnitsNearest(gridUnit: real, value: real, n: int)
    ensures AbsR(GridUnits(gridUnit, value) as real - value * gridUnit) <= 1.0 / 2.0
    ensures value * gridUnit == n as real ==> GridUnits(gridUnit, value) == n
  {
  }

  /** At the default grid unit of 8 pixels a dp is a pixel: dp(n) = n. */
  lemma DensityPixelsAtDefault(n: int)
    ensures DensityPixels(Units.DefaultGridUnitPx, n as real) == n
  {
    assert n as real * Units.DefaultGridUnitPx / Units.DefaultGridUnitPx == n as real;
  }

  /** dp is gu of an eighth: both round the same product. */
  lemma DensityPixelsIsEighthGridUnit(gridUnit: real, value: real)
    ensures DensityPixels(gridUnit, value) == GridUnits(gridUnit, value / Units.DefaultGridUnitPx)
  {
    assert value * gridUnit / Units.DefaultGridUnitPx == value / Units.DefaultGridUnitPx * gridUnit;
  }

  // ---------------------------------------------------------------------
  // The resources unit file

  predicate IsSpace(c: char)
  {
    c == ' ' || c == '\t' || c == '\n' || c == '\r' || c == '\U{000B}' || c == '\U{000C}'
  }

  /** QString::trimmed: without leading and trailing whitespace. */
  function Trim(s: string): (r: string)
    ensures |r| <= |s|
    ensures r != [] ==> !IsSpace(r[0]) && !IsSpace(r[|r| - 1])
    ensures forall i :: 0 <= i < |s| && !IsSpace(s[i]) ==> r != []
    decreases |s|
  {
    if s == [] then []
    else if IsSpace(s[0]) then Trim(s[1..])
    else if IsSpace(s[|s| - 1]) then Trim(s[..|s| - 1])
    else s
  }

  predicate AllDigits(s: string)
  {
    forall i :: 0 <= i < |s| ==> IsDigit(s[i])
  }

  /** The range of a 32-bit int. */
  predicate InInt32(i: int)
  {
    -0x8000_0000 <= i < 0x8000_0000
  }

  /** QString::toInt in base 10: an optional sign, one or more digits, within the 32-bit range. */
  function ParseInt(s: string): Option<int>
  {
    var negative := s != [] && s[0] == '-';
    var digits := if s != [] && (s[0] == '-' || s[0] == '+') then s[1..] else s;
    if digits == [] || !AllDigits(digits) then None
    else
      var magnitude: int := ParseDigits(digits);
      var value := if negative then -magnitude else magnitude;
      if InInt32(value) then Some(value) else None
  }

  /** Every 32-bit int reads back from its decimal text. */
  lemma ParseIntToString(i: int)
    requires InInt32(i)
    ensures ParseInt(IntToString(i)) == Some(i)
  {
    ParseNatToString(if i < 0 then -i else i);
    if i < 0 {
      assert IntToString(i)[1..] == NatToString(-i);
    } else {
      assert IntToString(i)[0] != '+';
    }
  }

  /** Text that is not a signed run of digits does not parse. */
  lemma ParseIntRejects(s: string)
    requires s == [] || (s[0] != '-' && s[0] != '+' && !IsDigit(s[0]))
    ensures ParseInt(s) == None
  {
  }

  /**
   * The value of the resources unit file's first line: trimmed, read as an
   * int; None when the file cannot be opened or the line is not an int.
   */
  function ResourcesUnitLine(firstLine: Option<string>): Option<int>
  {
    match firstLine
    case None => None
    case Some(line) => ParseInt(Trim(line))
  }

  /** Leading and trailing whitespace around the number, the newline of the first line included, are ignored. */
  lemma ResourcesUnitLinePadded(before: string, i: int, after: string)
    requires InInt32(i)
    requires forall k :: 0 <= k < |before| ==> IsSpace(before[k])
    requires forall k :: 0 <= k < |after| ==> IsSpace(after[k])
    ensures ResourcesUnitLine(Some(before + IntToString(i) + after)) == Some(i)
  {
    TrimPadded(before, IntToString(i), after);
    ParseIntToString(i);
  }

  lemma {:induction false} TrimPadded(before: string, text: string, after: string)
    requires text != [] && !IsSpace(text[0]) && !IsSpace(text[|text| - 1])
    requires forall k :: 0 <= k < |before| ==> IsSpace(before[k])
    requires forall k :: 0 <= k < |after| ==> IsSpace(after[k])
    ensures Trim(before + text + after) == text
    decreases |before| + |after|
  {
    var s := before + text + after;
    if before != [] {
      assert s[0] == before[0];
      assert s[1..] == before[1..] + text + after;
      TrimPadded(before[1..], text, after);
    } else if after != [] {
      assert s[0] == text[0];
      assert s[|s| - 1] == after[|after| - 1];
      assert s[..|s| - 1] == before + text + after[..|after| - 1];
      TrimPadded(before, text, after[..|after| - 1]);
    } else {
      assert s == text;
    }
  }

  // ---------------------------------------------------------------------
  // The Units object and resource resolution

  /**
   * What the file system answers about one lookup: whether the path is
   * present and a file, whether prefix + suffixForGridUnit(gridUnit) + suffix
   * exists, and whether prefix + suffix exists.
   */
  datatype LegacyQueries = LegacyQueries(present: bool, isFile: bool, unitFileExists: bool, baseFileExists: bool)

  datatype UnitsEvent = GridUnitChanged

  /** gridUnit / resourcesUnit, with None for the infinity of a zero resources unit. */
  function ScaleFactor(gridUnit: real, resourcesUnit: int): (r: Option<real>)
    ensures resourcesUnit != 0 ==> r.Some? && r.value * resourcesUnit as real == gridUnit
    ensures resourcesUnit == 0 ==> r.None?
  {
    if resourcesUnit == 0 then None else Some(Units.DivCancel(gridUnit, resourcesUnit as real))
  }

  class UCUnits {
    var gridUnit: real
    var resourcesUnit: int
    var events: seq<UnitsEvent>

    /** GRID_UNIT_PX gives the grid unit, 8 when unset or not a float; resources are designed for 8. */
    constructor (env: Units.EnvValue)
      ensures resourcesUnit == DefaultResourcesUnitPx && events == []
      ensures gridUnit == (if env.Value? then env.value else Units.DefaultGridUnitPx)
    {
      gridUnit := if env.Value? then env.value else Units.DefaultGridUnitPx;
      resourcesUnit := DefaultResourcesUnitPx;
      events := [];
    }

    /** setGridUnit: always takes the value and always emits, even for an equal value. */
    method SetGridUnit(value: real)
      modifies this`gridUnit, this`events
      ensures gridUnit == value && events == old(events) + [GridUnitChanged]
    {
      gridUnit := value;
      events := events + [GridUnitChanged];
    }

    /**
     * loadResourcesUnitFile: `firstLine` is None when the file does not
     * open. The resources unit changes only when the line reads as an int,
     * and that is also the result.
     */
    method LoadResourcesUnitFile(firstLine: Option<string>) returns (valid: bool)
      modifies this`resourcesUnit
      ensures valid <==> ResourcesUnitLine(firstLine).Some?
      ensures resourcesUnit == (if valid then ResourcesUnitLine(firstLine).value else old(resourcesUnit))
    {
      if firstLine.None? {
        return false;
      }
      var unit := ParseInt(Trim(firstLine.value));
      valid := unit.Some?;
      if valid {
        resourcesUnit := unit.value;
      }
    }

    /**
     * resolveResource, for the local path of the url (an empty url has an
     * empty path). An existing non-file gives nothing; the asset for exactly
     * this grid unit is used unscaled; otherwise the unsuffixed asset is
     * scaled by gridUnit / resourcesUnit.
     */
    method ResolveResource(path: string, fs: LegacyQueries) returns (r: Units.Resolution)
      ensures path == [] || (fs.present && !fs.isFile) ==> r == Units.Unresolved
      ensures path != [] && !(fs.present && !fs.isFile) && fs.unitFileExists ==>
        r == Units.Resolved(Some(1.0), Units.UnitFile(Units.ResourcePrefix(path), gridUnit, Units.ResourceSuffix(path)))
      ensures path != [] && !(fs.present && !fs.isFile) && !fs.unitFileExists && fs.baseFileExists ==>
        r == Units.Resolved(ScaleFactor(gridUnit, resourcesUnit),
                            Units.File(Units.ResourcePrefix(path) + Units.ResourceSuffix(path)))
      ensures path != [] && !(fs.present && !fs.isFile) && !fs.unitFileExists && !fs.baseFileExists ==>
        r == Units.Unresolved
    {
      if path == [] {
        return Units.Unresolved;
      }
      if fs.present && !fs.isFile {
        return Units.Unresolved;
      }
      var prefix, suffix := Units.ResourcePrefix(path), Units.ResourceSuffix(path);
      var scale := ScaleFactor(gridUnit, resourcesUnit);
      if fs.unitFileExists {
        return Units.Resolved(Some(1.0), Units.UnitFile(prefix, gridUnit, suffix));
      }
      if fs.baseFileExists {
        return Units.Resolved(scale, Units.File(prefix + suffix));
      }
      r := Units.Unresolved;
    }
  }

  /** A first line " 16" reads as 16. */
  lemma SixteenLine()
    ensures ResourcesUnitLine(Some(" 16\n")) == Some(16)
  {
    ResourcesUnitLinePadded(" ", 16, "\n");
    assert " " + IntToString(16) + "\n" == " 16\n";
  }

  /**
   * Assets drawn for 8 pixels are scaled by 2 at grid unit 16; once a unit
   * file says they were drawn for 16, they are used unscaled.
   */
  method UnitFileRescales(path: string) returns (scaleBefore: Option<real>, scaleAfter: Option<real>)
    requires path != []
    ensures scaleBefore == Some(2.0) && scaleAfter == Some(1.0)
  {
    var units := new UCUnits(Units.Value(16.0));
    var fs := LegacyQueries(true, true, false, true);
    var r := units.ResolveResource(path, fs);
    scaleBefore := r.scale;
    SixteenLine();
    var valid := units.LoadResourcesUnitFile(Some(" 16\n"));
    r := units.ResolveResource(path, fs);
    scaleAfter := r.scale;
  }
}
