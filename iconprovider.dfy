// The icon theme image provider (unitythemeiconprovider.cpp): icons are
// looked up by name in a theme's directories, choosing the directory whose
// nominal size best fits the requested size (or the largest one when no size
// is requested), and then in the themes it inherits from.
module IconTheme {
  import opened Common

  datatype SizeType = Fixed | Scalable | Threshold

  /** sizeTypeFromString: unknown names are taken as Fixed. */
  function SizeTypeFromString(s: string): SizeType
  {
    if s == "Fixed" then Fixed
    else if s == "Scalable" then Scalable
    else if s == "Threshold" then Threshold
    else Fixed
  }

  function SizeTypeName(t: SizeType): string
  {
    match t
    case Fixed => "Fixed"
    case Scalable => "Scalable"
    case Threshold => "Threshold"
  }

  /** Every size type reads back from its name; any other name is Fixed. */
  lemma SizeTypeNames(t: SizeType, s: string)
    ensures SizeTypeFromString(SizeTypeName(t)) == t
    ensures s != "Scalable" && s != "Threshold" ==> SizeTypeFromString(s) == Fixed
  {
  }

  /** One subdirectory of the theme, as its index.theme section describes it. */
  datatype Directory = Directory(path: string, sizeType: SizeType, size: int, minSize: int, maxSize: int, threshold: int)

  /**
   * A directory from its index.theme keys, each None when absent: Type
   * defaults to "Fixed", Size to 32, and MinSize, MaxSize and Threshold to 0.
   */
  function DirectoryFromIndex(path: string, typeName: Option<string>, size: Option<int>, minSize: Option<int>,
                              maxSize: Option<int>, threshold: Option<int>): (d: Directory)
    ensures d.path == path
    ensures d.sizeType == (if typeName.Some? then SizeTypeFromString(typeName.value) else Fixed)
    ensures d.size == (if size.Some? then size.value else 32)
    ensures d.minSize == (if minSize.Some? then minSize.value else 0)
    ensures d.maxSize == (if maxSize.Some? then maxSize.value else 0)
    ensures d.threshold == (if threshold.Some? then threshold.value else 0)
  {
    Directory(path,
              SizeTypeFromString(if typeName.Some? then typeName.value else "Fixed"),
              if size.Some? then size.value else 32,
              if minSize.Some? then minSize.value else 0,
              if maxSize.Some? then maxSize.value else 0,
              if threshold.Some? then threshold.value else 0)
  }

  /** qBound(min, value, max) = qMax(min, qMin(max, value)). */
  function Bound(min: int, value: int, max: int): int
  {
    MaxI(min, MinI(max, value))
  }

  /** The distance the lookup never beats: also the starting minimum of the best-match search. */
  const NoMatchDistance: int := 10000

  /** iconSize: the larger side of the requested size. */
  function IconSize(width: int, height: int): int
  {
    MaxI(width, height)
  }

  /** directorySizeDistance. */
  function DirectorySizeDistance(dir: Directory, iconSize: int): (d: nat)
  {
    match dir.sizeType
    case Fixed => AbsI(iconSize - dir.size)
    case Scalable => AbsI(iconSize - Bound(dir.minSize, iconSize, dir.maxSize))
    case Threshold => AbsI(iconSize - Bound(dir.size - dir.threshold, iconSize, dir.size + dir.threshold))
  }

  /**
   * Distance to a band [lo, hi]: zero inside, otherwise how far the size is
   * from the nearer end.
   */
  function BandDistance(lo: int, hi: int, iconSize: int): nat
  {
    if iconSize < lo then lo - iconSize else if iconSize > hi then iconSize - hi else 0
  }

  /**
   * Fixed directories are as far as their size; Scalable ones are at the
   * distance to [MinSize, MaxSize] and Threshold ones to Size ± Threshold,
   * when those bands are not empty.
   */
  lemma DistanceByType(dir: Directory, iconSize: int)
    ensures dir.sizeType == Fixed ==> DirectorySizeDistance(dir, iconSize) == AbsI(iconSize - dir.size)
    ensures dir.sizeType == Scalable && dir.minSize <= dir.maxSize ==>
      DirectorySizeDistance(dir, iconSize) == BandDistance(dir.minSize, dir.maxSize, iconSize)
    ensures dir.sizeType == Threshold && dir.threshold >= 0 ==>
      DirectorySizeDistance(dir, iconSize) == BandDistance(dir.size - dir.threshold, dir.size + dir.threshold, iconSize)
  {
  }

  /** A Scalable directory whose band is empty (MinSize above MaxSize) is as far as MinSize, the bound qBound favours. */
  lemma InvertedBand(dir: Directory, iconSize: int)
    requires dir.sizeType == Scalable && dir.minSize > dir.maxSize
    ensures DirectorySizeDistance(dir, iconSize) == AbsI(iconSize - dir.minSize)
  {
  }

  // ---------------------------------------------------------------------
  // Themes and files

  /**
   * A theme: its base directories (every data location's icons/<name> that
   * exists), the directories its index.theme lists, and the names it
   * inherits from.
   */
  datatype Theme = Theme(baseDirs: seq<string>, directories: seq<Directory>, parents: seq<string>)

  const EmptyTheme := Theme([], [], [])

  function PngFile(baseDir: string, dir: string, name: string): string
  {
    baseDir + "/" + dir + "/" + name + ".png"
  }

  function SvgFile(baseDir: string, dir: string, name: string): string
  {
    baseDir + "/" + dir + "/" + name + ".svg"
  }

  /** The icon in one base directory: dir/name.png when it exists, else dir/name.svg when that does. */
  function FileInBase(baseDir: string, dir: string, name: string, files: set<string>): (r: Option<string>)
    ensures r.Some? ==> r.value in files
    ensures r.None? <==> PngFile(baseDir, dir, name) !in files && SvgFile(baseDir, dir, name) !in files
  {
    if PngFile(baseDir, dir, name) in files then Some(PngFile(baseDir, dir, name))
    else if SvgFile(baseDir, dir, name) in files then Some(SvgFile(baseDir, dir, name))
    else None
  }

  /**
   * lookupIconFile: in each base directory in turn, dir/name.png and then
   * dir/name.svg; `files` holds the paths that exist.
   */
  function LookupIconFile(baseDirs: seq<string>, dir: string, name: string, files: set<string>): (r: Option<string>)
    ensures r.Some? ==> r.value in files
  {
    if baseDirs == [] then None
    else
      var here := FileInBase(baseDirs[0], dir, name, files);
      if here.Some? then here else LookupIconFile(baseDirs[1..], dir, name, files)
  }

  /** No file is found only when no base directory has the png or the svg. */
  lemma {:induction false} LookupIconFileFinds(baseDirs: seq<string>, dir: string, name: string, files: set<string>)
    ensures LookupIconFile(baseDirs, dir, name, files).None? <==>
            forall i :: 0 <= i < |baseDirs| ==> FileInBase(baseDirs[i], dir, name, files).None?
  {
    if baseDirs != [] {
      LookupIconFileFinds(baseDirs[1..], dir, name, files);
      assert forall i :: 1 <= i < |baseDirs| ==> baseDirs[1..][i - 1] == baseDirs[i];
    }
  }

  /** The file found is the one of the first base directory that has one, the png preferred. */
  lemma {:induction false} LookupIconFileIsFirst(baseDirs: seq<string>, dir: string, name: string, files: set<string>, i: nat)
    requires i < |baseDirs| && FileInBase(baseDirs[i], dir, name, files).Some?
    requires forall j :: 0 <= j < i ==> FileInBase(baseDirs[j], dir, name, files).None?
    ensures LookupIconFile(baseDirs, dir, name, files) == FileInBase(baseDirs[i], dir, name, files)
  {
    if i > 0 {
      assert FileInBase(baseDirs[0], dir, name, files).None?;
      assert baseDirs[1..][i - 1] == baseDirs[i];
      LookupIconFileIsFirst(baseDirs[1..], dir, name, files, i - 1);
    }
  }

  /** The file of the icon in the theme's k-th directory, if any. */
  function FileIn(theme: Theme, files: set<string>, name: string, k: nat): Option<string>
    requires k < |theme.directories|
  {
    LookupIconFile(theme.baseDirs, theme.directories[k].path, name, files)
  }

  /** The k-th directory holds the icon and fits better than the give-up distance. */
  predicate Candidate(theme: Theme, files: set<string>, name: string, iconSize: int, k: nat)
    requires k < |theme.directories|
  {
    FileIn(theme, files, name, k).Some? && DirectorySizeDistance(theme.directories[k], iconSize) < NoMatchDistance
  }

  function Distance(theme: Theme, k: nat, iconSize: int): nat
    requires k < |theme.directories|
  {
    DirectorySizeDistance(theme.directories[k], iconSize)
  }

  /** The best-match choice among the first n directories: the first candidate at the least distance. */
  function BestMatchIndex(theme: Theme, files: set<string>, name: string, iconSize: int, n: nat): (r: Option<nat>)
    requires n <= |theme.directories|
    ensures r.Some? ==> r.value < n && Candidate(theme, files, name, iconSize, r.value)
  {
    if n == 0 then None
    else
      var prev := BestMatchIndex(theme, files, name, iconSize, n - 1);
      if Candidate(theme, files, name, iconSize, n - 1) &&
         (prev.None? || Distance(theme, n - 1, iconSize) < Distance(theme, prev.value, iconSize))
      then Some(n - 1)
      else prev
  }

  /** There is a best match exactly when some directory is a candidate. */
  lemma {:induction false} BestMatchExists(theme: Theme, files: set<string>, name: string, iconSize: int, n: nat)
    requires n <= |theme.directories|
    ensures BestMatchIndex(theme, files, name, iconSize, n).None? <==>
            forall j :: 0 <= j < n ==> !Candidate(theme, files, name, iconSize, j)
  {
    if n > 0 {
      BestMatchExists(theme, files, name, iconSize, n - 1);
    }
  }

  /** No candidate is nearer than the best match. */
  lemma {:induction false} BestMatchIsNearest(theme: Theme, files: set<string>, name: string, iconSize: int, n: nat, j: nat)
    requires j < n <= |theme.directories|
    requires Candidate(theme, files, name, iconSize, j)
    ensures var r := BestMatchIndex(theme, files, name, iconSize, n);
      r.Some? && Distance(theme, j, iconSize) >= Distance(theme, r.value, iconSize)
  {
    if j < n - 1 {
      BestMatchIsNearest(theme, files, name, iconSize, n - 1, j);
    } else {
      BestMatchExists(theme, files, name, iconSize, n);
    }
  }

  /** Every candidate before the best match is strictly farther: ties keep the first. */
  lemma {:induction false} BestMatchIsFirst(theme: Theme, files: set<string>, name: string, iconSize: int, n: nat, j: nat)
    requires j < n <= |theme.directories|
    requires Candidate(theme, files, name, iconSize, j)
    ensures var r := BestMatchIndex(theme, files, name, iconSize, n);
      r.Some? && (j < r.value ==> Distance(theme, j, iconSize) > Distance(theme, r.value, iconSize))
  {
    var r := BestMatchIndex(theme, files, name, iconSize, n);
    BestMatchIsNearest(theme, files, name, iconSize, n, j);
    if r.value == n - 1 && j < n - 1 {
      BestMatchIsNearest(theme, files, name, iconSize, n - 1, j);
    } else if j < n - 1 {
      BestMatchIsFirst(theme, files, name, iconSize, n - 1, j);
    }
  }

  /** A choice at distance 0 can never be beaten, which justifies stopping the search there. */
  lemma {:induction false} BestMatchSettles(theme: Theme, files: set<string>, name: string, iconSize: int, n: nat, m: nat)
    requires n <= m <= |theme.directories|
    requires var r := BestMatchIndex(theme, files, name, iconSize, n); r.Some? && Distance(theme, r.value, iconSize) == 0
    ensures BestMatchIndex(theme, files, name, iconSize, m) == BestMatchIndex(theme, files, name, iconSize, n)
    decreases m - n
  {
    if m > n {
      BestMatchSettles(theme, files, name, iconSize, n, m - 1);
    }
  }

  /** The size lookupLargestIcon compares: MaxSize for Scalable directories, Size otherwise. */
  function LargestSize(dir: Directory): int
  {
    if dir.sizeType == Scalable then dir.maxSize else dir.size
  }

  /** The largest-icon choice among the first n directories: the last holder of the largest (non-negative) size. */
  function LargestIndex(theme: Theme, files: set<string>, name: string, n: nat): (r: Option<nat>)
    requires n <= |theme.directories|
    ensures r.Some? ==> r.value < n && FileIn(theme, files, name, r.value).Some? &&
                        LargestSize(theme.directories[r.value]) >= 0
  {
    if n == 0 then None
    else
      var prev := LargestIndex(theme, files, name, n - 1);
      var best := if prev.None? then 0 else LargestSize(theme.directories[prev.value]);
      if FileIn(theme, files, name, n - 1).Some? && LargestSize(theme.directories[n - 1]) >= best
      then Some(n - 1)
      else prev
  }

  /** The icon a directory of non-negative size holds. */
  predicate Holder(theme: Theme, files: set<string>, name: string, j: nat)
    requires j < |theme.directories|
  {
    FileIn(theme, files, name, j).Some? && LargestSize(theme.directories[j]) >= 0
  }

  /** There is a largest icon exactly when a directory of non-negative size holds it. */
  lemma {:induction false} LargestExists(theme: Theme, files: set<string>, name: string, n: nat)
    requires n <= |theme.directories|
    ensures LargestIndex(theme, files, name, n).None? <==> forall j :: 0 <= j < n ==> !Holder(theme, files, name, j)
  {
    if n > 0 {
      LargestExists(theme, files, name, n - 1);
      var r := LargestIndex(theme, files, name, n);
      if r.Some? {
        assert Holder(theme, files, name, r.value);
      }
    }
  }

  /** No directory holding the icon is larger than the chosen one. */
  lemma {:induction false} LargestIsLargest(theme: Theme, files: set<string>, name: string, n: nat, j: nat)
    requires j < n <= |theme.directories|
    requires Holder(theme, files, name, j)
    ensures var r := LargestIndex(theme, files, name, n);
      r.Some? && LargestSize(theme.directories[j]) <= LargestSize(theme.directories[r.value])
  {
    if j < n - 1 {
      LargestIsLargest(theme, files, name, n - 1, j);
    } else {
      LargestExists(theme, files, name, n);
    }
  }

  /** Every holder after the chosen directory is strictly smaller: ties go to the later directory. */
  lemma {:induction false} LargestIsLast(theme: Theme, files: set<string>, name: string, n: nat, j: nat)
    requires j < n <= |theme.directories|
    requires Holder(theme, files, name, j)
    ensures var r := LargestIndex(theme, files, name, n);
      r.Some? && (j > r.value ==> LargestSize(theme.directories[j]) < LargestSize(theme.directories[r.value]))
  {
    LargestIsLargest(theme, files, name, n, j);
    if j < n - 1 {
      var r := LargestIndex(theme, files, name, n);
      if r.value < n - 1 {
        LargestIsLast(theme, files, name, n - 1, j);
      }
    }
  }

  // ---------------------------------------------------------------------
  // Pixmaps

  /** A pixmap: null, or a file drawn at a requested size. */
  datatype Pixmap = NullPixmap | Drawn(file: string, width: int, height: int)

  /**
   * loadIcon, for a file lookupIconFile found (a .png or .svg), drawn at the
   * requested size. A .svg is rendered into a pixmap of the requested size
   * scaled from its default size, which is null when neither dimension asked
   * for is positive; a .png keeps its own size then.
   */
  function IconOf(file: Option<string>, width: int, height: int): (p: Pixmap)
    ensures p.NullPixmap? <==> file.None? || (EndsWith(file.value, ".svg") && width <= 0 && height <= 0)
    ensures p.Drawn? ==> p.file == file.value
  {
    if file.None? || (EndsWith(file.value, ".svg") && width <= 0 && height <= 0) then NullPixmap
    else Drawn(file.value, width, height)
  }

  /** lookupBestMatchingIcon, as a value. */
  function BestMatchingIcon(theme: Theme, files: set<string>, name: string, width: int, height: int): Pixmap
  {
    var k := BestMatchIndex(theme, files, name, IconSize(width, height), |theme.directories|);
    if k.None? then NullPixmap else IconOf(FileIn(theme, files, name, k.value), width, height)
  }

  /** lookupLargestIcon, as a value: drawn at the chosen directory's size, square. */
  function LargestIcon(theme: Theme, files: set<string>, name: string): Pixmap
  {
    var k := LargestIndex(theme, files, name, |theme.directories|);
    if k.None? then NullPixmap
    else
      var size := LargestSize(theme.directories[k.value]);
      IconOf(FileIn(theme, files, name, k.value), size, size)
  }

  /** lookupIcon: a positive icon size asks for the best match, otherwise for the largest icon. */
  function LookupIcon(theme: Theme, files: set<string>, name: string, width: int, height: int): Pixmap
  {
    if IconSize(width, height) > 0 then BestMatchingIcon(theme, files, name, width, height)
    else LargestIcon(theme, files, name)
  }

  /**
   * A theme has an icon for a name at a positive size exactly when some
   * directory is a candidate. At a size of 0 or less an icon needs a
   * directory of non-negative size that holds it, and one of positive size
   * holding it is enough.
   */
  lemma LookupIconFound(theme: Theme, files: set<string>, name: string, width: int, height: int)
    ensures IconSize(width, height) > 0 ==>
      (LookupIcon(theme, files, name, width, height) != NullPixmap <==>
       exists j :: 0 <= j < |theme.directories| && Candidate(theme, files, name, IconSize(width, height), j))
    ensures IconSize(width, height) <= 0 && LookupIcon(theme, files, name, width, height) != NullPixmap ==>
       exists j :: 0 <= j < |theme.directories| && Holder(theme, files, name, j)
    ensures IconSize(width, height) <= 0 ==>
      (exists j :: 0 <= j < |theme.directories| && Holder(theme, files, name, j) && LargestSize(theme.directories[j]) > 0) ==>
        LookupIcon(theme, files, name, width, height) != NullPixmap
  {
    BestMatchExists(theme, files, name, IconSize(width, height), |theme.directories|);
    LargestExists(theme, files, name, |theme.directories|);
    if IconSize(width, height) <= 0 {
      var n := |theme.directories|;
      if j :| 0 <= j < n && Holder(theme, files, name, j) && LargestSize(theme.directories[j]) > 0 {
        LargestIsLargest(theme, files, name, n, j);
      }
    }
  }

  /**
   * When every directory holding the icon has size 0, the last of them is
   * drawn at QSize(0, 0): a .png found there is an icon, a .svg a null
   * pixmap, and the search moves on to the next name.
   */
  lemma LargestAtZero(theme: Theme, files: set<string>, name: string, width: int, height: int, j: nat)
    requires IconSize(width, height) <= 0
    requires j < |theme.directories| && Holder(theme, files, name, j)
    requires forall i :: 0 <= i < |theme.directories| && Holder(theme, files, name, i) ==> LargestSize(theme.directories[i]) == 0
    requires forall i :: j < i < |theme.directories| ==> !Holder(theme, files, name, i)
    ensures LookupIcon(theme, files, name, width, height) == NullPixmap <==>
            EndsWith(FileIn(theme, files, name, j).value, ".svg")
  {
    var n := |theme.directories|;
    LargestIsLast(theme, files, name, n, j);
    var k := LargestIndex(theme, files, name, n);
    assert Holder(theme, files, name, k.value);
  }

  /** The best-match loop, leaving as soon as a directory at distance 0 holds the icon. */
  method LookupBestMatchingIcon(theme: Theme, files: set<string>, name: string, width: int, height: int)
    returns (pixmap: Pixmap)
    ensures pixmap == BestMatchingIcon(theme, files, name, width, height)
  {
    var iconSize := IconSize(width, height);
    var minDistance := NoMatchDistance;
    var bestFilename: Option<string> := None;
    ghost var chosen: Option<nat> := None;
    var n := 0;
    while n < |theme.directories|
      invariant 0 <= n <= |theme.directories|
      invariant chosen == BestMatchIndex(theme, files, name, iconSize, n)
      invariant chosen.None? ==> minDistance == NoMatchDistance && bestFilename.None?
      invariant chosen.Some? ==> minDistance == Distance(theme, chosen.value, iconSize) &&
                                 bestFilename == FileIn(theme, files, name, chosen.value)
    {
      var dist := DirectorySizeDistance(theme.directories[n], iconSize);
      if dist < minDistance {
        var filename := LookupIconFile(theme.baseDirs, theme.directories[n].path, name, files);
        if filename.Some? {
          minDistance, bestFilename, chosen := dist, filename, Some(n);
          if minDistance == 0 {
            BestMatchSettles(theme, files, name, iconSize, n + 1, |theme.directories|);
            n := |theme.directories|;
            break;
          }
        }
      }
      n := n + 1;
    }
    pixmap := IconOf(bestFilename, width, height);
  }

  /** The largest-icon loop. */
  method LookupLargestIcon(theme: Theme, files: set<string>, name: string) returns (pixmap: Pixmap)
    ensures pixmap == LargestIcon(theme, files, name)
  {
    var maxSize := 0;
    var bestFilename: Option<string> := None;
    ghost var chosen: Option<nat> := None;
    for n := 0 to |theme.directories|
      invariant chosen == LargestIndex(theme, files, name, n)
      invariant chosen.None? ==> maxSize == 0 && bestFilename.None?
      invariant chosen.Some? ==> maxSize == LargestSize(theme.directories[chosen.value]) &&
                                 bestFilename == FileIn(theme, files, name, chosen.value)
    {
      var dir := theme.directories[n];
      var size := if dir.sizeType == Scalable then dir.maxSize else dir.size;
      if size >= maxSize {
        var filename := LookupIconFile(theme.baseDirs, dir.path, name, files);
        if filename.Some? {
          maxSize, bestFilename, chosen := size, filename, Some(n);
        }
      }
    }
    pixmap := IconOf(bestFilename, maxSize, maxSize);
  }

  // ---------------------------------------------------------------------
  // Inheritance

  /** IconTheme::get on a theme never seen: a name with no theme data is a theme without directories. */
  function ThemeNamed(themes: map<string, Theme>, name: string): Theme
  {
    if name in themes then themes[name] else EmptyTheme
  }

  /** The icon of the first name, in order, this theme alone has an icon for. */
  function FirstNamed(theme: Theme, files: set<string>, names: seq<string>, width: int, height: int): Pixmap
  {
    if names == [] then NullPixmap
    else
      var p := LookupIcon(theme, files, names[0], width, height);
      if p != NullPixmap then p else FirstNamed(theme, files, names[1..], width, height)
  }

  /** Nothing is found exactly when the theme has none of the names. */
  lemma {:induction false} FirstNamedFinds(theme: Theme, files: set<string>, names: seq<string>, width: int, height: int)
    ensures FirstNamed(theme, files, names, width, height) == NullPixmap <==>
            forall i :: 0 <= i < |names| ==> LookupIcon(theme, files, names[i], width, height) == NullPixmap
  {
    if names != [] {
      FirstNamedFinds(theme, files, names[1..], width, height);
      assert forall i :: 1 <= i < |names| ==> names[1..][i - 1] == names[i];
    }
  }

  /** The icon found is that of the first name the theme has. */
  lemma {:induction false} FirstNamedIsFirst(theme: Theme, files: set<string>, names: seq<string>, width: int, height: int, i: nat)
    requires i < |names| && LookupIcon(theme, files, names[i], width, height) != NullPixmap
    requires forall j :: 0 <= j < i ==> LookupIcon(theme, files, names[j], width, height) == NullPixmap
    ensures FirstNamed(theme, files, names, width, height) == LookupIcon(theme, files, names[i], width, height)
  {
    if i > 0 {
      assert LookupIcon(theme, files, names[0], width, height) == NullPixmap;
      assert names[1..][i - 1] == names[i];
      FirstNamedIsFirst(theme, files, names[1..], width, height, i - 1);
    }
  }

  /**
   * findBestIcon: every name in this theme first, and only then each parent
   * theme in Inherits order, recursively. The source does not guard against
   * an inheritance cycle; `fuel` bounds how deep the parents are followed.
   */
  function FindBestIcon(themes: map<string, Theme>, themeName: string, files: set<string>, names: seq<string>,
                        width: int, height: int, fuel: nat): Pixmap
    decreases fuel, 0
  {
    var theme := ThemeNamed(themes, themeName);
    var own := FirstNamed(theme, files, names, width, height);
    if own != NullPixmap || fuel == 0 then own
    else FirstParent(themes, theme.parents, files, names, width, height, fuel - 1)
  }

  /** The icon found in the first parent, in order, in which the search succeeds. */
  function FirstParent(themes: map<string, Theme>, parents: seq<string>, files: set<string>, names: seq<string>,
                       width: int, height: int, fuel: nat): Pixmap
    decreases fuel, 1, |parents|
  {
    if parents == [] then NullPixmap
    else
      var p := FindBestIcon(themes, parents[0], files, names, width, height, fuel);
      if p != NullPixmap then p else FirstParent(themes, parents[1..], files, names, width, height, fuel)
  }

  /** Nothing is found in the parents exactly when the search fails in each of them. */
  lemma {:induction false} FirstParentFinds(themes: map<string, Theme>, parents: seq<string>, files: set<string>,
                                            names: seq<string>, width: int, height: int, fuel: nat)
    ensures FirstParent(themes, parents, files, names, width, height, fuel) == NullPixmap <==>
            forall i :: 0 <= i < |parents| ==> FindBestIcon(themes, parents[i], files, names, width, height, fuel) == NullPixmap
  {
    if parents != [] {
      FirstParentFinds(themes, parents[1..], files, names, width, height, fuel);
      assert forall i :: 1 <= i < |parents| ==> parents[1..][i - 1] == parents[i];
    }
  }

  /** The parents are searched in order: the first in which the search succeeds answers. */
  lemma {:induction false} FirstParentIsFirst(themes: map<string, Theme>, parents: seq<string>, files: set<string>,
                                              names: seq<string>, width: int, height: int, fuel: nat, i: nat)
    requires i < |parents| && FindBestIcon(themes, parents[i], files, names, width, height, fuel) != NullPixmap
    requires forall j :: 0 <= j < i ==> FindBestIcon(themes, parents[j], files, names, width, height, fuel) == NullPixmap
    ensures FirstParent(themes, parents, files, names, width, height, fuel) ==
            FindBestIcon(themes, parents[i], files, names, width, height, fuel)
  {
    if i > 0 {
      assert FindBestIcon(themes, parents[0], files, names, width, height, fuel) == NullPixmap;
      assert parents[1..][i - 1] == parents[i];
      FirstParentIsFirst(themes, parents[1..], files, names, width, height, fuel, i - 1);
    }
  }

  /** A theme that has any of the names answers itself, from the first such name; parents are not consulted. */
  lemma OwnIconsFirst(themes: map<string, Theme>, themeName: string, files: set<string>, names: seq<string>,
                      width: int, height: int, fuel: nat, i: nat)
    requires i < |names|
    requires LookupIcon(ThemeNamed(themes, themeName), files, names[i], width, height) != NullPixmap
    requires forall j :: 0 <= j < i ==> LookupIcon(ThemeNamed(themes, themeName), files, names[j], width, height) == NullPixmap
    ensures FindBestIcon(themes, themeName, files, names, width, height, fuel) ==
            LookupIcon(ThemeNamed(themes, themeName), files, names[i], width, height)
  {
    FirstNamedIsFirst(ThemeNamed(themes, themeName), files, names, width, height, i);
  }

  /**
   * A theme with none of the names answers with the first parent theme in
   * which the search succeeds, and with nothing when there is none.
   */
  lemma ParentsInOrder(themes: map<string, Theme>, themeName: string, files: set<string>, names: seq<string>,
                       width: int, height: int, fuel: nat, i: nat)
    requires fuel > 0
    requires forall j :: 0 <= j < |names| ==> LookupIcon(ThemeNamed(themes, themeName), files, names[j], width, height) == NullPixmap
    requires var parents := ThemeNamed(themes, themeName).parents;
      i < |parents| && FindBestIcon(themes, parents[i], files, names, width, height, fuel - 1) != NullPixmap &&
      forall j :: 0 <= j < i ==> FindBestIcon(themes, parents[j], files, names, width, height, fuel - 1) == NullPixmap
    ensures FindBestIcon(themes, themeName, files, names, width, height, fuel) ==
            FindBestIcon(themes, ThemeNamed(themes, themeName).parents[i], files, names, width, height, fuel - 1)
  {
    FirstNamedFinds(ThemeNamed(themes, themeName), files, names, width, height);
    FirstParentIsFirst(themes, ThemeNamed(themes, themeName).parents, files, names, width, height, fuel - 1, i);
  }

  /** Without fuel left, a theme with none of the names finds nothing: the parents are not searched. */
  lemma NoFuelNoParents(themes: map<string, Theme>, themeName: string, files: set<string>, names: seq<string>,
                        width: int, height: int)
    requires forall j :: 0 <= j < |names| ==> LookupIcon(ThemeNamed(themes, themeName), files, names[j], width, height) == NullPixmap
    ensures FindBestIcon(themes, themeName, files, names, width, height, 0) == NullPixmap
  {
    FirstNamedFinds(ThemeNamed(themes, themeName), files, names, width, height);
  }

  /** The cache of IconTheme::get: one theme per name, built the first time that name is asked for. */
  class ThemeCache {
    var themes: map<string, Theme>

    constructor ()
      ensures themes == map[]
    {
      themes := map[];
    }

    /** get: a cached name returns its theme unchanged; a new one caches `loaded`, the theme read from disk. */
    method Get(name: string, loaded: Theme) returns (theme: Theme)
      modifies this
      ensures name in old(themes) ==> theme == old(themes)[name] && themes == old(themes)
      ensures name !in old(themes) ==> theme == loaded && themes == old(themes)[name := loaded]
    {
      if name in themes {
        return themes[name];
      }
      themes := themes[name := loaded];
      theme := loaded;
    }
  }

  /** Asking twice for a theme returns the first theme built, whatever the second load would give. */
  method CachedTwice(name: string, first: Theme, second: Theme) returns (a: Theme, b: Theme)
    ensures a == first && b == first
  {
    var cache := new ThemeCache();
    a := cache.Get(name, first);
    b := cache.Get(name, second);
  }

  // ---------------------------------------------------------------------
  // Image ids

  /** The comma-separated parts of s that are not empty (QString::split with SkipEmptyParts). */
  function SplitNames(s: string): (names: seq<string>)
    ensures forall i :: 0 <= i < |names| ==> names[i] != [] && ',' !in names[i]
    decreases |s|
  {
    match FirstIndexOf(s, ',')
    case None => if s == [] then [] else [s]
    case Some(k) =>
      assert forall c :: c in s[..k] ==> c != ',';
      (if k == 0 then [] else [s[..k]]) + SplitNames(s[k + 1..])
  }

  /** The parts joined back with commas. */
  function JoinNames(names: seq<string>): string
  {
    if names == [] then []
    else if |names| == 1 then names[0]
    else names[0] + "," + JoinNames(names[1..])
  }

  /** Splitting the comma-joined names of an id gives back the names, when none is empty or holds a comma. */
  lemma {:induction false} SplitJoin(names: seq<string>)
    requires forall i :: 0 <= i < |names| ==> names[i] != [] && ',' !in names[i]
    ensures SplitNames(JoinNames(names)) == names
  {
    if names == [] {
    } else if |names| == 1 {
      assert FirstIndexOf(names[0], ',').None?;
    } else {
      var head, rest := names[0], names[1..];
      var s := JoinNames(names);
      assert s == head + [','] + JoinNames(rest);
      FirstCommaAfter(head, JoinNames(rest));
      assert s[..|head|] == head && s[|head| + 1..] == JoinNames(rest);
      SplitJoin(rest);
      assert [head] + rest == names;
    }
  }

  lemma FirstCommaAfter(head: string, tail: string)
    requires ',' !in head
    ensures FirstIndexOf(head + [','] + tail, ',') == Some(|head|)
  {
    var s := head + [','] + tail;
    assert s[|head|] == ',';
    assert forall k :: 0 <= k < |head| ==> s[k] == head[k];
    var r := FirstIndexOf(s, ',');
    assert r.Some?;
    assert r.value <= |head|;
  }

  /** A name followed by one comma splits into that name alone. */
  lemma SplitTrailingComma()
    ensures SplitNames("b,") == ["b"]
  {
    FirstCommaAfter("b", "");
    assert "b" + [','] + "" == "b,";
    assert "b,"[..1] == "b" && "b,"[2..] == "";
  }

  /** Empty parts, such as a doubled or trailing comma, are skipped. */
  lemma SkipsEmptyParts()
    ensures SplitNames("a,,b,") == ["a", "b"]
  {
    SplitTrailingComma();
    FirstCommaAfter("", "b,");
    assert "" + [','] + "b," == ",b,";
    assert ",b,"[1..] == "b,";
    assert SplitNames(",b,") == ["b"];
    FirstCommaAfter("a", ",b,");
    assert "a" + [','] + ",b," == "a,,b,";
    assert "a,,b,"[..1] == "a" && "a,,b,"[2..] == ",b,";
  }

  /** requestPixmap: the id's names, looked up in the provider's theme; the size is the pixmap's own. */
  function RequestPixmap(themes: map<string, Theme>, themeName: string, files: set<string>, id: string,
                         width: int, height: int, fuel: nat): Pixmap
  {
    FindBestIcon(themes, themeName, files, SplitNames(id), width, height, fuel)
  }

  /** An id without any name finds nothing. */
  lemma EmptyIdFindsNothing(themes: map<string, Theme>, themeName: string, files: set<string>, width: int, height: int, fuel: nat)
    ensures RequestPixmap(themes, themeName, files, ",", width, height, fuel) == NullPixmap
  {
    assert SplitNames(",") == [] by {
      assert FirstIndexOf(",", ',') == Some(0);
      assert ","[1..] == "";
    }
    EmptyNamesEverywhere(themes, themeName, files, width, height, fuel);
  }

  lemma {:induction false} EmptyNamesEverywhere(themes: map<string, Theme>, themeName: string, files: set<string>,
                                                width: int, height: int, fuel: nat)
    ensures FindBestIcon(themes, themeName, files, [], width, height, fuel) == NullPixmap
    decreases fuel
  {
    if fuel > 0 {
      var parents := ThemeNamed(themes, themeName).parents;
      forall i | 0 <= i < |parents|
        ensures FindBestIcon(themes, parents[i], files, [], width, height, fuel - 1) == NullPixmap
      {
        EmptyNamesEverywhere(themes, parents[i], files, width, height, fuel - 1);
      }
      FirstParentFinds(themes, parents, files, [], width, height, fuel - 1);
    }
  }
}
