// Shared vocabulary for the toolkit model: optional values, error results,
// string prefixes and suffixes, decimal formatting and the Qt rounding helpers.
module Common {

  datatype Option<T> = None | Some(value: T)

  /** An operation that either yields a value or raises with a message. */
  datatype Result<T> = Ok(value: T) | Err(message: string)

  predicate StartsWith(s: string, p: string)
  {
    |p| <= |s| && s[..|p|] == p
  }

  predicate EndsWith(s: string, p: string)
  {
    |p| <= |s| && s[|s| - |p|..] == p
  }

  /** `s` without a leading `p` when it has one, otherwise `s` unchanged. */
  function DropPrefix(s: string, p: string): (r: string)
    ensures StartsWith(s, p) ==> p + r == s
    ensures !StartsWith(s, p) ==> r == s
  {
    if StartsWith(s, p) then s[|p|..] else s
  }

  predicate IsDigit(c: char)
  {
    '0' <= c <= '9'
  }

  function DigitChar(d: nat): (c: char)
    requires d < 10
    ensures IsDigit(c)
  {
    "0123456789"[d]
  }

  function DigitValue(c: char): (d: nat)
    requires IsDigit(c)
    ensures d < 10 && DigitChar(d) == c
  {
    (c as int - '0' as int) as nat
  }

  /** Decimal text of a natural number, as QString::number / str() print it. */
  function NatToString(n: nat): (s: string)
    ensures |s| > 0
    ensures forall i :: 0 <= i < |s| ==> IsDigit(s[i])
    decreases n
  {
    if n < 10 then [DigitChar(n)] else NatToString(n / 10) + [DigitChar(n % 10)]
  }

  /** Decimal text of an integer, with a leading '-' for negative values. */
  function IntToString(i: int): (s: string)
    ensures |s| > 0
    ensures (i < 0) == (s[0] == '-')
  {
    if i < 0 then "-" + NatToString(-i) else NatToString(i)
  }

  /** Value of a non-empty string of decimal digits. */
  function ParseDigits(s: string): (n: nat)
    requires forall i :: 0 <= i < |s| ==> IsDigit(s[i])
    decreases |s|
  {
    if s == [] then 0 else 10 * ParseDigits(s[..|s| - 1]) + DigitValue(s[|s| - 1])
  }

  lemma {:induction false} ParseNatToString(n: nat)
    ensures ParseDigits(NatToString(n)) == n
    decreases n
  {
    var s := NatToString(n);
    if n >= 10 {
      ParseNatToString(n / 10);
      assert s[..|s| - 1] == NatToString(n / 10);
      assert s[|s| - 1] == DigitChar(n % 10);
    } else {
      assert s[..|s| - 1] == [];
    }
  }

  /** NatToString is injective: different numbers print differently. */
  lemma NatToStringInjective(m: nat, n: nat)
    requires NatToString(m) == NatToString(n)
    ensures m == n
  {
    ParseNatToString(m);
    ParseNatToString(n);
  }

  /** Length of the run of decimal digits at the start of s. */
  function DigitRunLength(s: string): (n: nat)
    ensures n <= |s|
    ensures forall i :: 0 <= i < n ==> IsDigit(s[i])
    ensures n < |s| ==> !IsDigit(s[n])
  {
    if s == [] || !IsDigit(s[0]) then 0 else 1 + DigitRunLength(s[1..])
  }

  /** The digit run of a number printed before a non-digit ends exactly where the number ends. */
  lemma {:induction false} DigitRunOfPrefix(x: string, rest: string)
    requires forall i :: 0 <= i < |x| ==> IsDigit(x[i])
    requires rest == [] || !IsDigit(rest[0])
    ensures DigitRunLength(x + rest) == |x|
  {
    if x != [] {
      assert (x + rest)[1..] == x[1..] + rest;
      DigitRunOfPrefix(x[1..], rest);
    } else {
      assert x + rest == rest;
    }
  }

  /** Two numbers joined by a dot split back into the same two parts. */
  lemma DotSplit(x: string, u: string, y: string, w: string)
    requires forall i :: 0 <= i < |x| ==> IsDigit(x[i])
    requires forall i :: 0 <= i < |y| ==> IsDigit(y[i])
    requires x + ("." + u) == y + ("." + w)
    ensures x == y && u == w
  {
    DigitRunOfPrefix(x, "." + u);
    DigitRunOfPrefix(y, "." + w);
    var s := x + ("." + u);
    assert |x| == |y|;
    assert x == s[..|x|] && y == s[..|y|];
    assert u == s[|x| + 1..] && w == s[|y| + 1..];
  }

  /** qRound: Qt rounds to the nearest integer, halves upwards. */
  function Round(x: real): (r: int)
    ensures x - 1.0 / 2.0 < r as real <= x + 1.0 / 2.0
  {
    (x + 1.0 / 2.0).Floor
  }

  /** qFloor. */
  function Floor(x: real): (r: int)
    ensures r as real <= x < r as real + 1.0
  {
    x.Floor
  }

  function MaxR(a: real, b: real): (r: real)
    ensures r >= a && r >= b && (r == a || r == b)
  {
    if a >= b then a else b
  }

  function MinR(a: real, b: real): (r: real)
    ensures r <= a && r <= b && (r == a || r == b)
  {
    if a <= b then a else b
  }

  function AbsR(a: real): (r: real)
    ensures r >= 0.0 && (r == a || r == -a)
  {
    if a < 0.0 then -a else a
  }

  function AbsI(a: int): (r: nat)
    ensures r == a || r == -a
  {
    if a < 0 then -a else a
  }

  function MaxI(a: int, b: int): (r: int)
    ensures r >= a && r >= b && (r == a || r == b)
  {
    if a >= b then a else b
  }

  function MinI(a: int, b: int): (r: int)
    ensures r <= a && r <= b && (r == a || r == b)
  {
    if a <= b then a else b
  }

  /** Qt::Key_Return, Qt::Key_Enter and Qt::Key_Space. */
  const KeyReturn: int := 0x0100_0004
  const KeyEnter: int := 0x0100_0005
  const KeySpace: int := 0x20

  /** The position of the last c in s. */
  function LastIndexOf(s: string, c: char): (r: Option<nat>)
    ensures r.Some? ==> r.value < |s| && s[r.value] == c && forall k :: r.value < k < |s| ==> s[k] != c
    ensures r.None? ==> forall k :: 0 <= k < |s| ==> s[k] != c
  {
    if s == [] then None
    else if s[|s| - 1] == c then Some(|s| - 1)
    else LastIndexOf(s[..|s| - 1], c)
  }

  /** The position of the first c in s. */
  function FirstIndexOf(s: string, c: char): (r: Option<nat>)
    ensures r.Some? ==> r.value < |s| && s[r.value] == c && forall k :: 0 <= k < r.value ==> s[k] != c
    ensures r.None? ==> forall k :: 0 <= k < |s| ==> s[k] != c
  {
    if s == [] then None
    else if s[0] == c then Some(0)
    else match FirstIndexOf(s[1..], c)
         case None => None
         case Some(k) => Some(k + 1)
  }

  // QFileInfo's view of a path. The directory of a relative path is kept as
  // written: resolving it against the working directory is not modelled.

  /** QFileInfo::fileName: what follows the last '/'. */
  function FileName(path: string): string
  {
    match LastIndexOf(path, '/')
    case None => path
    case Some(k) => path[k + 1..]
  }

  /** QFileInfo::dir().absolutePath(): what precedes the last '/', "/" for a file at the root, "." without a '/'. */
  function DirPath(path: string): string
  {
    match LastIndexOf(path, '/')
    case None => "."
    case Some(k) => if k == 0 then "/" else path[..k]
  }

  /** QFileInfo::baseName: the file name up to its first '.'. */
  function BaseName(path: string): string
  {
    var name := FileName(path);
    match FirstIndexOf(name, '.')
    case None => name
    case Some(k) => name[..k]
  }

  /** QFileInfo::completeSuffix: the file name after its first '.', empty without one. */
  function CompleteSuffix(path: string): string
  {
    var name := FileName(path);
    match FirstIndexOf(name, '.')
    case None => ""
    case Some(k) => name[k + 1..]
  }

  /** A path with a directory other than the root is its directory, a '/' and its file name. */
  lemma DirAndName(path: string)
    requires LastIndexOf(path, '/').Some? && LastIndexOf(path, '/').value > 0
    ensures DirPath(path) + "/" + FileName(path) == path
  {
    var k := LastIndexOf(path, '/').value;
    assert path == path[..k] + [path[k]] + path[k + 1..];
  }

  /**
   * A file name with a '.' is its base name, a '.' and its complete suffix;
   * without one, it is all base name and the suffix is empty.
   */
  lemma BaseAndSuffix(path: string)
    ensures FirstIndexOf(FileName(path), '.').Some? ==> BaseName(path) + "." + CompleteSuffix(path) == FileName(path)
    ensures FirstIndexOf(FileName(path), '.').None? ==> BaseName(path) == FileName(path) && CompleteSuffix(path) == ""
  {
    var name := FileName(path);
    match FirstIndexOf(name, '.')
    case None =>
    case Some(d) =>
      assert name == name[..d] + [name[d]] + name[d + 1..];
  }
}
