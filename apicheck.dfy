// The API dumper of tests/apicheck (apicheck.cpp): the table of attributes
// already reported for a base type, the rewriting of type names and export
// strings, and which properties and methods a type's dump mentions.
module ApiCheck {
  import opened Common

  // ---------------------------------------------------------------------
  // KnownAttributes: the revision-deduplication table.

  /** Whether knownProperty/knownMethod report an entry as known: recorded with a revision not above `revision`. */
  predicate KnownEntry(table: map<string, int>, name: string, revision: int)
  {
    name in table && table[name] <= revision
  }

  /** The property table after knownProperty(name, revision). */
  function AfterProperty(table: map<string, int>, name: string, revision: int): (t: map<string, int>)
    ensures name in t
    ensures KnownEntry(table, name, revision) ==> t == table
    ensures !KnownEntry(table, name, revision) ==> t[name] == revision
    ensures forall n :: n != name ==> (n in t <==> n in table) && (n in t ==> t[n] == table[n])
  {
    if KnownEntry(table, name, revision) then table else table[name := revision]
  }

  predicate KnownOverload(methods: map<string, map<int, int>>, name: string, nArgs: int, revision: int)
  {
    name in methods && KnownEntryInt(methods[name], nArgs, revision)
  }

  predicate KnownEntryInt(table: map<int, int>, key: int, revision: int)
  {
    key in table && table[key] <= revision
  }

  /** The method table after knownMethod(name, nArgs, revision). */
  function AfterMethod(methods: map<string, map<int, int>>, name: string, nArgs: int, revision: int): (t: map<string, map<int, int>>)
    ensures name in t && nArgs in t[name]
    ensures KnownOverload(methods, name, nArgs, revision) ==> t == methods
    ensures !KnownOverload(methods, name, nArgs, revision) ==> t[name][nArgs] == revision
  {
    if KnownOverload(methods, name, nArgs, revision) then methods
    else
      var overloads := if name in methods then methods[name] else map[];
      methods[name := overloads[nArgs := revision]]
  }

  /** A property reported as new is known from then on for every revision at or above it. */
  lemma KnownPropertyAfterwards(table: map<string, int>, name: string, r: int, r2: int)
    requires !KnownEntry(table, name, r)
    requires r2 >= r
    ensures KnownEntry(AfterProperty(table, name, r), name, r2)
  {
  }

  /** Asking again with the same revision always answers "known", and changes nothing. */
  lemma KnownPropertyIdempotent(table: map<string, int>, name: string, r: int)
    ensures var t := AfterProperty(table, name, r);
      KnownEntry(t, name, r) && AfterProperty(t, name, r) == t
  {
  }

  /** A lower revision than the recorded one is reported as new and lowers the record. */
  lemma KnownPropertyLowerRevision(table: map<string, int>, name: string, r: int)
    requires name in table && r < table[name]
    ensures !KnownEntry(table, name, r) && AfterProperty(table, name, r)[name] == r
  {
  }

  /** Overloads of one name with different argument counts are tracked independently. */
  lemma OverloadsIndependent(methods: map<string, map<int, int>>, name: string, nArgs: int, r: int, other: int, r2: int)
    requires other != nArgs
    ensures KnownOverload(AfterMethod(methods, name, nArgs, r), name, other, r2) == KnownOverload(methods, name, other, r2)
  {
  }

  /** A method overload reported as new is known from then on for every revision at or above it. */
  lemma KnownMethodAfterwards(methods: map<string, map<int, int>>, name: string, nArgs: int, r: int, r2: int)
    requires !KnownOverload(methods, name, nArgs, r)
    requires r2 >= r
    ensures KnownOverload(AfterMethod(methods, name, nArgs, r), name, nArgs, r2)
  {
  }

  class KnownAttributes {
    var properties: map<string, int>
    var methods: map<string, map<int, int>>

    constructor ()
      ensures properties == map[] && methods == map[]
    {
      properties := map[];
      methods := map[];
    }

    method KnownMethod(name: string, nArgs: int, revision: int) returns (known: bool)
      modifies this`methods
      ensures known == KnownOverload(old(methods), name, nArgs, revision)
      ensures methods == AfterMethod(old(methods), name, nArgs, revision)
    {
      if name in methods {
        var overloads := methods[name];
        if nArgs in overloads && overloads[nArgs] <= revision {
          return true;
        }
      }
      var overloads := if name in methods then methods[name] else map[];
      methods := methods[name := overloads[nArgs := revision]];
      return false;
    }

    method KnownProperty(name: string, revision: int) returns (known: bool)
      modifies this`properties
      ensures known == KnownEntry(old(properties), name, revision)
      ensures properties == AfterProperty(old(properties), name, revision)
    {
      if name in properties && properties[name] <= revision {
        return true;
      }
      properties := properties[name := revision];
      return false;
    }
  }

  // ---------------------------------------------------------------------
  // Type names.

  const DeclListPrefix: string := "QQmlListProperty<"

  datatype StrippedType = StrippedType(name: string, isList: bool, isPointer: bool)

  /** QByteArray::mid(pos): empty when pos lies past the end. */
  function Mid(s: string, pos: nat): (r: string)
    ensures pos <= |s| ==> r == s[pos..]
    ensures pos > |s| ==> r == ""
  {
    if pos <= |s| then s[pos..] else ""
  }

  /**
   * removePointerAndList: strips trailing '*' (setting isPointer) and a
   * `QQmlListProperty<...>` wrapper (setting isList), repeatedly.
   */
  function RemovePointerAndList(typeName: string, isList: bool, isPointer: bool): (r: StrippedType)
    ensures !EndsWith(r.name, "*") && !StartsWith(r.name, DeclListPrefix)
    ensures isList ==> r.isList
    ensures isPointer ==> r.isPointer
    ensures |r.name| <= |typeName|
    ensures r.name == typeName <==> (!EndsWith(typeName, "*") && !StartsWith(typeName, DeclListPrefix))
    ensures r.name == typeName ==> r.isList == isList && r.isPointer == isPointer
    decreases |typeName|
  {
    if EndsWith(typeName, "*") then
      RemovePointerAndList(typeName[..|typeName| - 1], isList, true)
    else if StartsWith(typeName, DeclListPrefix) then
      RemovePointerAndList(Mid(typeName[..|typeName| - 1], |DeclListPrefix|), true, isPointer)
    else
      StrippedType(typeName, isList, isPointer)
  }

  function Stars(k: nat): (s: string)
    ensures |s| == k && forall i :: 0 <= i < k ==> s[i] == '*'
  {
    if k == 0 then "" else Stars(k - 1) + "*"
  }

  /** A type name as Qt's meta-object system spells it: an optional list wrapper and k pointer stars. */
  function Decorate(base: string, isList: bool, k: nat): string
  {
    (if isList then DeclListPrefix + base + ">" else base) + Stars(k)
  }

  predicate Undecorated(base: string)
  {
    !EndsWith(base, "*") && !StartsWith(base, DeclListPrefix)
  }

  /** Stripping a decorated name gives back the base name and exactly the decorations used. */
  lemma {:induction false} RemoveDecorations(base: string, isList: bool, k: nat)
    requires Undecorated(base)
    ensures RemovePointerAndList(Decorate(base, isList, k), false, false) == StrippedType(base, isList, k > 0)
  {
    var w := if isList then DeclListPrefix + base + ">" else base;
    if k > 0 {
      RemoveStars(w, k, false, false);
      RemoveWrapper(base, isList, true);
    } else {
      assert Decorate(base, isList, 0) == w;
      RemoveWrapper(base, isList, false);
    }
  }

  /** The list wrapper is removed once, leaving the undecorated element type. */
  lemma RemoveWrapper(base: string, isList: bool, isPointer: bool)
    requires Undecorated(base)
    ensures RemovePointerAndList(if isList then DeclListPrefix + base + ">" else base, false, isPointer)
         == StrippedType(base, isList, isPointer)
  {
    if isList {
      var s := DeclListPrefix + base + ">";
      assert s[|s| - 1..] == ">";
      assert !EndsWith(s, "*");
      assert s[..|DeclListPrefix|] == DeclListPrefix;
      assert s[..|s| - 1] == DeclListPrefix + base;
      assert Mid(s[..|s| - 1], |DeclListPrefix|) == base;
    }
  }

  /** Trailing stars are removed one at a time and each sets isPointer. */
  lemma {:induction false} RemoveStars(s: string, k: nat, isList: bool, isPointer: bool)
    requires k > 0
    ensures RemovePointerAndList(s + Stars(k), isList, isPointer) == RemovePointerAndList(s, isList, true)
    decreases k
  {
    var t := s + Stars(k);
    assert t[..|t| - 1] == s + Stars(k - 1);
    StripOneStar(t, isList, isPointer);
    if k > 1 {
      RemoveStars(s, k - 1, isList, true);
    } else {
      assert s + Stars(0) == s;
    }
  }

  /** A trailing star is removed and marks the type as a pointer. */
  lemma StripOneStar(t: string, isList: bool, isPointer: bool)
    requires t != [] && t[|t| - 1] == '*'
    ensures RemovePointerAndList(t, isList, isPointer) == RemovePointerAndList(t[..|t| - 1], isList, true)
  {
    assert EndsWith(t, "*") by { assert t[|t| - 1..] == "*"; }
  }

  // ---------------------------------------------------------------------
  // Export strings.

  /** The qml type name with the module prefix, then "./", then "/" removed. */
  function ExportName(relocatableModuleUri: string, qmlTyName: string): string
  {
    DropPrefix(DropPrefix(DropPrefix(qmlTyName, relocatableModuleUri + "/"), "./"), "/")
  }

  function VersionText(importVersion: string, majorVersion: int, minorVersion: int): string
  {
    if majorVersion == -1 then importVersion
    else IntToString(majorVersion) + "." + IntToString(minorVersion)
  }

  class Dumper {
    var relocatableModuleUri: string
    var importVersion: string

    constructor ()
      ensures relocatableModuleUri == "" && importVersion == ""
    {
      relocatableModuleUri := "";
      importVersion := "";
    }

    method SetRelocatableModuleUri(uri: string)
      modifies this`relocatableModuleUri
      ensures relocatableModuleUri == uri
    {
      relocatableModuleUri := uri;
    }

    method SetImportVersion(version: string)
      modifies this`importVersion
      ensures importVersion == version
    {
      importVersion := version;
    }

    method GetExportString(qmlTyName: string, majorVersion: int, minorVersion: int) returns (r: string)
      ensures r == ExportName(relocatableModuleUri, qmlTyName) + " " + VersionText(importVersion, majorVersion, minorVersion)
    {
      var name := qmlTyName;
      if StartsWith(name, relocatableModuleUri + "/") {
        name := name[|relocatableModuleUri| + 1..];
      }
      assert name == DropPrefix(qmlTyName, relocatableModuleUri + "/");
      if StartsWith(name, "./") {
        name := name[2..];
      }
      assert name == DropPrefix(DropPrefix(qmlTyName, relocatableModuleUri + "/"), "./");
      if StartsWith(name, "/") {
        name := name[1..];
      }
      assert name == ExportName(relocatableModuleUri, qmlTyName);
      if majorVersion == -1 {
        return name + " " + importVersion;
      }
      return name + " " + (IntToString(majorVersion) + "." + IntToString(minorVersion));
    }
  }

  /** Each of the three prefixes is removed from a name that does not start with "." or "/" itself. */
  lemma ExportNameStripsPrefixes(uri: string, n: string)
    requires !StartsWith(n, "/") && !StartsWith(n, "./") && !StartsWith(n, uri + "/")
    ensures ExportName(uri, n) == n
    ensures ExportName(uri, uri + "/" + n) == n
    ensures ExportName(uri, "./" + n) == n || StartsWith("./" + n, uri + "/")
    ensures ExportName(uri, "/" + n) == n || StartsWith("/" + n, uri + "/")
  {
    var s := uri + "/" + n;
    assert StartsWith(s, uri + "/") by { assert s[..|uri + "/"|] == uri + "/"; }
    assert DropPrefix(s, uri + "/") == n;
    var d := "./" + n;
    assert StartsWith(d, "./") by { assert d[..2] == "./"; }
    assert d[2..] == n;
    var e := "/" + n;
    assert !StartsWith(e, "./") by {
      if |e| >= 2 { assert e[..2][0] == '/'; }
    }
    assert StartsWith(e, "/") by { assert e[..1] == "/"; }
    assert e[1..] == n;
  }

  /** The prefix removal happens in the documented order: "./" is removed after the module prefix. */
  lemma ExportNameOrder()
    ensures ExportName("Ubuntu", "Ubuntu/./Label") == "Label"
    ensures ExportName("Ubuntu", "./Ubuntu/Label") == "Ubuntu/Label"
  {
    var uri := "Ubuntu" + "/";
    assert uri == "Ubuntu/";
    var n1 := "Ubuntu/./Label";
    assert n1[..7] == uri;
    assert DropPrefix(n1, uri) == "./Label";
    assert "./Label"[..2] == "./";
    assert DropPrefix("./Label", "./") == "Label";
    assert "Label"[..1][0] == 'L';
    var n2 := "./Ubuntu/Label";
    assert n2[..7][0] == '.';
    assert DropPrefix(n2, uri) == n2;
    assert n2[..2] == "./";
    assert DropPrefix(n2, "./") == "Ubuntu/Label";
    assert "Ubuntu/Label"[..1][0] == 'U';
  }

  /** A non-negative version prints as its major number, a dot and its minor number. */
  lemma VersionTextOfNat(v: string, a: nat, b: nat)
    ensures VersionText(v, a, b) == NatToString(a) + ("." + NatToString(b))
  {
    assert IntToString(a) == NatToString(a) && IntToString(b) == NatToString(b);
  }

  /** Non-negative versions print as "major.minor", and different versions print differently. */
  lemma VersionTextInjective(v: string, a: nat, b: nat, c: nat, d: nat)
    requires VersionText(v, a, b) == VersionText(v, c, d)
    ensures a == c && b == d
  {
    VersionTextOfNat(v, a, b);
    VersionTextOfNat(v, c, d);
    DotSplit(NatToString(a), NatToString(b), NatToString(c), NatToString(d));
    NatToStringInjective(a, c);
    NatToStringInjective(b, d);
  }

  // ---------------------------------------------------------------------
  // What the dump of one meta-object mentions.

  datatype MethodType = Method | Signal | Slot | Constructor
  datatype Access = Private | Protected | Public

  datatype MetaProperty = MetaProperty(name: string, revision: int)
  datatype MetaMethod = MetaMethod(name: string, methodType: MethodType, access: Access,
                                   revision: int, parameterCount: nat, typeName: string, signature: string)

  /** A change signal the dump leaves out because it is implied by a property. */
  predicate IsImplicitSignal(m: MetaMethod, implicitSignals: set<string>)
  {
    m.name in implicitSignals && m.revision == 0 && m.methodType == Signal &&
    m.parameterCount == 0 && m.typeName == "void"
  }

  /** The checks dump(QMetaMethod) makes before consulting the known attributes. */
  predicate MethodPassesFilters(m: MetaMethod, implicitSignals: set<string>)
  {
    m.access == Public && !StartsWith(m.name, "__") && !IsImplicitSignal(m, implicitSignals)
  }

  function ImplicitSignalName(p: MetaProperty): string
  {
    p.name + "Changed"
  }

  /** dump(QMetaProperty): whether the property is written, and the known table afterwards. */
  method DumpProperty(p: MetaProperty, known: KnownAttributes?) returns (emitted: bool)
    modifies if known != null then {known} else {}
    ensures known != null ==> known.properties == AfterProperty(old(known.properties), p.name, p.revision)
    ensures known != null ==> known.methods == old(known.methods)
    ensures emitted <==> !StartsWith(p.name, "__") && (known == null || !KnownEntry(old(known.properties), p.name, p.revision))
  {
    if known != null {
      var k := known.KnownProperty(p.name, p.revision);
      if k {
        return false;
      }
    }
    if StartsWith(p.name, "__") {
      return false;
    }
    return true;
  }

  /** dump(QMetaMethod): whether the method is written, and the known table afterwards. */
  method DumpMethod(m: MetaMethod, implicitSignals: set<string>, known: KnownAttributes?) returns (emitted: bool)
    modifies if known != null then {known} else {}
    ensures known != null ==> known.properties == old(known.properties)
    ensures known != null && MethodPassesFilters(m, implicitSignals) ==>
      known.methods == AfterMethod(old(known.methods), m.name, m.parameterCount, m.revision)
    ensures known != null && !MethodPassesFilters(m, implicitSignals) ==> known.methods == old(known.methods)
    ensures emitted <==> (MethodPassesFilters(m, implicitSignals) &&
      (known == null || !KnownOverload(old(known.methods), m.name, m.parameterCount, m.revision)))
  {
    if m.access != Public {
      return false;
    }
    if StartsWith(m.name, "__") {
      return false;
    }
    if m.name in implicitSignals && m.revision == 0 && m.methodType == Signal &&
       m.parameterCount == 0 && m.typeName == "void" {
      return false;
    }
    if known != null {
      var k := known.KnownMethod(m.name, m.parameterCount, m.revision);
      if k {
        return false;
      }
    }
    return true;
  }

  predicate HiddenQObjectMethod(m: MetaMethod)
  {
    m.signature == "destroyed(QObject*)" || m.signature == "destroyed()" || m.signature == "deleteLater()"
  }

  // The specification of writeMetaContent: which entries are written, in
  // input order, and the known tables afterwards. `hasKnown` says whether a
  // KnownAttributes table is passed; without one, the tables are ignored.

  /** dump(QMetaProperty)'s verdict against the property table in place. */
  predicate PropertyWritten(p: MetaProperty, hasKnown: bool, table: map<string, int>)
  {
    !StartsWith(p.name, "__") && (!hasKnown || !KnownEntry(table, p.name, p.revision))
  }

  /** The property table after knownProperty for each property, in order. */
  function PropertyTable(table: map<string, int>, props: seq<MetaProperty>): map<string, int>
    decreases |props|
  {
    if props == [] then table
    else
      var n := |props| - 1;
      AfterProperty(PropertyTable(table, props[..n]), props[n].name, props[n].revision)
  }

  /** The method table after knownMethod for each property's implicit change signal, in order. */
  function SignalTable(methods: map<string, map<int, int>>, props: seq<MetaProperty>): map<string, map<int, int>>
    decreases |props|
  {
    if props == [] then methods
    else
      var n := |props| - 1;
      AfterMethod(SignalTable(methods, props[..n]), ImplicitSignalName(props[n]), 0, props[n].revision)
  }

  /** The properties written, in input order: each one dump(QMetaProperty) accepts against the table before it. */
  function WrittenProperties(props: seq<MetaProperty>, hasKnown: bool, table: map<string, int>): seq<MetaProperty>
    decreases |props|
  {
    if props == [] then []
    else
      var n := |props| - 1;
      WrittenProperties(props[..n], hasKnown, table) +
      (if PropertyWritten(props[n], hasKnown, PropertyTable(table, props[..n])) then [props[n]] else [])
  }

  /** The methods writeMetaContent skips before dump: QObject's hidden ones, other types' Changed ones. */
  predicate Skipped(m: MetaMethod, isQObject: bool)
  {
    if isQObject then HiddenQObjectMethod(m) else |m.name| > 0 && EndsWith(m.name, "Changed")
  }

  /** A method neither skipped nor filtered out, and not known against the method table in place. */
  predicate MethodWritten(m: MetaMethod, signals: set<string>, isQObject: bool, hasKnown: bool,
                          table: map<string, map<int, int>>)
  {
    !Skipped(m, isQObject) && MethodPassesFilters(m, signals) &&
    (!hasKnown || !KnownOverload(table, m.name, m.parameterCount, m.revision))
  }

  /** The method table after the methods loop: only methods that reach knownMethod are recorded. */
  function MethodTable(table: map<string, map<int, int>>, meths: seq<MetaMethod>, signals: set<string>,
                       isQObject: bool): map<string, map<int, int>>
    decreases |meths|
  {
    if meths == [] then table
    else
      var n := |meths| - 1;
      var before := MethodTable(table, meths[..n], signals, isQObject);
      var m := meths[n];
      if !Skipped(m, isQObject) && MethodPassesFilters(m, signals)
      then AfterMethod(before, m.name, m.parameterCount, m.revision) else before
  }

  /** The methods the methods loop writes, in input order. */
  function WrittenMethods(meths: seq<MetaMethod>, signals: set<string>, isQObject: bool, hasKnown: bool,
                          table: map<string, map<int, int>>): seq<MetaMethod>
    decreases |meths|
  {
    if meths == [] then []
    else
      var n := |meths| - 1;
      WrittenMethods(meths[..n], signals, isQObject, hasKnown, table) +
      (if MethodWritten(meths[n], signals, isQObject, hasKnown, MethodTable(table, meths[..n], signals, isQObject))
       then [meths[n]] else [])
  }

  /** The method table after knownMethod(name, nArgs, 0) for each script method. */
  function ScriptTable(table: map<string, map<int, int>>, script: seq<MetaMethod>): map<string, map<int, int>>
    decreases |script|
  {
    if script == [] then table
    else
      var n := |script| - 1;
      AfterMethod(ScriptTable(table, script[..n]), script[n].name, script[n].parameterCount, 0)
  }

  /** The script methods appended for QObject: each unless known at revision 0. */
  function WrittenScript(script: seq<MetaMethod>, hasKnown: bool, table: map<string, map<int, int>>): seq<MetaMethod>
    decreases |script|
  {
    if script == [] then []
    else
      var n := |script| - 1;
      WrittenScript(script[..n], hasKnown, table) +
      (if !hasKnown || !KnownOverload(ScriptTable(table, script[..n]), script[n].name, script[n].parameterCount, 0)
       then [script[n]] else [])
  }

  /** The output of a longer input extends the output of its prefix: the written properties keep the input order. */
  lemma {:induction false} WrittenPropertiesPrefix(props: seq<MetaProperty>, hasKnown: bool, table: map<string, int>, k: nat)
    requires k <= |props|
    ensures WrittenProperties(props[..k], hasKnown, table) <= WrittenProperties(props, hasKnown, table)
    decreases |props|
  {
    if k < |props| {
      var n := |props| - 1;
      assert props[..n][..k] == props[..k];
      WrittenPropertiesPrefix(props[..n], hasKnown, table, k);
    } else {
      assert props[..k] == props;
    }
  }

  /** Every written property comes from the input and is not internal. */
  lemma {:induction false} WrittenPropertiesSound(props: seq<MetaProperty>, hasKnown: bool, table: map<string, int>)
    ensures forall p :: p in WrittenProperties(props, hasKnown, table) ==> p in props && !StartsWith(p.name, "__")
    decreases |props|
  {
    if props != [] {
      var n := |props| - 1;
      WrittenPropertiesSound(props[..n], hasKnown, table);
      forall p | p in props[..n] ensures p in props {
        var i :| 0 <= i < n && props[..n][i] == p;
        assert props[i] == p;
      }
    }
  }

  /** Every property that is not internal and not known when its turn comes is written. */
  lemma WrittenPropertiesComplete(props: seq<MetaProperty>, hasKnown: bool, table: map<string, int>, i: nat)
    requires i < |props| && PropertyWritten(props[i], hasKnown, PropertyTable(table, props[..i]))
    ensures props[i] in WrittenProperties(props, hasKnown, table)
  {
    var w := WrittenProperties(props[..i + 1], hasKnown, table);
    assert props[..i + 1][..i] == props[..i];
    assert w[|w| - 1] == props[i];
    WrittenPropertiesPrefix(props, hasKnown, table, i + 1);
    assert WrittenProperties(props, hasKnown, table)[|w| - 1] == props[i];
  }

  /** The written methods keep the input order. */
  lemma {:induction false} WrittenMethodsPrefix(meths: seq<MetaMethod>, signals: set<string>, isQObject: bool,
                                                hasKnown: bool, table: map<string, map<int, int>>, k: nat)
    requires k <= |meths|
    ensures WrittenMethods(meths[..k], signals, isQObject, hasKnown, table) <=
            WrittenMethods(meths, signals, isQObject, hasKnown, table)
    decreases |meths|
  {
    if k < |meths| {
      var n := |meths| - 1;
      assert meths[..n][..k] == meths[..k];
      WrittenMethodsPrefix(meths[..n], signals, isQObject, hasKnown, table, k);
    } else {
      assert meths[..k] == meths;
    }
  }

  /** Every written method comes from the input, is not skipped and passes the filters. */
  lemma {:induction false} WrittenMethodsSound(meths: seq<MetaMethod>, signals: set<string>, isQObject: bool,
                                               hasKnown: bool, table: map<string, map<int, int>>)
    ensures forall m :: m in WrittenMethods(meths, signals, isQObject, hasKnown, table) ==>
      m in meths && !Skipped(m, isQObject) && MethodPassesFilters(m, signals)
    decreases |meths|
  {
    if meths != [] {
      var n := |meths| - 1;
      WrittenMethodsSound(meths[..n], signals, isQObject, hasKnown, table);
      forall m | m in meths[..n] ensures m in meths {
        var i :| 0 <= i < n && meths[..n][i] == m;
        assert meths[i] == m;
      }
    }
  }

  /** Every method that is not skipped, passes the filters and is not known when its turn comes is written. */
  lemma WrittenMethodsComplete(meths: seq<MetaMethod>, signals: set<string>, isQObject: bool,
                               hasKnown: bool, table: map<string, map<int, int>>, i: nat)
    requires i < |meths| && MethodWritten(meths[i], signals, isQObject, hasKnown, MethodTable(table, meths[..i], signals, isQObject))
    ensures meths[i] in WrittenMethods(meths, signals, isQObject, hasKnown, table)
  {
    var w := WrittenMethods(meths[..i + 1], signals, isQObject, hasKnown, table);
    assert meths[..i + 1][..i] == meths[..i];
    assert w[|w| - 1] == meths[i];
    WrittenMethodsPrefix(meths, signals, isQObject, hasKnown, table, i + 1);
    assert WrittenMethods(meths, signals, isQObject, hasKnown, table)[|w| - 1] == meths[i];
  }

  /** Without a known table, QObject gets all three script methods. */
  lemma AllScriptMethodsWithoutTable(table: map<string, map<int, int>>)
    ensures WrittenScript(ScriptMethods(), false, table) == ScriptMethods()
  {
    var sc := ScriptMethods();
    assert sc[..2][..1][..0] == [] && sc[..2][..1] == [sc[0]] && sc[..2] == [sc[0], sc[1]] && sc[..3] == sc;
    assert WrittenScript(sc[..1], false, table) == [sc[0]];
    assert WrittenScript(sc[..2], false, table) == [sc[0], sc[1]];
  }

  /** Without a known table the methods written do not depend on the table. */
  lemma {:induction false} WrittenMethodsNoTable(meths: seq<MetaMethod>, signals: set<string>, isQObject: bool,
                                                 t1: map<string, map<int, int>>, t2: map<string, map<int, int>>)
    ensures WrittenMethods(meths, signals, isQObject, false, t1) == WrittenMethods(meths, signals, isQObject, false, t2)
    decreases |meths|
  {
    if meths != [] {
      WrittenMethodsNoTable(meths[..|meths| - 1], signals, isQObject, t1, t2);
    }
  }

  /** Without a known table all script methods are written, whatever the table. */
  lemma {:induction false} WrittenScriptNoTable(script: seq<MetaMethod>, t1: map<string, map<int, int>>,
                                                t2: map<string, map<int, int>>)
    ensures WrittenScript(script, false, t1) == WrittenScript(script, false, t2)
    decreases |script|
  {
    if script != [] {
      WrittenScriptNoTable(script[..|script| - 1], t1, t2);
    }
  }

  /** One round of the properties loop: the property's dump, then its change signal recorded as known. */
  method DumpPropertyAndSignal(p: MetaProperty, known: KnownAttributes?) returns (emitted: bool)
    modifies if known != null then {known} else {}
    ensures emitted == PropertyWritten(p, known != null, if known != null then old(known.properties) else map[])
    ensures known != null ==> known.properties == AfterProperty(old(known.properties), p.name, p.revision)
    ensures known != null ==> known.methods == AfterMethod(old(known.methods), ImplicitSignalName(p), 0, p.revision)
  {
    emitted := DumpProperty(p, known);
    if known != null {
      var _ := known.KnownMethod(ImplicitSignalName(p), 0, p.revision);
    }
  }

  /** The implicit change signals of the properties, gathered one property at a time. */
  function SignalNames(props: seq<MetaProperty>): set<string>
    decreases |props|
  {
    if props == [] then {}
    else
      var n := |props| - 1;
      SignalNames(props[..n]) + {ImplicitSignalName(props[n])}
  }

  /** The gathered signals are the Changed name of every property. */
  lemma {:induction false} SignalNamesOfAll(props: seq<MetaProperty>)
    ensures SignalNames(props) == set p | p in props :: ImplicitSignalName(p)
    decreases |props|
  {
    if props != [] {
      var n := |props| - 1;
      SignalNamesOfAll(props[..n]);
      assert props == props[..n] + [props[n]];
    }
  }

  /** One more property: each of the properties loop's specifications grows by that property's step. */
  lemma PropertiesStep(props: seq<MetaProperty>, i: nat, hasKnown: bool, pt: map<string, int>,
                       mt: map<string, map<int, int>>)
    requires i < |props|
    ensures var q := props[..i + 1];
      WrittenProperties(q, hasKnown, pt) == WrittenProperties(props[..i], hasKnown, pt) +
        (if PropertyWritten(props[i], hasKnown, PropertyTable(pt, props[..i])) then [props[i]] else []) &&
      PropertyTable(pt, q) == AfterProperty(PropertyTable(pt, props[..i]), props[i].name, props[i].revision) &&
      SignalTable(mt, q) == AfterMethod(SignalTable(mt, props[..i]), ImplicitSignalName(props[i]), 0, props[i].revision) &&
      SignalNames(q) == SignalNames(props[..i]) + {ImplicitSignalName(props[i])}
  {
    var q := props[..i + 1];
    assert q[..i] == props[..i];
    assert q == props[..i] + [props[i]];
  }

  /** The body of the properties loop: the loop's specifications move on by one property. */
  method DumpPropertyStep(props: seq<MetaProperty>, i: nat, known: KnownAttributes?, ghost pt: map<string, int>,
                          ghost mt: map<string, map<int, int>>, writtenProps: seq<MetaProperty>, implicitSignals: set<string>)
    returns (written: seq<MetaProperty>, signals: set<string>)
    requires i < |props|
    requires implicitSignals == SignalNames(props[..i])
    requires writtenProps == WrittenProperties(props[..i], known != null, pt)
    requires known != null ==> known.properties == PropertyTable(pt, props[..i]) && known.methods == SignalTable(mt, props[..i])
    modifies if known != null then {known} else {}
    ensures signals == SignalNames(props[..i + 1])
    ensures written == WrittenProperties(props[..i + 1], known != null, pt)
    ensures known != null ==> known.properties == PropertyTable(pt, props[..i + 1]) && known.methods == SignalTable(mt, props[..i + 1])
  {
    var p := props[i];
    PropertiesStep(props, i, known != null, pt, mt);
    var e := DumpPropertyAndSignal(p, known);
    written := if e then writtenProps + [p] else writtenProps;
    signals := implicitSignals + {ImplicitSignalName(p)};
  }

  /** The properties loop of writeMetaContent. */
  method DumpProperties(props: seq<MetaProperty>, known: KnownAttributes?)
    returns (writtenProps: seq<MetaProperty>, implicitSignals: set<string>)
    modifies if known != null then {known} else {}
    ensures implicitSignals == set p | p in props :: ImplicitSignalName(p)
    ensures var pt := if known != null then old(known.properties) else map[];
      writtenProps == WrittenProperties(props, known != null, pt) &&
      (known != null ==> known.properties == PropertyTable(pt, props))
    ensures known != null ==> known.methods == SignalTable(old(known.methods), props)
  {
    ghost var pt := if known != null then known.properties else map[];
    ghost var mt0 := if known != null then known.methods else map[];
    writtenProps := [];
    implicitSignals := {};
    var i := 0;
    while i < |props|
      invariant 0 <= i <= |props|
      invariant implicitSignals == SignalNames(props[..i])
      invariant writtenProps == WrittenProperties(props[..i], known != null, pt)
      invariant known != null ==> known.properties == PropertyTable(pt, props[..i])
      invariant known != null ==> known.methods == SignalTable(mt0, props[..i])
    {
      writtenProps, implicitSignals := DumpPropertyStep(props, i, known, pt, mt0, writtenProps, implicitSignals);
      i := i + 1;
    }
    assert props[..i] == props;
    SignalNamesOfAll(props);
  }

  /** The methods loop of writeMetaContent. */
  method DumpMethods(meths: seq<MetaMethod>, implicitSignals: set<string>, isQObject: bool, known: KnownAttributes?)
    returns (writtenMethods: seq<MetaMethod>)
    modifies if known != null then {known} else {}
    ensures var mt := if known != null then old(known.methods) else map[];
      writtenMethods == WrittenMethods(meths, implicitSignals, isQObject, known != null, mt) &&
      (known != null ==> known.methods == MethodTable(mt, meths, implicitSignals, isQObject))
    ensures known != null ==> known.properties == old(known.properties)
  {
    ghost var mt := if known != null then known.methods else map[];
    writtenMethods := [];
    var j := 0;
    while j < |meths|
      invariant 0 <= j <= |meths|
      invariant writtenMethods == WrittenMethods(meths[..j], implicitSignals, isQObject, known != null, mt)
      invariant known != null ==> known.methods == MethodTable(mt, meths[..j], implicitSignals, isQObject)
      invariant known != null ==> known.properties == old(known.properties)
    {
      var m := meths[j];
      assert meths[..j + 1][..j] == meths[..j];
      var skip := if isQObject then HiddenQObjectMethod(m) else (|m.name| > 0 && EndsWith(m.name, "Changed"));
      if !skip {
        var e := DumpMethod(m, implicitSignals, known);
        if e {
          writtenMethods := writtenMethods + [m];
        }
      }
      j := j + 1;
    }
    assert meths[..j] == meths;
  }

  /** The script methods writeMetaContent appends for QObject. */
  method DumpScriptMethods(known: KnownAttributes?) returns (written: seq<MetaMethod>)
    modifies if known != null then {known} else {}
    ensures var mt := if known != null then old(known.methods) else map[];
      written == WrittenScript(ScriptMethods(), known != null, mt) &&
      (known != null ==> known.methods == ScriptTable(mt, ScriptMethods()))
    ensures known != null ==> known.properties == old(known.properties)
  {
    ghost var mt := if known != null then known.methods else map[];
    var script := ScriptMethods();
    written := [];
    var k := 0;
    while k < |script|
      invariant 0 <= k <= |script|
      invariant written == WrittenScript(script[..k], known != null, mt)
      invariant known != null ==> known.methods == ScriptTable(mt, script[..k])
      invariant known != null ==> known.properties == old(known.properties)
    {
      assert script[..k + 1][..k] == script[..k];
      var isKnown := false;
      if known != null {
        isKnown := known.KnownMethod(script[k].name, script[k].parameterCount, 0);
      }
      if !isKnown {
        written := written + [script[k]];
      }
      k := k + 1;
    }
    assert script[..k] == script;
  }

  /**
   * writeMetaContent, restricted to which properties and methods are written:
   * the properties in input order, then the methods, and for QObject itself
   * the three script methods toString(), destroy() and destroy(int), each
   * unless already known.
   */
  method WriteMetaContent(props: seq<MetaProperty>, meths: seq<MetaMethod>, isQObject: bool, known: KnownAttributes?)
    returns (writtenProps: seq<MetaProperty>, writtenMethods: seq<MetaMethod>, implicitSignals: set<string>)
    modifies if known != null then {known} else {}
    ensures implicitSignals == set p | p in props :: ImplicitSignalName(p)
    ensures var pt := if known != null then old(known.properties) else map[];
      writtenProps == WrittenProperties(props, known != null, pt) &&
      (known != null ==> known.properties == PropertyTable(pt, props))
    ensures var mt := SignalTable(if known != null then old(known.methods) else map[], props);
      var after := MethodTable(mt, meths, implicitSignals, isQObject);
      writtenMethods == WrittenMethods(meths, implicitSignals, isQObject, known != null, mt) +
                        (if isQObject then WrittenScript(ScriptMethods(), known != null, after) else []) &&
      (known != null ==> known.methods == if isQObject then ScriptTable(after, ScriptMethods()) else after)
  {
    ghost var mt := SignalTable(if known != null then known.methods else map[], props);
    writtenProps, implicitSignals := DumpProperties(props, known);
    writtenMethods := DumpMethods(meths, implicitSignals, isQObject, known);
    ghost var after := MethodTable(mt, meths, implicitSignals, isQObject);
    if known == null {
      WrittenMethodsNoTable(meths, implicitSignals, isQObject, map[], mt);
    }
    if isQObject {
      var script := DumpScriptMethods(known);
      if known == null {
        WrittenScriptNoTable(ScriptMethods(), map[], after);
      }
      writtenMethods := writtenMethods + script;
    }
  }

  /** toString(), destroy() and destroy(int delay), added for QObject. */
  function ScriptMethods(): seq<MetaMethod>
  {
    [MetaMethod("toString", Method, Public, 0, 0, "void", "toString()"),
     MetaMethod("destroy", Method, Public, 0, 0, "void", "destroy()"),
     MetaMethod("destroy", Method, Public, 0, 1, "void", "destroy(int)")]
  }
}
