/**
 * The client's configuration provider (ClientConfigProviderImpl): a string map
 * merged from a default properties resource and an optional user file, loaded
 * once into a cache, with typed accessors over it, plus the line rendering used
 * to write the default properties file.
 *
 * The file system is a value handed to the loading calls: what
 * `Properties.load` reads from each resource is given, not computed.
 */
module ConfigProvider {
  import opened Wrappers
  import opened Decimal
  import LinkedMaps
  import opened ConfigKeys

  type Properties = map<string, string>

  /** `Map.get`: a missing key gives null. */
  function Get(props: Properties, key: string): Option<string> {
    if key in props then Some(props[key]) else None
  }

  // ---------------------------------------------------------------- boolean

  function LowerAscii(c: char): char {
    if 'A' <= c <= 'Z' then (c as int + 32) as char else c
  }

  /** `String.equalsIgnoreCase` for ASCII text. */
  predicate EqualsIgnoreCase(a: string, b: string) {
    |a| == |b| && forall i :: 0 <= i < |a| ==> LowerAscii(a[i]) == LowerAscii(b[i])
  }

  /** getBooleanProperty: `"true".equalsIgnoreCase(prop)`, which is false for null. */
  function BooleanValue(prop: Option<string>): bool {
    prop.Some? && EqualsIgnoreCase("true", prop.value)
  }

  /** True exactly for the four letters t, r, u, e, each in either case; an absent key is false. */
  lemma BooleanValueSpelled(prop: Option<string>)
    ensures BooleanValue(prop) <==>
      && prop.Some? && |prop.value| == 4
      && (prop.value[0] == 't' || prop.value[0] == 'T')
      && (prop.value[1] == 'r' || prop.value[1] == 'R')
      && (prop.value[2] == 'u' || prop.value[2] == 'U')
      && (prop.value[3] == 'e' || prop.value[3] == 'E')
  {
    if prop.Some? && |prop.value| == 4 {
      var v := prop.value;
      assert LowerAscii('t') == 't' && LowerAscii('r') == 'r' && LowerAscii('u') == 'u' && LowerAscii('e') == 'e';
      if BooleanValue(prop) {
        assert LowerAscii(v[0]) == 't' && LowerAscii(v[1]) == 'r' && LowerAscii(v[2]) == 'u' && LowerAscii(v[3]) == 'e';
      }
    }
  }

  // ---------------------------------------------------------------- integer

  /** getIntegerProperty: `Integer.parseInt(prop)`; null and unparsable text both give null. */
  function IntegerValue(prop: Option<string>): (r: Option<int>)
    ensures r.Some? ==> prop.Some? && InInt32(r.value)
  {
    if prop.None? then None else ParseInt(prop.value)
  }

  /**
   * A present property gives a number exactly when its text is a numeral within
   * 32 bits, and then the number it denotes; the sign and leading zeros are read as
   * `parseInt` reads them.
   */
  lemma IntegerValueSpec(prop: Option<string>)
    ensures IntegerValue(prop).Some? <==>
      prop.Some? && Numeral(prop.value) && InInt32(SignedValue(prop.value))
    ensures IntegerValue(prop).Some? ==> IntegerValue(prop).value == SignedValue(prop.value)
    ensures prop.Some? && AllDigits(prop.value) ==> IntegerValue(Some("+" + prop.value)) == IntegerValue(prop)
  {
    if prop.Some? {
      ParseIntSpec(prop.value);
      if AllDigits(prop.value) {
        ParseIntPlusSign(prop.value);
      }
    }
  }

  /** A stored 32-bit number reads back as itself; an absent key reads as null. */
  lemma IntegerValueRoundTrip(n: int)
    requires InInt32(n)
    ensures IntegerValue(Some(Show(n))) == Some(n)
    ensures IntegerValue(None) == None
  {
    ParseShow(n);
  }

  // ---------------------------------------------------------------- comma split

  /** The text between commas, every field, empty ones included. */
  function Fields(s: string): (fs: seq<string>)
    ensures |fs| >= 1
  {
    if s == [] then [""]
    else
      var rest := Fields(s[1..]);
      if s[0] == ',' then [""] + rest else [[s[0]] + rest[0]] + rest[1..]
  }

  /** The fields glued back with commas. */
  function JoinComma(fs: seq<string>): string
    requires |fs| >= 1
  {
    if |fs| == 1 then fs[0] else fs[0] + "," + JoinComma(fs[1..])
  }

  predicate NoComma(s: string) {
    forall i :: 0 <= i < |s| ==> s[i] != ','
  }

  lemma {:induction false} FieldsJoin(s: string)
    ensures JoinComma(Fields(s)) == s
    ensures forall i :: 0 <= i < |Fields(s)| ==> NoComma(Fields(s)[i])
    ensures |Fields(s)| == 1 <==> NoComma(s)
  {
    if s != [] {
      var rest := Fields(s[1..]);
      FieldsJoin(s[1..]);
      if s[0] == ',' {
        assert Fields(s)[1..] == rest;
      } else {
        var fs := Fields(s);
        if |rest| == 1 {
          assert fs == [[s[0]] + rest[0]];
        } else {
          assert fs[1..] == rest[1..];
          assert JoinComma(rest) == rest[0] + "," + JoinComma(rest[1..]);
        }
        forall i | 0 <= i < |fs|
          ensures NoComma(fs[i])
        {
          if i == 0 {
            assert NoComma(rest[0]);
          } else {
            assert fs[i] == rest[i];
          }
        }
      }
    }
  }

  /** The last field is empty exactly when the text ends with a comma or is empty. */
  lemma {:induction false} FieldsLast(s: string)
    ensures var fs := Fields(s); fs[|fs| - 1] == "" <==> (s == [] || s[|s| - 1] == ',')
  {
    if s != [] {
      FieldsLast(s[1..]);
      var rest := Fields(s[1..]);
      if s[0] != ',' && |rest| == 1 {
        assert Fields(s) == [[s[0]] + rest[0]];
      }
    }
  }

  /** The trailing empty strings that `String.split` discards. */
  function DropTrailingEmpty(fs: seq<string>): (r: seq<string>)
    ensures |r| <= |fs| && r == fs[..|r|]
    ensures forall i :: |r| <= i < |fs| ==> fs[i] == ""
    ensures r == [] || r[|r| - 1] != ""
  {
    if fs == [] then []
    else if fs[|fs| - 1] == "" then
      var r := DropTrailingEmpty(fs[..|fs| - 1]);
      assert fs[..|fs| - 1][..|r|] == fs[..|r|];
      r
    else fs
  }

  /**
   * `s.split(",")`: when no comma occurs the result is `[s]` (so "" gives [""]);
   * otherwise the fields between commas, with trailing empty fields removed.
   */
  function CommaSplit(s: string): seq<string> {
    if NoComma(s) then [s] else DropTrailingEmpty(Fields(s))
  }

  /**
   * Splitting gives comma-free pieces in their original order; nothing but empty
   * trailing fields is lost, and when the text does not end with a comma joining
   * the pieces gives the text back.
   */
  lemma CommaSplitSpec(s: string)
    ensures NoComma(s) ==> CommaSplit(s) == [s]
    ensures forall i :: 0 <= i < |CommaSplit(s)| ==> NoComma(CommaSplit(s)[i])
    ensures !NoComma(s) ==>
      var fs, r := Fields(s), CommaSplit(s);
      && r == fs[..|r|]
      && (forall i :: |r| <= i < |fs| ==> fs[i] == "")
      && (r == [] || r[|r| - 1] != "")
    ensures s != [] && s[|s| - 1] != ',' ==> |CommaSplit(s)| >= 1 && JoinComma(CommaSplit(s)) == s
  {
    CommaSplitPieces(s);
    if !NoComma(s) {
      CommaSplitTail(s);
    }
    if s != [] && s[|s| - 1] != ',' {
      CommaSplitRejoin(s);
    }
  }

  /** A text with a comma splits into its fields less the empty trailing ones. */
  lemma CommaSplitTail(s: string)
    requires !NoComma(s)
    ensures var fs, r := Fields(s), CommaSplit(s);
      && r == fs[..|r|]
      && (forall i :: |r| <= i < |fs| ==> fs[i] == "")
      && (r == [] || r[|r| - 1] != "")
  {
    assert CommaSplit(s) == DropTrailingEmpty(Fields(s));
  }

  /** No piece of a split holds a comma. */
  lemma CommaSplitPieces(s: string)
    ensures forall i :: 0 <= i < |CommaSplit(s)| ==> NoComma(CommaSplit(s)[i])
  {
    if !NoComma(s) {
      FieldsJoin(s);
      var fs := Fields(s);
      var r := DropTrailingEmpty(fs);
      forall i | 0 <= i < |r|
        ensures NoComma(r[i])
      {
        assert r[i] == fs[i];
      }
    }
  }

  /** A text that does not end with a comma loses nothing in the split. */
  lemma CommaSplitRejoin(s: string)
    requires s != [] && s[|s| - 1] != ','
    ensures |CommaSplit(s)| >= 1 && JoinComma(CommaSplit(s)) == s
  {
    if !NoComma(s) {
      FieldsJoin(s);
      FieldsLast(s);
      assert DropTrailingEmpty(Fields(s)) == Fields(s);
    }
  }

  /** getCommaSplitedProperty: null for an absent key, else the split value. */
  function CommaSplitValue(prop: Option<string>): (r: Option<seq<string>>)
    ensures r.Some? <==> prop.Some?
  {
    if prop.None? then None else Some(CommaSplit(prop.value))
  }

  /** A comma-free lead followed by a comma is the first field. */
  lemma {:induction false} FieldsLead(lead: string, tail: string)
    requires NoComma(lead)
    ensures Fields(lead + "," + tail) == [lead] + Fields(tail)
    ensures Fields(lead) == [lead]
  {
    if lead == [] {
      assert lead + "," + tail == [','] + tail;
      assert ([','] + tail)[1..] == tail;
    } else {
      assert (lead + "," + tail)[1..] == lead[1..] + "," + tail;
      FieldsLead(lead[1..], tail);
      assert [lead[0]] + lead[1..] == lead;
    }
  }

  /** "a,b" splits into its two fields; "" stays one empty field. */
  lemma CommaSplitPlain()
    ensures CommaSplit("a,b") == ["a", "b"]
    ensures CommaSplit("") == [""]
  {
    assert "a,b"[1] == ',';
    FieldsLead("a", "b");
    FieldsLead("b", "");
    assert "a,b" == "a" + "," + "b";
  }

  /** A lone comma gives no fields at all. */
  lemma CommaSplitLoneComma()
    ensures CommaSplit(",") == []
  {
    assert ","[0] == ',';
    FieldsLead("", "");
    assert "," == "" + "," + "";
    assert ["", ""][..1] == [""];
    assert [""][..0] == [];
  }

  lemma FieldsTwoCommas()
    ensures Fields("b,,") == ["b", "", ""]
  {
    FieldsLead("", "");
    assert "," == "" + "," + "";
    FieldsLead("b", ",");
    assert "b,," == "b" + "," + ",";
  }

  lemma FieldsTrailingEmpties()
    ensures Fields("a,,b,,") == ["a", "", "b", "", ""]
  {
    FieldsTwoCommas();
    FieldsLead("", "b,,");
    assert ",b,," == "" + "," + "b,,";
    FieldsLead("a", ",b,,");
    assert "a,,b,," == "a" + "," + ",b,,";
  }

  /** Inner empty fields stay, trailing ones go. */
  lemma CommaSplitTrailing()
    ensures CommaSplit("a,,b,,") == ["a", "", "b"]
  {
    assert "a,,b,,"[1] == ',';
    FieldsTrailingEmpties();
    var fs := ["a", "", "b", "", ""];
    assert fs[..4] == ["a", "", "b", ""];
    assert fs[..4][..3] == ["a", "", "b"];
    assert DropTrailingEmpty(fs) == DropTrailingEmpty(fs[..4]);
    assert DropTrailingEmpty(fs[..4]) == DropTrailingEmpty(["a", "", "b"]);
    assert DropTrailingEmpty(["a", "", "b"]) == ["a", "", "b"];
  }

  // ---------------------------------------------------------------- sub-properties

  predicate StartsWith(s: string, prefix: string) {
    |prefix| <= |s| && s[..|prefix|] == prefix
  }

  /**
   * getSubProperties: every entry whose key starts with the prefix and is longer
   * than it, with the prefix cut off the key.
   */
  method SubProperties(props: Properties, keyPrefix: string) returns (sub: Properties)
    ensures forall s :: s in sub <==> |s| > 0 && keyPrefix + s in props
    ensures forall s :: s in sub ==> sub[s] == props[keyPrefix + s]
  {
    sub := map[];
    var entries := props.Keys;
    while entries != {}
      invariant entries <= props.Keys
      invariant forall s :: s in sub <==>
        |s| > 0 && keyPrefix + s in props && keyPrefix + s !in entries
      invariant forall s :: s in sub ==> sub[s] == props[keyPrefix + s]
      decreases |entries|
    {
      var key :| key in entries;
      if StartsWith(key, keyPrefix) && key != keyPrefix {
        var newKey := key[|keyPrefix|..];
        assert keyPrefix + newKey == key;
        sub := sub[newKey := props[key]];
      }
      entries := entries - {key};
      forall s | |s| > 0 && keyPrefix + s == key
        ensures s in sub
      {
        assert (keyPrefix + s)[..|keyPrefix|] == keyPrefix;
        assert (keyPrefix + s)[|keyPrefix|..] == s;
      }
    }
  }

  // ---------------------------------------------------------------- loading

  /**
   * What the loader can read. `defaults` is the bundled default resource (None:
   * reading it failed with an IOException); `files` maps each path that exists
   * and is a regular file to what was read from it (None: an IOException).
   */
  datatype FileSystem = FileSystem(defaults: Option<Properties>, files: map<string, Option<Properties>>)

  /** loadConfigMapFrom: put every loaded entry; a later put replaces the value for its key. */
  method PutAll(configs: Properties, loaded: Properties) returns (r: Properties)
    ensures r == configs + loaded
  {
    r := configs;
    var keys := loaded.Keys;
    while keys != {}
      invariant keys <= loaded.Keys
      invariant r == configs + (loaded - keys)
      decreases |keys|
    {
      var key :| key in keys;
      PutStep(configs, loaded, keys, key);
      r := r[key := loaded[key]];
      keys := keys - {key};
    }
  }

  lemma PutStep(configs: Properties, loaded: Properties, keys: set<string>, key: string)
    requires key in keys && key in loaded
    ensures configs + (loaded - (keys - {key})) == (configs + (loaded - keys))[key := loaded[key]]
  {
  }

  /** The entries the user file contributes: none when the path is null, missing or unreadable. */
  function FileEntries(fs: FileSystem, path: Option<string>): Properties {
    if path.Some? && path.value in fs.files && fs.files[path.value].Some? then fs.files[path.value].value else map[]
  }

  function DefaultEntries(fs: FileSystem): Properties {
    fs.defaults.GetOr(map[])
  }

  /** Defaults first, then the user file on top. */
  function MergedConfig(fs: FileSystem, path: Option<string>): Properties {
    DefaultEntries(fs) + FileEntries(fs, path)
  }

  /** loadConfigMap: the default resource, then the user file when it exists and is a file. */
  method LoadConfigMap(fs: FileSystem, propFilePath: Option<string>) returns (configs: Properties)
    ensures configs == MergedConfig(fs, propFilePath)
  {
    configs := map[];
    if fs.defaults.Some? {
      configs := PutAll(configs, fs.defaults.value);
    }
    assert configs == DefaultEntries(fs);
    if propFilePath.Some? {
      if propFilePath.value in fs.files {
        var loaded := fs.files[propFilePath.value];
        if loaded.Some? {
          configs := PutAll(configs, loaded.value);
        }
      }
    }
  }

  /**
   * The merge order: a key in the user file takes the file's value; a key only in
   * the defaults keeps the default; no other key appears.
   */
  lemma MergeOrder(fs: FileSystem, path: Option<string>, k: string)
    ensures k in FileEntries(fs, path) ==> Get(MergedConfig(fs, path), k) == Some(FileEntries(fs, path)[k])
    ensures k !in FileEntries(fs, path) ==> Get(MergedConfig(fs, path), k) == Get(DefaultEntries(fs), k)
  {
  }

  /** A null path, or one that does not name a readable regular file, leaves exactly the defaults. */
  lemma NoFileGivesDefaults(fs: FileSystem, path: Option<string>)
    requires path.None? || path.value !in fs.files || fs.files[path.value].None?
    ensures MergedConfig(fs, path) == DefaultEntries(fs)
  {
    assert FileEntries(fs, path) == map[];
  }

  /**
   * ClientConfigProviderImpl: the file path given at construction and the cached
   * map, loaded on the first lookup and never again.
   */
  class Provider {
    const propertiesFilePath: Option<string>
    var configMap: Option<Properties>

    constructor (propertiesFilePath: Option<string>)
      ensures this.propertiesFilePath == propertiesFilePath
      ensures configMap.None?
    {
      this.propertiesFilePath := propertiesFilePath;
      configMap := None;
    }

    /** The cache after a lookup with file system `fs`: the old map if there was one, else a fresh load. */
    function CacheAfter(fs: FileSystem): Properties
      reads this
    {
      if configMap.Some? then configMap.value else MergedConfig(fs, propertiesFilePath)
    }

    method EnsureLoaded(fs: FileSystem)
      modifies this
      ensures configMap == Some(old(CacheAfter(fs)))
    {
      if configMap.None? {
        var loaded := LoadConfigMap(fs, propertiesFilePath);
        configMap := Some(loaded);
      }
    }

    /** getProperties. */
    method GetProperties(fs: FileSystem) returns (m: Properties)
      modifies this
      ensures configMap == Some(old(CacheAfter(fs)))
      ensures m == configMap.value
    {
      EnsureLoaded(fs);
      m := configMap.value;
    }

    /** getProperty: a lookup in the cache, loading it first if needed. */
    method GetProperty(key: string, fs: FileSystem) returns (v: Option<string>)
      modifies this
      ensures configMap == Some(old(CacheAfter(fs)))
      ensures v == Get(configMap.value, key)
    {
      EnsureLoaded(fs);
      v := Get(configMap.value, key);
    }

    method GetBooleanProperty(key: string, fs: FileSystem) returns (b: bool)
      modifies this
      ensures configMap == Some(old(CacheAfter(fs)))
      ensures b == BooleanValue(Get(configMap.value, key))
    {
      var prop := GetProperty(key, fs);
      b := BooleanValue(prop);
    }

    method GetIntegerProperty(key: string, fs: FileSystem) returns (n: Option<int>)
      modifies this
      ensures configMap == Some(old(CacheAfter(fs)))
      ensures n == IntegerValue(Get(configMap.value, key))
    {
      var prop := GetProperty(key, fs);
      n := IntegerValue(prop);
    }

    method GetCommaSplitedProperty(key: string, fs: FileSystem) returns (vals: Option<seq<string>>)
      modifies this
      ensures configMap == Some(old(CacheAfter(fs)))
      ensures vals == CommaSplitValue(Get(configMap.value, key))
    {
      var prop := GetProperty(key, fs);
      vals := CommaSplitValue(prop);
    }

    method GetSubProperties(keyPrefix: string, fs: FileSystem) returns (sub: Properties)
      modifies this
      ensures configMap == Some(old(CacheAfter(fs)))
      ensures forall s :: s in sub <==> |s| > 0 && keyPrefix + s in configMap.value
      ensures forall s :: s in sub ==> sub[s] == configMap.value[keyPrefix + s]
    {
      var propMap := GetProperties(fs);
      sub := SubProperties(propMap, keyPrefix);
    }
  }

  /**
   * Two lookups in a row, even with a different file system the second time, see
   * the map loaded by the first: the cache is filled once.
   */
  method LoadsOnce(p: Provider, key1: string, key2: string, fs1: FileSystem, fs2: FileSystem)
      returns (v1: Option<string>, v2: Option<string>)
    requires p.configMap.None?
    modifies p
    ensures p.configMap == Some(MergedConfig(fs1, p.propertiesFilePath))
    ensures v1 == Get(MergedConfig(fs1, p.propertiesFilePath), key1)
    ensures v2 == Get(MergedConfig(fs1, p.propertiesFilePath), key2)
  {
    v1 := p.GetProperty(key1, fs1);
    v2 := p.GetProperty(key2, fs2);
  }

  // ---------------------------------------------------------------- storing

  const HeaderLines: seq<string> := [
    "#####################################################################",
    "#       DON'T CHANGE THIS FILE DIRECTLY.",
    "# This file is automatically generated by ClientConfigProviderImpl class.",
    "# If you want to change this file, ",
    "# modify the class and generate this file.",
    "#####################################################################",
    ""]

  /** `String.format("%s=%s", key, value)` */
  function PropLine(key: string, value: string): string {
    key + "=" + value
  }

  /** The `key=value` lines for the entries, in iteration order, skipping null values. */
  function PropLines(entries: seq<(string, Option<string>)>): seq<string> {
    if entries == [] then []
    else
      var (k, v) := entries[|entries| - 1];
      PropLines(entries[..|entries| - 1]) + (if v.Some? then [PropLine(k, v.value)] else [])
  }

  /**
   * storeProps writes the header lines, then one line per entry (the entries of a
   * LinkedHashMap, in its iteration order) whose value is not null.
   */
  method StoreProps(props: seq<(string, Option<string>)>) returns (lines: seq<string>)
    ensures lines == HeaderLines + PropLines(props)
  {
    lines := [];
    var h := 0;
    while h < |HeaderLines|
      invariant h <= |HeaderLines|
      invariant lines == HeaderLines[..h]
    {
      lines := lines + [HeaderLines[h]];
      h := h + 1;
    }
    var i := 0;
    while i < |props|
      invariant i <= |props|
      invariant lines == HeaderLines + PropLines(props[..i])
    {
      var (key, value) := props[i];
      assert props[..i + 1][..i] == props[..i];
      if value.Some? {
        lines := lines + [PropLine(key, value.value)];
      }
      i := i + 1;
    }
    assert props[..i] == props;
  }

  /** Rendering respects concatenation: entries are written in order and independently of each other. */
  lemma {:induction false} PropLinesAppend(a: seq<(string, Option<string>)>, b: seq<(string, Option<string>)>)
    ensures PropLines(a + b) == PropLines(a) + PropLines(b)
    decreases |b|
  {
    if b == [] {
      assert a + b == a;
    } else {
      var b' := b[..|b| - 1];
      assert (a + b)[..|a + b| - 1] == a + b';
      assert (a + b)[|a + b| - 1] == b[|b| - 1];
      PropLinesAppend(a, b');
    }
  }

  /** An entry with a value gives exactly its `key=value` line; a null-valued entry gives none. */
  lemma PropLinesSingle(k: string, v: Option<string>)
    ensures v.Some? ==> PropLines([(k, v)]) == [k + "=" + v.value]
    ensures v.None? ==> PropLines([(k, v)]) == []
  {
    assert [(k, v)][..0] == [];
  }

  /** A written line splits back at position |key| into the key, "=" and the value. */
  lemma PropLineParts(key: string, value: string)
    ensures var l := PropLine(key, value);
      |l| == |key| + 1 + |value| && l[..|key|] == key && l[|key|] == '=' && l[|key| + 1..] == value
  {
  }

  /** The number of lines written is the header plus the number of non-null entries. */
  function CountPresent(entries: seq<(string, Option<string>)>): nat {
    if entries == [] then 0 else CountPresent(entries[..|entries| - 1]) + (if entries[|entries| - 1].1.Some? then 1 else 0)
  }

  lemma {:induction false} StoredLineCount(props: seq<(string, Option<string>)>)
    ensures |PropLines(props)| == CountPresent(props)
    ensures |HeaderLines + PropLines(props)| == 7 + CountPresent(props)
  {
    if props != [] {
      StoredLineCount(props[..|props| - 1]);
    }
  }

  /** A written entry list with every value present gives one line per entry, in order. */
  lemma {:induction false} PropLinesAllPresent(entries: seq<(string, Option<string>)>)
    requires forall i :: 0 <= i < |entries| ==> entries[i].1.Some?
    ensures |PropLines(entries)| == |entries|
    ensures forall i :: 0 <= i < |entries| ==>
      PropLines(entries)[i] == PropLine(entries[i].0, entries[i].1.value)
  {
    if entries != [] {
      PropLinesAllPresent(entries[..|entries| - 1]);
    }
  }

  // ---------------------------------------------------------------- default definitions

  /** ConfigDefinition.defineProps: the default entries, in the order they are put. */
  const DefinedProps: seq<(string, string)> := [
    (PropKeyDebugClients, "debugClient"),
    (PropKeyServerBaseUri, "http://127.0.0.1:8080/DEMO"),
    (PropKeyServerConnectionTimeoutSec, "600"),
    (PropKeyServerReadTimeoutSec, "600"),
    (PropKeyServerSrcComponentName, ClientTypeHitachi),
    ("#" + PropKeyServerSrcComponentName, ClientTypeOther),
    (PropKeyServerDummyInvokerSetFlag, "false"),
    (PropKeyServerTopologyViewUri, "")]

  /** The map a sequence of puts builds; a later put of the same key wins. */
  function EntriesMap(entries: seq<(string, string)>): Properties {
    if entries == [] then map[]
    else EntriesMap(entries[..|entries| - 1])[entries[|entries| - 1].0 := entries[|entries| - 1].1]
  }

  function DefinedMap(): Properties {
    EntriesMap(DefinedProps)
  }

  predicate DistinctKeys(entries: seq<(string, string)>) {
    forall i, j :: 0 <= i < j < |entries| ==> entries[i].0 != entries[j].0
  }

  /** With pairwise different keys, the map built by the puts holds exactly the put entries. */
  lemma {:induction false} EntriesMapLookup(entries: seq<(string, string)>)
    requires DistinctKeys(entries)
    ensures forall i :: 0 <= i < |entries| ==>
      entries[i].0 in EntriesMap(entries) && EntriesMap(entries)[entries[i].0] == entries[i].1
    ensures forall k :: k in EntriesMap(entries) ==> exists i :: 0 <= i < |entries| && entries[i].0 == k
  {
    if entries != [] {
      var front := entries[..|entries| - 1];
      EntriesMapLookup(front);
      assert EntriesMap(entries) == EntriesMap(front)[entries[|entries| - 1].0 := entries[|entries| - 1].1];
      forall k | k in EntriesMap(entries)
        ensures exists i :: 0 <= i < |entries| && entries[i].0 == k
      {
        if k != entries[|entries| - 1].0 {
          var i :| 0 <= i < |front| && front[i].0 == k;
          assert entries[i].0 == k;
        }
      }
    }
  }

  lemma DefinedKeysDistinct()
    ensures DistinctKeys(DefinedProps)
  {
  }

  /** The values the default map gives for the keys the client reads. */
  lemma DefinedMapValues()
    ensures Get(DefinedMap(), PropKeyServerBaseUri) == Some("http://127.0.0.1:8080/DEMO")
    ensures Get(DefinedMap(), PropKeyServerConnectionTimeoutSec) == Some("600")
    ensures Get(DefinedMap(), PropKeyServerReadTimeoutSec) == Some("600")
    ensures Get(DefinedMap(), PropKeyServerSrcComponentName) == Some(ClientTypeHitachi)
    ensures Get(DefinedMap(), PropKeyServerDummyInvokerSetFlag) == Some("false")
    ensures Get(DefinedMap(), PropKeyServerTopologyViewUri) == Some("")
  {
    DefinedKeysDistinct();
    EntriesMapLookup(DefinedProps);
    assert DefinedProps[1] == (PropKeyServerBaseUri, "http://127.0.0.1:8080/DEMO");
    assert DefinedProps[2] == (PropKeyServerConnectionTimeoutSec, "600");
    assert DefinedProps[3] == (PropKeyServerReadTimeoutSec, "600");
    assert DefinedProps[4] == (PropKeyServerSrcComponentName, ClientTypeHitachi);
    assert DefinedProps[6] == (PropKeyServerDummyInvokerSetFlag, "false");
    assert DefinedProps[7] == (PropKeyServerTopologyViewUri, "");
  }

  /** The map entries as storeProps receives them: a Java map never hands out a missing value here. */
  function Present(entries: seq<(string, string)>): seq<(string, Option<string>)> {
    seq(|entries|, i requires 0 <= i < |entries| => (entries[i].0, Some(entries[i].1)))
  }

  /**
   * main: the definitions are put into a LinkedHashMap and storeProps writes
   * them back by iterating its key set, so the generated default file is the
   * seven header lines followed by one `key=value` line per default definition,
   * in definition order.
   */
  method GenerateDefaultFile() returns (lines: seq<string>)
    ensures |lines| == 7 + |DefinedProps|
    ensures lines[..7] == HeaderLines
    ensures forall i :: 0 <= i < |DefinedProps| ==> lines[7 + i] == PropLine(DefinedProps[i].0, DefinedProps[i].1)
  {
    var props := LinkedMaps.PutAll(DefinedProps);
    var entries := LinkedMaps.Entries(props);
    DefinedKeysDistinct();
    LinkedMaps.PutAllDistinct(DefinedProps);
    assert entries == Present(DefinedProps);
    lines := StoreProps(entries);
    PropLinesAllPresent(entries);
  }
}
