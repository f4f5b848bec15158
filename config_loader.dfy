/** The configuration loader: a YAML document read once, and a read-only
    lookup of dotted paths such as "grid_strategy.grid_num" that descends
    one mapping per segment. */
module ConfigLoader {
  import opened Wrappers

  /** A YAML value as safe_load returns it. */
  datatype Value =
    | Null
    | Bool(b: bool)
    | Int(i: int)
    | Float(r: real)
    | Str(s: string)
    | List(items: seq<Value>)
    | Dict(entries: map<string, Value>)

  /* ---------------------------------------------------------------------
     str.split and its inverse
     --------------------------------------------------------------------- */

  /** s.split(sep): the pieces between separators, empty ones included. */
  function Split(s: string, sep: char): (r: seq<string>)
    ensures |r| >= 1
    ensures forall i :: 0 <= i < |r| ==> sep !in r[i]
  {
    if s == [] then [""]
    else
      var r := Split(s[..|s| - 1], sep);
      var c := s[|s| - 1];
      if c == sep then r + [""]
      else r[..|r| - 1] + [r[|r| - 1] + [c]]
  }

  /** sep.join(parts). */
  function Join(parts: seq<string>, sep: char): string
    requires |parts| >= 1
  {
    if |parts| == 1 then parts[0]
    else Join(parts[..|parts| - 1], sep) + [sep] + parts[|parts| - 1]
  }

  /** Extending the last piece extends the joined string. */
  lemma JoinExtendLast(parts: seq<string>, sep: char, c: char)
    requires |parts| >= 1
    ensures Join(parts[..|parts| - 1] + [parts[|parts| - 1] + [c]], sep) == Join(parts, sep) + [c]
  {
    var q := parts[..|parts| - 1] + [parts[|parts| - 1] + [c]];
    if |parts| > 1 {
      assert q[..|q| - 1] == parts[..|parts| - 1];
    }
  }

  /** Joining the pieces of a split gives the string back. */
  lemma {:induction false} JoinSplit(s: string, sep: char)
    ensures Join(Split(s, sep), sep) == s
  {
    if s != [] {
      var s' := s[..|s| - 1];
      var r := Split(s', sep);
      JoinSplit(s', sep);
      assert s == s' + [s[|s| - 1]];
      if s[|s| - 1] == sep {
        assert (r + [""])[..|r|] == r;
      } else {
        JoinExtendLast(r, sep, s[|s| - 1]);
      }
    }
  }

  /** Splitting after a separator starts a new piece, and a piece free of
      separators stays whole. */
  lemma {:induction false} SplitAfterSeparator(x: string, p: string, sep: char)
    requires sep !in p
    ensures Split(x + [sep] + p, sep) == Split(x, sep) + [p]
    decreases |p|
  {
    if p == [] {
      assert x + [sep] + p == x + [sep];
      assert (x + [sep])[..|x|] == x;
    } else {
      var p' := p[..|p| - 1];
      SplitAfterSeparator(x, p', sep);
      assert (x + [sep] + p)[..|x + [sep] + p| - 1] == x + [sep] + p';
      assert p' + [p[|p| - 1]] == p;
    }
  }

  lemma {:induction false} SplitWhole(p: string, sep: char)
    requires sep !in p
    ensures Split(p, sep) == [p]
    decreases |p|
  {
    if p != [] {
      var p' := p[..|p| - 1];
      SplitWhole(p', sep);
      assert p' + [p[|p| - 1]] == p;
    }
  }

  /** Splitting a join of separator-free pieces gives the pieces back. */
  lemma {:induction false} SplitJoin(parts: seq<string>, sep: char)
    requires |parts| >= 1
    requires forall i :: 0 <= i < |parts| ==> sep !in parts[i]
    ensures Split(Join(parts, sep), sep) == parts
    decreases |parts|
  {
    if |parts| == 1 {
      SplitWhole(parts[0], sep);
    } else {
      var init := parts[..|parts| - 1];
      SplitJoin(init, sep);
      SplitAfterSeparator(Join(init, sep), parts[|parts| - 1], sep);
      assert init + [parts[|parts| - 1]] == parts;
    }
  }

  /* ---------------------------------------------------------------------
     Config.get
     --------------------------------------------------------------------- */

  /** The loop of `get`: while segments remain, a mapping is descended into
      by the next segment; a missing key, a stored null or a value that is
      not a mapping gives the default.  Whatever the path ends on is
      returned as it is. */
  function Walk(value: Value, keys: seq<string>, default: Value): (r: Value)
    ensures keys != [] && r != default ==> r != Null
    decreases |keys|
  {
    if keys == [] then value
    else match value
      case Dict(entries) =>
        if keys[0] !in entries || entries[keys[0]] == Null then default
        else Walk(entries[keys[0]], keys[1..], default)
      case _ => default
  }

  /** `Config.get(key, default)`. */
  function Get(config: Value, key: string, default: Value): Value
  {
    Walk(config, Split(key, '.'), default)
  }

  /** A mapping that holds v under the dotted path keys. */
  function Nest(keys: seq<string>, v: Value): (n: Value)
    ensures keys != [] ==> n.Dict?
    decreases |keys|
  {
    if keys == [] then v else Dict(map[keys[0] := Nest(keys[1..], v)])
  }

  /** A value stored at a path is read back by walking that path, whatever
      it is: 0, false and "" included.  Only a stored null reads as the
      default. */
  lemma {:induction false} WalkNest(keys: seq<string>, v: Value, default: Value)
    ensures Walk(Nest(keys, v), keys, default) == if keys != [] && v == Null then default else v
    decreases |keys|
  {
    if keys != [] {
      WalkNest(keys[1..], v, default);
      if |keys| > 1 {
        assert Nest(keys[1..], v) != Null;
      }
    }
  }

  /** `get` on a dotted key finds what a config nested along that key's
      segments holds. */
  lemma GetNested(key: string, v: Value, default: Value)
    requires v != Null
    ensures Get(Nest(Split(key, '.'), v), key, default) == v
  {
    WalkNest(Split(key, '.'), v, default);
  }

  /** Walking a longer path is walking its first part, then the rest from
      what that reaches; a first part that breaks off gives the default. */
  lemma {:induction false} WalkAppend(value: Value, keys1: seq<string>, keys2: seq<string>, default: Value)
    requires keys1 != []
    ensures Walk(value, keys1 + keys2, default)
         == (var mid := Walk(value, keys1, Null); if mid == Null then default else Walk(mid, keys2, default))
    decreases |keys1|
  {
    assert (keys1 + keys2)[0] == keys1[0];
    if value.Dict? && keys1[0] in value.entries && value.entries[keys1[0]] != Null {
      assert (keys1 + keys2)[1..] == keys1[1..] + keys2;
      if |keys1| > 1 {
        WalkAppend(value.entries[keys1[0]], keys1[1..], keys2, default);
      }
    }
  }

  /** A root that is not a mapping, or a first segment that is missing or
      null, gives the default. */
  lemma GetMissing(config: Value, key: string, default: Value)
    requires var first := Split(key, '.')[0];
      !config.Dict? || first !in config.entries || config.entries[first] == Null
    ensures Get(config, key, default) == default
  {
  }

  /* ---------------------------------------------------------------------
     Section getters
     --------------------------------------------------------------------- */

  datatype LoadError = AttributeError

  /** `self.config.get(name, {})`: the stored section, which may be null,
      or an empty mapping when absent; a document whose root is not a
      mapping has no `.get`. */
  function Section(config: Value, name: string): (r: Result<Value, LoadError>)
    ensures r.Err? <==> !config.Dict?
    ensures r.Ok? && name in config.entries ==> r.value == config.entries[name]
    ensures r.Ok? && name !in config.entries ==> r.value == Dict(map[])
  {
    if !config.Dict? then Err(AttributeError)
    else if name in config.entries then Ok(config.entries[name])
    else Ok(Dict(map[]))
  }

  /** A section getter and `get` agree on a present, non-null section of
      a dot-free name; on a stored null the getter returns null and `get`
      the default. */
  lemma SectionAgreesWithGet(config: Value, name: string, default: Value)
    requires config.Dict? && '.' !in name
    ensures name in config.entries && config.entries[name] != Null ==>
      Section(config, name) == Ok(Get(config, name, default))
    ensures name in config.entries && config.entries[name] == Null ==>
      Section(config, name) == Ok(Null) && Get(config, name, default) == default
  {
    SplitWhole(name, '.');
    if name in config.entries && config.entries[name] != Null {
      assert [name][1..] == [];
      assert Walk(config, [name], default) == Walk(config.entries[name], [], default);
    }
  }

  /** The loaded document; no operation changes it. */
  datatype Config = Config(config: Value)
  {
    function GetOkxConfig(): Result<Value, LoadError> { Section(config, "okx") }
    function GetTradingConfig(): Result<Value, LoadError> { Section(config, "trading") }
    function GetGridConfig(): Result<Value, LoadError> { Section(config, "grid_strategy") }
    function GetRiskConfig(): Result<Value, LoadError> { Section(config, "risk_management") }
    function GetBacktestConfig(): Result<Value, LoadError> { Section(config, "backtest") }
    function GetNotificationConfig(): Result<Value, LoadError> { Section(config, "notification") }
  }
}
