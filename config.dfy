/** Configuration resolution of morpho.py: dotted-path lookup in the YAML
    tree (`stan_args.read_param`), the settings record built from it with its
    defaults (`stan_args.__init__`), and the keyword-argument filter
    (`stan_args.gen_arg_dict`). */
module Config {
  import opened Values

  /** The sentinel default that turns a failed lookup into an error. */
  const Required: Value := Str("required")

  // ---------------------------------------------------------------------------
  // Dotted keys: `node.split('.')` and its inverse

  /** Python's `s.split('.')`: the pieces between dots, in order; an empty
      string or a dot at either end gives an empty piece. */
  function Split(s: string): (parts: seq<string>)
    ensures |parts| >= 1
    ensures forall i :: 0 <= i < |parts| ==> '.' !in parts[i]
  {
    if s == [] then [""]
    else if s[0] == '.' then [""] + Split(s[1..])
    else Prepend(s[0], Split(s[1..]))
  }

  /** Put a character in front of the first piece. */
  function Prepend(c: char, parts: seq<string>): (r: seq<string>)
    requires |parts| >= 1
    ensures |r| == |parts| && r[0] == [c] + parts[0] && r[1..] == parts[1..]
  {
    [[c] + parts[0]] + parts[1..]
  }

  /** `'.'.join(parts)` */
  function Join(parts: seq<string>): string
    requires |parts| >= 1
  {
    if |parts| == 1 then parts[0] else parts[0] + "." + Join(parts[1..])
  }

  /** Splitting loses nothing: the pieces joined by dots give back the key. */
  lemma {:induction false} JoinSplit(s: string)
    ensures Join(Split(s)) == s
  {
    if s != [] {
      var rest := Split(s[1..]);
      JoinSplit(s[1..]);
      if s[0] == '.' {
        assert ([""] + rest)[1..] == rest;
      } else if |rest| > 1 {
        assert ([[s[0]] + rest[0]] + rest[1..])[1..] == rest[1..];
      }
    }
  }

  lemma {:induction false} SplitDotless(a: string)
    requires '.' !in a
    ensures Split(a) == [a]
  {
    if a != [] {
      assert a[0] in a;
      SplitDotless(a[1..]);
      assert [a[0]] + a[1..] == a;
    }
  }

  lemma {:induction false} SplitAtDot(a: string, b: string)
    requires '.' !in a
    ensures Split(a + "." + b) == [a] + Split(b)
  {
    var s := a + "." + b;
    if a == [] {
      assert s[0] == '.' && s[1..] == b;
    } else {
      assert s[0] == a[0] && s[1..] == a[1..] + "." + b;
      SplitAtDot(a[1..], b);
      assert [a[0]] + a[1..] == a;
    }
  }

  /** Joining dot-free pieces and splitting again gives back the pieces. */
  lemma {:induction false} SplitJoin(parts: seq<string>)
    requires |parts| >= 1
    requires forall i :: 0 <= i < |parts| ==> '.' !in parts[i]
    ensures Split(Join(parts)) == parts
  {
    if |parts| == 1 {
      SplitDotless(parts[0]);
    } else {
      SplitAtDot(parts[0], Join(parts[1..]));
      SplitJoin(parts[1..]);
    }
  }

  // ---------------------------------------------------------------------------
  // Walking the configuration tree

  /** The outcome of `for path in xpath: data = data[path]` started at `data`:
      the value reached, or the first subscript that raised. */
  function Walk(data: Value, path: seq<string>): Result<Value>
  {
    if path == [] then Ok(data)
    else
      match Subscript(data, path[0])
      case Err(e) => Err(e)
      case Ok(child) => Walk(child, path[1..])
  }

  /** Continue a walk that may already have failed. */
  function Then(r: Result<Value>, path: seq<string>): Result<Value>
  {
    match r
    case Ok(v) => Walk(v, path)
    case Err(e) => Err(e)
  }

  /** A walk along `p + q` is the walk along `p` followed by the walk along
      `q`; a failure along `p` is the failure of the whole walk. */
  lemma {:induction false} WalkAppend(data: Value, p: seq<string>, q: seq<string>)
    ensures Walk(data, p + q) == Then(Walk(data, p), q)
  {
    if p == [] {
      assert p + q == q;
    } else {
      assert (p + q)[0] == p[0];
      assert (p + q)[1..] == p[1..] + q;
      match Subscript(data, p[0])
      case Err(e) =>
      case Ok(child) => WalkAppend(child, p[1..], q);
    }
  }

  /** A one-step walk is a single subscript. */
  lemma WalkOne(data: Value, key: string)
    ensures Walk(data, [key]) == Subscript(data, key)
  {
    assert [key][1..] == [];
  }

  /** A walk succeeds exactly when every node it passes through is a mapping
      holding the next component. */
  lemma {:induction false} WalkOkIff(data: Value, path: seq<string>)
    ensures Walk(data, path).Ok? <==>
      forall i :: 0 <= i < |path| ==>
        Walk(data, path[..i]).Ok? && Walk(data, path[..i]).value.Map? &&
        path[i] in Walk(data, path[..i]).value.entries
  {
    if path != [] {
      var n := |path| - 1;
      var init := path[..n];
      WalkOkIff(data, init);
      WalkAppend(data, init, [path[n]]);
      assert init + [path[n]] == path;
      assert path[..n] == init;
      match Walk(data, init)
      case Err(e) =>
      case Ok(v) => WalkOne(v, path[n]);
      forall i | 0 <= i < n ensures path[..i] == init[..i] && path[i] == init[i] { }
    }
  }

  /** The lookup along the components of a path, with the default policy
      applied to a failed walk. */
  function Lookup(yamlData: Value, path: seq<string>, default: Value): Result<Value>
  {
    match Walk(yamlData, path)
    case Ok(v) => Ok(v)
    case Err(e) => if default == Required then Err(e) else Ok(default)
  }

  /** What `read_param(yaml_data, node, default)` returns or raises. */
  function Resolve(yamlData: Value, node: string, default: Value): Result<Value>
  {
    Lookup(yamlData, Split(node), default)
  }

  /** `stan_args.read_param`: walk the dotted path one component at a time;
      on any failure fall back to the default, or re-raise the lookup error
      when the default is the sentinel "required". */
  method ReadParam(yamlData: Value, node: string, default: Value) returns (r: Result<Value>)
    ensures Walk(yamlData, Split(node)).Ok? ==> r == Walk(yamlData, Split(node))
    ensures Walk(yamlData, Split(node)).Err? && default != Required ==> r == Ok(default)
    ensures Walk(yamlData, Split(node)).Err? && default == Required ==>
      r == Err(Walk(yamlData, Split(node)).error)
    ensures r == Resolve(yamlData, node, default)
  {
    var data := yamlData;
    var xpath := Split(node);
    var i := 0;
    while i < |xpath|
      invariant 0 <= i <= |xpath|
      invariant Walk(yamlData, xpath[..i]) == Ok(data)
    {
      var step := Subscript(data, xpath[i]);
      if step.Err? {
        WalkAppend(yamlData, xpath[..i], xpath[i..]);
        assert xpath[..i] + xpath[i..] == xpath;
        assert xpath[i..][0] == xpath[i];
        if default == Required {
          return Err(step.error);
        }
        return Ok(default);
      }
      WalkAppend(yamlData, xpath[..i], [xpath[i]]);
      WalkOne(data, xpath[i]);
      assert xpath[..i] + [xpath[i]] == xpath[..i + 1];
      data := step.value;
      i := i + 1;
    }
    assert xpath[..i] == xpath;
    return Ok(data);
  }

  /** A lookup with a default other than "required" never raises. */
  lemma ResolveSoftNeverFails(yamlData: Value, node: string, default: Value)
    requires default != Required
    ensures Resolve(yamlData, node, default).Ok?
    ensures Resolve(yamlData, node, default).value ==
      (if Walk(yamlData, Split(node)).Ok? then Walk(yamlData, Split(node)).value else default)
  {
  }

  // ---------------------------------------------------------------------------
  // Python 2 division by two, used for the warmup default

  /** `x/2` in Python 2: integer operands floor, booleans count as 0 and 1,
      floats halve; any other operand raises. */
  function HalfOf(x: Value): (r: Result<Value>)
    ensures x.Int? ==> r.Ok? && r.value.Int? && 2 * r.value.i <= x.i < 2 * r.value.i + 2
    ensures x.Bool? ==> r == Ok(Int(0))
    ensures x.Float? ==> r.Ok? && r.value.Float? && 2.0 * r.value.r == x.r
    ensures r.Err? <==> !(x.Int? || x.Bool? || x.Float?)
    ensures r.Err? ==> r.error == UnsupportedOperand
  {
    match x
    case Int(n) => Ok(Int(n / 2))
    case Bool(b) => Ok(Int((if b then 1 else 0) / 2))
    case Float(f) => Ok(Float(f / 2.0))
    case _ => Err(UnsupportedOperand)
  }

  // ---------------------------------------------------------------------------
  // The settings object

  /** The attributes `stan_args.__init__` sets, in the order it sets them.
      `data` holds what the foreign loader made of `stan.data`; `init` is
      what `init_function` returns, the per-chain initialiser. */
  datatype Settings = Settings(
    modelCode: Value,
    casheDir: Value,
    data: Value,
    algorithm: Value,
    iter: Value,
    warmup: Value,
    chains: Value,
    thin: Value,
    initPerChain: Value,
    init: Value,
    plotVars: Value,
    outFormat: Value,
    outFname: Value,
    outTree: Value,
    outBranches: Value,
    outCfg: Value,
    outVars: Value)
  {
    /** The object's `__dict__`, keyed by the Python attribute names. */
    function Attributes(): map<string, Value>
    {
      map[
        "model_code" := modelCode, "cashe_dir" := casheDir, "data" := data,
        "algorithm" := algorithm, "iter" := iter, "warmup" := warmup,
        "chains" := chains, "thin" := thin, "init_per_chain" := initPerChain,
        "init" := init, "plot_vars" := plotVars, "out_format" := outFormat,
        "out_fname" := outFname, "out_tree" := outTree,
        "out_branches" := outBranches, "out_cfg" := outCfg, "out_vars" := outVars]
    }
  }

  /** `stan_args.__init__`: resolve each setting in turn; the first lookup or
      arithmetic that raises aborts construction with that error.  The
      warmup default `self.iter/2` is computed before warmup is looked up,
      so it raises for a non-numeric iter even when warmup is present.
      `stanDataFiles` stands for the foreign data loader.  Each dotted key is
      written as its list of components. */
  method Load(yd: Value, stanDataFiles: Value -> Value) returns (r: Result<Settings>)
    ensures Lookup(yd, ["stan", "model", "file"], Required).Err? ==>
      r == Err(Lookup(yd, ["stan", "model", "file"], Required).error)
    ensures Lookup(yd, ["stan", "model", "file"], Required).Ok? && Lookup(yd, ["stan", "data"], Required).Err? ==>
      r == Err(Lookup(yd, ["stan", "data"], Required).error)
    ensures r.Ok? <==>
      && Lookup(yd, ["stan", "model", "file"], Required).Ok?
      && Lookup(yd, ["stan", "data"], Required).Ok?
      && HalfOf(Lookup(yd, ["stan", "run", "iter"], Int(2000)).value).Ok?
    ensures (r.Err? && Lookup(yd, ["stan", "model", "file"], Required).Ok? &&
             Lookup(yd, ["stan", "data"], Required).Ok?) ==> r.error == UnsupportedOperand
    ensures r.Ok? ==>
      && r.value.modelCode == Lookup(yd, ["stan", "model", "file"], Required).value
      && r.value.casheDir == Lookup(yd, ["stan", "model", "cache"], Str("./cache")).value
      && r.value.data == stanDataFiles(Lookup(yd, ["stan", "data"], Required).value)
      && r.value.algorithm == Lookup(yd, ["stan", "run", "algorithm"], Str("NUTS")).value
      && r.value.iter == Lookup(yd, ["stan", "run", "iter"], Int(2000)).value
      && r.value.warmup == Lookup(yd, ["stan", "run", "warmup"], HalfOf(r.value.iter).value).value
      && r.value.chains == Lookup(yd, ["stan", "run", "chain"], Int(4)).value
      && r.value.thin == Lookup(yd, ["stan", "run", "thin"], Int(1)).value
      && r.value.initPerChain == Lookup(yd, ["stan", "run", "init"], Str("")).value
      && r.value.init == r.value.initPerChain
      && r.value.plotVars == Lookup(yd, ["stan", "plot"], Null).value
      && r.value.outFormat == Lookup(yd, ["stan", "output", "format"], Str("hdf5")).value
      && r.value.outFname == Lookup(yd, ["stan", "output", "name"], Str("stan_out.h5")).value
      && r.value.outTree == Lookup(yd, ["stan", "output", "tree"], Null).value
      && r.value.outBranches == Lookup(yd, ["stan", "output", "branches"], Null).value
      && r.value.outCfg == Lookup(yd, ["stan", "output", "config"], Null).value
      && r.value.outVars == Lookup(yd, ["stan", "output", "data"], Null).value
  {
    var modelCode :- ReadKey(yd, ["stan", "model", "file"], Required);
    var casheDir := ReadKeySoft(yd, ["stan", "model", "cache"], Str("./cache"));
    var datafiles :- ReadKey(yd, ["stan", "data"], Required);
    var data := stanDataFiles(datafiles);
    var algorithm := ReadKeySoft(yd, ["stan", "run", "algorithm"], Str("NUTS"));
    var iter := ReadKeySoft(yd, ["stan", "run", "iter"], Int(2000));
    var half :- HalfOf(iter);
    var warmup := ReadKeySoft(yd, ["stan", "run", "warmup"], half);
    var chains := ReadKeySoft(yd, ["stan", "run", "chain"], Int(4));
    var thin := ReadKeySoft(yd, ["stan", "run", "thin"], Int(1));
    var initPerChain := ReadKeySoft(yd, ["stan", "run", "init"], Str(""));
    var plotVars := ReadKeySoft(yd, ["stan", "plot"], Null);
    var outFormat := ReadKeySoft(yd, ["stan", "output", "format"], Str("hdf5"));
    var outFname := ReadKeySoft(yd, ["stan", "output", "name"], Str("stan_out.h5"));
    var outTree := ReadKeySoft(yd, ["stan", "output", "tree"], Null);
    var outBranches := ReadKeySoft(yd, ["stan", "output", "branches"], Null);
    var outCfg := ReadKeySoft(yd, ["stan", "output", "config"], Null);
    var outVars := ReadKeySoft(yd, ["stan", "output", "data"], Null);
    r := Ok(Settings(modelCode, casheDir, data, algorithm, iter, warmup, chains, thin,
                     initPerChain, initPerChain, plotVars, outFormat, outFname,
                     outTree, outBranches, outCfg, outVars));
  }

  /** `read_param` called with the dotted key whose components are `path`. */
  method ReadKey(yd: Value, path: seq<string>, default: Value) returns (r: Result<Value>)
    requires |path| >= 1 && forall i :: 0 <= i < |path| ==> '.' !in path[i]
    ensures r == Lookup(yd, path, default)
  {
    SplitJoin(path);
    r := ReadParam(yd, Join(path), default);
  }

  /** `read_param` with a default other than "required", which never raises. */
  method ReadKeySoft(yd: Value, path: seq<string>, default: Value) returns (v: Value)
    requires |path| >= 1 && forall i :: 0 <= i < |path| ==> '.' !in path[i]
    requires default != Required
    ensures Lookup(yd, path, default) == Ok(v)
  {
    var r := ReadKey(yd, path, default);
    v := r.value;
  }

  /** When `stan.run.warmup` is absent and `iter` resolved to an integer `n`,
      warmup is `n` floor-divided by two. */
  lemma WarmupDefaultsToHalfIter(yd: Value, n: int)
    requires Lookup(yd, ["stan", "run", "iter"], Int(2000)) == Ok(Int(n))
    requires Walk(yd, ["stan", "run", "warmup"]).Err?
    ensures Lookup(yd, ["stan", "run", "warmup"], HalfOf(Int(n)).value).Ok?
    ensures var w := Lookup(yd, ["stan", "run", "warmup"], HalfOf(Int(n)).value).value;
      w.Int? && 2 * w.i <= n < 2 * w.i + 2
  {
  }

  // ---------------------------------------------------------------------------
  // Keyword arguments for the sampler

  /** `{k: d[k] for k in allowed if k in d}`: the attributes whose names are
      allowed, with their values. */
  function GenArgDict(attrs: map<string, Value>, allowed: seq<string>): (kwargs: map<string, Value>)
    ensures forall k :: k in kwargs <==> k in allowed && k in attrs
    ensures forall k :: k in kwargs ==> kwargs[k] == attrs[k]
  {
    map k | k in allowed && k in attrs :: attrs[k]
  }

  /** The order of the allowed names (`sa.args + sca.args`) does not matter,
      a name listed twice (as `model_code` is, by both argument lists) counts
      once, and filtering twice is filtering once. */
  lemma GenArgDictOrderFree(attrs: map<string, Value>, a: seq<string>, b: seq<string>)
    ensures GenArgDict(attrs, a + b) == GenArgDict(attrs, b + a)
    ensures GenArgDict(GenArgDict(attrs, a), a) == GenArgDict(attrs, a)
    ensures GenArgDict(attrs, a + a) == GenArgDict(attrs, a)
  {
    assert GenArgDict(attrs, a + b).Keys == GenArgDict(attrs, b + a).Keys;
    assert GenArgDict(attrs, a + a).Keys == GenArgDict(attrs, a).Keys;
  }

  /** No attribute of the settings is called `model_name`, so the keyword
      arguments never name the model and the cache always uses the unnamed
      file name. */
  lemma KwargsNeverNameModel(s: Settings, allowed: seq<string>)
    ensures "model_name" !in GenArgDict(s.Attributes(), allowed)
    ensures "cashe_dir" in allowed ==> GenArgDict(s.Attributes(), allowed)["cashe_dir"] == s.casheDir
  {
  }
}
