/** The HDF5 result writer of morpho.py: `open_or_create`, which makes a
    group only when it is missing, and `write_result_hdf5`, which copies the
    requested variables of a fit into that group under their output names and
    skips, with a warning, those the fit lacks.  A file is a map from link
    names to groups and datasets; `D` is the type of one extracted array. */
module Hdf5Output {
  import opened Values
  import Config

  datatype Link<D> = Group(members: map<string, Link<D>>) | Dataset(data: D)

  /** What `hdf5obj[groupname]` designates: the root group for "/", otherwise
      the member of that name. */
  datatype Handle = RootGroup | Member(name: string)

  function HandleFor(groupname: string): Handle
  {
    if groupname == "/" then RootGroup else Member(groupname)
  }

  /** A handle names the root or an existing member. */
  predicate Designates<D>(root: map<string, Link<D>>, g: Handle)
  {
    g.Member? ==> g.name in root
  }

  /** The root after `open_or_create(hdf5obj, groupname)`. */
  function OpenedRoot<D>(root: map<string, Link<D>>, groupname: string): map<string, Link<D>>
  {
    if groupname != "/" && groupname !in root then root[groupname := Group(map[])] else root
  }

  /** Opening keeps every existing link, opening twice is opening once, and
      afterwards the name designates a link, an empty group when it was
      missing. */
  lemma OpenOrCreateKeepsAndIsIdempotent<D>(root: map<string, Link<D>>, groupname: string)
    ensures forall k :: k in root ==> k in OpenedRoot(root, groupname) && OpenedRoot(root, groupname)[k] == root[k]
    ensures OpenedRoot(OpenedRoot(root, groupname), groupname) == OpenedRoot(root, groupname)
    ensures Designates(OpenedRoot(root, groupname), HandleFor(groupname))
    ensures groupname != "/" && groupname !in root ==>
      OpenedRoot(root, groupname).Keys == root.Keys + {groupname} &&
      OpenedRoot(root, groupname)[groupname] == Group(map[])
  {
  }

  /** The members of the group a handle designates; nothing when it
      designates a dataset. */
  function MembersAt<D>(root: map<string, Link<D>>, g: Handle): Option<map<string, Link<D>>>
    requires Designates(root, g)
  {
    match g
    case RootGroup => Some(root)
    case Member(n) => if root[n].Group? then Some(root[n].members) else None
  }

  /** `g[name] = data`: h5py creates a dataset link and refuses to replace a
      link that exists; a dataset has no members to add to. */
  function Assign<D>(root: map<string, Link<D>>, g: Handle, name: string, data: D): (r: Result<map<string, Link<D>>>)
    requires Designates(root, g)
    ensures r.Ok? <==> MembersAt(root, g).Some? && name !in MembersAt(root, g).value
    ensures r.Ok? ==> Designates(r.value, g) && MembersAt(r.value, g) == Some(MembersAt(root, g).value[name := Dataset(data)])
    ensures r.Ok? ==> forall k :: (g.Member? && k != g.name && k in root) ==> k in r.value && r.value[k] == root[k]
    ensures r.Ok? && g.Member? ==> r.value.Keys == root.Keys
  {
    match g
    case RootGroup =>
      if name in root then Err(LinkExists(name)) else Ok(root[name := Dataset(data)])
    case Member(n) =>
      match root[n]
      case Dataset(_) => Err(NotAGroup(n))
      case Group(m) =>
        if name in m then Err(LinkExists(name)) else Ok(root[n := Group(m[name := Dataset(data)])])
  }

  /** An open HDF5 file. */
  class H5File<D> {
    var root: map<string, Link<D>>

    /** `HDF5(name, 'w')`: the file is created, or truncated, empty. */
    constructor Create()
      ensures root == map[]
    {
      root := map[];
    }

    /** `open_or_create`: create the group only when the name is not "/" and
        is not already a link, then designate it. */
    method OpenOrCreate(groupname: string) returns (g: Handle)
      modifies this
      ensures root == OpenedRoot(old(root), groupname)
      ensures g == HandleFor(groupname) && Designates(root, g)
    {
      if groupname != "/" && groupname !in root {
        root := root[groupname := Group(map[])];
      }
      g := HandleFor(groupname);
    }

    /** `g[name] = data` on the group a handle designates. */
    method SetItem(g: Handle, name: string, data: D) returns (err: Option<Error>)
      requires Designates(root, g)
      modifies this
      ensures Assign(old(root), g, name, data).Ok? ==> err.None? && root == Assign(old(root), g, name, data).value
      ensures Assign(old(root), g, name, data).Err? ==>
        err == Some(Assign(old(root), g, name, data).error) && root == old(root)
    {
      match g
      case RootGroup =>
        if name in root {
          err := Some(LinkExists(name));
        } else {
          root := root[name := Dataset(data)];
          err := None;
        }
      case Member(n) =>
        var link := root[n];
        if link.Dataset? {
          err := Some(NotAGroup(n));
        } else if name in link.members {
          err := Some(LinkExists(name));
        } else {
          root := root[n := Group(link.members[name := Dataset(data)])];
          err := None;
        }
    }
  }

  // ---------------------------------------------------------------------------
  // The requested output variables

  /** `stan_parname in fit`: a string is looked up, another hashable value
      is never a key of the fit, a list or mapping cannot be hashed. */
  function InFit<D>(p: Value, fit: map<string, D>): (r: Result<bool>)
    ensures r.Ok? && r.value ==> p.Str? && p.s in fit
    ensures p.Str? ==> r == Ok(p.s in fit)
    ensures r.Err? <==> p.List? || p.Map?
  {
    match p
    case Str(s) => Ok(s in fit)
    case List(_) => Err(Unhashable)
    case Map(_) => Err(Unhashable)
    case _ => Ok(false)
  }

  /** `for var in conf.out_vars`: a list yields its items, a string its
      characters; a mapping yields its keys, which are strings, so the first
      subscript of a non-empty mapping raises; other values do not iterate. */
  function OutVarItems(v: Value): (r: Result<seq<Value>>)
    ensures v.List? ==> r == Ok(v.items)
    ensures v.Str? ==> r.Ok? && |r.value| == |v.s| && forall i :: 0 <= i < |v.s| ==> r.value[i] == Str([v.s[i]])
    ensures v.Map? ==> (r.Ok? <==> v.entries == map[]) && (r.Ok? ==> r.value == [])
    ensures r.Err? <==> !(v.List? || v.Str? || (v.Map? && v.entries == map[]))
  {
    match v
    case List(items) => Ok(items)
    case Str(s) => Ok(seq(|s|, i requires 0 <= i < |s| => Str([s[i]])))
    case Map(m) => if |m| == 0 then Ok([]) else Err(NotSubscriptable("stan_parameter"))
    case _ => Err(NotIterable)
  }

  /** The state of the write loop: the file's root, the parameters skipped
      with a warning, and the exception that ended the loop, if any. */
  datatype WriteState<D> = WriteState(root: map<string, Link<D>>, skipped: seq<Value>, err: Option<Error>)

  /** One iteration of the loop of `write_result_hdf5`. */
  function WriteVar<D>(st: WriteState<D>, g: Handle, v: Value, fit: map<string, D>): (r: WriteState<D>)
    requires Designates(st.root, g)
    ensures Designates(r.root, g)
  {
    match Subscript(v, "stan_parameter")
    case Err(e) => st.(err := Some(e))
    case Ok(p) =>
      match InFit(p, fit)
      case Err(e) => st.(err := Some(e))
      case Ok(found) =>
        if !found then st.(skipped := st.skipped + [p])
        else
          match Subscript(v, "output_name")
          case Err(e) => st.(err := Some(e))
          case Ok(o) =>
            if !o.Str? then st.(err := Some(BadName))
            else
              match Assign(st.root, g, o.s, fit[p.s])
              case Err(e) => st.(err := Some(e))
              case Ok(root') => st.(root := root')
  }

  /** The loop over `vars`; the first exception stops it. */
  function WriteVars<D>(st0: WriteState<D>, g: Handle, vars: seq<Value>, fit: map<string, D>): (r: WriteState<D>)
    requires Designates(st0.root, g)
    ensures Designates(r.root, g)
    decreases |vars|
  {
    if vars == [] then st0
    else
      var st := WriteVars(st0, g, vars[..|vars| - 1], fit);
      if st.err.Some? then st else WriteVar(st, g, vars[|vars| - 1], fit)
  }

  /** Once an exception is raised, the remaining variables change nothing. */
  lemma {:induction false} WriteVarsStopsAtError<D>(st0: WriteState<D>, g: Handle, vars: seq<Value>, k: nat, fit: map<string, D>)
    requires Designates(st0.root, g)
    requires k <= |vars|
    requires WriteVars(st0, g, vars[..k], fit).err.Some?
    ensures WriteVars(st0, g, vars, fit) == WriteVars(st0, g, vars[..k], fit)
  {
    if k < |vars| {
      assert vars[..|vars| - 1][..k] == vars[..k];
      WriteVarsStopsAtError(st0, g, vars[..|vars| - 1], k, fit);
    } else {
      assert vars[..k] == vars;
    }
  }

  /** A requested variable the fit holds, written under a string output name. */
  predicate Present<D>(v: Value, fit: map<string, D>)
  {
    && v.Map?
    && "stan_parameter" in v.entries
    && v.entries["stan_parameter"].Str?
    && v.entries["stan_parameter"].s in fit
  }

  /** A well-formed request: a mapping with a hashable parameter and, when the
      fit holds that parameter, a string output name. */
  predicate WellFormed<D>(v: Value, fit: map<string, D>)
  {
    && v.Map?
    && "stan_parameter" in v.entries
    && !v.entries["stan_parameter"].List?
    && !v.entries["stan_parameter"].Map?
    && (Present(v, fit) ==> "output_name" in v.entries && v.entries["output_name"].Str?)
  }

  /** A request the fit holds, written under output name `o`. */
  predicate WrittenAs<D>(v: Value, fit: map<string, D>, o: string)
  {
    Present(v, fit) && "output_name" in v.entries && v.entries["output_name"] == Str(o)
  }

  function OutputName(v: Value): string
    requires v.Map? && "output_name" in v.entries && v.entries["output_name"].Str?
  {
    v.entries["output_name"].s
  }

  /** What one iteration that raises nothing does: a variable the fit holds
      adds a dataset under a new output name, any other variable is reported
      as skipped and leaves the file alone. */
  lemma WriteVarEffect<D>(st: WriteState<D>, g: Handle, v: Value, fit: map<string, D>)
    requires Designates(st.root, g) && st.err.None?
    ensures var r := WriteVar(st, g, v, fit);
      r.err.None? ==>
        if Present(v, fit) then
          && "output_name" in v.entries && v.entries["output_name"].Str?
          && MembersAt(st.root, g).Some? && OutputName(v) !in MembersAt(st.root, g).value
          && MembersAt(r.root, g) ==
               Some(MembersAt(st.root, g).value[OutputName(v) := Dataset(fit[v.entries["stan_parameter"].s])])
          && r.skipped == st.skipped
        else
          && r.root == st.root
          && v.Map? && "stan_parameter" in v.entries
          && r.skipped == st.skipped + [v.entries["stan_parameter"]]
  {
  }

  /** When the loop ends without an exception, every variable the fit holds
      has been written under its output name. */
  lemma {:induction false} WriteVarsWritesPresent<D>(st0: WriteState<D>, g: Handle, vars: seq<Value>, fit: map<string, D>)
    requires Designates(st0.root, g) && MembersAt(st0.root, g).Some? && st0.err.None?
    ensures var st := WriteVars(st0, g, vars, fit);
      st.err.None? ==>
        && MembersAt(st.root, g).Some?
        && forall i :: 0 <= i < |vars| && Present(vars[i], fit) ==>
             && "output_name" in vars[i].entries && vars[i].entries["output_name"].Str?
             && OutputName(vars[i]) in MembersAt(st.root, g).value
             && MembersAt(st.root, g).value[OutputName(vars[i])] == Dataset(fit[vars[i].entries["stan_parameter"].s])
  {
    if vars != [] {
      var n := |vars| - 1;
      var init := vars[..n];
      WriteVarsWritesPresent(st0, g, init, fit);
      var st := WriteVars(st0, g, init, fit);
      if st.err.None? {
        WriteVarEffect(st, g, vars[n], fit);
        forall i | 0 <= i < n ensures vars[i] == init[i] { }
      }
    }
  }

  /** When the loop ends without an exception and the group started empty,
      every member of the group was written for a variable the fit holds. */
  lemma {:induction false} WriteVarsWritesOnlyPresent<D>(st0: WriteState<D>, g: Handle, vars: seq<Value>, fit: map<string, D>)
    requires Designates(st0.root, g) && MembersAt(st0.root, g) == Some(map[]) && st0.err.None?
    ensures var st := WriteVars(st0, g, vars, fit);
      st.err.None? ==>
        && MembersAt(st.root, g).Some?
        && forall o :: o in MembersAt(st.root, g).value ==>
             exists i :: 0 <= i < |vars| && WrittenAs(vars[i], fit, o)
  {
    if vars != [] {
      var n := |vars| - 1;
      var init := vars[..n];
      WriteVarsWritesOnlyPresent(st0, g, init, fit);
      var st := WriteVars(st0, g, init, fit);
      if st.err.None? {
        WriteVarEffect(st, g, vars[n], fit);
        var r := WriteVar(st, g, vars[n], fit);
        if r.err.None? {
          forall o | o in MembersAt(r.root, g).value
            ensures exists i :: 0 <= i < |vars| && WrittenAs(vars[i], fit, o)
          {
            if Present(vars[n], fit) && o == OutputName(vars[n]) {
              assert WrittenAs(vars[n], fit, o);
            } else {
              var i :| 0 <= i < n && WrittenAs(init[i], fit, o);
              assert vars[i] == init[i];
            }
          }
        }
      }
    }
  }

  /** The parameters of the requests the fit lacks, in request order: what
      the warnings of the loop report. */
  function SkippedOf<D>(vars: seq<Value>, fit: map<string, D>): seq<Value>
    decreases |vars|
  {
    if vars == [] then []
    else
      var v := vars[|vars| - 1];
      SkippedOf(vars[..|vars| - 1], fit) +
        (if !Present(v, fit) && v.Map? && "stan_parameter" in v.entries then [v.entries["stan_parameter"]] else [])
  }

  /** Every variable the fit lacks is reported as skipped and the loop goes
      on past it; the skipped list gains exactly those parameters, in the
      order of the requests. */
  lemma {:induction false} WriteVarsSkipsAbsent<D>(st0: WriteState<D>, g: Handle, vars: seq<Value>, fit: map<string, D>)
    requires Designates(st0.root, g) && st0.err.None?
    ensures var st := WriteVars(st0, g, vars, fit);
      st.err.None? ==>
        forall i :: 0 <= i < |vars| && !Present(vars[i], fit) ==>
          vars[i].Map? && "stan_parameter" in vars[i].entries && vars[i].entries["stan_parameter"] in st.skipped
    ensures var st := WriteVars(st0, g, vars, fit);
      st.err.None? ==> st.skipped == st0.skipped + SkippedOf(vars, fit)
  {
    if vars != [] {
      var n := |vars| - 1;
      var init := vars[..n];
      WriteVarsSkipsAbsent(st0, g, init, fit);
      var st := WriteVars(st0, g, init, fit);
      if st.err.None? {
        WriteVarEffect(st, g, vars[n], fit);
        forall i | 0 <= i < n ensures vars[i] == init[i] { }
      }
    }
  }

  /** The loop raises nothing when every request is well formed and the
      output names of the variables the fit holds are pairwise distinct. */
  lemma {:induction false} WriteVarsNoErrorWhenWellFormed<D>(st0: WriteState<D>, g: Handle, vars: seq<Value>, fit: map<string, D>)
    requires Designates(st0.root, g) && MembersAt(st0.root, g) == Some(map[]) && st0.err.None?
    requires forall i :: 0 <= i < |vars| ==> WellFormed(vars[i], fit)
    requires forall i, j :: (0 <= i < j < |vars| && WellFormed(vars[i], fit) && WellFormed(vars[j], fit) &&
                             Present(vars[i], fit) && Present(vars[j], fit)) ==> OutputName(vars[i]) != OutputName(vars[j])
    ensures WriteVars(st0, g, vars, fit).err.None?
  {
    if vars != [] {
      var n := |vars| - 1;
      var init := vars[..n];
      WriteVarsNoErrorWhenWellFormed(st0, g, init, fit);
      WriteVarsWritesOnlyPresent(st0, g, init, fit);
      var st := WriteVars(st0, g, init, fit);
      forall i | 0 <= i < n ensures vars[i] == init[i] { }
    }
  }

  // ---------------------------------------------------------------------------
  // write_result_hdf5

  /** The file, the skipped parameters and the exception, if any, that
      `write_result_hdf5` leaves. */
  function WriteResult<D>(conf: Config.Settings, fit: map<string, D>): WriteState<D>
  {
    match Subscript(conf.outCfg, "group")
    case Err(e) => WriteState(map[], [], Some(e))
    case Ok(gv) =>
      if !gv.Str? then WriteState(map[], [], Some(BadName))
      else
        var root0 := OpenedRoot(map[], gv.s);
        match OutVarItems(conf.outVars)
        case Err(e) => WriteState(root0, [], Some(e))
        case Ok(vars) => WriteVars(WriteState(root0, [], None), HandleFor(gv.s), vars, fit)
  }

  /** `write_result_hdf5`: create the output file empty, open or create the
      configured group, and write each requested variable the fit holds under
      its output name, skipping the others.  An exception ends the writing;
      what was written before it stays in the file. */
  method WriteResultHdf5<D>(conf: Config.Settings, fit: map<string, D>)
    returns (file: H5File<D>, skipped: seq<Value>, err: Option<Error>)
    ensures fresh(file)
    ensures WriteState(file.root, skipped, err) == WriteResult(conf, fit)
  {
    file := new H5File.Create();
    skipped := [];
    var groupName := Subscript(conf.outCfg, "group");
    if groupName.Err? {
      err := Some(groupName.error);
      return;
    }
    if !groupName.value.Str? {
      err := Some(BadName);
      return;
    }
    var g := file.OpenOrCreate(groupName.value.s);
    var items := OutVarItems(conf.outVars);
    if items.Err? {
      err := Some(items.error);
      return;
    }
    var vars := items.value;
    ghost var st0 := WriteState(file.root, [], None);
    err := None;
    var i := 0;
    while i < |vars| && err.None?
      invariant 0 <= i <= |vars|
      invariant Designates(file.root, g)
      invariant WriteState(file.root, skipped, err) == WriteVars(st0, g, vars[..i], fit)
    {
      assert vars[..i + 1][..i] == vars[..i];
      var v := vars[i];
      var param := Subscript(v, "stan_parameter");
      if param.Err? {
        err := Some(param.error);
      } else {
        var found := InFit(param.value, fit);
        if found.Err? {
          err := Some(found.error);
        } else if !found.value {
          // the warning: the parameter is not in the fit
          skipped := skipped + [param.value];
        } else {
          var outName := Subscript(v, "output_name");
          if outName.Err? {
            err := Some(outName.error);
          } else if !outName.value.Str? {
            err := Some(BadName);
          } else {
            err := file.SetItem(g, outName.value.s, fit[param.value.s]);
          }
        }
      }
      i := i + 1;
    }
    if i < |vars| {
      WriteVarsStopsAtError(st0, g, vars, i, fit);
    } else {
      assert vars[..i] == vars;
    }
  }

  /** For a configured group name and a list of requests: when the call
      raises nothing, the group holds exactly the variables the fit has,
      each under its output name, and the others were reported as skipped,
      in request order. */
  lemma WriteResultCopiesRequested<D>(conf: Config.Settings, fit: map<string, D>, groupName: string, vars: seq<Value>)
    requires Subscript(conf.outCfg, "group") == Ok(Str(groupName))
    requires conf.outVars == List(vars)
    ensures var w := WriteResult(conf, fit);
      var g := HandleFor(groupName);
      w.err.None? ==>
        && Designates(w.root, g) && MembersAt(w.root, g).Some?
        && (forall i :: 0 <= i < |vars| && Present(vars[i], fit) ==>
              && "output_name" in vars[i].entries && vars[i].entries["output_name"].Str?
              && OutputName(vars[i]) in MembersAt(w.root, g).value
              && MembersAt(w.root, g).value[OutputName(vars[i])] == Dataset(fit[vars[i].entries["stan_parameter"].s]))
        && (forall o :: o in MembersAt(w.root, g).value ==> exists i :: 0 <= i < |vars| && WrittenAs(vars[i], fit, o))
        && (forall i :: 0 <= i < |vars| && !Present(vars[i], fit) ==>
              vars[i].Map? && "stan_parameter" in vars[i].entries && vars[i].entries["stan_parameter"] in w.skipped)
        && w.skipped == SkippedOf(vars, fit)
  {
    var g := HandleFor(groupName);
    var st0 := WriteState(OpenedRoot(map[], groupName), [], None);
    assert MembersAt(st0.root, g) == Some(map[]);
    WriteVarsWritesPresent(st0, g, vars, fit);
    WriteVarsWritesOnlyPresent(st0, g, vars, fit);
    WriteVarsSkipsAbsent(st0, g, vars, fit);
  }
}
