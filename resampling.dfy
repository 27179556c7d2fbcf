/** The bootstrap resampler of morpho/preprocessing/resampling.py
    (`bootstrapping`): resolve the parameters with their defaults, refuse an
    output (file, tree) identical to the input, open the output file in the
    chosen mode, and fill an empty clone of the input tree with the entries
    at the drawn indices, so that an entry may be drawn more than once.
    ROOT files are maps from tree names to sequences of entries; the random
    draws are a parameter: `draw(i)` is the index the i-th iteration reads. */
module Resampling {
  import opened Values

  /** One entry of a tree: branch name to value. */
  type Entry = map<string, Value>

  /** The trees of one ROOT file, by name. */
  type FileContents = map<string, seq<Entry>>

  // ---------------------------------------------------------------------------
  // Parameters

  /** The resolved parameters.  `outputFileDefaulted` records that the
      output file name was taken from the input's, which is when the code's
      identity test `input_file_name is not output_file_name` fails. */
  datatype Plan = Plan(
    inputFile: Value,
    inputTree: Value,
    outputFile: Value,
    outputTree: Value,
    numberData: Value,
    option: Value,
    outputFileDefaulted: bool)

  /** `param_dict[key]` when present, else `default`. */
  function Get(params: map<string, Value>, key: string, default: Value): Value
  {
    if key in params then params[key] else default
  }

  predicate HasRequired(params: map<string, Value>)
  {
    "input_file_name" in params && "input_tree" in params && "number_data" in params
  }

  /** The input and output (file, tree) pairs coincide once defaulted. */
  predicate IdenticalTargets(params: map<string, Value>)
    requires HasRequired(params)
  {
    && Get(params, "output_tree", params["input_tree"]) == params["input_tree"]
    && Get(params, "output_file_name", params["input_file_name"]) == params["input_file_name"]
  }

  /** The parameter handling of `bootstrapping`, up to the refusal of an
      identical input and output and the choice of the file option. */
  function ResolvePlan(params: map<string, Value>): (r: Result<Plan>)
    ensures "input_file_name" !in params ==> r == Err(KeyError("input_file_name"))
    ensures "input_file_name" in params && "input_tree" !in params ==> r == Err(KeyError("input_tree"))
    ensures "input_file_name" in params && "input_tree" in params && "number_data" !in params ==>
      r == Err(KeyError("number_data"))
    ensures HasRequired(params) ==> (r.Err? <==> IdenticalTargets(params))
    ensures HasRequired(params) && r.Err? ==> r.error == IdenticalInputOutput
    ensures r.Ok? ==>
      && HasRequired(params)
      && r.value.inputFile == params["input_file_name"]
      && r.value.inputTree == params["input_tree"]
      && r.value.numberData == params["number_data"]
      && ("output_tree" !in params ==> r.value.outputTree == r.value.inputTree)
      && ("output_tree" in params ==> r.value.outputTree == params["output_tree"])
      && (r.value.outputFileDefaulted <==> "output_file_name" !in params)
      && (r.value.outputFileDefaulted ==> r.value.outputFile == r.value.inputFile)
      && (!r.value.outputFileDefaulted ==> r.value.outputFile == params["output_file_name"])
      && ("option" !in params ==> r.value.option == Str("RECREATE"))
      && ("option" in params ==> r.value.option == params["option"])
      && !(r.value.inputTree == r.value.outputTree && r.value.inputFile == r.value.outputFile)
  {
    if "input_file_name" !in params then Err(KeyError("input_file_name"))
    else if "input_tree" !in params then Err(KeyError("input_tree"))
    else
      var inputFile := params["input_file_name"];
      var inputTree := params["input_tree"];
      var outputTree := Get(params, "output_tree", inputTree);
      var outputFile := Get(params, "output_file_name", inputFile);
      if "number_data" !in params then Err(KeyError("number_data"))
      else if inputTree == outputTree && inputFile == outputFile then Err(IdenticalInputOutput)
      else
        Ok(Plan(inputFile, inputTree, outputFile, outputTree, params["number_data"],
                Get(params, "option", Str("RECREATE")), "output_file_name" !in params))
  }

  /** The file the output is opened in and the option it is opened with:
      the input file for update when the output file name was defaulted,
      otherwise the output file with the resolved option. */
  datatype Target = Target(file: Value, option: Value)

  function OutputTarget(plan: Plan): (target: Target)
    ensures (plan.outputFileDefaulted ==> plan.outputFile == plan.inputFile) ==> target.file == plan.outputFile
    ensures plan.outputFileDefaulted ==> target.option == Str("UPDATE")
    ensures !plan.outputFileDefaulted ==> target.option == plan.option
  {
    if plan.outputFileDefaulted then Target(plan.inputFile, Str("UPDATE")) else Target(plan.outputFile, plan.option)
  }

  /** How the output file is opened: for update when its name was taken
      from the input, and otherwise with the given option, or "RECREATE"
      when none is given.  An explicit output file name equal to the input's
      is not taken from the input, so it is opened with the option too. */
  lemma OutputModeChoice(params: map<string, Value>)
    requires ResolvePlan(params).Ok?
    ensures var plan := ResolvePlan(params).value;
      && ("output_file_name" !in params ==> OutputTarget(plan) == Target(params["input_file_name"], Str("UPDATE")))
      && ("output_file_name" in params && "option" !in params ==>
            OutputTarget(plan) == Target(params["output_file_name"], Str("RECREATE")))
      && ("output_file_name" in params && "option" in params ==>
            OutputTarget(plan) == Target(params["output_file_name"], params["option"]))
  {
  }

  // ---------------------------------------------------------------------------
  // ROOT files

  /** The contents of a ROOT file once opened with `option`, or nothing when
      the handle cannot be written (a file that must not exist but does, or
      a read-only option).  `existing` is the file's contents, if any. */
  function OpenForWrite(option: string, existing: Option<FileContents>): (r: Option<FileContents>)
    ensures option == "RECREATE" ==> r == Some(map[])
    ensures option == "UPDATE" ==> r == Some(existing.GetOr(map[]))
    ensures option in {"CREATE", "NEW"} ==> (r.Some? <==> existing.None?) && (r.Some? ==> r.value == map[])
    ensures r.Some? ==> option in {"RECREATE", "UPDATE", "CREATE", "NEW"}
  {
    if option == "RECREATE" then Some(map[])
    else if option == "UPDATE" then Some(existing.GetOr(map[]))
    else if option == "CREATE" || option == "NEW" then (if existing.None? then Some(map[]) else None)
    else None
  }

  function FileAt(files: map<string, FileContents>, name: string): Option<FileContents>
  {
    if name in files then Some(files[name]) else None
  }

  /** `range(number_data)`: the number of iterations. */
  function Iterations(n: Value): (r: Result<nat>)
    ensures n.Int? ==> r.Ok? && r.value == (if n.i < 0 then 0 else n.i)
    ensures n.Bool? ==> r.Ok? && r.value == (if n.b then 1 else 0)
    ensures r.Err? <==> !(n.Int? || n.Bool?)
  {
    match n
    case Int(k) => Ok(if k < 0 then 0 else k)
    case Bool(b) => Ok(if b then 1 else 0)
    case _ => Err(RangeArgument)
  }

  // ---------------------------------------------------------------------------
  // The resampling loop

  /** The input tree's entry buffer after `k` iterations: `GetEntry` loads the
      drawn entry when the index is in range and leaves the buffer as it was
      otherwise; `initial` is what the buffer holds before the first read. */
  function BufferAfter(src: seq<Entry>, initial: Entry, draw: nat -> int, k: nat): Entry
  {
    if k == 0 then initial
    else
      var previous := BufferAfter(src, initial, draw, k - 1);
      if 0 <= draw(k - 1) < |src| then src[draw(k - 1)] else previous
  }

  /** The entries of the output tree after `n` iterations: each `Fill`
      appends the buffer the clone shares with the input tree. */
  function Resampled(src: seq<Entry>, initial: Entry, draw: nat -> int, n: nat): seq<Entry>
  {
    if n == 0 then [] else Resampled(src, initial, draw, n - 1) + [BufferAfter(src, initial, draw, n)]
  }

  /** The output holds one entry per iteration, the i-th being the buffer
      after the i-th read. */
  lemma {:induction false} ResampledAt(src: seq<Entry>, initial: Entry, draw: nat -> int, n: nat)
    ensures |Resampled(src, initial, draw, n)| == n
    ensures forall i :: 0 <= i < n ==> Resampled(src, initial, draw, n)[i] == BufferAfter(src, initial, draw, i + 1)
  {
    if n > 0 {
      ResampledAt(src, initial, draw, n - 1);
    }
  }

  /** Sampling with replacement: the i-th output entry is the input entry at
      the i-th drawn index, whenever the draws fall inside the input. */
  lemma RowsAreDrawnEntries(src: seq<Entry>, initial: Entry, draw: nat -> int, n: nat)
    requires forall i :: 0 <= i < n ==> 0 <= draw(i) < |src|
    ensures |Resampled(src, initial, draw, n)| == n
    ensures forall i :: 0 <= i < n ==> Resampled(src, initial, draw, n)[i] == src[draw(i)]
  {
    ResampledAt(src, initial, draw, n);
  }

  /** Whatever the draws, every output entry is an input entry or the
      buffer's initial content; after one in-range draw, only input entries
      follow. */
  lemma {:induction false} BufferIsInputOrInitial(src: seq<Entry>, initial: Entry, draw: nat -> int, k: nat)
    ensures BufferAfter(src, initial, draw, k) in src || BufferAfter(src, initial, draw, k) == initial
    ensures (exists j :: 0 <= j < k && 0 <= draw(j) < |src|) ==> BufferAfter(src, initial, draw, k) in src
  {
    if k > 0 {
      BufferIsInputOrInitial(src, initial, draw, k - 1);
      if !(0 <= draw(k - 1) < |src|) && (exists j :: 0 <= j < k && 0 <= draw(j) < |src|) {
        var j :| 0 <= j < k && 0 <= draw(j) < |src|;
        assert j < k - 1;
      }
    }
  }

  /** An empty input tree is not guarded against: every output entry is then
      the buffer's initial content. */
  lemma {:induction false} EmptyInputRepeatsBuffer(initial: Entry, draw: nat -> int, n: nat)
    ensures Resampled([], initial, draw, n) == seq(n, i => initial)
  {
    ResampledAt([], initial, draw, n);
    forall k: nat ensures BufferAfter([], initial, draw, k) == initial {
      BufferIsInputOrInitial([], initial, draw, k);
    }
  }

  /** A tree in memory: its name, its entries and the entry buffer its
      branches are bound to. */
  class Tree {
    var name: string
    var entries: seq<Entry>
    var current: Entry

    /** `file.Get(name)` */
    constructor Open(name: string, entries: seq<Entry>, current: Entry)
      ensures this.name == name && this.entries == entries && this.current == current
    {
      this.name := name;
      this.entries := entries;
      this.current := current;
    }

    /** `src.CloneTree(0)`: same structure and no entries.  In ROOT the
        clone's branches stay bound to `src`'s buffer; here the clone only
        takes a copy of that buffer at cloning time, which nothing reads
        afterwards, and `Resample` hands `src`'s buffer to `Fill` itself. */
    constructor CloneEmpty(src: Tree)
      ensures name == src.name && entries == [] && current == src.current
    {
      name := src.name;
      entries := [];
      current := src.current;
    }

    method SetName(n: string)
      modifies this`name
      ensures name == n
    {
      name := n;
    }

    /** `GetEntry(i)`: load entry `i` into the buffer; an index outside the
        tree reads nothing and leaves the buffer alone. */
    method GetEntry(i: int)
      modifies this`current
      ensures 0 <= i < |entries| ==> current == entries[i]
      ensures !(0 <= i < |entries|) ==> current == old(current)
    {
      if 0 <= i < |entries| {
        current := entries[i];
      }
    }

    /** `Fill()`: append the content of the buffer the branches are bound
        to as a new entry; the caller passes that buffer as `row`. */
    method Fill(row: Entry)
      modifies this`entries
      ensures entries == old(entries) + [row]
    {
      entries := entries + [row];
    }
  }

  /** The ROOT files on disk. */
  class RootStore {
    var files: map<string, FileContents>

    constructor (files: map<string, FileContents>)
      ensures this.files == files
    {
      this.files := files;
    }
  }

  /** The exception `bootstrapping` raises, if any, and the files afterwards. */
  datatype Run = Run(err: Option<Error>, files: map<string, FileContents>)

  function BootstrapRun(params: map<string, Value>, files: map<string, FileContents>,
                        draw: nat -> int, initial: Entry): Run
  {
    match ResolvePlan(params)
    case Err(e) => Run(Some(e), files)
    case Ok(plan) => RunPlan(plan, files, draw, initial)
  }

  /** The run once the parameters are resolved: open the input tree, then
      the output file, then resample. */
  function RunPlan(plan: Plan, files: map<string, FileContents>, draw: nat -> int, initial: Entry): Run
  {
    if !(plan.inputFile.Str? && plan.inputTree.Str?) then Run(Some(BadName), files)
    else if plan.inputFile.s !in files || plan.inputTree.s !in files[plan.inputFile.s] then Run(Some(MissingTree), files)
    else
      var target := OutputTarget(plan);
      if !(target.file.Str? && target.option.Str?) then Run(Some(BadName), files)
      else
        var outFile := OpenForWrite(target.option.s, FileAt(files, target.file.s));
        var files1 := if outFile.Some? then files[target.file.s := outFile.value] else files;
        RunOpened(plan, files[plan.inputFile.s][plan.inputTree.s], target.file.s, outFile, files1, draw, initial)
  }

  /** The run once the output file is opened (`outFile` is its contents, or
      nothing when it cannot be written): resample `src` and store the
      result under the output tree's name. */
  function RunOpened(plan: Plan, src: seq<Entry>, outputFileName: string, outFile: Option<FileContents>,
                     files: map<string, FileContents>, draw: nat -> int, initial: Entry): Run
  {
    if !plan.outputTree.Str? then Run(Some(BadName), files)
    else
      match Iterations(plan.numberData)
      case Err(e) => Run(Some(e), files)
      case Ok(n) =>
        var rows := Resampled(src, initial, draw, n);
        Run(None, if outFile.Some? then files[outputFileName := outFile.value[plan.outputTree.s := rows]] else files)
  }

  /** The loop of `bootstrapping`: read the entry at each drawn index into
      the input tree's buffer and append the buffer to the clone.  The
      clone's `Fill` is given the input tree's buffer, which in ROOT it
      shares through its branch addresses. */
  method Resample(tree: Tree, newtree: Tree, draw: nat -> int, n: nat)
    requires tree != newtree && newtree.entries == []
    modifies tree`current, newtree`entries
    ensures newtree.entries == Resampled(tree.entries, old(tree.current), draw, n)
    ensures tree.current == BufferAfter(tree.entries, old(tree.current), draw, n)
  {
    var i := 0;
    while i < n
      invariant 0 <= i <= n
      invariant tree.current == BufferAfter(tree.entries, old(tree.current), draw, i)
      invariant newtree.entries == Resampled(tree.entries, old(tree.current), draw, i)
    {
      tree.GetEntry(draw(i));
      newtree.Fill(tree.current);
      i := i + 1;
    }
  }

  /** `bootstrapping(param_dict)`: resolve the parameters, refuse identical
      input and output, open the input tree, open the output file, fill an
      empty clone renamed to the output tree with the entries at the drawn
      indices, and write it to the output file. */
  method Bootstrapping(params: map<string, Value>, store: RootStore, draw: nat -> int, initial: Entry)
    returns (err: Option<Error>)
    modifies store
    ensures Run(err, store.files) == BootstrapRun(params, old(store.files), draw, initial)
  {
    var resolved := ResolvePlan(params);
    if resolved.Err? {
      return Some(resolved.error);
    }
    var plan := resolved.value;
    if !(plan.inputFile.Str? && plan.inputTree.Str?) {
      return Some(BadName);
    }
    var inputFileName, inputTreeName := plan.inputFile.s, plan.inputTree.s;
    if inputFileName !in store.files || inputTreeName !in store.files[inputFileName] {
      return Some(MissingTree);
    }
    var tree := new Tree.Open(inputTreeName, store.files[inputFileName][inputTreeName], initial);
    var target := OutputTarget(plan);
    if !(target.file.Str? && target.option.Str?) {
      return Some(BadName);
    }
    var outputFileName := target.file.s;
    var outFile := OpenForWrite(target.option.s, FileAt(store.files, outputFileName));
    if outFile.Some? {
      store.files := store.files[outputFileName := outFile.value];
    }
    ghost var files1 := store.files;
    assert RunPlan(plan, old(store.files), draw, initial) ==
      RunOpened(plan, tree.entries, outputFileName, outFile, files1, draw, initial);
    var newtree := new Tree.CloneEmpty(tree);
    if !plan.outputTree.Str? {
      return Some(BadName);
    }
    newtree.SetName(plan.outputTree.s);
    var count := Iterations(plan.numberData);
    if count.Err? {
      return Some(count.error);
    }
    Resample(tree, newtree, draw, count.value);
    if outFile.Some? {
      store.files := store.files[outputFileName := outFile.value[newtree.name := newtree.entries]];
    }
    return None;
  }

  // ---------------------------------------------------------------------------
  // Properties of a run

  /** An identical input and output is refused before any file is opened:
      the files are left as they were. */
  lemma RefusesIdenticalBeforeOpening(params: map<string, Value>, files: map<string, FileContents>,
                                      draw: nat -> int, initial: Entry)
    requires HasRequired(params) && IdenticalTargets(params)
    ensures BootstrapRun(params, files, draw, initial) == Run(Some(IdenticalInputOutput), files)
  {
  }

  /** A run that gets through writes, under the output tree's name, a tree of
      exactly `number_data` entries (none for a negative count), the i-th
      being the input entry at the i-th drawn index when it is in range. */
  lemma {:induction false} OutputTreeIsResample(params: map<string, Value>, files: map<string, FileContents>,
                                                  draw: nat -> int, initial: Entry, k: int)
    requires ResolvePlan(params).Ok?
    requires params["number_data"] == Int(k)
    requires var plan := ResolvePlan(params).value;
      && plan.inputFile.Str? && plan.inputTree.Str? && plan.outputTree.Str?
      && OutputTarget(plan).file.Str? && OutputTarget(plan).option in {Str("RECREATE"), Str("UPDATE")}
    ensures var plan := ResolvePlan(params).value;
      var run := BootstrapRun(params, files, draw, initial);
      plan.inputFile.s in files && plan.inputTree.s in files[plan.inputFile.s] ==>
        && run.err.None?
        && OutputTarget(plan).file.s in run.files
        && plan.outputTree.s in run.files[OutputTarget(plan).file.s]
        && var out := run.files[OutputTarget(plan).file.s][plan.outputTree.s];
           var src := files[plan.inputFile.s][plan.inputTree.s];
           && |out| == (if k < 0 then 0 else k)
           && forall i :: 0 <= i < |out| && 0 <= draw(i) < |src| ==> out[i] == src[draw(i)]
  {
    var plan := ResolvePlan(params).value;
    if plan.inputFile.s in files && plan.inputTree.s in files[plan.inputFile.s] {
      var n: nat := if k < 0 then 0 else k;
      ResampledAt(files[plan.inputFile.s][plan.inputTree.s], initial, draw, n);
    }
  }

  /** With the output file name defaulted, the output goes into the input
      file by update: the input tree and every other tree of that file stay
      as they were. */
  lemma InputKeptWhenFileDefaulted(params: map<string, Value>, files: map<string, FileContents>,
                                   draw: nat -> int, initial: Entry)
    requires ResolvePlan(params).Ok? && "output_file_name" !in params
    ensures var plan := ResolvePlan(params).value;
      var run := BootstrapRun(params, files, draw, initial);
      run.err.None? ==>
        && plan.inputFile.Str? && plan.inputTree.Str? && plan.outputTree.Str?
        && plan.inputFile.s in run.files
        && (forall t :: t in files[plan.inputFile.s] && t != plan.outputTree.s ==>
              t in run.files[plan.inputFile.s] && run.files[plan.inputFile.s][t] == files[plan.inputFile.s][t])
        && plan.inputTree.s in run.files[plan.inputFile.s]
        && run.files[plan.inputFile.s][plan.inputTree.s] == files[plan.inputFile.s][plan.inputTree.s]
  {
  }

  /** When the output file name is given explicitly as a different string
      object from the input file name (the reading of the identity test this
      model takes), it is opened with the option even when the two are equal:
      by default it is recreated, and the input tree it shared the file with
      is gone afterwards.  When both names are one object, CPython's `is not`
      is false and the file is opened for update instead; that case is the
      one `InputKeptWhenFileDefaulted` covers. */
  lemma ExplicitSameFileIsRecreated(params: map<string, Value>, files: map<string, FileContents>,
                                    draw: nat -> int, initial: Entry)
    requires ResolvePlan(params).Ok? && "output_file_name" in params && "option" !in params
    requires params["output_file_name"] == params["input_file_name"]
    ensures var plan := ResolvePlan(params).value;
      var run := BootstrapRun(params, files, draw, initial);
      run.err.None? ==>
        && plan.inputFile.Str? && plan.inputTree.Str? && plan.outputTree.Str?
        && plan.inputFile.s in run.files
        && run.files[plan.inputFile.s].Keys == {plan.outputTree.s}
        && plan.inputTree.s !in run.files[plan.inputFile.s]
  {
  }
}
