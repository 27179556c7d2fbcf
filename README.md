# morpho, modelled in Dafny

morpho drives a Stan analysis from a YAML configuration file. It reads the
run settings from dotted paths of that file, with defaults (`stan_args`). It
compiles the Stan model, or reuses a pickled compiled model from a cache
directory keyed by the MD5 digest of the model source (`stan_cache`). It
writes the requested fit variables into a group of an HDF5 file
(`open_or_create`, `write_result_hdf5`). Its preprocessing package holds a
bootstrap resampler for ROOT trees (`bootstrapping`): it fills an empty clone
of an input tree with entries drawn at random, with replacement.

This project models those parts and proves properties about them:

- `values.dfy`: the YAML values (mappings, lists, strings, numbers, booleans,
  null), the exceptions the code raises as an `Error` datatype, and the
  `Result`/`Option` wrappers that carry them.
- `config.dfy`: `read_param`, the dotted-path lookup with a default, as a
  method with a loop proved against a lookup function. Also the
  construction of the settings in `stan_args.__init__`, Python 2 integer
  halving for the warmup default, and `gen_arg_dict`.
- `model_cache.dfy`: the cache file name, the hit-or-compile decision, and
  `stan_cache` as a method on a class holding the cache directory's files.
- `hdf5_output.dfy`: `open_or_create` and `g[name] = data` as methods on an
  HDF5 file class. Also the write loop of `write_result_hdf5`, proved
  against a recursive specification, with lemmas about what ends up in the
  group.
- `resampling.dfy`: parameter resolution and the identical-input check of
  `bootstrapping`, the choice of file mode, the resampling loop over tree
  objects, and the effect of a run on the ROOT files.

Parameters of the model stand for things outside it:
- `stan_cache` takes the MD5 digest, the Stan compiler and the sampler.
- `stan_args.__init__` takes the data-file loader.
- `write_result_hdf5` takes the extracted fit as a map.
- `bootstrapping` takes the random draws (`draw(i)` is the index read at
  iteration `i`) and the initial content of the entry buffer.

When a required parameter is missing, `read_param` prints a message and
re-raises the original lookup error: either a `KeyError` or the error from
subscripting a value that is not a mapping. It raises no dedicated
configuration error naming the path.

## Model

| member | source | states |
|---|---|---|
| Values.Subscript | morpho.py:26 | `v[key]` succeeds exactly when `v` is a mapping holding the key, yielding its value; a mapping without it raises `KeyError`, any other value is not subscriptable |
| Config.Split | morpho.py:23 | `node.split('.')` gives at least one part, and no part contains a dot |
| Config.JoinSplit | morpho.py:23 | joining the parts of a split with dots gives back the dotted node |
| Config.SplitJoin | morpho.py:23 | splitting the dotted join of dot-free parts gives back the parts |
| Config.SplitAtDot | morpho.py:23 | splitting `a.b`, with `a` dot-free, gives `a` followed by the parts of `b` |
| Config.WalkAppend | morpho.py:25-26 | walking a path in two pieces is walking the second piece from where the first ends, and an error stops the walk |
| Config.WalkOkIff | morpho.py:24-27 | the walk succeeds exactly when every prefix reaches a mapping that holds the next key |
| Config.ReadParam | morpho.py:21-36 | the found value on success; on failure, the default unless it is 'required', in which case the lookup's own error is re-raised |
| Config.ResolveSoftNeverFails | morpho.py:34-35 | with a default other than 'required', reading never fails: it yields the value found, or the default when the path is missing |
| Config.HalfOf | morpho.py:60 | Python 2 `x/2`: floor halving of integers (`2r <= x < 2r+2`), booleans give 0, exact halving of floats, and an error for any other value |
| Config.Load | morpho.py:47-80 | errors in source order (model file, then data, then halving `iter`); success exactly when both required keys exist and `iter` halves; every attribute is its key's value or its default; `init` equals `init_per_chain` |
| Config.ReadKey | morpho.py:21-36 | reading a dot-free component path through `read_param` is the path lookup |
| Config.WarmupDefaultsToHalfIter | morpho.py:59-60 | with no warmup configured and integer `iter = n`, the warmup is `w` with `2w <= n < 2w+2` |
| Config.GenArgDict | morpho.py:38-42 | the keyword arguments are exactly the allowed names that are attributes, with the attributes' values |
| Config.GenArgDictOrderFree | morpho.py:42 | the order of the two argument lists does not matter, a name listed twice counts once, and filtering twice is filtering once |
| Config.KwargsNeverNameModel | morpho.py:38-42 | `model_name` is never passed, since no attribute carries it; `cashe_dir`, when allowed, is the configured cache directory |
| ModelCache.CacheFileName | morpho.py:86-89 | the name is `<dir>/cached-<name or "model">-<digest>.pkl` |
| ModelCache.CacheFileNameDeterminesHash | morpho.py:85-89 | for one directory and one model name, different digests give different cache files |
| ModelCache.CacheFileNameDeterminesName | morpho.py:89 | for one directory and one digest, different model names give different cache files |
| ModelCache.NamedModelSharesUnnamedFile | morpho.py:86-89 | a model named "model" shares the unnamed model's cache file |
| ModelCache.Unpickle | morpho.py:91 | loading the cache file yields a model exactly when the file exists and holds a pickled model, and then that model |
| ModelCache.Call | morpho.py:90-97 | a hit exactly when the file unpickles, and then the stored model is reused and nothing is written; otherwise the compiled model is stored; afterwards the file unpickles to the model used, and other files are unchanged |
| ModelCache.RepeatCallHits | morpho.py:90-97 | a second call with the same source hits and reuses the first call's model |
| ModelCache.DistinctDigestsIndependent | morpho.py:85-95 | a call for one digest never changes what another digest's cache file holds |
| ModelCache.CacheDisk.StanCache | morpho.py:82-98 | the hit flag, the files afterwards and the fit are those of one cache call on the digest's file name, and the fit samples the model used |
| Hdf5Output.OpenOrCreateKeepsAndIsIdempotent | morpho.py:114-121 | opening keeps every existing link, is idempotent, designates the group afterwards, and adds exactly one empty group when the name was missing |
| Hdf5Output.H5File.OpenOrCreate | morpho.py:114-121 | the group is created only when it is missing and is not "/", and the handle designates it |
| Hdf5Output.Assign | morpho.py:159 | the dataset is added exactly when the target is a group without that name; other links are unchanged |
| Hdf5Output.H5File.SetItem | morpho.py:159 | the file becomes the assignment's result, or is unchanged with the assignment's error |
| Hdf5Output.InFit | morpho.py:154 | a string is looked up in the fit, lists and mappings are unhashable, and other values are never found |
| Hdf5Output.OutVarItems | morpho.py:152 | a list iterates its items and a string its characters; a mapping iterates its keys, so only an empty one gets through; other values do not iterate |
| Hdf5Output.WriteVarsStopsAtError | morpho.py:152-159 | after the first exception, the remaining requests change nothing |
| Hdf5Output.WriteVarEffect | morpho.py:153-159 | one iteration writes a variable the fit holds under its output name, or skips it and leaves the file alone |
| Hdf5Output.WriteVarsWritesPresent | morpho.py:152-159 | when the loop raises nothing, every requested variable the fit holds is in the group under its output name |
| Hdf5Output.WriteVarsWritesOnlyPresent | morpho.py:152-159 | when the loop raises nothing and the group started empty, every member of the group was written for a requested variable the fit holds |
| Hdf5Output.WriteVarsSkipsAbsent | morpho.py:154-157 | every request the fit lacks is skipped without stopping the loop, and the skipped list grows by exactly those parameters, in request order |
| Hdf5Output.WriteVarsNoErrorWhenWellFormed | morpho.py:152-159 | well-formed requests whose present output names are distinct never raise |
| Hdf5Output.WriteResultHdf5 | morpho.py:145-159 | a fresh file whose contents, skipped list and exception are those of the write specification |
| Hdf5Output.WriteResultCopiesRequested | morpho.py:145-159 | for a configured group and a list of requests, a call that raises nothing writes exactly the variables the fit holds and skips the others |
| Resampling.ResolvePlan | morpho/preprocessing/resampling.py:16-34 | required keys raise `KeyError` in source order; the output tree and file default to the input's; the option defaults to "RECREATE"; given the required keys, the call fails exactly when the input and output (file, tree) are identical |
| Resampling.OutputModeChoice | morpho/preprocessing/resampling.py:22-42 | a defaulted output file name opens the input file for update; an explicit one opens the named file with the option, or "RECREATE" when none is given |
| Resampling.OutputTarget | morpho/preprocessing/resampling.py:39-42 | the output is opened in the resolved output file whenever a defaulted output file is the input file, as `ResolvePlan` guarantees; the option is "UPDATE" when the output file name was defaulted and the resolved option otherwise |
| Resampling.OpenForWrite | morpho/preprocessing/resampling.py:40-42 | "RECREATE" empties the file, "UPDATE" keeps it, "CREATE"/"NEW" open only a missing file, and other options give no writable file |
| Resampling.Iterations | morpho/preprocessing/resampling.py:49 | `range(n)` runs max(n, 0) times for an integer, and 0 or 1 times for a boolean; other values raise |
| Resampling.ResampledAt | morpho/preprocessing/resampling.py:49-52 | the output has one entry per iteration, the i-th being the buffer after the i-th read |
| Resampling.RowsAreDrawnEntries | morpho/preprocessing/resampling.py:49-52 | with every draw in range, the i-th output entry is the input entry at the i-th draw: sampling with replacement |
| Resampling.BufferIsInputOrInitial | morpho/preprocessing/resampling.py:50-52 | every output entry is an input entry or the initial buffer, and only input entries follow the first in-range draw |
| Resampling.EmptyInputRepeatsBuffer | morpho/preprocessing/resampling.py:38-52 | an empty input tree makes every output entry the initial buffer |
| Resampling.Tree.Open | morpho/preprocessing/resampling.py:36-37 | the input tree has its file's entries under its name, with the buffer's initial content |
| Resampling.Tree.SetName | morpho/preprocessing/resampling.py:46 | the clone takes the output tree's name |
| Resampling.Tree.GetEntry | morpho/preprocessing/resampling.py:51 | an in-range index loads that entry into the buffer, and any other index leaves the buffer as it was |
| Resampling.Tree.Fill | morpho/preprocessing/resampling.py:52 | the buffer is appended to the entries |
| Resampling.Tree.CloneEmpty | morpho/preprocessing/resampling.py:45 | the clone has the source's name and buffer and no entries |
| Resampling.Resample | morpho/preprocessing/resampling.py:49-52 | after `n` iterations, the clone holds the resampled sequence and the buffer is the last one read |
| Resampling.Bootstrapping | morpho/preprocessing/resampling.py:10-60 | the exception raised and the files afterwards are those of the run specification |
| Resampling.RefusesIdenticalBeforeOpening | morpho/preprocessing/resampling.py:27-29 | identical input and output raise before any file is opened, and the files are unchanged |
| Resampling.OutputTreeIsResample | morpho/preprocessing/resampling.py:36-58 | when the input file and tree exist, all names are strings, `number_data` is an integer and the output file is opened with "RECREATE" or "UPDATE", the run raises nothing and writes the output tree with exactly `number_data` entries (none when negative), each being the input entry at its draw when that draw is in range; a run with a read-only option, or "CREATE" on an existing file, writes nothing and is not covered |
| Resampling.InputKeptWhenFileDefaulted | morpho/preprocessing/resampling.py:39-42 | with the output file name defaulted, the input tree and every other tree of the input file are kept |
| Resampling.ExplicitSameFileIsRecreated | morpho/preprocessing/resampling.py:39-40 | when the explicit output file name is a different string object from the input name but equal to it, and no option is given, the file is recreated, so the input tree is gone afterwards (when both are one object, `is not` fails and the file is updated instead) |

## Left out

- `pystanLoad.stan_data_files` and `pystanLoad.stan_write_root` are not part of this model. The loader is a parameter of `Config.Load`, and the ROOT writer of Stan results is not modelled.
- The MD5 digest, Stan compilation and sampling are parameters of `ModelCache.CacheDisk.StanCache`. The ASCII encoding error on non-ASCII model sources is not modelled.
- Reading the model file and pickling are not modelled. A cache file is either a stored model or unreadable content.
- HDF5 and ROOT file I/O are modelled as maps held by objects. Buffering, closing and h5py/ROOT error messages are left out.
- `Hdf5Output.WriteResultHdf5`: the output file name `out_fname` is not modelled. The file is created empty with mode 'w', so its earlier contents never matter.
- Hdf5Output.Assign: group names and output names containing '/' are modelled as flat link names, not as nested paths, so h5py's refusal of an output name "a/b" after a dataset "a" is not modelled.
- The fit is given as a map from parameter names to arrays. `stanres.extract()` is not modelled.
- Resampling.Bootstrapping: the random draws are a parameter, and floating point (`Uniform()*nEntries` truncated to an index) is not modelled. Seeding and `gRandom` are left out.
- Resampling.OpenForWrite: ROOT's case-insensitive option names and its "READ"/other modes are reduced to these rules: exact upper-case "RECREATE", "UPDATE", "CREATE"/"NEW", and anything else read-only.
- Resampling.Bootstrapping: writing a tree replaces a tree of the same name. ROOT's key cycles (`;1`, `;2`) are not modelled.
- Resampling.Bootstrapping: the identity test `input_file_name is not output_file_name` is modelled as "the output file name was defaulted". An explicit name is taken to be a distinct string object, even when it is equal to the input name.
- Resampling.Bootstrapping: the bare `raise` on identical input and output is modelled as a dedicated `IdenticalInputOutput` error.
- ModelCache.CacheDisk.StanCache: compiling, sampling and writing the cache file never fail here. In the source, a `pystan.StanModel` compile error and the IOError of `open(cache_fn, 'wb')` propagate to the caller, for example when the cache directory does not exist; the model does not capture those failures.
- Config.Load: the data-file loader is a total function, so a failure of `pyL.stan_data_files` is not modelled.
- Config.HalfOf: floats are halved as exact reals, so `inf` and `nan` (and rounding) are not modelled.
- Logging, `print` and the warnings are not modelled. The warning of `write_result_hdf5` is modelled as the list of skipped parameters.
- `write_result`, `plot_result`, `parse_args` and the `__main__` block are not modelled. `write_result` reads the module globals `sa` and `result` instead of its parameters, and the others are plotting, argument parsing and top-level I/O.
- YAML parsing is not modelled. Mapping keys are strings, and Python equality across types (`1 == 1.0 == True`) is not modelled.
- Config.Load: the keys are read as component paths (`["stan", "run", "iter"]`). `Config.ReadKey` proves that these are equal to the dotted `read_param` calls of the source.
