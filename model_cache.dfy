/** The content-addressed model cache of morpho.py (`stan_cache`): the cache
    file name derived from the directory, the optional model name and the
    digest of the model source, and the reuse-or-compile decision against
    the files already on disk.  The digest, the compiler and the sampler are
    parameters of the model. */
module ModelCache {
  import opened Values

  /** The name part of a cache file: "model" when no name is given. */
  function Stem(modelName: Option<string>): string
  {
    modelName.GetOr("model")
  }

  /** `'{}/cached-model-{}.pkl'` or `'{}/cached-{}-{}.pkl'` filled with the
      cache directory, the model name and the digest. */
  function CacheFileName(casheDir: string, modelName: Option<string>, codeHash: string): (fn: string)
    ensures fn == casheDir + "/cached-" + Stem(modelName) + "-" + codeHash + ".pkl"
  {
    match modelName
    case None => casheDir + "/cached-model-" + codeHash + ".pkl"
    case Some(name) => casheDir + "/cached-" + name + "-" + codeHash + ".pkl"
  }

  /** Within one directory and for one model name, the file name determines
      the digest: sources with different digests never share a cache file. */
  lemma CacheFileNameDeterminesHash(casheDir: string, modelName: Option<string>, h1: string, h2: string)
    requires CacheFileName(casheDir, modelName, h1) == CacheFileName(casheDir, modelName, h2)
    ensures h1 == h2
  {
    var prefix := casheDir + "/cached-" + Stem(modelName) + "-";
    var f1 := CacheFileName(casheDir, modelName, h1);
    var f2 := CacheFileName(casheDir, modelName, h2);
    assert f1 == prefix + h1 + ".pkl";
    assert f2 == prefix + h2 + ".pkl";
    assert |h1| == |h2|;
    assert h1 == f1[|prefix|..|prefix| + |h1|];
    assert h2 == f2[|prefix|..|prefix| + |h2|];
  }

  /** Within one directory and for one digest, different model names give
      different file names. */
  lemma CacheFileNameDeterminesName(casheDir: string, n1: string, n2: string, codeHash: string)
    requires CacheFileName(casheDir, Some(n1), codeHash) == CacheFileName(casheDir, Some(n2), codeHash)
    ensures n1 == n2
  {
    var prefix := casheDir + "/cached-";
    var f1 := CacheFileName(casheDir, Some(n1), codeHash);
    var f2 := CacheFileName(casheDir, Some(n2), codeHash);
    assert f1 == prefix + n1 + ("-" + codeHash + ".pkl");
    assert f2 == prefix + n2 + ("-" + codeHash + ".pkl");
    assert |n1| == |n2|;
    assert n1 == f1[|prefix|..|prefix| + |n1|];
    assert n2 == f2[|prefix|..|prefix| + |n2|];
  }

  /** A model explicitly named "model" shares its cache file with an unnamed
      model of the same source. */
  lemma NamedModelSharesUnnamedFile(casheDir: string, codeHash: string)
    ensures CacheFileName(casheDir, Some("model"), codeHash) == CacheFileName(casheDir, None, codeHash)
  {
  }

  /** What a cache file holds: a compiled model that unpickles, or content
      that does not (corrupt, truncated, or from an incompatible version). */
  datatype Blob<A> = Pickled(model: A) | Unreadable

  /** `pickle.load(open(cache_fn, 'rb'))`: the stored model, or nothing when
      the file is absent or does not unpickle. */
  function Unpickle<A>(files: map<string, Blob<A>>, fn: string): (r: Option<A>)
    ensures r.Some? <==> fn in files && files[fn].Pickled?
    ensures r.Some? ==> files[fn] == Pickled(r.value)
  {
    if fn in files && files[fn].Pickled? then Some(files[fn].model) else None
  }

  /** One call of the cache at file name `fn`: the model used, whether the
      cache was hit, and the files afterwards.  `compiled` is what compiling
      the source yields. */
  datatype CacheCall<A> = CacheCall(model: A, hit: bool, files: map<string, Blob<A>>)

  function Call<A>(files: map<string, Blob<A>>, fn: string, compiled: A): (c: CacheCall<A>)
    ensures c.hit <==> Unpickle(files, fn).Some?
    ensures c.hit ==> c.model == Unpickle(files, fn).value && c.files == files
    ensures !c.hit ==> c.model == compiled
    ensures Unpickle(c.files, fn) == Some(c.model)
    ensures forall other :: other != fn ==> (other in c.files <==> other in files)
    ensures forall other :: other != fn && other in files ==> c.files[other] == files[other]
  {
    match Unpickle(files, fn)
    case Some(a) => CacheCall(a, true, files)
    case None => CacheCall(compiled, false, files[fn := Pickled(compiled)])
  }

  /** Calling the cache again with the same source hits, reuses the model the
      first call produced, and writes nothing. */
  lemma {:induction false} RepeatCallHits<A>(files: map<string, Blob<A>>, fn: string, compiled: A)
    ensures var first := Call(files, fn, compiled);
      var second := Call(first.files, fn, compiled);
      second.hit && second.model == first.model && second.files == first.files
  {
  }

  /** Sources with different digests use different entries, so a call for
      one never changes the entry of the other. */
  lemma {:induction false} DistinctDigestsIndependent<A>(
    files: map<string, Blob<A>>, casheDir: string, modelName: Option<string>,
    h1: string, h2: string, compiled: A)
    requires h1 != h2
    ensures var f2 := CacheFileName(casheDir, modelName, h2);
      Unpickle(Call(files, CacheFileName(casheDir, modelName, h1), compiled).files, f2) == Unpickle(files, f2)
  {
    if CacheFileName(casheDir, modelName, h1) == CacheFileName(casheDir, modelName, h2) {
      CacheFileNameDeterminesHash(casheDir, modelName, h1, h2);
    }
  }

  /** The cache directory on disk: file names to their contents. */
  class CacheDisk<A> {
    var files: map<string, Blob<A>>

    constructor (files: map<string, Blob<A>>)
      ensures this.files == files
    {
      this.files := files;
    }

    /** `stan_cache`: digest the model source, derive the cache file name,
        reuse the pickled model when it loads (the "Using cached StanModel"
        message, reported as `hit`), otherwise compile and store the model
        under that name; then sample from the model. */
    method StanCache<R>(modelText: string, modelName: Option<string>, casheDir: string,
                        digest: string -> string, compile: string -> A, sampling: A -> R)
      returns (fit: R, hit: bool)
      modifies this
      ensures var fn := CacheFileName(casheDir, modelName, digest(modelText));
        var c := Call(old(files), fn, compile(modelText));
        && hit == c.hit
        && files == c.files
        && fit == sampling(c.model)
    {
      var codeHash := digest(modelText);
      var cacheFn := CacheFileName(casheDir, modelName, codeHash);
      var sm: A;
      if cacheFn in files && files[cacheFn].Pickled? {
        sm := files[cacheFn].model;
        hit := true;
      } else {
        sm := compile(modelText);
        files := files[cacheFn := Pickled(sm)];
        hit := false;
      }
      fit := sampling(sm);
    }
  }
}
