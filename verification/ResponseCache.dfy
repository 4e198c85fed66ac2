/** The default pipeline of runtime.py with and without its exact-match response cache (stages.py, pipeline.py). */
module ResponseCache {
  import opened Wrappers
  import M = MemoryCache

  // What a request carries once its input is resolved. `messages` are wire dicts; an extra-fingerprint hook
  // gives a value, is absent, or raises.
  datatype Extra = NoHook | Value(s: string) | Raises
  datatype Request = Request(messages: seq<string>, model: Option<string>, options: Option<map<string, string>>,
                             filters: Option<string>, extra: Extra)

  datatype Basis = Basis(messages: seq<string>, model: Option<string>, pipeline: string,
                         options: Option<map<string, string>>, filters: Option<string>, extra: Extra)

  datatype Answer = Fails | Answer(content: string, model: string, provider: string, finish: Option<string>)

  // A cache entry as the runtime writes it, or a bare string somebody else wrote.
  datatype CacheValue = Saved(content: string, model: string, provider: string,
                              finish: Option<string>) | Bare(s: string)

  function Save(a: Answer): CacheValue
    requires a.Answer?
  {
    Saved(a.content, a.model, a.provider, a.finish)
  }

  // The provider, the digest behind fingerprints, and all the requests it will ever see.
  datatype World = World(provide: Request -> Answer, sha: Basis -> string, requests: set<Request>)

  datatype Result = Failed | Ok(content: string, model: Option<string>, provider: Option<string>,
                                finish: Option<string>, cached: bool)

  /** Provider metadata is left out: it is for audit and cannot change the answer. */
  function BasisOf(r: Request): Basis {
    Basis(r.messages, r.model, "default",
          if r.options.Some? && "metadata" in r.options.value then Some(r.options.value - {"metadata"}) else r.options,
          r.filters, r.extra)
  }

  function Fingerprint(w: World, r: Request): string {
    "cache:" + w.sha(BasisOf(r))
  }

  /** The same options, provider metadata aside. */
  ghost predicate SameOptions(a: Option<map<string, string>>, b: Option<map<string, string>>) {
    && a.Some? == b.Some?
    && (a.Some? ==> forall key :: key != "metadata" ==>
                      (key in a.value <==> key in b.value) && (key in a.value ==> a.value[key] == b.value[key]))
  }

  /** The same request: messages, model, options, filters and extra key. */
  ghost predicate Alike(q: Request, r: Request) {
    && q.messages == r.messages && q.model == r.model && SameOptions(q.options, r.options)
    && q.filters == r.filters && q.extra == r.extra
  }

  lemma WithoutMetadata(a: map<string, string>, b: map<string, string>)
    ensures a - {"metadata"} == b - {"metadata"} <==>
            forall key :: key != "metadata" ==> (key in a <==> key in b) && (key in a ==> a[key] == b[key])
  {
    var x, y := a - {"metadata"}, b - {"metadata"};
    forall key | key != "metadata" ensures (key in x <==> key in a) && (key in a ==> x[key] == a[key])
                                           && (key in y <==> key in b) && (key in b ==> y[key] == b[key]) {
    }
    if x != y && forall key :: key != "metadata" ==> (key in a <==> key in b) && (key in a ==> a[key] == b[key]) {
      assert forall key :: key in x <==> key in y;
    }
  }

  /** The key's basis tells apart exactly the requests that are not alike. */
  lemma BasisTellsApart(q: Request, r: Request)
    ensures BasisOf(q) == BasisOf(r) <==> Alike(q, r)
  {
    if q.options.Some? && r.options.Some? {
      var a, b := q.options.value, r.options.value;
      WithoutMetadata(a, b);
      assert "metadata" !in a ==> a - {"metadata"} == a;
      assert "metadata" !in b ==> b - {"metadata"} == b;
    }
  }

  /** Two requests share a cache entry exactly when they are alike. */
  lemma SameKeyIff(w: World, namespace: string, q: Request, r: Request)
    requires Fair(w) && q in w.requests && r in w.requests
    ensures Key(w, namespace, q) == Key(w, namespace, r) <==> Alike(q, r)
  {
    assert Apart(w, q, r);
    BasisTellsApart(q, r);
    hide Alike, BasisOf;
    if Key(w, namespace, q) == Key(w, namespace, r) {
      M.FullKeysApart(namespace, Fingerprint(w, q), Fingerprint(w, r));
      assert w.sha(BasisOf(q)) == Fingerprint(w, q)[6..] && w.sha(BasisOf(r)) == Fingerprint(w, r)[6..];
    }
  }

  /** Digests of one length that tell the requests' bases apart, and one answer for requests that are alike. */
  ghost predicate Fair(w: World) {
    forall q, r :: q in w.requests && r in w.requests ==> Apart(w, q, r)
  }

  ghost predicate Apart(w: World, q: Request, r: Request) {
    && |w.sha(BasisOf(q))| == |w.sha(BasisOf(r))|
    && (w.sha(BasisOf(q)) == w.sha(BasisOf(r)) ==> BasisOf(q) == BasisOf(r))
    && (Alike(q, r) ==> w.provide(q) == w.provide(r))
  }

  /** What a caller gets when there is no cache. */
  function Uncached(w: World, r: Request): Result {
    match w.provide(r)
    case Fails => Failed
    case Answer(content, model, provider, finish) => Ok(content, Some(model), Some(provider), finish, false)
  }

  /** The same answer; a saved entry without a model falls back to the model asked for. */
  ghost predicate SameAnswer(w: World, r: Request, res: Result) {
    var plain := Uncached(w, r);
    if !res.Ok? || !res.cached then res == plain
    else
      && plain.Ok?
      && res.content == plain.content && res.provider == plain.provider && res.finish == plain.finish
      && res.model == (if plain.model == Some("") then r.model else plain.model)
  }

  /** A live entry is a non-empty answer to some request with that key. */
  ghost predicate AnswersFor(w: World, namespace: string, e: M.Entry<CacheValue>, r: Request) {
    && r in w.requests && r.extra != Raises
    && e.key == M.FullKey(namespace, Fingerprint(w, r))
    && w.provide(r).Answer? && w.provide(r).content != ""
    && e.value == Save(w.provide(r))
  }

  ghost predicate Backed(w: World, namespace: string, e: M.Entry<CacheValue>) {
    exists r :: AnswersFor(w, namespace, e, r)
  }

  ghost predicate Sound(w: World, namespace: string, store: seq<M.Entry<CacheValue>>) {
    forall k :: 0 <= k < |store| ==> Backed(w, namespace, store[k])
  }

  lemma HitIsAnswer(w: World, namespace: string, store: seq<M.Entry<CacheValue>>, r: Request, now: int)
    requires Fair(w) && Sound(w, namespace, store)
    requires r in w.requests && r.extra != Raises
    ensures var hit := M.Lookup(store, M.FullKey(namespace, Fingerprint(w, r)), now);
            hit.Some? ==> w.provide(r).Answer? && w.provide(r).content != "" && hit.value == Save(w.provide(r))
  {
    var key := M.FullKey(namespace, Fingerprint(w, r));
    var k := M.Find(store, key);
    if k < |store| {
      var q :| AnswersFor(w, namespace, store[k], q);
      assert Apart(w, q, r);
      BasisTellsApart(q, r);
      M.FullKeysApart(namespace, Fingerprint(w, q), Fingerprint(w, r));
      assert w.sha(BasisOf(q)) == Fingerprint(w, q)[6..] && w.sha(BasisOf(r)) == Fingerprint(w, r)[6..];
    }
  }

  lemma SoundAfterSet(w: World, namespace: string, store: seq<M.Entry<CacheValue>>, r: Request, ttl: Option<int>,
                      max: Option<nat>, now: int)
    requires Sound(w, namespace, store)
    requires r in w.requests && r.extra != Raises && w.provide(r).Answer? && w.provide(r).content != ""
    ensures Sound(w, namespace, M.AfterSet(store, M.FullKey(namespace, Fingerprint(w, r)), Save(w.provide(r)), ttl, max,
                                           now))
  {
    var key, value := M.FullKey(namespace, Fingerprint(w, r)), Save(w.provide(r));
    var after := M.AfterSet(store, key, value, ttl, max, now);
    hide M.AfterSet, Fingerprint, M.FullKey;
    forall k | 0 <= k < |after| ensures Backed(w, namespace, after[k]) {
      var j := M.AfterSetEntry(store, key, value, ttl, max, now, k);
      if !(j < |store| && after[k] == store[j]) {
        assert AnswersFor(w, namespace, after[k], r);
      }
    }
  }

  lemma SoundAfterGet(w: World, namespace: string, store: seq<M.Entry<CacheValue>>, key: string, now: int)
    requires Sound(w, namespace, store)
    ensures Sound(w, namespace, M.AfterGet(store, key, now))
  {
    var after := M.AfterGet(store, key, now);
    hide M.AfterGet, Backed;
    forall k | 0 <= k < |after| ensures Backed(w, namespace, after[k]) {
      var j := M.AfterGetEntry(store, key, now, k);
    }
  }

  function Key(w: World, namespace: string, r: Request): string {
    M.FullKey(namespace, Fingerprint(w, r))
  }

  predicate Hits(w: World, namespace: string, store: seq<M.Entry<CacheValue>>, r: Request, down: bool, now: int) {
    r.extra != Raises && !down && M.Lookup(store, Key(w, namespace, r), now).Some?
  }

  function AfterLookUp(w: World, namespace: string, store: seq<M.Entry<CacheValue>>, r: Request, down: bool,
                       now: int): seq<M.Entry<CacheValue>> {
    if r.extra != Raises && !down then M.AfterGet(store, Key(w, namespace, r), now) else store
  }

  /** Fresh, non-empty, with a key. */
  predicate IsSaved(r: Request, res: Result) {
    res.Ok? && !res.cached && res.content != "" && r.extra != Raises
  }

  /** Once an answer is saved, the same request hits until the entry expires. */
  lemma SavedAnswerHits(w: World, namespace: string, store: seq<M.Entry<CacheValue>>, r: Request, value: CacheValue,
                        ttl: Option<int>, max: Option<nat>, now: int, later: int)
    requires M.UniqueKeys(store) && r.extra != Raises
    requires ttl.Some? ==> ttl.value > 0
    requires max.Some? ==> max.value > 0
    ensures Hits(w, namespace, M.AfterSet(store, Key(w, namespace, r), value, ttl, max, now), r, false, later)
            <==> (ttl.Some? ==> later < now + ttl.value)
  {
    hide M.Lookup, M.AfterSet, Key;
    M.GetAfterSet(store, Key(w, namespace, r), value, ttl, max, now, "", later);
  }

  lemma SavedIsThere(w: World, namespace: string, store: seq<M.Entry<CacheValue>>, r: Request, ttl: Option<int>,
                     max: Option<nat>, now: int)
    requires M.UniqueKeys(store)
    ensures r.extra != Raises && w.provide(r).Answer?
            && (ttl.Some? ==> ttl.value > 0) && (max.Some? ==> max.value > 0) ==>
              var after := M.AfterSet(store, Key(w, namespace, r), Save(w.provide(r)), ttl, max, now);
              Hits(w, namespace, after, r, false, now)
  {
    hide M.AfterSet, Key, Save, Hits, M.UniqueKeys;
    if r.extra != Raises && w.provide(r).Answer? && (ttl.Some? ==> ttl.value > 0) && (max.Some? ==> max.value > 0) {
      SavedAnswerHits(w, namespace, store, r, Save(w.provide(r)), ttl, max, now, now);
    }
  }

  datatype Stage = ContextResolver | CacheLookup | ProviderCall

  /** One request on its way through the pipeline. */
  class Context {
    const request: Request
    var response: Option<string>
    var model: Option<string>
    var provider: Option<string>
    var finish: Option<string>
    var cached: bool
    var shortCircuited: bool
    var cacheKey: Option<string>

    constructor (request: Request)
      ensures this.request == request && model == request.model
      ensures response == None && provider == None && finish == None && !cached && !shortCircuited && cacheKey == None
    {
      this.request := request;
      model := request.model;
      response, provider, finish, cacheKey := None, None, None, None;
      cached, shortCircuited := false, false;
    }

    /** A saved entry brings its metadata; a bare string only its text. */
    method Fill(hit: CacheValue)
      modifies this
      ensures response == Some(if hit.Saved? then hit.content else hit.s)
      ensures model == if hit.Saved? && hit.model != "" then Some(hit.model) else old(model)
      ensures provider == if hit.Saved? then Some(hit.provider) else old(provider)
      ensures finish == if hit.Saved? then hit.finish else old(finish)
      ensures cached == old(cached) && shortCircuited == old(shortCircuited) && cacheKey == old(cacheKey)
    {
      match hit
      case Saved(content, m, p, f) =>
        if m != "" {
          model := Some(m);
        }
        provider, finish, response := Some(p), f, Some(content);
      case Bare(s) =>
        response := Some(s);
    }

    function AsResult(): Result
      reads this
    {
      if response.None? then Failed else Ok(response.value, model, provider, finish, cached)
    }

    /** Whatever has been filled in so far is right. Says nothing about the cache, so it survives anything
        other requests do to it in between. */
    ghost predicate Right(w: World)
      reads this
    {
      && request in w.requests
      && (cacheKey.Some? ==> request.extra != Raises && cacheKey.value == Fingerprint(w, request))
      && (shortCircuited <==> cached)
      && (response.Some? ==> SameAnswer(w, request, AsResult()))
      && (response.None? ==> !cached && model == request.model)
      && (shortCircuited ==> response.Some?)
    }
  }

  // One request: whether the cache is down when it is read and when it is written, and the clock at both.
  datatype Call = Call(request: Request, readDown: bool, writeDown: bool, now: int, later: int)

  class Runtime {
    const world: World
    const cache: M.MemoryCache<CacheValue>
    const stages: seq<Stage> := [ContextResolver, CacheLookup, ProviderCall]

    /** A runtime starts with an empty cache. */
    constructor (world: World, cache: M.MemoryCache<CacheValue>)
      requires Fair(world) && cache.store == []
      ensures this.world == world && this.cache == cache
      ensures Valid()
    {
      this.world, this.cache := world, cache;
    }

    ghost predicate Valid()
      reads cache
    {
      Fair(world) && Sound(world, cache.namespace, cache.store) && M.UniqueKeys(cache.store)
    }

    method Read(ctx: Context, now: int) returns (hit: Option<CacheValue>)
      requires Valid() && ctx.Right(world) && ctx.cacheKey.Some?
      modifies cache
      ensures Valid()
      ensures hit.Some? ==> world.provide(ctx.request).Answer? && hit.value == Save(world.provide(ctx.request))
      ensures hit.Some? <==> Hits(world, cache.namespace, old(cache.store), ctx.request, false, now)
      ensures cache.store == AfterLookUp(world, cache.namespace, old(cache.store), ctx.request, false, now)
    {
      ghost var key := M.FullKey(cache.namespace, ctx.cacheKey.value);
      HitIsAnswer(world, cache.namespace, cache.store, ctx.request, now);
      SoundAfterGet(world, cache.namespace, cache.store, key, now);
      M.AfterGetUnique(cache.store, key, now);
      hide Fair, Sound, Fingerprint, M.FullKey, M.AfterGet, M.Lookup;
      hit := cache.Get(ctx.cacheKey.value, now);
    }

    /** A key that cannot be computed and a cache that is down both mean: no cache for this request. */
    method LookUp(ctx: Context, down: bool, now: int)
      requires Valid() && ctx.Right(world) && ctx.response.None? && ctx.cacheKey.None?
      modifies ctx, cache
      ensures Valid() && ctx.Right(world)
      ensures ctx.response.Some? ==> ctx.shortCircuited
      ensures ctx.cacheKey.Some? <==> ctx.request.extra != Raises
      ensures ctx.cached <==> Hits(world, cache.namespace, old(cache.store), ctx.request, down, now)
      ensures cache.store == AfterLookUp(world, cache.namespace, old(cache.store), ctx.request, down, now)
    {
      if ctx.request.extra == Raises {
        return;
      }
      ctx.cacheKey := Some(Fingerprint(world, ctx.request));
      hide Fair, Sound, Fingerprint, Key, M.AfterGet, M.Lookup;
      var hit: Option<CacheValue> := None;
      if !down {
        hit := Read(ctx, now);
      }
      if hit.Some? {
        ctx.Fill(hit.value);
        ctx.cached, ctx.shortCircuited := true, true;
      }
    }

    method CallProvider(ctx: Context) returns (ok: bool)
      requires ctx.Right(world) && ctx.response.None?
      modifies ctx
      ensures ctx.Right(world)
      ensures ok <==> world.provide(ctx.request).Answer?
      ensures ok <==> ctx.response.Some?
      ensures ctx.cached == old(ctx.cached) && ctx.cacheKey == old(ctx.cacheKey)
    {
      var a := world.provide(ctx.request);
      if a.Fails? {
        return false;
      }
      ctx.response := Some(a.content);
      ctx.model := Some(a.model);
      ctx.provider := Some(a.provider);
      ctx.finish := a.finish;
      ok := true;
    }

    /** Stages run in order until one short-circuits; an exception ends the run. */
    method RunPipeline(ctx: Context, down: bool, now: int) returns (ok: bool)
      requires Valid() && ctx.Right(world) && ctx.response.None? && ctx.cacheKey.None?
      modifies ctx, cache
      ensures Valid() && ctx.Right(world)
      ensures ok <==> ctx.response.Some?
      ensures !ok ==> world.provide(ctx.request).Fails? && !ctx.cached
      ensures ctx.cacheKey.Some? <==> ctx.request.extra != Raises
      ensures ctx.cached <==> Hits(world, cache.namespace, old(cache.store), ctx.request, down, now)
      ensures cache.store == AfterLookUp(world, cache.namespace, old(cache.store), ctx.request, down, now)
    {
      hide Fair, Sound, SameAnswer, Hits, AfterLookUp, Fingerprint;
      for i := 0 to |stages|
        invariant Valid() && ctx.Right(world)
        invariant ctx.response.Some? ==> ctx.shortCircuited || i == |stages|
        invariant i == |stages| ==> ctx.response.Some?
        invariant i <= 1 ==> cache.store == old(cache.store) && ctx.cacheKey.None? && ctx.response.None?
        invariant i > 1 ==>
                    && (ctx.cacheKey.Some? <==> ctx.request.extra != Raises)
                    && (ctx.cached <==> Hits(world, cache.namespace, old(cache.store), ctx.request, down, now))
                    && cache.store == AfterLookUp(world, cache.namespace, old(cache.store), ctx.request, down, now)
      {
        if ctx.shortCircuited {
          break;
        }
        match stages[i] {
          case ContextResolver =>
          case CacheLookup => LookUp(ctx, down, now);
          case ProviderCall =>
            var answered := CallProvider(ctx);
            if !answered {
              return false;
            }
        }
      }
      ok := true;
    }

    /** Fresh non-empty answers are saved. A cache that is down is ignored. */
    method WriteBack(ctx: Context, down: bool, now: int)
      requires Valid() && ctx.Right(world) && ctx.response.Some?
      requires ctx.cacheKey.Some? <==> ctx.request.extra != Raises
      modifies cache
      ensures Valid()
      ensures IsSaved(ctx.request, ctx.AsResult()) ==> world.provide(ctx.request).Answer?
      ensures cache.store == if IsSaved(ctx.request, ctx.AsResult()) && !down
                             then M.AfterSet(old(cache.store), Key(world, cache.namespace, ctx.request),
                                             Save(world.provide(ctx.request)),
                                             cache.defaultTtl, cache.maxSize, now)
                             else old(cache.store)
    {
      if ctx.cached || ctx.response.value == "" {
        return;
      }
      if ctx.cacheKey.Some? && !down {
        var a := Answer(ctx.response.value, ctx.model.GetOr(""), ctx.provider.GetOr(""), ctx.finish);
        SoundAfterSet(world, cache.namespace, cache.store, ctx.request, cache.defaultTtl, cache.maxSize, now);
        M.AfterSetUnique(cache.store, Key(world, cache.namespace, ctx.request), Save(a), cache.defaultTtl,
                         cache.maxSize, now);
        hide Fair, Sound, Fingerprint, M.FullKey, M.AfterSet;
        cache.Set(ctx.cacheKey.value, Save(a), None, now);
      }
    }

    /** With the cache, in whatever state earlier requests, expiries and evictions left it, a caller gets the
        answer it would get without: from the cache exactly when it holds a live entry, and saved exactly when fresh. */
    method Execute(request: Request, readDown: bool, writeDown: bool, now: int, later: int) returns (result: Result)
      requires Valid() && request in world.requests
      modifies cache
      ensures Valid()
      ensures SameAnswer(world, request, result)
      ensures result.Ok? && result.cached <==> Hits(world, cache.namespace, old(cache.store), request, readDown, now)
      ensures IsSaved(request, result) ==> world.provide(request).Answer?
      ensures var read := AfterLookUp(world, cache.namespace, old(cache.store), request, readDown, now);
              cache.store == if IsSaved(request, result) && !writeDown
                             then M.AfterSet(read, Key(world, cache.namespace, request), Save(world.provide(request)),
                                             cache.defaultTtl, cache.maxSize, later)
                             else read
      // A fresh, non-empty answer with a key is there for the next such request, unless the cache was down or keeps
      // nothing.
      ensures result.Ok? && !result.cached && result.content != "" && request.extra != Raises && !writeDown
              && (cache.defaultTtl.Some? ==> cache.defaultTtl.value > 0)
              && (cache.maxSize.Some? ==> cache.maxSize.value > 0) ==>
                Hits(world, cache.namespace, cache.store, request, false, later)
    {
      var ctx := new Context(request);
      hide Fair, Sound, Hits, AfterLookUp, Fingerprint, Key, M.AfterSet;
      var ok := RunPipeline(ctx, readDown, now);
      if !ok {
        return Failed;
      }
      result := ctx.AsResult();
      ghost var read := cache.store;
      WriteBack(ctx, writeDown, later);
      SavedIsThere(world, cache.namespace, read, request, cache.defaultTtl, cache.maxSize, later);
    }

    /** Any sequence of requests, with any clocks and outages: each caller gets the answer it would get without a
        cache. */
    method ServeAll(calls: seq<Call>) returns (results: seq<Result>)
      requires Valid() && forall k :: 0 <= k < |calls| ==> calls[k].request in world.requests
      modifies cache
      ensures Valid()
      ensures |results| == |calls|
      ensures forall k :: 0 <= k < |calls| ==> SameAnswer(world, calls[k].request, results[k])
    {
      results := [];
      hide Fair, Sound, SameAnswer, M.UniqueKeys;
      for k := 0 to |calls|
        invariant Valid() && |results| == k
        invariant forall j :: 0 <= j < k ==> SameAnswer(world, calls[j].request, results[j])
      {
        var c := calls[k];
        var result := Execute(c.request, c.readDown, c.writeDown, c.now, c.later);
        results := results + [result];
      }
    }
  }

  /** From a fresh cache of any size and lifetime. */
  method ServeFresh(world: World, namespace: string, defaultTtl: Option<int>, maxSize: Option<nat>, calls: seq<Call>)
      returns (results: seq<Result>)
    requires Fair(world) && forall k :: 0 <= k < |calls| ==> calls[k].request in world.requests
    ensures |results| == |calls|
    ensures forall k :: 0 <= k < |calls| ==> SameAnswer(world, calls[k].request, results[k])
  {
    hide SameAnswer;
    var cache := new M.MemoryCache<CacheValue>(namespace, defaultTtl, maxSize);
    var runtime := new Runtime(world, cache);
    results := runtime.ServeAll(calls);
  }
}
