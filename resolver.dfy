/**
 * The certificate cache and the SNI resolver of `src/lib.rs`.
 *
 * `CertCache` maps the exact hostname received in the Server Name
 * Indication extension (section 3 of RFC 6066) to a certified key; it is
 * only ever inserted into and read.  `ResolveSsl` is the handshake-time hook:
 * it answers from the cache and falls back to the loader on a miss.  The
 * loader is a parameter `string -> LoadOutcome` (in the process it is
 * `d => Loader.LoadCertifiedKey(store, d)`), and a ghost trace records the
 * hostnames it is called with.
 */
module Resolver {
  import opened Wrappers
  import opened Loader

  /** The hostname -> identity map (`CertCache`). */
  class CertCache {
    var entries: map<string, CertifiedKey>

    /** `CertCache::new`: an empty cache. */
    constructor ()
      ensures entries == map[]
    {
      entries := map[];
    }

    /** `set`: insert or overwrite; every other hostname keeps its entry. */
    method Set(key: string, cert: CertifiedKey)
      modifies this
      ensures entries == old(entries)[key := cert]
      ensures key in entries && entries[key] == cert
      ensures forall k :: k != key ==>
        (k in entries <==> k in old(entries)) &&
        (k in entries ==> entries[k] == old(entries)[k])
    {
      entries := entries[key := cert];
    }

    /** `get`: the stored identity, `None` exactly when the hostname is absent. */
    method Get(key: string) returns (r: Option<CertifiedKey>)
      ensures r.None? <==> key !in entries
      ensures r.Some? ==> key in entries && r.value == entries[key]
    {
      if key in entries {
        r := Some(entries[key]);
      } else {
        r := None;
      }
    }
  }

  /** What `resolve` ends in: an answer to the handshake, or a panic of the loader. */
  datatype Resolution = Answer(key: Option<CertifiedKey>) | Panicked(panic: Panic)

  /** One `resolve` call: its outcome, the cache after it, the hostnames given to the loader. */
  datatype Step = Step(result: Resolution, entries: map<string, CertifiedKey>, loaded: seq<string>)

  /**
   * The effect of `resolve` on a cache holding `entries`.  No hostname: no
   * identity.  A hit: the cached identity, without loading.  A miss: one
   * load, stored and returned when it succeeds.
   */
  function ResolveStep(entries: map<string, CertifiedKey>, serverName: Option<string>,
                       load: string -> LoadOutcome): (s: Step)
    // the cache only grows, and no existing entry is replaced
    ensures entries.Keys <= s.entries.Keys
    ensures forall k :: k in entries ==> s.entries[k] == entries[k]
    // at most the requested hostname is added
    ensures forall k :: k in s.entries && k !in entries ==> serverName == Some(k)
    // the loader runs only on a miss, and only for the requested hostname
    ensures s.loaded != [] <==> serverName.Some? && serverName.value !in entries
    ensures s.loaded != [] ==> s.loaded == [serverName.value]
    // an identity returned is the one the cache now holds for that hostname
    ensures s.result.Answer? && s.result.key.Some? ==>
      serverName.Some? && serverName.value in s.entries &&
      s.entries[serverName.value] == s.result.key.value
    // a panic comes only from the loader, and leaves the cache as it was
    ensures s.result.Panicked? ==>
      s.loaded != [] && load(s.loaded[0]) == Aborted(s.result.panic) && s.entries == entries
  {
    match serverName
    case None => Step(Answer(None), entries, [])
    case Some(domain) =>
      if domain in entries then Step(Answer(Some(entries[domain])), entries, [])
      else
        match load(domain)
        case Loaded(c) => Step(Answer(Some(c)), entries[domain := c], [domain])
        case Failed(_) => Step(Answer(None), entries, [domain])
        case Aborted(p) => Step(Panicked(p), entries, [domain])
  }

  /** `ResolveSSL`: the resolver owning one cache. */
  class ResolveSsl {
    const cache: CertCache
    /** The hostnames passed to the loader so far, in call order. */
    ghost var loads: seq<string>

    /** `ResolveSSL::new`: a resolver with an empty cache that has loaded nothing. */
    constructor ()
      ensures fresh(cache) && cache.entries == map[] && loads == []
    {
      cache := new CertCache();
      loads := [];
    }

    /** `resolve`, given the client's SNI hostname (if any). */
    method Resolve(serverName: Option<string>, load: string -> LoadOutcome) returns (r: Resolution)
      modifies this`loads, cache
      ensures var s := ResolveStep(old(cache.entries), serverName, load);
        r == s.result && cache.entries == s.entries && loads == old(loads) + s.loaded
    {
      if serverName.Some? {
        var domain := serverName.value;
        var cached := cache.Get(domain);
        if cached.Some? {
          return Answer(cached);
        }
        loads := loads + [domain];
        var outcome := load(domain);
        match outcome
        case Loaded(c) =>
          cache.Set(domain, c);
          return Answer(Some(c));
        case Failed(_) =>
          return Answer(None);
        case Aborted(p) =>
          return Panicked(p);
      }
      return Answer(None);
    }
  }

  /** No hostname: no identity, no load, cache unchanged. */
  lemma ResolveWithoutName(entries: map<string, CertifiedKey>, load: string -> LoadOutcome)
    ensures ResolveStep(entries, None, load) == Step(Answer(None), entries, [])
  {
  }

  /** A hit returns the cached identity without loading and without changing the cache. */
  lemma ResolveHit(entries: map<string, CertifiedKey>, host: string, load: string -> LoadOutcome)
    requires host in entries
    ensures ResolveStep(entries, Some(host), load) == Step(Answer(Some(entries[host])), entries, [])
  {
  }

  /**
   * A miss loads once; a successful load is stored under exactly that
   * hostname and returned, a failed one leaves the cache unchanged.
   */
  lemma ResolveMiss(entries: map<string, CertifiedKey>, host: string, load: string -> LoadOutcome)
    requires host !in entries
    ensures var s := ResolveStep(entries, Some(host), load);
      s.loaded == [host] &&
      match load(host)
      case Loaded(c) => s.result == Answer(Some(c)) && s.entries == entries[host := c]
      case Failed(_) => s.result == Answer(None) && s.entries == entries
      case Aborted(p) => s.result == Panicked(p) && s.entries == entries
  {
  }

  /** After a successful resolve, resolving the same hostname again hits without loading. */
  lemma ResolveAgainHits(entries: map<string, CertifiedKey>, host: string, load: string -> LoadOutcome)
    requires ResolveStep(entries, Some(host), load).result.Answer?
    requires ResolveStep(entries, Some(host), load).result.key.Some?
    ensures var s := ResolveStep(entries, Some(host), load);
      ResolveStep(s.entries, Some(host), load) == Step(s.result, s.entries, [])
  {
  }

  /**
   * The cache invariant: every entry is what the loader produces for that
   * exact hostname.
   */
  ghost predicate Consistent(entries: map<string, CertifiedKey>, load: string -> LoadOutcome) {
    forall k :: k in entries ==> load(k) == Loaded(entries[k])
  }

  /**
   * Resolving keeps the cache consistent, and an identity it returns is the
   * loader's identity for the requested hostname, never another one's.
   */
  lemma ResolveIsolated(entries: map<string, CertifiedKey>, serverName: Option<string>,
                        load: string -> LoadOutcome)
    requires Consistent(entries, load)
    ensures var s := ResolveStep(entries, serverName, load);
      Consistent(s.entries, load) &&
      (s.result.Answer? && s.result.key.Some? ==>
         load(serverName.value) == Loaded(s.result.key.value))
  {
  }

  /** The calls the cache sees over the life of the process. */
  datatype Call = SetCall(key: string, cert: CertifiedKey) | ResolveCall(serverName: Option<string>)

  /** The final cache and the loader trace after a sequence of calls. */
  datatype Run = Run(entries: map<string, CertifiedKey>, loaded: seq<string>)

  function Replay(entries: map<string, CertifiedKey>, calls: seq<Call>,
                  load: string -> LoadOutcome): Run
    decreases |calls|
  {
    if calls == [] then Run(entries, [])
    else
      match calls[0]
      case SetCall(k, c) => Replay(entries[k := c], calls[1..], load)
      case ResolveCall(name) =>
        var s := ResolveStep(entries, name, load);
        var rest := Replay(s.entries, calls[1..], load);
        Run(rest.entries, s.loaded + rest.loaded)
  }

  /** Across any sequence of `set` and `resolve` calls the key set only grows. */
  lemma {:induction false} ReplayOnlyGrows(entries: map<string, CertifiedKey>, calls: seq<Call>,
                                           load: string -> LoadOutcome)
    ensures entries.Keys <= Replay(entries, calls, load).entries.Keys
    decreases |calls|
  {
    if calls != [] {
      match calls[0]
      case SetCall(k, c) => ReplayOnlyGrows(entries[k := c], calls[1..], load);
      case ResolveCall(name) =>
        ReplayOnlyGrows(ResolveStep(entries, name, load).entries, calls[1..], load);
    }
  }

  /** Without `set` calls from outside, a sequence of resolves keeps the cache consistent. */
  lemma {:induction false} ReplayKeepsConsistent(entries: map<string, CertifiedKey>, calls: seq<Call>,
                                                 load: string -> LoadOutcome)
    requires Consistent(entries, load)
    requires forall i :: 0 <= i < |calls| ==> calls[i].ResolveCall?
    ensures Consistent(Replay(entries, calls, load).entries, load)
    decreases |calls|
  {
    if calls != [] {
      var s := ResolveStep(entries, calls[0].serverName, load);
      ResolveIsolated(entries, calls[0].serverName, load);
      ReplayKeepsConsistent(s.entries, calls[1..], load);
    }
  }

  /**
   * A hostname whose load succeeds reaches the loader at most once over any
   * sequence of calls, and never once it is cached.
   */
  lemma {:induction false} LoadedAtMostOnce(entries: map<string, CertifiedKey>, calls: seq<Call>,
                                            load: string -> LoadOutcome, host: string)
    requires load(host).Loaded?
    ensures multiset(Replay(entries, calls, load).loaded)[host] <= if host in entries then 0 else 1
    decreases |calls|
  {
    if calls != [] {
      match calls[0]
      case SetCall(k, c) =>
        LoadedAtMostOnce(entries[k := c], calls[1..], load, host);
      case ResolveCall(name) =>
        var s := ResolveStep(entries, name, load);
        LoadedAtMostOnce(s.entries, calls[1..], load, host);
        assert multiset(s.loaded + Replay(s.entries, calls[1..], load).loaded)
            == multiset(s.loaded) + multiset(Replay(s.entries, calls[1..], load).loaded);
        if name == Some(host) && host !in entries {
          assert host in s.entries;
        }
    }
  }

  /**
   * With the file-backed loader, a miss on a hostname whose bundle cannot be
   * opened panics (the `unwrap` on `File::open`) rather than answering `None`.
   */
  lemma MissingBundlePanics(store: Store, entries: map<string, CertifiedKey>, host: string)
    requires host !in entries
    requires BundlePath(host) !in store.files
    ensures ResolveStep(entries, Some(host), d => LoadCertifiedKey(store, d)).result == Panicked(OpenFailed)
  {
  }
}
