/** The image loader (src/utils/imageLoader.ts): a cache of loaded images
    and a table of loads in flight, both module-level maps. Every call to
    `new Image()` is a numbered load; the image element a load produces and the
    promise it settles are named by that number. The browser's `load` and
    `error` events and the timer's expiry are event methods. */
module ImageLoader {
  import opened Wrappers

  /** How a load's promise stands: pending with its handlers attached, or settled. */
  datatype LoadState = Waiting | Loaded | Failed | TimedOut

  datatype Load = Load(src: string, state: LoadState)

  /** What `loadImage` returns: a promise already resolved with a cached
      image, or the promise of a load (settled as that load's state says). */
  datatype Promise = Ready(image: nat) | Pending(load: nat)

  /** The module state: the cache (source to the load whose image it holds),
      the cache's keys in insertion order, the in-flight table and every load so far. */
  datatype Loader = Loader(cache: map<string, nat>, order: seq<string>, loading: map<string, nat>, loads: seq<Load>)

  const Empty: Loader := Loader(map[], [], map[], [])

  predicate Distinct(xs: seq<string>) {
    forall i, j :: 0 <= i < j < |xs| ==> xs[i] != xs[j]
  }

  /** The invariant the module keeps. */
  ghost predicate Valid(st: Loader) {
    && (forall s :: s in st.cache <==> s in st.order)
    && Distinct(st.order)
    && (forall s :: s in st.cache ==> st.cache[s] < |st.loads| && st.loads[st.cache[s]] == Load(s, Loaded))
    && (forall s :: s in st.loading ==> st.loading[s] < |st.loads| && st.loads[st.loading[s]].src == s)
    && (forall k :: 0 <= k < |st.loads| && st.loads[k].state == Waiting ==>
          st.loads[k].src in st.loading && st.loading[st.loads[k].src] == k && st.loads[k].src !in st.cache)
  }

  lemma EmptyValid()
    ensures Valid(Empty)
  {
  }

  /** `loadImage(src)`: a cache hit, a load already in flight, or a fresh load registered in the in-flight table. */
  function Request(st: Loader, src: string): (Loader, Promise) {
    if src in st.cache then (st, Ready(st.cache[src]))
    else if src in st.loading then (st, Pending(st.loading[src]))
    else
      var k := |st.loads|;
      (st.(loading := st.loading[src := k], loads := st.loads + [Load(src, Waiting)]), Pending(k))
  }

  /** The `load` event of load `k`: its image enters the cache and its source leaves the in-flight table. */
  function OnLoad(st: Loader, k: nat): Loader
    requires k < |st.loads|
  {
    if st.loads[k].state != Waiting then st
    else
      var src := st.loads[k].src;
      st.(cache := st.cache[src := k],
          order := if src in st.cache then st.order else st.order + [src],
          loading := st.loading - {src},
          loads := st.loads[k := Load(src, Loaded)])
  }

  /** The `error` event of load `k`: its source leaves the in-flight table and nothing is cached. */
  function OnError(st: Loader, k: nat): Loader
    requires k < |st.loads|
  {
    if st.loads[k].state != Waiting then st
    else
      var src := st.loads[k].src;
      st.(loading := st.loading - {src}, loads := st.loads[k := Load(src, Failed)])
  }

  /** The timer of load `k` as written: the handlers are detached and the
      promise rejects, but the source stays in the in-flight table. */
  function OnTimeoutAsWritten(st: Loader, k: nat): Loader
    requires k < |st.loads|
  {
    if st.loads[k].state != Waiting then st
    else st.(loads := st.loads[k := Load(st.loads[k].src, TimedOut)])
  }

  /** The timer of load `k` as intended: it also releases the in-flight entry, as the error handler does. */
  function OnTimeout(st: Loader, k: nat): Loader
    requires k < |st.loads|
  {
    if st.loads[k].state != Waiting then st
    else
      var src := st.loads[k].src;
      st.(loading := st.loading - {src}, loads := st.loads[k := Load(src, TimedOut)])
  }

  function Elements(xs: seq<string>): set<string> {
    set s | s in xs
  }

  /** The keys of `order` outside `banned`, in order. */
  function Without(order: seq<string>, banned: set<string>): (r: seq<string>)
    ensures forall s :: s in r <==> s in order && s !in banned
    ensures |r| <= |order|
  {
    if order == [] then []
    else if order[0] in banned then Without(order[1..], banned)
    else [order[0]] + Without(order[1..], banned)
  }

  /** `clearImageCache(sources)` / `clearImageCache()`: only the cache changes. */
  function ClearCache(st: Loader, sources: Option<seq<string>>): Loader {
    match sources
    case Some(srcs) =>
      var banned := Elements(srcs);
      st.(cache := st.cache - banned, order := Without(st.order, banned))
    case None => st.(cache := map[], order := [])
  }

  datatype CacheInfo = CacheInfo(size: nat, sources: seq<string>)

  /** `getImageCacheInfo`: the cache's size and its keys in insertion order. */
  function GetCacheInfo(st: Loader): CacheInfo {
    CacheInfo(|st.cache|, st.order)
  }

  /** `sources.map(src => loadImage(src))`, one call after the other, and the promises in source order. */
  function LoadAll(st: Loader, sources: seq<string>): (Loader, seq<Promise>)
    decreases |sources|
  {
    if sources == [] then (st, [])
    else
      var (st1, p) := Request(st, sources[0]);
      var (st2, ps) := LoadAll(st1, sources[1..]);
      (st2, [p] + ps)
  }

  // ---------------------------------------------------------------------
  // loadImage

  /** A cache hit changes nothing and returns the cached image. */
  lemma CacheHit(st: Loader, src: string)
    requires src in st.cache
    ensures Request(st, src) == (st, Ready(st.cache[src]))
  {
  }

  /** A source in flight gets the pending promise back, and no second load is registered. */
  lemma InFlightShared(st: Loader, src: string)
    requires src !in st.cache && src in st.loading
    ensures Request(st, src) == (st, Pending(st.loading[src]))
  {
  }

  /** A fresh source starts exactly one load and is entered in the in-flight table; the cache is untouched. */
  lemma FreshLoadRegistered(st: Loader, src: string)
    requires src !in st.cache && src !in st.loading
    ensures var (st1, p) := Request(st, src);
            && p == Pending(|st.loads|)
            && st1.loads == st.loads + [Load(src, Waiting)]
            && st1.loading == st.loading[src := |st.loads|]
            && st1.cache == st.cache && st1.order == st.order
  {
  }

  /** Asking twice in a row for the same source gives the same promise and registers nothing more. */
  lemma RequestIdempotent(st: Loader, src: string)
    requires Valid(st)
    ensures var (st1, p) := Request(st, src);
            Request(st1, src) == (st1, p)
  {
  }

  /** Loading another source does not change what a source already asked for gets. */
  lemma LoadKeepsPromise(st: Loader, src: string, other: string)
    requires src in st.cache || src in st.loading
    ensures Request(Request(st, other).0, src) == (Request(st, other).0, Request(st, src).1)
  {
  }

  /** A batch leaves the cache as it was and every promise in flight where it was, so
      a source once asked for stays cached or in flight. */
  lemma {:induction false} LoadAllKeeps(st: Loader, sources: seq<string>)
    ensures LoadAll(st, sources).0.cache == st.cache
    ensures forall s :: s in st.loading ==> s in LoadAll(st, sources).0.loading && LoadAll(st, sources).0.loading[s] == st.loading[s]
    decreases |sources|
  {
    if sources != [] {
      var st1 := Request(st, sources[0]).0;
      LoadAllKeeps(st1, sources[1..]);
    }
  }

  /** `loadImages` yields one promise per source, in order, and repeated
      sources share one promise, so each distinct source is loaded at most once. */
  lemma {:induction false} LoadAllShares(st: Loader, sources: seq<string>, i: nat, j: nat)
    requires i < j < |sources| && sources[i] == sources[j]
    ensures |LoadAll(st, sources).1| == |sources|
    ensures LoadAll(st, sources).1[i] == LoadAll(st, sources).1[j]
    decreases |sources|
  {
    LoadAllLength(st, sources);
    var (st1, p) := Request(st, sources[0]);
    LoadAllLength(st1, sources[1..]);
    if i == 0 {
      assert sources[1..][j - 1] == sources[0];
      LoadAllPromiseOf(st1, sources[0], sources[1..], j - 1);
    } else {
      LoadAllShares(st1, sources[1..], i - 1, j - 1);
    }
  }

  lemma {:induction false} LoadAllLength(st: Loader, sources: seq<string>)
    ensures |LoadAll(st, sources).1| == |sources|
    decreases |sources|
  {
    if sources != [] {
      LoadAllLength(Request(st, sources[0]).0, sources[1..]);
    }
  }

  /** The promise a later call for an already-asked-for source gets is the one it got before. */
  lemma {:induction false} LoadAllPromiseOf(st: Loader, src: string, sources: seq<string>, j: nat)
    requires src in st.cache || src in st.loading
    requires j < |sources| && sources[j] == src
    ensures |LoadAll(st, sources).1| == |sources|
    ensures LoadAll(st, sources).1[j] == Request(st, src).1
    decreases |sources|
  {
    LoadAllLength(st, sources);
    var st1 := Request(st, sources[0]).0;
    if j == 0 {
    } else {
      LoadKeepsPromise(st, src, sources[0]);
      LoadAllPromiseOf(st1, src, sources[1..], j - 1);
    }
  }

  // ---------------------------------------------------------------------
  // Events

  /** On load the source is cached with this load's image and leaves the in-flight table. */
  lemma LoadCaches(st: Loader, k: nat)
    requires Valid(st) && k < |st.loads| && st.loads[k].state == Waiting
    ensures var src := st.loads[k].src;
            var st1 := OnLoad(st, k);
            && src in st1.cache && st1.cache[src] == k && src !in st1.loading
            && st1.order == st.order + [src]
            && st1.loads[k] == Load(src, Loaded)
  {
  }

  /** On error the source leaves the in-flight table and is not cached. */
  lemma ErrorNotCached(st: Loader, k: nat)
    requires Valid(st) && k < |st.loads| && st.loads[k].state == Waiting
    ensures var src := st.loads[k].src;
            var st1 := OnError(st, k);
            && src !in st1.cache && src !in st1.loading && st1.cache == st.cache
            && st1.loads[k] == Load(src, Failed)
  {
  }

  /** A settled load cannot settle again: its events change nothing. */
  lemma SettledLoadInert(st: Loader, k: nat)
    requires k < |st.loads| && st.loads[k].state != Waiting
    ensures OnLoad(st, k) == st && OnError(st, k) == st && OnTimeout(st, k) == st && OnTimeoutAsWritten(st, k) == st
  {
  }

  /** As written, a timed-out source stays in the in-flight table for good:
      every later `loadImage(src)` returns the rejected promise, and no event
      of that load can remove the entry. */
  lemma TimeoutStuck(st: Loader, k: nat)
    requires Valid(st) && k < |st.loads| && st.loads[k].state == Waiting
    ensures var src := st.loads[k].src;
            var st1 := OnTimeoutAsWritten(st, k);
            && st1.loads[k] == Load(src, TimedOut)
            && Request(st1, src) == (st1, Pending(k))
            && OnLoad(st1, k) == st1 && OnError(st1, k) == st1
  {
  }

  /** The timeout as intended rejects, caches nothing, and lets the next `loadImage(src)` start a new load. */
  lemma TimeoutRetries(st: Loader, k: nat)
    requires Valid(st) && k < |st.loads| && st.loads[k].state == Waiting
    ensures var src := st.loads[k].src;
            var st1 := OnTimeout(st, k);
            && st1.loads[k] == Load(src, TimedOut) && st1.cache == st.cache
            && Request(st1, src).1 == Pending(|st.loads|)
  {
  }

  /** A concrete case: a first load of "a.png" that times out. */
  lemma TimeoutExample()
    ensures var (st1, p) := Request(Empty, "a.png");
            var st2 := OnTimeoutAsWritten(st1, 0);
            var st3 := OnTimeout(st1, 0);
            && p == Pending(0)
            && Request(st2, "a.png").1 == Pending(0) && st2.loads[0].state == TimedOut
            && Request(st3, "a.png").1 == Pending(1)
  {
  }

  // ---------------------------------------------------------------------
  // The invariant

  lemma RequestValid(st: Loader, src: string)
    requires Valid(st)
    ensures Valid(Request(st, src).0)
  {
  }

  lemma OnLoadValid(st: Loader, k: nat)
    requires Valid(st) && k < |st.loads|
    ensures Valid(OnLoad(st, k))
  {
    if st.loads[k].state == Waiting {
      var src := st.loads[k].src;
      var st1 := OnLoad(st, k);
      assert src !in st.order;
      forall i, j | 0 <= i < j < |st1.order|
        ensures st1.order[i] != st1.order[j]
      {
        if j == |st.order| {
          assert st1.order[i] == st.order[i];
        }
      }
    }
  }

  lemma OnErrorValid(st: Loader, k: nat)
    requires Valid(st) && k < |st.loads|
    ensures Valid(OnError(st, k))
  {
  }

  lemma OnTimeoutValid(st: Loader, k: nat)
    requires Valid(st) && k < |st.loads|
    ensures Valid(OnTimeout(st, k)) && Valid(OnTimeoutAsWritten(st, k))
  {
  }

  /** Removing keys keeps the order free of duplicates. */
  lemma {:induction false} WithoutDistinct(order: seq<string>, banned: set<string>)
    requires Distinct(order)
    ensures Distinct(Without(order, banned))
    decreases |order|
  {
    if order != [] {
      WithoutDistinct(order[1..], banned);
      var rest := Without(order[1..], banned);
      assert order[0] !in order[1..] by {
        forall k | 0 <= k < |order[1..]|
          ensures order[1..][k] != order[0]
        {
          assert order[1..][k] == order[k + 1];
        }
      }
      if order[0] in banned {
        assert Without(order, banned) == rest;
      } else {
        var r := [order[0]] + rest;
        assert Without(order, banned) == r;
        forall i, j | 0 <= i < j < |r|
          ensures r[i] != r[j]
        {
          assert r[j] == rest[j - 1];
          assert rest[j - 1] in rest;
          if i > 0 {
            assert r[i] == rest[i - 1];
          } else {
            assert r[i] == order[0];
            assert r[j] in order[1..];
          }
        }
      }
    }
  }

  /** Clearing touches only the cache: the named keys, or all of them, leave it, and the in-flight table and loads are unchanged. */
  lemma ClearCacheEffect(st: Loader, sources: Option<seq<string>>)
    requires Valid(st)
    ensures var st1 := ClearCache(st, sources);
            && Valid(st1)
            && st1.loading == st.loading && st1.loads == st.loads
            && (sources.None? ==> st1.cache == map[])
            && (sources.Some? ==> forall s :: s in st1.cache <==> s in st.cache && s !in sources.value)
            && (forall s :: s in st1.cache ==> st1.cache[s] == st.cache[s])
  {
    if sources.Some? {
      WithoutDistinct(st.order, Elements(sources.value));
    }
  }

  /** A sequence without duplicates has as many distinct elements as entries. */
  lemma {:induction false} DistinctCard(order: seq<string>)
    requires Distinct(order)
    ensures |set s | s in order| == |order|
    decreases |order|
  {
    if order != [] {
      DistinctCard(order[1..]);
      assert forall s :: s in order[1..] ==> s in order;
      assert (set s | s in order) == (set s | s in order[1..]) + {order[0]};
      assert order[0] !in order[1..];
    }
  }

  /** The size `getImageCacheInfo` reports is the number of sources it lists. */
  lemma CacheInfoConsistent(st: Loader)
    requires Valid(st)
    ensures GetCacheInfo(st).size == |GetCacheInfo(st).sources|
    ensures forall s :: s in GetCacheInfo(st).sources <==> s in st.cache
  {
    DistinctCard(st.order);
    assert st.cache.Keys == set s | s in st.order;
  }

  /** The module-level state and its operations. */
  class ImageCache {
    var cache: map<string, nat>
    var order: seq<string>
    var loading: map<string, nat>
    var loads: seq<Load>

    ghost function State(): Loader
      reads this
    {
      Loader(cache, order, loading, loads)
    }

    constructor ()
      ensures State() == Empty
    {
      cache, order, loading, loads := map[], [], map[], [];
    }

    /** `loadImage(src)` */
    method LoadImage(src: string) returns (p: Promise)
      modifies this
      ensures (State(), p) == Request(old(State()), src)
    {
      if src in cache {
        return Ready(cache[src]);
      }
      if src in loading {
        return Pending(loading[src]);
      }
      var k := |loads|;
      loads := loads + [Load(src, Waiting)];
      loading := loading[src := k];
      p := Pending(k);
    }

    /** The `onload` handler of load `k`. */
    method ImageLoaded(k: nat)
      requires k < |loads|
      modifies this
      ensures State() == OnLoad(old(State()), k)
    {
      if loads[k].state == Waiting {
        var src := loads[k].src;
        if src !in cache {
          order := order + [src];
        }
        cache := cache[src := k];
        loading := loading - {src};
        loads := loads[k := Load(src, Loaded)];
      }
    }

    /** The `onerror` handler of load `k`. */
    method ImageFailed(k: nat)
      requires k < |loads|
      modifies this
      ensures State() == OnError(old(State()), k)
    {
      if loads[k].state == Waiting {
        var src := loads[k].src;
        loading := loading - {src};
        loads := loads[k := Load(src, Failed)];
      }
    }

    /** The timer of load `k`, releasing the in-flight entry. */
    method TimerFired(k: nat)
      requires k < |loads|
      modifies this
      ensures State() == OnTimeout(old(State()), k)
    {
      if loads[k].state == Waiting {
        var src := loads[k].src;
        loading := loading - {src};
        loads := loads[k := Load(src, TimedOut)];
      }
    }

    /** `clearImageCache(sources)`: one `delete` per listed source, or `clear()`. */
    method ClearImageCache(sources: Option<seq<string>>)
      modifies this
      ensures State() == ClearCache(old(State()), sources)
    {
      if sources.None? {
        cache, order := map[], [];
        return;
      }
      var srcs := sources.value;
      assert Elements(srcs[..0]) == {};
      WithoutNothing(order);
      for i := 0 to |srcs|
        invariant cache == old(cache) - Elements(srcs[..i])
        invariant order == Without(old(order), Elements(srcs[..i]))
        invariant loading == old(loading) && loads == old(loads)
      {
        WithoutTwice(old(order), Elements(srcs[..i]), srcs[i]);
        assert srcs[..i + 1] == srcs[..i] + [srcs[i]];
        assert Elements(srcs[..i + 1]) == Elements(srcs[..i]) + {srcs[i]};
        cache := cache - {srcs[i]};
        order := Without(order, {srcs[i]});
      }
      assert srcs[..|srcs|] == srcs;
    }

    /** `loadImages(sources)`: the promises `Promise.allSettled` waits on, one per source in order. */
    method LoadImages(sources: seq<string>) returns (ps: seq<Promise>)
      modifies this
      ensures (State(), ps) == LoadAll(old(State()), sources)
    {
      ps := [];
      ghost var start := State();
      assert sources[0..] == sources;
      for i := 0 to |sources|
        invariant LoadAll(State(), sources[i..]).0 == LoadAll(start, sources).0
        invariant ps + LoadAll(State(), sources[i..]).1 == LoadAll(start, sources).1
      {
        assert sources[i..][0] == sources[i] && sources[i..][1..] == sources[i + 1..];
        ghost var rest := LoadAll(Request(State(), sources[i]).0, sources[i + 1..]).1;
        var p := LoadImage(sources[i]);
        assert ps + ([p] + rest) == (ps + [p]) + rest;
        ps := ps + [p];
      }
      assert sources[|sources|..] == [];
      assert LoadAll(State(), []) == (State(), []);
      assert ps + [] == ps;
    }

    /** `getImageCacheInfo()` */
    function GetImageCacheInfo(): (info: CacheInfo)
      reads this
      ensures info == GetCacheInfo(State())
    {
      CacheInfo(|cache|, order)
    }
  }

  lemma {:induction false} WithoutNothing(order: seq<string>)
    ensures Without(order, {}) == order
    decreases |order|
  {
    if order != [] {
      WithoutNothing(order[1..]);
    }
  }

  /** Removing one more key after a set of keys is removing the larger set. */
  lemma {:induction false} WithoutTwice(order: seq<string>, banned: set<string>, x: string)
    ensures Without(Without(order, banned), {x}) == Without(order, banned + {x})
    decreases |order|
  {
    if order != [] {
      WithoutTwice(order[1..], banned, x);
    }
  }
}
