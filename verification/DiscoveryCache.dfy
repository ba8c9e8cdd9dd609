/** ResolveGVR over the per-cluster snapshot cache: an entry lives for the TTL, and a
    kind that is not found busts the cache once. */
module DiscoveryCache {
  import opened Wrappers
  import opened Resolve
  import opened ResolveRoutes

  /** Five minutes, in nanoseconds. */
  const TTL := 300_000_000_000

  type ClusterId = string

  datatype Entry = Entry(lists: Snapshot, expiry: int)

  type Cache = map<ClusterId, Entry>

  /** A snapshot stored for its cluster, and the clock then. */
  datatype Fetch = Fetch(cluster: ClusterId, lists: Snapshot, at: int)

  lemma StoreAllMore(cache: Cache, others: seq<Fetch>, i: nat)
    requires i < |others|
    ensures others[..i + 1] == others[..i] + [others[i]]
    ensures StoreAll(cache, others[..i + 1]) == Store(StoreAll(cache, others[..i]), others[i])
  {
    assert others[..i + 1][..i] == others[..i];
  }

  /** What one resolution attempt meets: the fetches other calls stored before it reads
      the shared cache, the outcome of the cluster lookup, the clock when the cache is
      read, the snapshot its own fetch returns, and the clock when that is stored. */
  datatype Attempt = Attempt(
    others: seq<Fetch>, cluster: Option<ClusterId>, now: int, fetched: Option<Snapshot>, storedAt: int)

  function Store(cache: Cache, f: Fetch): Cache { cache[f.cluster := Entry(f.lists, f.at + TTL)] }

  function StoreAll(cache: Cache, others: seq<Fetch>): Cache {
    if others == [] then cache else Store(StoreAll(cache, others[..|others| - 1]), others[|others| - 1])
  }

  predicate Hits(cache: Cache, forceRefresh: bool, a: Attempt) {
    a.cluster.Some? && !forceRefresh && a.cluster.value in cache && a.now < cache[a.cluster.value].expiry
  }

  function ApiResources(cache: Cache, forceRefresh: bool, a: Attempt): (Cache, Option<Snapshot>) {
    if a.cluster.None? then (cache, None)
    else if Hits(cache, forceRefresh, a) then (cache, Some(cache[a.cluster.value].lists))
    else if a.fetched.None? then (cache, None)
    else (Store(cache, Fetch(a.cluster.value, a.fetched.value, a.storedAt)), a.fetched)
  }

  /** One pass of resolution. */
  function Resolve1(cache: Cache, route: Route, forceRefresh: bool, a: Attempt): (Cache, Answer) {
    var shared := StoreAll(cache, a.others);
    if !route.NeedsDiscovery() then (shared, ResolveOn([], route)) else Discover(shared, route, forceRefresh, a)
  }

  function Discover(shared: Cache, route: Route, forceRefresh: bool, a: Attempt): (Cache, Answer) {
    var (after, lists) := ApiResources(shared, forceRefresh, a);
    (after, if lists.None? then Failure(FetchFailed) else ResolveOn(lists.value, route))
  }

  predicate NotFound(r: Answer) { r.Failure? && r.error.IsNotFound() }

  function ResolveTwice(cache: Cache, route: Route, first: Attempt, second: Attempt): (Cache, Answer) {
    var (after, r) := Resolve1(cache, route, false, first);
    if NotFound(r) then Resolve1(after, route, true, second) else (after, r)
  }

  /** Each entry is a snapshot fetched for its cluster, and expires one TTL after it was
      stored. */
  ghost predicate Backed(cache: Cache, fetches: seq<Fetch>) {
    forall c :: c in cache ==> Fetch(c, cache[c].lists, cache[c].expiry - TTL) in fetches
  }

  lemma StoreBacked(cache: Cache, fetches: seq<Fetch>, f: Fetch)
    requires Backed(cache, fetches)
    ensures Backed(Store(cache, f), fetches + [f])
  {
  }

  class Client {
    var discoveryCache: Cache
    /** Every snapshot ever stored, oldest first, and the number of fetches tried. */
    ghost var fetches: seq<Fetch>
    ghost var requests: nat

    ghost predicate Valid()
      reads this
    {
      Backed(discoveryCache, fetches)
    }

    constructor ()
      ensures Valid() && discoveryCache == map[] && fetches == [] && requests == 0
    {
      discoveryCache, fetches, requests := map[], [], 0;
    }

    /** What other calls do to the shared cache meanwhile. */
    method OthersStore(others: seq<Fetch>)
      requires Valid()
      modifies this
      ensures Valid() && requests == old(requests)
      ensures discoveryCache == StoreAll(old(discoveryCache), others) && fetches == old(fetches) + others
    {
      for i := 0 to |others|
        invariant Valid() && requests == old(requests)
        invariant discoveryCache == StoreAll(old(discoveryCache), others[..i]) && fetches == old(fetches) + others[..i]
      {
        StoreAllMore(old(discoveryCache), others, i);
        StoreBacked(discoveryCache, fetches, others[i]);
        discoveryCache := Store(discoveryCache, others[i]);
        fetches := fetches + [others[i]];
      }
      assert others[..|others|] == others;
    }

    method FetchedResources(forceRefresh: bool, a: Attempt) returns (lists: Option<Snapshot>)
      requires Valid()
      modifies this
      ensures Valid()
      ensures (discoveryCache, lists) == ApiResources(old(discoveryCache), forceRefresh, a)
      ensures fetches == old(fetches) +
        if lists.Some? && !Hits(old(discoveryCache), forceRefresh, a)
        then [Fetch(a.cluster.value, lists.value, a.storedAt)] else []
      ensures old(requests) <= requests <= old(requests) + 1
    {
      if a.cluster.None? {
        return None;
      }
      var clusterId := a.cluster.value;
      if !forceRefresh {
        if clusterId in discoveryCache {
          var e := discoveryCache[clusterId];
          if a.now < e.expiry {
            return Some(e.lists);
          }
        }
      }
      requests := requests + 1;
      if a.fetched.None? {
        return None;
      }
      lists := a.fetched;
      StoreBacked(discoveryCache, fetches, Fetch(clusterId, lists.value, a.storedAt));
      discoveryCache := Store(discoveryCache, Fetch(clusterId, lists.value, a.storedAt));
      fetches := fetches + [Fetch(clusterId, lists.value, a.storedAt)];
    }

    method ResolveOnce(route: Route, forceRefresh: bool, a: Attempt) returns (r: Answer)
      requires Valid()
      modifies this
      ensures Valid()
      ensures (discoveryCache, r) == Resolve1(old(discoveryCache), route, forceRefresh, a)
      ensures old(requests) <= requests <= old(requests) + 1 && (!route.NeedsDiscovery() ==> requests == old(requests))
      ensures route.NeedsDiscovery() && r != Failure(FetchFailed) ==> Explained(fetches, forceRefresh, a, route, r)
    {
      OthersStore(a.others);
      if !route.NeedsDiscovery() {
        return ResolveOn([], route);
      }
      r := ResolveDiscovered(route, forceRefresh, a);
    }

    method ResolveDiscovered(route: Route, forceRefresh: bool, a: Attempt) returns (r: Answer)
      requires Valid() && route.NeedsDiscovery()
      modifies this
      ensures Valid() && (discoveryCache, r) == Discover(old(discoveryCache), route, forceRefresh, a)
      ensures old(requests) <= requests <= old(requests) + 1
      ensures r != Failure(FetchFailed) ==> Explained(fetches, forceRefresh, a, route, r)
    {
      ghost var shared := discoveryCache;
      var lists := FetchedResources(forceRefresh, a);
      if lists.None? {
        return Failure(FetchFailed);
      }
      r := ResolveRoute(lists.value, route);
      ListsExplain(fetches, shared, forceRefresh, a, lists.value, route, r);
    }

    /** Whatever other calls store meanwhile: a not-found answer is true of the snapshot
        this very call fetched last. A discovered type is in a snapshot of its cluster
        that this call fetched, or that was stored less than the TTL before the cache
        was read. At most two fetches are made, none for a kind of the built-in table. */
    method ResolveGvr(table: Table, kind: string, apiVersion: string, first: Attempt, second: Attempt)
      returns (r: Answer)
      requires Valid()
      modifies this
      ensures Valid()
      ensures (discoveryCache, r) == ResolveTwice(old(discoveryCache), RouteOf(table, kind, apiVersion), first, second)
      ensures requests <= old(requests) + 2
      ensures !RouteOf(table, kind, apiVersion).NeedsDiscovery() ==> requests == old(requests)
      ensures NotFound(r) ==>
        second.cluster.Some? && second.fetched.Some? &&
        !Served(second.fetched.value, RouteOf(table, kind, apiVersion))
      ensures r.Success? && RouteOf(table, kind, apiVersion).NeedsDiscovery() ==>
        exists f :: f in fetches && InSnapshot(f.lists, RouteOf(table, kind, apiVersion), r.value) &&
                    (Fresh(f, first) || OwnFetch(f, first) || OwnFetch(f, second))
    {
      var route := RouteOf(table, kind, apiVersion);
      r := ResolveOnce(route, false, first);
      if route.NeedsDiscovery() && r != Failure(FetchFailed) {
        ghost var f :| From(fetches, f, false, first, route, r);
        FromMeans(fetches, f, false, first, route, r);
      }
      if r.Failure? && r.error.IsNotFound() {
        r := ResolveOnce(route, true, second);
        if r != Failure(FetchFailed) {
          ghost var f :| From(fetches, f, true, second, route, r);
          FromMeans(fetches, f, true, second, route, r);
        }
      }
    }
  }

  /** Which of the three lookups a route takes. */
  method ResolveRoute(lists: Snapshot, route: Route) returns (r: Answer)
    requires route.NeedsDiscovery()
    ensures r == ResolveOn(lists, route)
  {
    match route {
      case InVersion(gv, kind) => r := ResolveInGroupVersion(lists, kind, gv);
      case InOneGroup(group, kind) => r := ResolveInGroup(lists, kind, group);
      case Everywhere(kind) => r := ResolveByDiscovery(lists, kind);
    }
  }

  /** The fetch behind the lists that an attempt reads. */
  function FetchRead(shared: Cache, forceRefresh: bool, a: Attempt, lists: Snapshot): Fetch
    requires a.cluster.Some?
  {
    Fetch(a.cluster.value, lists,
          if Hits(shared, forceRefresh, a) then shared[a.cluster.value].expiry - TTL else a.storedAt)
  }

  lemma ListsExplain(fetches: seq<Fetch>, shared: Cache, forceRefresh: bool, a: Attempt, lists: Snapshot, route: Route,
                     r: Answer)
    requires ApiResources(shared, forceRefresh, a).1 == Some(lists) && r == ResolveOn(lists, route)
    requires FetchRead(shared, forceRefresh, a, lists) in fetches
    ensures Explained(fetches, forceRefresh, a, route, r)
  {
    assert From(fetches, FetchRead(shared, forceRefresh, a, lists), forceRefresh, a, route, r);
  }

  /** The snapshot this attempt itself fetched and stored. */
  predicate OwnFetch(f: Fetch, a: Attempt) {
    a.cluster == Some(f.cluster) && a.fetched == Some(f.lists) && a.storedAt == f.at
  }

  /** A snapshot of the attempt's cluster stored less than five minutes before it reads the cache. */
  predicate Fresh(f: Fetch, a: Attempt) { a.cluster == Some(f.cluster) && a.now < f.at + 300_000_000_000 }

  /** The answer was read off this fetch: the attempt's own, or, without a forced
      refresh, a fresh one. */
  ghost predicate From(fetches: seq<Fetch>, f: Fetch, forceRefresh: bool, a: Attempt, route: Route, r: Answer) {
    f in fetches && r == ResolveOn(f.lists, route) && (OwnFetch(f, a) || (!forceRefresh && Fresh(f, a)))
  }

  ghost predicate Explained(fetches: seq<Fetch>, forceRefresh: bool, a: Attempt, route: Route, r: Answer) {
    exists f :: From(fetches, f, forceRefresh, a, route, r)
  }

  lemma FromMeans(fetches: seq<Fetch>, f: Fetch, forceRefresh: bool, a: Attempt, route: Route, r: Answer)
    requires From(fetches, f, forceRefresh, a, route, r) && route.NeedsDiscovery()
    ensures NotFound(r) <==> !Served(f.lists, route)
    ensures r.Success? ==> InSnapshot(f.lists, route, r.value)
  {
    NotFoundIffNotServed(f.lists, route);
    if r.Success? {
      FoundIff(f.lists, route, r.value);
    }
  }

  /** With no fetch failing, the retry answers as an uncached resolution on the second
      snapshot whenever the first, possibly stale, one lacks the kind. */
  lemma RetrySeesTheNewSnapshot(cache: Cache, route: Route, first: Attempt, second: Attempt)
    requires route.NeedsDiscovery() && first.cluster.Some? && second.cluster.Some?
    requires first.fetched.Some? && second.fetched.Some?
    ensures var (after, r) := ResolveTwice(cache, route, first, second);
      var lists := ApiResources(StoreAll(cache, first.others), false, first).1.value;
      if Served(lists, route) then r == ResolveOn(lists, route)
      else
        r == ResolveOn(second.fetched.value, route) && second.cluster.value in after &&
        after[second.cluster.value] == Entry(second.fetched.value, second.storedAt + TTL)
  {
    NotFoundIffNotServed(ApiResources(StoreAll(cache, first.others), false, first).1.value, route);
    ForcedPass(Resolve1(cache, route, false, first).0, route, second);
  }

  lemma ForcedPass(cache: Cache, route: Route, a: Attempt)
    requires route.NeedsDiscovery() && a.cluster.Some? && a.fetched.Some?
    ensures var (after, r) := Resolve1(cache, route, true, a);
      && r == ResolveOn(a.fetched.value, route)
      && a.cluster.value in after && after[a.cluster.value] == Entry(a.fetched.value, a.storedAt + TTL)
  {
  }
}
