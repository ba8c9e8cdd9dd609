/** GetClusterID: a cluster is looked up by ID or display name through two caches. */
module ClusterLookup {
  import opened Search
  import opened Wrappers

  datatype DisplayName = Absent | Named(text: string) | Malformed

  datatype Cluster = Cluster(id: string, displayName: DisplayName)

  /** The management clusters, in the order the API lists them. */
  type World = seq<Cluster>

  datatype LookupError = ClusterNotFound | BadDisplayName | ApiFailed

  type Answer = Result<string, LookupError>

  /** Which API request fails, if any. */
  datatype Api = Works | InterfaceFails | GetFails | ListFails

  datatype Caches = Caches(ids: set<string>, names: map<string, string>)

  const EMPTY := Caches({}, map[])
  const LOCAL := "local"

  function IndexOfId(world: World, id: string): (i: nat)
    ensures i <= |world|
    ensures i < |world| ==> world[i].id == id
    ensures forall j :: 0 <= j < i ==> world[j].id != id
  {
    FirstWhere(world, (k: Cluster) => k.id == id)
  }

  function Remember(c: Caches, k: Cluster): Caches {
    Caches(c.ids + {k.id}, if k.displayName.Named? then c.names[k.displayName.text := k.id] else c.names)
  }

  /** The list loop from position `i`: it fills the caches up to the match. */
  function Walk(world: World, c: Caches, q: string, i: nat): (Caches, Answer)
    requires i <= |world|
    decreases |world| - i
  {
    if i == |world| then (c, Failure(ClusterNotFound))
    else
      var after := Remember(c, world[i]);
      match world[i].displayName
      case Malformed => (after, Failure(BadDisplayName))
      case Absent => Walk(world, after, q, i + 1)
      case Named(d) => if d == q then (after, Success(world[i].id)) else Walk(world, after, q, i + 1)
  }

  function Lookup(world: World, api: Api, c: Caches, q: string): (Caches, Answer) {
    if q == LOCAL then (c, Success(LOCAL))
    else if q in c.ids then (c, Success(q))
    else if q in c.names then (c, Success(c.names[q]))
    else if api.InterfaceFails? || api.GetFails? then (c, Failure(ApiFailed))
    else
      var k := IndexOfId(world, q);
      if k < |world| then
        var after := Remember(c, world[k]);
        (after, if world[k].displayName.Malformed? then Failure(BadDisplayName) else Success(q))
      else if api.ListFails? then (c, Failure(ApiFailed))
      else Walk(world, c, q, 0)
  }

  /** The process-wide caches of the client. */
  class ClusterIds {
    var ids: set<string>
    var names: map<string, string>

    function State(): Caches
      reads this
    {
      Caches(ids, names)
    }

    constructor ()
      ensures State() == EMPTY
    {
      ids, names := {}, map[];
    }

    method GetClusterID(world: World, api: Api, q: string) returns (r: Answer)
      modifies this
      ensures (State(), r) == Lookup(world, api, old(State()), q)
    {
      if q == LOCAL {
        return Success(LOCAL);
      }
      if q in ids {
        return Success(q);
      }
      if q in names {
        return Success(names[q]);
      }
      if api.InterfaceFails? || api.GetFails? {
        return Failure(ApiFailed);
      }
      var k := IndexOfId(world, q);
      if k == |world| {
        if api.ListFails? {
          return Failure(ApiFailed);
        }
        for i := 0 to |world|
          invariant Walk(world, old(State()), q, 0) == Walk(world, State(), q, i)
        {
          var cluster := world[i];
          ids := ids + {cluster.id};
          if cluster.displayName.Malformed? {
            return Failure(BadDisplayName);
          }
          if cluster.displayName.Named? {
            names := names[cluster.displayName.text := cluster.id];
            if cluster.displayName.text == q {
              return Success(cluster.id);
            }
          }
        }
        return Failure(ClusterNotFound);
      }
      ids := ids + {q};
      if world[k].displayName.Malformed? {
        return Failure(BadDisplayName);
      }
      if world[k].displayName.Named? {
        names := names[world[k].displayName.text := q];
      }
      r := Success(q);
    }
  }

  function IndexOfName(world: World, q: string): (i: nat)
    ensures i <= |world|
    ensures i < |world| ==> world[i].displayName == Named(q)
    ensures forall j :: 0 <= j < i ==> world[j].displayName != Named(q)
  {
    FirstWhere(world, (k: Cluster) => k.displayName == Named(q))
  }

  /** The lookup without caches: "local", then by ID, then by display name. */
  function Reference(world: World, q: string): Answer {
    if q == LOCAL then Success(LOCAL)
    else if IndexOfId(world, q) < |world| then Success(q)
    else
      var i := IndexOfName(world, q);
      if i < |world| then Success(world[i].id) else Failure(ClusterNotFound)
  }

  /** IDs are unique and display names are well formed. */
  ghost predicate WellFormed(world: World) {
    && (forall i, j :: 0 <= i < j < |world| ==> world[i].id != world[j].id)
    && (forall i :: 0 <= i < |world| ==> !world[i].displayName.Malformed?)
  }

  /** The local cluster is known as "local" by name too, if it is named at all. */
  ghost predicate LocalKeepsItsName(world: World) {
    forall i :: 0 <= i < |world| && world[i].id == LOCAL ==> !NamesAway(world[i])
  }

  predicate NamesAway(k: Cluster) { k.displayName.Named? && k.displayName.text != LOCAL }

  /** No display name, "local" aside, is also the name or the ID of another cluster. */
  ghost predicate Unambiguous(world: World) {
    forall i, j | 0 <= i < |world| && 0 <= j < |world| && i != j && NamesAway(world[i]) ::
      world[j].displayName != world[i].displayName && world[j].id != world[i].displayName.text
  }

  /** Every cached fact is a fact about the world. */
  ghost predicate Sound(world: World, c: Caches) {
    && (forall id :: id in c.ids ==> IndexOfId(world, id) < |world|)
    && (forall d :: d in c.names ==> IsNamed(world, d, c.names[d]))
  }

  ghost predicate IsNamed(world: World, d: string, id: string) {
    exists i :: 0 <= i < |world| && world[i] == Cluster(id, Named(d))
  }

  lemma IdPosition(world: World, i: nat)
    requires WellFormed(world) && i < |world|
    ensures IndexOfId(world, world[i].id) == i
  {
    var k := IndexOfId(world, world[i].id);
    assert k <= i;
  }

  lemma RememberSound(world: World, c: Caches, i: nat)
    requires WellFormed(world) && Sound(world, c) && i < |world|
    ensures Sound(world, Remember(c, world[i]))
  {
    IdPosition(world, i);
    var after := Remember(c, world[i]);
    forall d | d in after.names
      ensures IsNamed(world, d, after.names[d])
    {
      if world[i].displayName == Named(d) {
        assert world[i] == Cluster(after.names[d], Named(d));
      }
    }
  }

  /** The walk answers with the first cluster of that name, and leaves sound caches. */
  lemma {:induction false} WalkFinds(world: World, c: Caches, q: string, i: nat)
    requires WellFormed(world) && Sound(world, c) && i <= IndexOfName(world, q)
    ensures Sound(world, Walk(world, c, q, i).0)
    ensures var k := IndexOfName(world, q);
      Walk(world, c, q, i).1 == if k < |world| then Success(world[k].id) else Failure(ClusterNotFound)
    decreases |world| - i
  {
    if i < |world| {
      RememberSound(world, c, i);
      if i < IndexOfName(world, q) {
        WalkFinds(world, Remember(c, world[i]), q, i + 1);
      }
    }
  }

  /** Under any failures the caches stay sound, and a lookup answers as the reference
      does or reports the failure. */
  lemma LookupCorrect(world: World, api: Api, c: Caches, q: string)
    requires WellFormed(world) && Unambiguous(world) && Sound(world, c)
    ensures var (after, answer) := Lookup(world, api, c, q);
      && Sound(world, after)
      && (answer == Reference(world, q) || (!api.Works? && answer == Failure(ApiFailed)))
  {
    if q == LOCAL || q in c.ids {
    } else if q in c.names {
      var i :| 0 <= i < |world| && world[i] == Cluster(c.names[q], Named(q));
      NamedIsReference(world, i);
    } else if IndexOfId(world, q) < |world| {
      RememberSound(world, c, IndexOfId(world, q));
    } else {
      WalkFinds(world, c, q, 0);
    }
  }

  lemma NamedIsReference(world: World, i: nat)
    requires WellFormed(world) && Unambiguous(world) && i < |world|
    requires NamesAway(world[i])
    ensures Reference(world, world[i].displayName.text) == Success(world[i].id)
  {
    var d := world[i].displayName.text;
    var k := IndexOfId(world, d);
    if k < |world| {
      assert k == i;
    } else {
      var n := IndexOfName(world, d);
      assert n == i;
    }
  }

  /** The answers to a sequence of lookups, with working API requests. */
  function Answers(world: World, c: Caches, queries: seq<string>): seq<Answer>
    decreases |queries|
  {
    if queries == [] then []
    else
      var (after, answer) := Lookup(world, Works, c, queries[0]);
      [answer] + Answers(world, after, queries[1..])
  }

  function References(world: World, queries: seq<string>): seq<Answer> {
    if queries == [] then [] else [Reference(world, queries[0])] + References(world, queries[1..])
  }

  /** No sequence of lookups can tell that there are caches. */
  ghost predicate Transparent(world: World) {
    forall queries :: Answers(world, EMPTY, queries) == References(world, queries)
  }

  lemma {:induction false} UnambiguousAnswers(world: World, c: Caches, queries: seq<string>)
    requires WellFormed(world) && Unambiguous(world) && Sound(world, c)
    ensures Answers(world, c, queries) == References(world, queries)
    decreases |queries|
  {
    if queries != [] {
      LookupCorrect(world, Works, c, queries[0]);
      UnambiguousAnswers(world, Lookup(world, Works, c, queries[0]).0, queries[1..]);
    }
  }

  /** A name whose reference is another cluster can be made to answer wrongly. */
  lemma MisnamedIsVisible(world: World, i: nat)
    requires WellFormed(world) && LocalKeepsItsName(world) && i < |world| && NamesAway(world[i])
    requires Reference(world, world[i].displayName.text) != Success(world[i].id)
    ensures !Transparent(world)
  {
    var d := world[i].displayName.text;
    var queries := [world[i].id, d];
    IdPosition(world, i);
    var (c, first) := Lookup(world, Works, EMPTY, world[i].id);
    assert d != world[i].id;
    assert c.names[d] == world[i].id && d !in c.ids;
    assert queries[1..] == [d];
    assert Answers(world, EMPTY, queries) == [first] + Answers(world, c, [d]);
    assert Answers(world, c, [d])[0] == Success(world[i].id);
    assert References(world, queries) == [Reference(world, world[i].id)] + References(world, [d]);
    assert References(world, [d])[0] == Reference(world, d);
    assert Answers(world, EMPTY, queries)[1] != References(world, queries)[1];
  }

  lemma AmbiguousIsVisible(world: World, i: nat, j: nat)
    requires WellFormed(world) && LocalKeepsItsName(world) && i < |world| && j < |world| && i != j
    requires NamesAway(world[i])
    requires world[j].displayName == world[i].displayName || world[j].id == world[i].displayName.text
    ensures !Transparent(world)
  {
    var d := world[i].displayName.text;
    if Reference(world, d) == Success(world[i].id) {
      if world[j].id == d {
        IdPosition(world, j);
      } else {
        MisnamedIsVisible(world, j);
      }
    } else {
      MisnamedIsVisible(world, i);
    }
  }

  /** The caches are invisible, for every sequence of lookups, when display names are
      unambiguous, and only then. */
  lemma TransparentIffUnambiguous(world: World)
    requires WellFormed(world)
    ensures Unambiguous(world) ==> Transparent(world)
    ensures LocalKeepsItsName(world) && Transparent(world) ==> Unambiguous(world)
  {
    if Unambiguous(world) {
      forall queries
        ensures Answers(world, EMPTY, queries) == References(world, queries)
      {
        UnambiguousAnswers(world, EMPTY, queries);
      }
    } else if LocalKeepsItsName(world) {
      var i, j :| 0 <= i < |world| && 0 <= j < |world| && i != j && NamesAway(world[i]) &&
        !(world[j].displayName != world[i].displayName && world[j].id != world[i].displayName.text);
      AmbiguousIsVisible(world, i, j);
    }
  }
}
