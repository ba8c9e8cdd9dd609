/** What two lookups of one cluster name can answer: the one made for a plan, and the
    one made for the request of the change it grants. */
module ClusterDrift {
  import opened Wrappers
  import opened ClusterLookup
  import opened Confirm
  import opened Operations
  import Dispatch
  import opened ChangeHandlers
  import Server = ChangeServer
  import Protocol = ChangeProtocol

  /** A name is cached only along with its ID. */
  ghost predicate Paired(c: Caches) { forall d :: d in c.names ==> c.names[d] in c.ids }

  lemma {:induction false} WalkKeeps(world: World, c: Caches, q: string, i: nat)
    requires Paired(c) && i <= |world|
    ensures var (after, answer) := Walk(world, c, q, i);
      Paired(after) && c.ids <= after.ids && (answer.Success? ==> answer.value in after.ids)
    decreases |world| - i
  {
    if i < |world| {
      WalkKeeps(world, Remember(c, world[i]), q, i + 1);
    }
  }

  /** Whatever the clusters are and whatever fails: no ID is forgotten, an answer is
      cached, and the answer is one that the server model allows. */
  lemma AnswersAreAllowed(world: World, api: Api, c: Caches, q: string)
    requires Paired(c)
    ensures var (after, answer) := Lookup(world, api, c, q);
      && Paired(after) && c.ids <= after.ids
      && (answer.Success? ==> Server.Allowed(c.ids, q, answer.value) && (q == LOCAL || answer.value in after.ids))
  {
    WalkKeeps(world, c, q, 0);
  }

  ghost function LongestOf(words: set<string>): (n: nat)
    ensures forall w :: w in words ==> |w| <= n
  {
    if words == {} then 0
    else
      var w :| w in words;
      |w| + LongestOf(words - {w})
  }

  lemma UnusedName(words: set<string>) returns (z: string)
    ensures z !in words
  {
    z := seq(LongestOf(words) + 1, _ => '-');
  }

  /** All the server model allows can happen: with clusters that some other lookup lists
      in between, any name but "local" and the known IDs answers any ID. */
  lemma AllowedAnswersHappen(c: Caches, q: string, id: string) returns (world: World, other: string)
    requires Server.Allowed(c.ids, q, id)
    ensures WellFormed(world)
    ensures Lookup(world, Works, Lookup(world, Works, c, other).0, q).1 == Success(id)
  {
    world := [Cluster(id, Named(q))];
    if q == LOCAL || q in c.ids {
      other := q;
    } else {
      other := UnusedName(c.ids + c.names.Keys + {LOCAL, id, q});
      assert world[0].id == id && IndexOfId(world, other) == 1;
      assert Walk(world, Remember(c, world[0]), other, 1) == (Remember(c, world[0]), Failure(ClusterNotFound));
      assert Lookup(world, Works, c, other).0 == Remember(c, world[0]);
    }
  }

  /** The caches after a sequence of lookups. */
  function After(world: World, c: Caches, queries: seq<string>): Caches
    decreases |queries|
  {
    if queries == [] then c else After(world, Lookup(world, Works, c, queries[0]).0, queries[1..])
  }

  /** Two lookups of a name that find it agree, whatever is looked up before and between. */
  ghost predicate Stable(world: World) {
    forall before, between, q :: Agree(world, After(world, EMPTY, before), between, q)
  }

  predicate Agree(world: World, c: Caches, between: seq<string>, q: string) {
    var (found, first) := Lookup(world, Works, c, q);
    var second := Lookup(world, Works, After(world, found, between), q).1;
    first.Success? && second.Success? ==> first == second
  }

  lemma {:induction false} AfterIsSound(world: World, c: Caches, queries: seq<string>)
    requires WellFormed(world) && Unambiguous(world) && Sound(world, c)
    ensures Sound(world, After(world, c, queries))
    decreases |queries|
  {
    if queries != [] {
      LookupCorrect(world, Works, c, queries[0]);
      AfterIsSound(world, Lookup(world, Works, c, queries[0]).0, queries[1..]);
    }
  }

  /** While the clusters stay the same, a name keeps its answer when display names are
      unambiguous, and only then. */
  lemma StableIffUnambiguous(world: World)
    requires WellFormed(world)
    ensures Unambiguous(world) ==> Stable(world)
    ensures LocalKeepsItsName(world) && Stable(world) ==> Unambiguous(world)
  {
    if Unambiguous(world) {
      forall before, between, q
        ensures Agree(world, After(world, EMPTY, before), between, q)
      {
        var c := After(world, EMPTY, before);
        AfterIsSound(world, EMPTY, before);
        LookupCorrect(world, Works, c, q);
        AfterIsSound(world, Lookup(world, Works, c, q).0, between);
        LookupCorrect(world, Works, After(world, Lookup(world, Works, c, q).0, between), q);
      }
    } else if LocalKeepsItsName(world) {
      var i, j :| 0 <= i < |world| && 0 <= j < |world| && i != j && NamesAway(world[i]) &&
        !(world[j].displayName != world[i].displayName && world[j].id != world[i].displayName.text);
      AmbiguousDrifts(world, i, j);
    }
  }

  lemma AmbiguousDrifts(world: World, i: nat, j: nat)
    requires WellFormed(world) && LocalKeepsItsName(world) && i < |world| && j < |world| && i != j
    requires NamesAway(world[i])
    requires world[j].displayName == world[i].displayName || world[j].id == world[i].displayName.text
    ensures !Stable(world)
  {
    var d := world[i].displayName.text;
    if world[j].id == d {
      IdAsNameDrifts(world, i, j);
    } else if world[i].id == d {
      IdAsNameDrifts(world, j, i);
    } else {
      SharedNameDrifts(world, i, j);
    }
  }

  lemma OneLookup(world: World, c: Caches, q: string)
    ensures After(world, c, [q]) == Lookup(world, Works, c, q).0
  {
    assert [q][1..] == [];
  }

  /** Once cluster `i` was looked up by its ID, its name answers it, unless that is an ID. */
  lemma NameAfterId(world: World, i: nat)
    requires WellFormed(world) && LocalKeepsItsName(world) && i < |world| && NamesAway(world[i])
    requires world[i].id != world[i].displayName.text
    ensures var c := Caches({world[i].id}, map[world[i].displayName.text := world[i].id]);
      After(world, EMPTY, [world[i].id]) == c &&
      Lookup(world, Works, c, world[i].displayName.text) == (c, Success(world[i].id))
  {
    IdPosition(world, i);
    OneLookup(world, EMPTY, world[i].id);
    assert After(world, EMPTY, [world[i].id]).names == map[world[i].displayName.text := world[i].id];
  }

  /** Two clusters of one name: the last one looked up by its ID is the answer. */
  lemma SharedNameDrifts(world: World, i: nat, j: nat)
    requires WellFormed(world) && LocalKeepsItsName(world) && i < |world| && j < |world| && i != j
    requires NamesAway(world[i]) && world[j].displayName == world[i].displayName
    requires world[i].id != world[i].displayName.text && world[j].id != world[i].displayName.text
    ensures !Stable(world)
  {
    var d := world[i].displayName.text;
    NameAfterId(world, i);
    var c := After(world, EMPTY, [world[i].id]);
    IdPosition(world, j);
    OneLookup(world, c, world[j].id);
    assert world[j].id != world[i].id;
    assert After(world, c, [world[j].id]) == Remember(c, world[j]);
    assert !Agree(world, c, [world[j].id], d);
  }

  /** A walk to the end caches every ID. */
  lemma {:induction false} WalkLists(world: World, c: Caches, q: string, i: nat, j: nat)
    requires WellFormed(world) && i <= |world| && j < |world| && IndexOfName(world, q) == |world|
    requires i <= j || world[j].id in c.ids
    ensures world[j].id in Walk(world, c, q, i).0.ids
    decreases |world| - i
  {
    if i < |world| {
      WalkLists(world, Remember(c, world[i]), q, i + 1, j);
    }
  }

  function Words(world: World): set<string> {
    (set k | 0 <= k < |world| :: world[k].id) +
    (set k | 0 <= k < |world| && world[k].displayName.Named? :: world[k].displayName.text)
  }

  /** A name that is another cluster's ID: once that is listed, it is the answer. */
  lemma IdAsNameDrifts(world: World, i: nat, j: nat)
    requires WellFormed(world) && LocalKeepsItsName(world) && i < |world| && j < |world| && i != j
    requires NamesAway(world[i]) && world[j].id == world[i].displayName.text
    ensures !Stable(world)
  {
    var d := world[i].displayName.text;
    NameAfterId(world, i);
    var c := After(world, EMPTY, [world[i].id]);
    var z := UnusedName(Words(world) + c.ids + c.names.Keys + {LOCAL});
    assert forall k :: 0 <= k < |world| ==> world[k].id in Words(world) && world[k].displayName != Named(z);
    OneLookup(world, c, z);
    WalkLists(world, c, z, 0, j);
    assert !Agree(world, c, [z], d);
  }

  /** The two lookups of one change can part: with two clusters of one name, the plan
      finds the first, somebody looks the second up by its ID, and the request that the
      user approved for the first is sent to the second. */
  lemma ChangeCanDrift(cfg: Config, p: Dispatch.ChangeParams, r: Reads, change: Change, reply: Reply)
    returns (world: World, steps: seq<Server.Step>)
    requires Dispatch.Lookup(p).Some? && r.clusterId == Some("c-1") && Dispatch.Lookup(p) != Some(MoveNs)
    requires ClusterNamed(Dispatch.Lookup(p).value, p) !in {LOCAL, "c-1", "c-2"}
    requires Protocol.Open(cfg, {}, p, r, change, change.Target())
    requires Protocol.Answered(cfg, Dispatch.Lookup(p).value, p, reply)
    ensures var name := ClusterNamed(Dispatch.Lookup(p).value, p);
      var (planned, first) := Lookup(world, Works, EMPTY, name);
      var between := Lookup(world, Works, planned, "c-2").0;
      first == Success("c-1") && Lookup(world, Works, between, name).1 == Success("c-2")
    ensures Protocol.PlansAndMakes(cfg, steps, p, r, change, "c-2")
  {
    var name := ClusterNamed(Dispatch.Lookup(p).value, p);
    world := [Cluster("c-1", Named(name)), Cluster("c-2", Named(name))];
    TwoOfOneName(name);
    steps := Protocol.LandsElsewhere(cfg, p, r, change, "c-2", reply);
  }

  lemma TwoOfOneName(name: string)
    requires name !in {LOCAL, "c-1", "c-2"}
    ensures var world := [Cluster("c-1", Named(name)), Cluster("c-2", Named(name))];
      var (planned, first) := Lookup(world, Works, EMPTY, name);
      var between := Lookup(world, Works, planned, "c-2").0;
      first == Success("c-1") && Lookup(world, Works, between, name).1 == Success("c-2")
  {
    var world := [Cluster("c-1", Named(name)), Cluster("c-2", Named(name))];
    assert IndexOfId(world, name) == 2;
    assert Walk(world, EMPTY, name, 0) == (Remember(EMPTY, world[0]), Success("c-1"));
    assert world[0].id[2] == '1' && world[1].id == "c-2";
    assert IndexOfId(world, "c-2") == 1;
  }
}
