/** Whole runs of the gate: forgetting expired nonces changes no answer, and every
    answer is a function of what happened before. */
module GateHistory {
  import opened Operations
  import opened Confirm

  /** One atomic call with the clock readings it makes, in nanoseconds. */
  datatype Call =
    | Issue(op: Operation, nonce: Nonce, now: int)
    | Present(op: Operation, wire: Wire, checkedAt: int, lockedAt: int)
  {
    function Begins(): int { if Issue? then now else checkedAt }
    function Ends(): int { if Issue? then now else lockedAt }
  }

  datatype Outcome = Issued(wire: Wire) | Checked(verdict: Verdict)

  datatype Memory = Memory(issued: set<TokenBody>, consumed: Consumed)

  function TokenOf(ttl: int, call: Call): TokenBody
    requires call.Issue?
  {
    IssuedBody(call.op, call.nonce, call.now, ttl)
  }

  /** The gate that never forgets a nonce. */
  function RequireForever(m: Memory, c: Call): (Memory, Outcome)
    requires c.Present?
  {
    var v := Precheck(m.issued, c.op, c.wire, Unix(c.checkedAt));
    if v != Accepted then (m, Checked(v))
    else if c.wire.body.nonce in m.consumed then (m, Checked(AlreadyUsed))
    else (m.(consumed := m.consumed[c.wire.body.nonce := c.wire.body.expiry]), Checked(Accepted))
  }

  function Step(ttl: int, forgets: bool, m: Memory, c: Call): (Memory, Outcome) {
    match c
    case Issue(_, _, _) => (m.(issued := m.issued + {TokenOf(ttl, c)}), Issued(Sealed(TokenOf(ttl, c))))
    case Present(op, wire, checkedAt, lockedAt) =>
      if forgets then
        var (after, v) := Require(m.issued, m.consumed, op, wire, checkedAt, lockedAt);
        (m.(consumed := after), Checked(v))
      else RequireForever(m, c)
  }

  /** The gate's memory after the first `n` calls. */
  function After(ttl: int, forgets: bool, calls: seq<Call>, n: nat): Memory
    requires n <= |calls|
  {
    if n == 0 then Memory({}, map[])
    else Step(ttl, forgets, After(ttl, forgets, calls, n - 1), calls[n - 1]).0
  }

  function OutcomeAt(ttl: int, forgets: bool, calls: seq<Call>, i: nat): Outcome
    requires i < |calls|
  {
    Step(ttl, forgets, After(ttl, forgets, calls, i), calls[i]).1
  }

  /** The clock never runs backwards and calls do not overlap. */
  ghost predicate WellTimed(calls: seq<Call>) {
    && (forall i :: 0 <= i < |calls| ==> calls[i].Begins() <= calls[i].Ends())
    && (forall i, j :: 0 <= i < j < |calls| ==> calls[i].Ends() <= calls[j].Begins())
  }

  ghost predicate FreshNonces(calls: seq<Call>) {
    forall i, j :: 0 <= i < j < |calls| && calls[i].Issue? && calls[j].Issue? ==> calls[i].nonce != calls[j].nonce
  }

  ghost predicate Proper(calls: seq<Call>) { WellTimed(calls) && FreshNonces(calls) }

  ghost predicate IssuedAt(ttl: int, calls: seq<Call>, i: nat, body: TokenBody) {
    i < |calls| && calls[i].Issue? && TokenOf(ttl, calls[i]) == body
  }

  /** Call `i` presented `wire` and was accepted. */
  ghost predicate TakenAt(ttl: int, calls: seq<Call>, i: nat, wire: Wire) {
    i < |calls| && calls[i].Present? && calls[i].wire == wire && OutcomeAt(ttl, true, calls, i) == Checked(Accepted)
  }

  ghost predicate IssuedBefore(ttl: int, calls: seq<Call>, n: nat, body: TokenBody) {
    exists i :: 0 <= i < n && IssuedAt(ttl, calls, i, body)
  }

  ghost predicate TakenBefore(ttl: int, calls: seq<Call>, n: nat, wire: Wire) {
    exists i :: 0 <= i < n && TakenAt(ttl, calls, i, wire)
  }

  lemma {:induction false} IssuedIsHistory(ttl: int, forgets: bool, calls: seq<Call>, n: nat, body: TokenBody)
    requires n <= |calls|
    ensures body in After(ttl, forgets, calls, n).issued <==> IssuedBefore(ttl, calls, n, body)
  {
    if n > 0 {
      IssuedIsHistory(ttl, forgets, calls, n - 1, body);
      if IssuedAt(ttl, calls, n - 1, body) {
      } else if IssuedBefore(ttl, calls, n, body) {
        var i :| 0 <= i < n && IssuedAt(ttl, calls, i, body);
        assert i < n - 1;
      }
    }
  }

  /** With fresh nonces, one nonce names one token. */
  lemma NonceNamesToken(ttl: int, forgets: bool, calls: seq<Call>, n: nat, a: TokenBody, b: TokenBody)
    requires n <= |calls| && FreshNonces(calls)
    requires a in After(ttl, forgets, calls, n).issued && b in After(ttl, forgets, calls, n).issued
    requires a.nonce == b.nonce
    ensures a == b
  {
    IssuedIsHistory(ttl, forgets, calls, n, a);
    IssuedIsHistory(ttl, forgets, calls, n, b);
    var i :| 0 <= i < n && IssuedAt(ttl, calls, i, a);
    var j :| 0 <= j < n && IssuedAt(ttl, calls, j, b);
    assert calls[i].nonce == calls[j].nonce;
  }

  /** The simulation: the forgetting gate holds what the other one holds, cut at
      the time of its last sweep. */
  ghost predicate Simulates(small: Memory, full: Memory, swept: int) {
    && small.issued == full.issued
    && small.consumed == Sweep(full.consumed, swept)
    && (forall x :: x in full.consumed ==>
          exists b :: b in full.issued && b.nonce == x && b.expiry == full.consumed[x])
  }

  lemma {:induction false} Simulation(ttl: int, calls: seq<Call>, n: nat, bound: int) returns (swept: int)
    requires n <= |calls| && Proper(calls)
    requires forall i :: 0 <= i < n ==> calls[i].Ends() <= bound
    ensures Simulates(After(ttl, true, calls, n), After(ttl, false, calls, n), swept) && swept <= Unix(bound)
  {
    if n == 0 {
      swept := Unix(bound);
    } else {
      var c := calls[n - 1];
      swept := Simulation(ttl, calls, n - 1, c.Begins());
      SameOutcome(ttl, calls, n - 1, swept);
      UnixMonotone(c.Begins(), c.Ends());
      UnixMonotone(c.Ends(), bound);
      swept := StepSimulates(ttl, After(ttl, true, calls, n - 1), After(ttl, false, calls, n - 1), c, swept);
    }
  }

  /** One call that both gates answer alike keeps the simulation; an acceptance sweeps. */
  lemma StepSimulates(ttl: int, small: Memory, full: Memory, c: Call, before: int) returns (swept: int)
    requires Simulates(small, full, before) && before <= Unix(c.Ends())
    requires Step(ttl, true, small, c).1 == Step(ttl, false, full, c).1
    ensures Simulates(Step(ttl, true, small, c).0, Step(ttl, false, full, c).0, swept)
    ensures before <= swept <= Unix(c.Ends())
    ensures c.Present? && Step(ttl, true, small, c).1 == Checked(Accepted) ==> swept == Unix(c.lockedAt)
  {
    swept := before;
    if c.Present? && Step(ttl, true, small, c).1 == Checked(Accepted) {
      swept := Unix(c.lockedAt);
      assert c.wire.body in full.issued;
    }
  }

  lemma SameOutcome(ttl: int, calls: seq<Call>, i: nat, swept: int)
    requires i < |calls| && Proper(calls)
    requires Simulates(After(ttl, true, calls, i), After(ttl, false, calls, i), swept)
    requires swept <= Unix(calls[i].Begins())
    ensures OutcomeAt(ttl, true, calls, i) == OutcomeAt(ttl, false, calls, i)
  {
    var c := calls[i];
    var full := After(ttl, false, calls, i);
    if c.Present? && Precheck(full.issued, c.op, c.wire, Unix(c.checkedAt)) == Accepted
       && c.wire.body.nonce in full.consumed {
      var b :| b in full.issued && b.nonce == c.wire.body.nonce && b.expiry == full.consumed[b.nonce];
      NonceNamesToken(ttl, false, calls, i, b, c.wire.body);
    }
  }

  /** Refinement: on every run the sweeping gate and the gate that never forgets
      give the same answers, errors included. */
  lemma SweepingRefinesRemembering(ttl: int, calls: seq<Call>, i: nat)
    requires i < |calls| && Proper(calls)
    ensures OutcomeAt(ttl, true, calls, i) == OutcomeAt(ttl, false, calls, i)
  {
    var swept := Simulation(ttl, calls, i, calls[i].Begins());
    SameOutcome(ttl, calls, i, swept);
  }

  /** The tokens accepted by the first `n` calls. */
  ghost function TakenBodies(ttl: int, calls: seq<Call>, n: nat): set<TokenBody>
    requires n <= |calls|
  {
    set i | 0 <= i < n && calls[i].Present? && calls[i].wire.Sealed? &&
            OutcomeAt(ttl, true, calls, i) == Checked(Accepted) :: calls[i].wire.body
  }

  /** A memory as its set of nonces with their expiries. */
  function Held(m: Consumed): set<(Nonce, int)> { set x | x in m :: (x, m[x]) }

  function Entries(bodies: set<TokenBody>): set<(Nonce, int)> { set b | b in bodies :: (b.nonce, b.expiry) }

  lemma TakenBodiesStep(ttl: int, calls: seq<Call>, n: nat)
    requires 0 < n <= |calls|
    ensures var c := calls[n - 1];
      TakenBodies(ttl, calls, n) == TakenBodies(ttl, calls, n - 1) +
        if c.Present? && c.wire.Sealed? && OutcomeAt(ttl, true, calls, n - 1) == Checked(Accepted)
        then {c.wire.body} else {}
  {
  }

  /** The unforgetting memory holds the accepted tokens, with their expiries, and
      nothing else. */
  lemma {:induction false} FullMemoryIsHistory(ttl: int, calls: seq<Call>, n: nat)
    requires n <= |calls| && Proper(calls)
    ensures Held(After(ttl, false, calls, n).consumed) == Entries(TakenBodies(ttl, calls, n))
  {
    if n > 0 {
      FullMemoryIsHistory(ttl, calls, n - 1);
      TakenBodiesStep(ttl, calls, n);
      SweepingRefinesRemembering(ttl, calls, n - 1);
      StepRemembers(ttl, After(ttl, false, calls, n - 1), calls[n - 1], TakenBodies(ttl, calls, n - 1));
    }
  }

  lemma StepRemembers(ttl: int, full: Memory, c: Call, taken: set<TokenBody>)
    requires Held(full.consumed) == Entries(taken)
    ensures Held(Step(ttl, false, full, c).0.consumed) == Entries(
      taken + if c.Present? && c.wire.Sealed? && Step(ttl, false, full, c).1 == Checked(Accepted)
              then {c.wire.body} else {})
  {
    if c.Present? && Step(ttl, false, full, c).1 == Checked(Accepted) {
      EntryAdded(full.consumed, c.wire.body.nonce, c.wire.body.expiry);
      EntriesOfMore(taken, c.wire.body);
    } else {
      assert taken + {} == taken;
    }
  }

  lemma TakenBodyWasTaken(ttl: int, calls: seq<Call>, n: nat, body: TokenBody)
    requires n <= |calls|
    ensures body in TakenBodies(ttl, calls, n) <==> TakenBefore(ttl, calls, n, Sealed(body))
  {
    if i :| 0 <= i < n && TakenAt(ttl, calls, i, Sealed(body)) {
      assert calls[i].wire.body == body;
    }
    if body in TakenBodies(ttl, calls, n) {
      var i :| 0 <= i < n && calls[i].Present? && calls[i].wire.Sealed? &&
        OutcomeAt(ttl, true, calls, i) == Checked(Accepted) && calls[i].wire.body == body;
      assert TakenAt(ttl, calls, i, Sealed(body));
    }
  }

  lemma HeldEntry(m: Consumed, e: (Nonce, int))
    ensures e in Held(m) <==> e.0 in m && m[e.0] == e.1
  {
    if e.0 in m && m[e.0] == e.1 {
      assert e == (e.0, m[e.0]);
    }
  }

  lemma EntryAdded(m: Consumed, nonce: Nonce, expiry: int)
    requires nonce !in m
    ensures Held(m[nonce := expiry]) == Held(m) + {(nonce, expiry)}
  {
    var more := m[nonce := expiry];
    forall e: (Nonce, int)
      ensures e in Held(more) <==> e in Held(m) || e == (nonce, expiry)
    {
      HeldEntry(more, e);
      HeldEntry(m, e);
      assert e == (e.0, e.1);
    }
    assert forall e: (Nonce, int) :: e in Held(m) + {(nonce, expiry)} <==> e in Held(more);
  }

  lemma EntriesOfMore(bodies: set<TokenBody>, body: TokenBody)
    ensures Entries(bodies + {body}) == Entries(bodies) + {(body.nonce, body.expiry)}
  {
  }

  lemma SweepKeepsTheLive(m: Consumed, bodies: set<TokenBody>, now: int)
    requires Held(m) == Entries(bodies)
    ensures Held(Sweep(m, now)) == Entries(set b | b in bodies && b.expiry >= now)
  {
    var live := set b | b in bodies && b.expiry >= now;
    forall e | e in Held(Sweep(m, now))
      ensures e in Entries(live)
    {
      HeldEntry(m, e);
      HeldEntry(Sweep(m, now), e);
      var b :| b in bodies && (b.nonce, b.expiry) == e;
      assert b in live;
    }
    forall e | e in Entries(live)
      ensures e in Held(Sweep(m, now))
    {
      assert e in Entries(bodies);
      HeldEntry(m, e);
      HeldEntry(Sweep(m, now), e);
    }
  }

  /** A token is in the unforgetting memory exactly when the run has accepted it. */
  lemma ConsumedIsHistory(ttl: int, calls: seq<Call>, n: nat, wire: Wire)
    requires n <= |calls| && Proper(calls)
    requires wire.Sealed? && wire.body in After(ttl, false, calls, n).issued
    ensures wire.body.nonce in After(ttl, false, calls, n).consumed <==> TakenBefore(ttl, calls, n, wire)
    ensures wire.body.nonce in After(ttl, false, calls, n).consumed ==>
      After(ttl, false, calls, n).consumed[wire.body.nonce] == wire.body.expiry
  {
    var consumed, body := After(ttl, false, calls, n).consumed, wire.body;
    FullMemoryIsHistory(ttl, calls, n);
    TakenBodyWasTaken(ttl, calls, n, body);
    assert body in TakenBodies(ttl, calls, n) ==> (body.nonce, body.expiry) in Held(consumed);
    if body.nonce in consumed {
      assert (body.nonce, consumed[body.nonce]) in Held(consumed);
      var b :| b in TakenBodies(ttl, calls, n) && (b.nonce, b.expiry) == (body.nonce, consumed[body.nonce]);
      TakenBodyWasTaken(ttl, calls, n, b);
      TakenBodyWasIssued(ttl, calls, n, b);
      NonceNamesToken(ttl, false, calls, n, b, body);
    }
  }

  lemma TakenBodyWasIssued(ttl: int, calls: seq<Call>, n: nat, body: TokenBody)
    requires n <= |calls| && TakenBefore(ttl, calls, n, Sealed(body))
    ensures body in After(ttl, false, calls, n).issued
  {
    var i :| 0 <= i < n && TakenAt(ttl, calls, i, Sealed(body));
    TakenWasIssued(ttl, calls, i, n, Sealed(body));
  }

  lemma TakenWasIssued(ttl: int, calls: seq<Call>, i: nat, n: nat, wire: Wire)
    requires i < n <= |calls| && TakenAt(ttl, calls, i, wire)
    ensures wire.Sealed? && wire.body in After(ttl, false, calls, n).issued
  {
    IssuedIsHistory(ttl, true, calls, i, wire.body);
    var k :| 0 <= k < i && IssuedAt(ttl, calls, k, wire.body);
    IssuedIsHistory(ttl, false, calls, n, wire.body);
  }

  /** What a caller should be told, read off the history alone. */
  ghost function HistoryVerdict(ttl: int, calls: seq<Call>, k: nat): Verdict
    requires k < |calls| && calls[k].Present?
  {
    var c := calls[k];
    if !c.wire.Sealed? || !IssuedBefore(ttl, calls, k, c.wire.body) then Invalid
    else if Unix(c.checkedAt) > c.wire.body.expiry then Expired
    else if !Matches(c.wire.body, c.op) then Mismatch
    else if TakenBefore(ttl, calls, k, c.wire) then AlreadyUsed
    else Accepted
  }

  /** Every answer of the sweeping gate is the one its whole history calls for. In
      particular an unexpired token that was planned for this operation and never
      accepted is accepted. */
  lemma VerdictFromHistory(ttl: int, calls: seq<Call>, k: nat)
    requires k < |calls| && Proper(calls) && calls[k].Present?
    ensures OutcomeAt(ttl, true, calls, k) == Checked(HistoryVerdict(ttl, calls, k))
  {
    var c := calls[k];
    SweepingRefinesRemembering(ttl, calls, k);
    if c.wire.Sealed? {
      IssuedIsHistory(ttl, false, calls, k, c.wire.body);
      if IssuedBefore(ttl, calls, k, c.wire.body) {
        ConsumedIsHistory(ttl, calls, k, c.wire);
      }
    }
  }

  /** Call `k` presents a token that no call before it was accepted with. */
  ghost predicate FirstUse(ttl: int, calls: seq<Call>, k: nat) {
    && k < |calls| && calls[k].Present?
    && forall j :: 0 <= j < k && calls[j].Present? && calls[j].wire == calls[k].wire ==>
         OutcomeAt(ttl, true, calls, j) != Checked(Accepted)
  }

  /** A token lives for its lifetime: what one call was handed, first used by a later
      call for its own operation, is accepted up to the second that the time of issue
      plus the lifetime falls into, and has expired after that. */
  lemma TokenLivesItsLifetime(ttl: int, calls: seq<Call>, i: nat, k: nat)
    requires Proper(calls) && i < k && FirstUse(ttl, calls, k)
    requires calls[i].Issue? && OutcomeAt(ttl, true, calls, i) == Issued(calls[k].wire) && calls[k].op == calls[i].op
    ensures OutcomeAt(ttl, true, calls, k) == Checked(
      if calls[k].checkedAt / 1_000_000_000 > (calls[i].now + ttl) / 1_000_000_000 then Expired else Accepted)
  {
    VerdictFromHistory(ttl, calls, k);
    assert IssuedAt(ttl, calls, i, calls[k].wire.body);
    assert !TakenBefore(ttl, calls, k, calls[k].wire);
    MatchesOnlyItsOperation(calls[i].op, calls[i].nonce, calls[k].wire.body.expiry, calls[k].op);
  }

  lemma SingleUse(ttl: int, calls: seq<Call>, i: nat, j: nat, wire: Wire)
    requires Proper(calls) && TakenAt(ttl, calls, i, wire) && TakenAt(ttl, calls, j, wire)
    ensures i == j
  {
    if i < j {
      VerdictFromHistory(ttl, calls, j);
    } else if j < i {
      VerdictFromHistory(ttl, calls, i);
    }
  }

  /** Right after an acceptance the gate's whole memory is the accepted tokens that have
      not expired at the sweep, each with its expiry. */
  lemma RemembersExactlyTheLive(ttl: int, calls: seq<Call>, k: nat)
    requires k < |calls| && Proper(calls) && OutcomeAt(ttl, true, calls, k) == Checked(Accepted)
    ensures Held(After(ttl, true, calls, k + 1).consumed) ==
      Entries(set b | b in TakenBodies(ttl, calls, k + 1) && b.expiry >= Unix(calls[k].lockedAt))
  {
    SweptAtAcceptance(ttl, calls, k);
    FullMemoryIsHistory(ttl, calls, k + 1);
    var full := After(ttl, false, calls, k + 1).consumed;
    SweepKeepsTheLive(full, TakenBodies(ttl, calls, k + 1), Unix(calls[k].lockedAt));
  }

  /** An acceptance leaves the unforgetting memory cut at its own sweep. */
  lemma SweptAtAcceptance(ttl: int, calls: seq<Call>, k: nat)
    requires k < |calls| && Proper(calls) && OutcomeAt(ttl, true, calls, k) == Checked(Accepted)
    ensures calls[k].Present?
    ensures After(ttl, true, calls, k + 1).consumed ==
      Sweep(After(ttl, false, calls, k + 1).consumed, Unix(calls[k].lockedAt))
  {
    var before := Simulation(ttl, calls, k, calls[k].Begins());
    SameOutcome(ttl, calls, k, before);
    UnixMonotone(calls[k].Begins(), calls[k].Ends());
    var _ := StepSimulates(ttl, After(ttl, true, calls, k), After(ttl, false, calls, k), calls[k], before);
  }
}
