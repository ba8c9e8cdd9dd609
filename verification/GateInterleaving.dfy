/** Concurrent token checks. The expiry test and the locked section read the clock
    separately, so other callers can run between them. */
module GateInterleaving {
  import opened Operations
  import opened Confirm

  /** `at` is the clock, in seconds, of the locked section that accepted the body. */
  datatype Acceptance = Acceptance(body: TokenBody, at: int)

  /** The shared gate and the history of its acceptances. */
  datatype Core = Core(clock: int, issued: set<TokenBody>, consumed: Consumed, accepts: seq<Acceptance>)
  {
    function Now(): int { Unix(clock) }

    function Advance(to: int): Core { this.(clock := to) }

    function Sign(body: TokenBody): Core { this.(issued := issued + {body}) }

    function Lock(body: TokenBody): (Core, Verdict) {
      var (after, v) := LockedSection(consumed, body, Now());
      (this.(consumed := after, accepts := if v == Accepted then accepts + [Acceptance(body, Now())] else accepts), v)
    }

    ghost predicate Taken(body: TokenBody) { exists i :: 0 <= i < |accepts| && accepts[i].body == body }

    /** The body was accepted, and no acceptance since came after its expiry. */
    ghost predicate Remembered(body: TokenBody) {
      Taken(body) && accepts[|accepts| - 1].at <= body.expiry
    }

    ghost predicate Fresh(nonce: Nonce) { forall b :: b in issued ==> b.nonce != nonce }

    ghost predicate InOrder() {
      && (forall i :: 0 <= i < |accepts| ==> accepts[i].body in issued && accepts[i].at <= Now())
      && (forall i, j :: 0 <= i < j < |accepts| ==> accepts[i].at <= accepts[j].at)
    }

    /** One nonce names one body, and only issued nonces are held. */
    ghost predicate NoncesUnique() {
      && (forall a, b :: a in issued && b in issued && a.nonce == b.nonce ==> a == b)
      && consumed.Keys <= set b | b in issued :: b.nonce
    }

    /** The memory holds exactly the bodies the history still remembers. */
    ghost predicate Exact() { forall b :: b in issued ==> (b.nonce in consumed <==> Remembered(b)) }

    ghost predicate Expiries() { forall b :: b in issued && b.nonce in consumed ==> consumed[b.nonce] == b.expiry }

    /** Of two acceptances of one body the later one came after its expiry. */
    ghost predicate OnceInTime() {
      forall i, j :: 0 <= i < j < |accepts| && accepts[i].body == accepts[j].body ==>
        accepts[j].at > accepts[j].body.expiry
    }

    ghost predicate Inv() { InOrder() && NoncesUnique() && Exact() && Expiries() && OnceInTime() }
  }

  lemma AdvanceKeeps(c: Core, to: int)
    requires c.Inv() && c.clock <= to
    ensures c.Advance(to).Inv()
  {
    UnixMonotone(c.clock, to);
    var d := c.Advance(to);
    assert forall b :: d.Remembered(b) <==> c.Remembered(b);
  }

  lemma SignKeeps(c: Core, body: TokenBody)
    requires c.Inv() && c.Fresh(body.nonce)
    ensures c.Sign(body).Inv()
  {
    var d := c.Sign(body);
    assert forall b :: d.Remembered(b) <==> c.Remembered(b);
    assert body.nonce !in c.consumed;
    assert d.NoncesUnique();
    assert d.Exact() by {
      assert !d.Remembered(body);
    }
  }

  lemma LockExact(c: Core, body: TokenBody)
    requires c.Inv() && body in c.issued && c.Lock(body).1 == Accepted
    ensures c.Lock(body).0.Exact() && c.Lock(body).0.Expiries()
  {
    var d := c.Lock(body).0;
    forall b | b in d.issued
      ensures b.nonce in d.consumed <==> d.Remembered(b)
    {
      LockTaken(c, body, b);
    }
  }

  lemma LockTaken(c: Core, body: TokenBody, b: TokenBody)
    requires c.Lock(body).1 == Accepted
    ensures c.Lock(body).0.Taken(b) <==> b == body || c.Taken(b)
  {
    var d := c.Lock(body).0;
    assert d.accepts[|c.accepts|].body == body;
    if c.Taken(b) {
      var i :| 0 <= i < |c.accepts| && c.accepts[i].body == b;
      assert d.accepts[i].body == b;
    }
  }

  lemma LockOnceInTime(c: Core, body: TokenBody)
    requires c.Inv() && body in c.issued && c.Lock(body).1 == Accepted
    ensures c.Lock(body).0.OnceInTime()
  {
    forall i | 0 <= i < |c.accepts| && c.accepts[i].body == body
      ensures c.Now() > body.expiry
    {
      assert !c.Remembered(body);
      assert c.accepts[|c.accepts| - 1].at > body.expiry;
    }
  }

  lemma LockKeeps(c: Core, body: TokenBody)
    requires c.Inv() && body in c.issued
    ensures c.Lock(body).0.Inv()
  {
    if c.Lock(body).1 == Accepted {
      LockExact(c, body);
      LockOnceInTime(c, body);
    }
  }

  /** Exactly when the locked section refuses a body: it was accepted, and every
      acceptance since then came no later than its expiry. */
  lemma LockedVerdict(c: Core, body: TokenBody)
    requires c.Inv() && body in c.issued
    ensures c.Lock(body).1 == AlreadyUsed <==> c.Remembered(body)
    ensures c.Lock(body).1 == Accepted <==> !c.Remembered(body)
  {
  }

  type Caller = nat

  /** Callers that passed the checks before the lock, and wait for the lock. */
  datatype State = State(core: Core, waiting: map<Caller, TokenBody>)

  datatype Step =
    | Advance(to: int)
    | Issue(op: Operation, nonce: Nonce)
    | Enter(caller: Caller, op: Operation, wire: Wire)
    | Lock(caller: Caller)

  ghost predicate Enabled(s: State, step: Step) {
    match step
    case Advance(to) => s.core.clock <= to
    case Issue(_, nonce) => s.core.Fresh(nonce)
    case Enter(caller, _, _) => caller !in s.waiting
    case Lock(caller) => caller in s.waiting
  }

  ghost function Next(ttl: int, s: State, step: Step): State
    requires Enabled(s, step)
  {
    match step
    case Advance(to) => s.(core := s.core.Advance(to))
    case Issue(op, nonce) => s.(core := s.core.Sign(IssuedBody(op, nonce, s.core.clock, ttl)))
    case Enter(caller, op, wire) =>
      if Precheck(s.core.issued, op, wire, s.core.Now()) == Accepted
      then s.(waiting := s.waiting[caller := wire.body])
      else s
    case Lock(caller) => State(s.core.Lock(s.waiting[caller]).0, s.waiting - {caller})
  }

  const START := State(Core(0, {}, map[], []), map[])

  /** A run takes the steps in order; a step that is not enabled changes nothing. */
  ghost function Run(ttl: int, steps: seq<Step>): State {
    if steps == [] then START
    else
      var s := Run(ttl, steps[..|steps| - 1]);
      var step := steps[|steps| - 1];
      if Enabled(s, step) then Next(ttl, s, step) else s
  }

  ghost predicate Inv(s: State) {
    && s.core.Inv()
    && (forall c :: c in s.waiting ==> s.waiting[c] in s.core.issued)
  }

  lemma NextKeeps(ttl: int, s: State, step: Step)
    requires Inv(s) && Enabled(s, step)
    ensures Inv(Next(ttl, s, step))
  {
    match step
    case Advance(to) => AdvanceKeeps(s.core, to);
    case Issue(op, nonce) => IssueKeeps(ttl, s, op, nonce);
    case Enter(_, _, _) =>
    case Lock(caller) => LockKeeps(s.core, s.waiting[caller]);
  }

  lemma IssueKeeps(ttl: int, s: State, op: Operation, nonce: Nonce)
    requires Inv(s) && s.core.Fresh(nonce)
    ensures Inv(Next(ttl, s, Issue(op, nonce)))
  {
    var body := IssuedBody(op, nonce, s.core.clock, ttl);
    SignKeeps(s.core, body);
    assert Next(ttl, s, Issue(op, nonce)) == State(s.core.Sign(body), s.waiting);
  }

  lemma {:induction false} RunKeeps(ttl: int, steps: seq<Step>)
    ensures Inv(Run(ttl, steps))
  {
    if steps != [] {
      RunKeeps(ttl, steps[..|steps| - 1]);
      var s := Run(ttl, steps[..|steps| - 1]);
      var step := steps[|steps| - 1];
      if Enabled(s, step) {
        NextKeeps(ttl, s, step);
      }
    }
  }

  lemma {:induction false} IssuedKept(ttl: int, steps: seq<Step>, n: nat)
    requires n <= |steps|
    ensures Run(ttl, steps[..n]).core.issued <= Run(ttl, steps).core.issued
  {
    if n == |steps| {
      assert steps[..n] == steps;
    } else {
      var before := steps[..|steps| - 1];
      IssuedKept(ttl, before, n);
      assert before[..n] == steps[..n];
    }
  }

  /** A token lives for its lifetime, whatever happens in between: a caller with the token
      that step `n` issued passes the checks exactly up to the second that the time of
      issue plus the lifetime falls into. */
  lemma TokenLivesItsLifetime(ttl: int, steps: seq<Step>, n: nat, caller: Caller, body: TokenBody)
    requires n < |steps| && steps[n].Issue? && Enabled(Run(ttl, steps[..n]), steps[n])
    requires body in Run(ttl, steps).core.issued && body.nonce == steps[n].nonce
    requires Enabled(Run(ttl, steps), Enter(caller, steps[n].op, Sealed(body)))
    ensures var issued, s := Run(ttl, steps[..n]), Run(ttl, steps);
      caller in Next(ttl, s, Enter(caller, steps[n].op, Sealed(body))).waiting <==>
      s.core.clock / 1_000_000_000 <= (issued.core.clock + ttl) / 1_000_000_000
  {
    var s := Run(ttl, steps[..n]);
    var own := IssuedBody(steps[n].op, steps[n].nonce, s.core.clock, ttl);
    assert steps[..n + 1] == steps[..n] + [steps[n]];
    RunSnoc(ttl, steps[..n], steps[n]);
    IssuedKept(ttl, steps, n + 1);
    RunKeeps(ttl, steps);
    assert own in Run(ttl, steps).core.issued;
    MatchesOnlyItsOperation(steps[n].op, own.nonce, own.expiry, steps[n].op);
  }

  /** For any number of callers and any interleaving: of all acceptances of one
      token, at most one ran its locked section by the token's expiry, the first. */
  lemma AtMostOneAcceptanceInTime(ttl: int, steps: seq<Step>, i: nat, j: nat)
    requires var accepts := Run(ttl, steps).core.accepts;
      i < j < |accepts| && accepts[i].body == accepts[j].body
    ensures var accepts := Run(ttl, steps).core.accepts; accepts[j].at > accepts[j].body.expiry
  {
    RunKeeps(ttl, steps);
  }

  /** Single use exactly when the clock has not passed the expiry: after a run, a
      waiting caller whose token was already accepted is accepted again if and only
      if some acceptance since then came after the expiry. */
  lemma SecondAcceptance(ttl: int, steps: seq<Step>, caller: Caller, i: nat)
    requires var s := Run(ttl, steps);
      caller in s.waiting && i < |s.core.accepts| && s.core.accepts[i].body == s.waiting[caller]
    ensures var s := Run(ttl, steps);
      s.core.Lock(s.waiting[caller]).1 == Accepted <==>
      exists k :: i <= k < |s.core.accepts| && s.core.accepts[k].at > s.waiting[caller].expiry
  {
    RunKeeps(ttl, steps);
    var s := Run(ttl, steps);
    LockedVerdict(s.core, s.waiting[caller]);
    ForgottenIff(s.core, s.waiting[caller], i);
  }

  /** A body accepted at `i` is forgotten when an acceptance since came after its expiry. */
  lemma ForgottenIff(c: Core, body: TokenBody, i: nat)
    requires c.InOrder() && i < |c.accepts| && c.accepts[i].body == body
    ensures !c.Remembered(body) <==> exists k :: i <= k < |c.accepts| && c.accepts[k].at > body.expiry
  {
    assert i <= |c.accepts| - 1;
  }

  lemma RunSnoc(ttl: int, steps: seq<Step>, step: Step)
    requires Enabled(Run(ttl, steps), step)
    ensures Run(ttl, steps + [step]) == Next(ttl, Run(ttl, steps), step)
  {
    assert (steps + [step])[..|steps|] == steps;
  }

  /** Two tokens of one age; two callers waiting with the first, one with the second. */
  lemma ThreeWait(op: Operation, other: Operation) returns (steps: seq<Step>)
    ensures var a, b := Bind(op, 0, 600), Bind(other, 1, 600);
      Run(600 * SECOND, steps) == State(Core(0, {a, b}, map[], []), map[1 := a, 2 := a, 3 := b])
  {
    var ttl := 600 * SECOND;
    var a, b := Bind(op, 0, 600), Bind(other, 1, 600);
    var s1 := [Issue(op, 0)];
    var s2 := s1 + [Issue(other, 1)];
    var s3 := s2 + [Enter(1, op, Sealed(a))];
    var s4 := s3 + [Enter(2, op, Sealed(a))];
    assert Run(ttl, []) == START && [] + s1 == s1;
    RunSnoc(ttl, [], Issue(op, 0));
    assert Run(ttl, s1) == State(Core(0, {a}, map[], []), map[]);
    RunSnoc(ttl, s1, Issue(other, 1));
    assert Run(ttl, s2) == State(Core(0, {a, b}, map[], []), map[]);
    RunSnoc(ttl, s2, Enter(1, op, Sealed(a)));
    RunSnoc(ttl, s3, Enter(2, op, Sealed(a)));
    RunSnoc(ttl, s4, Enter(3, other, Sealed(b)));
    steps := s4 + [Enter(3, other, Sealed(b))];
  }

  lemma RunTo(ttl: int, steps: seq<Step>, s: State, step: Step, t: State)
    requires Run(ttl, steps) == s && Enabled(s, step) && Next(ttl, s, step) == t
    ensures Run(ttl, steps + [step]) == t
  {
    RunSnoc(ttl, steps, step);
  }

  /** The first token is accepted at 100 seconds; the second, at 601, sweeps it. */
  lemma SweptByAnother(a: TokenBody, b: TokenBody)
    requires a.nonce != b.nonce && a.expiry == b.expiry == 600
    ensures var once := Core(100 * SECOND, {a, b}, map[a.nonce := 600], [Acceptance(a, 100)]);
      var swept := Core(601 * SECOND, {a, b}, map[], [Acceptance(a, 100), Acceptance(b, 601)]);
      && Core(100 * SECOND, {a, b}, map[], []).Lock(a).0 == once
      && once.Advance(601 * SECOND).Lock(b).0 == swept
      && swept.Lock(a).0.accepts == [Acceptance(a, 100), Acceptance(b, 601), Acceptance(a, 601)]
  {
  }

  /** Such a run exists, with a first use in time: a token is accepted at 100 seconds,
      another token's acceptance at 601 seconds sweeps it from the memory, and a caller
      that passed the expiry test in time has it accepted again. */
  lemma UsedInTimeAndAgain(op: Operation, other: Operation) returns (steps: seq<Step>)
    ensures var a, b := Bind(op, 0, 600), Bind(other, 1, 600);
      Run(600 * SECOND, steps).core.accepts == [Acceptance(a, 100), Acceptance(b, 601), Acceptance(a, 601)]
  {
    var ttl := 600 * SECOND;
    var a, b := Bind(op, 0, 600), Bind(other, 1, 600);
    SweptByAnother(a, b);
    steps := ThreeWait(op, other);
    var s := Run(ttl, steps);
    var at100 := s.(core := s.core.Advance(100 * SECOND));
    RunTo(ttl, steps, s, Advance(100 * SECOND), at100);
    steps := steps + [Advance(100 * SECOND)];
    steps := LocksInTurn(ttl, steps, at100);
  }

  /** Caller 1 takes its lock, the clock runs to 601 seconds, then callers 3 and 2 take theirs. */
  lemma LocksInTurn(ttl: int, steps: seq<Step>, s: State) returns (all: seq<Step>)
    requires Run(ttl, steps) == s && s.core.clock <= 601 * SECOND && s.waiting.Keys == {1, 2, 3}
    ensures var once := s.core.Lock(s.waiting[1]).0;
      var swept := once.Advance(601 * SECOND).Lock(s.waiting[3]).0;
      Run(ttl, all).core == swept.Lock(s.waiting[2]).0
  {
    var s1 := State(s.core.Lock(s.waiting[1]).0, s.waiting - {1});
    var s2 := State(s1.core.Advance(601 * SECOND), s1.waiting);
    var s3 := State(s2.core.Lock(s.waiting[3]).0, s2.waiting - {3});
    var s4 := State(s3.core.Lock(s.waiting[2]).0, s3.waiting - {2});
    RunTo(ttl, steps, s, Lock(1), s1);
    RunTo(ttl, steps + [Lock(1)], s1, Advance(601 * SECOND), s2);
    RunTo(ttl, steps + [Lock(1)] + [Advance(601 * SECOND)], s2, Lock(3), s3);
    RunTo(ttl, steps + [Lock(1)] + [Advance(601 * SECOND)] + [Lock(3)], s3, Lock(2), s4);
    all := steps + [Lock(1)] + [Advance(601 * SECOND)] + [Lock(3)] + [Lock(2)];
  }
}
