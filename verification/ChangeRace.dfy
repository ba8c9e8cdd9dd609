/** Where plan tokens are not single-use: one plan spent on two changes, the first of
    them in time. */
module ChangeRace {
  import opened Wrappers
  import opened Operations
  import opened Confirm
  import opened Dispatch
  import opened ChangeHandlers
  import opened ChangeServer
  import opened ChangeProtocol

  /** Three calls: `i` and `j` present the token `a`, `k` presents `b`. */
  datatype Calls = Calls(i: CallId, j: CallId, k: CallId) {
    predicate Fresh(s: State) { i != j && i != k && j != k && i !in s.calls && j !in s.calls && k !in s.calls }

    function With(s: State, a: Call, b: Call): State { s.(calls := s.calls[i := a][j := a][k := b]) }
  }

  lemma {:induction false} ReplayConcat(cfg: Config, s: State, a: seq<Step>, b: seq<Step>)
    ensures Replay(cfg, s, a + b) == Replay(cfg, Replay(cfg, s, a), b)
    decreases |a|
  {
    if a == [] {
      assert a + b == b;
    } else {
      assert (a + b)[1..] == a[1..] + b;
      ReplayConcat(cfg, if Enabled(cfg, s, a[0]) then Next(cfg, s, a[0]) else s, a[1..], b);
    }
  }

  function TwicePlanned(s: State, p: ChangeParams, r: Reads, op: Operation, a: TokenBody, b: TokenBody): State {
    WithPlan(PlannedState(s, p, r, op, a), p, r, op, b)
  }

  lemma PlanTwice(cfg: Config, s: State, p: ChangeParams, r: Reads, op: Operation, m: Nonce, n: Nonce, rest: seq<Step>)
    requires !cfg.readOnly && Lookup(p).Some? && Plan(cfg, Lookup(p).value, p, r) == Some(op) && Sees(s.known, p, r)
    requires s.core.Fresh(m) && s.core.Fresh(n) && m != n
    ensures Replay(cfg, s, [PlanChange(p, r, m)] + ([PlanChange(p, r, n)] + rest)) ==
      Replay(cfg, TwicePlanned(s, p, r, op, TokenFor(cfg, s, op, m), TokenFor(cfg, s, op, n)), rest)
  {
    var once := PlannedState(s, p, r, op, TokenFor(cfg, s, op, m));
    SeesAgain(s.known, p, r, p, r);
    PlannedAgain(cfg, s, p, r, op, m, n);
    PlanSteps(cfg, s, p, r, op, m, [PlanChange(p, r, n)] + rest);
    PlanSteps(cfg, once, p, r, op, n, rest);
  }

  lemma PlannedAgain(cfg: Config, s: State, p: ChangeParams, r: Reads, op: Operation, m: Nonce, n: Nonce)
    requires s.core.Fresh(n) && m != n
    ensures var a, b := TokenFor(cfg, s, op, m), TokenFor(cfg, s, op, n);
      var once := PlannedState(s, p, r, op, a);
      && once.core.Fresh(n) && TokenFor(cfg, once, op, n) == b
      && PlannedState(once, p, r, op, b) == TwicePlanned(s, p, r, op, a, b)
  {
    var once := PlannedState(s, p, r, op, TokenFor(cfg, s, op, m));
    KnownTwice(s.known, r.clusterId);
    assert Learned(once, r.clusterId) == once;
  }

  lemma KnownTwice(known: set<string>, id: Option<string>)
    ensures Know(Know(known, id), id) == Know(known, id)
  {
    if id.Some? {
      assert known + {id.value} + {id.value} == known + {id.value};
    }
  }

  function EnterSteps(q: ChangeParams, t: Reads, a: TokenBody, b: TokenBody, c: Calls, rest: seq<Step>): seq<Step> {
    [Enter(q, t, a, c.i)] + ([Enter(q, t, a, c.j)] + ([Enter(q, t, b, c.k)] + rest))
  }

  lemma EnterAll(cfg: Config, s: State, q: ChangeParams, t: Reads, prep: Prepared, a: TokenBody, b: TokenBody, c: Calls,
                 rest: seq<Step>)
    requires !cfg.readOnly && Lookup(q).Some? && Prepare(cfg, Lookup(q).value, q, t) == Some(prep) && !prep.bypass
    requires Sees(s.known, q, t) && c.Fresh(s)
    ensures Replay(cfg, s, EnterSteps(q, t, a, b, c, rest)) ==
      Replay(cfg, c.With(Learned(s, t.clusterId), Call(prep, Sealed(a), Ready), Call(prep, Sealed(b), Ready)), rest)
  {
    var one := EnteredState(s, t, prep, a, c.i);
    var two := EnteredState(one, t, prep, a, c.j);
    KnownTwice(s.known, t.clusterId);
    SeesAgain(s.known, q, t, q, t);
    ExecuteEnters(cfg, s, q, t, prep, a, c.i, [Enter(q, t, a, c.j)] + ([Enter(q, t, b, c.k)] + rest));
    ExecuteEnters(cfg, one, q, t, prep, a, c.j, [Enter(q, t, b, c.k)] + rest);
    ExecuteEnters(cfg, two, q, t, prep, b, c.k, rest);
    assert EnteredState(two, t, prep, b, c.k) ==
      c.With(Learned(s, t.clusterId), Call(prep, Sealed(a), Ready), Call(prep, Sealed(b), Ready));
  }

  function CheckSteps(c: Calls, rest: seq<Step>): seq<Step> {
    [CheckToken(c.i)] + ([CheckToken(c.j)] + ([CheckToken(c.k)] + rest))
  }

  lemma CheckAll(cfg: Config, s: State, a: Call, b: Call, c: Calls, rest: seq<Step>)
    requires c.Fresh(s) && a.phase.Ready? && b.phase.Ready? && GoodToken(s, a) && GoodToken(s, b)
    requires s.core.Now() <= a.token.body.expiry && s.core.Now() <= b.token.body.expiry
    ensures var passed := PassedChecks(s.core.Now());
      Replay(cfg, c.With(s, a, b), CheckSteps(c, rest)) ==
      Replay(cfg, c.With(s, a.(phase := passed), b.(phase := passed)), rest)
  {
    var ready := c.With(s, a, b);
    var one := Checked(ready, c.i);
    var two := Checked(one, c.j);
    CheckPasses(cfg, ready, c.i, [CheckToken(c.j)] + ([CheckToken(c.k)] + rest));
    CheckPasses(cfg, one, c.j, [CheckToken(c.k)] + rest);
    CheckPasses(cfg, two, c.k, rest);
    var passed := PassedChecks(s.core.Now());
    assert Checked(two, c.k).calls == c.With(s, a.(phase := passed), b.(phase := passed)).calls;
  }

  /** Two plans, three calls that passed the checks in time. */
  function Raced(s: State, p: ChangeParams, r: Reads, t: Reads, prep: Prepared, a: TokenBody, b: TokenBody, c: Calls)
    : State
  {
    var passed := PassedChecks(s.core.Now());
    c.With(Learned(TwicePlanned(s, p, r, prep.op, a, b), t.clusterId),
           Call(prep, Sealed(a), passed), Call(prep, Sealed(b), passed))
  }

  function SetUpSteps(p: ChangeParams, r: Reads, q: ChangeParams, t: Reads, a: TokenBody, b: TokenBody, c: Calls,
                      rest: seq<Step>): seq<Step> {
    [PlanChange(p, r, a.nonce)] + ([PlanChange(p, r, b.nonce)] + EnterSteps(q, t, a, b, c, CheckSteps(c, rest)))
  }

  lemma RaceIsSet(cfg: Config, s: State, p: ChangeParams, r: Reads, q: ChangeParams, t: Reads, prep: Prepared,
                  m: Nonce, n: Nonce, c: Calls, rest: seq<Step>)
    requires Executes(cfg, p, r, q, t, prep) && BothSee(s.known, p, r, q, t)
    requires s.core.Fresh(m) && s.core.Fresh(n) && m != n && c.Fresh(s)
    ensures var a, b := TokenFor(cfg, s, prep.op, m), TokenFor(cfg, s, prep.op, n);
      Replay(cfg, s, SetUpSteps(p, r, q, t, a, b, c, rest)) == Replay(cfg, Raced(s, p, r, t, prep, a, b, c), rest)
  {
    var a, b := TokenFor(cfg, s, prep.op, m), TokenFor(cfg, s, prep.op, n);
    var planned := TwicePlanned(s, p, r, prep.op, a, b);
    PlanTwice(cfg, s, p, r, prep.op, m, n, EnterSteps(q, t, a, b, c, CheckSteps(c, rest)));
    EnterAll(cfg, planned, q, t, prep, a, b, c, CheckSteps(c, rest));
    UnixMonotone(s.core.clock, s.core.clock + cfg.ttl);
    CheckAll(cfg, Learned(planned, t.clusterId), Call(prep, Sealed(a), Ready), Call(prep, Sealed(b), Ready), c, rest);
  }

  /** The other token is taken late, which sweeps the first one from the memory. */
  function SweptState(s: State, k: CallId, late: int): State
    requires k in s.calls && s.calls[k].phase.PassedChecks? && s.calls[k].token.Sealed?
  {
    TakeNext(s.(core := s.core.Advance(late)), k)
  }

  lemma TakeLate(cfg: Config, s: State, k: CallId, late: int, rest: seq<Step>)
    requires k in s.calls && s.calls[k].phase.PassedChecks? && s.calls[k].token.Sealed? && s.core.clock <= late
    ensures Replay(cfg, s, [Advance(late)] + ([TakeToken(k)] + rest)) == Replay(cfg, SweptState(s, k, late), rest)
  {
    ReplayStep(cfg, s, Advance(late), [TakeToken(k)] + rest);
    ReplayStep(cfg, s.(core := s.core.Advance(late)), TakeToken(k), rest);
  }

  function SpendSteps(c: Calls, late: int, o: Outcome): seq<Step> {
    TakeSteps(c.i, o) + ([Advance(late)] + ([TakeToken(c.k)] + TakeSteps(c.j, o)))
  }

  /** `i` and `j` hold one token in time, `k` another of the same age, none is used, and
      `late` is after their expiry. */
  ghost predicate Set(s: State, c: Calls, late: int, o: Outcome) {
    && c.i in s.calls && c.j in s.calls && c.k in s.calls && c.i != c.j && c.i != c.k && c.j != c.k
    && s.calls[c.i] == s.calls[c.j] && s.calls[c.i].phase.PassedChecks? && s.calls[c.i].token.Sealed?
    && s.calls[c.k].phase.PassedChecks? && s.calls[c.k].token.Sealed?
    && var a, b := s.calls[c.i].token.body, s.calls[c.k].token.body;
    && a.nonce != b.nonce && a.nonce !in s.core.consumed && b.nonce !in s.core.consumed
    && a.expiry < Unix(late) && s.core.clock <= late && Ends(s.known, s.calls[c.i].prep, o)
  }

  function SpentState(s: State, c: Calls, late: int, o: Outcome): State
    requires Set(s, c, late, o)
  {
    Taken(SweptState(Taken(s, c.i, o), c.k, late), c.j, o)
  }

  lemma SpentTwice(cfg: Config, s: State, c: Calls, late: int, o: Outcome)
    requires Set(s, c, late, o)
    ensures Replay(cfg, s, SpendSteps(c, late, o)) == SpentState(s, c, late, o)
  {
    var once := Taken(s, c.i, o);
    var swept := SweptState(once, c.k, late);
    ReplayConcat(cfg, s, TakeSteps(c.i, o), [Advance(late)] + ([TakeToken(c.k)] + TakeSteps(c.j, o)));
    CheckedCallGoesThrough(cfg, s, c.i, o);
    TakeLate(cfg, once, c.k, late, TakeSteps(c.j, o));
    SweptForgets(s, c, late, o);
    CheckedCallGoesThrough(cfg, swept, c.j, o);
  }

  /** Once swept, the memory has forgotten the first token, and the other call stands as
      it stood. */
  lemma SweptForgets(s: State, c: Calls, late: int, o: Outcome)
    requires Set(s, c, late, o)
    ensures var swept := SweptState(Taken(s, c.i, o), c.k, late);
      && c.j in swept.calls && swept.calls[c.j] == s.calls[c.j] && Ends(swept.known, s.calls[c.j].prep, o)
      && s.calls[c.j].token.body.nonce !in swept.core.consumed
      && swept.planOf == s.planOf && |swept.log| == |s.log| + 4 && s.log + TakenEvents(s, c.i, o) <= swept.log
  {
    var once := Taken(s, c.i, o);
    assert s.calls[c.k].token.body.nonce !in once.core.consumed;
    assert once.log == s.log + TakenEvents(s, c.i, o);
  }

  /** The two changes, what grants them, and that the first took its token in time. */
  ghost predicate TwoChanges(log: seq<Event>, n: nat, plan: Event, prep: Prepared, c: Calls, landed: string) {
    && |log| == n + 9 && log[n] == plan
    && log[n + 4] == Changed(c.i, prep.op, prep.change, landed, Granted(n, n + 2, n + 3))
    && InTime(log, log[n + 4].grant)
    && log[n + 8] == Changed(c.j, prep.op, prep.change, landed, Granted(n, n + 6, n + 7))
  }

  lemma SpentEvents(s: State, c: Calls, late: int, o: Outcome, plan: Event)
    requires Set(s, c, late, o) && 2 <= |s.log| && s.log[|s.log| - 2] == plan
    requires var body := s.calls[c.i].token.body;
      body in s.planOf && s.planOf[body] == |s.log| - 2 && s.core.Now() <= body.expiry
    ensures TwoChanges(SpentState(s, c, late, o).log, |s.log| - 2, plan, s.calls[c.i].prep, c, o.landed)
  {
    var once := Taken(s, c.i, o);
    var swept := SweptState(once, c.k, late);
    SweptForgets(s, c, late, o);
    var log := SpentState(s, c, late, o).log;
    assert log == swept.log + TakenEvents(swept, c.j, o);
    assert once.log == s.log + TakenEvents(s, c.i, o);
    assert forall m :: 0 <= m < |once.log| ==> log[m] == once.log[m];
  }

  /** The failing case of plan injectivity: after any run, one plan can be spent on two
      changes, the first in time. Another token taken late sweeps it from the memory, and
      a call that passed the expiry check in time takes it again. */
  lemma OnePlanTwoChanges(cfg: Config, steps: seq<Step>, p: ChangeParams, r: Reads, q: ChangeParams, t: Reads,
                          prep: Prepared, m: Nonce, n: Nonce, c: Calls, o: Outcome)
    returns (more: seq<Step>)
    requires Approvable(cfg, Run(cfg, steps).known, p, r, q, t, prep, o)
    requires Run(cfg, steps).core.Fresh(m) && Run(cfg, steps).core.Fresh(n) && m != n && c.Fresh(Run(cfg, steps))
    ensures var s := Run(cfg, steps);
      TwoChanges(Run(cfg, steps + more).log, |s.log|, Planned(p, r, prep.op, TokenFor(cfg, s, prep.op, m)), prep, c,
                 o.landed)
  {
    var s := Run(cfg, steps);
    FreshIsUnused(cfg, steps, m);
    FreshIsUnused(cfg, steps, n);
    more := RaceGoesThrough(cfg, s, p, r, q, t, prep, m, n, c, o);
    ReplayIsRun(cfg, steps, more);
  }

  lemma RaceGoesThrough(cfg: Config, s: State, p: ChangeParams, r: Reads, q: ChangeParams, t: Reads, prep: Prepared,
                        m: Nonce, n: Nonce, c: Calls, o: Outcome) returns (more: seq<Step>)
    requires Approvable(cfg, s.known, p, r, q, t, prep, o) && c.Fresh(s)
    requires s.core.Fresh(m) && s.core.Fresh(n) && m != n && m !in s.core.consumed && n !in s.core.consumed
    ensures TwoChanges(Replay(cfg, s, more).log, |s.log|, Planned(p, r, prep.op, TokenFor(cfg, s, prep.op, m)), prep, c,
                       o.landed)
  {
    var a, b := TokenFor(cfg, s, prep.op, m), TokenFor(cfg, s, prep.op, n);
    var late := s.core.clock + cfg.ttl + SECOND;
    more := SetUpSteps(p, r, q, t, a, b, c, SpendSteps(c, late, o));
    RaceIsSet(cfg, s, p, r, q, t, prep, m, n, c, SpendSteps(c, late, o));
    RacedIsSet(cfg, s, p, r, t, prep, a, b, c, o);
    SpentTwice(cfg, Raced(s, p, r, t, prep, a, b, c), c, late, o);
    SpentEvents(Raced(s, p, r, t, prep, a, b, c), c, late, o, Planned(p, r, prep.op, a));
  }

  lemma RacedIsSet(cfg: Config, s: State, p: ChangeParams, r: Reads, t: Reads, prep: Prepared,
                   a: TokenBody, b: TokenBody, c: Calls, o: Outcome)
    requires Ends(KnownAfter(s.known, r, t), prep, o) && c.Fresh(s) && cfg.ttl >= 0
    requires a.nonce != b.nonce && a.nonce !in s.core.consumed && b.nonce !in s.core.consumed
    requires a.expiry == Unix(s.core.clock + cfg.ttl)
    ensures var raced := Raced(s, p, r, t, prep, a, b, c);
      && Set(raced, c, s.core.clock + cfg.ttl + SECOND, o) && raced.calls[c.i].prep == prep
      && raced.calls[c.i].token.body == a && a in raced.planOf && raced.planOf[a] == |s.log|
      && |raced.log| == |s.log| + 2 && raced.log[|s.log|] == Planned(p, r, prep.op, a)
      && raced.core.Now() == s.core.Now() <= a.expiry
  {
    UnixMonotone(s.core.clock, s.core.clock + cfg.ttl);
  }
}
