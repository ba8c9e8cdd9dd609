/** What the protocol can be carried through to: from every reachable state a plan can
    be executed, as any change its operation describes. */
module ChangeProtocol {
  import opened Wrappers
  import opened Operations
  import opened Confirm
  import opened Dispatch
  import opened JsonValue
  import opened Resolve
  import opened ChangeHandlers
  import opened ChangeServer
  import opened PlannedChange
  import ExecPod
  import Text

  /** How a call that took its token ends: the user's reply, and the cluster where the
      request lands. */
  datatype Outcome = Outcome(reply: Reply, landed: string)

  function TakeSteps(id: CallId, o: Outcome): seq<Step> {
    [TakeToken(id)] + ([AskUser(id, o.reply)] + ([Perform(id, Some(o.landed), true)] + []))
  }

  function ExecuteSteps(id: CallId, o: Outcome): seq<Step> { [CheckToken(id)] + TakeSteps(id, o) }

  /** What an approved call that took its token adds to the history. */
  function TakenEvents(s: State, id: CallId, o: Outcome): seq<Event>
    requires id in s.calls && s.calls[id].phase.PassedChecks? && s.calls[id].token.Sealed?
  {
    var c := s.calls[id];
    var plan := if c.token.body in s.planOf then s.planOf[c.token.body] else 0;
    [TokenTaken(id, c.prep.op, c.token.body, c.phase.checkedAt, s.core.Now(), |s.core.accepts|),
     UserApproved(id, c.prep.op, c.prep.typedName, o.reply),
     Changed(id, c.prep.op, c.prep.change, o.landed, Granted(plan, |s.log|, |s.log| + 1))]
  }

  /** Take, ask, perform, with the user's approval. */
  function Taken(s: State, id: CallId, o: Outcome): State
    requires id in s.calls && s.calls[id].phase.PassedChecks? && s.calls[id].token.Sealed?
  {
    var c := s.calls[id];
    State(s.core.Lock(c.token.body).0, s.planOf, s.calls[id := c.(phase := Over)], Know(s.known, Some(o.landed)),
          s.log + TakenEvents(s, id, o))
  }

  /** The user approves, and the request can land there. */
  predicate Ends(known: set<string>, prep: Prepared, o: Outcome) {
    Decide(prep.typedName, o.reply) == Approved && Allowed(known, prep.change.Target(), o.landed)
  }

  /** A call that passed the checks with a token the gate does not remember as used
      changes the cluster once approved. */
  lemma CheckedCallGoesThrough(cfg: Config, s: State, id: CallId, o: Outcome)
    requires id in s.calls && s.calls[id].phase.PassedChecks? && s.calls[id].token.Sealed?
    requires s.calls[id].token.body.nonce !in s.core.consumed && Ends(s.known, s.calls[id].prep, o)
    ensures Replay(cfg, s, TakeSteps(id, o)) == Taken(s, id, o)
  {
    var perform := Perform(id, Some(o.landed), true);
    var s1 := TakeNext(s, id);
    TakeSucceeds(s, id);
    ReplayStep(cfg, s, TakeToken(id), [AskUser(id, o.reply)] + ([perform] + []));
    var s2 := AskNext(s1, id, o.reply);
    ReplayStep(cfg, s1, AskUser(id, o.reply), [perform] + []);
    ReplayStep(cfg, s2, perform, []);
    AskSucceeds(s, id, o);
  }

  lemma TakeSucceeds(s: State, id: CallId)
    requires id in s.calls && s.calls[id].phase.PassedChecks? && s.calls[id].token.Sealed?
    requires s.calls[id].token.body.nonce !in s.core.consumed
    ensures var c, t := s.calls[id], TakeNext(s, id);
      && t.calls == s.calls[id := c.(phase := HoldsToken(|s.log|))] && t.planOf == s.planOf && t.known == s.known
      && t.core == s.core.Lock(c.token.body).0
      && t.log == s.log + [
           TokenTaken(id, c.prep.op, c.token.body, c.phase.checkedAt, s.core.Now(), |s.core.accepts|)]
  {
  }

  lemma AskSucceeds(s: State, id: CallId, o: Outcome)
    requires id in s.calls && s.calls[id].phase.PassedChecks? && s.calls[id].token.Sealed?
    requires s.calls[id].token.body.nonce !in s.core.consumed && Decide(s.calls[id].prep.typedName, o.reply) == Approved
    ensures TakeNext(s, id).calls[id].phase.HoldsToken? && TakeNext(s, id).calls[id].token.Sealed?
    ensures var asked := AskNext(TakeNext(s, id), id, o.reply);
      asked.calls[id].phase.MayChange? && PerformNext(asked, id, Some(o.landed), true) == Taken(s, id, o)
  {
    TakeSucceeds(s, id);
    var c := s.calls[id];
    var asked := AskNext(TakeNext(s, id), id, o.reply);
    assert PerformNext(asked, id, Some(o.landed), true).log == s.log + TakenEvents(s, id, o);
    assert PerformNext(asked, id, Some(o.landed), true).calls == s.calls[id := c.(phase := Over)];
  }

  function Checked(s: State, id: CallId): State
    requires id in s.calls
  {
    WithPhase(s, id, PassedChecks(s.core.Now()))
  }

  lemma CheckPasses(cfg: Config, s: State, id: CallId, rest: seq<Step>)
    requires id in s.calls && s.calls[id].phase.Ready? && GoodToken(s, s.calls[id])
    requires s.core.Now() <= s.calls[id].token.body.expiry
    ensures Replay(cfg, s, [CheckToken(id)] + rest) == Replay(cfg, Checked(s, id), rest)
  {
    ReplayStep(cfg, s, CheckToken(id), rest);
    assert CheckNext(s, id) == Checked(s, id);
  }

  /** A call whose unused token is in order changes the cluster once approved. */
  lemma ReadyCallGoesThrough(cfg: Config, s: State, id: CallId, o: Outcome)
    requires id in s.calls && s.calls[id].phase.Ready? && GoodToken(s, s.calls[id])
    requires var c := s.calls[id];
      s.core.Now() <= c.token.body.expiry && c.token.body.nonce !in s.core.consumed && Ends(s.known, c.prep, o)
    ensures Replay(cfg, s, ExecuteSteps(id, o)) == Taken(Checked(s, id), id, o)
  {
    CheckPasses(cfg, s, id, TakeSteps(id, o));
    CheckedCallGoesThrough(cfg, Checked(s, id), id, o);
  }

  /** `p` and `r` plan what `q` and `t` execute. */
  ghost predicate Executes(cfg: Config, p: ChangeParams, r: Reads, q: ChangeParams, t: Reads, prep: Prepared) {
    && !cfg.readOnly && cfg.ttl >= 0 && Lookup(p).Some? && Lookup(q).Some? && !prep.bypass
    && Plan(cfg, Lookup(p).value, p, r) == Some(prep.op) && Prepare(cfg, Lookup(q).value, q, t) == Some(prep)
  }

  /** The IDs known once both calls have looked up their cluster. */
  function KnownAfter(known: set<string>, r: Reads, t: Reads): set<string> {
    Know(Know(known, r.clusterId), t.clusterId)
  }

  /** What plan and execution see of their cluster's ID are answers, one after the other. */
  predicate BothSee(known: set<string>, p: ChangeParams, r: Reads, q: ChangeParams, t: Reads) {
    Sees(known, p, r) && Sees(Know(known, r.clusterId), q, t)
  }

  ghost predicate Approvable(cfg: Config, known: set<string>, p: ChangeParams, r: Reads, q: ChangeParams, t: Reads,
                             prep: Prepared, o: Outcome) {
    Executes(cfg, p, r, q, t, prep) && BothSee(known, p, r, q, t) && Ends(KnownAfter(known, r, t), prep, o)
  }

  /** Plan, then execute with the token just issued. */
  function ProtocolSteps(p: ChangeParams, r: Reads, q: ChangeParams, t: Reads, body: TokenBody, id: CallId, o: Outcome)
    : seq<Step>
  {
    [PlanChange(p, r, body.nonce)] + ([Enter(q, t, body, id)] + ExecuteSteps(id, o))
  }

  function Enter(q: ChangeParams, t: Reads, body: TokenBody, id: CallId): Step {
    ExecuteChange(id, q.(confirmationToken := Sealed(body)), t)
  }

  /** The plan, the acceptance, the approval and the change they justify. */
  function ProtocolEvents(s: State, p: ChangeParams, r: Reads, prep: Prepared, body: TokenBody, id: CallId, o: Outcome)
    : seq<Event>
  {
    var n := |s.log|;
    [Planned(p, r, prep.op, body),
     TokenTaken(id, prep.op, body, s.core.Now(), s.core.Now(), |s.core.accepts|),
     UserApproved(id, prep.op, prep.typedName, o.reply),
     Changed(id, prep.op, prep.change, o.landed, Granted(n, n + 1, n + 2))]
  }

  /** The protocol can succeed: after any run, planning a change and executing a call
      that prepares the planned operation makes that call's change, once approved, on
      any cluster its lookup may answer with, and the history gains exactly what
      justifies it. */
  lemma PlannedChangeGoesThrough(cfg: Config, steps: seq<Step>, p: ChangeParams, r: Reads, q: ChangeParams, t: Reads,
                                 prep: Prepared, nonce: Nonce, id: CallId, o: Outcome)
    requires Approvable(cfg, Run(cfg, steps).known, p, r, q, t, prep, o)
    requires Run(cfg, steps).core.Fresh(nonce) && id !in Run(cfg, steps).calls
    ensures var s := Run(cfg, steps); var body := TokenFor(cfg, s, prep.op, nonce);
      Run(cfg, steps + ProtocolSteps(p, r, q, t, body, id, o)).log == s.log + ProtocolEvents(s, p, r, prep, body, id, o)
  {
    var s := Run(cfg, steps);
    var body := TokenFor(cfg, s, prep.op, nonce);
    FreshIsUnused(cfg, steps, nonce);
    ReplayIsRun(cfg, steps, ProtocolSteps(p, r, q, t, body, id, o));
    GoesThroughFrom(cfg, s, p, r, q, t, prep, nonce, id, o);
  }

  lemma FreshIsUnused(cfg: Config, steps: seq<Step>, nonce: Nonce)
    requires Run(cfg, steps).core.Fresh(nonce)
    ensures nonce !in Run(cfg, steps).core.consumed
  {
    RunKeeps(cfg, steps);
    assert Run(cfg, steps).core.NoncesUnique();
  }

  function PlannedState(s: State, p: ChangeParams, r: Reads, op: Operation, body: TokenBody): State {
    WithPlan(Learned(s, r.clusterId), p, r, op, body)
  }

  function EnteredState(s: State, t: Reads, prep: Prepared, body: TokenBody, id: CallId): State {
    WithCall(Learned(s, t.clusterId), id, Call(prep, Sealed(body), Ready))
  }

  lemma PlanSteps(cfg: Config, s: State, p: ChangeParams, r: Reads, op: Operation, nonce: Nonce, rest: seq<Step>)
    requires !cfg.readOnly && Lookup(p).Some? && Plan(cfg, Lookup(p).value, p, r) == Some(op)
    requires s.core.Fresh(nonce) && Sees(s.known, p, r)
    ensures Replay(cfg, s, [PlanChange(p, r, nonce)] + rest) ==
      Replay(cfg, PlannedState(s, p, r, op, TokenFor(cfg, s, op, nonce)), rest)
  {
    PlanEnabled(cfg, s, p, r, nonce);
    PlanNextIs(cfg, s, Lookup(p).value, p, r, op, nonce);
    ReplayTo(cfg, s, PlanChange(p, r, nonce), PlannedState(s, p, r, op, TokenFor(cfg, s, op, nonce)), rest);
  }

  lemma PlanEnabled(cfg: Config, s: State, p: ChangeParams, r: Reads, nonce: Nonce)
    requires !cfg.readOnly && s.core.Fresh(nonce) && Sees(s.known, p, r)
    ensures Enabled(cfg, s, PlanChange(p, r, nonce))
    ensures Next(cfg, s, PlanChange(p, r, nonce)) == PlanNext(cfg, s, p, r, nonce)
  {
  }

  lemma PlanNextIs(cfg: Config, s: State, h: Tool, p: ChangeParams, r: Reads, op: Operation, nonce: Nonce)
    requires Lookup(p) == Some(h) && Plan(cfg, h, p, r) == Some(op)
    ensures PlanNext(cfg, s, p, r, nonce) == PlannedState(s, p, r, op, TokenFor(cfg, s, op, nonce))
  {
    DispatchedPlan(cfg, s, h, p, r, nonce);
    PlannedIs(cfg, Learned(s, r.clusterId), p, r, Plan(cfg, h, p, r), op, nonce);
  }

  lemma PlannedIs(cfg: Config, s: State, p: ChangeParams, r: Reads, planned: Option<Operation>, op: Operation,
                  nonce: Nonce)
    requires planned == Some(op)
    ensures PlannedNext(cfg, s, p, r, planned, nonce) == WithPlan(s, p, r, op, TokenFor(cfg, s, op, nonce))
  {
  }

  lemma DispatchedPlan(cfg: Config, s: State, h: Tool, p: ChangeParams, r: Reads, nonce: Nonce)
    requires Lookup(p) == Some(h)
    ensures PlanNext(cfg, s, p, r, nonce) == PlannedNext(cfg, Learned(s, r.clusterId), p, r, Plan(cfg, h, p, r), nonce)
  {
  }

  lemma ReplayTo(cfg: Config, s: State, step: Step, t: State, rest: seq<Step>)
    requires Enabled(cfg, s, step) && Next(cfg, s, step) == t
    ensures Replay(cfg, s, [step] + rest) == Replay(cfg, t, rest)
  {
    ReplayStep(cfg, s, step, rest);
  }

  lemma ExecuteEnters(cfg: Config, s: State, q: ChangeParams, t: Reads, prep: Prepared, body: TokenBody, id: CallId,
                      rest: seq<Step>)
    requires !cfg.readOnly && Lookup(q).Some? && Prepare(cfg, Lookup(q).value, q, t) == Some(prep) && !prep.bypass
    requires id !in s.calls && Sees(s.known, q, t)
    ensures Replay(cfg, s, [Enter(q, t, body, id)] + rest) == Replay(cfg, EnteredState(s, t, prep, body, id), rest)
  {
    SameDispatch(cfg, q, q.(confirmationToken := Sealed(body)), t);
    ReplayStep(cfg, s, Enter(q, t, body, id), rest);
  }

  lemma GoesThroughFrom(cfg: Config, s: State, p: ChangeParams, r: Reads, q: ChangeParams, t: Reads, prep: Prepared,
                        nonce: Nonce, id: CallId, o: Outcome)
    requires Approvable(cfg, s.known, p, r, q, t, prep, o)
    requires s.core.Fresh(nonce) && nonce !in s.core.consumed && id !in s.calls
    ensures var body := TokenFor(cfg, s, prep.op, nonce);
      Replay(cfg, s, ProtocolSteps(p, r, q, t, body, id, o)).log == s.log + ProtocolEvents(s, p, r, prep, body, id, o)
  {
    var body := TokenFor(cfg, s, prep.op, nonce);
    PlannedCallEnters(cfg, s, p, r, q, t, prep, nonce, id, ExecuteSteps(id, o));
    UnixMonotone(s.core.clock, s.core.clock + cfg.ttl);
    ReadyCallGoesThrough(cfg, EnteredState(PlannedState(s, p, r, prep.op, body), t, prep, body, id), id, o);
    EnteredEvents(s, p, r, t, prep, body, id, o);
  }

  lemma PlannedCallEnters(cfg: Config, s: State, p: ChangeParams, r: Reads, q: ChangeParams, t: Reads, prep: Prepared,
                          nonce: Nonce, id: CallId, rest: seq<Step>)
    requires Executes(cfg, p, r, q, t, prep) && BothSee(s.known, p, r, q, t) && s.core.Fresh(nonce) && id !in s.calls
    ensures var body := TokenFor(cfg, s, prep.op, nonce);
      Replay(cfg, s, [PlanChange(p, r, nonce)] + ([Enter(q, t, body, id)] + rest)) ==
      Replay(cfg, EnteredState(PlannedState(s, p, r, prep.op, body), t, prep, body, id), rest)
  {
    var body := TokenFor(cfg, s, prep.op, nonce);
    PlanSteps(cfg, s, p, r, prep.op, nonce, [Enter(q, t, body, id)] + rest);
    ExecuteEnters(cfg, PlannedState(s, p, r, prep.op, body), q, t, prep, body, id, rest);
  }

  lemma EnteredEvents(s: State, p: ChangeParams, r: Reads, t: Reads, prep: Prepared, body: TokenBody, id: CallId,
                      o: Outcome)
    ensures Taken(Checked(EnteredState(PlannedState(s, p, r, prep.op, body), t, prep, body, id), id), id, o).log ==
      s.log + ProtocolEvents(s, p, r, prep, body, id, o)
  {
    var e := Checked(EnteredState(PlannedState(s, p, r, prep.op, body), t, prep, body, id), id);
    assert e.log == s.log + [Planned(p, r, prep.op, body)] && e.planOf[body] == |s.log|;
    assert e.log + TakenEvents(e, id, o) == s.log + ([Planned(p, r, prep.op, body)] + TakenEvents(e, id, o));
  }

  /** The token is no required field and no handler reads it before the gate. */
  lemma SameDispatch(cfg: Config, p: ChangeParams, q: ChangeParams, r: Reads)
    requires q == p.(confirmationToken := q.confirmationToken) && Lookup(p).Some?
    ensures Lookup(q) == Lookup(p) && Prepare(cfg, Lookup(p).value, q, r) == Prepare(cfg, Lookup(p).value, p, r)
    ensures ClusterNamed(Lookup(p).value, q) == ClusterNamed(Lookup(p).value, p)
  {
    SameRequest(p, q, Lookup(p).value);
    SamePrepare(cfg, Lookup(p).value, p, q, r);
  }

  lemma SameRequest(p: ChangeParams, q: ChangeParams, h: Tool)
    requires q == p.(confirmationToken := q.confirmationToken) && Lookup(p) == Some(h)
    ensures Lookup(q) == Some(h) && ClusterNamed(h, q) == ClusterNamed(h, p)
  {
    LookupIff(p, h);
    LookupIff(q, h);
  }

  lemma SamePrepare(cfg: Config, h: Tool, p: ChangeParams, q: ChangeParams, r: Reads)
    requires q == p.(confirmationToken := q.confirmationToken)
    ensures Prepare(cfg, h, q, r) == Prepare(cfg, h, p, r)
  {
  }

  /** Another apiVersion, container or command is dispatched alike. */
  lemma LooseFieldsDispatch(h: Tool, p: ChangeParams, q: ChangeParams)
    requires Lookup(p) == Some(h) && MayDiffer(h, p, q)
    ensures Lookup(q) == Some(h)
  {
    LookupIff(p, h);
    LookupIff(q, h);
  }

  /** The user approves calls of this kind, and the mode does not write by itself. */
  ghost predicate Answered(cfg: Config, h: Tool, p: ChangeParams, reply: Reply) {
    && !cfg.readOnly && cfg.ttl >= 0 && (cfg.autoWrite ==> h == DeleteResource || h == ExecInPod)
    && Decide(if h == DeleteResource then p.name else "", reply) == Approved
  }

  lemma PreparedAsks(cfg: Config, h: Tool, q: ChangeParams, t: Reads)
    requires Prepare(cfg, h, q, t).Some?
    ensures var prep := Prepare(cfg, h, q, t).value;
      && prep.typedName == (if h == DeleteResource then q.name else "")
      && prep.bypass == (cfg.autoWrite && h != DeleteResource && h != ExecInPod)
  {
  }

  /** The change is one the plan's operation describes, and its request can land there. */
  ghost predicate Open(cfg: Config, known: set<string>, p: ChangeParams, r: Reads, change: Change, landed: string) {
    && Lookup(p).Some? && Sees(known, p, r)
    && Plan(cfg, Lookup(p).value, p, r).Some? && Describes(cfg, Plan(cfg, Lookup(p).value, p, r).value, change)
    && (Lookup(p) == Some(ScalePool) ==> Text.Lower(p.cluster) != LOCAL_CLUSTER)
    && Allowed(Know(known, r.clusterId), change.Target(), landed)
  }

  /** What the token leaves open is open: after any run, the plan's own token can be
      spent on every change that the planned operation describes, with a resource type
      that some snapshot serves for the kind, and on any cluster that the lookup of the
      name may answer with. */
  lemma EveryDescribedChangeCanFollow(cfg: Config, steps: seq<Step>, p: ChangeParams, r: Reads, change: Change,
                                      nonce: Nonce, id: CallId, o: Outcome)
    returns (more: seq<Step>, prep: Prepared)
    requires Open(cfg, Run(cfg, steps).known, p, r, change, o.landed) && Answered(cfg, Lookup(p).value, p, o.reply)
    requires Run(cfg, steps).core.Fresh(nonce) && id !in Run(cfg, steps).calls
    ensures Plan(cfg, Lookup(p).value, p, r) == Some(prep.op) && prep.change == change
    ensures var s := Run(cfg, steps);
      Run(cfg, steps + more).log == s.log + ProtocolEvents(s, p, r, prep, TokenFor(cfg, s, prep.op, nonce), id, o)
  {
    var s := Run(cfg, steps);
    var q, t;
    q, t, prep := OpenIsApprovable(cfg, s.known, p, r, change, o);
    more := ProtocolSteps(p, r, q, t, TokenFor(cfg, s, prep.op, nonce), id, o);
    PlannedChangeGoesThrough(cfg, steps, p, r, q, t, prep, nonce, id, o);
  }

  lemma OpenIsApprovable(cfg: Config, known: set<string>, p: ChangeParams, r: Reads, change: Change, o: Outcome)
    returns (q: ChangeParams, t: Reads, prep: Prepared)
    requires Open(cfg, known, p, r, change, o.landed) && Answered(cfg, Lookup(p).value, p, o.reply)
    ensures Approvable(cfg, known, p, r, q, t, prep, o) && prep.change == change
  {
    var h := Lookup(p).value;
    q, t := DescribedIsPrepared(cfg, h, p, r, change);
    LooseFieldsDispatch(h, p, q);
    prep := Prepare(cfg, h, q, t).value;
    PreparedAsks(cfg, h, q, t);
    SameNames(h, p, q);
    SeesAgain(known, p, r, q, t);
    assert KnownAfter(known, r, t) == Know(known, r.clusterId);
  }

  lemma SameNames(h: Tool, p: ChangeParams, q: ChangeParams)
    requires MayDiffer(h, p, q)
    ensures ClusterNamed(h, q) == ClusterNamed(h, p) && q.name == p.name
  {
  }

  /** The same answer to the same name is possible again. */
  lemma SeesAgain(known: set<string>, p: ChangeParams, r: Reads, q: ChangeParams, t: Reads)
    requires Sees(known, p, r) && Lookup(p).Some? && Lookup(q) == Lookup(p) && t.clusterId == r.clusterId
    requires ClusterNamed(Lookup(p).value, q) == ClusterNamed(Lookup(p).value, p)
    ensures BothSee(known, p, r, q, t)
  {
  }

  /** A run from the start that plans with these parameters and reads, and makes the
      change where it says. */
  ghost predicate PlansAndMakes(cfg: Config, steps: seq<Step>, p: ChangeParams, r: Reads, change: Change,
                                landed: string) {
    var log := Run(cfg, steps).log;
    && |log| == 4 && log[0].Planned? && log[0].params == p && log[0].seen == r
    && log[3].Changed? && log[3].grant == Granted(0, 1, 2) && log[3].change == change && log[3].landed == landed
  }

  lemma FirstPlanCanEndSo(cfg: Config, p: ChangeParams, r: Reads, change: Change, o: Outcome) returns (steps: seq<Step>)
    requires Open(cfg, {}, p, r, change, o.landed) && Answered(cfg, Lookup(p).value, p, o.reply)
    ensures PlansAndMakes(cfg, steps, p, r, change, o.landed)
  {
    assert Run(cfg, []) == START;
    var prep;
    steps, prep := EveryDescribedChangeCanFollow(cfg, [], p, r, change, 0, 0, o);
    assert [] + steps == steps;
  }

  lemma FirstPlanGoesThrough(cfg: Config, p: ChangeParams, r: Reads, q: ChangeParams, t: Reads, prep: Prepared,
                             o: Outcome)
    requires Approvable(cfg, {}, p, r, q, t, prep, o)
    ensures PlansAndMakes(cfg, ProtocolSteps(p, r, q, t, TokenFor(cfg, START, prep.op, 0), 0, o), p, r, prep.change,
                          o.landed)
  {
    assert Run(cfg, []) == START;
    var body := TokenFor(cfg, START, prep.op, 0);
    var steps := ProtocolSteps(p, r, q, t, body, 0, o);
    PlannedChangeGoesThrough(cfg, [], p, r, q, t, prep, 0, 0, o);
    assert [] + steps == steps;
    FirstEvents(cfg, steps, p, r, prep, body, o);
  }

  lemma FirstEvents(cfg: Config, steps: seq<Step>, p: ChangeParams, r: Reads, prep: Prepared, body: TokenBody,
                    o: Outcome)
    requires Run(cfg, steps).log == START.log + ProtocolEvents(START, p, r, prep, body, 0, o)
    ensures PlansAndMakes(cfg, steps, p, r, prep.change, o.landed)
  {
  }

  /** The resource type of a deletion is bound only through its kind: planned for one
      type, it can be made on any other that some apiVersion and snapshot give the kind. */
  lemma DeletedTypeIsNotBound(cfg: Config, p: ChangeParams, r: Reads, gvr: Gvr, reply: Reply) returns (steps: seq<Step>)
    requires Lookup(p) == Some(DeleteResource) && Plan(cfg, DeleteResource, p, r).Some? && Sees({}, p, r)
    requires Answered(cfg, DeleteResource, p, reply) && SomeType(cfg, p.kind, gvr)
    ensures PlansAndMakes(cfg, steps, p, r, Delete(p.cluster, p.namespace, gvr, p.name), r.clusterId.GetOr(p.cluster))
  {
    var o := Outcome(reply, r.clusterId.GetOr(p.cluster));
    DeletionIsOpen(cfg, p, r, gvr);
    steps := FirstPlanCanEndSo(cfg, p, r, Delete(p.cluster, p.namespace, gvr, p.name), o);
  }

  lemma DeletionIsOpen(cfg: Config, p: ChangeParams, r: Reads, gvr: Gvr)
    requires Lookup(p) == Some(DeleteResource) && Plan(cfg, DeleteResource, p, r).Some? && Sees({}, p, r)
    requires SomeType(cfg, p.kind, gvr)
    ensures Open(cfg, {}, p, r, Delete(p.cluster, p.namespace, gvr, p.name), r.clusterId.GetOr(p.cluster))
  {
    DeletionIsDescribed(cfg, p, r, gvr);
  }

  lemma DeletionIsDescribed(cfg: Config, p: ChangeParams, r: Reads, gvr: Gvr)
    requires Plan(cfg, DeleteResource, p, r).Some? && SomeType(cfg, p.kind, gvr)
    ensures Describes(cfg, Plan(cfg, DeleteResource, p, r).value, Delete(p.cluster, p.namespace, gvr, p.name))
  {
  }

  /** The container and the ends of the arguments of a command are not bound. */
  lemma ProcessIsNotBound(cfg: Config, p: ChangeParams, r: Reads, container: string, command: seq<string>, reply: Reply)
    returns (steps: seq<Step>)
    requires Lookup(p) == Some(ExecInPod) && Plan(cfg, ExecInPod, p, r).Some? && Sees({}, p, r)
    requires Answered(cfg, ExecInPod, p, reply)
    requires command != [] && ExecPod.Join(command) == ExecPod.Join(p.command.GetOr([]))
    ensures PlansAndMakes(cfg, steps, p, r, Exec(p.cluster, p.namespace, p.name, container, command),
                          r.clusterId.GetOr(p.cluster))
  {
    var o := Outcome(reply, r.clusterId.GetOr(p.cluster));
    steps := FirstPlanCanEndSo(cfg, p, r, Exec(p.cluster, p.namespace, p.name, container, command), o);
  }

  /** Event `m` is a change granted by a plan of these parameters. */
  ghost predicate FollowsPlanOf(log: seq<Event>, m: nat, p: ChangeParams) {
    GrantedAt(log, m) && log[m].grant.plan < |log| && log[log[m].grant.plan].Planned? &&
    log[log[m].grant.plan].params == p
  }

  /** In every run, a command granted by a plan of these parameters is the planned one. */
  ghost predicate CommandIsFixed(cfg: Config, p: ChangeParams) {
    forall steps, m: nat :: FollowsPlanOf(Run(cfg, steps).log, m, p) && Run(cfg, steps).log[m].change.Exec? ==>
      Run(cfg, steps).log[m].change.command == p.command.GetOr([])
  }

  /** The protocol runs exactly the planned command, in every run, exactly for plans of
      one argument without NUL bytes. */
  lemma CommandIsFixedIff(cfg: Config, p: ChangeParams, r: Reads, reply: Reply)
    requires Lookup(p) == Some(ExecInPod) && Plan(cfg, ExecInPod, p, r).Some? && Sees({}, p, r)
    requires Answered(cfg, ExecInPod, p, reply)
    ensures var command := p.command.GetOr([]);
      CommandIsFixed(cfg, p) <==> |command| == 1 && ExecPod.NUL !in command[0]
  {
    var command := p.command.GetOr([]);
    ExecPod.PayloadDeterminesCommand(command);
    if ExecPod.IsDetermined(command) {
      forall steps, m: nat | FollowsPlanOf(Run(cfg, steps).log, m, p) && Run(cfg, steps).log[m].change.Exec?
        ensures Run(cfg, steps).log[m].change.command == command
      {
        GrantedChangeIsThePlannedOne(cfg, steps, m);
      }
    } else {
      var other :| other != [] && ExecPod.Join(other) == ExecPod.Join(command) && other != command;
      var steps := ProcessIsNotBound(cfg, p, r, p.container, other, reply);
      assert FollowsPlanOf(Run(cfg, steps).log, 3, p);
    }
  }

  ghost predicate FollowsPlanSeeing(log: seq<Event>, m: nat, p: ChangeParams, r: Reads) {
    FollowsPlanOf(log, m, p) && log[log[m].grant.plan].seen == r
  }

  /** In every run, a change granted by this plan lands on the cluster the plan found. */
  ghost predicate LandingIsFixed(cfg: Config, p: ChangeParams, r: Reads) {
    forall steps, m: nat :: FollowsPlanSeeing(Run(cfg, steps).log, m, p, r) ==>
      Some(Run(cfg, steps).log[m].landed) == r.clusterId
  }

  /** A change lands on the cluster its plan found, in every run, exactly for moves of
      namespaces and for calls that name their cluster by its ID. */
  lemma LandingIsFixedIff(cfg: Config, p: ChangeParams, r: Reads, change: Change, reply: Reply)
    requires Lookup(p).Some? && r.clusterId.Some?
    requires Open(cfg, {}, p, r, change, change.Target()) && Answered(cfg, Lookup(p).value, p, reply)
    ensures LandingIsFixed(cfg, p, r) <==>
      Lookup(p) == Some(MoveNs) || ClusterNamed(Lookup(p).value, p) == r.clusterId.value
  {
    var h := Lookup(p).value;
    var named, found := ClusterNamed(h, p), r.clusterId.value;
    PlannedTarget(cfg, h, p, r, Plan(cfg, h, p, r).value, change);
    if h == MoveNs || named == found {
      forall steps, m: nat | FollowsPlanSeeing(Run(cfg, steps).log, m, p, r)
        ensures Run(cfg, steps).log[m].landed == found
      {
        PlannedLanding(cfg, steps, m, p, r);
      }
    } else {
      var elsewhere := found + ".";
      assert elsewhere != found;
      var steps := LandsElsewhere(cfg, p, r, change, elsewhere, reply);
      assert FollowsPlanSeeing(Run(cfg, steps).log, 3, p, r);
    }
  }

  /** What a planned change is sent to: the ID found for a move, the name otherwise. */
  lemma PlannedTarget(cfg: Config, h: Tool, p: ChangeParams, r: Reads, op: Operation, change: Change)
    requires Plan(cfg, h, p, r) == Some(op) && Describes(cfg, op, change)
    ensures change.Target() == if h == MoveNs then r.clusterId.GetOr("") else ClusterNamed(h, p)
    ensures change.UpdateNamespace? <==> h == MoveNs
  {
  }

  lemma PlannedLanding(cfg: Config, steps: seq<Step>, m: nat, p: ChangeParams, r: Reads)
    requires FollowsPlanSeeing(Run(cfg, steps).log, m, p, r)
    requires Lookup(p).Some? && r.clusterId.Some?
    requires Lookup(p) == Some(MoveNs) || ClusterNamed(Lookup(p).value, p) == r.clusterId.value
    ensures Run(cfg, steps).log[m].landed == r.clusterId.value
  {
    GrantedPlan(cfg, steps, m);
    GrantedChangeLands(cfg, steps, m);
    var e := Run(cfg, steps).log[m];
    PlannedTarget(cfg, Lookup(p).value, p, r, e.op, e.change);
  }

  /** For any other cluster there is a run that plans for the one found and changes that. */
  lemma LandsElsewhere(cfg: Config, p: ChangeParams, r: Reads, change: Change, elsewhere: string, reply: Reply)
    returns (steps: seq<Step>)
    requires Open(cfg, {}, p, r, change, change.Target()) && Answered(cfg, Lookup(p).value, p, reply)
    requires r.clusterId.Some? && Lookup(p) != Some(MoveNs)
    requires ClusterNamed(Lookup(p).value, p) != r.clusterId.value
    ensures PlansAndMakes(cfg, steps, p, r, change, elsewhere)
  {
    PlannedTarget(cfg, Lookup(p).value, p, r, Plan(cfg, Lookup(p).value, p, r).value, change);
    steps := FirstPlanCanEndSo(cfg, p, r, change, Outcome(reply, elsewhere));
  }
}
