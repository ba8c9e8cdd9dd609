/** The change server as a state machine: planChange and executeChange calls of any
    number of clients, interleaved at every step that touches shared state. */
module ChangeServer {
  import opened Wrappers
  import opened Operations
  import opened Confirm
  import opened Dispatch
  import opened ChangeHandlers
  import Shared = GateInterleaving

  type CallId = nat

  /** Why a change was made: auto-write mode, or the positions in the history of its
      plan, of its token's acceptance and of the user's approval. */
  datatype Grant = AutoWritten | Granted(plan: nat, accept: nat, approval: nat)

  datatype Event =
    | Planned(params: ChangeParams, seen: Reads, op: Operation, body: TokenBody)
    | TokenTaken(call: CallId, op: Operation, body: TokenBody, checkedAt: int, at: int, order: nat)
    | UserApproved(call: CallId, op: Operation, typedName: string, reply: Reply)
    | Changed(call: CallId, op: Operation, change: Change, landed: string, grant: Grant)

  /** `checkedAt` is the clock, in seconds, when the token passed the checks. */
  datatype Phase = Ready | PassedChecks(checkedAt: int) | HoldsToken(accept: nat) | MayChange(grant: Grant) | Over

  datatype Call = Call(prep: Prepared, token: Wire, phase: Phase)

  /** `known` are the cluster IDs in the client's cache. */
  datatype State = State(
    core: Shared.Core, planOf: map<TokenBody, nat>, calls: map<CallId, Call>, known: set<string>, log: seq<Event>)

  /** `Learn` is what lookups outside the protocol add to the cache. A request is sent to
      the cluster where it `landed`, if the lookup made for it succeeds. */
  datatype Step =
    | Advance(to: int)
    | Learn(ids: set<string>)
    | PlanChange(params: ChangeParams, seen: Reads, nonce: Nonce)
    | ExecuteChange(id: CallId, params: ChangeParams, seen: Reads)
    | CheckToken(id: CallId)
    | TakeToken(id: CallId)
    | AskUser(id: CallId, reply: Reply)
    | Perform(id: CallId, landed: Option<string>, applied: bool)

  /** Whether a lookup of the name may answer with the ID: a known ID answers itself, and
      any other name can be made to answer any ID (module ClusterDrift). */
  predicate Allowed(known: set<string>, name: string, id: string) {
    name == LOCAL_CLUSTER || name in known ==> id == name
  }

  predicate Answers(known: set<string>, name: string, id: Option<string>) {
    id.Some? ==> Allowed(known, name, id.value)
  }

  /** What the call saw of its cluster's ID is an answer to its lookup. */
  predicate Sees(known: set<string>, p: ChangeParams, r: Reads) {
    Lookup(p).Some? ==> Answers(known, ClusterNamed(Lookup(p).value, p), r.clusterId)
  }

  ghost predicate Enabled(cfg: Config, s: State, step: Step) {
    match step
    case Advance(to) => s.core.clock <= to
    case Learn(_) => true
    case PlanChange(p, r, nonce) => !cfg.readOnly && s.core.Fresh(nonce) && Sees(s.known, p, r)
    case ExecuteChange(id, p, r) => !cfg.readOnly && id !in s.calls && Sees(s.known, p, r)
    case CheckToken(id) => id in s.calls && s.calls[id].phase.Ready?
    case TakeToken(id) => id in s.calls && s.calls[id].phase.PassedChecks? && s.calls[id].token.Sealed?
    case AskUser(id, _) => id in s.calls && s.calls[id].phase.HoldsToken? && s.calls[id].token.Sealed?
    case Perform(id, landed, _) =>
      id in s.calls && s.calls[id].phase.MayChange? && Answers(s.known, s.calls[id].prep.change.Target(), landed)
  }

  function WithPhase(s: State, id: CallId, phase: Phase): State
    requires id in s.calls
  {
    s.(calls := s.calls[id := s.calls[id].(phase := phase)])
  }

  /** A lookup that succeeds caches the ID. */
  function Know(known: set<string>, id: Option<string>): set<string> { if id.Some? then known + {id.value} else known }

  function Learned(s: State, id: Option<string>): State { s.(known := Know(s.known, id)) }

  function PlanNext(cfg: Config, s: State, p: ChangeParams, r: Reads, nonce: Nonce): State {
    match Lookup(p)
    case None => s
    case Some(h) => PlannedNext(cfg, Learned(s, r.clusterId), p, r, Plan(cfg, h, p, r), nonce)
  }

  function PlannedNext(cfg: Config, s: State, p: ChangeParams, r: Reads, planned: Option<Operation>, nonce: Nonce)
    : State
  {
    match planned
    case None => s
    case Some(op) => WithPlan(s, p, r, op, TokenFor(cfg, s, op, nonce))
  }

  function TokenFor(cfg: Config, s: State, op: Operation, nonce: Nonce): TokenBody {
    IssuedBody(op, nonce, s.core.clock, cfg.ttl)
  }

  function WithPlan(s: State, p: ChangeParams, r: Reads, op: Operation, body: TokenBody): State {
    s.(core := s.core.Sign(body), planOf := s.planOf[body := |s.log|], log := s.log + [Planned(p, r, op, body)])
  }

  function WithCall(s: State, id: CallId, c: Call): State { s.(calls := s.calls[id := c]) }

  function ExecuteNext(cfg: Config, s: State, id: CallId, p: ChangeParams, r: Reads): State {
    match Lookup(p)
    case None => s
    case Some(h) =>
      match Prepare(cfg, h, p, r)
      case None => Learned(s, r.clusterId)
      case Some(prep) =>
        var phase := if prep.bypass then MayChange(AutoWritten) else Ready;
        WithCall(Learned(s, r.clusterId), id, Call(prep, p.confirmationToken, phase))
  }

  function CheckNext(s: State, id: CallId): State
    requires id in s.calls
  {
    var c := s.calls[id];
    WithPhase(s, id, if Precheck(s.core.issued, c.prep.op, c.token, s.core.Now()) == Accepted
                     then PassedChecks(s.core.Now()) else Over)
  }

  function TakeNext(s: State, id: CallId): State
    requires id in s.calls && s.calls[id].phase.PassedChecks? && s.calls[id].token.Sealed?
  {
    var c := s.calls[id];
    var (core, v) := s.core.Lock(c.token.body);
    if v == Accepted then
      WithPhase(s, id, HoldsToken(|s.log|)).(
        core := core,
        log := s.log + [TokenTaken(id, c.prep.op, c.token.body, c.phase.checkedAt, s.core.Now(), |s.core.accepts|)])
    else WithPhase(s, id, Over)
  }

  function AskNext(s: State, id: CallId, reply: Reply): State
    requires id in s.calls && s.calls[id].phase.HoldsToken? && s.calls[id].token.Sealed?
  {
    var c := s.calls[id];
    if Decide(c.prep.typedName, reply) == Approved then
      var plan := if c.token.body in s.planOf then s.planOf[c.token.body] else 0;
      WithPhase(s, id, MayChange(Granted(plan, c.phase.accept, |s.log|))).(
        log := s.log + [UserApproved(id, c.prep.op, c.prep.typedName, reply)])
    else WithPhase(s, id, Over)
  }

  function PerformNext(s: State, id: CallId, landed: Option<string>, applied: bool): State
    requires id in s.calls && s.calls[id].phase.MayChange?
  {
    SubmitNext(Learned(s, landed), id, landed, applied)
  }

  /** Once the cluster is found: the request reaches it, and is applied, or not. */
  function SubmitNext(s: State, id: CallId, landed: Option<string>, applied: bool): State
    requires id in s.calls && s.calls[id].phase.MayChange?
  {
    var t := WithPhase(s, id, Over);
    if landed.Some? && applied then t.(log := s.log + [ChangeOf(id, s.calls[id], landed.value)]) else t
  }

  function ChangeOf(id: CallId, c: Call, landed: string): Event
    requires c.phase.MayChange?
  {
    Changed(id, c.prep.op, c.prep.change, landed, c.phase.grant)
  }

  ghost function Next(cfg: Config, s: State, step: Step): State
    requires Enabled(cfg, s, step)
  {
    match step
    case Advance(to) => s.(core := s.core.Advance(to))
    case Learn(ids) => s.(known := s.known + ids)
    case PlanChange(p, r, nonce) => PlanNext(cfg, s, p, r, nonce)
    case ExecuteChange(id, p, r) => ExecuteNext(cfg, s, id, p, r)
    case CheckToken(id) => CheckNext(s, id)
    case TakeToken(id) => TakeNext(s, id)
    case AskUser(id, reply) => AskNext(s, id, reply)
    case Perform(id, landed, applied) => PerformNext(s, id, landed, applied)
  }

  const START := State(Shared.Core(0, {}, map[], []), map[], map[], {}, [])

  /** A run takes the steps in order; a step that is not enabled changes nothing. */
  ghost function Run(cfg: Config, steps: seq<Step>): State {
    if steps == [] then START
    else
      var s := Run(cfg, steps[..|steps| - 1]);
      var step := steps[|steps| - 1];
      if Enabled(cfg, s, step) then Next(cfg, s, step) else s
  }

  /** The grant points, in order and before position `m`, at a plan of this very
      operation, at the acceptance of that plan's token by this call, which presented it
      no later than its expiry, and at the user's approval of it. */
  ghost predicate Justifies(log: seq<Event>, m: nat, call: CallId, op: Operation, grant: Grant) {
    && grant.Granted? && grant.plan < grant.accept < grant.approval < m <= |log|
    && log[grant.plan].Planned? && log[grant.plan].op == op
    && log[grant.accept].TokenTaken? && log[grant.accept].call == call && log[grant.accept].op == op
    && log[grant.accept].body == log[grant.plan].body
    && log[grant.accept].checkedAt <= log[grant.accept].body.expiry
    && log[grant.approval].UserApproved? && log[grant.approval].call == call && log[grant.approval].op == op
    && Decide(log[grant.approval].typedName, log[grant.approval].reply) == Approved
  }

  ghost predicate GoodPrep(cfg: Config, prep: Prepared) {
    && Describes(cfg, prep.op, prep.change)
    && (prep.change.Delete? ==> prep.typedName == prep.change.name != "" && !prep.bypass)
    && (prep.change.Exec? ==> cfg.enableExec && !prep.bypass)
    && (prep.bypass ==> cfg.autoWrite)
  }

  ghost predicate GoodToken(s: State, c: Call) {
    c.token.Sealed? && c.token.body in s.core.issued && Matches(c.token.body, c.prep.op)
  }

  ghost predicate GoodAccept(s: State, id: CallId, c: Call, accept: nat) {
    && accept < |s.log| && s.log[accept].TokenTaken?
    && s.log[accept].call == id && s.log[accept].op == c.prep.op && c.token == Sealed(s.log[accept].body)
    && s.log[accept].checkedAt <= c.token.body.expiry
    && c.token.body in s.planOf && s.planOf[c.token.body] < accept
  }

  ghost predicate GoodCall(cfg: Config, s: State, id: CallId, c: Call) {
    && GoodPrep(cfg, c.prep)
    && (c.prep.change.UpdateNamespace? ==> c.prep.change.cluster in s.known)
    && match c.phase
       case Ready => !c.prep.bypass
       case PassedChecks(at) => GoodToken(s, c) && at <= c.token.body.expiry
       case HoldsToken(accept) => GoodToken(s, c) && GoodAccept(s, id, c, accept)
       case MayChange(AutoWritten) => c.prep.bypass
       case MayChange(grant) =>
         Justifies(s.log, |s.log|, id, c.prep.op, grant) && s.log[grant.approval].typedName == c.prep.typedName
       case Over => true
  }

  /** A request for the local cluster, or for an ID the handler resolved, goes there. */
  predicate LandsWhereSent(e: Event)
    requires e.Changed?
  {
    e.change.UpdateNamespace? || e.change.Target() == LOCAL_CLUSTER ==> e.landed == e.change.Target()
  }

  /** So does one for a name that the plan found to be an ID. */
  predicate LandsAsSeen(plan: Event, e: Event)
    requires plan.Planned? && e.Changed?
  {
    plan.seen.clusterId == Some(e.change.Target()) ==> e.landed == e.change.Target()
  }

  /** What the history says about the change at position `m`. */
  ghost predicate GoodChange(cfg: Config, log: seq<Event>, m: nat)
    requires m < |log| && log[m].Changed?
  {
    var e := log[m];
    && Describes(cfg, e.op, e.change) && LandsWhereSent(e)
    && (e.grant.AutoWritten? ==> cfg.autoWrite && !e.change.Delete? && !e.change.Exec?)
    && (e.grant.Granted? ==> Justifies(log, m, e.call, e.op, e.grant) && LandsAsSeen(log[e.grant.plan], e))
    && (e.change.Delete? ==> e.grant.Granted? && log[e.grant.approval].typedName == e.change.name != "")
    && (e.change.Exec? ==> cfg.enableExec)
  }

  ghost predicate PlansKnown(s: State) {
    forall b :: b in s.core.issued ==>
      b in s.planOf && s.planOf[b] < |s.log| && s.log[s.planOf[b]].Planned? &&
      s.log[s.planOf[b]].body == b && b == Bind(s.log[s.planOf[b]].op, b.nonce, b.expiry)
  }

  /** Every plan event is what the plan handler made of its parameters and reads. */
  ghost predicate PlansHonest(cfg: Config, log: seq<Event>) {
    forall i :: 0 <= i < |log| ==> Honest(cfg, log[i])
  }

  ghost predicate Honest(cfg: Config, e: Event) {
    e.Planned? ==> Lookup(e.params).Some? && Plan(cfg, Lookup(e.params).value, e.params, e.seen) == Some(e.op)
  }

  ghost predicate CallsGood(cfg: Config, s: State) {
    forall id :: id in s.calls ==> GoodCall(cfg, s, id, s.calls[id])
  }

  ghost predicate ChangesGood(cfg: Config, s: State) {
    forall m :: 0 <= m < |s.log| && s.log[m].Changed? ==>
      GoodChange(cfg, s.log, m) && s.log[m].call in s.calls && s.calls[s.log[m].call].phase.Over?
  }

  ghost predicate OneChangePerCall(s: State) {
    forall m, n :: 0 <= m < n < |s.log| && s.log[m].Changed? && s.log[n].Changed? ==> s.log[m].call != s.log[n].call
  }

  /** Acceptances in the history are those of the gate, in order. */
  ghost predicate AcceptancesLogged(s: State) {
    && (forall i :: 0 <= i < |s.log| && s.log[i].TokenTaken? ==>
          s.log[i].order < |s.core.accepts| &&
          s.core.accepts[s.log[i].order] == Shared.Acceptance(s.log[i].body, s.log[i].at))
    && (forall i, j :: 0 <= i < j < |s.log| && s.log[i].TokenTaken? && s.log[j].TokenTaken? ==>
          s.log[i].order < s.log[j].order)
  }

  /** The cluster of every plan is known. */
  ghost predicate PlansSeen(known: set<string>, log: seq<Event>) {
    forall i :: 0 <= i < |log| ==> Seen(known, log[i])
  }

  predicate Seen(known: set<string>, e: Event) {
    e.Planned? && e.seen.clusterId.Some? ==> e.seen.clusterId.value in known
  }

  ghost predicate HistoryGood(cfg: Config, s: State) {
    ChangesGood(cfg, s) && OneChangePerCall(s) && AcceptancesLogged(s) && PlansHonest(cfg, s.log) &&
    PlansSeen(s.known, s.log)
  }

  ghost predicate Inv(cfg: Config, s: State) {
    && s.core.Inv() && PlansKnown(s) && CallsGood(cfg, s) && HistoryGood(cfg, s)
    && (cfg.readOnly ==> s.log == [] && s.calls == map[])
  }

  /** What every step does to the shared history: it only grows. */
  ghost predicate Extends(s: State, t: State) {
    && s.core.issued <= t.core.issued && s.log <= t.log && s.known <= t.known
    && (forall b :: b in s.planOf && b in s.core.issued ==> b in t.planOf && t.planOf[b] == s.planOf[b])
    && (forall k :: k in s.calls && s.calls[k].phase.Over? ==> k in t.calls && t.calls[k].phase.Over?)
  }

  lemma JustifiesKept(log: seq<Event>, more: seq<Event>, m: nat, n: nat, call: CallId, op: Operation, grant: Grant)
    requires log <= more && m <= n <= |more| && Justifies(log, m, call, op, grant)
    ensures Justifies(more, n, call, op, grant)
  {
  }

  lemma GoodCallKept(cfg: Config, s: State, t: State, id: CallId, c: Call)
    requires Extends(s, t) && GoodCall(cfg, s, id, c)
    ensures GoodCall(cfg, t, id, c)
  {
    match c.phase
    case MayChange(grant) =>
      if grant.Granted? {
        JustifiesKept(s.log, t.log, |s.log|, |t.log|, id, c.prep.op, grant);
      }
    case _ =>
  }

  /** Only call `id` moved, and it is good. */
  lemma CallsKept(cfg: Config, s: State, t: State, id: CallId)
    requires Extends(s, t) && CallsGood(cfg, s)
    requires forall k :: k in t.calls && k != id ==> k in s.calls && t.calls[k] == s.calls[k]
    requires id in t.calls ==> GoodCall(cfg, t, id, t.calls[id])
    ensures CallsGood(cfg, t)
  {
    forall k | k in t.calls
      ensures GoodCall(cfg, t, k, t.calls[k])
    {
      if k != id {
        GoodCallKept(cfg, s, t, k, t.calls[k]);
      }
    }
  }

  lemma GoodChangeKept(cfg: Config, log: seq<Event>, more: seq<Event>, m: nat)
    requires log <= more && m < |log| && log[m].Changed? && GoodChange(cfg, log, m)
    ensures GoodChange(cfg, more, m)
  {
    if log[m].grant.Granted? {
      JustifiesKept(log, more, m, m, log[m].call, log[m].op, log[m].grant);
    }
  }

  /** Every change already in the history stays good, and its call stays over. */
  lemma OldChangesKept(cfg: Config, s: State, t: State)
    requires Extends(s, t) && ChangesGood(cfg, s)
    ensures forall m :: 0 <= m < |s.log| && t.log[m].Changed? ==>
      GoodChange(cfg, t.log, m) && t.log[m].call in t.calls && t.calls[t.log[m].call].phase.Over?
  {
    forall m | 0 <= m < |s.log| && t.log[m].Changed?
      ensures GoodChange(cfg, t.log, m) && t.log[m].call in t.calls && t.calls[t.log[m].call].phase.Over?
    {
      GoodChangeKept(cfg, s.log, t.log, m);
    }
  }

  lemma PlansKept(s: State, t: State)
    requires Extends(s, t) && PlansKnown(s) && t.core.issued == s.core.issued
    ensures PlansKnown(t)
  {
  }

  /** The step adds no change and no acceptance. */
  ghost predicate Quiet(s: State, t: State) {
    && t.core.accepts == s.core.accepts && |s.log| <= |t.log| <= |s.log| + 1
    && (|t.log| > |s.log| ==> !t.log[|s.log|].Changed? && !t.log[|s.log|].TokenTaken?)
  }

  lemma QuietKept(cfg: Config, s: State, t: State)
    requires Extends(s, t) && Quiet(s, t) && HistoryGood(cfg, s)
    requires |t.log| > |s.log| ==> Honest(cfg, t.log[|s.log|]) && Seen(t.known, t.log[|s.log|])
    ensures HistoryGood(cfg, t)
  {
    OldChangesKept(cfg, s, t);
    QuietLogged(s, t);
    HonestKept(cfg, s.log, t.log);
    SeenKept(s, t);
  }

  lemma SeenKept(s: State, t: State)
    requires PlansSeen(s.known, s.log) && s.known <= t.known && s.log <= t.log && |t.log| <= |s.log| + 1
    requires |t.log| > |s.log| ==> Seen(t.known, t.log[|s.log|])
    ensures PlansSeen(t.known, t.log)
  {
  }

  lemma HonestKept(cfg: Config, log: seq<Event>, more: seq<Event>)
    requires PlansHonest(cfg, log) && log <= more && |more| <= |log| + 1
    requires |more| > |log| ==> Honest(cfg, more[|log|])
    ensures PlansHonest(cfg, more)
  {
  }

  lemma QuietLogged(s: State, t: State)
    requires s.log <= t.log && Quiet(s, t) && OneChangePerCall(s) && AcceptancesLogged(s)
    ensures OneChangePerCall(t) && AcceptancesLogged(t)
  {
    assert forall i :: 0 <= i < |s.log| ==> t.log[i] == s.log[i];
  }

  lemma PlanKeeps(cfg: Config, s: State, p: ChangeParams, r: Reads, nonce: Nonce)
    requires Inv(cfg, s) && !cfg.readOnly && s.core.Fresh(nonce)
    ensures Inv(cfg, PlanNext(cfg, s, p, r, nonce))
  {
    if Lookup(p).Some? {
      var learned := Learned(s, r.clusterId);
      LearnedKeeps(cfg, s, learned);
      PlannedKeeps(cfg, learned, p, r, Plan(cfg, Lookup(p).value, p, r), nonce);
    }
  }

  lemma PlannedKeeps(cfg: Config, s: State, p: ChangeParams, r: Reads, planned: Option<Operation>, nonce: Nonce)
    requires Inv(cfg, s) && !cfg.readOnly && s.core.Fresh(nonce)
    requires Lookup(p).Some? && planned == Plan(cfg, Lookup(p).value, p, r)
    requires r.clusterId.Some? ==> r.clusterId.value in s.known
    ensures Inv(cfg, PlannedNext(cfg, s, p, r, planned, nonce))
  {
    if planned.Some? {
      SignedKeeps(cfg, s, p, r, planned.value, TokenFor(cfg, s, planned.value, nonce));
    }
  }

  /** Nothing but the cache of IDs grew. */
  lemma LearnedKeeps(cfg: Config, s: State, t: State)
    requires Inv(cfg, s) && s.known <= t.known && t == s.(known := t.known)
    ensures Inv(cfg, t)
  {
    QuietKept(cfg, s, t);
    PlansKept(s, t);
    SameCallsKept(cfg, s, t);
  }

  lemma SignedKeeps(cfg: Config, s: State, p: ChangeParams, r: Reads, op: Operation, body: TokenBody)
    requires Inv(cfg, s) && !cfg.readOnly
    requires Honest(cfg, Planned(p, r, op, body)) && Seen(s.known, Planned(p, r, op, body))
    requires s.core.Fresh(body.nonce) && body == Bind(op, body.nonce, body.expiry)
    ensures Inv(cfg, WithPlan(s, p, r, op, body))
  {
    var t := WithPlan(s, p, r, op, body);
    Shared.SignKeeps(s.core, body);
    assert body !in s.core.issued;
    QuietKept(cfg, s, t);
    SignPlansKnown(s, p, r, op, body);
    SameCallsKept(cfg, s, t);
  }

  lemma SameCallsKept(cfg: Config, s: State, t: State)
    requires Extends(s, t) && CallsGood(cfg, s) && t.calls == s.calls
    ensures CallsGood(cfg, t)
  {
    forall id | id in t.calls
      ensures GoodCall(cfg, t, id, t.calls[id])
    {
      GoodCallKept(cfg, s, t, id, t.calls[id]);
    }
  }

  lemma SignPlansKnown(s: State, p: ChangeParams, r: Reads, op: Operation, body: TokenBody)
    requires PlansKnown(s) && body == Bind(op, body.nonce, body.expiry)
    ensures PlansKnown(WithPlan(s, p, r, op, body))
  {
  }

  lemma ExecuteKeeps(cfg: Config, s: State, id: CallId, p: ChangeParams, r: Reads)
    requires Inv(cfg, s) && !cfg.readOnly && id !in s.calls
    ensures Inv(cfg, ExecuteNext(cfg, s, id, p, r))
  {
    if Lookup(p).Some? {
      var t := Learned(s, r.clusterId);
      LearnedKeeps(cfg, s, t);
      if Prepare(cfg, Lookup(p).value, p, r).Some? {
        PreparedIsGood(cfg, p, r);
        var prep := Prepare(cfg, Lookup(p).value, p, r).value;
        var phase := if prep.bypass then MayChange(AutoWritten) else Ready;
        EnteredKeeps(cfg, t, id, Call(prep, p.confirmationToken, phase));
      }
    }
  }

  lemma PreparedIsGood(cfg: Config, p: ChangeParams, r: Reads)
    requires Lookup(p).Some? && Prepare(cfg, Lookup(p).value, p, r).Some?
    ensures var prep := Prepare(cfg, Lookup(p).value, p, r).value;
      GoodPrep(cfg, prep) && (prep.change.UpdateNamespace? ==> r.clusterId == Some(prep.change.cluster))
  {
    PreparedDescribes(cfg, Lookup(p).value, p, r);
    if Lookup(p).value == DeleteResource {
      DispatchedDeleteIsNamed(p);
    }
  }

  lemma EnteredKeeps(cfg: Config, s: State, id: CallId, c: Call)
    requires Inv(cfg, s) && !cfg.readOnly && id !in s.calls && GoodPrep(cfg, c.prep)
    requires c.prep.change.UpdateNamespace? ==> c.prep.change.cluster in s.known
    requires c.phase == if c.prep.bypass then MayChange(AutoWritten) else Ready
    ensures Inv(cfg, WithCall(s, id, c))
  {
    MovedKeeps(cfg, s, WithCall(s, id, c), id);
  }

  /** A step that moves one call, not over, and leaves the rest of the state alone. */
  lemma MovedKeeps(cfg: Config, s: State, t: State, id: CallId)
    requires Inv(cfg, s) && !cfg.readOnly && t == s.(calls := t.calls) && id in t.calls
    requires id in s.calls ==> !s.calls[id].phase.Over?
    requires forall k :: k != id ==> (k in t.calls <==> k in s.calls)
    requires forall k :: k in s.calls && k != id ==> t.calls[k] == s.calls[k]
    requires GoodCall(cfg, t, id, t.calls[id])
    ensures Inv(cfg, t)
  {
    QuietKept(cfg, s, t);
    PlansKept(s, t);
    CallsKept(cfg, s, t, id);
  }

  lemma CheckKeeps(cfg: Config, s: State, id: CallId)
    requires Inv(cfg, s) && id in s.calls && s.calls[id].phase.Ready?
    ensures Inv(cfg, CheckNext(s, id))
  {
    assert GoodCall(cfg, s, id, s.calls[id]);
    CheckedCallIsGood(cfg, s, id);
    MovedKeeps(cfg, s, CheckNext(s, id), id);
  }

  lemma CheckedCallIsGood(cfg: Config, s: State, id: CallId)
    requires id in s.calls && s.calls[id].phase.Ready? && GoodCall(cfg, s, id, s.calls[id])
    ensures GoodCall(cfg, CheckNext(s, id), id, CheckNext(s, id).calls[id])
  {
  }

  lemma TakeKeeps(cfg: Config, s: State, id: CallId)
    requires Inv(cfg, s) && id in s.calls && s.calls[id].phase.PassedChecks? && s.calls[id].token.Sealed?
    ensures Inv(cfg, TakeNext(s, id))
  {
    assert GoodCall(cfg, s, id, s.calls[id]);
    Shared.LockKeeps(s.core, s.calls[id].token.body);
    TakeCalls(cfg, s, id);
    TakeHistory(cfg, s, id);
  }

  lemma TakeCalls(cfg: Config, s: State, id: CallId)
    requires CallsGood(cfg, s) && PlansKnown(s)
    requires id in s.calls && s.calls[id].phase.PassedChecks? && s.calls[id].token.Sealed?
    ensures var t := TakeNext(s, id);
      CallsGood(cfg, t) && PlansKnown(t) && t.core == s.core.Lock(s.calls[id].token.body).0
  {
    assert GoodCall(cfg, s, id, s.calls[id]);
    TakenCallIsGood(cfg, s, id);
    PlansKept(s, TakeNext(s, id));
    CallsKept(cfg, s, TakeNext(s, id), id);
  }

  lemma TakenCallIsGood(cfg: Config, s: State, id: CallId)
    requires PlansKnown(s) && id in s.calls && s.calls[id].phase.PassedChecks? && s.calls[id].token.Sealed?
    requires GoodCall(cfg, s, id, s.calls[id])
    ensures GoodCall(cfg, TakeNext(s, id), id, TakeNext(s, id).calls[id])
  {
  }

  lemma TakeHistory(cfg: Config, s: State, id: CallId)
    requires HistoryGood(cfg, s)
    requires id in s.calls && s.calls[id].phase.PassedChecks? && s.calls[id].token.Sealed?
    ensures Extends(s, TakeNext(s, id)) && HistoryGood(cfg, TakeNext(s, id))
  {
    var t := TakeNext(s, id);
    var (core, v) := s.core.Lock(s.calls[id].token.body);
    assert Extends(s, t);
    if v == Accepted {
      OldChangesKept(cfg, s, t);
      TakeLogged(s, t);
      HonestKept(cfg, s.log, t.log);
      SeenKept(s, t);
    } else {
      QuietKept(cfg, s, t);
    }
  }

  lemma TakeLogged(s: State, t: State)
    requires AcceptancesLogged(s) && OneChangePerCall(s) && |t.log| == |s.log| + 1 && s.log <= t.log
    requires t.log[|s.log|].TokenTaken? && t.log[|s.log|].order == |s.core.accepts|
    requires t.core.accepts == s.core.accepts + [Shared.Acceptance(t.log[|s.log|].body, t.log[|s.log|].at)]
    ensures AcceptancesLogged(t) && OneChangePerCall(t)
  {
  }

  lemma AskKeeps(cfg: Config, s: State, id: CallId, reply: Reply)
    requires Inv(cfg, s) && id in s.calls && s.calls[id].phase.HoldsToken? && s.calls[id].token.Sealed?
    ensures Inv(cfg, AskNext(s, id, reply))
  {
    var t := AskNext(s, id, reply);
    assert t.core == s.core;
    QuietKept(cfg, s, t);
    PlansKept(s, t);
    AskCalls(cfg, s, id, reply);
  }

  lemma AskCalls(cfg: Config, s: State, id: CallId, reply: Reply)
    requires CallsGood(cfg, s) && PlansKnown(s)
    requires id in s.calls && s.calls[id].phase.HoldsToken? && s.calls[id].token.Sealed?
    ensures CallsGood(cfg, AskNext(s, id, reply))
  {
    assert GoodCall(cfg, s, id, s.calls[id]);
    AskedCallIsGood(cfg, s, id, reply);
    CallsKept(cfg, s, AskNext(s, id, reply), id);
  }

  lemma AskedCallIsGood(cfg: Config, s: State, id: CallId, reply: Reply)
    requires id in s.calls && s.calls[id].phase.HoldsToken? && s.calls[id].token.Sealed?
    requires PlansKnown(s) && GoodCall(cfg, s, id, s.calls[id])
    ensures var t := AskNext(s, id, reply);
      Extends(s, t) && id in t.calls && GoodCall(cfg, t, id, t.calls[id])
  {
    var c := s.calls[id];
    MatchesOnlyItsOperation(s.log[s.planOf[c.token.body]].op, c.token.body.nonce, c.token.body.expiry, c.prep.op);
  }

  lemma PerformKeeps(cfg: Config, s: State, id: CallId, landed: Option<string>, applied: bool)
    requires Inv(cfg, s) && id in s.calls && s.calls[id].phase.MayChange?
    requires Answers(s.known, s.calls[id].prep.change.Target(), landed)
    ensures Inv(cfg, PerformNext(s, id, landed, applied))
  {
    LearnedKeeps(cfg, s, Learned(s, landed));
    SubmitKeeps(cfg, Learned(s, landed), id, landed, applied);
  }

  lemma SubmitKeeps(cfg: Config, s: State, id: CallId, landed: Option<string>, applied: bool)
    requires Inv(cfg, s) && id in s.calls && s.calls[id].phase.MayChange?
    requires Answers(s.known, s.calls[id].prep.change.Target(), landed)
    ensures Inv(cfg, SubmitNext(s, id, landed, applied))
  {
    var t := SubmitNext(s, id, landed, applied);
    SubmitCalls(cfg, s, id, landed, applied);
    PlansKept(s, t);
    if landed.Some? && applied {
      SubmitHistory(cfg, s, id, landed.value);
    } else {
      QuietKept(cfg, s, t);
    }
  }

  lemma SubmitCalls(cfg: Config, s: State, id: CallId, landed: Option<string>, applied: bool)
    requires CallsGood(cfg, s) && id in s.calls && s.calls[id].phase.MayChange?
    ensures var t := SubmitNext(s, id, landed, applied); CallsGood(cfg, t) && Extends(s, t) && t.core == s.core
  {
    assert GoodCall(cfg, s, id, s.calls[id]);
    CallsKept(cfg, s, SubmitNext(s, id, landed, applied), id);
  }

  lemma SubmitHistory(cfg: Config, s: State, id: CallId, landed: string)
    requires CallsGood(cfg, s) && HistoryGood(cfg, s) && id in s.calls && s.calls[id].phase.MayChange?
    requires Allowed(s.known, s.calls[id].prep.change.Target(), landed)
    ensures HistoryGood(cfg, SubmitNext(s, id, Some(landed), true))
  {
    var t := SubmitNext(s, id, Some(landed), true);
    assert t.log == s.log + [ChangeOf(id, s.calls[id], landed)] && t.core == s.core && t.known == s.known;
    HonestKept(cfg, s.log, t.log);
    SeenKept(s, t);
    SubmitOnce(cfg, s, t, id);
    SubmitLogged(s, t);
    SubmitGood(cfg, s, id, landed);
  }

  lemma SubmitGood(cfg: Config, s: State, id: CallId, landed: string)
    requires CallsGood(cfg, s) && ChangesGood(cfg, s) && PlansSeen(s.known, s.log)
    requires id in s.calls && s.calls[id].phase.MayChange?
    requires Allowed(s.known, s.calls[id].prep.change.Target(), landed)
    ensures ChangesGood(cfg, SubmitNext(s, id, Some(landed), true))
  {
    assert GoodCall(cfg, s, id, s.calls[id]);
    OldChangesKept(cfg, s, SubmitNext(s, id, Some(landed), true));
    NewChangeGood(cfg, s, id, landed);
  }

  lemma SubmitLogged(s: State, t: State)
    requires AcceptancesLogged(s) && t.core == s.core && s.log <= t.log && |t.log| == |s.log| + 1
    requires !t.log[|s.log|].TokenTaken?
    ensures AcceptancesLogged(t)
  {
  }

  lemma NewChangeGood(cfg: Config, s: State, id: CallId, landed: string)
    requires id in s.calls && s.calls[id].phase.MayChange? && GoodCall(cfg, s, id, s.calls[id])
    requires PlansSeen(s.known, s.log) && Allowed(s.known, s.calls[id].prep.change.Target(), landed)
    ensures GoodChange(cfg, s.log + [ChangeOf(id, s.calls[id], landed)], |s.log|)
  {
    var c := s.calls[id];
    var more := s.log + [ChangeOf(id, c, landed)];
    if c.phase.grant.Granted? {
      assert Seen(s.known, s.log[c.phase.grant.plan]);
      JustifiesKept(s.log, more, |s.log|, |s.log|, id, c.prep.op, c.phase.grant);
    }
  }

  lemma SubmitOnce(cfg: Config, s: State, t: State, id: CallId)
    requires ChangesGood(cfg, s) && OneChangePerCall(s) && id in s.calls && !s.calls[id].phase.Over?
    requires |t.log| == |s.log| + 1 && s.log <= t.log && t.log[|s.log|].Changed? && t.log[|s.log|].call == id
    ensures OneChangePerCall(t)
  {
  }

  lemma AdvanceServerKeeps(cfg: Config, s: State, to: int)
    requires Inv(cfg, s) && s.core.clock <= to
    ensures Inv(cfg, s.(core := s.core.Advance(to)))
  {
    var t := s.(core := s.core.Advance(to));
    Shared.AdvanceKeeps(s.core, to);
    QuietKept(cfg, s, t);
    PlansKept(s, t);
    SameCallsKept(cfg, s, t);
  }

  lemma NextKeeps(cfg: Config, s: State, step: Step)
    requires Inv(cfg, s) && Enabled(cfg, s, step)
    ensures Inv(cfg, Next(cfg, s, step))
  {
    match step
    case Advance(to) => AdvanceServerKeeps(cfg, s, to);
    case Learn(_) => LearnedKeeps(cfg, s, Next(cfg, s, step));
    case PlanChange(p, r, nonce) => PlanKeeps(cfg, s, p, r, nonce);
    case ExecuteChange(id, p, r) => ExecuteKeeps(cfg, s, id, p, r);
    case CheckToken(id) => CheckKeeps(cfg, s, id);
    case TakeToken(id) => TakeKeeps(cfg, s, id);
    case AskUser(id, reply) => AskKeeps(cfg, s, id, reply);
    case Perform(id, landed, applied) => PerformKeeps(cfg, s, id, landed, applied);
  }

  lemma {:induction false} RunKeeps(cfg: Config, steps: seq<Step>)
    ensures Inv(cfg, Run(cfg, steps))
  {
    if steps != [] {
      var before := steps[..|steps| - 1];
      RunKeeps(cfg, before);
      if Enabled(cfg, Run(cfg, before), steps[|steps| - 1]) {
        NextKeeps(cfg, Run(cfg, before), steps[|steps| - 1]);
      }
    }
  }

  /** Safety over every run. A change that was not auto-written is justified by an
      earlier plan of the identical operation, that plan's token and the user's
      approval. Deletions and commands are never auto-written, and a deletion was
      approved by typing its exact, non-empty name. */
  lemma EveryChangeIsJustified(cfg: Config, steps: seq<Step>, m: nat)
    requires m < |Run(cfg, steps).log| && Run(cfg, steps).log[m].Changed?
    ensures var log := Run(cfg, steps).log; var e := log[m];
      && Describes(cfg, e.op, e.change)
      && (e.grant.AutoWritten? ==> cfg.autoWrite && !e.change.Delete? && !e.change.Exec?)
      && (e.grant.Granted? ==> Justifies(log, m, e.call, e.op, e.grant))
      && (e.change.Exec? ==> cfg.enableExec)
      && (e.change.Delete? ==>
            e.grant.Granted? && e.change.name != "" &&
            var reply := log[e.grant.approval].reply;
            reply.Result? && reply.action == "accept" && reply.confirmName == Some(e.change.name))
  {
    RunKeeps(cfg, steps);
    var log := Run(cfg, steps).log;
    assert GoodChange(cfg, log, m);
    if log[m].change.Delete? {
      ApprovalIsExplicit(log[log[m].grant.approval].typedName, log[log[m].grant.approval].reply);
    }
  }

  ghost predicate InTime(log: seq<Event>, grant: Grant) {
    grant.Granted? && grant.accept < |log| && log[grant.accept].TokenTaken? &&
    log[grant.accept].at <= log[grant.accept].body.expiry
  }

  ghost predicate GrantedAt(log: seq<Event>, m: nat) { m < |log| && log[m].Changed? && log[m].grant.Granted? }

  /** Two changes never share a call, an acceptance or an approval; nor a plan, unless
      the later of its two acceptances came after the token's expiry. */
  lemma GrantsAreDistinct(cfg: Config, steps: seq<Step>, m: nat, n: nat)
    requires m != n && GrantedAt(Run(cfg, steps).log, m) && GrantedAt(Run(cfg, steps).log, n)
    ensures var log := Run(cfg, steps).log;
      && log[m].call != log[n].call
      && log[m].grant.accept != log[n].grant.accept
      && log[m].grant.approval != log[n].grant.approval
      && (log[m].grant.plan == log[n].grant.plan ==>
            !InTime(log, if log[m].grant.accept < log[n].grant.accept then log[n].grant else log[m].grant))
  {
    RunKeeps(cfg, steps);
    DistinctIn(cfg, Run(cfg, steps), m, n);
    if Run(cfg, steps).log[n].grant.accept < Run(cfg, steps).log[m].grant.accept {
      DistinctIn(cfg, Run(cfg, steps), n, m);
    }
  }

  lemma DistinctIn(cfg: Config, s: State, m: nat, n: nat)
    requires HistoryGood(cfg, s) && s.core.OnceInTime()
    requires m != n && GrantedAt(s.log, m) && GrantedAt(s.log, n)
    ensures s.log[m].call != s.log[n].call
    ensures s.log[m].grant.accept != s.log[n].grant.accept && s.log[m].grant.approval != s.log[n].grant.approval
    ensures s.log[m].grant.plan == s.log[n].grant.plan && s.log[m].grant.accept < s.log[n].grant.accept ==>
      !InTime(s.log, s.log[n].grant)
  {
    assert GoodChange(cfg, s.log, m) && GoodChange(cfg, s.log, n);
    assert s.log[m].call != s.log[n].call by {
      assert OneChangePerCall(s);
    }
    if s.log[m].grant.plan == s.log[n].grant.plan && s.log[m].grant.accept < s.log[n].grant.accept {
      LaterIsLate(s, s.log[m].grant.accept, s.log[n].grant.accept);
    }
  }

  lemma LaterIsLate(s: State, a: nat, b: nat)
    requires AcceptancesLogged(s) && s.core.OnceInTime() && a < b < |s.log|
    requires s.log[a].TokenTaken? && s.log[b].TokenTaken? && s.log[a].body == s.log[b].body
    ensures s.log[b].at > s.log[b].body.expiry
  {
    assert s.core.accepts[s.log[a].order].body == s.core.accepts[s.log[b].order].body;
  }

  /** In read-only mode no run changes anything, nor plans anything. */
  lemma ReadOnlyChangesNothing(cfg: Config, steps: seq<Step>)
    requires cfg.readOnly
    ensures Run(cfg, steps).log == []
  {
    RunKeeps(cfg, steps);
  }

  /** Exactly when a token opens the way: it was issued for this very operation, has
      not expired at the check, and is not remembered as used when it is taken. */
  lemma TokenOpensTheWay(cfg: Config, steps: seq<Step>, id: CallId)
    requires id in Run(cfg, steps).calls
    ensures var s := Run(cfg, steps); var c := s.calls[id];
      c.phase.Ready? ==>
        (CheckNext(s, id).calls[id].phase.PassedChecks? <==>
           c.token.Sealed? && s.core.Now() <= c.token.body.expiry && PlannedFor(s, c.token.body, c.prep.op))
    ensures var s := Run(cfg, steps); var c := s.calls[id];
      c.phase.PassedChecks? && c.token.Sealed? ==>
        (TakeNext(s, id).calls[id].phase.HoldsToken? <==> !s.core.Remembered(c.token.body))
  {
    RunKeeps(cfg, steps);
    var s := Run(cfg, steps);
    var c := s.calls[id];
    assert GoodCall(cfg, s, id, c);
    if c.token.Sealed? && c.token.body in s.core.issued {
      var planned := s.log[s.planOf[c.token.body]].op;
      MatchesOnlyItsOperation(planned, c.token.body.nonce, c.token.body.expiry, c.prep.op);
      Shared.LockedVerdict(s.core, c.token.body);
    }
  }

  lemma NextGrows(cfg: Config, s: State, step: Step)
    requires Enabled(cfg, s, step)
    ensures s.log <= Next(cfg, s, step).log && s.core.issued <= Next(cfg, s, step).core.issued
  {
  }

  /** History and issued tokens only grow. */
  lemma {:induction false} RunGrows(cfg: Config, steps: seq<Step>, n: nat)
    requires n <= |steps|
    ensures Run(cfg, steps[..n]).log <= Run(cfg, steps).log
    ensures Run(cfg, steps[..n]).core.issued <= Run(cfg, steps).core.issued
  {
    if n == |steps| {
      assert steps[..n] == steps;
    } else {
      var before := steps[..|steps| - 1];
      RunGrows(cfg, before, n);
      assert before[..n] == steps[..n];
      if Enabled(cfg, Run(cfg, before), steps[|steps| - 1]) {
        NextGrows(cfg, Run(cfg, before), steps[|steps| - 1]);
      }
    }
  }

  /** The step that a history's event records. */
  predicate Records(e: Event, step: Step) {
    match e
    case Planned(p, r, _, body) => step == PlanChange(p, r, body.nonce)
    case TokenTaken(call, _, _, _, _, _) => step == TakeToken(call)
    case UserApproved(call, _, _, reply) => step == AskUser(call, reply)
    case Changed(call, _, _, landed, _) => step == Perform(call, Some(landed), true)
  }

  lemma NextRecords(cfg: Config, s: State, step: Step)
    requires Enabled(cfg, s, step)
    ensures var log := Next(cfg, s, step).log;
      log == s.log || (|log| == |s.log| + 1 && s.log == log[..|s.log|] && Records(log[|s.log|], step))
  {
  }

  /** Nothing is made up: every plan, acceptance, approval and change of the history is a
      step of the run, the approval with the user's own reply and the change as one that
      the API applied where it landed. */
  lemma {:induction false} EventsAreSteps(cfg: Config, steps: seq<Step>, m: nat) returns (n: nat)
    requires m < |Run(cfg, steps).log|
    ensures n < |steps| && Records(Run(cfg, steps).log[m], steps[n])
  {
    var before := steps[..|steps| - 1];
    var last := steps[|steps| - 1];
    if Enabled(cfg, Run(cfg, before), last) {
      NextRecords(cfg, Run(cfg, before), last);
    }
    if m < |Run(cfg, before).log| {
      n := EventsAreSteps(cfg, before, m);
    } else {
      n := |steps| - 1;
    }
  }

  /** Step `n` of the run is a plan that succeeds. */
  ghost predicate PlansAt(cfg: Config, steps: seq<Step>, n: nat) {
    && n < |steps| && steps[n].PlanChange? && Enabled(cfg, Run(cfg, steps[..n]), steps[n])
    && Lookup(steps[n].params).Some? && Plan(cfg, Lookup(steps[n].params).value, steps[n].params, steps[n].seen).Some?
  }

  /** What a successful plan leaves in the history, and the life of its token: the check
      of any later call of this operation that presents it passes exactly up to the second
      that the time of the plan plus the lifetime falls into. */
  lemma TokenLivesItsLifetime(cfg: Config, steps: seq<Step>, n: nat, id: CallId)
    requires PlansAt(cfg, steps, n)
    ensures var planned, s := Run(cfg, steps[..n]), Run(cfg, steps);
      && |planned.log| < |s.log| && s.log[|planned.log|].Planned?
      && var plan := s.log[|planned.log|];
         plan.params == steps[n].params && plan.seen == steps[n].seen &&
         (id in s.calls && s.calls[id].phase.Ready? && s.calls[id].prep.op == plan.op &&
          s.calls[id].token == Sealed(plan.body) ==>
            (CheckNext(s, id).calls[id].phase.PassedChecks? <==>
               s.core.clock / 1_000_000_000 <= (planned.core.clock + cfg.ttl) / 1_000_000_000))
  {
    var planned, s := Run(cfg, steps[..n]), Run(cfg, steps);
    PlanLogged(cfg, steps, n);
    var plan := Run(cfg, steps[..n + 1]).log[|planned.log|];
    RunGrows(cfg, steps, n + 1);
    assert s.log[|planned.log|] == plan;
    MatchesOnlyItsOperation(plan.op, plan.body.nonce, plan.body.expiry, plan.op);
  }

  lemma PlanLogged(cfg: Config, steps: seq<Step>, n: nat)
    requires PlansAt(cfg, steps, n)
    ensures var planned, t := Run(cfg, steps[..n]), Run(cfg, steps[..n + 1]);
      && |t.log| == |planned.log| + 1 && t.log[|planned.log|].Planned?
      && var plan := t.log[|planned.log|];
         && plan.params == steps[n].params && plan.seen == steps[n].seen
         && plan.body == TokenFor(cfg, planned, plan.op, steps[n].nonce) && plan.body in t.core.issued
  {
    assert steps[..n + 1][..n] == steps[..n];
    var p := steps[n].params;
    var learned := Learned(Run(cfg, steps[..n]), steps[n].seen.clusterId);
    SignedLog(cfg, learned, p, steps[n].seen, Plan(cfg, Lookup(p).value, p, steps[n].seen), steps[n].nonce);
  }

  lemma SignedLog(cfg: Config, s: State, p: ChangeParams, r: Reads, planned: Option<Operation>, nonce: Nonce)
    requires planned.Some?
    ensures var t := PlannedNext(cfg, s, p, r, planned, nonce);
      var body := TokenFor(cfg, s, planned.value, nonce);
      t.log == s.log + [Planned(p, r, planned.value, body)] && body in t.core.issued
  {
  }

  /** The body is that of a token a plan of this operation issued. */
  ghost predicate PlannedFor(s: State, body: TokenBody, op: Operation) {
    && body in s.core.issued && body in s.planOf && s.planOf[body] < |s.log|
    && s.log[s.planOf[body]].Planned? && s.log[s.planOf[body]].op == op
  }

  ghost function Replay(cfg: Config, s: State, steps: seq<Step>): State
    decreases |steps|
  {
    if steps == [] then s
    else Replay(cfg, if Enabled(cfg, s, steps[0]) then Next(cfg, s, steps[0]) else s, steps[1..])
  }

  lemma ReplayStep(cfg: Config, s: State, step: Step, rest: seq<Step>)
    requires Enabled(cfg, s, step)
    ensures Replay(cfg, s, [step] + rest) == Replay(cfg, Next(cfg, s, step), rest)
  {
    assert ([step] + rest)[1..] == rest;
  }

  lemma {:induction false} ReplayIsRun(cfg: Config, steps: seq<Step>, more: seq<Step>)
    ensures Run(cfg, steps + more) == Replay(cfg, Run(cfg, steps), more)
    decreases |more|
  {
    if more == [] {
      assert steps + more == steps;
    } else {
      var next := steps + [more[0]];
      assert next[..|steps|] == steps && next + more[1..] == steps + more;
      ReplayIsRun(cfg, next, more[1..]);
    }
  }
}
