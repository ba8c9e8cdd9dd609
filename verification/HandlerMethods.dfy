/** The execute handlers as the source runs them, effect after effect, and their
    place among the runs of the change server. */
module HandlerMethods {
  import opened Wrappers
  import opened Operations
  import opened Confirm
  import opened Dispatch
  import opened JsonValue
  import opened Resolve
  import opened ChangeHandlers
  import opened ScaleNodePool
  import ExecPod
  import Text
  import Server = ChangeServer

  /** A request that changed a cluster, and the ID of that cluster. */
  datatype Made = Made(change: Change, landed: string)

  /** The clusters as the log of the requests that changed them. */
  class Cluster {
    var changes: seq<Made>

    /** Looks the cluster up once more, and sends the request there. */
    method Submit(change: Change, landed: Option<string>, applied: bool)
      modifies this
      ensures changes == old(changes) + Sent(change, landed, applied)
    {
      if landed.None? {
        return;
      }
      if applied {
        changes := changes + [Made(change, landed.value)];
      }
    }
  }

  function Sent(change: Change, landed: Option<string>, applied: bool): seq<Made> {
    if landed.Some? && applied then [Made(change, landed.value)] else []
  }

  /** One namespace object, updated in place before it is submitted. */
  class NamespaceObject {
    var labels: Option<Tags>
    var annotations: Option<Tags>
    const rest: string

    constructor (found: NamespaceRead)
      ensures labels == found.labels && annotations == found.annotations && rest == found.rest
    {
      labels, annotations, rest := found.labels, found.annotations, found.rest;
    }

    method AssignProject(clusterId: string, projectId: string)
      modifies this
      ensures labels == Some(old(labels).GetOr(map[])[PROJECT_TAG := projectId])
      ensures annotations == Some(old(annotations).GetOr(map[])[PROJECT_TAG := clusterId + ":" + projectId])
    {
      if labels.None? {
        labels := Some(map[]);
      }
      labels := Some(labels.value[PROJECT_TAG := projectId]);
      if annotations.None? {
        annotations := Some(map[]);
      }
      annotations := Some(annotations.value[PROJECT_TAG := clusterId + ":" + projectId]);
    }
  }

  /** What happens around one call: its two clock readings, the user's reply, the cluster
      that the last lookup finds, and whether the API applies the request. */
  datatype Weather = Weather(checkedAt: int, lockedAt: int, reply: Reply, landed: Option<string>, applied: bool) {
    function Send(change: Change): seq<Made> { Sent(change, landed, applied) }
  }

  /** The gate's memory and the change made, if any, by one uninterrupted call. */
  function Handle(prepared: Option<Prepared>, token: Wire, w: Weather, issued: set<TokenBody>, consumed: Consumed)
    : (Consumed, seq<Made>)
  {
    match prepared
    case None => (consumed, [])
    case Some(prep) =>
      if prep.bypass then (consumed, w.Send(prep.change))
      else
        var (after, v) := Require(issued, consumed, prep.op, token, w.checkedAt, w.lockedAt);
        (after, if v == Accepted && Decide(prep.typedName, w.reply) == Approved then w.Send(prep.change) else [])
  }

  method DeleteKubernetesResource(cfg: Config, gate: Gate, cluster: Cluster, p: ChangeParams, r: Reads, w: Weather)
    modifies gate`consumed, cluster
    ensures var (after, made) :=
        Handle(Prepare(cfg, DeleteResource, p, r), p.confirmationToken, w, gate.issued, old(gate.consumed));
      gate.consumed == after && cluster.changes == old(cluster.changes) + made
  {
    var gvr := TypeOf(cfg, p.kind, p.apiVersion, r.discovery);
    if gvr.None? {
      return;
    }
    var op := Operation(DeleteResource, p.cluster, p.namespace, p.kind, p.name, NO_PAYLOAD);
    var answer := gate.Check(op, p.confirmationToken, p.name, false, w.checkedAt, w.lockedAt, w.reply);
    if !answer.MayExecute() {
      return;
    }
    cluster.Submit(Delete(p.cluster, p.namespace, gvr.value, p.name), w.landed, w.applied);
  }

  method UpdateKubernetesResource(cfg: Config, gate: Gate, cluster: Cluster, p: ChangeParams, r: Reads, w: Weather)
    modifies gate`consumed, cluster
    ensures var (after, made) :=
        Handle(Prepare(cfg, PatchResource, p, r), p.confirmationToken, w, gate.issued, old(gate.consumed));
      gate.consumed == after && cluster.changes == old(cluster.changes) + made
  {
    if p.patch.None? || p.patch.value.Undecodable? {
      return;
    }
    var gvr := TypeOf(cfg, p.kind, p.apiVersion, r.discovery);
    if gvr.None? {
      return;
    }
    var doc := PatchList(p.patch.value.ops);
    var op := Operation(PatchResource, p.cluster, p.namespace, p.kind, p.name, Json(doc));
    var answer := gate.Check(op, p.confirmationToken, "", cfg.autoWrite, w.checkedAt, w.lockedAt, w.reply);
    if !answer.MayExecute() {
      return;
    }
    cluster.Submit(Patch(p.cluster, p.namespace, gvr.value, p.name, doc), w.landed, w.applied);
  }

  method RunInPod(cfg: Config, gate: Gate, cluster: Cluster, p: ChangeParams, r: Reads, w: Weather)
    modifies gate`consumed, cluster
    ensures var (after, made) :=
        Handle(Prepare(cfg, ExecInPod, p, r), p.confirmationToken, w, gate.issued, old(gate.consumed));
      gate.consumed == after && cluster.changes == old(cluster.changes) + made
  {
    if !cfg.enableExec {
      return;
    }
    var command := p.command.GetOr([]);
    if |command| == 0 {
      return;
    }
    var op := Operation(ExecInPod, p.cluster, p.namespace, "pod", p.name, Raw(ExecPod.Join(command)));
    var answer := gate.Check(op, p.confirmationToken, "", false, w.checkedAt, w.lockedAt, w.reply);
    if !answer.MayExecute() {
      return;
    }
    cluster.Submit(Exec(p.cluster, p.namespace, p.name, p.container, command), w.landed, w.applied);
  }

  method ScaleClusterNodePool(cfg: Config, gate: Gate, cluster: Cluster, p: ChangeParams, r: Reads, w: Weather)
    modifies gate`consumed, cluster
    ensures var (after, made) :=
        Handle(Prepare(cfg, ScalePool, p, r), p.confirmationToken, w, gate.issued, old(gate.consumed));
      gate.consumed == after && cluster.changes == old(cluster.changes) + made
  {
    var namespace := p.namespace;
    if namespace == "" || namespace == "default" {
      namespace := DEFAULT_NAMESPACE;
    }
    if Text.Lower(p.cluster) == LOCAL_CLUSTER {
      return;
    }
    if r.provCluster.None? {
      return;
    }
    var patch := ComputeScalePatch(
      r.provCluster.value, ScaleParams(p.nodePoolName, p.desiredSize, p.amountToAdd, p.amountToSubtract));
    if patch.Failure? {
      return;
    }
    var op := Operation(ScalePool, p.cluster, namespace, "nodepool", p.nodePoolName, Json(patch.value));
    var answer := gate.Check(op, p.confirmationToken, "", cfg.autoWrite, w.checkedAt, w.lockedAt, w.reply);
    if !answer.MayExecute() {
      return;
    }
    cluster.Submit(Patch(LOCAL_CLUSTER, namespace, CLUSTER_GVR, p.cluster, patch.value), w.landed, w.applied);
  }

  method MoveNamespace(cfg: Config, gate: Gate, cluster: Cluster, p: ChangeParams, r: Reads, w: Weather)
    modifies gate`consumed, cluster
    ensures var (after, made) :=
        Handle(Prepare(cfg, MoveNs, p, r), p.confirmationToken, w, gate.issued, old(gate.consumed));
      gate.consumed == after && cluster.changes == old(cluster.changes) + made
  {
    if r.clusterId.None? || r.projectId.None? || r.namespace.None? {
      return;
    }
    var namespace := new NamespaceObject(r.namespace.value);
    namespace.AssignProject(r.clusterId.value, r.projectId.value);
    var payload := Json(MoveIds(r.clusterId.value, p.namespace, r.projectId.value));
    var op := Operation(MoveNs, p.cluster, p.namespace, "namespace", p.namespace, payload);
    var answer := gate.Check(op, p.confirmationToken, "", cfg.autoWrite, w.checkedAt, w.lockedAt, w.reply);
    if !answer.MayExecute() {
      return;
    }
    var update := UpdateNamespace(
      r.clusterId.value, p.namespace, namespace.labels.value, namespace.annotations.value, namespace.rest);
    cluster.Submit(update, w.landed, w.applied);
  }

  method CreateKubernetesResource(cfg: Config, gate: Gate, cluster: Cluster, p: ChangeParams, r: Reads, w: Weather)
    modifies gate`consumed, cluster
    ensures var (after, made) :=
        Handle(Prepare(cfg, CreateResource, p, r), p.confirmationToken, w, gate.issued, old(gate.consumed));
      gate.consumed == after && cluster.changes == old(cluster.changes) + made
  {
    if !p.manifest.Parsed? {
      return;
    }
    var fields := p.manifest.fields;
    var kind, name := StringAt(fields, "kind"), MetadataAt(fields, "name");
    var gv := ManifestVersion(fields);
    if kind == "" || gv.version == "" || !Text.EqualFold(p.kind, kind) || (p.name != "" && p.name != name) {
      return;
    }
    var namespace := p.namespace;
    if namespace == "" {
      namespace := MetadataAt(fields, "namespace");
    }
    var gvr := TypeIn(cfg, kind, gv, r.discovery);
    if gvr.None? {
      return;
    }
    var op := Operation(CreateResource, p.cluster, namespace, kind, name, Json(Document(Object(fields))));
    var answer := gate.Check(op, p.confirmationToken, "", cfg.autoWrite, w.checkedAt, w.lockedAt, w.reply);
    if !answer.MayExecute() {
      return;
    }
    cluster.Submit(Create(p.cluster, namespace, gvr.value, Object(fields)), w.landed, w.applied);
  }

  /** The four tools that build the object they create run alike. */
  method CreateBuilt(cfg: Config, gate: Gate, cluster: Cluster, h: Tool, p: ChangeParams, r: Reads, w: Weather)
    requires Builds(h)
    modifies gate`consumed, cluster
    ensures var (after, made) := Handle(Prepare(cfg, h, p, r), p.confirmationToken, w, gate.issued, old(gate.consumed));
      gate.consumed == after && cluster.changes == old(cluster.changes) + made
  {
    var built := BuiltObject(cfg, h, p, r.fullVersion);
    if built.None? {
      return;
    }
    var op := BuiltOperation(h, p, built.value);
    var answer := gate.Check(op, p.confirmationToken, "", cfg.autoWrite, w.checkedAt, w.lockedAt, w.reply);
    if !answer.MayExecute() {
      return;
    }
    cluster.Submit(BuiltChange(h, p, built.value), w.landed, w.applied);
  }

  function LastOf(id: Server.CallId, w: Weather): Server.Step { Server.Perform(id, w.landed, w.applied) }

  function AfterTake(id: Server.CallId, w: Weather): seq<Server.Step> {
    [Server.AskUser(id, w.reply)] + ([LastOf(id, w)] + [])
  }

  function AfterExecute(id: Server.CallId, w: Weather): seq<Server.Step> {
    [Server.CheckToken(id)] + ([Server.Advance(w.lockedAt)] + ([Server.TakeToken(id)] + AfterTake(id, w)))
  }

  /** The steps one uninterrupted call takes. */
  function CallSteps(id: Server.CallId, p: ChangeParams, r: Reads, w: Weather): seq<Server.Step> {
    [Server.ExecuteChange(id, p, r)] + AfterExecute(id, w)
  }

  /** The changes in a history, in order. */
  function Changes(log: seq<Server.Event>): seq<Made> {
    if log == [] then []
    else
      var last := log[|log| - 1];
      Changes(log[..|log| - 1]) + if last.Changed? then [Made(last.change, last.landed)] else []
  }

  lemma ChangesSnoc(log: seq<Server.Event>, e: Server.Event)
    ensures Changes(log + [e]) == Changes(log) + if e.Changed? then [Made(e.change, e.landed)] else []
  {
    assert (log + [e])[..|log|] == log;
  }

  lemma Take(cfg: Config, s: Server.State, step: Server.Step, rest: seq<Server.Step>)
    ensures Server.Replay(cfg, s, [step] + rest) ==
      Server.Replay(cfg, if Server.Enabled(cfg, s, step) then Server.Next(cfg, s, step) else s, rest)
  {
    assert ([step] + rest)[1..] == rest;
  }

  /** The state of the server agrees with what an uninterrupted call did. */
  ghost predicate Agrees(s: Server.State, t: Server.State, effect: (Consumed, seq<Made>)) {
    t.core.consumed == effect.0 && Changes(t.log) == Changes(s.log) + effect.1
  }

  /** The last lookup of a prepared call answers with what its name may answer. */
  predicate LandsWhere(known: set<string>, prepared: Option<Prepared>, r: Reads, w: Weather) {
    prepared.Some? ==> CanLand(Server.Know(known, r.clusterId), prepared.value, w)
  }

  predicate CanLand(known: set<string>, prep: Prepared, w: Weather) {
    Server.Answers(known, prep.change.Target(), w.landed)
  }

  /** A call that no other call interrupts is one run of the server: the handler
      methods and the step machine make the same changes. */
  lemma UninterruptedCallIsARun(cfg: Config, s: Server.State, id: Server.CallId, p: ChangeParams, r: Reads, w: Weather)
    requires !cfg.readOnly && Lookup(p).Some? && id !in s.calls
    requires s.core.clock == w.checkedAt <= w.lockedAt
    requires Server.Sees(s.known, p, r) && LandsWhere(s.known, Prepare(cfg, Lookup(p).value, p, r), r, w)
    ensures Agrees(s, Server.Replay(cfg, s, CallSteps(id, p, r, w)),
                   Handle(Prepare(cfg, Lookup(p).value, p, r), p.confirmationToken, w, s.core.issued, s.core.consumed))
  {
    Take(cfg, s, Server.ExecuteChange(id, p, r), AfterExecute(id, w));
    var t := Server.ExecuteNext(cfg, s, id, p, r);
    match Prepare(cfg, Lookup(p).value, p, r)
    case None =>
      IdleCall(cfg, t, id, w);
    case Some(prep) =>
      if prep.bypass {
        BypassedCall(cfg, t, id, w);
      } else {
        GatedCall(cfg, t, id, w);
      }
  }

  /** A call that is over, or was never begun, takes no further step. */
  lemma IdleCall(cfg: Config, s: Server.State, id: Server.CallId, w: Weather)
    requires id in s.calls ==> s.calls[id].phase.Over?
    requires s.core.clock <= w.lockedAt
    ensures Server.Replay(cfg, s, AfterExecute(id, w)) == s.(core := s.core.Advance(w.lockedAt))
    ensures Server.Replay(cfg, s, AfterTake(id, w)) == s
  {
    var t := s.(core := s.core.Advance(w.lockedAt));
    Take(cfg, s, Server.CheckToken(id), [Server.Advance(w.lockedAt)] + ([Server.TakeToken(id)] + AfterTake(id, w)));
    Take(cfg, s, Server.Advance(w.lockedAt), [Server.TakeToken(id)] + AfterTake(id, w));
    Take(cfg, t, Server.TakeToken(id), AfterTake(id, w));
    Take(cfg, t, Server.AskUser(id, w.reply), [LastOf(id, w)] + []);
    Take(cfg, t, LastOf(id, w), []);
    Take(cfg, s, Server.AskUser(id, w.reply), [LastOf(id, w)] + []);
    Take(cfg, s, LastOf(id, w), []);
  }

  /** The last step of a call that may change the cluster. */
  lemma LastStep(cfg: Config, s: Server.State, id: Server.CallId, w: Weather)
    requires id in s.calls && s.calls[id].phase.MayChange? && CanLand(s.known, s.calls[id].prep, w)
    ensures Agrees(s, Server.Replay(cfg, s, [LastOf(id, w)] + []),
                   (s.core.consumed, w.Send(s.calls[id].prep.change)))
  {
    Take(cfg, s, LastOf(id, w), []);
    if w.landed.Some? {
      ChangesSnoc(s.log, Server.ChangeOf(id, s.calls[id], w.landed.value));
    }
  }

  lemma BypassedCall(cfg: Config, s: Server.State, id: Server.CallId, w: Weather)
    requires id in s.calls && s.calls[id].phase == Server.MayChange(Server.AutoWritten)
    requires s.core.clock <= w.lockedAt && CanLand(s.known, s.calls[id].prep, w)
    ensures Agrees(s, Server.Replay(cfg, s, AfterExecute(id, w)),
                   (s.core.consumed, w.Send(s.calls[id].prep.change)))
  {
    var t := s.(core := s.core.Advance(w.lockedAt));
    Take(cfg, s, Server.CheckToken(id), [Server.Advance(w.lockedAt)] + ([Server.TakeToken(id)] + AfterTake(id, w)));
    Take(cfg, s, Server.Advance(w.lockedAt), [Server.TakeToken(id)] + AfterTake(id, w));
    Take(cfg, t, Server.TakeToken(id), AfterTake(id, w));
    Take(cfg, t, Server.AskUser(id, w.reply), [LastOf(id, w)] + []);
    LastStep(cfg, t, id, w);
  }

  lemma GatedCall(cfg: Config, s: Server.State, id: Server.CallId, w: Weather)
    requires id in s.calls && s.calls[id].phase.Ready? && !s.calls[id].prep.bypass
    requires s.core.clock == w.checkedAt <= w.lockedAt && CanLand(s.known, s.calls[id].prep, w)
    ensures Agrees(s, Server.Replay(cfg, s, AfterExecute(id, w)),
                   Handle(Some(s.calls[id].prep), s.calls[id].token, w, s.core.issued, s.core.consumed))
  {
    var c := s.calls[id];
    var s1 := Server.CheckNext(s, id);
    var s2 := s1.(core := s1.core.Advance(w.lockedAt));
    Take(cfg, s, Server.CheckToken(id), [Server.Advance(w.lockedAt)] + ([Server.TakeToken(id)] + AfterTake(id, w)));
    Take(cfg, s1, Server.Advance(w.lockedAt), [Server.TakeToken(id)] + AfterTake(id, w));
    if s1.calls[id].phase.PassedChecks? {
      CheckedCall(cfg, s2, id, w);
    } else {
      Take(cfg, s2, Server.TakeToken(id), AfterTake(id, w));
      IdleCall(cfg, s2, id, w);
    }
  }

  lemma CheckedCall(cfg: Config, s: Server.State, id: Server.CallId, w: Weather)
    requires id in s.calls && s.calls[id].phase.PassedChecks? && s.calls[id].token.Sealed?
    requires s.core.clock == w.lockedAt && CanLand(s.known, s.calls[id].prep, w)
    ensures var c := s.calls[id];
      var (after, v) := LockedSection(s.core.consumed, c.token.body, s.core.Now());
      Agrees(s, Server.Replay(cfg, s, [Server.TakeToken(id)] + AfterTake(id, w)),
             (after,
              if v == Accepted && Decide(c.prep.typedName, w.reply) == Approved then w.Send(c.prep.change) else []))
  {
    Take(cfg, s, Server.TakeToken(id), AfterTake(id, w));
    var t := Server.TakeNext(s, id);
    TakeEffect(s, id);
    if t.calls[id].phase.HoldsToken? {
      TakenCall(cfg, t, id, w);
    } else {
      IdleCall(cfg, t, id, w);
    }
  }

  /** Taking the token runs the locked section and changes nothing in the cluster. */
  lemma TakeEffect(s: Server.State, id: Server.CallId)
    requires id in s.calls && s.calls[id].phase.PassedChecks? && s.calls[id].token.Sealed?
    ensures var c, t := s.calls[id], Server.TakeNext(s, id);
      var (after, v) := LockedSection(s.core.consumed, c.token.body, s.core.Now());
      && t.core.consumed == after && t.core.clock == s.core.clock && t.known == s.known
      && Changes(t.log) == Changes(s.log)
      && t.calls == s.calls[id := c.(phase := if v == Accepted then Server.HoldsToken(|s.log|) else Server.Over)]
  {
    var c := s.calls[id];
    var taken := Server.TokenTaken(
      id, c.prep.op, c.token.body, c.phase.checkedAt, s.core.Now(), |s.core.accepts|);
    ChangesSnoc(s.log, taken);
  }

  /** The user's answer decides, and changes nothing in the cluster. */
  lemma AskEffect(s: Server.State, id: Server.CallId, reply: Reply)
    requires id in s.calls && s.calls[id].phase.HoldsToken? && s.calls[id].token.Sealed?
    ensures var c, t := s.calls[id], Server.AskNext(s, id, reply);
      && t.core == s.core && t.known == s.known && Changes(t.log) == Changes(s.log)
      && id in t.calls && t.calls[id].prep == c.prep
      && (if Decide(c.prep.typedName, reply) == Approved then t.calls[id].phase.MayChange? else t.calls[id].phase.Over?)
  {
    ChangesSnoc(s.log, Server.UserApproved(id, s.calls[id].prep.op, s.calls[id].prep.typedName, reply));
  }

  lemma TakenCall(cfg: Config, s: Server.State, id: Server.CallId, w: Weather)
    requires id in s.calls && s.calls[id].phase.HoldsToken? && s.calls[id].token.Sealed?
    requires s.core.clock <= w.lockedAt && CanLand(s.known, s.calls[id].prep, w)
    ensures Agrees(s, Server.Replay(cfg, s, AfterTake(id, w)),
                   (s.core.consumed,
                    if Decide(s.calls[id].prep.typedName, w.reply) == Approved
                    then w.Send(s.calls[id].prep.change) else []))
  {
    var t := Server.AskNext(s, id, w.reply);
    Take(cfg, s, Server.AskUser(id, w.reply), [LastOf(id, w)] + []);
    AskEffect(s, id, w.reply);
    if t.calls[id].phase.MayChange? {
      LastStep(cfg, t, id, w);
    } else {
      Take(cfg, t, LastOf(id, w), []);
    }
  }
}
