/** The keep-alive gate: open elicitations per session, one watchdog per session, and
    the throttle of rapid elicitations. Times are nanoseconds of a monotonic clock. */
module Keepalive {
  import opened Wrappers

  const MIN_SPACING := 2_000_000_000

  type SessionId = string

  type WatchId = nat

  /** `latestStart` is None while it holds Go's zero time. */
  datatype SessionState = SessionState(open: int, latestStart: Option<int>, cancelWatch: Option<WatchId>)

  const NEW_SESSION := SessionState(0, None, None)

  /** The gate's entries, the watchdog contexts not yet cancelled with the session
      each one pings, and how many watchdogs were ever started. */
  datatype GateState = GateState(
    sessions: map<SessionId, SessionState>, live: map<WatchId, SessionId>, started: nat)

  function Entry(g: GateState, id: SessionId): SessionState {
    if id in g.sessions then g.sessions[id] else NEW_SESSION
  }

  function Throttle(s: SessionState, since: int): int {
    if s.latestStart.Some? && since - s.latestStart.value < MIN_SPACING
    then MIN_SPACING - (since - s.latestStart.value)
    else 0
  }

  function Begin(g: GateState, id: SessionId, now: int): GateState {
    var s := Entry(g, id);
    g.(sessions := g.sessions[id := s.(latestStart := Some(now), open := s.open + 1)])
  }

  function Done(g: GateState, id: SessionId): GateState {
    if id !in g.sessions then g
    else
      var s := g.sessions[id];
      var open := if s.open > 0 then s.open - 1 else s.open;
      if open != 0 then g.(sessions := g.sessions[id := s.(open := open)])
      else
        g.(sessions := g.sessions - {id},
           live := if s.cancelWatch.Some? then g.live - {s.cancelWatch.value} else g.live)
  }

  function EnsureWatchdog(g: GateState, id: SessionId): GateState {
    if id !in g.sessions || g.sessions[id].cancelWatch.Some? then g
    else
      GateState(g.sessions[id := g.sessions[id].(cancelWatch := Some(g.started))],
                g.live[g.started := id], g.started + 1)
  }

  class Gate {
    var sessions: map<SessionId, SessionState>
    var live: map<WatchId, SessionId>
    var started: nat

    function State(): GateState
      reads this
    {
      GateState(sessions, live, started)
    }

    constructor ()
      ensures State() == GateState(map[], map[], 0)
    {
      sessions, live, started := map[], map[], 0;
    }

    /** `since` is the reading of time.Since, `now` the one of time.Now. */
    method BeginElicitation(id: SessionId, since: int, now: int) returns (wait: int)
      modifies this
      ensures State() == Begin(old(State()), id, now)
      ensures wait == Throttle(Entry(old(State()), id), since)
    {
      var s := NEW_SESSION;
      if id in sessions {
        s := sessions[id];
      }
      wait := 0;
      if s.latestStart.Some? {
        var d := since - s.latestStart.value;
        if d < MIN_SPACING {
          wait := MIN_SPACING - d;
        }
      }
      s := s.(latestStart := Some(now));
      s := s.(open := s.open + 1);
      sessions := sessions[id := s];
    }

    method FinishElicitation(id: SessionId)
      modifies this
      ensures State() == Done(old(State()), id)
    {
      if id !in sessions {
        return;
      }
      var s := sessions[id];
      if s.open > 0 {
        s := s.(open := s.open - 1);
      }
      if s.open == 0 {
        if s.cancelWatch.Some? {
          live := live - {s.cancelWatch.value};
          s := s.(cancelWatch := None);
        }
        sessions := sessions - {id};
      } else {
        sessions := sessions[id := s];
      }
    }

    method StartWatchdog(id: SessionId)
      modifies this
      ensures State() == EnsureWatchdog(old(State()), id)
    {
      if id !in sessions || sessions[id].cancelWatch.Some? {
        return;
      }
      live := live[started := id];
      sessions := sessions[id := sessions[id].(cancelWatch := Some(started))];
      started := started + 1;
    }
  }

  type CallId = nat

  /** A call of the middleware: still throttled, or with its dialog in flight. */
  datatype Phase = Throttled(readyAt: int, wait: int) | InDialog

  datatype Call = Call(session: SessionId, phase: Phase)

  /** What one begin read and returned. */
  datatype Begun = Begun(since: int, now: int, wait: int) {
    /** The timer is set after the begin, so the dialog starts no earlier. */
    function EarliestStart(): int { now + wait }
  }

  /** `begins` lists the begins in the life of each present entry. */
  datatype System = System(
    gate: GateState, clock: int, calls: map<CallId, Call>, begins: map<SessionId, seq<Begun>>)

  datatype Step =
    | Advance(to: int)
    | Enter(call: CallId, session: SessionId, since: int, now: int)
    | GiveUp(call: CallId)
    | OpenDialog(call: CallId)
    | Finish(call: CallId)

  predicate Enabled(s: System, step: Step) {
    match step
    case Advance(to) => s.clock <= to
    case Enter(call, _, since, now) => call !in s.calls && s.clock <= since <= now
    case GiveUp(call) => call in s.calls && s.calls[call].phase.Throttled? && s.calls[call].phase.wait > 0
    case OpenDialog(call) =>
      call in s.calls && s.calls[call].phase.Throttled? && s.clock >= s.calls[call].phase.readyAt
    case Finish(call) => call in s.calls && s.calls[call].phase.InDialog?
  }

  function Leave(s: System, call: CallId): System
    requires call in s.calls
  {
    var id := s.calls[call].session;
    var gate := Done(s.gate, id);
    s.(gate := gate, calls := s.calls - {call}, begins := if id in gate.sessions then s.begins else s.begins - {id})
  }

  function Next(s: System, step: Step): System
    requires Enabled(s, step)
  {
    match step
    case Advance(to) => s.(clock := to)
    case Enter(call, id, since, now) =>
      var wait := Throttle(Entry(s.gate, id), since);
      var earlier := if id in s.begins then s.begins[id] else [];
      System(Begin(s.gate, id, now), now, s.calls[call := Call(id, Throttled(now + wait, wait))],
             s.begins[id := earlier + [Begun(since, now, wait)]])
    case GiveUp(call) => Leave(s, call)
    case OpenDialog(call) =>
      s.(gate := EnsureWatchdog(s.gate, s.calls[call].session),
         calls := s.calls[call := s.calls[call].(phase := InDialog)])
    case Finish(call) => Leave(s, call)
  }

  const START := System(GateState(map[], map[], 0), 0, map[], map[])

  function Run(steps: seq<Step>): System {
    if steps == [] then START
    else
      var s := Run(steps[..|steps| - 1]);
      var step := steps[|steps| - 1];
      if Enabled(s, step) then Next(s, step) else s
  }

  function CallsOf(calls: map<CallId, Call>, id: SessionId): set<CallId> {
    set c | c in calls && calls[c].session == id
  }

  /** The counter is the number of calls between begin and done, and an entry exists
      exactly while there are any. */
  ghost predicate Counted(s: System) {
    forall id :: Entry(s.gate, id).open == |CallsOf(s.calls, id)| &&
                 (id in s.gate.sessions <==> CallsOf(s.calls, id) != {})
  }

  /** A watchdog is live exactly when the entry of its session holds its cancel. */
  ghost predicate Watched(g: GateState) {
    && (forall w :: w in g.live ==>
          w < g.started && g.live[w] in g.sessions && g.sessions[g.live[w]].cancelWatch == Some(w))
    && (forall id :: id in g.sessions && g.sessions[id].cancelWatch.Some? ==>
          var w := g.sessions[id].cancelWatch.value; w in g.live && g.live[w] == id)
  }

  /** A dialog in flight has a watchdog. */
  ghost predicate DialogsWatched(s: System) {
    forall c :: c in s.calls && s.calls[c].phase.InDialog? ==>
      s.calls[c].session in s.gate.sessions && s.gate.sessions[s.calls[c].session].cancelWatch.Some?
  }

  predicate Sane(b: Begun) { 0 <= b.wait <= 2_000_000_000 && b.since <= b.now }

  /** The next begin of an entry waits out what is left of the spacing, so its
      earliest start comes no sooner than the spacing after the begin before it. */
  predicate Follows(a: Begun, b: Begun) {
    && a.now <= b.since
    && b.wait == (if b.since - a.now < 2_000_000_000 then 2_000_000_000 - (b.since - a.now) else 0)
    && b.EarliestStart() >= a.now + 2_000_000_000
    && b.EarliestStart() >= a.EarliestStart()
  }

  /** The begins of one entry, in order. */
  ghost predicate Spaced(b: seq<Begun>) {
    && (forall i :: 0 <= i < |b| ==> Sane(b[i]))
    && (forall i :: 0 < i < |b| ==> Follows(b[i - 1], b[i]))
  }

  ghost predicate Timed(s: System) {
    && s.begins.Keys == s.gate.sessions.Keys
    && forall id :: id in s.begins ==> EntryTimed(s.begins[id], s.gate.sessions[id], s.clock)
  }

  /** The entry's begins are spaced, and its throttle reference is the last of them. */
  ghost predicate EntryTimed(b: seq<Begun>, entry: SessionState, clock: int) {
    Spaced(b) && b != [] && entry.latestStart == Some(b[|b| - 1].now) && b[|b| - 1].now <= clock
  }

  ghost predicate Inv(s: System) {
    Counted(s) && Watched(s.gate) && DialogsWatched(s) && Timed(s)
  }

  lemma EnterCounts(calls: map<CallId, Call>, call: CallId, c: Call, id: SessionId)
    requires call !in calls
    ensures |CallsOf(calls[call := c], id)| == |CallsOf(calls, id)| + if id == c.session then 1 else 0
    ensures id == c.session ==> CallsOf(calls[call := c], id) != {}
    ensures id != c.session ==> CallsOf(calls[call := c], id) == CallsOf(calls, id)
  {
    if id == c.session {
      assert CallsOf(calls[call := c], id) == CallsOf(calls, id) + {call};
    } else {
      assert CallsOf(calls[call := c], id) == CallsOf(calls, id);
    }
  }

  lemma LeaveCounts(calls: map<CallId, Call>, call: CallId, id: SessionId)
    requires call in calls
    ensures |CallsOf(calls - {call}, id)| == |CallsOf(calls, id)| - if id == calls[call].session then 1 else 0
    ensures id == calls[call].session ==> CallsOf(calls, id) != {}
    ensures id != calls[call].session ==> CallsOf(calls - {call}, id) == CallsOf(calls, id)
  {
    if id == calls[call].session {
      assert call in CallsOf(calls, id);
      assert CallsOf(calls - {call}, id) == CallsOf(calls, id) - {call};
    } else {
      assert CallsOf(calls - {call}, id) == CallsOf(calls, id);
    }
  }

  lemma SpacedSnoc(b: seq<Begun>, c: Begun)
    requires Spaced(b) && Sane(c) && (b != [] ==> Follows(b[|b| - 1], c))
    ensures Spaced(b + [c])
  {
  }

  lemma ThrottleFollows(a: Begun, since: int, now: int, s: SessionState)
    requires Sane(a) && a.now <= since <= now && s.latestStart == Some(a.now)
    ensures Sane(Begun(since, now, Throttle(s, since))) && Follows(a, Begun(since, now, Throttle(s, since)))
  {
  }

  lemma EnterKeeps(s: System, call: CallId, id: SessionId, since: int, now: int)
    requires Inv(s) && Enabled(s, Enter(call, id, since, now))
    ensures Inv(Next(s, Enter(call, id, since, now)))
  {
    EnterCounted(s, call, id, since, now);
    EnterWatched(s, call, id, since, now);
    EnterTimed(s, call, id, since, now);
  }

  lemma EnterCounted(s: System, call: CallId, id: SessionId, since: int, now: int)
    requires Counted(s) && call !in s.calls && Enabled(s, Enter(call, id, since, now))
    ensures Counted(Next(s, Enter(call, id, since, now)))
  {
    var t := Next(s, Enter(call, id, since, now));
    forall k
      ensures Entry(t.gate, k).open == |CallsOf(t.calls, k)| && (k in t.gate.sessions <==> CallsOf(t.calls, k) != {})
    {
      EnterCounts(s.calls, call, t.calls[call], k);
      assert Entry(s.gate, k).open == |CallsOf(s.calls, k)|;
    }
  }

  lemma EnterWatched(s: System, call: CallId, id: SessionId, since: int, now: int)
    requires Watched(s.gate) && DialogsWatched(s) && Enabled(s, Enter(call, id, since, now))
    ensures var t := Next(s, Enter(call, id, since, now)); Watched(t.gate) && DialogsWatched(t)
  {
  }

  lemma EnterTimed(s: System, call: CallId, id: SessionId, since: int, now: int)
    requires Timed(s) && Enabled(s, Enter(call, id, since, now))
    ensures Timed(Next(s, Enter(call, id, since, now)))
  {
    var t := Next(s, Enter(call, id, since, now));
    var earlier := if id in s.begins then s.begins[id] else [];
    var begun := Begun(since, now, Throttle(Entry(s.gate, id), since));
    if earlier != [] {
      ThrottleFollows(earlier[|earlier| - 1], since, now, s.gate.sessions[id]);
    }
    SpacedSnoc(earlier, begun);
    assert t.begins == s.begins[id := earlier + [begun]];
    assert t.gate.sessions[id].latestStart == Some(now);
  }

  lemma LeaveKeeps(s: System, call: CallId)
    requires Inv(s) && call in s.calls
    ensures Inv(Leave(s, call))
  {
    LeaveCounted(s, call);
    DoneWatched(s.gate, s.calls[call].session);
    LeaveDialogs(s, call);
    LeaveTimed(s, call);
  }

  lemma DoneWatched(g: GateState, id: SessionId)
    requires Watched(g)
    ensures Watched(Done(g, id))
  {
  }

  lemma LeaveCounted(s: System, call: CallId)
    requires Counted(s) && call in s.calls
    ensures Counted(Leave(s, call))
  {
    var t := Leave(s, call);
    forall k
      ensures Entry(t.gate, k).open == |CallsOf(t.calls, k)| && (k in t.gate.sessions <==> CallsOf(t.calls, k) != {})
    {
      LeaveCounts(s.calls, call, k);
      assert Entry(s.gate, k).open == |CallsOf(s.calls, k)|;
    }
  }

  lemma LeaveDialogs(s: System, call: CallId)
    requires call in s.calls && DialogsWatched(s) && Counted(Leave(s, call))
    ensures DialogsWatched(Leave(s, call))
  {
    var t := Leave(s, call);
    forall c | c in t.calls && t.calls[c].phase.InDialog?
      ensures t.calls[c].session in t.gate.sessions && t.gate.sessions[t.calls[c].session].cancelWatch.Some?
    {
      assert c in CallsOf(t.calls, t.calls[c].session);
    }
  }

  lemma LeaveTimed(s: System, call: CallId)
    requires Timed(s) && call in s.calls
    ensures Timed(Leave(s, call))
  {
  }

  lemma OpenKeeps(s: System, call: CallId)
    requires Inv(s) && Enabled(s, OpenDialog(call))
    ensures Inv(Next(s, OpenDialog(call)))
  {
    OpenCounted(s, call);
    OpenWatched(s, call);
    OpenTimed(s, call);
  }

  lemma OpenCounted(s: System, call: CallId)
    requires Counted(s) && Enabled(s, OpenDialog(call))
    ensures Counted(Next(s, OpenDialog(call)))
  {
    var t := Next(s, OpenDialog(call));
    assert call in CallsOf(s.calls, s.calls[call].session);
    forall k
      ensures Entry(t.gate, k).open == |CallsOf(t.calls, k)| && (k in t.gate.sessions <==> CallsOf(t.calls, k) != {})
    {
      assert CallsOf(t.calls, k) == CallsOf(s.calls, k);
      assert Entry(s.gate, k).open == |CallsOf(s.calls, k)|;
    }
  }

  lemma OpenWatched(s: System, call: CallId)
    requires Counted(s) && Watched(s.gate) && DialogsWatched(s) && Enabled(s, OpenDialog(call))
    ensures var t := Next(s, OpenDialog(call)); Watched(t.gate) && DialogsWatched(t)
  {
    assert call in CallsOf(s.calls, s.calls[call].session);
    EnsureWatched(s.gate, s.calls[call].session);
  }

  lemma EnsureWatched(g: GateState, id: SessionId)
    requires Watched(g)
    ensures Watched(EnsureWatchdog(g, id))
  {
  }

  lemma OpenTimed(s: System, call: CallId)
    requires Timed(s) && Enabled(s, OpenDialog(call))
    ensures Timed(Next(s, OpenDialog(call)))
  {
  }

  lemma {:induction false} RunKeeps(steps: seq<Step>)
    ensures Inv(Run(steps))
  {
    if steps != [] {
      RunKeeps(steps[..|steps| - 1]);
      var s := Run(steps[..|steps| - 1]);
      var step := steps[|steps| - 1];
      if Enabled(s, step) {
        match step
        case Advance(_) =>
        case Enter(call, id, since, now) => EnterKeeps(s, call, id, since, now);
        case GiveUp(call) => LeaveKeeps(s, call);
        case OpenDialog(call) => OpenKeeps(s, call);
        case Finish(call) => LeaveKeeps(s, call);
      }
    } else {
      assert forall id :: CallsOf(map[], id) == {};
    }
  }

  /** Over every interleaving, the count of a session is its number of calls in
      flight, and the entry exists exactly while it is positive. */
  lemma OpenCountsCallsInFlight(steps: seq<Step>, id: SessionId)
    ensures var s := Run(steps); var inFlight := |CallsOf(s.calls, id)|;
      (id in s.gate.sessions <==> inFlight > 0) && (id in s.gate.sessions ==> s.gate.sessions[id].open == inFlight)
  {
    RunKeeps(steps);
    assert Entry(Run(steps).gate, id).open == |CallsOf(Run(steps).calls, id)|;
  }

  /** Over every interleaving a session has at most one live watchdog, none without a
      call in flight, and exactly one while any of its dialogs is in flight. */
  lemma OneWatchdogPerSession(steps: seq<Step>, id: SessionId)
    ensures var s := Run(steps);
      && (forall v, w :: v in s.gate.live && w in s.gate.live && s.gate.live[v] == id && s.gate.live[w] == id ==>
            v == w)
      && (CallsOf(s.calls, id) == {} ==> id !in s.gate.live.Values)
      && ((exists c :: c in s.calls && s.calls[c] == Call(id, InDialog)) ==> id in s.gate.live.Values)
  {
    RunKeeps(steps);
    var s := Run(steps);
    if c :| c in s.calls && s.calls[c] == Call(id, InDialog) {
      var w := s.gate.sessions[id].cancelWatch.value;
      assert s.gate.live[w] == id;
    }
  }

  /** A call that reaches ensureWatchdog finds its session's entry. */
  lemma WatchdogFindsItsEntry(steps: seq<Step>, call: CallId)
    requires Enabled(Run(steps), OpenDialog(call))
    ensures var s := Run(steps);
      s.calls[call].session in s.gate.sessions &&
      Next(s, OpenDialog(call)).gate.sessions[s.calls[call].session].cancelWatch.Some?
  {
    RunKeeps(steps);
    assert call in CallsOf(Run(steps).calls, Run(steps).calls[call].session);
  }

  /** In the life of an entry every wait is within the spacing, and the earliest
      starts follow the begins in order, each at least the spacing after the begin
      before it. */
  lemma ThrottleSpacesBegins(steps: seq<Step>, id: SessionId, i: nat, j: nat)
    requires id in Run(steps).begins && i < j < |Run(steps).begins[id]|
    ensures var b := Run(steps).begins[id];
      && 0 <= b[i].wait <= MIN_SPACING && 0 <= b[j].wait <= MIN_SPACING
      && b[i].EarliestStart() <= b[j].EarliestStart()
      && b[j].EarliestStart() >= b[i].now + MIN_SPACING
  {
    RunKeeps(steps);
    LaterStart(Run(steps).begins[id], i, j);
  }

  lemma {:induction false} LaterStart(b: seq<Begun>, i: nat, j: nat)
    requires Spaced(b) && i < j < |b|
    ensures b[i].EarliestStart() <= b[j].EarliestStart() && b[j].EarliestStart() >= b[i].now + MIN_SPACING
  {
    if i + 1 < j {
      LaterStart(b, i, j - 1);
    }
  }

  /** Successive starts are themselves spaced exactly when the earlier call was not
      held back by more than the begin's own delay, or the later one came late. */
  lemma StartsSpacedExactlyWhen(steps: seq<Step>, id: SessionId, i: nat)
    requires id in Run(steps).begins && i + 1 < |Run(steps).begins[id]|
    ensures var b := Run(steps).begins[id];
      b[i + 1].EarliestStart() - b[i].EarliestStart() >= MIN_SPACING <==>
        b[i].wait <= b[i + 1].now - b[i + 1].since || b[i + 1].now >= b[i].EarliestStart() + MIN_SPACING
  {
    RunKeeps(steps);
    var b := Run(steps).begins[id];
    assert Spaced(b);
  }

  lemma RunSnoc(steps: seq<Step>, step: Step)
    requires Enabled(Run(steps), step)
    ensures Run(steps + [step]) == Next(Run(steps), step)
  {
    assert (steps + [step])[..|steps|] == steps;
  }

  /** The run has begun `b` on session "s", one call after another, none numbered `next` yet. */
  ghost predicate HasBegun(steps: seq<Step>, b: seq<Begun>, next: CallId) {
    var s := Run(steps);
    && Spaced(b) && (forall c :: c in s.calls ==> c < next)
    && (if b == [] then s.clock == 0 && "s" !in s.begins && "s" !in s.gate.sessions
        else "s" in s.begins && s.begins["s"] == b && "s" in s.gate.sessions &&
             s.gate.sessions["s"].latestStart == Some(s.clock) && s.clock == b[|b| - 1].now)
  }

  lemma BeginAt(steps: seq<Step>, b: seq<Begun>, call: CallId, now: int) returns (more: seq<Step>, begun: Begun)
    requires HasBegun(steps, b, call) && Run(steps).clock <= now
    ensures begun.since == begun.now == now
    ensures begun.wait == if b == [] then 0 else
        if now - b[|b| - 1].now < MIN_SPACING then MIN_SPACING - (now - b[|b| - 1].now) else 0
    ensures HasBegun(more, b + [begun], call + 1)
  {
    var step := Enter(call, "s", now, now);
    more := steps + [step];
    begun := Begun(now, now, Throttle(Entry(Run(steps).gate, "s"), now));
    RunSnoc(steps, step);
    if b != [] {
      ThrottleFollows(b[|b| - 1], now, now, Run(steps).gate.sessions["s"]);
    }
    SpacedSnoc(b, begun);
  }

  /** Three begins at 0, 1 and 1.5 seconds may start one second apart. */
  lemma StartsCanBeCloser() returns (steps: seq<Step>)
    ensures "s" in Run(steps).begins
    ensures var b := Run(steps).begins["s"];
      |b| == 3 && b[2].EarliestStart() - b[1].EarliestStart() == MIN_SPACING / 2
  {
    assert Run([]) == START;
    var s1, b1 := BeginAt([], [], 1, 0);
    var s2, b2 := BeginAt(s1, [] + [b1], 2, 1_000_000_000);
    var s3, b3 := BeginAt(s2, [] + [b1] + [b2], 3, 1_500_000_000);
    steps := s3;
  }
}
