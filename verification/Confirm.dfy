/** The confirmation gate: single-use tokens bound to one operation, and the
    user's own confirmation. Clock readings are nanoseconds. */
module Confirm {
  import opened Operations
  import opened Wrappers

  const SECOND := 1_000_000_000

  /** Whole seconds of a clock reading, rounded down as Go's Unix() does. */
  function Unix(t: int): int { t / SECOND }

  /** The second that a reading, in nanoseconds, falls into. */
  lemma UnixIsTheSecond(t: int)
    ensures Unix(t) * 1_000_000_000 <= t < (Unix(t) + 1) * 1_000_000_000
  {
  }

  lemma UnixMonotone(s: int, t: int)
    requires s <= t
    ensures Unix(s) <= Unix(t)
  {
  }

  /** What a caller can present. The MAC is ideal: a sealed body verifies exactly
      when the gate itself signed that body. */
  datatype Wire = Malformed | Undecodable | Sealed(body: TokenBody)

  datatype Verdict = Accepted | Invalid | Expired | Mismatch | AlreadyUsed

  /** The body of a token issued at `now`; it expires one lifetime later. */
  function IssuedBody(op: Operation, nonce: Nonce, now: int, ttl: int): TokenBody {
    Bind(op, nonce, Unix(now + ttl))
  }

  type Consumed = map<Nonce, int>

  function Sweep(consumed: Consumed, now: int): Consumed {
    map n | n in consumed && consumed[n] >= now :: consumed[n]
  }

  /** The checks made before the lock is taken; `now` is in seconds. */
  function Precheck(issued: set<TokenBody>, op: Operation, wire: Wire, now: int): Verdict {
    if !wire.Sealed? || wire.body !in issued then Invalid
    else if now > wire.body.expiry then Expired
    else if !Matches(wire.body, op) then Mismatch
    else Accepted
  }

  /** The section run under the lock; `now` is in seconds. */
  function LockedSection(consumed: Consumed, body: TokenBody, now: int): (Consumed, Verdict) {
    if body.nonce in consumed then (consumed, AlreadyUsed)
    else (Sweep(consumed[body.nonce := body.expiry], now), Accepted)
  }

  /** A whole token check whose two clock readings are `checkedAt` and `lockedAt`. */
  function Require(issued: set<TokenBody>, consumed: Consumed, op: Operation, wire: Wire,
                   checkedAt: int, lockedAt: int): (Consumed, Verdict) {
    var v := Precheck(issued, op, wire, Unix(checkedAt));
    if v != Accepted then (consumed, v) else LockedSection(consumed, wire.body, Unix(lockedAt))
  }

  /** The client's answer to the elicitation. An absent or non-text field reads as "". */
  datatype Reply =
    | ElicitFailed
    | NoResult
    | Result(action: string, confirmName: Option<string>, confirm: Option<string>)

  datatype Decision = Unsupported | Declined | Approved

  function Decide(typedName: string, reply: Reply): Decision {
    match reply
    case ElicitFailed => Unsupported
    case NoResult => Declined
    case Result(action, confirmName, confirm) =>
      if action != "accept" then Declined
      else if typedName != "" then
        if confirmName.GetOr("") == typedName then Approved else Declined
      else if confirm.GetOr("") == "approve" then Approved
      else Declined
  }

  datatype CheckResult = Bypassed | TokenRefused(verdict: Verdict) | Answered(decision: Decision) {
    predicate MayExecute() { Bypassed? || this == Answered(Approved) }
  }

  class Gate {
    const ttl: int
    var issued: set<TokenBody>
    var consumed: map<Nonce, int>

    constructor (ttl: int)
      ensures this.ttl == ttl && issued == {} && consumed == map[]
    {
      this.ttl := ttl;
      issued, consumed := {}, map[];
    }

    /** `nonce` stands for the 16 random bytes. */
    method IssueToken(op: Operation, nonce: Nonce, now: int) returns (wire: Wire)
      modifies this`issued
      ensures wire == Sealed(IssuedBody(op, nonce, now, ttl))
      ensures issued == old(issued) + {wire.body}
    {
      var body := Bind(op, nonce, Unix(now + ttl));
      issued := issued + {body};
      wire := Sealed(body);
    }

    method RequireToken(op: Operation, wire: Wire, checkedAt: int, lockedAt: int) returns (v: Verdict)
      modifies this`consumed
      ensures (consumed, v) == Require(issued, old(consumed), op, wire, checkedAt, lockedAt)
    {
      if !wire.Sealed? || wire.body !in issued {
        return Invalid;
      }
      var body := wire.body;
      if Unix(checkedAt) > body.expiry {
        return Expired;
      }
      if !Matches(body, op) {
        return Mismatch;
      }
      if body.nonce in consumed {
        return AlreadyUsed;
      }
      consumed := consumed[body.nonce := body.expiry];
      SweepExpired(Unix(lockedAt));
      v := Accepted;
    }

    /** The sweep deletes while it ranges over the map, in any order. */
    method SweepExpired(now: int)
      modifies this`consumed
      ensures consumed == Sweep(old(consumed), now)
    {
      var todo := consumed.Keys;
      while todo != {}
        invariant todo <= consumed.Keys <= old(consumed).Keys
        invariant forall n :: n in consumed ==> consumed[n] == old(consumed)[n]
        invariant forall n :: n in old(consumed) && n !in todo ==> (n in consumed <==> old(consumed)[n] >= now)
        decreases todo
      {
        var n :| n in todo;
        todo := todo - {n};
        if consumed[n] < now {
          consumed := consumed - {n};
        }
      }
    }

    method Check(op: Operation, wire: Wire, typedName: string, bypass: bool,
                 checkedAt: int, lockedAt: int, reply: Reply) returns (r: CheckResult)
      modifies this`consumed
      ensures bypass ==> r == Bypassed && consumed == old(consumed)
      ensures !bypass ==>
        var (after, v) := Require(issued, old(consumed), op, wire, checkedAt, lockedAt);
        consumed == after && r == if v == Accepted then Answered(Decide(typedName, reply)) else TokenRefused(v)
    {
      if bypass {
        return Bypassed;
      }
      var v := RequireToken(op, wire, checkedAt, lockedAt);
      if v != Accepted {
        return TokenRefused(v);
      }
      r := Answered(Decide(typedName, reply));
    }
  }

  /** The user approves only by typing the exact name, when one is asked for, and
      by choosing approve otherwise; every other answer leaves the cluster alone, and
      only a client that cannot ask reads as unsupported. */
  lemma ApprovalIsExplicit(typedName: string, reply: Reply)
    ensures Decide(typedName, reply) == Approved <==>
      reply.Result? && reply.action == "accept" &&
      (if typedName != "" then reply.confirmName == Some(typedName) else reply.confirm == Some("approve"))
    ensures Decide(typedName, reply) == Unsupported <==> reply.ElicitFailed?
  {
  }
}
