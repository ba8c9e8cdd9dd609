/** Pod exec: the payload that binds a command, and the capped output buffer. */
module ExecPod {

  const NUL := '\0'

  /** commandPayload: the arguments joined by NUL bytes. */
  function Join(command: seq<string>): string {
    if command == [] then ""
    else if |command| == 1 then command[0]
    else command[0] + [NUL] + Join(command[1..])
  }

  /** The pieces between NUL bytes; there is always at least one. */
  function Split(payload: string): (pieces: seq<string>)
    ensures pieces != [] && forall p :: p in pieces ==> NUL !in p
  {
    if payload == "" then [""]
    else
      var rest := Split(payload[1..]);
      if payload[0] == NUL then [""] + rest
      else [[payload[0]] + rest[0]] + rest[1..]
  }

  /** The payload of a longer command joins those of its parts by a zero byte. */
  lemma {:induction false} JoinOfParts(a: seq<string>, b: seq<string>)
    requires a != [] && b != []
    ensures Join(a + b) == Join(a) + "\0" + Join(b)
    ensures Join([a[0]]) == a[0]
  {
    if |a| == 1 {
      assert (a + b)[1..] == b && Join(a) == a[0];
    } else {
      assert (a + b)[1..] == a[1..] + b;
      JoinOfParts(a[1..], b);
      assert a[0] + [NUL] + (Join(a[1..]) + "\0" + Join(b)) == a[0] + [NUL] + Join(a[1..]) + "\0" + Join(b);
    }
  }

  predicate Clean(command: seq<string>) {
    command != [] && forall arg :: arg in command ==> NUL !in arg
  }

  lemma {:induction false} SplitOne(arg: string)
    requires NUL !in arg
    ensures Split(arg) == [arg]
  {
    if arg != "" {
      SplitOne(arg[1..]);
      assert arg[0] in arg;
      assert [arg[0]] + arg[1..] == arg;
    }
  }

  lemma {:induction false} SplitFirst(arg: string, rest: string)
    requires NUL !in arg
    ensures Split(arg + [NUL] + rest) == [arg] + Split(rest)
  {
    var whole := arg + [NUL] + rest;
    if arg == "" {
      assert whole[1..] == rest;
    } else {
      SplitFirst(arg[1..], rest);
      assert arg[0] in arg;
      assert [arg[0]] + arg[1..] == arg;
      assert whole[1..] == arg[1..] + [NUL] + rest;
    }
  }

  /** Splitting the payload returns the command exactly for non-empty commands
      without NUL bytes. */
  lemma {:induction false} SplitJoin(command: seq<string>)
    ensures Split(Join(command)) == command <==> Clean(command)
  {
    if Clean(command) {
      if |command| == 1 {
        SplitOne(command[0]);
      } else {
        SplitJoin(command[1..]);
        SplitFirst(command[0], Join(command[1..]));
      }
    }
  }

  lemma {:induction false} JoinSplit(payload: string)
    ensures Join(Split(payload)) == payload
  {
    if payload != "" {
      JoinSplit(payload[1..]);
      var rest := Split(payload[1..]);
      assert [payload[0]] + payload[1..] == payload;
      if payload[0] == NUL {
        assert ([""] + rest)[1..] == rest;
      } else {
        assert ([[payload[0]] + rest[0]] + rest[1..])[1..] == rest[1..];
      }
    }
  }

  /** Every payload is that of exactly one command without NUL bytes. */
  lemma OneCleanCommandPerPayload(payload: string, command: seq<string>)
    ensures Clean(Split(payload)) && Join(Split(payload)) == payload
    ensures Clean(command) && Join(command) == payload ==> command == Split(payload)
  {
    JoinSplit(payload);
    SplitJoin(command);
  }

  /** No other command has this one's payload. */
  ghost predicate IsDetermined(command: seq<string>) {
    forall other: seq<string> :: other != [] && Join(other) == Join(command) ==> other == command
  }

  lemma JoinHoldsNul(command: seq<string>)
    requires |command| > 1
    ensures NUL in Join(command)
  {
    assert Join(command)[|command[0]|] == NUL;
  }

  /** A payload determines the command exactly when that is one argument without NUL
      bytes: several arguments read back as one that contains NUL bytes. */
  lemma PayloadDeterminesCommand(command: seq<string>)
    requires command != []
    ensures IsDetermined(command) <==> |command| == 1 && NUL !in command[0]
  {
    var merged := [Join(command)];
    assert Join(merged) == Join(command);
    if |command| == 1 && NUL !in command[0] {
      forall other: seq<string> | other != [] && Join(other) == Join(command)
        ensures other == command
      {
        if |other| > 1 {
          JoinHoldsNul(other);
        }
      }
    } else if |command| == 1 {
      JoinSplit(command[0]);
      assert Split(command[0]) != command by {
        assert command[0] in command;
      }
    } else {
      assert merged != command;
    }
  }

  /** Merged by NUL bytes into one argument, a longer command keeps its payload. */
  lemma NulMergesCommands(command: seq<string>)
    requires |command| > 1
    ensures [Join(command)] != command && Join([Join(command)]) == Join(command)
    ensures ["a\0b"] != ["a", "b"] && Join(["a\0b"]) == Join(["a", "b"])
  {
    assert ["a", "b"][1..] == ["b"] && "a" + [NUL] + "b" == "a\0b";
    assert Join(["a", "b"]) == "a" + [NUL] + Join(["b"]);
  }

  type Bytes = seq<bv8>

  function Concat(writes: seq<Bytes>): Bytes {
    if writes == [] then [] else Concat(writes[..|writes| - 1]) + writes[|writes| - 1]
  }

  /** An empty write that found the buffer full. */
  ghost predicate EmptyWriteWhenFull(limit: nat, writes: seq<Bytes>) {
    exists k :: 0 <= k < |writes| && writes[k] == [] && |Concat(writes[..k])| >= limit
  }

  function Capped(limit: nat, bytes: Bytes): Bytes { if |bytes| <= limit then bytes else bytes[..limit] }

  datatype Buffer = Buffer(bytes: Bytes, truncated: bool)

  function WriteTo(limit: nat, b: Buffer, p: Bytes): Buffer {
    if |b.bytes| >= limit then b.(truncated := true)
    else if |p| > limit - |b.bytes| then Buffer(b.bytes + p[..limit - |b.bytes|], true)
    else b.(bytes := b.bytes + p)
  }

  /** The buffer after these writes. */
  function Written(limit: nat, writes: seq<Bytes>): Buffer {
    if writes == [] then Buffer([], false)
    else WriteTo(limit, Written(limit, writes[..|writes| - 1]), writes[|writes| - 1])
  }

  /** After any writes the buffer holds the first `limit` bytes written. It is marked
      truncated exactly when more were written or an empty write found it full. */
  lemma {:induction false} WrittenKeepsThePrefix(limit: nat, writes: seq<Bytes>)
    ensures var all := Concat(writes); Written(limit, writes).bytes == if |all| <= limit then all else all[..limit]
    ensures Written(limit, writes).truncated <==> |Concat(writes)| > limit || EmptyWriteWhenFull(limit, writes)
  {
    if writes != [] {
      var before, p := writes[..|writes| - 1], writes[|writes| - 1];
      assert writes == before + [p];
      WrittenKeepsThePrefix(limit, before);
      ConcatSnoc(before, p);
      FullSnoc(limit, before, p);
      PrefixOfMore(limit, Concat(before), p);
    }
  }

  lemma PrefixOfMore(limit: nat, bytes: Bytes, p: Bytes)
    ensures |bytes| >= limit ==> Capped(limit, bytes + p) == Capped(limit, bytes)
    ensures |bytes| < limit && |bytes| + |p| > limit ==> Capped(limit, bytes + p) == bytes + p[..limit - |bytes|]
  {
    assert |bytes| >= limit ==> (bytes + p)[..limit] == bytes[..limit];
  }

  class CappedBuffer {
    const limit: nat
    var buf: Bytes
    var truncated: bool
    ghost var writes: seq<Bytes>

    ghost predicate Valid()
      reads this
    {
      Buffer(buf, truncated) == Written(limit, writes)
    }

    constructor (limit: nat)
      ensures Valid() && this.limit == limit && writes == []
    {
      this.limit := limit;
      buf, truncated, writes := [], false, [];
    }

    method Write(p: Bytes) returns (n: nat)
      requires Valid()
      modifies this
      ensures Valid() && writes == old(writes) + [p] && n == |p|
      ensures var all := Concat(writes); buf == if |all| <= limit then all else all[..limit]
      ensures truncated <==> |Concat(writes)| > limit || EmptyWriteWhenFull(limit, writes)
    {
      var remaining := limit - |buf|;
      if remaining > 0 {
        if |p| > remaining {
          buf := buf + p[..remaining];
          truncated := true;
        } else {
          buf := buf + p;
        }
      } else {
        truncated := true;
      }
      assert (writes + [p])[..|writes|] == writes;
      writes := writes + [p];
      WrittenKeepsThePrefix(limit, writes);
      n := |p|;
    }
  }

  lemma ConcatSnoc(writes: seq<Bytes>, p: Bytes)
    ensures Concat(writes + [p]) == Concat(writes) + p
  {
    assert (writes + [p])[..|writes|] == writes;
  }

  lemma FullSnoc(limit: nat, writes: seq<Bytes>, p: Bytes)
    ensures EmptyWriteWhenFull(limit, writes + [p]) <==>
      EmptyWriteWhenFull(limit, writes) || (p == [] && |Concat(writes)| >= limit)
  {
    var more := writes + [p];
    assert more[..|writes|] == writes;
    assert forall k :: 0 <= k < |writes| ==> more[..k] == writes[..k] && more[k] == writes[k];
    if EmptyWriteWhenFull(limit, writes) {
      var k :| 0 <= k < |writes| && writes[k] == [] && |Concat(writes[..k])| >= limit;
      assert more[k] == [] && more[..k] == writes[..k];
    }
    if p == [] && |Concat(writes)| >= limit {
      assert more[|writes|] == [];
    }
  }

  /** The mark says that bytes were dropped exactly unless an empty write found the
      buffer full while nothing was dropped. */
  lemma TruncatedMeansDropped(limit: nat, writes: seq<Bytes>)
    ensures var all := Concat(writes);
      (Written(limit, writes).truncated <==> |Written(limit, writes).bytes| < |all|) <==>
        |all| > limit || !EmptyWriteWhenFull(limit, writes)
    ensures (forall w :: w in writes ==> w != []) ==> !EmptyWriteWhenFull(limit, writes)
  {
    WrittenKeepsThePrefix(limit, writes);
    assert forall k :: 0 <= k < |writes| ==> writes[k] in writes;
  }

  /** With non-empty writes it always does. */
  lemma NonEmptyWritesMark(limit: nat, writes: seq<Bytes>)
    requires forall w :: w in writes ==> w != []
    ensures Written(limit, writes) == Buffer(Capped(limit, Concat(writes)), |Concat(writes)| > limit)
  {
    WrittenKeepsThePrefix(limit, writes);
    assert forall k :: 0 <= k < |writes| ==> writes[k] in writes;
  }

  /** A full buffer is marked by an empty write that drops nothing. */
  lemma EmptyWriteMarks(b: bv8)
    ensures Written(1, [[b], []]) == Buffer([b], true) && Concat([[b], []]) == [b]
  {
    var writes: seq<Bytes> := [[b], []];
    assert writes[..1] == [[b]] && [[b]][..0] == [];
    assert Written(1, [[b]]) == WriteTo(1, Written(1, []), [b]);
    assert Concat([[b]]) == Concat([]) + [b] == [b];
  }
}
