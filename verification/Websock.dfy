/**
 WebsockConn (internal/network/websocket.go:130-197): a byte stream over WebSocket
 messages (data frames, section 5.6 of RFC 6455). The message readers of the library
 may return fewer bytes than asked for and report the end of a message only with
 zero bytes; those choices are left open.
*/
module Websock {
  import opened Prelude

  datatype Message = Binary(payload: seq<byte>) | NotBinary

  /** What is left of the message being read, and the messages after it. */
  datatype Wire = Wire(rest: seq<byte>, incoming: seq<Message>)

  function Payload(m: Message): seq<byte> {
    if m.Binary? then m.payload else []
  }

  /** All bytes still to be read; messages that are not binary count for nothing. */
  function Bytes(ms: seq<Message>): seq<byte> {
    if ms == [] then [] else Payload(ms[0]) + Bytes(ms[1..])
  }

  function Pending(w: Wire): seq<byte> {
    w.rest + Bytes(w.incoming)
  }

  /** A byte comes before the next message that is not binary, and before the end. */
  predicate Ready(w: Wire)
    decreases |w.incoming|
  {
    w.rest != [] ||
    (w.incoming != [] && w.incoming[0].Binary? && Ready(Wire(w.incoming[0].payload, w.incoming[1..])))
  }

  /** A read that fails has used up the messages before it, all of them empty, and the one at fault. */
  ghost predicate Failed(w: Wire, v: Wire) {
    && !Ready(w) && v.rest == [] && |v.incoming| <= |w.incoming|
    && v.incoming == w.incoming[|w.incoming| - |v.incoming|..]
    && (forall i :: 0 <= i < |w.incoming| - |v.incoming| - 1 ==> w.incoming[i] == Binary([]))
    && (v.incoming == [] || (|v.incoming| < |w.incoming| && w.incoming[|w.incoming| - |v.incoming| - 1].NotBinary?))
  }

  /** One Read with a buffer of `size` bytes; None stands for an error. */
  ghost predicate ReadStep(w: Wire, size: nat, out: Option<seq<byte>>, v: Wire) {
    && (out.Some? <==> Ready(w))
    && (out.Some? ==> out.value + Pending(v) == Pending(w) && |out.value| <= size && (size > 0 ==> out.value != []))
    && (out.None? ==> Pending(v) == Pending(w) && Failed(w, v))
  }

  lemma TakeReads(w: Wire, size: nat, n: nat)
    requires w.rest != [] && n <= size && n <= |w.rest| && (size > 0 ==> n > 0)
    ensures ReadStep(w, size, Some(w.rest[..n]), Wire(w.rest[n..], w.incoming))
  {
    assert w.rest == w.rest[..n] + w.rest[n..];
  }

  lemma NoMessageFails(w: Wire, size: nat)
    requires w.rest == [] && (w.incoming == [] || w.incoming[0].NotBinary?)
    ensures ReadStep(w, size, None, Wire([], if w.incoming == [] then [] else w.incoming[1..]))
  {
  }

  lemma RenewedReads(w: Wire, size: nat, out: Option<seq<byte>>, v: Wire)
    requires w.rest == [] && w.incoming != [] && w.incoming[0].Binary?
    requires ReadStep(Wire(w.incoming[0].payload, w.incoming[1..]), size, out, v)
    ensures ReadStep(w, size, out, v)
  {
    var u := Wire(w.incoming[0].payload, w.incoming[1..]);
    assert Pending(u) == Pending(w);
    if out.None? {
      var i := |w.incoming| - |v.incoming|;
      assert w.incoming[1..][i-1..] == w.incoming[i..];
    }
  }

  class WebsockConn {
    var r: Option<seq<byte>>      // the current reader's unread bytes
    var incoming: seq<Message>    // messages NextReader has not been asked for
    var outgoing: seq<Message>

    constructor (arriving: seq<Message>)
      ensures State() == Wire([], arriving) && outgoing == []
    {
      r, incoming, outgoing := None, arriving, [];
    }

    ghost function State(): Wire
      reads this
    {
      Wire(if r.Some? then r.value else [], incoming)
    }

    /** Reads from the current message: zero bytes and EOF at its end, else at least one byte if there is room. */
    method ReadMessage(data: array<byte>) returns (n: nat, eof: bool)
      requires r.Some?
      modifies `r, data
      ensures r.Some? && (eof <==> old(r).value == [])
      ensures n <= data.Length && n <= |old(r).value|
      ensures !eof && data.Length > 0 ==> n > 0
      ensures data[..n] == old(r).value[..n] && data[n..] == old(data[n..]) && r.value == old(r).value[n..]
    {
      if r.value == [] {
        return 0, true;
      }
      var most := if data.Length < |r.value| then data.Length else |r.value|;
      n :| 0 <= n <= most && (most > 0 ==> n > 0);
      eof := false;
      var bytes := r.value;
      for i := 0 to n
        invariant data[..i] == bytes[..i]
        invariant data[n..] == old(data[n..])
      {
        data[i] := bytes[i];
        assert bytes[..i+1] == bytes[..i] + [bytes[i]];
        assert data[..i+1] == data[..i] + [data[i]];
      }
      r := Some(bytes[n..]);
    }

    method RenewReader() returns (ok: bool)
      requires State().rest == []
      modifies `r, `incoming
      ensures ok <==> old(incoming) != [] && old(incoming)[0].Binary?
      ensures incoming == if old(incoming) == [] then [] else old(incoming)[1..]
      ensures ok ==> r == Some(old(incoming)[0].payload)
      ensures !ok ==> r == old(r)
    {
      if incoming == [] {
        return false;
      }
      var m := incoming[0];
      incoming := incoming[1..];
      if m.NotBinary? {
        return false;
      }
      r := Some(m.payload);
      return true;
    }

    method Read(data: array<byte>) returns (n: int)
      modifies `r, `incoming, data
      ensures -1 <= n <= data.Length
      ensures ReadStep(old(State()), data.Length, if n >= 0 then Some(data[..n]) else None, State())
      ensures if n >= 0 then data[n..] == old(data[n..]) else data[..] == old(data[..])
      decreases |incoming|, if r.None? then 1 else 0
    {
      ghost var w := State();
      if r.None? {
        var ok := RenewReader();
        if !ok {
          NoMessageFails(w, data.Length);
          return -1;
        }
      }
      ghost var x := State();
      var got, eof := ReadMessage(data);
      if !eof {
        TakeReads(x, data.Length, got);
        n := got;
        assert data[..n] == x.rest[..n];
      } else {
        assert data[..] == old(data[..]);
        var ok := RenewReader();
        if !ok {
          NoMessageFails(x, data.Length);
          n := -1;
        } else {
          n := Read(data);
          RenewedReads(x, data.Length, if n >= 0 then Some(data[..n]) else None, State());
        }
      }
      if x != w {
        RenewedReads(w, data.Length, if n >= 0 then Some(data[..n]) else None, State());
      }
    }

    /** One binary message per Write. */
    method Write(data: array<byte>) returns (n: int)
      modifies `outgoing
      ensures n == data.Length && outgoing == old(outgoing) + [Binary(data[..])]
    {
      outgoing := outgoing + [Binary(data[..])];
      n := data.Length;
    }
  }

  // ---- Runs: the peer writes, the room reads ----

  datatype Op = Arrives(m: Message) | Reads(size: nat, out: Option<seq<byte>>)

  ghost predicate Step(w: Wire, op: Op, v: Wire) {
    match op
    case Arrives(m) => v == Wire(w.rest, w.incoming + [m])
    case Reads(size, out) => ReadStep(w, size, out, v)
  }

  ghost predicate IsRun(states: seq<Wire>, ops: seq<Op>) {
    && |states| == |ops| + 1 && states[0] == Wire([], [])
    && forall i :: 0 <= i < |ops| ==> Step(states[i], ops[i], states[i+1])
  }

  function Input(op: Op): seq<byte> {
    if op.Arrives? then Payload(op.m) else []
  }

  function Output(op: Op): seq<byte> {
    if op.Reads? && op.out.Some? then op.out.value else []
  }

  ghost function Written(ops: seq<Op>): seq<byte> {
    if ops == [] then [] else Written(ops[..|ops|-1]) + Input(ops[|ops|-1])
  }

  ghost function Returned(ops: seq<Op>): seq<byte> {
    if ops == [] then [] else Returned(ops[..|ops|-1]) + Output(ops[|ops|-1])
  }

  lemma {:induction false} BytesAppend(ms: seq<Message>, m: Message)
    ensures Bytes(ms + [m]) == Bytes(ms) + Payload(m)
  {
    if ms == [] {
      assert ms + [m] == [m] && Bytes([m]) == Payload(m);
    } else {
      var all := ms + [m];
      assert all[0] == ms[0] && all[1..] == ms[1..] + [m];
      BytesAppend(ms[1..], m);
      assert Bytes(all) == Payload(ms[0]) + (Bytes(ms[1..]) + Payload(m));
    }
  }

  lemma StepConserves(w: Wire, op: Op, v: Wire)
    requires Step(w, op, v)
    ensures Output(op) + Pending(v) == Pending(w) + Input(op)
  {
    if op.Arrives? {
      BytesAppend(w.incoming, op.m);
    }
  }

  lemma Regroup(got: seq<byte>, out: seq<byte>, now: seq<byte>, was: seq<byte>, put: seq<byte>)
    requires out + now == was + put
    ensures (got + out) + now == (got + was) + put
  {
    assert (got + out) + now == got + (out + now);
    assert (got + was) + put == got + (was + put);
  }

  lemma IsPrefix(a: seq<byte>, b: seq<byte>, c: seq<byte>)
    requires a + b == c
    ensures a <= c
  {
  }

  /**
   For buffers of any size, short reads, empty messages, and messages of other types
   in between: what the reads have returned is a prefix of what was written, and what
   is missing from it is exactly what is still pending.
  */
  lemma {:induction false} ReadsReproduceWrites(states: seq<Wire>, ops: seq<Op>)
    requires IsRun(states, ops)
    ensures Returned(ops) + Pending(states[|ops|]) == Written(ops)
    ensures Returned(ops) <= Written(ops)
    decreases |ops|
  {
    var n := |ops|;
    if n > 0 {
      ReadsReproduceWrites(states[..n], ops[..n-1]);
      StepConserves(states[n-1], ops[n-1], states[n]);
      Regroup(Returned(ops[..n-1]), Output(ops[n-1]), Pending(states[n]), Pending(states[n-1]), Input(ops[n-1]));
      IsPrefix(Returned(ops), Pending(states[n]), Written(ops));
    }
  }

  /** If the peer only Writes, a read succeeds exactly when there is a byte left to read. */
  lemma {:induction false} ReadyIffPending(w: Wire)
    requires forall i :: 0 <= i < |w.incoming| ==> w.incoming[i].Binary?
    ensures Ready(w) <==> Pending(w) != []
    decreases |w.incoming|
  {
    if w.incoming != [] {
      ReadyIffPending(Wire(w.incoming[0].payload, w.incoming[1..]));
    }
  }

  /**
   A failed read uses up empty binary messages and at most one message that is not binary,
   the last of them. It does use up such a one if a byte is left behind it, and that byte
   can still be read.
  */
  lemma FailureLosesNothing(w: Wire, size: nat, v: Wire)
    requires ReadStep(w, size, None, v)
    ensures |v.incoming| <= |w.incoming| && Pending(v) == Pending(w)
    ensures var used := w.incoming[..|w.incoming| - |v.incoming|];
      && w.rest == [] && v == Wire([], w.incoming[|used|..])
      && (forall i :: 0 <= i < |used| - 1 ==> used[i] == Binary([]))
      && (used != [] && used[|used| - 1].Binary? ==> used[|used| - 1] == Binary([]) && v.incoming == [])
      && (Pending(w) != [] ==> used != [] && used[|used| - 1].NotBinary?)
  {
    if v.incoming == [] && w.incoming != [] && w.incoming[|w.incoming| - 1].Binary? {
      AllEmpty(w.incoming);
    }
    if v.incoming == [] {
      assert Pending(v) == [];
    }
  }

  /** Binary messages without a byte among them are all empty. */
  lemma {:induction false} AllEmpty(ms: seq<Message>)
    requires Bytes(ms) == []
    ensures forall i :: 0 <= i < |ms| && ms[i].Binary? ==> ms[i].payload == []
  {
    if ms != [] {
      AllEmpty(ms[1..]);
      assert forall i :: 1 <= i < |ms| ==> ms[i] == ms[1..][i-1];
    }
  }
}
