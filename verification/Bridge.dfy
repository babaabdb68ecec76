/** SignalBridge (internal/signinwithssb/bridge.go): one-shot channels keyed by server challenge. */
module Signals {
  import opened Prelude

  datatype Event = Event(worked: bool, token: string, reason: string)

  /** What a receive from a closed channel yields. */
  const ZERO_EVENT := Event(false, "", "")

  datatype Chan = Chan(closed: bool, sent: seq<Event>)

  /** Channels are numbered in the order they were made; sessions name the ones in use. */
  datatype Bridge = Bridge(sessions: map<string, nat>, chans: seq<Chan>)

  const NEW_BRIDGE := Bridge(map[], [])

  function Registered(b: Bridge, c: string): Bridge {
    Bridge(b.sessions[c := |b.chans|], b.chans + [Chan(false, [])])
  }

  function Expired(b: Bridge, c: string): Bridge {
    b.(sessions := b.sessions - {c})
  }

  function Offered(b: Bridge, ch: nat, e: Event): Bridge
    requires ch < |b.chans|
  {
    b.(chans := b.chans[ch := b.chans[ch].(sent := b.chans[ch].sent + [e])])
  }

  function Finalized(b: Bridge, sc: string, ch: nat): Bridge
    requires ch < |b.chans|
  {
    Bridge(b.sessions - {sc}, b.chans[ch := b.chans[ch].(closed := true)])
  }

  /** The whole of sendAndClose, taken as one step. */
  ghost function AfterSend(b: Bridge, sc: string, e: Event, taken: bool): (r: Bridge)
    requires Fresh(b)
    ensures sc !in r.sessions
  {
    if sc !in b.sessions then b
    else
      var ch := b.sessions[sc];
      Finalized(if taken then Offered(b, ch, e) else b, sc, ch)
  }

  /** Every session has a channel of its own, open and unused. */
  ghost predicate Fresh(b: Bridge) {
    && (forall c :: c in b.sessions ==> b.sessions[c] < |b.chans| && b.chans[b.sessions[c]] == Chan(false, []))
    && (forall c, d :: c in b.sessions && d in b.sessions && b.sessions[c] == b.sessions[d] ==> c == d)
    && (forall ch :: 0 <= ch < |b.chans| ==> |b.chans[ch].sent| <= 1)
  }

  /**
   What sendAndClose leaves behind: the session is gone and the others stay; its channel is
   closed and carries the event exactly if a reader took it, and the other channels stay.
  */
  ghost predicate Announced(b: Bridge, sc: string, e: Event, taken: bool, c: Bridge) {
    && c.sessions.Keys == b.sessions.Keys - {sc}
    && (forall d :: d in c.sessions ==> c.sessions[d] == b.sessions[d])
    && |c.chans| == |b.chans|
    && (forall ch :: 0 <= ch < |b.chans| ==>
          c.chans[ch] == if sc in b.sessions && b.sessions[sc] == ch then Chan(true, if taken then [e] else []) else b.chans[ch])
  }

  ghost predicate NeverRepeats(source: nat -> string) {
    forall i: nat, j: nat :: source(i) == source(j) ==> i == j
  }

  lemma {:induction false} DistinctDrawsFit(source: nat -> string, used: set<string>, n: nat)
    requires NeverRepeats(source)
    requires forall i: nat :: i < n ==> source(i) in used
    ensures n <= |used|
  {
    if n > 0 {
      forall i: nat | i < n - 1 ensures source(i) in used - {source(n - 1)} {
        assert source(i) == source(n - 1) ==> i == n - 1;
      }
      DistinctDrawsFit(source, used - {source(n - 1)}, n - 1);
    }
  }

  lemma DrawsBound(source: nat -> string, used: set<string>, n: nat)
    requires forall i: nat :: i < n ==> source(i) in used
    ensures NeverRepeats(source) ==> n <= |used|
  {
    if NeverRepeats(source) {
      DistinctDrawsFit(source, used, n);
    }
  }

  lemma RegisteredFresh(b: Bridge, c: string)
    requires Fresh(b) && c !in b.sessions
    ensures Fresh(Registered(b, c))
  {
  }

  /** A source that never repeats yields a challenge outside any finite set of used ones. */
  lemma UnusedDrawExists(source: nat -> string, used: set<string>)
    requires NeverRepeats(source)
    ensures exists n: nat :: n <= |used| && source(n) !in used
  {
    if forall n: nat :: n <= |used| ==> source(n) in used {
      DistinctDrawsFit(source, used, |used| + 1);
    }
  }

  class SignalBridge {
    var sessions: map<string, nat>
    var chans: seq<Chan>

    ghost function State(): Bridge
      reads this
    {
      Bridge(sessions, chans)
    }

    ghost predicate Valid()
      reads this
    {
      Fresh(State())
    }

    constructor ()
      ensures Valid() && State() == NEW_BRIDGE
    {
      sessions, chans := map[], [];
    }

    /**
     Draws challenges until one is unused. The loop ends exactly if the source ever
     yields an unused one; a source that never repeats does within |sessions| + 1 draws.
    */
    method RegisterSession(source: nat -> string) returns (c: string, draws: nat)
      requires Valid()
      requires exists n: nat :: source(n) !in sessions
      modifies this
      ensures Valid() && State() == Registered(old(State()), c)
      ensures sessions.Keys == old(sessions).Keys + {c}
      ensures forall d :: d in old(sessions) ==> sessions[d] == old(sessions)[d]
      ensures sessions[c] == |old(chans)| && |chans| == |old(chans)| + 1
      ensures chans[|old(chans)|] == Chan(false, []) && forall ch :: 0 <= ch < |old(chans)| ==> chans[ch] == old(chans)[ch]
      ensures c !in old(sessions) && draws > 0 && c == source(draws - 1)
      ensures forall i: nat :: i < draws - 1 ==> source(i) in old(sessions)
      ensures NeverRepeats(source) ==> draws <= |old(sessions)| + 1
    {
      c, draws := Draw(source);
      RegisteredFresh(State(), c);
      chans := chans + [Chan(false, [])];
      sessions := sessions[c := |chans| - 1];
      assert State() == Registered(old(State()), c);
    }

    /** The retry loop of RegisterSession. */
    method Draw(source: nat -> string) returns (c: string, draws: nat)
      requires exists n: nat :: source(n) !in sessions
      ensures c !in sessions && draws > 0 && c == source(draws - 1)
      ensures forall i: nat :: i < draws - 1 ==> source(i) in sessions
      ensures NeverRepeats(source) ==> draws <= |sessions| + 1
    {
      ghost var unused: nat :| source(unused) !in sessions;
      c, draws := source(0), 1;
      while c in sessions
        invariant draws > 0 && c == source(draws - 1) && draws - 1 <= unused
        invariant forall i: nat :: i < draws - 1 ==> source(i) in sessions
        decreases unused - draws
      {
        c, draws := source(draws), draws + 1;
      }
      DrawsBound(source, sessions.Keys, draws - 1);
    }

    /** The goroutine RegisterSession leaves behind, ten minutes later. */
    method Expire(c: string)
      requires Valid()
      modifies this
      ensures Valid() && State() == Expired(old(State()), c)
      ensures sessions == old(sessions) - {c} && chans == old(chans)
    {
      sessions := sessions - {c};
    }

    method GetEventChannel(sc: string) returns (ch: Option<nat>)
      ensures ch == if sc in sessions then Some(sessions[sc]) else None
    {
      if sc in sessions {
        ch := Some(sessions[sc]);
      } else {
        ch := None;
      }
    }

    /** `taken` says whether a reader takes the event before the two minutes are over. */
    method SendAndClose(sc: string, e: Event, taken: bool) returns (ok: bool)
      requires Valid()
      modifies this
      ensures Valid()
      ensures ok <==> sc in old(sessions) && taken
      ensures State() == AfterSend(old(State()), sc, e, taken)
      ensures Announced(old(State()), sc, e, taken, State())
    {
      if sc !in sessions {
        return false;
      }
      var ch := sessions[sc];
      if taken {
        assert !chans[ch].closed;  // a send on a closed channel would panic
        chans := chans[ch := chans[ch].(sent := chans[ch].sent + [e])];
      }
      assert !chans[ch].closed;  // so would a second close
      chans := chans[ch := chans[ch].(closed := true)];
      sessions := sessions - {sc};
      return taken;
    }

    method SessionWorked(sc: string, token: string, taken: bool) returns (ok: bool)
      requires Valid()
      modifies this
      ensures Valid()
      ensures ok <==> sc in old(sessions) && taken
      ensures State() == AfterSend(old(State()), sc, Event(true, token, ""), taken)
      ensures Announced(old(State()), sc, Event(true, token, ""), taken, State())
    {
      ok := SendAndClose(sc, Event(true, token, ""), taken);
    }

    method SessionFailed(sc: string, reason: string, taken: bool) returns (ok: bool)
      requires Valid()
      modifies this
      ensures Valid()
      ensures ok <==> sc in old(sessions) && taken
      ensures State() == AfterSend(old(State()), sc, Event(false, "", reason), taken)
      ensures Announced(old(State()), sc, Event(false, "", reason), taken, State())
    {
      ok := SendAndClose(sc, Event(false, "", reason), taken);
    }
  }
}
