/**
 What every interleaving of sign-ins comes to, in terms of the actions of the run: the
 steps of each SendSolution call, the life of sessions and channels, who gets an event,
 and what becomes of the stored rows.
*/
module SignInRuns {
  import opened Prelude
  import opened Signals
  import opened SignIn

  // ---- The steps of one SendSolution call ----

  predicate IsOf(a: Action, k: CallId) {
    (a.Begin? || a.Reject? || a.Fail? || a.Store? || a.Lock? || a.Deliver? || a.GiveUp? || a.Finish? || a.Undo?) && a.k == k
  }

  /** What call k itself has done. */
  ghost function Steps(acts: seq<Action>, k: CallId): seq<Action> {
    if acts == [] then []
    else Steps(acts[..|acts|-1], k) + if IsOf(acts[|acts|-1], k) then [acts[|acts|-1]] else []
  }

  /** Begun and ready to signal: a failure with its reason, or a success with the token just stored. */
  predicate Prepared(k: CallId, c: Call, t: seq<Action>) {
    && |t| == 2 && t[0] == Begin(k, c.sc) && IsOf(t[1], k)
    && ((t[1].Fail? && c.evt == Event(false, "", t[1].reason) && c.stored.None?) ||
        (t[1].Store? && c.evt == Event(true, t[1].token, "") && c.stored.Some? && c.stored.value.token == t[1].token))
  }

  /** Prepared, and then these steps. */
  predicate Then(k: CallId, c: Call, t: seq<Action>, body: seq<Action>) {
    |t| == 2 + |body| && Prepared(k, c, t[..2]) && t[2..] == body
  }

  /** Signalled in vain: the session was gone, or nobody took the event. */
  predicate Unheard(k: CallId, c: Call, t: seq<Action>, end: seq<Action>) {
    Then(k, c, t, [Lock(k)] + end) || Then(k, c, t, [Lock(k), GiveUp(k), Finish(k)] + end)
  }

  /** What a call that stands at c.pc has done so far. */
  ghost predicate Script(k: CallId, c: Call, t: seq<Action>) {
    match c.pc
    case Begun => t == [Begin(k, c.sc)] && c.stored.None? && c.evt == ZERO_EVENT
    case Locking => Prepared(k, c, t)
    case Sending(_) => Then(k, c, t, [Lock(k)])
    case Sent(_, to) => Then(k, c, t, [Lock(k), Deliver(k, to)])
    case GaveUp(_) => Then(k, c, t, [Lock(k), GiveUp(k)])
    case Undoing => c.evt.worked && Unheard(k, c, t, [])
    case ReturnedTrue(to) => c.evt.worked && Then(k, c, t, [Lock(k), Deliver(k, to), Finish(k)])
    case ReturnedError(leaks) =>
      if c.evt.worked then Unheard(k, c, t, [Undo(k, !leaks)])
      else
        || (!leaks && t == [Begin(k, c.sc), Reject(k)])
        || (!leaks && Unheard(k, c, t, []))
        || (!leaks && |t| == 5 && t[3].Deliver? && Then(k, c, t, [Lock(k), Deliver(k, t[3].r), Finish(k)]))
  }

  ghost predicate OnScript(s: State, k: CallId, t: seq<Action>) {
    if k in s.calls then Script(k, s.calls[k], t) else t == []
  }

  lemma Extended(k: CallId, c: Call, c': Call, t: seq<Action>, body: seq<Action>, a: Action)
    requires Then(k, c, t, body) && c'.sc == c.sc && c'.evt == c.evt && c'.stored == c.stored
    ensures Then(k, c', t + [a], body + [a])
  {
    assert (t + [a])[..2] == t[..2] && (t + [a])[2..] == t[2..] + [a];
  }

  lemma PrepareScript(s: State, a: Action, k: CallId, t: seq<Action>)
    requires Enabled(s, a) && IsOf(a, k) && OnScript(s, k, t) && (a.Begin? || a.Reject? || a.Fail? || a.Store?)
    ensures OnScript(Next(s, a), k, t + [a])
  {
  }

  lemma LockScript(s: State, k: CallId, t: seq<Action>)
    requires Enabled(s, Lock(k)) && OnScript(s, k, t)
    ensures OnScript(Next(s, Lock(k)), k, t + [Lock(k)])
  {
    var c' := Next(s, Lock(k)).calls[k];
    assert Then(k, s.calls[k], t, []) by { assert t[..2] == t && t[2..] == []; }
    Extended(k, s.calls[k], c', t, [], Lock(k));
    assert [] + [Lock(k)] == [Lock(k)] && [Lock(k)] + [] == [Lock(k)];
  }

  lemma SelectScript(s: State, a: Action, k: CallId, t: seq<Action>)
    requires Enabled(s, a) && IsOf(a, k) && OnScript(s, k, t) && (a.Deliver? || a.GiveUp?)
    ensures OnScript(Next(s, a), k, t + [a])
  {
    Extended(k, s.calls[k], Next(s, a).calls[k], t, [Lock(k)], a);
    assert [Lock(k)] + [a] == [Lock(k), a];
  }

  lemma FinishScript(s: State, k: CallId, t: seq<Action>)
    requires Enabled(s, Finish(k)) && OnScript(s, k, t)
    ensures OnScript(Next(s, Finish(k)), k, t + [Finish(k)])
  {
    var c, c' := s.calls[k], Next(s, Finish(k)).calls[k];
    if c.pc.GaveUp? {
      Extended(k, c, c', t, [Lock(k), GiveUp(k)], Finish(k));
      assert [Lock(k), GiveUp(k)] + [Finish(k)] == [Lock(k), GiveUp(k), Finish(k)] == [Lock(k), GiveUp(k), Finish(k)] + [];
    } else {
      Extended(k, c, c', t, [Lock(k), Deliver(k, c.pc.to)], Finish(k));
      assert [Lock(k), Deliver(k, c.pc.to)] + [Finish(k)] == [Lock(k), Deliver(k, c.pc.to), Finish(k)];
      assert t[2..][1] == Deliver(k, c.pc.to);
    }
  }

  lemma UndoScript(s: State, k: CallId, ok: bool, t: seq<Action>)
    requires Enabled(s, Undo(k, ok)) && OnScript(s, k, t)
    ensures OnScript(Next(s, Undo(k, ok)), k, t + [Undo(k, ok)])
  {
    var c, c' := s.calls[k], Next(s, Undo(k, ok)).calls[k];
    var one, three := [Lock(k)], [Lock(k), GiveUp(k), Finish(k)];
    assert one + [] == one && three + [] == three;
    if Then(k, c, t, one) {
      Extended(k, c, c', t, one, Undo(k, ok));
    } else {
      Extended(k, c, c', t, three, Undo(k, ok));
    }
  }

  lemma OthersScript(s: State, a: Action, k: CallId, t: seq<Action>)
    requires Enabled(s, a) && !IsOf(a, k) && OnScript(s, k, t)
    ensures OnScript(Next(s, a), k, t)
  {
    var u := Next(s, a);
    assert k in u.calls <==> k in s.calls;
    assert k in s.calls ==> u.calls[k] == s.calls[k];
  }

  lemma StepScript(s: State, a: Action, k: CallId, t: seq<Action>)
    requires Enabled(s, a) && OnScript(s, k, t)
    ensures OnScript(Next(s, a), k, t + if IsOf(a, k) then [a] else [])
  {
    if !IsOf(a, k) {
      OthersScript(s, a, k, t);
      assert t + [] == t;
    } else {
      match a
      case Lock(_) => LockScript(s, k, t);
      case Deliver(_, _) => SelectScript(s, a, k, t);
      case GiveUp(_) => SelectScript(s, a, k, t);
      case Finish(_) => FinishScript(s, k, t);
      case Undo(_, ok) => UndoScript(s, k, ok, t);
      case _ => PrepareScript(s, a, k, t);
    }
  }

  /** Whatever goes on besides, a call's own steps are those of SendSolution and sendAndClose, in order. */
  lemma {:induction false} CallsFollowTheSource(states: seq<State>, acts: seq<Action>, n: nat, k: CallId)
    requires IsRun(states, acts) && n <= |acts|
    ensures OnScript(states[n], k, Steps(acts[..n], k))
  {
    if n > 0 {
      CallsFollowTheSource(states, acts, n - 1, k);
      assert acts[..n][..n-1] == acts[..n-1];
      StepScript(states[n-1], acts[n-1], k, Steps(acts[..n-1], k));
    }
  }

  lemma {:induction false} StepsAreActions(acts: seq<Action>, n: nat, k: CallId)
    requires n <= |acts|
    ensures forall a :: a in Steps(acts[..n], k) <==> a in acts[..n] && IsOf(a, k)
  {
    if n > 0 {
      assert acts[..n][..n-1] == acts[..n-1] && acts[..n] == acts[..n-1] + [acts[n-1]];
      StepsAreActions(acts, n - 1, k);
    }
  }

  // ---- Sessions and their channels ----

  /** Step j ends the session of sc. */
  ghost predicate Ends(states: seq<State>, acts: seq<Action>, j: nat, sc: string)
    requires j < |acts| < |states|
  {
    acts[j] == Expire(sc) || (acts[j].Finish? && acts[j].k in states[j].calls && states[j].calls[acts[j].k].sc == sc)
  }

  /** sc was registered in step i, and its session has not ended before n. */
  ghost predicate IsOpen(states: seq<State>, acts: seq<Action>, i: nat, n: nat, sc: string)
    requires n <= |acts| < |states|
  {
    i < n && acts[i] == Register(sc) && forall j :: i < j < n ==> !Ends(states, acts, j, sc)
  }

  /** What a step makes of the session of sc and the number of channels. */
  ghost predicate SessionStep(b: Bridge, c: Bridge, sc: string, registers: bool, ends: bool) {
    && (sc in c.sessions <==> registers || (sc in b.sessions && !ends))
    && (sc in c.sessions ==> c.sessions[sc] == if registers then |b.chans| else b.sessions[sc])
  }

  lemma StepSession(s: State, a: Action, sc: string)
    requires Rendezvous(s) && Enabled(s, a)
    ensures SessionStep(s.bridge, Next(s, a).bridge, sc, a == Register(sc),
                        a == Expire(sc) || (a.Finish? && s.calls[a.k].sc == sc))
  {
    if !a.Register? && !a.Expire? && !a.Finish? {
      SameSessions(s, a);
    }
  }

  lemma RunSession(states: seq<State>, acts: seq<Action>, j: nat, sc: string)
    requires IsRun(states, acts) && j < |acts|
    ensures SessionStep(states[j].bridge, states[j+1].bridge, sc, acts[j] == Register(sc), Ends(states, acts, j, sc))
  {
    RunKeeps(states, acts, j);
    StepSession(states[j], acts[j], sc);
  }

  lemma SameSessions(s: State, a: Action)
    requires Enabled(s, a) && !a.Register? && !a.Expire? && !a.Finish?
    ensures Next(s, a).bridge.sessions == s.bridge.sessions
  {
  }

  lemma StepChannels(s: State, a: Action)
    requires Enabled(s, a)
    ensures |Next(s, a).bridge.chans| == |s.bridge.chans| + if a.Register? then 1 else 0
  {
  }

  /** sc has the session with channel ch. */
  ghost predicate HasSession(b: Bridge, sc: string, ch: nat) {
    sc in b.sessions && b.sessions[sc] == ch
  }

  /** Which sessions there are: exactly those registered and not expired or finished since, each with its own channel. */
  lemma SessionLives(states: seq<State>, acts: seq<Action>, n: nat, sc: string, ch: nat)
    requires IsRun(states, acts) && n <= |acts|
    ensures HasSession(states[n].bridge, sc, ch) <==>
              exists i: nat :: IsOpen(states, acts, i, n, sc) && |states[i].bridge.chans| == ch
  {
    var has := seq(|states|, j requires 0 <= j < |states| => HasSession(states[j].bridge, sc, ch));
    var starts := seq(|acts|, j requires 0 <= j < |acts| => acts[j] == Register(sc) && |states[j].bridge.chans| == ch);
    var ends := seq(|acts|, j requires 0 <= j < |acts| => Ends(states, acts, j, sc));
    forall j | 0 <= j < |acts| ensures has[j+1] <==> starts[j] || (has[j] && !ends[j]) {
      RunSession(states, acts, j, sc);
    }
    Lifetime(has, starts, ends, n);
    forall i: nat ensures Lasts(starts, ends, i, n) <==> IsOpen(states, acts, i, n, sc) && |states[i].bridge.chans| == ch {
      assert forall j :: 0 <= j < n ==> ends[j] == Ends(states, acts, j, sc);
    }
  }

  /** How often acts[..n] has a. */
  ghost function Count(acts: seq<Action>, n: nat, a: Action): nat
    requires n <= |acts|
  {
    if n == 0 then 0 else Count(acts, n - 1, a) + if acts[n-1] == a then 1 else 0
  }

  lemma StepTimers(s: State, a: Action, sc: string)
    requires Enabled(s, a)
    ensures Next(s, a).timers[sc] + (if a == Expire(sc) then 1 else 0) == s.timers[sc] + if a == Register(sc) then 1 else 0
  {
  }

  /** Each registration leaves one timer, which fires once, and at any time at which the mutex is free. */
  lemma {:induction false} EachSessionExpiresOnce(states: seq<State>, acts: seq<Action>, n: nat, sc: string)
    requires IsRun(states, acts) && n <= |acts|
    ensures Count(acts, n, Expire(sc)) + states[n].timers[sc] == Count(acts, n, Register(sc))
    ensures Enabled(states[n], Expire(sc)) <==> states[n].holder.None? && Count(acts, n, Expire(sc)) < Count(acts, n, Register(sc))
  {
    if n > 0 {
      EachSessionExpiresOnce(states, acts, n - 1, sc);
      StepTimers(states[n-1], acts[n-1], sc);
    }
  }

  lemma RunChannels(states: seq<State>, acts: seq<Action>, j: nat)
    requires IsRun(states, acts) && j < |acts|
    ensures |states[j+1].bridge.chans| == |states[j].bridge.chans| + if acts[j].Register? then 1 else 0
  {
    StepChannels(states[j], acts[j]);
  }

  lemma {:induction false} Grows(counts: seq<nat>, up: seq<bool>, i: nat, n: nat)
    requires |counts| == |up| + 1 && i <= n <= |up|
    requires forall j :: 0 <= j < |up| ==> counts[j+1] == counts[j] + if up[j] then 1 else 0
    ensures counts[i] <= counts[n] && (i < n && up[i] ==> counts[i] < counts[n])
    decreases n
  {
    if i < n {
      Grows(counts, up, i, n - 1);
    }
  }

  lemma ChannelsGrow(states: seq<State>, acts: seq<Action>, i: nat, n: nat)
    requires IsRun(states, acts) && i <= n <= |acts|
    ensures |states[i].bridge.chans| <= |states[n].bridge.chans|
    ensures i < n && acts[i].Register? ==> |states[i].bridge.chans| < |states[n].bridge.chans|
  {
    var counts := seq(|states|, j requires 0 <= j < |states| => |states[j].bridge.chans|);
    var up := seq(|acts|, j requires 0 <= j < |acts| => acts[j].Register?);
    forall j | 0 <= j < |up| ensures counts[j+1] == counts[j] + if up[j] then 1 else 0 {
      RunChannels(states, acts, j);
    }
    Grows(counts, up, i, n);
  }

  /** A channel belongs to the one challenge it was made for. */
  lemma ChannelHasOneSession(states: seq<State>, acts: seq<Action>, m: nat, n: nat, sc: string, sc': string)
    requires IsRun(states, acts) && m <= |acts| && n <= |acts|
    requires sc in states[m].bridge.sessions && sc' in states[n].bridge.sessions
    requires states[m].bridge.sessions[sc] == states[n].bridge.sessions[sc']
    ensures sc == sc'
  {
    var ch := states[m].bridge.sessions[sc];
    SessionLives(states, acts, m, sc, ch);
    SessionLives(states, acts, n, sc', ch);
    var i: nat :| IsOpen(states, acts, i, m, sc) && |states[i].bridge.chans| == ch;
    var j: nat :| IsOpen(states, acts, j, n, sc') && |states[j].bridge.chans| == ch;
    if i < j {
      ChannelsGrow(states, acts, i, j);
    } else if j < i {
      ChannelsGrow(states, acts, j, i);
    }
  }

  // ---- Readers ----

  /** A reader listens on the channel of the session it asked for. */
  lemma {:induction false} ListenerOrigin(states: seq<State>, acts: seq<Action>, n: nat, r: ReaderId) returns (f: nat, sc: string)
    requires IsRun(states, acts) && n <= |acts|
    requires r in states[n].readers && states[n].readers[r].Listening?
    ensures f < n && acts[f] == Fetch(r, sc)
    ensures sc in states[f].bridge.sessions && states[n].readers[r] == Listening(states[f].bridge.sessions[sc], states[f].now)
  {
    if n == 0 {
      assert false;
    }
    StepListener(states[n-1], acts[n-1], r);
    if acts[n-1].Fetch? && acts[n-1].r == r {
      f, sc := n - 1, acts[n-1].sc;
    } else {
      f, sc := ListenerOrigin(states, acts, n - 1, r);
    }
  }

  lemma StepListener(s: State, a: Action, r: ReaderId)
    requires Enabled(s, a) && r in Next(s, a).readers && Next(s, a).readers[r].Listening?
    ensures if a.Fetch? && a.r == r
            then a.sc in s.bridge.sessions && Next(s, a).readers[r] == Listening(s.bridge.sessions[a.sc], s.now)
            else r in s.readers && s.readers[r] == Next(s, a).readers[r]
  {
  }

  /** A call that holds the mutex took it at the time it says. */
  lemma {:induction false} LockOrigin(states: seq<State>, acts: seq<Action>, n: nat, k: CallId) returns (l: nat)
    requires IsRun(states, acts) && n <= |acts| && k in states[n].calls && states[n].calls[k].pc.Sending?
    ensures l < n && acts[l] == Lock(k) && states[n].calls[k].lockedAt == states[l].now
  {
    if n == 0 {
      assert false;
    }
    StepSending(states[n-1], acts[n-1], k);
    if acts[n-1] == Lock(k) {
      l := n - 1;
    } else {
      l := LockOrigin(states, acts, n - 1, k);
    }
  }

  lemma StepSending(s: State, a: Action, k: CallId)
    requires Enabled(s, a) && k in Next(s, a).calls && Next(s, a).calls[k].pc.Sending?
    ensures if a == Lock(k) then Next(s, a).calls[k].lockedAt == s.now
            else k in s.calls && s.calls[k] == Next(s, a).calls[k]
  {
  }

  lemma {:induction false} TimeIsPosition(states: seq<State>, acts: seq<Action>, n: nat)
    requires IsRun(states, acts) && n <= |acts|
    ensures states[n].now == n
  {
    if n > 0 {
      TimeIsPosition(states, acts, n - 1);
    }
  }

  /** An event is only handed to a reader that asked for the session it is about, before the mutex was taken. */
  lemma DeliveredToItsSession(states: seq<State>, acts: seq<Action>, d: nat, k: CallId, r: ReaderId)
    requires IsRun(states, acts) && d < |acts| && acts[d] == Deliver(k, r)
    ensures exists f, l :: 0 <= f < l < d && acts[f] == Fetch(r, states[d].calls[k].sc) && acts[l] == Lock(k)
  {
    RunKeeps(states, acts, d);
    var f, sc := ListenerOrigin(states, acts, d, r);
    var l := LockOrigin(states, acts, d, k);
    TimeIsPosition(states, acts, f);
    TimeIsPosition(states, acts, l);
    ChannelHasOneSession(states, acts, f, d, sc, states[d].calls[k].sc);
  }

  lemma {:induction false} CallStays(states: seq<State>, acts: seq<Action>, m: nat, n: nat, k: CallId)
    requires IsRun(states, acts) && m <= n <= |acts| && k in states[m].calls
    ensures k in states[n].calls && states[n].calls[k].sc == states[m].calls[k].sc
    decreases n
  {
    if m < n {
      CallStays(states, acts, m, n - 1, k);
      RunCall(states, acts, n - 1, k);
    }
  }

  lemma RunCall(states: seq<State>, acts: seq<Action>, j: nat, k: CallId)
    requires IsRun(states, acts) && j < |acts| && k in states[j].calls
    ensures k in states[j+1].calls && states[j+1].calls[k].sc == states[j].calls[k].sc
  {
    StepCall(states[j], acts[j], k);
  }

  lemma StepCall(s: State, a: Action, k: CallId)
    requires Enabled(s, a) && k in s.calls
    ensures k in Next(s, a).calls && Next(s, a).calls[k].sc == s.calls[k].sc
  {
  }

  /** Who holds an event of call k was handed it by k. */
  lemma {:induction false} HolderOrigin(states: seq<State>, acts: seq<Action>, n: nat, r: ReaderId, k: CallId) returns (d: nat)
    requires IsRun(states, acts) && n <= |acts| && Holds(states[n], r, k)
    ensures d < n && acts[d] == Deliver(k, r)
  {
    if n == 0 {
      assert false;
    }
    StepHolder(states[n-1], acts[n-1], r, k);
    if acts[n-1] == Deliver(k, r) {
      d := n - 1;
    } else {
      d := HolderOrigin(states, acts, n - 1, r, k);
    }
  }

  lemma StepHolder(s: State, a: Action, r: ReaderId, k: CallId)
    requires Enabled(s, a) && Holds(Next(s, a), r, k)
    ensures a == Deliver(k, r) || Holds(s, r, k)
  {
  }

  /** r asked for the session of call k, and was then handed the event of k. */
  ghost predicate AskedAndGot(acts: seq<Action>, n: nat, r: ReaderId, k: CallId, sc: string)
    requires n <= |acts|
  {
    exists f, d :: 0 <= f < d < n && acts[f] == Fetch(r, sc) && acts[d] == Deliver(k, r)
  }

  lemma HolderAsked(states: seq<State>, acts: seq<Action>, n: nat, r: ReaderId, k: CallId)
    requires IsRun(states, acts) && n <= |acts| && Holds(states[n], r, k)
    ensures k in states[n].calls && AskedAndGot(acts, n, r, k, states[n].calls[k].sc)
  {
    var d := HolderOrigin(states, acts, n, r, k);
    DeliveredToItsSession(states, acts, d, k, r);
    CallStays(states, acts, d, n, k);
  }

  // ---- What a channel carries ----

  /** The events handed over on channel ch before n. */
  ghost function HandedOver(states: seq<State>, acts: seq<Action>, n: nat, ch: nat): seq<Event>
    requires n <= |acts| < |states|
  {
    if n == 0 then []
    else HandedOver(states, acts, n - 1, ch) + OnChannel(states[n-1], acts[n-1], ch)
  }

  ghost function OnChannel(s: State, a: Action, ch: nat): seq<Event> {
    if a.Deliver? && a.k in s.calls && s.calls[a.k].pc.Sending? && s.calls[a.k].pc.ch == ch then [s.calls[a.k].evt] else []
  }

  ghost predicate FinishesOn(s: State, a: Action, ch: nat) {
    a.Finish? && a.k in s.calls && (s.calls[a.k].pc.Sent? || s.calls[a.k].pc.GaveUp?) && s.calls[a.k].pc.ch == ch
  }

  lemma StepChannel(s: State, a: Action, ch: nat)
    requires Enabled(s, a) && ch < |Next(s, a).bridge.chans|
    ensures var was := if ch < |s.bridge.chans| then s.bridge.chans[ch] else Chan(false, []);
            Next(s, a).bridge.chans[ch] == Chan(was.closed || FinishesOn(s, a, ch), was.sent + OnChannel(s, a, ch))
  {
  }

  /** A channel carries exactly what was handed over on it, and is closed exactly if a call that used it has finished. */
  lemma {:induction false} ChannelsCarryWhatWasSent(states: seq<State>, acts: seq<Action>, n: nat, ch: nat)
    requires IsRun(states, acts) && n <= |acts|
    ensures if ch < |states[n].bridge.chans|
            then states[n].bridge.chans[ch].sent == HandedOver(states, acts, n, ch) &&
                 (states[n].bridge.chans[ch].closed <==> exists j :: 0 <= j < n && FinishesOn(states[j], acts[j], ch))
            else HandedOver(states, acts, n, ch) == [] && forall j :: 0 <= j < n ==> !FinishesOn(states[j], acts[j], ch)
  {
    if n > 0 {
      ChannelsCarryWhatWasSent(states, acts, n - 1, ch);
      RunKeeps(states, acts, n - 1);
      StepChannels(states[n-1], acts[n-1]);
      if ch < |states[n].bridge.chans| {
        StepChannel(states[n-1], acts[n-1], ch);
      }
    }
  }

  // ---- The session rows ----

  predicate Stores(a: Action, token: string, member: nat) {
    a == StoreOther(token, member) || (a.Store? && a.token == token && a.member == member)
  }

  /** The step removes whatever row of that member has the token. */
  predicate Removes(s: State, a: Action, token: string, member: nat) {
    || a == Remove(token) || a == Wipe(member)
    || (a.Undo? && a.ok && a.k in s.calls && s.calls[a.k].stored.Some? && s.calls[a.k].stored.value.token == token)
  }

  /** Step i stored the row, and nothing has removed it before n. */
  ghost predicate IsKept(states: seq<State>, acts: seq<Action>, i: nat, n: nat, token: string, row: Row)
    requires n <= |acts| < |states|
  {
    && i < n && Stores(acts[i], token, row.member) && row.id == states[i].db.nextRow
    && forall j :: i < j < n ==> !Removes(states[j], acts[j], token, row.member)
  }

  ghost predicate HasThisRow(db: Table, token: string, row: Row) {
    token in db.rows && db.rows[token] == row
  }

  lemma StepRow(s: State, a: Action, token: string, row: Row)
    requires Enabled(s, a)
    ensures HasThisRow(Next(s, a).db, token, row) <==>
              (Stores(a, token, row.member) && row.id == s.db.nextRow) ||
              (HasThisRow(s.db, token, row) && !Removes(s, a, token, row.member))
  {
    if a.Store? || a.StoreOther? {
      StoredRow(s, a, token, row);
    } else if a.Undo? {
      UndoneRow(s, a, token, row);
    } else if a.Remove? || a.Wipe? {
      RemovedRow(s, a, token, row);
    } else {
      SameTable(s, a);
    }
  }

  lemma StoredRow(s: State, a: Action, token: string, row: Row)
    requires Enabled(s, a) && (a.Store? || a.StoreOther?)
    ensures HasThisRow(Next(s, a).db, token, row) <==>
              (Stores(a, token, row.member) && row.id == s.db.nextRow) || HasThisRow(s.db, token, row)
    ensures HasThisRow(s.db, token, row) ==> !Removes(s, a, token, row.member)
  {
  }

  lemma UndoneRow(s: State, a: Action, token: string, row: Row)
    requires Enabled(s, a) && a.Undo?
    ensures HasThisRow(Next(s, a).db, token, row) <==> HasThisRow(s.db, token, row) && !Removes(s, a, token, row.member)
  {
  }

  lemma RemovedRow(s: State, a: Action, token: string, row: Row)
    requires Enabled(s, a) && (a.Remove? || a.Wipe?)
    ensures HasThisRow(Next(s, a).db, token, row) <==> HasThisRow(s.db, token, row) && !Removes(s, a, token, row.member)
  {
  }

  lemma SameTable(s: State, a: Action)
    requires Enabled(s, a) && !a.Store? && !a.StoreOther? && !a.Remove? && !a.Wipe? && !a.Undo?
    ensures Next(s, a).db == s.db
  {
  }

  /**
   The session table holds exactly the rows that were stored, for the member they were
   stored for, and that no RemoveToken of their token and no wiping of their member has
   removed since.
  */
  lemma RowsAreStored(states: seq<State>, acts: seq<Action>, n: nat, token: string, row: Row)
    requires IsRun(states, acts) && n <= |acts|
    ensures HasThisRow(states[n].db, token, row) <==> exists i: nat :: IsKept(states, acts, i, n, token, row)
  {
    var has := seq(|states|, j requires 0 <= j < |states| => HasThisRow(states[j].db, token, row));
    var starts := seq(|acts|, j requires 0 <= j < |acts| => Stores(acts[j], token, row.member) && row.id == states[j].db.nextRow);
    var ends := seq(|acts|, j requires 0 <= j < |acts| => Removes(states[j], acts[j], token, row.member));
    forall j | 0 <= j < |acts| ensures has[j+1] <==> starts[j] || (has[j] && !ends[j]) {
      StepRow(states[j], acts[j], token, row);
    }
    Lifetime(has, starts, ends, n);
    forall i: nat ensures Lasts(starts, ends, i, n) <==> IsKept(states, acts, i, n, token, row) {
      assert forall j :: 0 <= j < n ==> ends[j] == Removes(states[j], acts[j], token, row.member);
    }
  }

  // ---- Main results ----

  /** A call returns true exactly by storing a token, taking the bridge, handing the event over and finishing. */
  lemma ReturnsTrueIff(states: seq<State>, acts: seq<Action>, n: nat, k: CallId, to: ReaderId)
    requires IsRun(states, acts) && n <= |acts|
    ensures k in states[n].calls && states[n].calls[k].pc == ReturnedTrue(to) <==>
              exists sc, token, m :: Steps(acts[..n], k) == [Begin(k, sc), Store(k, token, m), Lock(k), Deliver(k, to), Finish(k)]
  {
    CallsFollowTheSource(states, acts, n, k);
    var t := Steps(acts[..n], k);
    if k in states[n].calls {
      TrueScript(k, states[n].calls[k], t, to);
    }
  }

  lemma TrueScript(k: CallId, c: Call, t: seq<Action>, to: ReaderId)
    requires Script(k, c, t)
    ensures c.pc == ReturnedTrue(to) <==>
              exists sc, token, m :: t == [Begin(k, sc), Store(k, token, m), Lock(k), Deliver(k, to), Finish(k)]
    ensures c.pc.ReturnedTrue? ==> |t| == 5 && t[0] == Begin(k, c.sc) && t[1].Store? && t[1].k == k &&
                                   c.stored.Some? && t[1].token == c.stored.value.token
  {
    assert |t| == 5 ==> t[2..][0] == t[2] && t[2..][1] == t[3] && t[2..][2] == t[4];
    if c.pc == ReturnedTrue(to) {
      assert t == [Begin(k, c.sc), Store(k, t[1].token, t[1].member), Lock(k), Deliver(k, to), Finish(k)];
    }
  }

  /**
   The bridge never sends on or closes a closed channel, a channel carries at most
   one event, and an event is only ever taken by a reader that fetched its channel
   before sendAndClose took the mutex.
  */
  lemma OneShotChannels(states: seq<State>, acts: seq<Action>, n: nat)
    requires IsRun(states, acts) && n <= |acts|
    ensures !states[n].panicked
    ensures forall ch :: 0 <= ch < |states[n].bridge.chans| ==> |states[n].bridge.chans[ch].sent| <= 1
    ensures n < |acts| && acts[n].Deliver? ==>
              && !states[n].bridge.chans[states[n].calls[acts[n].k].pc.ch].closed
              && states[n].readers[acts[n].r].since < states[n].calls[acts[n].k].lockedAt
              && exists f, l :: 0 <= f < l < n && acts[f] == Fetch(acts[n].r, states[n].calls[acts[n].k].sc) && acts[l] == Lock(acts[n].k)
  {
    RunKeeps(states, acts, n);
    if n < |acts| && acts[n].Deliver? {
      DeliveredToItsSession(states, acts, n, acts[n].k, acts[n].r);
    }
  }

  lemma TrueStored(states: seq<State>, acts: seq<Action>, n: nat, k: CallId)
    requires IsRun(states, acts) && n <= |acts| && k in states[n].calls && states[n].calls[k].pc.ReturnedTrue?
    ensures var c := states[n].calls[k];
      c.stored.Some? && Begin(k, c.sc) in acts[..n] && exists m :: Store(k, c.stored.value.token, m) in acts[..n]
  {
    CallsFollowTheSource(states, acts, n, k);
    StepsAreActions(acts, n, k);
    var c, t := states[n].calls[k], Steps(acts[..n], k);
    TrueScript(k, c, t, c.pc.to);
    assert t[0] in t && t[1] in t;
    assert t[1] == Store(k, c.stored.value.token, t[1].member);
  }

  ghost predicate Holds(s: State, r: ReaderId, k: CallId) {
    r in s.readers && s.readers[r].Got? && s.readers[r].from == Some(k)
  }

  /**
   A SendSolution call that returned true has handed the token it stored, as a success
   event, to exactly one reader, which had asked for the session the call is about; one that returned an error has handed a success to nobody
   and the row it stored is gone unless RemoveToken failed; and readers are told of success by such calls only.
  */
  lemma TrueMeansDelivered(states: seq<State>, acts: seq<Action>, n: nat, k: CallId)
    requires IsRun(states, acts) && n <= |acts| && k in states[n].calls
    ensures var s, c := states[n], states[n].calls[k];
      && (c.pc.ReturnedTrue? ==>
            && c.stored.Some? && (forall r :: Holds(s, r, k) <==> r == c.pc.to)
            && Holds(s, c.pc.to, k) && s.readers[c.pc.to].evt.worked
            && s.readers[c.pc.to].evt.token == c.stored.value.token
            && AskedAndGot(acts, n, c.pc.to, k, c.sc)
            && Begin(k, c.sc) in acts[..n] && exists m :: Store(k, c.stored.value.token, m) in acts[..n])
      && (c.pc.ReturnedError? ==>
            && (forall r :: Holds(s, r, k) ==> !s.readers[r].evt.worked)
            && (c.stored.Some? ==> HasRow(s.db, c.stored.value) ==> c.pc.leaks))
      && (forall r :: r in s.readers && s.readers[r].Got? && s.readers[r].evt.worked ==>
            exists j :: Holds(s, r, j) && j in s.calls && s.calls[j].stored.Some? && s.calls[j].pc.Reached(r) &&
                        AskedAndGot(acts, n, r, j, s.calls[j].sc))
  {
    RunKeeps(states, acts, n);
    forall r, j | Holds(states[n], r, j) ensures j in states[n].calls && AskedAndGot(acts, n, r, j, states[n].calls[j].sc) {
      HolderAsked(states, acts, n, r, j);
    }
    if states[n].calls[k].pc.ReturnedTrue? {
      TrueStored(states, acts, n, k);
    }
  }

  /**
   A token survives exactly when a reader got it. The row of a call that has returned
   is there if and only if the call returned true, or its RemoveToken failed, and
   nobody else has removed that very row; and it returned true if and only if some
   reader holds its success event.
  */
  lemma TokenSurvivesIffDelivered(states: seq<State>, acts: seq<Action>, n: nat, k: CallId)
    requires IsRun(states, acts) && n <= |acts| && k in states[n].calls
    requires states[n].calls[k].stored.Some?
    requires states[n].calls[k].pc.ReturnedTrue? || states[n].calls[k].pc.ReturnedError?
    ensures var s, c := states[n], states[n].calls[k];
      && (HasRow(s.db, c.stored.value) <==>
            c.stored.value.row !in s.db.removed && (c.pc.ReturnedTrue? || c.pc.leaks))
      && (c.pc.ReturnedTrue? <==> exists r :: Holds(s, r, k))
  {
    RunKeeps(states, acts, n);
    var c := states[n].calls[k];
    if c.pc.ReturnedTrue? {
      assert Holds(states[n], c.pc.to, k);
    }
  }

  ghost predicate Reachable(s: State) {
    exists states, acts :: IsRun(states, acts) && states[|acts|] == s
  }

  lemma Extend(s: State, a: Action) returns (t: State)
    requires Reachable(s) && Enabled(s, a)
    ensures t == Next(s, a) && Reachable(t)
  {
    t := Next(s, a);
    var states, acts :| IsRun(states, acts) && states[|acts|] == s;
    assert IsRun(states + [t], acts + [a]);
  }

  /** A reader waits for the session sc, and call 0 is about to solve it. */
  function Waiting(sc: string): State {
    State(3, Bridge(map[sc := 0], [Chan(false, [])]), multiset{sc}, None, map[0 := Call(sc, ZERO_EVENT, None, Begun, 0)],
          map[0 := Listening(0, 1)], false, Table(map[], 0, {}))
  }

  /** Call 0 has stored its token and holds the mutex. */
  function Offering(sc: string, token: string, member: nat): State {
    Waiting(sc).(
      now := 5, holder := Some(0),
      calls := map[0 := Call(sc, Event(true, token, ""), Some(Stored(token, 0)), Sending(0), 4)],
      db := Table(map[token := Row(0, member)], 1, {}))
  }

  lemma WaitingReachable(sc: string)
    ensures Reachable(Waiting(sc))
  {
    assert IsRun([INIT], []);
    var s := Extend(INIT, Register(sc));
    s := Extend(s, Fetch(0, sc));
    s := Extend(s, Begin(0, sc));
    assert s == Waiting(sc);
  }

  lemma OfferingReachable(sc: string, token: string, member: nat)
    ensures Reachable(Offering(sc, token, member))
  {
    WaitingReachable(sc);
    var s := Extend(Waiting(sc), Store(0, token, member));
    s := Extend(s, Lock(0));
    assert s == Offering(sc, token, member);
  }

  /** Sign-in does succeed: a reader asks for a session, a member sends the solution, and both see it through. */
  lemma SignInSucceeds(sc: string, token: string, member: nat)
    ensures exists s :: Reachable(s) && 0 in s.calls && s.calls[0].pc == ReturnedTrue(0) && token in s.db.rows && s.db.rows[token].member == member
  {
    OfferingReachable(sc, token, member);
    var s := Extend(Offering(sc, token, member), Deliver(0, 0));
    s := Extend(s, Finish(0));
    assert s.calls[0].pc == ReturnedTrue(0) && s.db.rows[token].member == member;
  }
}
