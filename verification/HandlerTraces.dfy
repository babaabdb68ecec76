/**
 The steps of one handleConnection call (internal/network/new.go:192-256), read off the
 actions of a run alone: whatever other calls do in between, each call goes through the
 source's statements in order, and it is never stuck.
*/
module HandlerTraces {
  import opened Prelude
  import opened Connections
  import opened HandlerRuns

  /** What call h itself has done. */
  ghost function Steps(acts: seq<Action>, h: Conn): seq<Action> {
    if acts == [] then []
    else Steps(acts[..|acts|-1], h) + if acts[|acts|-1].h == h then [acts[|acts|-1]] else []
  }

  /** The ways through OnAccept that let a connection in. */
  predicate LetIn(p: Policy, h: Conn, k: Key, t: seq<Action>) {
    if p.RefuseKnown? then t == [Arrive(h, k), Accept(h)]
    else t == [Arrive(h, k), LookUp(h), Claim(h)] || t == [Arrive(h, k), LookUp(h), Wake(h), Claim(h)]
  }

  /** Let in, and then these steps. */
  predicate Then(p: Policy, h: Conn, k: Key, t: seq<Action>, body: seq<Action>) {
    |body| <= |t| && t[|t| - |body|..] == body && LetIn(p, h, k, t[..|t| - |body|])
  }

  /** The body of handleConnection after OnAccept, up to where the deferred OnClose runs. */
  function Body(h: Conn): seq<Action> {
    [MakeHandler(h, true), AddRemote(h), ServeEnds(h), RemoveRemote(h)]
  }

  function Made(h: Conn): seq<Action> { [MakeHandler(h, true)] }

  function Added(h: Conn): seq<Action> { [MakeHandler(h, true), AddRemote(h)] }

  function Ended(h: Conn): seq<Action> { [MakeHandler(h, true), AddRemote(h), ServeEnds(h)] }

  /** What a call that stands at pc has done so far. */
  predicate Script(p: Policy, h: Conn, k: Key, pc: Pc, t: seq<Action>) {
    match pc
    case Arrived => t == [Arrive(h, k)]
    case Waiting(_) => p.LastWins? && t == [Arrive(h, k), LookUp(h)]
    case Cleared => p.LastWins? && (t == [Arrive(h, k), LookUp(h)] || t == [Arrive(h, k), LookUp(h), Wake(h)])
    case Accepted => LetIn(p, h, k, t)
    case Ready => Then(p, h, k, t, Made(h))
    case Serving => Then(p, h, k, t, Added(h))
    case Served => Then(p, h, k, t, Ended(h))
    case Unlinked => Then(p, h, k, t, [MakeHandler(h, false)]) || Then(p, h, k, t, Body(h))
    case Closed => Then(p, h, k, t, [MakeHandler(h, false), OnClose(h)]) || Then(p, h, k, t, Body(h) + [OnClose(h)])
    case Refused =>
      if p.RefuseKnown? then t == [Arrive(h, k), Accept(h)] else t == [Arrive(h, k), LookUp(h), TimeOut(h)]
  }

  ghost predicate OnScript(p: Policy, s: State, h: Conn, t: seq<Action>) {
    if h in s.handlers then Script(p, h, s.handlers[h].key, s.handlers[h].pc, t) else t == []
  }

  lemma EnterScript(p: Policy, s: State, a: Action, t: seq<Action>)
    requires Enabled(p, s, a) && OnScript(p, s, a.h, t)
    requires a.Arrive? || a.Accept? || a.LookUp? || a.Wake? || a.TimeOut? || a.Claim?
    ensures OnScript(p, Next(p, s, a), a.h, t + [a])
  {
  }

  lemma Extended(p: Policy, h: Conn, k: Key, t: seq<Action>, body: seq<Action>, a: Action)
    requires Then(p, h, k, t, body)
    ensures Then(p, h, k, t + [a], body + [a])
  {
    var u := t + [a];
    assert u[..|u| - |body + [a]|] == t[..|t| - |body|];
    assert u[|u| - |body + [a]|..] == t[|t| - |body|..] + [a];
  }

  lemma MadeScript(p: Policy, s: State, h: Conn, ok: bool, t: seq<Action>)
    requires Enabled(p, s, MakeHandler(h, ok)) && OnScript(p, s, h, t)
    ensures OnScript(p, Next(p, s, MakeHandler(h, ok)), h, t + [MakeHandler(h, ok)])
  {
    var k := s.handlers[h].key;
    assert Then(p, h, k, t, []) by { assert t[..|t|] == t; }
    Extended(p, h, k, t, [], MakeHandler(h, ok));
    assert [] + [MakeHandler(h, ok)] == [MakeHandler(h, ok)];
  }

  lemma AddedScript(p: Policy, s: State, h: Conn, t: seq<Action>)
    requires Enabled(p, s, AddRemote(h)) && OnScript(p, s, h, t)
    ensures OnScript(p, Next(p, s, AddRemote(h)), h, t + [AddRemote(h)])
  {
    Extended(p, h, s.handlers[h].key, t, Made(h), AddRemote(h));
    assert Made(h) + [AddRemote(h)] == Added(h);
  }

  lemma EndedScript(p: Policy, s: State, h: Conn, t: seq<Action>)
    requires Enabled(p, s, ServeEnds(h)) && OnScript(p, s, h, t)
    ensures OnScript(p, Next(p, s, ServeEnds(h)), h, t + [ServeEnds(h)])
  {
    Extended(p, h, s.handlers[h].key, t, Added(h), ServeEnds(h));
    assert Added(h) + [ServeEnds(h)] == Ended(h);
  }

  lemma UnlinkScript(p: Policy, s: State, h: Conn, t: seq<Action>)
    requires Enabled(p, s, RemoveRemote(h)) && OnScript(p, s, h, t)
    ensures OnScript(p, Next(p, s, RemoveRemote(h)), h, t + [RemoveRemote(h)])
  {
    Extended(p, h, s.handlers[h].key, t, Ended(h), RemoveRemote(h));
    assert Ended(h) + [RemoveRemote(h)] == Body(h);
  }

  lemma CloseScript(p: Policy, s: State, h: Conn, t: seq<Action>)
    requires Enabled(p, s, OnClose(h)) && OnScript(p, s, h, t)
    ensures OnScript(p, Next(p, s, OnClose(h)), h, t + [OnClose(h)])
  {
    var k := s.handlers[h].key;
    if Then(p, h, k, t, Body(h)) {
      Extended(p, h, k, t, Body(h), OnClose(h));
    } else {
      Extended(p, h, k, t, [MakeHandler(h, false)], OnClose(h));
      assert [MakeHandler(h, false)] + [OnClose(h)] == [MakeHandler(h, false), OnClose(h)];
    }
  }

  lemma OthersScript(p: Policy, s: State, a: Action, h: Conn, t: seq<Action>)
    requires Enabled(p, s, a) && a.h != h && OnScript(p, s, h, t)
    ensures OnScript(p, Next(p, s, a), h, t)
  {
    var u := Next(p, s, a);
    assert h in u.handlers <==> h in s.handlers;
    assert h in s.handlers ==> u.handlers[h] == s.handlers[h];
  }

  lemma StepScript(p: Policy, s: State, a: Action, h: Conn, t: seq<Action>)
    requires Enabled(p, s, a) && OnScript(p, s, h, t)
    ensures OnScript(p, Next(p, s, a), h, t + if a.h == h then [a] else [])
  {
    if a.h != h {
      OthersScript(p, s, a, h, t);
      assert t + [] == t;
    } else {
      match a
      case MakeHandler(_, ok) => MadeScript(p, s, h, ok, t);
      case AddRemote(_) => AddedScript(p, s, h, t);
      case ServeEnds(_) => EndedScript(p, s, h, t);
      case RemoveRemote(_) => UnlinkScript(p, s, h, t);
      case OnClose(_) => CloseScript(p, s, h, t);
      case _ => EnterScript(p, s, a, t);
    }
  }

  lemma OneMore(acts: seq<Action>, n: nat, h: Conn)
    requires n < |acts|
    ensures Steps(acts[..n+1], h) == Steps(acts[..n], h) + if acts[n].h == h then [acts[n]] else []
  {
    assert acts[..n+1][..n] == acts[..n];
  }

  /** Whatever the others do, a call's own steps are those of handleConnection, in order. */
  lemma {:induction false} CallsFollowTheSource(p: Policy, states: seq<State>, acts: seq<Action>, n: nat, h: Conn)
    requires IsRun(p, states, acts) && n <= |acts|
    ensures OnScript(p, states[n], h, Steps(acts[..n], h))
  {
    if n > 0 {
      CallsFollowTheSource(p, states, acts, n - 1, h);
      OneMore(acts, n - 1, h);
      StepScript(p, states[n-1], acts[n-1], h, Steps(acts[..n-1], h));
    }
  }

  // ---- What that means for the actions of a run ----

  /** An action of h is the next of its steps, and its steps so far stay a prefix. */
  lemma {:induction false} StepsAt(acts: seq<Action>, h: Conn, i: nat, n: nat)
    requires i <= n <= |acts|
    ensures Steps(acts[..i], h) <= Steps(acts[..n], h)
    ensures i < n && acts[i].h == h ==>
              |Steps(acts[..i], h)| < |Steps(acts[..n], h)| && Steps(acts[..n], h)[|Steps(acts[..i], h)|] == acts[i]
    decreases n
  {
    if i < n {
      OneMore(acts, n - 1, h);
      StepsAt(acts, h, i, n - 1);
    }
  }

  /** Each of h's steps is an action of the run, and they are in order. */
  lemma {:induction false} StepPosition(acts: seq<Action>, h: Conn, n: nat, q: nat) returns (i: nat)
    requires n <= |acts| && q < |Steps(acts[..n], h)|
    ensures i < n && acts[i] == Steps(acts[..n], h)[q] && acts[i].h == h && |Steps(acts[..i], h)| == q
  {
    if n == 0 {
      assert false;
    }
    OneMore(acts, n - 1, h);
    if q < |Steps(acts[..n-1], h)| {
      i := StepPosition(acts, h, n - 1, q);
    } else {
      i := n - 1;
    }
  }

  /** A call adds its endpoint only once its handler has been made. */
  lemma LinkedAfterHandlerMade(p: Policy, states: seq<State>, acts: seq<Action>, j: nat, h: Conn) returns (i: nat)
    requires IsRun(p, states, acts) && j < |acts| && acts[j] == AddRemote(h)
    ensures i < j && acts[i] == MakeHandler(h, true)
  {
    CallsFollowTheSource(p, states, acts, j, h);
    var t := Steps(acts[..j], h);
    assert t[|t| - 1..][0] == MakeHandler(h, true);
    i := StepPosition(acts, h, j, |t| - 1);
  }

  /** After a step that leaves MakeHandler's error, and until OnClose, the call stands at Unlinked. */
  lemma {:induction false} StaysUnlinked(p: Policy, states: seq<State>, acts: seq<Action>, i: nat, j: nat, h: Conn)
    requires IsRun(p, states, acts) && i < j <= |acts| && acts[i] == MakeHandler(h, false)
    ensures h in states[j].handlers && (states[j].handlers[h].pc.Unlinked? || states[j].handlers[h].pc.Closed?)
    decreases j
  {
    if i + 1 < j {
      StaysUnlinked(p, states, acts, i, j - 1, h);
    }
  }

  /** A call whose handler cannot be made never adds an endpoint; it goes straight to OnClose. */
  lemma FailedHandlerIsNotLinked(p: Policy, states: seq<State>, acts: seq<Action>, i: nat, j: nat, h: Conn)
    requires IsRun(p, states, acts) && i < j < |acts| && acts[i] == MakeHandler(h, false) && acts[j].h == h
    ensures acts[j] == OnClose(h)
  {
    StaysUnlinked(p, states, acts, i, j, h);
  }

  /** Of two steps of h, the one with fewer steps before it comes first. */
  lemma InOrder(acts: seq<Action>, h: Conn, i: nat, j: nat)
    requires i <= |acts| && j <= |acts| && |Steps(acts[..i], h)| < |Steps(acts[..j], h)|
    ensures i < j
  {
    if j <= i {
      StepsAt(acts, h, j, i);
    }
  }

  /** A call whose handler was made is linked, served and unlinked, in this order, before its OnClose. */
  lemma ServedBetween(p: Policy, states: seq<State>, acts: seq<Action>, i: nat, j: nat, h: Conn)
      returns (a: nat, b: nat, c: nat)
    requires IsRun(p, states, acts) && i < |acts| && j < |acts|
    requires acts[i] == MakeHandler(h, true) && acts[j] == OnClose(h)
    ensures i < a < b < c < j
    ensures acts[a] == AddRemote(h) && acts[b] == ServeEnds(h) && acts[c] == RemoveRemote(h)
  {
    CallsFollowTheSource(p, states, acts, j, h);
    var t := Steps(acts[..j], h);
    HandlerWasMade(p, states, acts, i, j, h);
    var q := |t| - 4;
    assert t[q..] == Body(h);
    a := StepPosition(acts, h, j, q + 1);
    b := StepPosition(acts, h, j, q + 2);
    c := StepPosition(acts, h, j, q + 3);
    InOrder(acts, h, i, a);
    InOrder(acts, h, a, b);
    InOrder(acts, h, b, c);
  }

  /** OnClose of such a call comes after all of the body, whose first step was MakeHandler. */
  lemma HandlerWasMade(p: Policy, states: seq<State>, acts: seq<Action>, i: nat, j: nat, h: Conn)
    requires IsRun(p, states, acts) && i < |acts| && j < |acts|
    requires acts[i] == MakeHandler(h, true) && acts[j] == OnClose(h)
    ensures |Steps(acts[..j], h)| >= 4
    ensures Steps(acts[..j], h)[|Steps(acts[..j], h)| - 4..] == Body(h)
    ensures |Steps(acts[..i], h)| == |Steps(acts[..j], h)| - 4
  {
    CallsFollowTheSource(p, states, acts, i, h);
    CallsFollowTheSource(p, states, acts, j, h);
    var t := Steps(acts[..j], h);
    if j < i {
      StaysClosed(p, states, acts, j, i, h);
      assert false;
    }
    StepsAt(acts, h, i, j);
    var q := |Steps(acts[..i], h)|;
    assert t[q] == MakeHandler(h, true);
    var k := states[j].handlers[h].key;
    if Then(p, h, k, t, [MakeHandler(h, false)]) {
      NotMade(p, h, k, t, q);
      assert false;
    }
    MadeAt(p, h, k, t, q);
  }

  lemma MadeAt(p: Policy, h: Conn, k: Key, t: seq<Action>, q: nat)
    requires Then(p, h, k, t, Body(h)) && q < |t| && t[q] == MakeHandler(h, true)
    ensures q == |t| - 4
  {
    var body, head := t[|t|-4..], t[..|t|-4];
    assert forall i :: 0 <= i < |head| ==> t[i] == head[i];
    assert forall i :: 0 <= i < 4 ==> t[|t| - 4 + i] == body[i];
  }

  lemma NotMade(p: Policy, h: Conn, k: Key, t: seq<Action>, q: nat)
    requires Then(p, h, k, t, [MakeHandler(h, false)]) && q < |t|
    ensures t[q] != MakeHandler(h, true)
  {
    var head := t[..|t|-1];
    assert forall i :: 0 <= i < |head| ==> t[i] == head[i];
    assert t[|t|-1..][0] == t[|t|-1];
  }

  lemma {:induction false} StaysClosed(p: Policy, states: seq<State>, acts: seq<Action>, j: nat, i: nat, h: Conn)
    requires IsRun(p, states, acts) && j < i <= |acts| && acts[j] == OnClose(h)
    ensures h in states[i].handlers && states[i].handlers[h].pc.Closed?
    decreases i
  {
    if j + 1 < i {
      StaysClosed(p, states, acts, j, i - 1, h);
    }
  }

  // ---- Calls are never stuck, and lookups find the calls being served ----

  /** What call h did last before position n. */
  ghost predicate LastIs(acts: seq<Action>, n: nat, a: Action)
    requires n <= |acts|
  {
    var t := Steps(acts[..n], a.h);
    t != [] && t[|t|-1] == a
  }

  /** After each of these steps the next statement of the source can be taken at once. */
  lemma NextStatementIsEnabled(p: Policy, states: seq<State>, acts: seq<Action>, n: nat, h: Conn)
    requires IsRun(p, states, acts) && n <= |acts|
    ensures forall k :: LastIs(acts, n, Arrive(h, k)) ==> Enabled(p, states[n], if p.RefuseKnown? then Accept(h) else LookUp(h))
    ensures LastIs(acts, n, LookUp(h)) ==> Enabled(p, states[n], TimeOut(h)) || Enabled(p, states[n], Claim(h))
    ensures LastIs(acts, n, Wake(h)) ==> Enabled(p, states[n], Claim(h))
    ensures LastIs(acts, n, Claim(h)) ==> forall ok :: Enabled(p, states[n], MakeHandler(h, ok))
    ensures LastIs(acts, n, MakeHandler(h, true)) ==> Enabled(p, states[n], AddRemote(h))
    ensures LastIs(acts, n, MakeHandler(h, false)) ==> Enabled(p, states[n], OnClose(h))
    ensures LastIs(acts, n, AddRemote(h)) ==> Enabled(p, states[n], ServeEnds(h))
    ensures LastIs(acts, n, ServeEnds(h)) ==> Enabled(p, states[n], RemoveRemote(h))
    ensures LastIs(acts, n, RemoveRemote(h)) ==> Enabled(p, states[n], OnClose(h))
  {
    CallsFollowTheSource(p, states, acts, n, h);
    if Steps(acts[..n], h) != [] {
      EnabledAfter(p, states[n], h, Steps(acts[..n], h));
    }
  }

  lemma EnabledAfter(p: Policy, s: State, h: Conn, t: seq<Action>)
    requires OnScript(p, s, h, t) && t != []
    ensures match t[|t|-1]
      case Arrive(_, _) => Enabled(p, s, if p.RefuseKnown? then Accept(h) else LookUp(h))
      case LookUp(_) => Enabled(p, s, TimeOut(h)) || Enabled(p, s, Claim(h))
      case Wake(_) => Enabled(p, s, Claim(h))
      case Claim(_) => forall ok :: Enabled(p, s, MakeHandler(h, ok))
      case MakeHandler(_, ok) => Enabled(p, s, if ok then AddRemote(h) else OnClose(h))
      case AddRemote(_) => Enabled(p, s, ServeEnds(h))
      case ServeEnds(_) => Enabled(p, s, RemoveRemote(h))
      case RemoveRemote(_) => Enabled(p, s, OnClose(h))
      case _ => true
  {
    LastOfScript(p, h, s.handlers[h].key, s.handlers[h].pc, t);
  }

  lemma LastOfScript(p: Policy, h: Conn, k: Key, pc: Pc, t: seq<Action>)
    requires Script(p, h, k, pc, t)
    ensures t != []
    ensures match t[|t|-1]
      case Arrive(_, _) => pc.Arrived?
      case Accept(_) => pc.Accepted? || pc.Refused?
      case LookUp(_) => pc.Waiting? || pc.Cleared?
      case Wake(_) => pc.Cleared?
      case TimeOut(_) => pc.Refused?
      case Claim(_) => pc.Accepted?
      case MakeHandler(_, ok) => if ok then pc.Ready? else pc.Unlinked?
      case AddRemote(_) => pc.Serving?
      case ServeEnds(_) => pc.Served?
      case RemoveRemote(_) => pc.Unlinked?
      case OnClose(_) => pc.Closed?
  {
    match pc
    case Ready => ThenLast(p, h, k, t, Made(h));
    case Serving => ThenLast(p, h, k, t, Added(h));
    case Served => ThenLast(p, h, k, t, Ended(h));
    case Unlinked =>
      if Then(p, h, k, t, Body(h)) { ThenLast(p, h, k, t, Body(h)); } else { ThenLast(p, h, k, t, [MakeHandler(h, false)]); }
    case Closed =>
      if Then(p, h, k, t, Body(h) + [OnClose(h)]) {
        ThenLast(p, h, k, t, Body(h) + [OnClose(h)]);
      } else {
        ThenLast(p, h, k, t, [MakeHandler(h, false), OnClose(h)]);
      }
    case _ =>
  }

  lemma ThenLast(p: Policy, h: Conn, k: Key, t: seq<Action>, body: seq<Action>)
    requires Then(p, h, k, t, body) && body != []
    ensures t != [] && t[|t|-1] == body[|body|-1]
  {
    var tail := t[|t| - |body|..];
    assert tail[|body|-1] == t[|t|-1];
  }

  /** h has added its endpoint before position n and not removed it. */
  predicate IsServing(acts: seq<Action>, n: nat, h: Conn)
    requires n <= |acts|
  {
    AddRemote(h) in acts[..n] && RemoveRemote(h) !in acts[..n]
  }

  lemma {:induction false} InSteps(acts: seq<Action>, n: nat, h: Conn, a: Action)
    requires n <= |acts| && a.h == h
    ensures a in acts[..n] <==> a in Steps(acts[..n], h)
  {
    if n > 0 {
      OneMore(acts, n - 1, h);
      InSteps(acts, n - 1, h, a);
      assert acts[..n] == acts[..n-1] + [acts[n-1]];
    }
  }

  lemma ThenHas(p: Policy, h: Conn, k: Key, t: seq<Action>, body: seq<Action>, a: Action)
    requires Then(p, h, k, t, body) && (a.AddRemote? || a.RemoveRemote?)
    ensures a in t <==> a in body
  {
    var head, tail := t[..|t| - |body|], t[|t| - |body|..];
    assert t == head + tail;
  }

  lemma LinkedScript(p: Policy, h: Conn, k: Key, pc: Pc, t: seq<Action>)
    requires Script(p, h, k, pc, t)
    ensures pc.Linked() <==> AddRemote(h) in t && RemoveRemote(h) !in t
    ensures Arrive(h, k) in t && forall j :: Arrive(h, j) in t ==> j == k
  {
    match pc
    case Ready => HasArrived(p, h, k, t, Made(h));
    case Serving =>
      assert Added(h)[1] == AddRemote(h);
      HasArrived(p, h, k, t, Added(h));
    case Served =>
      assert Ended(h)[1] == AddRemote(h);
      HasArrived(p, h, k, t, Ended(h));
    case Unlinked =>
      assert [MakeHandler(h, false)] + [] == [MakeHandler(h, false)] && Body(h) + [] == Body(h);
      UnlinkedScript(p, h, k, t, []);
    case Closed =>
      assert [MakeHandler(h, false)] + [OnClose(h)] == [MakeHandler(h, false), OnClose(h)];
      UnlinkedScript(p, h, k, t, [OnClose(h)]);
    case _ => EarlyScript(p, h, k, pc, t);
  }

  lemma EarlyScript(p: Policy, h: Conn, k: Key, pc: Pc, t: seq<Action>)
    requires Script(p, h, k, pc, t) && (pc.Arrived? || pc.Waiting? || pc.Cleared? || pc.Accepted? || pc.Refused?)
    ensures AddRemote(h) !in t
    ensures Arrive(h, k) in t && forall j :: Arrive(h, j) in t ==> j == k
  {
    assert t[0] == Arrive(h, k);
  }

  lemma UnlinkedScript(p: Policy, h: Conn, k: Key, t: seq<Action>, end: seq<Action>)
    requires end == [] || end == [OnClose(h)]
    requires Then(p, h, k, t, [MakeHandler(h, false)] + end) || Then(p, h, k, t, Body(h) + end)
    ensures !(AddRemote(h) in t && RemoveRemote(h) !in t)
    ensures Arrive(h, k) in t && forall j :: Arrive(h, j) in t ==> j == k
  {
    if Then(p, h, k, t, Body(h) + end) {
      assert (Body(h) + end)[3] == RemoveRemote(h);
      HasArrived(p, h, k, t, Body(h) + end);
    } else {
      HasArrived(p, h, k, t, [MakeHandler(h, false)] + end);
    }
  }

  lemma HasArrived(p: Policy, h: Conn, k: Key, t: seq<Action>, body: seq<Action>)
    requires Then(p, h, k, t, body) && forall i :: 0 <= i < |body| ==> !body[i].Arrive?
    ensures Arrive(h, k) in t && forall j :: Arrive(h, j) in t ==> j == k
    ensures AddRemote(h) in t <==> AddRemote(h) in body
    ensures RemoveRemote(h) in t <==> RemoveRemote(h) in body
  {
    ThenHas(p, h, k, t, body, AddRemote(h));
    ThenHas(p, h, k, t, body, RemoveRemote(h));
    var head := t[..|t| - |body|];
    assert head[0] == t[0] == Arrive(h, k);
    forall j | Arrive(h, j) in t ensures j == k {
      assert t == head + body;
    }
  }

  lemma CallOnTrace(p: Policy, states: seq<State>, acts: seq<Action>, n: nat, h: Conn)
    requires IsRun(p, states, acts) && n <= |acts|
    ensures h in states[n].handlers && states[n].handlers[h].pc.Linked() <==> IsServing(acts, n, h)
    ensures forall k :: Arrive(h, k) in acts[..n] <==> h in states[n].handlers && states[n].handlers[h].key == k
  {
    CallsFollowTheSource(p, states, acts, n, h);
    var t := Steps(acts[..n], h);
    InSteps(acts, n, h, AddRemote(h));
    InSteps(acts, n, h, RemoveRemote(h));
    forall k ensures Arrive(h, k) in acts[..n] <==> Arrive(h, k) in t {
      InSteps(acts, n, h, Arrive(h, k));
    }
    if h in states[n].handlers {
      LinkedScript(p, h, states[n].handlers[h].key, states[n].handlers[h].pc, t);
    }
  }

  /**
   GetEndpointFor in terms of what happened: it answers k only with a call that arrived
   with that key, has added its endpoint and not removed it; and it does answer with each
   such call, under the refusing tracker always, else if every claim found its slot free.
  */
  lemma LookupFindsServing(p: Policy, states: seq<State>, acts: seq<Action>, n: nat, h: Conn, k: Key)
    requires IsRun(p, states, acts) && n <= |acts|
    ensures k in states[n].remotes && states[n].remotes[k] == h ==> Arrive(h, k) in acts[..n] && IsServing(acts, n, h)
    ensures p.RefuseKnown? || ClaimsAreFree(states, acts, n) ==>
              (k in states[n].remotes && states[n].remotes[k] == h <==> Arrive(h, k) in acts[..n] && IsServing(acts, n, h))
  {
    CallOnTrace(p, states, acts, n, h);
    RunGrounded(p, states, acts, n);
    if p.RefuseKnown? {
      RefusingNeverClaims(states, acts, n);
    }
    if ClaimsAreFree(states, acts, n) {
      RunExact(p, states, acts, n);
    }
  }
}
