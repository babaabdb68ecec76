/**
 Any number of handleConnection calls (internal/network/new.go:192-256) running
 at once. Each action is one critical section or one unlocked step of one call;
 a run is any interleaving of them. The listener and the peers choose when a
 connection arrives and when serving ends, the 10 s timer when a wait times out.
*/
module HandlerRuns {
  import opened Prelude
  import opened Connections

  datatype Policy = RefuseKnown | LastWins

  /** Where a call of handleConnection stands. */
  datatype Pc =
    | Arrived               // before OnAccept
    | Waiting(done: nat)    // last-wins OnAccept, waiting for the previous entry's done
    | Cleared               // last-wins OnAccept, about to insert
    | Accepted              // OnAccept returned true
    | Ready                 // MakeHandler succeeded
    | Serving               // addRemote done
    | Served                // Serve returned
    | Unlinked              // removeRemote done, or MakeHandler failed
    | Closed                // OnClose done
    | Refused               // OnAccept returned false
  {
    predicate Live() { Accepted? || Ready? || Serving? || Served? || Unlinked? }
    predicate Linked() { Serving? || Served? }
    predicate InAccept() { Waiting? || Cleared? }
    predicate Over() { Closed? || Refused? }
  }

  /** `prev` is the connection a last-wins OnAccept found and shut down. */
  datatype Handler = Handler(key: Key, pc: Pc, prev: Option<Conn>)

  datatype State = State(tracker: Tracker, remotes: map<Key, Conn>, handlers: map<Conn, Handler>)

  datatype Action =
    | Arrive(h: Conn, key: Key)
    | Accept(h: Conn)
    | LookUp(h: Conn)
    | Wake(h: Conn)
    | TimeOut(h: Conn)
    | Claim(h: Conn)
    | MakeHandler(h: Conn, ok: bool)
    | AddRemote(h: Conn)
    | ServeEnds(h: Conn)
    | RemoveRemote(h: Conn)
    | OnClose(h: Conn)

  const INIT := State(NEW_TRACKER, map[], map[])

  predicate Enabled(p: Policy, s: State, a: Action) {
    if a.Arrive? then a.h !in s.handlers
    else
      a.h in s.handlers &&
      var pc := s.handlers[a.h].pc;
      match a
      case Arrive(_, _) => false
      case Accept(_) => p.RefuseKnown? && pc.Arrived?
      case LookUp(_) => p.LastWins? && pc.Arrived?
      case Wake(_) => pc.Waiting? && pc.done in s.tracker.closed
      case TimeOut(_) => pc.Waiting?
      case Claim(_) => pc.Cleared?
      case MakeHandler(_, _) => pc.Accepted?
      case AddRemote(_) => pc.Ready?
      case ServeEnds(_) => pc.Serving?
      case RemoveRemote(_) => pc.Served?
      case OnClose(_) => pc.Unlinked?
  }

  function Move(s: State, h: Conn, pc: Pc): State
    requires h in s.handlers
  {
    s.(handlers := s.handlers[h := s.handlers[h].(pc := pc)])
  }

  function Next(p: Policy, s: State, a: Action): State
    requires Enabled(p, s, a)
  {
    if a.Arrive? then s.(handlers := s.handlers[a.h := Handler(a.key, Arrived, None)])
    else
      var h := a.h;
      var k := s.handlers[h].key;
      match a
      case Accept(_) =>
        if k in s.tracker.active then Move(s, h, Refused)
        else Move(s, h, Accepted).(tracker := Insert(s.tracker, k, h))
      case LookUp(_) =>
        if k in s.tracker.active then
          var e := s.tracker.active[k];
          s.(handlers := s.handlers[h := Handler(k, Waiting(e.done), Some(e.conn))])
        else Move(s, h, Cleared)
      case Wake(_) => Move(s, h, Cleared)
      case TimeOut(_) => Move(s, h, Refused)
      case Claim(_) => Move(s, h, Accepted).(tracker := Insert(s.tracker, k, h))
      case MakeHandler(_, ok) => Move(s, h, if ok then Ready else Unlinked)
      case AddRemote(_) => Move(s, h, Serving).(remotes := s.remotes[k := h])
      case ServeEnds(_) => Move(s, h, Served)
      case RemoveRemote(_) => Move(s, h, Unlinked).(remotes := s.remotes - {k})
      case OnClose(_) => Move(s, h, Closed).(tracker := Drop(s.tracker, k))
  }

  /** A run: its states, and the action between each two of them. */
  ghost predicate IsRun(p: Policy, states: seq<State>, acts: seq<Action>) {
    && |states| == |acts| + 1
    && states[0] == INIT
    && forall i :: 0 <= i < |acts| ==> Enabled(p, states[i], acts[i]) && states[i+1] == Next(p, states[i], acts[i])
  }

  // ---- What every interleaving of either tracker keeps ----

  ghost predicate Grounded(s: State) {
    && Sound(s.tracker)
    && (forall k :: k in s.tracker.active ==>
          var c := s.tracker.active[k].conn;
          c in s.handlers && s.handlers[c].key == k && s.handlers[c].pc.Live())
    && (forall k :: k in s.remotes ==>
          s.remotes[k] in s.handlers && s.handlers[s.remotes[k]].key == k && s.handlers[s.remotes[k]].pc.Linked())
  }

  predicate Inserts(s: State, a: Action) {
    a.Claim? || (a.Accept? && a.h in s.handlers && s.handlers[a.h].key !in s.tracker.active)
  }

  lemma InsertGrounded(p: Policy, s: State, a: Action)
    requires Grounded(s) && Enabled(p, s, a) && Inserts(s, a)
    ensures Grounded(Next(p, s, a))
  {
    InsertSound(s.tracker, s.handlers[a.h].key, a.h);
  }

  lemma CloseGrounded(p: Policy, s: State, a: Action)
    requires Grounded(s) && Enabled(p, s, a) && a.OnClose?
    ensures Grounded(Next(p, s, a))
  {
    DropSound(s.tracker, s.handlers[a.h].key);
  }

  lemma LinkGrounded(p: Policy, s: State, a: Action)
    requires Grounded(s) && Enabled(p, s, a) && (a.AddRemote? || a.RemoveRemote?)
    ensures Grounded(Next(p, s, a))
  {
  }

  lemma MoveGrounded(p: Policy, s: State, a: Action)
    requires Grounded(s) && Enabled(p, s, a)
    requires !Inserts(s, a) && !a.OnClose? && !a.AddRemote? && !a.RemoveRemote?
    ensures Grounded(Next(p, s, a))
  {
    var t := Next(p, s, a);
    assert t.tracker == s.tracker && t.remotes == s.remotes;
    assert forall h :: h in s.handlers && s.handlers[h].pc.Live() ==> t.handlers[h].pc.Live() && t.handlers[h].key == s.handlers[h].key;
  }

  lemma StepGrounded(p: Policy, s: State, a: Action)
    requires Grounded(s) && Enabled(p, s, a)
    ensures Grounded(Next(p, s, a))
  {
    if Inserts(s, a) {
      InsertGrounded(p, s, a);
    } else if a.OnClose? {
      CloseGrounded(p, s, a);
    } else if a.AddRemote? || a.RemoveRemote? {
      LinkGrounded(p, s, a);
    } else {
      MoveGrounded(p, s, a);
    }
  }

  // ---- What runs keep in which only free slots are claimed ----

  ghost predicate LiveIsActive(s: State) {
    forall h :: h in s.handlers && s.handlers[h].pc.Live() ==>
                  s.handlers[h].key in s.tracker.active && s.tracker.active[s.handlers[h].key].conn == h
  }

  ghost predicate LinkedIsRemote(s: State) {
    forall h :: h in s.handlers && s.handlers[h].pc.Linked() ==>
                  s.handlers[h].key in s.remotes && s.remotes[s.handlers[h].key] == h
  }

  /**
   A call waits for the done channel of the call it replaces: as long as that is open the
   replaced call still has the entry, and once it is closed the replaced call is over.
  */
  ghost predicate WaitsForReplaced(s: State) {
    forall h :: h in s.handlers ==> Waits(s, h)
  }

  ghost predicate Waits(s: State, h: Conn)
    requires h in s.handlers
  {
    var c := s.handlers[h];
    && (c.pc.Arrived? ==> c.prev.None?)
    && (c.pc.Waiting? ==> c.prev.Some?)
    && (c.prev.Some? ==>
          var o := c.prev.value;
          && o in s.handlers && o != h && s.handlers[o].key == c.key
          && (c.pc.Waiting? && c.pc.done !in s.tracker.closed ==>
                c.key in s.tracker.active && s.tracker.active[c.key] == Entry(o, c.pc.done))
          && ((c.pc.Waiting? && c.pc.done in s.tracker.closed) || c.pc.Cleared? || c.pc.Live() || c.pc.Closed? ==>
                s.handlers[o].pc.Closed?))
  }

  ghost predicate Kept(s: State) {
    LiveIsActive(s) && LinkedIsRemote(s) && WaitsForReplaced(s)
  }

  ghost predicate Exact(s: State) {
    Grounded(s) && Kept(s)
  }

  /** The slot a call claims is free. The refusing tracker sees to it, the last-wins tracker does not look. */
  predicate ClaimIsFree(s: State, a: Action) {
    a.Claim? && a.h in s.handlers ==> s.handlers[a.h].key !in s.tracker.active
  }

  lemma InsertKept(s: State, h: Conn)
    requires Exact(s) && h in s.handlers && s.handlers[h].key !in s.tracker.active
    requires s.handlers[h].pc.Cleared? || s.handlers[h].pc.Arrived?
    ensures Kept(Move(s, h, Accepted).(tracker := Insert(s.tracker, s.handlers[h].key, h)))
  {
  }

  lemma CloseKept(s: State, h: Conn)
    requires Exact(s) && h in s.handlers && s.handlers[h].pc.Unlinked?
    ensures Kept(Move(s, h, Closed).(tracker := Drop(s.tracker, s.handlers[h].key)))
  {
    var t := Move(s, h, Closed).(tracker := Drop(s.tracker, s.handlers[h].key));
    assert LiveIsActive(t) && LinkedIsRemote(t);
    forall g | g in t.handlers ensures Waits(t, g) {
      assert g != h ==> t.handlers[g] == s.handlers[g];
      assert Waits(s, g);
    }
  }

  lemma LookUpKept(s: State, h: Conn)
    requires Exact(s) && h in s.handlers && s.handlers[h].pc.Arrived? && s.handlers[h].key in s.tracker.active
    ensures var e := s.tracker.active[s.handlers[h].key];
            Kept(s.(handlers := s.handlers[h := Handler(s.handlers[h].key, Waiting(e.done), Some(e.conn))]))
  {
  }

  lemma AddRemoteKept(s: State, h: Conn)
    requires Exact(s) && h in s.handlers && s.handlers[h].pc.Ready?
    ensures Kept(Move(s, h, Serving).(remotes := s.remotes[s.handlers[h].key := h]))
  {
  }

  lemma RemoveRemoteKept(s: State, h: Conn)
    requires Exact(s) && h in s.handlers && s.handlers[h].pc.Served?
    ensures Kept(Move(s, h, Unlinked).(remotes := s.remotes - {s.handlers[h].key}))
  {
  }

  /** A step that changes nothing but the place of one call, neither into nor out of the live part. */
  lemma MoveKept(s: State, h: Conn, pc: Pc)
    requires Kept(s) && h in s.handlers && !s.handlers[h].pc.Over()
    requires pc.Live() == s.handlers[h].pc.Live() && pc.Linked() == s.handlers[h].pc.Linked()
    requires !pc.Waiting? && !pc.Arrived? && !pc.Closed?
    requires s.handlers[h].pc.Waiting? && !pc.Refused? ==> s.handlers[h].pc.done in s.tracker.closed
    ensures Kept(Move(s, h, pc))
  {
  }

  lemma ArriveKept(s: State, h: Conn, k: Key)
    requires Exact(s) && h !in s.handlers
    ensures Kept(s.(handlers := s.handlers[h := Handler(k, Arrived, None)]))
  {
  }

  lemma AcceptExact(p: Policy, s: State, h: Conn)
    requires Exact(s) && Enabled(p, s, Accept(h))
    ensures Kept(Next(p, s, Accept(h)))
  {
    if s.handlers[h].key in s.tracker.active { MoveKept(s, h, Refused); } else { InsertKept(s, h); }
  }

  lemma LookUpExact(p: Policy, s: State, h: Conn)
    requires Exact(s) && Enabled(p, s, LookUp(h))
    ensures Kept(Next(p, s, LookUp(h)))
  {
    if s.handlers[h].key in s.tracker.active { LookUpKept(s, h); } else { MoveKept(s, h, Cleared); }
  }

  lemma MoveExact(p: Policy, s: State, a: Action)
    requires Exact(s) && Enabled(p, s, a) && (a.Wake? || a.TimeOut? || a.MakeHandler? || a.ServeEnds?)
    ensures Kept(Next(p, s, a))
  {
    match a
    case Wake(h) => MoveKept(s, h, Cleared);
    case TimeOut(h) => MoveKept(s, h, Refused);
    case MakeHandler(h, ok) => MoveKept(s, h, if ok then Ready else Unlinked);
    case ServeEnds(h) => MoveKept(s, h, Served);
  }

  lemma StepExact(p: Policy, s: State, a: Action)
    requires Exact(s) && Enabled(p, s, a) && ClaimIsFree(s, a)
    ensures Exact(Next(p, s, a))
  {
    StepGrounded(p, s, a);
    match a
    case Arrive(h, k) => ArriveKept(s, h, k);
    case Accept(h) => AcceptExact(p, s, h);
    case LookUp(h) => LookUpExact(p, s, h);
    case Claim(h) => InsertKept(s, h);
    case AddRemote(h) => AddRemoteKept(s, h);
    case RemoveRemote(h) => RemoveRemoteKept(s, h);
    case OnClose(h) => CloseKept(s, h);
    case _ => MoveExact(p, s, a);
  }

  // ---- Results for every interleaving ----

  ghost function LiveCalls(s: State): set<Conn> {
    set h | h in s.handlers && s.handlers[h].pc.Live()
  }

  /** Number of accepted connections before position n of a run. */
  ghost function AcceptedBefore(states: seq<State>, acts: seq<Action>, n: nat): nat
    requires n <= |acts| < |states|
  {
    if n == 0 then 0
    else AcceptedBefore(states, acts, n - 1) + if Inserts(states[n-1], acts[n-1]) then 1 else 0
  }

  ghost function ClosedBefore(acts: seq<Action>, n: nat): nat
    requires n <= |acts|
  {
    if n == 0 then 0 else ClosedBefore(acts, n - 1) + if acts[n-1].OnClose? then 1 else 0
  }

  lemma {:induction false} RunGrounded(p: Policy, states: seq<State>, acts: seq<Action>, n: nat)
    requires IsRun(p, states, acts) && n <= |acts|
    ensures Grounded(states[n])
  {
    if n > 0 {
      RunGrounded(p, states, acts, n - 1);
      StepGrounded(p, states[n-1], acts[n-1]);
    }
  }

  lemma StepLiveCalls(p: Policy, s: State, a: Action)
    requires Enabled(p, s, a)
    ensures LiveCalls(Next(p, s, a)) ==
            if Inserts(s, a) then LiveCalls(s) + {a.h} else if a.OnClose? then LiveCalls(s) - {a.h} else LiveCalls(s)
    ensures Inserts(s, a) ==> a.h !in LiveCalls(s)
    ensures a.OnClose? ==> a.h in LiveCalls(s)
  {
  }

  lemma {:induction false} LiveIsAcceptedMinusClosed(p: Policy, states: seq<State>, acts: seq<Action>, n: nat)
    requires IsRun(p, states, acts) && n <= |acts|
    ensures |LiveCalls(states[n])| == AcceptedBefore(states, acts, n) - ClosedBefore(acts, n)
  {
    if n == 0 {
      assert LiveCalls(states[0]) == {};
    } else {
      LiveIsAcceptedMinusClosed(p, states, acts, n - 1);
      StepLiveCalls(p, states[n-1], acts[n-1]);
    }
  }

  lemma ActiveAtMostLive(s: State)
    requires Grounded(s)
    ensures |s.tracker.active| <= |LiveCalls(s)|
  {
    var f := map k | k in s.tracker.active :: s.tracker.active[k].conn;
    InjectionBounds(s.tracker.active.Keys, LiveCalls(s), f);
  }

  /**
   Both trackers, accepts of one key overlapping or not: OnClose never closes a
   done channel twice, every tracked connection is one that was accepted and has
   not run OnClose, and Count is at most accepted minus closed.
  */
  lemma TrackerAccounts(p: Policy, states: seq<State>, acts: seq<Action>, n: nat)
    requires IsRun(p, states, acts) && n <= |acts|
    ensures var s := states[n];
      && (n < |acts| && acts[n].OnClose? && s.handlers[acts[n].h].key in s.tracker.active ==>
            s.tracker.active[s.handlers[acts[n].h].key].done !in s.tracker.closed)
      && (forall k :: k in s.tracker.active ==> s.tracker.active[k].conn in LiveCalls(s))
      && |s.tracker.active| <= AcceptedBefore(states, acts, n) - ClosedBefore(acts, n)
  {
    RunGrounded(p, states, acts, n);
    ActiveAtMostLive(states[n]);
    LiveIsAcceptedMinusClosed(p, states, acts, n);
  }

  /**
   GetEndpointFor only ever answers with the endpoint of a call for that very key
   that is between its addRemote and its removeRemote; and when all calls are over
   nothing is left in either map.
  */
  lemma NoStaleEndpoint(p: Policy, states: seq<State>, acts: seq<Action>, n: nat)
    requires IsRun(p, states, acts) && n <= |acts|
    ensures var s := states[n];
      && (forall k :: k in s.remotes ==>
            s.remotes[k] in s.handlers && s.handlers[s.remotes[k]].key == k && s.handlers[s.remotes[k]].pc.Linked())
      && ((forall h :: h in s.handlers ==> s.handlers[h].pc.Over() || s.handlers[h].pc.Arrived?) ==>
            s.tracker.active == map[] && s.remotes == map[])
  {
    RunGrounded(p, states, acts, n);
    var s := states[n];
    if forall h :: h in s.handlers ==> s.handlers[h].pc.Over() || s.handlers[h].pc.Arrived? {
      assert s.tracker.active.Keys == {};
      assert s.remotes.Keys == {};
    }
  }

  // ---- The exact condition for one live call per key ----

  ghost predicate OneLivePerKey(s: State) {
    forall g, h :: g in LiveCalls(s) && h in LiveCalls(s) && s.handlers[g].key == s.handlers[h].key ==> g == h
  }

  /** The two maps list exactly the live calls and the serving calls, by key. */
  ghost predicate MapsMatchCalls(s: State) {
    && OneLivePerKey(s)
    && (forall h :: h in LiveCalls(s) <==>
          h in s.handlers && s.handlers[h].key in s.tracker.active && s.tracker.active[s.handlers[h].key].conn == h)
    && (forall h :: h in s.handlers && s.handlers[h].pc.Linked() <==>
          h in s.handlers && s.handlers[h].key in s.remotes && s.remotes[s.handlers[h].key] == h)
    && (forall k :: k in s.remotes ==> k in s.tracker.active && s.tracker.active[k].conn == s.remotes[k])
    && |s.tracker.active| == |LiveCalls(s)|
  }

  lemma ExactMatches(s: State)
    requires Exact(s)
    ensures MapsMatchCalls(s)
  {
    var f := map k | k in s.tracker.active :: s.tracker.active[k].conn;
    var g := map h | h in LiveCalls(s) :: s.handlers[h].key;
    BijectionEqualSize(s.tracker.active.Keys, LiveCalls(s), f, g);
  }

  /** Every claim before position n finds its slot free. */
  predicate ClaimsAreFree(states: seq<State>, acts: seq<Action>, n: nat)
    requires n <= |acts| < |states|
  {
    forall i :: 0 <= i < n ==> ClaimIsFree(states[i], acts[i])
  }

  lemma {:induction false} RunExact(p: Policy, states: seq<State>, acts: seq<Action>, n: nat)
    requires IsRun(p, states, acts) && n <= |acts| && ClaimsAreFree(states, acts, n)
    ensures Exact(states[n])
  {
    if n > 0 {
      RunExact(p, states, acts, n - 1);
      assert ClaimIsFree(states[n-1], acts[n-1]);
      StepExact(p, states[n-1], acts[n-1]);
    }
  }

  /**
   One step: a claim makes a second live call for its key unless the slot is free, and
   only then, if the live calls have their entries. OnAccept does not look.
  */
  lemma ClaimKeepsOneLive(p: Policy, s: State, h: Conn)
    requires Grounded(s) && Enabled(p, s, Claim(h))
    ensures OneLivePerKey(Next(p, s, Claim(h))) ==> ClaimIsFree(s, Claim(h))
    ensures LiveIsActive(s) && ClaimIsFree(s, Claim(h)) ==> OneLivePerKey(Next(p, s, Claim(h)))
  {
    var t := Next(p, s, Claim(h));
    if !ClaimIsFree(s, Claim(h)) {
      var g := s.tracker.active[s.handlers[h].key].conn;
      assert g in LiveCalls(t) && h in LiveCalls(t) && g != h;
    } else if LiveIsActive(s) {
      forall x, y | x in LiveCalls(t) && y in LiveCalls(t) && t.handlers[x].key == t.handlers[y].key
        ensures x == y
      {
        assert x != h ==> x in LiveCalls(s);
        assert y != h ==> y in LiveCalls(s);
      }
    }
  }

  /**
   For every run of either tracker: at most one call per key is live all along if and
   only if every claim finds its slot free, and then the maps match the calls all along.
  */
  lemma OneLiveIffClaimsAreFree(p: Policy, states: seq<State>, acts: seq<Action>, n: nat)
    requires IsRun(p, states, acts) && n <= |acts|
    ensures (forall m :: 0 <= m <= n ==> OneLivePerKey(states[m])) <==> ClaimsAreFree(states, acts, n)
    ensures (forall m :: 0 <= m <= n ==> MapsMatchCalls(states[m])) <==> ClaimsAreFree(states, acts, n)
  {
    if ClaimsAreFree(states, acts, n) {
      forall m | 0 <= m <= n ensures MapsMatchCalls(states[m]) {
        RunExact(p, states, acts, m);
        ExactMatches(states[m]);
      }
    } else {
      var i :| 0 <= i < n && !ClaimIsFree(states[i], acts[i]);
      RunGrounded(p, states, acts, i);
      ClaimKeepsOneLive(p, states[i], acts[i].h);
      assert !OneLivePerKey(states[i+1]);
    }
  }

  ghost predicate NobodyWaits(s: State) {
    forall h :: h in s.handlers ==> !s.handlers[h].pc.InAccept()
  }

  lemma RefusingNeverWaits(s: State, a: Action)
    requires NobodyWaits(s) && Enabled(RefuseKnown, s, a)
    ensures NobodyWaits(Next(RefuseKnown, s, a)) && !a.Claim?
  {
    var t := Next(RefuseKnown, s, a);
    assert forall h :: h in t.handlers && h != a.h ==> t.handlers[h] == s.handlers[h];
    assert !t.handlers[a.h].pc.InAccept();
  }

  lemma {:induction false} RefusingNeverClaims(states: seq<State>, acts: seq<Action>, n: nat)
    requires IsRun(RefuseKnown, states, acts) && n <= |acts|
    ensures NobodyWaits(states[n]) && ClaimsAreFree(states, acts, n)
  {
    if n > 0 {
      RefusingNeverClaims(states, acts, n - 1);
      RefusingNeverWaits(states[n-1], acts[n-1]);
    }
  }

  /**
   In every interleaving under the refusing tracker at most one call per key is
   between OnAccept and OnClose, `active` and `remotes` list exactly the live and
   the serving calls (so GetAllEndpoints, which skips remotes without an active
   entry, skips none), and Count equals accepted minus closed.
  */
  lemma RefusingTrackerExact(states: seq<State>, acts: seq<Action>, n: nat)
    requires IsRun(RefuseKnown, states, acts) && n <= |acts|
    ensures MapsMatchCalls(states[n])
    ensures |states[n].tracker.active| == AcceptedBefore(states, acts, n) - ClosedBefore(acts, n)
  {
    RefusingNeverClaims(states, acts, n);
    OneLiveIffClaimsAreFree(RefuseKnown, states, acts, n);
    LiveIsAcceptedMinusClosed(RefuseKnown, states, acts, n);
  }

  /** No two calls for one key are inside OnAccept. */
  ghost predicate NoOverlap(s: State) {
    forall g, h :: g in s.handlers && h in s.handlers && g != h &&
                   s.handlers[g].pc.InAccept() && s.handlers[h].pc.InAccept() ==>
                     s.handlers[g].key != s.handlers[h].key
  }

  /** A call that has nothing more to wait for finds no entry. */
  ghost predicate ClearIsFree(s: State) {
    forall h :: h in s.handlers && Clear(s, h) ==> s.handlers[h].key !in s.tracker.active
  }

  predicate Clear(s: State, h: Conn)
    requires h in s.handlers
  {
    s.handlers[h].pc.Cleared? || (s.handlers[h].pc.Waiting? && s.handlers[h].pc.done in s.tracker.closed)
  }

  lemma StepClear(s: State, a: Action)
    requires Exact(s) && NoOverlap(s) && ClearIsFree(s) && Enabled(LastWins, s, a)
    ensures ClearIsFree(Next(LastWins, s, a))
  {
    var t := Next(LastWins, s, a);
    forall h | h in t.handlers && Clear(t, h) ensures t.handlers[h].key !in t.tracker.active {
      assert h != a.h ==> h in s.handlers && t.handlers[h] == s.handlers[h];
    }
  }

  lemma {:induction false} SerialClaimsAreFree(states: seq<State>, acts: seq<Action>, n: nat)
    requires IsRun(LastWins, states, acts) && n <= |acts|
    requires forall i :: 0 <= i < n ==> NoOverlap(states[i])
    ensures ClaimsAreFree(states, acts, n) && ClearIsFree(states[n])
  {
    if n > 0 {
      SerialClaimsAreFree(states, acts, n - 1);
      RunExact(LastWins, states, acts, n - 1);
      assert NoOverlap(states[n-1]);
      StepClear(states[n-1], acts[n-1]);
    }
  }

  /** The same for the last-wins tracker, if no two OnAccept calls for one key overlap. */
  lemma LastWinsExactIfSerial(states: seq<State>, acts: seq<Action>, n: nat)
    requires IsRun(LastWins, states, acts) && n <= |acts|
    requires forall i :: 0 <= i < n ==> NoOverlap(states[i])
    ensures MapsMatchCalls(states[n])
    ensures |states[n].tracker.active| == AcceptedBefore(states, acts, n) - ClosedBefore(acts, n)
  {
    SerialClaimsAreFree(states, acts, n);
    OneLiveIffClaimsAreFree(LastWins, states, acts, n);
    LiveIsAcceptedMinusClosed(LastWins, states, acts, n);
  }

  lemma {:induction false} ClosedForGood(p: Policy, states: seq<State>, acts: seq<Action>, o: Conn, i: nat, j: nat)
    requires IsRun(p, states, acts) && i <= j <= |acts|
    requires o in states[i].handlers && states[i].handlers[o].pc.Closed?
    ensures o in states[j].handlers && states[j].handlers[o].pc.Closed?
    decreases j
  {
    if i < j {
      ClosedForGood(p, states, acts, o, i, j - 1);
    }
  }

  /** A call that was linked at position i and no longer is at j has run removeRemote in between. */
  lemma {:induction false} UnlinksByRemoveRemote(p: Policy, states: seq<State>, acts: seq<Action>, o: Conn, i: nat, j: nat)
    requires IsRun(p, states, acts) && i <= j <= |acts|
    requires o in states[i].handlers && states[i].handlers[o].pc.Linked()
    requires o in states[j].handlers ==> !states[j].handlers[o].pc.Linked()
    ensures exists r :: i <= r < j && acts[r] == RemoveRemote(o)
    decreases j - i
  {
    if acts[i] != RemoveRemote(o) {
      UnlinksByRemoveRemote(p, states, acts, o, i + 1, j);
    }
  }

  /**
   The order that keeps a replacement reachable. When a call that replaced
   connection o adds its endpoint, o has run OnClose; any endpoint o added was
   removed by o before that, o removes nothing afterwards, and no later lookup
   finds o's endpoint.
  */
  lemma ReplacedLeavesFirst(states: seq<State>, acts: seq<Action>, i: nat, o: Conn)
    requires IsRun(LastWins, states, acts) && i < |acts| && acts[i].AddRemote?
    requires ClaimsAreFree(states, acts, i)
    requires states[i].handlers[acts[i].h].prev == Some(o)
    ensures forall q :: 0 <= q < i && acts[q] == AddRemote(o) ==>
              exists r :: q < r < i && acts[r] == RemoveRemote(o)
    ensures forall q :: i <= q < |acts| ==> acts[q] != RemoveRemote(o)
    ensures forall j, k :: i <= j < |states| && k in states[j].remotes ==> states[j].remotes[k] != o
  {
    RunExact(LastWins, states, acts, i);
    assert states[i].handlers[o].pc.Closed?;
    forall q | 0 <= q < i && acts[q] == AddRemote(o)
      ensures exists r :: q < r < i && acts[r] == RemoveRemote(o)
    {
      assert states[q+1].handlers[o].pc.Serving?;
      UnlinksByRemoveRemote(LastWins, states, acts, o, q + 1, i);
    }
    forall j | i <= j < |states|
      ensures o in states[j].handlers && states[j].handlers[o].pc.Closed?
      ensures forall k :: k in states[j].remotes ==> states[j].remotes[k] != o
    {
      ClosedForGood(LastWins, states, acts, o, i, j);
      RunGrounded(LastWins, states, acts, j);
    }
  }

  // ---- Where the last-wins tracker falls short ----

  ghost predicate Reachable(p: Policy, s: State) {
    exists states, acts :: IsRun(p, states, acts) && states[|acts|] == s
  }

  lemma Extend(p: Policy, s: State, a: Action) returns (t: State)
    requires Reachable(p, s) && Enabled(p, s, a)
    ensures t == Next(p, s, a) && Reachable(p, t)
  {
    t := Next(p, s, a);
    var states, acts :| IsRun(p, states, acts) && states[|acts|] == s;
    assert IsRun(p, states + [t], acts + [a]);
  }

  ghost predicate LostEndpoint(s: State, h: Conn) {
    h in s.handlers && s.handlers[h].pc.Serving? && s.handlers[h].key !in s.remotes
  }

  /** Connections 1 and 2 both wait for connection 0, which has just been accepted. */
  function BothWait(k: Key): State {
    State(Tracker(map[k := Entry(0, 0)], 1, {}), map[],
          map[0 := Handler(k, Accepted, None), 1 := Handler(k, Waiting(0), Some(0)), 2 := Handler(k, Waiting(0), Some(0))])
  }

  lemma OneAccepted(k: Key) returns (s: State)
    ensures Reachable(LastWins, s)
    ensures s == State(Tracker(map[k := Entry(0, 0)], 1, {}), map[], map[0 := Handler(k, Accepted, None)])
  {
    assert IsRun(LastWins, [INIT], []);
    s := INIT;
    s := Extend(LastWins, s, Arrive(0, k));
    s := Extend(LastWins, s, LookUp(0));
    s := Extend(LastWins, s, Claim(0));
  }

  lemma BothWaitReachable(k: Key)
    ensures Reachable(LastWins, BothWait(k))
  {
    var s := OneAccepted(k);
    s := Extend(LastWins, s, Arrive(1, k));
    s := Extend(LastWins, s, LookUp(1));
    s := Extend(LastWins, s, Arrive(2, k));
    s := Extend(LastWins, s, LookUp(2));
    assert s == BothWait(k);
  }

  /** Connection 0 has gone and both others have stopped waiting. */
  function BothCleared(k: Key): State {
    State(Tracker(map[], 1, {0}), map[],
          map[0 := Handler(k, Closed, None), 1 := Handler(k, Cleared, Some(0)), 2 := Handler(k, Cleared, Some(0))])
  }

  lemma BothClearedReachable(k: Key)
    ensures Reachable(LastWins, BothCleared(k))
  {
    BothWaitReachable(k);
    var s := BothWait(k);
    s := Extend(LastWins, s, MakeHandler(0, false));
    s := Extend(LastWins, s, OnClose(0));
    s := Extend(LastWins, s, Wake(1));
    s := Extend(LastWins, s, Wake(2));
    assert s == BothCleared(k);
  }

  /**
   Without the condition the claim is false: two calls that waited for the same
   connection both claim the slot, and the first to leave takes the endpoint of
   the other with it.
  */
  lemma OverlapLosesEndpoint(k: Key)
    ensures exists s, h :: Reachable(LastWins, s) && !OneLivePerKey(s) && LostEndpoint(s, h)
  {
    BothClearedReachable(k);
    var s := BothCleared(k);
    s := Extend(LastWins, s, Claim(1));
    s := Extend(LastWins, s, Claim(2));
    s := Extend(LastWins, s, MakeHandler(1, true));
    s := Extend(LastWins, s, AddRemote(1));
    s := Extend(LastWins, s, MakeHandler(2, true));
    s := Extend(LastWins, s, AddRemote(2));
    s := Extend(LastWins, s, ServeEnds(1));
    s := Extend(LastWins, s, RemoveRemote(1));
    assert 1 in LiveCalls(s) && 2 in LiveCalls(s);
    assert LostEndpoint(s, 2);
  }
}
