/**
 Manager calls that overlap. A call changes the room and lists it under roomMu, but
 broadcasts the list after releasing it (roomstate/roomstate.go:88-135), and the
 endpoints handler lists and then calls its own sink; so the lists of several calls can
 be on their way at once. `past` collects the key sets the room has had, `locks` counts
 the locked sections.
*/
module RoomRaces {
  import opened Prelude
  import opened Listings
  import opened Broadcasts

  /** A list on its way to all sinks, or to one, and when it was taken. */
  datatype Sending = Sending(list: seq<string>, to: Option<Reg>, at: nat)

  datatype Race = Race(room: set<string>, pending: map<nat, Sending>, locks: nat, ends: Cast<seq<string>>, past: set<set<string>>)

  const INIT := Race({}, map[], 0, Cast({}, 0, map[]), {{}})

  datatype Action =
    | Change(call: nat, room: set<string>, list: seq<string>)  // AddEndpoint, Remove, AlreadyAdded: the locked part
    | List(call: nat, r: Reg, list: seq<string>)               // state.List of the endpoints handler that registered r
    | Deliver(call: nat)                                       // endpointsUpdater.Update, or toPeer.Update
    | Subscribe
  {
    predicate Locks(c: nat) { (Change? || List?) && call == c }
  }

  ghost predicate Step(fails: Failures, s: Race, a: Action, t: Race)
    requires CastOk(s.ends)
  {
    match a
    case Change(c, room, l) =>
      c !in s.pending && IsListing(l, room) &&
      t == Race(room, s.pending[c := Sending(l, None, s.locks)], s.locks + 1, s.ends, s.past + {room})
    case List(c, r, l) =>
      c !in s.pending && IsListing(l, s.room) && r in s.ends.calls &&
      t == s.(pending := s.pending[c := Sending(l, Some(r), s.locks)], locks := s.locks + 1)
    case Deliver(c) =>
      c in s.pending && t == s.(pending := s.pending - {c}, ends := Delivered(fails, s.ends, s.pending[c]))
    case Subscribe => t == s.(ends := Registered(s.ends))
  }

  ghost function Delivered(fails: Failures, c: Cast<seq<string>>, p: Sending): Cast<seq<string>>
    requires CastOk(c)
  {
    if p.to.None? then Sent(fails, c, p.list) else Direct(c, p.to.value, p.list)
  }

  ghost predicate IsRun(fails: Failures, states: seq<Race>, acts: seq<Action>) {
    && |states| == |acts| + 1
    && states[0] == INIT
    && forall i :: 0 <= i < |acts| ==> CastOk(states[i].ends) && Step(fails, states[i], acts[i], states[i+1])
  }

  // ---- Every list that arrives was once the truth ----

  ghost predicate ListsSome(l: seq<string>, past: set<set<string>>) {
    exists k :: k in past && IsListing(l, k)
  }

  ghost predicate Honest(s: Race) {
    && CastOk(s.ends) && s.room in s.past
    && (forall c :: c in s.pending ==> ListsSome(s.pending[c].list, s.past) && (s.pending[c].to.Some? ==> s.pending[c].to.value in s.ends.calls))
    && (forall r, i :: r in s.ends.calls && 0 <= i < |s.ends.calls[r]| ==> ListsSome(s.ends.calls[r][i], s.past))
  }

  lemma StepHonest(fails: Failures, s: Race, a: Action, t: Race)
    requires Honest(s) && Step(fails, s, a, t)
    ensures Honest(t) && s.past <= t.past
  {
    if a.Change? || a.List? {
      assert ListsSome(a.list, t.past);
    }
  }

  /**
   However the calls overlap, every list any subscriber is ever called with is
   strictly ascending and is the exact key set of some state the room was in.
  */
  lemma {:induction false} DeliveredListsAreReal(fails: Failures, states: seq<Race>, acts: seq<Action>, n: nat, r: Reg, i: nat)
    requires IsRun(fails, states, acts) && n <= |acts|
    ensures Honest(states[n])
    ensures r in states[n].ends.calls && i < |states[n].ends.calls[r]| ==>
              Ascending(states[n].ends.calls[r][i]) &&
              exists j :: 0 <= j <= n && IsListing(states[n].ends.calls[r][i], states[j].room)
  {
    RunHonest(fails, states, acts, n);
    if r in states[n].ends.calls && i < |states[n].ends.calls[r]| {
      var k :| k in states[n].past && IsListing(states[n].ends.calls[r][i], k);
      PastHappened(fails, states, acts, n, k);
    }
  }

  lemma {:induction false} RunHonest(fails: Failures, states: seq<Race>, acts: seq<Action>, n: nat)
    requires IsRun(fails, states, acts) && n <= |acts|
    ensures Honest(states[n])
  {
    if n > 0 {
      RunHonest(fails, states, acts, n - 1);
      StepHonest(fails, states[n-1], acts[n-1], states[n]);
    }
  }

  lemma {:induction false} PastHappened(fails: Failures, states: seq<Race>, acts: seq<Action>, n: nat, k: set<string>)
    requires IsRun(fails, states, acts) && n <= |acts| && k in states[n].past
    ensures exists j :: 0 <= j <= n && states[j].room == k
  {
    if n > 0 && k != states[n].room {
      assert Step(fails, states[n-1], acts[n-1], states[n]);
      PastHappened(fails, states, acts, n - 1, k);
    }
  }

  // ---- When the last list that arrived is the truth still ----

  /** Call c's list reaches r in step m. */
  ghost predicate Reaches(states: seq<Race>, acts: seq<Action>, m: nat, c: nat, r: Reg)
    requires m < |acts| < |states|
  {
    && acts[m] == Deliver(c) && c in states[m].pending
    && (if states[m].pending[c].to.None? then r in states[m].ends.sinks else states[m].pending[c].to == Some(r))
  }

  /** The last list r was called with before n is the one call c took in step l and delivered in step m. */
  ghost predicate IsLatest(states: seq<Race>, acts: seq<Action>, n: nat, r: Reg, c: nat, l: nat, m: nat)
    requires n <= |acts| < |states|
  {
    && l < m < n && acts[l].Locks(c) && Reaches(states, acts, m, c, r)
    && (forall i :: l < i < m ==> acts[i] != Deliver(c))
    && (forall i, d :: m < i < n ==> !Reaches(states, acts, i, d, r))
  }

  /** Until it is delivered, a call's list is the one it took in step l. */
  lemma {:induction false} OnItsWay(fails: Failures, states: seq<Race>, acts: seq<Action>, l: nat, m: nat, c: nat)
    requires IsRun(fails, states, acts) && l < m <= |acts| && acts[l].Locks(c)
    requires forall i :: l < i < m ==> acts[i] != Deliver(c)
    ensures c in states[m].pending && IsListing(states[m].pending[c].list, states[l+1].room)
    decreases m
  {
    assert Step(fails, states[m-1], acts[m-1], states[m]);
    if l + 1 < m {
      OnItsWay(fails, states, acts, l, m - 1, c);
    }
  }

  /** What is on its way was taken in some earlier step. */
  lemma {:induction false} WasTaken(fails: Failures, states: seq<Race>, acts: seq<Action>, m: nat, c: nat) returns (l: nat)
    requires IsRun(fails, states, acts) && m <= |acts| && c in states[m].pending
    ensures l < m && acts[l].Locks(c) && forall i :: l < i < m ==> acts[i] != Deliver(c)
  {
    assert Step(fails, states[m-1], acts[m-1], states[m]);
    if acts[m-1].Locks(c) {
      l := m - 1;
    } else {
      l := WasTaken(fails, states, acts, m - 1, c);
    }
  }

  /** A step either reaches r and adds the list to its calls, or leaves its calls alone. */
  lemma StepReaches(fails: Failures, states: seq<Race>, acts: seq<Action>, k: nat, r: Reg)
    requires IsRun(fails, states, acts) && k < |acts| && r in states[k].ends.calls
    ensures r in states[k+1].ends.calls
    ensures if acts[k].Deliver? && Reaches(states, acts, k, acts[k].call, r)
            then states[k+1].ends.calls[r] == states[k].ends.calls[r] + [states[k].pending[acts[k].call].list]
            else states[k+1].ends.calls[r] == states[k].ends.calls[r]
  {
    assert Step(fails, states[k], acts[k], states[k+1]);
  }

  /** A sink has no calls before it is registered, and none when it is. */
  lemma StepRegisters(fails: Failures, states: seq<Race>, acts: seq<Action>, k: nat, r: Reg)
    requires IsRun(fails, states, acts) && k < |acts| && r !in states[k].ends.calls
    ensures r in states[k+1].ends.calls ==> states[k+1].ends.calls[r] == []
  {
    assert Step(fails, states[k], acts[k], states[k+1]);
  }

  ghost predicate Called(s: Race, r: Reg) {
    r in s.ends.calls && s.ends.calls[r] != []
  }

  /** Every sink that has been called has such a last list. */
  lemma {:induction false} LatestExists(fails: Failures, states: seq<Race>, acts: seq<Action>, n: nat, r: Reg)
      returns (c: nat, l: nat, m: nat)
    requires IsRun(fails, states, acts) && n <= |acts|
    requires Called(states[n], r)
    ensures IsLatest(states, acts, n, r, c, l, m)
  {
    var k := n - 1;
    if r !in states[k].ends.calls {
      StepRegisters(fails, states, acts, k, r);
      assert false;
    }
    StepReaches(fails, states, acts, k, r);
    if acts[k].Deliver? && Reaches(states, acts, k, acts[k].call, r) {
      c, m := acts[k].call, k;
      l := WasTaken(fails, states, acts, k, c);
    } else {
      c, l, m := LatestExists(fails, states, acts, k, r);
    }
  }

  /** r's last list is still the room as it was when the call took it. */
  lemma {:induction false} LatestLists(fails: Failures, states: seq<Race>, acts: seq<Action>, n: nat, r: Reg, c: nat, l: nat, m: nat)
    requires IsRun(fails, states, acts) && n <= |acts| && IsLatest(states, acts, n, r, c, l, m)
    requires r in states[m].ends.calls
    ensures Called(states[n], r)
    ensures IsListing(Last(states[n].ends.calls[r]), states[l+1].room)
    decreases n
  {
    if m + 1 == n {
      OnItsWay(fails, states, acts, l, m, c);
      StepReaches(fails, states, acts, m, r);
    } else {
      LatestLists(fails, states, acts, n - 1, r, c, l, m);
      StepReaches(fails, states, acts, n - 1, r);
    }
  }

  function Last<T>(s: seq<T>): T
    requires s != []
  {
    s[|s| - 1]
  }

  /** The sink's last call told it the room as it is. */
  ghost predicate UpToDate(s: Race, r: Reg) {
    Called(s, r) && IsListing(Last(s.ends.calls[r]), s.room)
  }

  /**
   The exact condition, in every run, for every sink that has been called (LatestExists):
   its last list is the current one if and only if the room is as it was when the call
   that delivered this list let go of the lock.
  */
  lemma UpToDateIff(fails: Failures, states: seq<Race>, acts: seq<Action>, n: nat, r: Reg, c: nat, l: nat, m: nat)
    requires IsRun(fails, states, acts) && n <= |acts| && IsLatest(states, acts, n, r, c, l, m)
    ensures UpToDate(states[n], r) <==> states[l+1].room == states[n].room
  {
    RunHonest(fails, states, acts, m);
    LatestLists(fails, states, acts, n, r, c, l, m);
  }

  // ---- Lists delivered in the order of the locked sections ----

  /** No list that was taken earlier is still on its way. */
  ghost predicate IsNext(s: Race, c: nat) {
    c in s.pending && forall d :: d in s.pending ==> s.pending[c].at <= s.pending[d].at
  }

  ghost predicate InOrder(states: seq<Race>, acts: seq<Action>, n: nat)
    requires n <= |acts| < |states|
  {
    forall i :: 0 <= i < n && acts[i].Deliver? ==> IsNext(states[i], acts[i].call)
  }

  ghost predicate NoChangePending(s: Race) {
    forall d :: d in s.pending ==> s.pending[d].to.Some?
  }

  type Underway = map<nat, Sending>

  /** c's list is on its way, and no change made after it was taken is. */
  ghost predicate Newest(p: Underway, c: nat) {
    c in p && forall d :: d in p && p[d].to.None? ==> p[d].at <= p[c].at
  }

  ghost predicate NewestIsCurrent(p: Underway, locks: nat, room: set<string>) {
    && (forall c :: c in p ==> p[c].at < locks)
    && (forall c :: Newest(p, c) ==> IsListing(p[c].list, room))
  }

  ghost predicate Settled(s: Race) {
    NoChangePending(s) ==> forall r :: r in s.ends.sinks && Called(s, r) ==> UpToDate(s, r)
  }

  lemma TakenIsNewest(p: Underway, locks: nat, room: set<string>, c: nat, l: seq<string>, to: Option<Reg>, room': set<string>)
    requires NewestIsCurrent(p, locks, room) && c !in p && IsListing(l, room') && (to.None? || room' == room)
    ensures NewestIsCurrent(p[c := Sending(l, to, locks)], locks + 1, room')
  {
    var q := p[c := Sending(l, to, locks)];
    forall d | d != c && Newest(q, d) ensures Newest(p, d) && to.Some? {
      assert c in q && q[d] == p[d] && to.Some?;
      forall e | e in p && p[e].to.None? ensures p[e].at <= p[d].at {
        assert e in q && q[e] == p[e];
      }
    }
  }

  lemma RestIsNewest(p: Underway, locks: nat, room: set<string>, c: nat)
    requires NewestIsCurrent(p, locks, room) && c in p && forall d :: d in p ==> p[c].at <= p[d].at
    ensures NewestIsCurrent(p - {c}, locks, room)
  {
    var q := p - {c};
    forall d | Newest(q, d) ensures IsListing(q[d].list, room) {
      assert Newest(p, d) by {
        assert forall e :: e in p && e != c ==> e in q && q[e] == p[e];
      }
    }
  }

  lemma StepNewest(fails: Failures, s: Race, a: Action, t: Race)
    requires CastOk(s.ends) && NewestIsCurrent(s.pending, s.locks, s.room) && Step(fails, s, a, t)
    requires a.Deliver? ==> IsNext(s, a.call)
    ensures NewestIsCurrent(t.pending, t.locks, t.room)
  {
    match a
    case Change(c, room, l) => TakenIsNewest(s.pending, s.locks, s.room, c, l, None, room);
    case List(c, r, l) => TakenIsNewest(s.pending, s.locks, s.room, c, l, Some(r), s.room);
    case Deliver(c) => RestIsNewest(s.pending, s.locks, s.room, c);
    case Subscribe =>
  }

  lemma LockSettled(fails: Failures, s: Race, a: Action, t: Race)
    requires CastOk(s.ends) && Settled(s) && Step(fails, s, a, t) && !a.Deliver?
    ensures Settled(t)
  {
    if a.Change? {
      assert t.pending[a.call].to.None?;
    } else if NoChangePending(t) {
      assert forall d :: d in s.pending ==> d in t.pending && t.pending[d] == s.pending[d];
      assert NoChangePending(s);
    }
  }

  lemma DeliverSettled(fails: Failures, s: Race, c: nat, t: Race)
    requires CastOk(s.ends) && NewestIsCurrent(s.pending, s.locks, s.room) && Settled(s) && IsNext(s, c) && Step(fails, s, Deliver(c), t)
    ensures Settled(t)
  {
    if NoChangePending(t) {
      assert forall d :: d in s.pending && d != c ==> d in t.pending && t.pending[d] == s.pending[d];
      assert Newest(s.pending, c);
      forall r | r in t.ends.sinks && Called(t, r) ensures UpToDate(t, r) {
        if s.pending[c].to.None? || s.pending[c].to == Some(r) {
          assert t.ends.calls[r] == s.ends.calls[r] + [s.pending[c].list];
        } else {
          assert NoChangePending(s);
        }
      }
    }
  }

  lemma {:induction false} RunOnCourse(fails: Failures, states: seq<Race>, acts: seq<Action>, n: nat)
    requires IsRun(fails, states, acts) && n <= |acts| && InOrder(states, acts, n)
    ensures CastOk(states[n].ends) && NewestIsCurrent(states[n].pending, states[n].locks, states[n].room) && Settled(states[n])
  {
    RunHonest(fails, states, acts, n);
    if n > 0 {
      RunOnCourse(fails, states, acts, n - 1);
      StepNewest(fails, states[n-1], acts[n-1], states[n]);
      if acts[n-1].Deliver? {
        DeliverSettled(fails, states[n-1], acts[n-1].call, states[n]);
      } else {
        LockSettled(fails, states[n-1], acts[n-1], states[n]);
      }
    }
  }

  /**
   If lists are delivered in the order in which they were taken, every sink that never
   failed and has been called is up to date whenever no broadcast is outstanding.
  */
  lemma InOrderStaysUpToDate(fails: Failures, states: seq<Race>, acts: seq<Action>, n: nat, r: Reg)
    requires IsRun(fails, states, acts) && n <= |acts| && InOrder(states, acts, n)
    requires NoChangePending(states[n])
    requires r in states[n].ends.sinks && Called(states[n], r)
    ensures UpToDate(states[n], r)
  {
    RunOnCourse(fails, states, acts, n);
  }

  // ---- Out of order it is not ----

  ghost predicate Reachable(fails: Failures, s: Race) {
    exists states, acts :: IsRun(fails, states, acts) && states[|acts|] == s
  }

  lemma Extend(fails: Failures, s: Race, a: Action, t: Race)
    requires Reachable(fails, s) && CastOk(s.ends) && Step(fails, s, a, t)
    ensures Reachable(fails, t)
  {
    var states, acts :| IsRun(fails, states, acts) && states[|acts|] == s;
    assert IsRun(fails, states + [t], acts + [a]);
  }

  /** One subscriber, which has been called with these lists. */
  function OneSink(calls: seq<seq<string>>): Cast<seq<string>> {
    Cast({0}, 1, map[0 := calls])
  }

  lemma SentToOne(fails: Failures, calls: seq<seq<string>>, l: seq<string>)
    requires !fails(0, |calls|)
    ensures CastOk(OneSink(calls)) && Sent(fails, OneSink(calls), l) == OneSink(calls + [l])
  {
    var d := Sent(fails, OneSink(calls), l);
    assert d.sinks == {0};
    assert d.calls == map[0 := calls + [l]];
  }

  ghost predicate LeftStale(s: Race) {
    s.pending == map[] && 0 in s.ends.sinks && Called(s, 0) && !UpToDate(s, 0)
  }

  /** Two peers have joined; neither call has broadcast yet. */
  function BothOnTheWay(past: set<set<string>>): Race {
    Race({"a", "b"}, map[0 := Sending(["a"], None, 0), 1 := Sending(["a", "b"], None, 1)], 2, OneSink([]), past)
  }

  lemma BothOnTheWayReachable(fails: Failures) returns (past: set<set<string>>)
    ensures Reachable(fails, BothOnTheWay(past))
  {
    assert IsRun(fails, [INIT], []);
    var s1 := Race({}, map[], 0, OneSink([]), {{}});
    Extend(fails, INIT, Subscribe, s1);
    var s2 := Race({"a"}, map[0 := Sending(["a"], None, 0)], 1, OneSink([]), s1.past + {{"a"}});
    Extend(fails, s1, Change(0, {"a"}, ["a"]), s2);
    past := s2.past + {{"a", "b"}};
    Extend(fails, s2, Change(1, {"a", "b"}, ["a", "b"]), BothOnTheWay(past));
  }

  /**
   The last list need not be the current one: with two calls overlapping, a sink that
   never fails can be left with the older list although nothing is on its way any more.
  */
  lemma LastListCanBeStale(fails: Failures)
    requires forall i: nat :: !fails(0, i)
    ensures exists s :: Reachable(fails, s) && LeftStale(s)
  {
    var past := BothOnTheWayReachable(fails);
    var s := BothOnTheWay(past);
    var one, two := ["a"], ["a", "b"];
    SentToOne(fails, [], two);
    SentToOne(fails, [two], one);
    assert [] + [two] == [two] && [two] + [one] == [two, one];
    var t := Race(s.room, map[0 := Sending(one, None, 0)], 2, OneSink([two]), past);
    assert s.pending - {1} == t.pending;
    Extend(fails, s, Deliver(1), t);
    var u := Race(s.room, map[], 2, OneSink([two, one]), past);
    assert t.pending - {0} == u.pending;
    Extend(fails, t, Deliver(0), u);
    assert "b" in u.room && "b" !in one;
    assert LeftStale(u);
  }
}
