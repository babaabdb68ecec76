/**
 The room and its subscribers: roomstate.Manager (roomstate/roomstate.go) with the
 endpoints and attendants handlers (muxrpc/handlers/tunnel/server). An endpoint is
 a number; the room maps the members' references to their endpoints.
*/
module RoomState {
  import opened Prelude
  import opened Listings
  import opened Broadcasts

  datatype Attend = Joined(who: string) | Left(who: string)

  type Room = map<string, nat>

  datatype State = State(room: Room, ends: Cast<seq<string>>, atts: Cast<Attend>)

  ghost predicate StateOk(s: State) {
    CastOk(s.ends) && CastOk(s.atts)
  }

  /** Both broadcasts a Manager call makes after changing the room. */
  ghost predicate Told(endFails: Failures, attFails: Failures, s: State, room: Room, a: Attend, t: State)
    requires StateOk(s)
  {
    && t.room == room
    && (exists l :: IsListing(l, room.Keys) && t.ends == Sent(endFails, s.ends, l))
    && t.atts == Sent(attFails, s.atts, a)
  }

  datatype Event =
    | Added(who: string, edp: nat)
    | Removed(who: string)
    | Ensured(who: string, edp: nat)
    | EndpointsRegistered(r: Reg)
    | EndpointsListed(r: Reg)
    | AttendantsRegistered(r: Reg)

  ghost predicate ManagerStep(endFails: Failures, attFails: Failures, s: State, e: Event, t: State)
    requires StateOk(s)
  {
    match e
    case Added(who, edp) => Told(endFails, attFails, s, s.room[who := edp], Joined(who), t)
    case Removed(who) => Told(endFails, attFails, s, s.room - {who}, Left(who), t)
    case Ensured(who, edp) =>
      if who in s.room then t == s else Told(endFails, attFails, s, s.room[who := edp], Joined(who), t)
    case EndpointsRegistered(r) => r == s.ends.next && t == s.(ends := Registered(s.ends))
    case EndpointsListed(r) =>
      r in s.ends.calls && exists l :: IsListing(l, s.room.Keys) && t == s.(ends := Direct(s.ends, r, l))
    case AttendantsRegistered(r) => r == s.atts.next && t == s.(atts := Registered(s.atts))
  }

  class Manager {
    var room: Room
    const endpoints: Broadcast<seq<string>>
    const attendants: Broadcast<Attend>

    constructor (e: Broadcast<seq<string>>, a: Broadcast<Attend>)
      ensures room == map[] && endpoints == e && attendants == a
    {
      room, endpoints, attendants := map[], e, a;
    }

    ghost function Now(): State
      reads this, endpoints, attendants
    {
      State(room, endpoints.State(), attendants.State())
    }

    ghost predicate Valid()
      reads this, endpoints, attendants
    {
      StateOk(Now())
    }

    ghost predicate Does(s: State, e: Event, t: State)
      requires StateOk(s)
    {
      ManagerStep(endpoints.fails, attendants.fails, s, e, t)
    }

    method List() returns (l: seq<string>)
      ensures IsListing(l, room.Keys)
    {
      l := AsList(room.Keys);
    }

    method Has(who: string) returns (edp: Option<nat>)
      ensures edp == if who in room then Some(room[who]) else None
    {
      if who in room {
        edp := Some(room[who]);
      } else {
        edp := None;
      }
    }

    method AddEndpoint(who: string, edp: nat)
      requires Valid()
      modifies this, endpoints, attendants
      ensures Valid() && Does(old(Now()), Added(who, edp), Now())
      ensures room == old(room)[who := edp]
    {
      room := room[who := edp];
      var current := AsList(room.Keys);
      endpoints.Send(current);
      attendants.Send(Joined(who));
    }

    method Remove(who: string)
      requires Valid()
      modifies this, endpoints, attendants
      ensures Valid() && Does(old(Now()), Removed(who), Now())
      ensures room == old(room) - {who}
    {
      room := room - {who};
      var current := AsList(room.Keys);
      endpoints.Send(current);
      attendants.Send(Left(who));
    }

    method AlreadyAdded(who: string, edp: nat) returns (has: bool)
      requires Valid()
      modifies this, endpoints, attendants
      ensures Valid() && (has <==> who in old(room)) && Does(old(Now()), Ensured(who, edp), Now())
      ensures room == if has then old(room) else old(room)[who := edp]
    {
      has := who in room;
      if !has {
        room := room[who := edp];
        var current := AsList(room.Keys);
        endpoints.Send(current);
        attendants.Send(Joined(who));
      }
    }

    /**
     The endpoints handler: register, join if absent, then list, whatever became of the
     registration. These are three steps of a run, with s1 and s2 in between.
    */
    method EndpointsHandler(peer: string, edp: nat) returns (r: Reg, ghost s1: State, ghost s2: State)
      requires Valid()
      modifies this, endpoints, attendants
      ensures Valid() && peer in room && r in endpoints.calls
      ensures EndpointUpToDate(Now(), r)
      ensures StateOk(s1) && Does(old(Now()), EndpointsRegistered(r), s1)
      ensures StateOk(s2) && Does(s1, Ensured(peer, edp), s2) && Does(s2, EndpointsListed(r), Now())
    {
      r := endpoints.Register();
      s1 := Now();
      var had := AlreadyAdded(peer, edp);
      s2 := Now();
      assert r in endpoints.calls;
      ListTo(r);
    }

    /** toPeer.Update(state.List()). */
    method ListTo(r: Reg)
      requires Valid() && r in endpoints.calls
      modifies endpoints
      ensures Valid() && Does(old(Now()), EndpointsListed(r), Now())
      ensures EndpointUpToDate(Now(), r)
    {
      var l := List();
      endpoints.CallDirectly(r, l);
    }

    /**
     The attendants handler: join, send the initial state, and only then register;
     nothing is registered if the sink refuses the initial state. s1 is the state it sends.
    */
    method AttendantsHandler(peer: string, edp: nat, refused: bool) returns (initial: seq<string>, r: Option<Reg>, ghost s1: State)
      requires Valid()
      modifies this, endpoints, attendants
      ensures Valid() && peer in room && IsListing(initial, room.Keys)
      ensures StateOk(s1) && Does(old(Now()), Added(peer, edp), s1)
      ensures if refused then Now() == s1 else r.Some? && Does(s1, AttendantsRegistered(r.value), Now())
      ensures refused <==> r.None?
      ensures r.Some? ==> r.value in attendants.sinks && AttendantAgrees(Now(), r.value, set k | k in initial)
    {
      AddEndpoint(peer, edp);
      s1 := Now();
      initial := List();
      if refused {
        return initial, None, s1;
      }
      var reg := attendants.Register();
      return initial, Some(reg), s1;
    }
  }

  // ---- Endpoints subscribers: snapshots ----

  /** The last list the sink was called with is the sorted list of the peers in the room. */
  ghost predicate EndpointUpToDate(s: State, r: Reg) {
    && r in s.ends.calls && s.ends.calls[r] != []
    && IsListing(s.ends.calls[r][|s.ends.calls[r]| - 1], s.room.Keys)
  }

  // ---- Attendants subscribers: deltas ----

  /** Where a subscriber gets that starts from `initial` and follows the calls. */
  ghost function Replica(initial: set<string>, calls: seq<Attend>): set<string> {
    if calls == [] then initial
    else
      var before := Replica(initial, calls[..|calls|-1]);
      match calls[|calls|-1]
      case Joined(who) => before + {who}
      case Left(who) => before - {who}
  }

  ghost predicate AttendantAgrees(s: State, r: Reg, initial: set<string>) {
    r in s.atts.calls && Replica(initial, s.atts.calls[r]) == s.room.Keys
  }

  // ---- Runs of Manager calls taken as single steps ----

  ghost predicate ManagerRun(endFails: Failures, attFails: Failures, states: seq<State>, events: seq<Event>) {
    && |states| == |events| + 1
    && StateOk(states[0])
    && forall i :: 0 <= i < |events| ==> StateOk(states[i]) && ManagerStep(endFails, attFails, states[i], events[i], states[i+1])
  }

  /** By which endpoint p is in the room after the first n events, told from the events. */
  ghost function PresentAs(events: seq<Event>, n: nat, p: string, first: Option<nat>): Option<nat>
    requires n <= |events|
  {
    if n == 0 then first else Present(events[n-1], p, PresentAs(events, n - 1, p, first))
  }

  function Present(e: Event, p: string, before: Option<nat>): Option<nat> {
    match e
    case Added(who, edp) => if who == p then Some(edp) else before
    case Removed(who) => if who == p then None else before
    case Ensured(who, edp) => if who == p && before.None? then Some(edp) else before
    case _ => before
  }

  function Find(room: Room, p: string): Option<nat> {
    if p in room then Some(room[p]) else None
  }

  /** After every run the room holds each peer with the endpoint that was added for it last. */
  lemma {:induction false} RoomFollowsEvents(endFails: Failures, attFails: Failures, states: seq<State>, events: seq<Event>, n: nat, p: string)
    requires ManagerRun(endFails, attFails, states, events) && n <= |events|
    ensures Find(states[n].room, p) == PresentAs(events, n, p, Find(states[0].room, p))
  {
    if n > 0 {
      RoomFollowsEvents(endFails, attFails, states, events, n - 1, p);
      RunPresent(endFails, attFails, states, events, n - 1, p);
    }
  }

  lemma RunPresent(endFails: Failures, attFails: Failures, states: seq<State>, events: seq<Event>, j: nat, p: string)
    requires ManagerRun(endFails, attFails, states, events) && j < |events|
    ensures Find(states[j+1].room, p) == Present(events[j], p, Find(states[j].room, p))
  {
    StepPresent(endFails, attFails, states[j], events[j], states[j+1], p);
  }

  lemma StepPresent(endFails: Failures, attFails: Failures, s: State, e: Event, t: State, p: string)
    requires StateOk(s) && ManagerStep(endFails, attFails, s, e, t)
    ensures Find(t.room, p) == Present(e, p, Find(s.room, p))
  {
  }

  /** No call made to r's sink so far has failed. */
  ghost predicate Sound<M>(fails: Failures, c: Cast<M>, r: Reg) {
    r in c.calls && Unfailed(fails, r, c.calls[r])
  }

  lemma SentKeeps<M>(fails: Failures, c: Cast<M>, m: M, r: Reg)
    requires CastOk(c) && r in c.calls && Sound(fails, Sent(fails, c, m), r)
    ensures Sound(fails, c, r)
    ensures r in c.sinks ==> r in Sent(fails, c, m).sinks && Sent(fails, c, m).calls[r] == c.calls[r] + [m]
  {
    var d := Sent(fails, c, m);
    assert c.calls[r] <= d.calls[r];
    if r in c.sinks {
      assert !fails(r, |d.calls[r]| - 1);
    }
  }

  lemma StepEndpoints(endFails: Failures, attFails: Failures, s: State, e: Event, t: State, r: Reg)
    requires StateOk(s) && ManagerStep(endFails, attFails, s, e, t)
    requires r in s.ends.calls && Sound(endFails, t.ends, r)
    ensures Sound(endFails, s.ends, r)
    ensures r in s.ends.sinks ==> r in t.ends.sinks
    ensures r in s.ends.sinks && EndpointUpToDate(s, r) ==> EndpointUpToDate(t, r)
    ensures e == EndpointsListed(r) ==> EndpointUpToDate(t, r)
  {
    if t.room != s.room || e.Added? || e.Removed? {
      var l :| IsListing(l, t.room.Keys) && t.ends == Sent(endFails, s.ends, l);
      SentKeeps(endFails, s.ends, l, r);
    } else if e.EndpointsListed? {
      assert s.ends.calls[r] <= t.ends.calls[r];
    }
  }

  /**
   Once the endpoints handler has listed, and after every later Manager call, the
   last list a sink that never failed was called with is the sorted list of the
   room's keys. i is the position of the handler's registration, j of its listing.
  */
  lemma {:induction false} EndpointsStayUpToDate(endFails: Failures, attFails: Failures, states: seq<State>, events: seq<Event>,
                                                 i: nat, j: nat, n: nat, r: Reg)
    requires ManagerRun(endFails, attFails, states, events) && i < j < n <= |events|
    requires events[i] == EndpointsRegistered(r) && events[j] == EndpointsListed(r)
    requires Sound(endFails, states[n].ends, r)
    ensures EndpointUpToDate(states[n], r) && r in states[n].ends.sinks
    decreases n
  {
    StaysRegistered(endFails, attFails, states, events, i, n, r);
    EndpointsAt(endFails, attFails, states, events, i, n - 1, r);
    if j + 1 < n {
      EndpointsStayUpToDate(endFails, attFails, states, events, i, j, n - 1, r);
    }
  }

  lemma EndpointsAt(endFails: Failures, attFails: Failures, states: seq<State>, events: seq<Event>, i: nat, k: nat, r: Reg)
    requires ManagerRun(endFails, attFails, states, events) && i < k < |events| && events[i] == EndpointsRegistered(r)
    requires Sound(endFails, states[k+1].ends, r)
    ensures r in states[k].ends.sinks && Sound(endFails, states[k].ends, r)
    ensures EndpointUpToDate(states[k], r) || events[k] == EndpointsListed(r) ==> EndpointUpToDate(states[k+1], r)
  {
    EndpointsKnown(endFails, attFails, states, events, i, k, r);
    StepEndpoints(endFails, attFails, states[k], events[k], states[k+1], r);
    StaysRegistered(endFails, attFails, states, events, i, k, r);
  }

  lemma {:induction false} EndpointsKnown(endFails: Failures, attFails: Failures, states: seq<State>, events: seq<Event>, i: nat, n: nat, r: Reg)
    requires ManagerRun(endFails, attFails, states, events) && i < n <= |events| && events[i] == EndpointsRegistered(r)
    ensures r in states[n].ends.calls
    decreases n
  {
    assert ManagerStep(endFails, attFails, states[n-1], events[n-1], states[n]);
    if i + 1 < n {
      EndpointsKnown(endFails, attFails, states, events, i, n - 1, r);
    }
  }

  lemma {:induction false} StaysRegistered(endFails: Failures, attFails: Failures, states: seq<State>, events: seq<Event>, i: nat, n: nat, r: Reg)
    requires ManagerRun(endFails, attFails, states, events) && i < n <= |events| && events[i] == EndpointsRegistered(r)
    requires Sound(endFails, states[n].ends, r)
    ensures r in states[n].ends.sinks
    decreases n
  {
    if i + 1 < n {
      EndpointsKnown(endFails, attFails, states, events, i, n - 1, r);
      StepEndpoints(endFails, attFails, states[n-1], events[n-1], states[n], r);
      StaysRegistered(endFails, attFails, states, events, i, n - 1, r);
    } else {
      assert ManagerStep(endFails, attFails, states[i], events[i], states[n]);
    }
  }

  /** Whether step k told the subscribers anything about p. */
  ghost predicate Touches(states: seq<State>, events: seq<Event>, k: nat, p: string)
    requires k < |events| < |states|
  {
    match events[k]
    case Added(who, _) => who == p
    case Removed(who) => who == p
    case Ensured(who, _) => who == p && who !in states[k].room
    case _ => false
  }

  /** Whether some step after position i and before n told them about p. */
  ghost predicate TouchedBetween(states: seq<State>, events: seq<Event>, i: nat, n: nat, p: string)
    requires n <= |events| < |states|
  {
    i + 1 < n && (Touches(states, events, n - 1, p) || TouchedBetween(states, events, i, n - 1, p))
  }

  /**
   What an attendants subscriber knows after any run of Manager calls, for each peer.
   `initial` is the state it was sent, i the position of its registration. It is right
   about a peer if and only if it was right at registration or has been told of that
   peer since; repeated joins and leaves of absent peers included.
  */
  lemma {:induction false} AttendantKnows(endFails: Failures, attFails: Failures, states: seq<State>, events: seq<Event>,
                                          i: nat, n: nat, r: Reg, initial: set<string>, p: string)
    requires ManagerRun(endFails, attFails, states, events) && i < n <= |events|
    requires events[i] == AttendantsRegistered(r)
    requires Sound(attFails, states[n].atts, r)
    ensures (p in Replica(initial, states[n].atts.calls[r]) <==> p in states[n].room) <==>
              (p in initial <==> p in states[i].room) || TouchedBetween(states, events, i, n, p)
    ensures r in states[n].atts.sinks
    decreases n
  {
    if i + 1 < n {
      AttendantsKnown(endFails, attFails, states, events, i, n - 1, r);
      StepAttendants(endFails, attFails, states, events, n - 1, r, initial, p);
      AttendantKnows(endFails, attFails, states, events, i, n - 1, r, initial, p);
    } else {
      assert ManagerStep(endFails, attFails, states[i], events[i], states[n]);
      assert states[n].atts.calls[r] == [];
    }
  }

  lemma {:induction false} AttendantsKnown(endFails: Failures, attFails: Failures, states: seq<State>, events: seq<Event>, i: nat, n: nat, r: Reg)
    requires ManagerRun(endFails, attFails, states, events) && i < n <= |events| && events[i] == AttendantsRegistered(r)
    ensures r in states[n].atts.calls
    decreases n
  {
    assert ManagerStep(endFails, attFails, states[n-1], events[n-1], states[n]);
    if i + 1 < n {
      AttendantsKnown(endFails, attFails, states, events, i, n - 1, r);
    }
  }

  lemma StepAttendants(endFails: Failures, attFails: Failures, states: seq<State>, events: seq<Event>, k: nat,
                       r: Reg, initial: set<string>, p: string)
    requires ManagerRun(endFails, attFails, states, events) && k < |events|
    requires r in states[k].atts.calls && Sound(attFails, states[k+1].atts, r)
    ensures Sound(attFails, states[k].atts, r)
    ensures r in states[k].atts.sinks ==>
              && r in states[k+1].atts.sinks
              && var was, now := p in Replica(initial, states[k].atts.calls[r]), p in Replica(initial, states[k+1].atts.calls[r]);
                 if Touches(states, events, k, p) then now <==> p in states[k+1].room
                 else (now <==> was) && (p in states[k+1].room <==> p in states[k].room)
  {
    var s, e, t := states[k], events[k], states[k+1];
    assert ManagerStep(endFails, attFails, s, e, t);
    if e.Added? || e.Removed? || (e.Ensured? && e.who !in s.room) {
      var a := if e.Removed? then Left(e.who) else Joined(e.who);
      assert t.atts == Sent(attFails, s.atts, a);
      SentKeeps(attFails, s.atts, a, r);
      if r in s.atts.sinks {
        assert t.atts.calls[r][..|t.atts.calls[r]| - 1] == s.atts.calls[r];
      }
    }
  }

  /** In particular a subscriber that registers with the room as it was listed follows it exactly. */
  lemma AttendantFollows(endFails: Failures, attFails: Failures, states: seq<State>, events: seq<Event>,
                         i: nat, n: nat, r: Reg, initial: seq<string>)
    requires ManagerRun(endFails, attFails, states, events) && i < n <= |events|
    requires events[i] == AttendantsRegistered(r) && IsListing(initial, states[i].room.Keys)
    requires Sound(attFails, states[n].atts, r)
    ensures AttendantAgrees(states[n], r, set k | k in initial)
  {
    var known := set k | k in initial;
    forall p ensures p in Replica(known, states[n].atts.calls[r]) <==> p in states[n].room.Keys {
      AttendantKnows(endFails, attFails, states, events, i, n, r, known, p);
    }
  }

  /**
   The handler lists the room at some position l before it registers at i. The subscriber
   is then right about a peer if and only if the peer was in the room at both positions or
   at neither, or the subscribers have been told of that peer since the registration.
  */
  lemma AttendantKnowsSinceListing(endFails: Failures, attFails: Failures, states: seq<State>, events: seq<Event>,
                                   l: nat, i: nat, n: nat, r: Reg, initial: seq<string>, p: string)
    requires ManagerRun(endFails, attFails, states, events) && l <= i < n <= |events|
    requires IsListing(initial, states[l].room.Keys) && events[i] == AttendantsRegistered(r)
    requires Sound(attFails, states[n].atts, r)
    ensures r in states[n].atts.calls
    ensures (p in Replica((set k | k in initial), states[n].atts.calls[r]) <==> p in states[n].room) <==>
              (p in states[l].room <==> p in states[i].room) || TouchedBetween(states, events, i, n, p)
  {
    AttendantsKnown(endFails, attFails, states, events, i, n, r);
    AttendantKnows(endFails, attFails, states, events, i, n, r, (set k | k in initial), p);
  }

  /** A run in which a joins and lists the room, b joins, and only then a's handler registers: it never hears of b. */
  lemma AttendantCanMiss(endFails: Failures, attFails: Failures) returns (states: seq<State>, events: seq<Event>)
    ensures ManagerRun(endFails, attFails, states, events)
    ensures events == [Added("a", 0), Added("b", 1), AttendantsRegistered(0)]
    ensures IsListing(["a"], states[1].room.Keys)
    ensures 0 in states[3].atts.sinks && Sound(attFails, states[3].atts, 0)
    ensures "b" in states[3].room && !AttendantAgrees(states[3], 0, {"a"})
  {
    var none: Cast<seq<string>>, none' := Cast({}, 0, map[]), Cast({}, 0, map[]);
    var s0 := State(map[], none, none');
    var s1 := State(map["a" := 0], none, none');
    var s2 := State(map["a" := 0, "b" := 1], none, none');
    var s3 := s2.(atts := Cast({0}, 1, map[0 := []]));
    assert IsListing(["a"], s1.room.Keys) && IsListing(["a", "b"], s2.room.Keys);
    NobodyCalled(endFails, ["a"]);
    NobodyCalled(endFails, ["a", "b"]);
    NobodyCalled(attFails, Joined("a"));
    NobodyCalled(attFails, Joined("b"));
    states, events := [s0, s1, s2, s3], [Added("a", 0), Added("b", 1), AttendantsRegistered(0)];
    assert "b" !in Replica({"a"}, []);
  }

  lemma NobodyCalled<M>(fails: Failures, m: M)
    ensures Sent(fails, Cast({}, 0, map[]), m) == Cast({}, 0, map[])
  {
  }
}
