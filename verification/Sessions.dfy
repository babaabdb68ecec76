/** Sign-in sessions (roomdb/sqlite/auth_withssb.go). Times are nanoseconds since the epoch. */
module SessionService {
  import opened Prelude
  import opened Storage

  const SECOND := 1_000_000_000
  const DAY := 86_400_000_000_000
  const TRIES := 100

  /** CURRENT_TIMESTAMP. */
  function Stamp(now: nat): nat {
    now / SECOND * SECOND
  }

  ghost predicate SessionsOk(m: MemberTable, t: SessionTable) {
    && (forall k :: k in t.rows ==> t.rows[k].id < t.next && t.rows[k].member in m.rows)
    && (forall j, k :: j in t.rows && k in t.rows && t.rows[j].id == t.rows[k].id ==> j == k)
  }

  function Stored(t: SessionTable, token: string, member: nat, now: nat): SessionTable {
    SessionTable(t.rows[token := Session(t.next, member, Stamp(now))], t.next + 1)
  }

  function Without(t: SessionTable, token: string): SessionTable {
    t.(rows := t.rows - {token})
  }

  lemma StoreThenRemove(t: SessionTable, token: string, member: nat, now: nat)
    requires token !in t.rows
    ensures Without(Stored(t, token, member, now), token).rows == t.rows
  {
  }

  function Wiped(t: SessionTable, member: nat): SessionTable {
    t.(rows := map k | k in t.rows && t.rows[k].member != member :: t.rows[k])
  }

  /** created_at < date('now', '-1 day'): the row's date is before yesterday's. */
  predicate IsStale(s: Session, now: nat) {
    s.createdAt / DAY < now / DAY - 1
  }

  function Swept(t: SessionTable, now: nat): SessionTable {
    t.(rows := map k | k in t.rows && !IsStale(t.rows[k], now) :: t.rows[k])
  }

  /** What CheckToken answers. */
  function Answer(t: SessionTable, token: string, now: nat): Option<nat> {
    if token in t.rows && now - t.rows[token].createdAt <= DAY then Some(t.rows[token].member) else None
  }

  ghost predicate HasFreshToken(t: SessionTable, draw: nat -> string) {
    exists i: nat :: i < TRIES && draw(i) !in t.rows
  }

  class AuthWithSSB {
    const db: Database

    constructor (d: Database)
      ensures db == d
    {
      db := d;
    }

    ghost predicate Valid()
      reads db
    {
      SessionsOk(db.members, db.sessions)
    }

    method CreateToken(member: nat, now: nat, draw: nat -> string) returns (r: Result<string>, tries: nat)
      requires Valid()
      modifies db`sessions
      ensures Valid() && tries <= 100
      ensures r.Ok? <==> member in db.members.rows && HasFreshToken(old(db.sessions), draw)
      ensures r.Ok? ==> 0 < tries && r.value == draw(tries - 1) && r.value !in old(db.sessions).rows
      ensures forall i: nat :: i < tries - 1 ==> draw(i) in old(db.sessions).rows
      ensures db.sessions == if r.Ok? then Stored(old(db.sessions), r.value, member, now) else old(db.sessions)
      ensures r.Ok? ==>
        db.sessions.rows == old(db.sessions).rows[r.value := Session(old(db.sessions).next, member, now / SECOND * SECOND)]
    {
      tries := 0;
      if member !in db.members.rows {
        return Err("roomdb: object not found"), tries;
      }
      while tries < TRIES
        invariant tries <= TRIES
        invariant forall i: nat :: i < tries ==> draw(i) in db.sessions.rows
      {
        var token := draw(tries);
        tries := tries + 1;
        if token !in db.sessions.rows {
          db.sessions := Stored(db.sessions, token, member, now);
          return Ok(token), tries;
        }
      }
      return Err("admindb: failed to generate a fresh token in a reasonable amount of time"), tries;
    }

    /** An expired row is deleted in a transaction that the error then rolls back. */
    method CheckToken(token: string, now: nat) returns (r: Result<nat>)
      modifies db`sessions
      ensures db.sessions == old(db.sessions)
      ensures r.Ok? <==> Answer(db.sessions, token, now).Some?
      ensures r.Ok? ==> Answer(db.sessions, token, now) == Some(r.value)
      ensures r.Ok? <==> token in db.sessions.rows && now - db.sessions.rows[token].createdAt <= DAY
      ensures r.Ok? ==> r.value == db.sessions.rows[token].member
    {
      var saved := db.sessions;
      if token !in db.sessions.rows {
        return Err("roomdb: object not found");
      }
      var session := db.sessions.rows[token];
      if now - session.createdAt > DAY {
        db.sessions := Without(db.sessions, token);
        db.sessions := saved;
        return Err("sign-in with ssb: session expired");
      }
      return Ok(session.member);
    }

    method RemoveToken(token: string)
      requires Valid()
      modifies db`sessions
      ensures Valid() && db.sessions == Without(old(db.sessions), token)
      ensures db.sessions.rows == old(db.sessions).rows - {token}
    {
      db.sessions := Without(db.sessions, token);
    }

    method WipeTokensForMember(member: nat)
      requires Valid()
      modifies db`sessions
      ensures Valid() && db.sessions == Wiped(old(db.sessions), member)
      ensures forall k :: k in db.sessions.rows <==> k in old(db.sessions).rows && old(db.sessions).rows[k].member != member
      ensures forall k :: k in db.sessions.rows ==> db.sessions.rows[k] == old(db.sessions).rows[k]
    {
      db.sessions := Wiped(db.sessions, member);
    }

    method DeleteExpired(now: nat)
      requires Valid()
      modifies db`sessions
      ensures Valid() && db.sessions == Swept(old(db.sessions), now)
      ensures forall k :: k in db.sessions.rows <==>
        k in old(db.sessions).rows && now / DAY - old(db.sessions).rows[k].createdAt / DAY <= 1
      ensures forall k :: k in db.sessions.rows ==> db.sessions.rows[k] == old(db.sessions).rows[k]
    {
      db.sessions := Swept(db.sessions, now);
    }
  }

  // ---- Runs with a clock that does not go back ----

  datatype Event =
    | Store(token: string, member: nat)
    | Check(token: string)
    | Remove(token: string)
    | Wipe(member: nat)
    | Sweep

  ghost predicate Happens(t: SessionTable, e: Event, now: nat, u: SessionTable) {
    match e
    case Store(token, m) => token !in t.rows && u == Stored(t, token, m, now)
    case Check(_) => u == t
    case Remove(token) => u == Without(t, token)
    case Wipe(m) => u == Wiped(t, m)
    case Sweep => u == Swept(t, now)
  }

  ghost predicate IdsBelow(t: SessionTable) {
    forall k :: k in t.rows ==> t.rows[k].id < t.next
  }

  ghost predicate IsRun(states: seq<SessionTable>, events: seq<Event>, times: seq<nat>) {
    && |states| == |events| + 1 && |times| == |events|
    && IdsBelow(states[0])
    && (forall i, j :: 0 <= i < j < |times| ==> times[i] <= times[j])
    && (forall i :: 0 <= i < |events| ==> Happens(states[i], events[i], times[i], states[i+1]))
  }

  lemma StaleIsOld(s: Session, now: nat)
    ensures IsStale(s, now) ==> now - s.createdAt > DAY
    ensures now - s.createdAt >= 2 * DAY ==> IsStale(s, now)
  {
    var a, b := s.createdAt / DAY, now / DAY;
    assert a * DAY <= s.createdAt < (a + 1) * DAY;
    assert b * DAY <= now < (b + 1) * DAY;
    if a < b - 1 {
      assert (a + 1) * DAY <= (b - 1) * DAY;
    }
  }

  /** Cleanup works on whole days, and never drops a session CheckToken would accept then or later. */
  lemma SweepSparesAccepted(t: SessionTable, token: string, now: nat, sweepAt: nat)
    requires sweepAt <= now && Answer(t, token, now).Some?
    ensures Answer(Swept(t, sweepAt), token, now) == Answer(t, token, now)
  {
    StaleIsOld(t.rows[token], sweepAt);
  }

  /** A cleanup drops every row that is two days old, and can leave one that will be in a nanosecond. */
  lemma SweepWithinTwoDays(t: SessionTable, token: string, now: nat)
    ensures token in Swept(t, now).rows ==> now - t.rows[token].createdAt < 2 * DAY
    ensures exists u: SessionTable, at: nat :: token in u.rows && at - u.rows[token].createdAt == 2 * DAY - 1 && token in Swept(u, at).rows
  {
    if token in t.rows {
      StaleIsOld(t.rows[token], now);
    }
    var u := SessionTable(map[token := Session(0, 0, 0)], 1);
    var at: nat := 2 * DAY - 1;
    assert at - u.rows[token].createdAt == 2 * DAY - 1 && token in Swept(u, at).rows;
  }

  /** Nothing but event i concerns the token of the session stored there. */
  ghost predicate LeftAlone(events: seq<Event>, i: nat, n: nat)
    requires i < n <= |events| && events[i].Store?
  {
    forall j :: i < j < n ==>
      match events[j]
      case Store(token, _) => token != events[i].token
      case Remove(token) => token != events[i].token
      case Wipe(m) => m != events[i].member
      case _ => true
  }

  lemma {:induction false} StoredSessionFate(states: seq<SessionTable>, events: seq<Event>, times: seq<nat>, i: nat, n: nat)
    requires IsRun(states, events, times) && i < n <= |events| && events[i].Store? && LeftAlone(events, i, n)
    ensures var s := Session(states[i].next, events[i].member, Stamp(times[i]));
            if events[i].token in states[n].rows then states[n].rows[events[i].token] == s
            else times[n-1] - s.createdAt > DAY
    decreases n
  {
    if i + 1 < n {
      StoredSessionFate(states, events, times, i, n - 1);
      assert Happens(states[n-1], events[n-1], times[n-1], states[n]);
      if events[i].token in states[n-1].rows {
        StaleIsOld(states[n-1].rows[events[i].token], times[n-1]);
      }
    } else {
      assert Happens(states[i], events[i], times[i], states[n]);
    }
  }

  /**
   The life of a session in every run: as long as it is neither removed nor wiped
   (nor its token drawn again), CheckToken accepts it exactly for the 24 hours after
   the second it was stored in, whatever cleanups and checks happen meanwhile.
  */
  lemma SessionLifetime(states: seq<SessionTable>, events: seq<Event>, times: seq<nat>, i: nat, n: nat, now: nat)
    requires IsRun(states, events, times) && i < n <= |events| && events[i].Store? && LeftAlone(events, i, n)
    requires times[n-1] <= now
    ensures Answer(states[n], events[i].token, now) ==
            if now - Stamp(times[i]) <= DAY then Some(events[i].member) else None
  {
    StoredSessionFate(states, events, times, i, n);
  }

  /** A row id names the same row for as long as it is in the table. */
  lemma {:induction false} RowIdsStay(states: seq<SessionTable>, events: seq<Event>, times: seq<nat>, i: nat, n: nat)
    requires IsRun(states, events, times) && i <= n <= |events|
    ensures IdsBelow(states[n]) && states[i].next <= states[n].next
    ensures forall k :: k in states[n].rows && states[n].rows[k].id < states[i].next ==>
              k in states[i].rows && states[i].rows[k] == states[n].rows[k]
    decreases n
  {
    if n > 0 {
      RowIdsStay(states, events, times, if i < n then i else n - 1, n - 1);
      assert Happens(states[n-1], events[n-1], times[n-1], states[n]);
    }
  }

  /** A row refused for its age is refused for good: no later check accepts that row. */
  lemma RefusedForGood(states: seq<SessionTable>, events: seq<Event>, times: seq<nat>, i: nat, n: nat,
                       token: string, refusedAt: nat, now: nat)
    requires IsRun(states, events, times) && i <= n <= |events| && refusedAt <= now
    requires token in states[i].rows && Answer(states[i], token, refusedAt).None?
    ensures token in states[n].rows && states[n].rows[token].id == states[i].rows[token].id ==>
              Answer(states[n], token, now).None?
  {
    RowIdsStay(states, events, times, i, i);
    RowIdsStay(states, events, times, i, n);
  }

  /** CURRENT_TIMESTAMP is the time, cut to the whole second. */
  lemma StampIsTheSecond(now: nat)
    ensures Stamp(now) % 1_000_000_000 == 0 && Stamp(now) <= now < Stamp(now) + 1_000_000_000
  {
  }

  ghost predicate HasRow(t: SessionTable, token: string, row: Session) {
    token in t.rows && t.rows[token] == row
  }

  /** The event removes whatever row of this kind has the token. */
  predicate Removes(e: Event, at: nat, token: string, row: Session) {
    e == Remove(token) || e == Wipe(row.member) || (e.Sweep? && IsStale(row, at))
  }

  lemma StepRow(t: SessionTable, e: Event, at: nat, u: SessionTable, token: string, row: Session)
    requires Happens(t, e, at, u)
    ensures HasRow(u, token, row) <==>
              (e == Store(token, row.member) && row == Session(t.next, row.member, Stamp(at))) ||
              (HasRow(t, token, row) && !Removes(e, at, token, row))
  {
  }

  lemma {:induction false} RowOrigin(states: seq<SessionTable>, events: seq<Event>, times: seq<nat>, n: nat, token: string, row: Session)
      returns (i: nat)
    requires IsRun(states, events, times) && n <= |events| && states[0].rows == map[] && HasRow(states[n], token, row)
    ensures i < n && events[i] == Store(token, row.member) && LeftAlone(events, i, n)
    ensures row.createdAt == Stamp(times[i])
  {
    if n == 0 {
      assert false;
    }
    StepRow(states[n-1], events[n-1], times[n-1], states[n], token, row);
    if HasRow(states[n-1], token, row) {
      i := RowOrigin(states, events, times, n - 1, token, row);
    } else {
      i := n - 1;
    }
  }

  /**
   Whom CheckToken lets in, after every run from an empty table: exactly the member for whom
   the token was stored, at most 24 hours after that second, and only if it has been neither
   removed nor wiped since.
  */
  lemma AnswersWhatWasStored(states: seq<SessionTable>, events: seq<Event>, times: seq<nat>, n: nat, token: string, m: nat, now: nat)
    requires IsRun(states, events, times) && n <= |events| && states[0].rows == map[]
    requires forall i :: 0 <= i < n ==> times[i] <= now
    ensures Answer(states[n], token, now) == Some(m) <==>
              exists i: nat :: i < n && events[i] == Store(token, m) && LeftAlone(events, i, n) && now - Stamp(times[i]) <= 24 * 60 * 60 * 1_000_000_000
  {
    if Answer(states[n], token, now).Some? {
      var row := states[n].rows[token];
      var i := RowOrigin(states, events, times, n, token, row);
      assert row.member == m ==> events[i] == Store(token, m);
    }
    if i: nat :| i < n && events[i] == Store(token, m) && LeftAlone(events, i, n) && now - Stamp(times[i]) <= DAY {
      SessionLifetime(states, events, times, i, n, now);
    }
  }
}
