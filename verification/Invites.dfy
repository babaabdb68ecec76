/** Invites (roomdb/sqlite/invites.go): single-use tokens, stored by the hash of their bytes. */
module Tokens {
  import opened Prelude
  import opened Base64

  const TOKEN_LENGTH := 50
  const TRIES := 100

  /** sha256 in hex; nothing is assumed about it. */
  type Hash = seq<byte> -> string

  function GetHashedToken(hash: Hash, token: string): (r: Result<string>)
    ensures r.Ok? ==> Decode(Url, token).Ok? && |Decode(Url, token).value| == TOKEN_LENGTH && r.value == hash(Decode(Url, token).value)
  {
    var b := Decode(Url, token);
    if b.Err? then Err(b.reason)
    else if |b.value| != TOKEN_LENGTH then Err("roomdb: invalid invite token length")
    else Ok(hash(b.value))
  }

  /** What rand.Read puts into the token buffer on each try. */
  ghost predicate Draws(draw: nat -> seq<byte>) {
    forall i: nat :: |draw(i)| == TOKEN_LENGTH
  }

  /** Try i is the first whose hash is not taken, within the tries allowed. */
  ghost predicate FirstFree(hash: Hash, draw: nat -> seq<byte>, taken: set<string>, i: nat) {
    i < TRIES && hash(draw(i)) !in taken && forall j: nat :: j < i ==> hash(draw(j)) in taken
  }

  /** The retry loop around an insert that can only fail on a taken hash. */
  method DrawFree(hash: Hash, draw: nat -> seq<byte>, taken: set<string>) returns (r: Option<nat>)
    requires Draws(draw)
    ensures r.Some? ==> FirstFree(hash, draw, taken, r.value)
    ensures r.None? ==> forall i: nat :: i < TRIES ==> hash(draw(i)) in taken
  {
    var i := 0;
    while i < TRIES
      invariant i <= TRIES
      invariant forall j: nat :: j < i ==> hash(draw(j)) in taken
    {
      if hash(draw(i)) !in taken {
        return Some(i);
      }
      i := i + 1;
    }
    return None;
  }

  /** The encoded token leads back to the hash of the bytes it was made from. */
  lemma TokenLeadsToHash(hash: Hash, bytes: seq<byte>)
    requires |bytes| == TOKEN_LENGTH
    ensures GetHashedToken(hash, Encode(Url, bytes)) == Ok(hash(bytes))
  {
    DecodeEncode(Url, bytes);
  }
}

module InviteService {
  import opened Prelude
  import opened Base64
  import opened Feeds
  import opened Tokens
  import opened Storage
  import MemberService

  datatype PrivacyMode = Open | Community | Restricted

  ghost predicate InvitesOk(m: MemberTable, t: InviteTable) {
    && MembersOk(m)
    && (forall h :: h in t.rows ==> t.rows[h].about.id < t.next && t.rows[h].about.createdBy in m.rows)
    && (forall g, h :: g in t.rows && h in t.rows && t.rows[g].about.id == t.rows[h].about.id ==> g == h)
  }

  function WithInvite(t: InviteTable, h: string, creator: nat): InviteTable {
    InviteTable(t.rows[h := OneTime(true, Invite(t.next, creator))], t.next + 1)
  }

  /** Who an invite is booked on: -1 stands for anyone, which takes an open room with an admin. */
  ghost predicate MayCreate(m: MemberTable, mode: PrivacyMode, createdBy: int, creator: nat) {
    && creator in m.rows
    && (createdBy == creator || (createdBy == -1 && mode.Open? && m.rows[creator].role.Admin?))
  }

  class Invites {
    const db: Database
    const hash: Hash

    constructor (d: Database, h: Hash)
      ensures db == d && hash == h
    {
      db, hash := d, h;
    }

    ghost predicate Valid()
      reads db
    {
      InvitesOk(db.members, db.invites)
    }

    ghost function Now(): State
      reads db
    {
      State(db.members, db.invites)
    }

    /** The member an invite is to be booked on; only for -1 is it looked up. */
    method Booked(createdBy: int, mode: PrivacyMode) returns (creator: Option<int>)
      requires Valid()
      ensures creator.None? ==> createdBy == -1 && forall c :: !MayCreate(db.members, mode, createdBy, c)
      ensures creator.Some? ==> forall c :: MayCreate(db.members, mode, createdBy, c) ==> creator.value in db.members.rows
      ensures creator.Some? && creator.value in db.members.rows ==> MayCreate(db.members, mode, createdBy, creator.value)
    {
      if createdBy != -1 {
        return Some(createdBy);
      }
      if !mode.Open? {
        return None;
      }
      if m :| m in db.members.rows && db.members.rows[m].role.Admin? {
        return Some(m);
      }
      return None;
    }

    /** On success, i is the try whose token was inserted and c the member it is booked on. */
    method Create(createdBy: int, mode: PrivacyMode, draw: nat -> seq<byte>)
      returns (r: Result<string>, ghost i: nat, ghost c: nat)
      requires Valid() && Draws(draw)
      modifies db`invites
      ensures Valid()
      ensures r.Err? ==> db.invites == old(db.invites)
      ensures r.Err? ==>
                || (forall m :: !MayCreate(db.members, mode, createdBy, m))
                || (forall n: nat :: !FirstFree(hash, draw, old(db.invites.rows).Keys, n))
      ensures r.Ok? ==>
        && FirstFree(hash, draw, old(db.invites.rows).Keys, i) && MayCreate(db.members, mode, createdBy, c)
        && r.value == Encode(Url, draw(i)) && GetHashedToken(hash, r.value) == Ok(hash(draw(i)))
        && Happens(old(Now()), Created(hash(draw(i)), c), Now())
        && i < 100 && |draw(i)| == 50
        && (createdBy != -1 ==> c == createdBy)
        && (createdBy == -1 ==> mode.Open? && db.members.rows[c].role.Admin?)
        && db.invites.rows == old(db.invites).rows[hash(draw(i)) := OneTime(true, Invite(old(db.invites).next, c))]
    {
      var creator := Booked(createdBy, mode);
      i, c := 0, 0;
      if creator.None? {
        return Err("roomdb: privacy mode not open or no admin available"), i, c;
      }
      var free := DrawFree(hash, draw, db.invites.rows.Keys);
      if free.None? {
        return Err("roomdb: failed to generate an invite token in a reasonable amount of time"), i, c;
      }
      if creator.value < 0 || creator.value !in db.members.rows {
        return Err("FOREIGN KEY constraint failed"), i, c;
      }
      i, c := free.value, creator.value;
      TokenLeadsToHash(hash, draw(free.value));
      db.invites := WithInvite(db.invites, hash(draw(free.value)), creator.value);
      StepKeeps(old(Now()), Created(hash(draw(i)), c), Now());
      return Ok(Encode(Url, draw(free.value))), i, c;
    }

    method Consume(token: string, newMember: FeedRef) returns (r: Result<Invite>)
      requires Valid()
      modifies db`invites, db`members
      ensures Valid()
      ensures var h := GetHashedToken(hash, token);
        && (r.Ok? <==> h.Ok? && IsActive(old(db.invites).rows, h.value))
        && (r.Ok? ==> r.value == old(db.invites).rows[h.value].about)
        && (if r.Ok? then Happens(old(Now()), Consumed(h.value, newMember), Now()) else Now() == old(Now()))
      ensures r.Ok? ==> db.invites.rows == old(db.invites).rows[GetHashedToken(hash, token).value := OneTime(false, r.value)]
      ensures r.Ok? ==> db.members.rows == if IsMember(old(db.members), newMember) then old(db.members).rows
                                           else old(db.members).rows[old(db.members).next := Member(newMember, Ordinary)]
    {
      var h := GetHashedToken(hash, token);
      if h.Err? {
        return Err(h.reason);
      }
      if !(h.value in db.invites.rows && db.invites.rows[h.value].active) {
        return Err("roomdb: object not found");
      }
      var entry := db.invites.rows[h.value].about;
      var tx, added := MemberService.Members.AddIn(db.members, newMember, Ordinary);
      db.members := tx;  // it is fine to use an invite as a member
      db.invites := db.invites.(rows := Spent(db.invites.rows, h.value));
      return Ok(entry);
    }

    method GetByToken(token: string) returns (r: Result<Invite>)
      ensures var h := GetHashedToken(hash, token);
        && (r.Ok? <==> h.Ok? && IsActive(db.invites.rows, h.value))
        && (r.Ok? ==> r.value == db.invites.rows[h.value].about)
    {
      var h := GetHashedToken(hash, token);
      if h.Err? {
        return Err(h.reason);
      }
      if h.value in db.invites.rows && db.invites.rows[h.value].active {
        return Ok(db.invites.rows[h.value].about);
      }
      return Err("roomdb: object not found");
    }

    method Revoke(id: nat) returns (ok: bool)
      requires Valid()
      modifies db`invites
      ensures Valid()
      ensures ok <==> exists h :: IsActive(old(db.invites).rows, h) && old(db.invites).rows[h].about.id == id
      ensures !ok ==> db.invites == old(db.invites)
      ensures forall h :: IsActive(old(db.invites).rows, h) && old(db.invites).rows[h].about.id == id ==> Happens(old(Now()), Revoked(h), Now())
    {
      if h :| h in db.invites.rows && db.invites.rows[h].active && db.invites.rows[h].about.id == id {
        assert IsActive(db.invites.rows, h);
        db.invites := db.invites.(rows := Spent(db.invites.rows, h));
        return true;
      }
      return false;
    }

    method DeleteConsumed()
      requires Valid()
      modifies db`invites
      ensures Valid() && Happens(old(Now()), Swept, Now())
      ensures forall h :: h in db.invites.rows <==> h in old(db.invites).rows && old(db.invites).rows[h].active
      ensures forall h :: h in db.invites.rows ==> db.invites.rows[h] == old(db.invites).rows[h]
    {
      db.invites := db.invites.(rows := Cleaned(db.invites.rows));
    }
  }

  // ---- Runs ----

  datatype State = State(members: MemberTable, invites: InviteTable)

  /** What the successful calls do, by the hash of the token they are about. Failed calls do nothing. */
  datatype Event =
    | Created(h: string, creator: nat)
    | Consumed(h: string, feed: FeedRef)
    | Revoked(h: string)
    | Swept
    | Joined(feed: FeedRef, role: Role)

  ghost predicate Happens(s: State, e: Event, t: State) {
    match e
    case Created(h, c) => h !in s.invites.rows && c in s.members.rows && t == s.(invites := WithInvite(s.invites, h, c))
    case Consumed(h, f) =>
      IsActive(s.invites.rows, h) && t == State(Admitted(s.members, f), s.invites.(rows := Spent(s.invites.rows, h)))
    case Revoked(h) => IsActive(s.invites.rows, h) && t == s.(invites := s.invites.(rows := Spent(s.invites.rows, h)))
    case Swept => t == s.(invites := s.invites.(rows := Cleaned(s.invites.rows)))
    case Joined(f, role) => !role.Unknown? && !IsMember(s.members, f) && t == s.(members := WithMember(s.members, f, role))
  }

  ghost predicate IsRun(states: seq<State>, events: seq<Event>) {
    && |states| == |events| + 1
    && InvitesOk(states[0].members, states[0].invites)
    && forall i :: 0 <= i < |events| ==> Happens(states[i], events[i], states[i+1])
  }

  ghost function CountCreated(events: seq<Event>, h: string): nat {
    if events == [] then 0
    else CountCreated(events[..|events|-1], h) + var e := events[|events|-1]; if e.Created? && e.h == h then 1 else 0
  }

  ghost function CountConsumed(events: seq<Event>, h: string): nat {
    if events == [] then 0
    else CountConsumed(events[..|events|-1], h) + var e := events[|events|-1]; if e.Consumed? && e.h == h then 1 else 0
  }

  ghost function CountRevoked(events: seq<Event>, h: string): nat {
    if events == [] then 0
    else CountRevoked(events[..|events|-1], h) + var e := events[|events|-1]; if e.Revoked? && e.h == h then 1 else 0
  }

  lemma CreatedKeeps(m: MemberTable, t: InviteTable, h: string, c: nat)
    requires InvitesOk(m, t) && c in m.rows
    ensures InvitesOk(m, WithInvite(t, h, c))
  {
  }

  /** Spending and sweeping leave what the rows are about alone, and members only become more. */
  lemma RowsKeep(m: MemberTable, t: InviteTable, m': MemberTable, t': InviteTable)
    requires InvitesOk(m, t) && MembersOk(m') && m.rows.Keys <= m'.rows.Keys && t'.next == t.next
    requires forall h :: h in t'.rows ==> h in t.rows && t'.rows[h].about == t.rows[h].about
    ensures InvitesOk(m', t')
  {
  }

  lemma SpentKeeps(m: MemberTable, t: InviteTable, m': MemberTable, h: string)
    requires InvitesOk(m, t) && MembersOk(m') && m.rows.Keys <= m'.rows.Keys
    ensures InvitesOk(m', t.(rows := Spent(t.rows, h)))
  {
    RowsKeep(m, t, m', t.(rows := Spent(t.rows, h)));
  }

  lemma StepKeeps(s: State, e: Event, t: State)
    requires InvitesOk(s.members, s.invites) && Happens(s, e, t)
    ensures InvitesOk(t.members, t.invites)
  {
    StepKeepsMembers(s, e, t);
    match e
    case Created(h, creator) => CreatedKeeps(s.members, s.invites, h, creator);
    case Joined(_, _) => RowsKeep(s.members, s.invites, t.members, s.invites);
    case Consumed(h, _) => SpentKeeps(s.members, s.invites, t.members, h);
    case Revoked(h) => SpentKeeps(s.members, s.invites, s.members, h);
    case Swept => RowsKeep(s.members, s.invites, s.members, t.invites);
  }

  /**
   Conservation, for every run and every token hash: invites created (on top of one
   that was active at the start) are consumed, revoked or still active, each once.
  */
  lemma {:induction false} InvitesConserved(states: seq<State>, events: seq<Event>, h: string)
    requires IsRun(states, events)
    ensures InvitesOk(states[|events|].members, states[|events|].invites)
    ensures ActiveRows(states[0].invites.rows, h) + CountCreated(events, h) ==
            CountConsumed(events, h) + CountRevoked(events, h) + ActiveRows(states[|events|].invites.rows, h)
    decreases |events|
  {
    var n := |events|;
    if n > 0 {
      InvitesConserved(states[..n], events[..n-1], h);
      StepKeeps(states[n-1], events[n-1], states[n]);
    }
  }

  /** A member once admitted keeps id, feed and role, and every consumer of an invite is a member from then on. */
  lemma {:induction false} MembersStay(states: seq<State>, events: seq<Event>, i: nat, n: nat)
    requires IsRun(states, events) && i <= n <= |events|
    ensures forall id :: id in states[i].members.rows ==>
              id in states[n].members.rows && states[n].members.rows[id] == states[i].members.rows[id]
    ensures i < n && events[i].Consumed? ==> IsMember(states[n].members, events[i].feed)
    ensures MembersOk(states[n].members)
    decreases n
  {
    if n == 0 {
    } else if i == n {
      MembersStay(states, events, n - 1, n - 1);
      StepKeepsMembers(states[n-1], events[n-1], states[n]);
    } else {
      MembersStay(states, events, i, n - 1);
      StepKeepsMembers(states[n-1], events[n-1], states[n]);
      if events[i].Consumed? && i < n - 1 {
        var id :| id in states[n-1].members.rows && states[n-1].members.rows[id].feed == events[i].feed;
        assert states[n].members.rows[id] == states[n-1].members.rows[id];
      }
    }
  }

  lemma StepKeepsMembers(s: State, e: Event, t: State)
    requires MembersOk(s.members) && Happens(s, e, t)
    ensures MembersOk(t.members)
    ensures s.members.rows.Keys <= t.members.rows.Keys
    ensures forall id :: id in s.members.rows ==> t.members.rows[id] == s.members.rows[id]
    ensures e.Consumed? ==> IsMember(t.members, e.feed)
  {
    if e.Consumed? && !IsMember(s.members, e.feed) {
      WithMemberKeeps(s.members, e.feed, Ordinary);
    } else if e.Joined? {
      WithMemberKeeps(s.members, e.feed, e.role);
    }
  }

  /** The event makes this row: an add with its role, or an invite consumed by a feed that is new. */
  ghost predicate Admits(s: State, e: Event, row: Member) {
    || e == Joined(row.feed, row.role)
    || (e.Consumed? && row == Member(e.feed, Ordinary) && !IsMember(s.members, e.feed))
  }

  ghost predicate HasMember(t: MemberTable, row: Member) {
    exists id :: id in t.rows && t.rows[id] == row
  }

  lemma StepAdmits(s: State, e: Event, t: State, row: Member)
    requires MembersOk(s.members) && Happens(s, e, t)
    ensures HasMember(t.members, row) <==> HasMember(s.members, row) || Admits(s, e, row)
  {
    if e.Joined? {
      NewRow(s.members, e.feed, e.role, row);
    } else if e.Consumed? && !IsMember(s.members, e.feed) {
      NewRow(s.members, e.feed, Ordinary, row);
    }
  }

  lemma NewRow(t: MemberTable, f: FeedRef, role: Role, row: Member)
    requires MembersOk(t)
    ensures HasMember(WithMember(t, f, role), row) <==> HasMember(t, row) || row == Member(f, role)
  {
    var u := WithMember(t, f, role);
    assert u.rows[t.next] == Member(f, role);
    if id :| id in t.rows && t.rows[id] == row {
      assert u.rows[id] == row;
    }
  }

  /**
   Who is a member, and with which role, after every run: those of the start, those added
   with that role, and, as ordinary members, those who consumed an invite when they were new.
  */
  lemma {:induction false} MembersAreAdmitted(states: seq<State>, events: seq<Event>, n: nat, row: Member)
    requires IsRun(states, events) && n <= |events|
    ensures HasMember(states[n].members, row) <==>
              HasMember(states[0].members, row) || exists i :: 0 <= i < n && Admits(states[i], events[i], row)
  {
    if n > 0 {
      MembersAreAdmitted(states, events, n - 1, row);
      MembersStay(states, events, n - 1, n - 1);
      StepAdmits(states[n-1], events[n-1], states[n], row);
    }
  }

  /** In particular invites make nobody an admin or moderator. */
  lemma InvitesGiveNoPower(states: seq<State>, events: seq<Event>, n: nat, row: Member)
    requires IsRun(states, events) && n <= |events|
    requires HasMember(states[n].members, row) && !row.role.Ordinary?
    ensures HasMember(states[0].members, row) || exists i :: 0 <= i < n && events[i] == Joined(row.feed, row.role)
  {
    MembersAreAdmitted(states, events, n, row);
  }

  ghost predicate HasActive(t: InviteTable, h: string, about: Invite) {
    IsActive(t.rows, h) && t.rows[h].about == about
  }

  /** Event i created the invite, and it has been neither consumed nor revoked before n. */
  ghost predicate IsUnused(states: seq<State>, events: seq<Event>, i: nat, n: nat, h: string, about: Invite)
    requires n <= |events| < |states|
  {
    && i < n && events[i] == Created(h, about.createdBy) && about.id == states[i].invites.next
    && forall j :: i < j < n ==> !Uses(events[j], h)
  }

  predicate Uses(e: Event, h: string) {
    (e.Consumed? || e.Revoked?) && e.h == h
  }

  lemma StepActive(s: State, e: Event, t: State, h: string, about: Invite)
    requires Happens(s, e, t)
    ensures HasActive(t.invites, h, about) <==>
              (e == Created(h, about.createdBy) && about.id == s.invites.next) || (HasActive(s.invites, h, about) && !Uses(e, h))
  {
  }

  /** Which invites can be used, and whose they are: exactly those created and not used since, whatever cleanups do. */
  lemma UnusedInvitesAreActive(states: seq<State>, events: seq<Event>, n: nat, h: string, about: Invite)
    requires IsRun(states, events) && n <= |events| && !IsActive(states[0].invites.rows, h)
    ensures HasActive(states[n].invites, h, about) <==> exists i: nat :: IsUnused(states, events, i, n, h, about)
  {
    var has := seq(|states|, j requires 0 <= j < |states| => HasActive(states[j].invites, h, about));
    var starts := seq(|events|, j requires 0 <= j < |events| => events[j] == Created(h, about.createdBy) && about.id == states[j].invites.next);
    var ends := seq(|events|, j requires 0 <= j < |events| => Uses(events[j], h));
    forall j | 0 <= j < |events| ensures has[j+1] <==> starts[j] || (has[j] && !ends[j]) {
      StepActive(states[j], events[j], states[j+1], h, about);
    }
    Lifetime(has, starts, ends, n);
    forall i: nat ensures Lasts(starts, ends, i, n) <==> IsUnused(states, events, i, n, h, about) {
      assert forall j :: 0 <= j < n ==> ends[j] == Uses(events[j], h);
    }
  }
}
