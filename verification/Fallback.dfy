/** Password sign-in and password resets (roomdb/sqlite/auth_fallback.go). */
module FallbackService {
  import opened Prelude
  import opened Base64
  import opened Feeds
  import opened Tokens
  import opened Storage

  /** bcrypt; generating may fail, and takes a salt. */
  datatype Bcrypt = Bcrypt(generate: (string, nat) -> Option<string>, compare: (string, string) -> bool)

  ghost predicate Ideal(b: Bcrypt) {
    forall p, salt, q {:trigger b.generate(p, salt), b.compare(b.generate(p, salt).value, q)} ::
      b.generate(p, salt).Some? ==> (b.compare(b.generate(p, salt).value, q) <==> p == q)
  }

  datatype State = State(members: MemberTable, aliases: AliasTable, passwords: PasswordTable, resets: ResetTable)

  /** No member has two password rows. */
  ghost predicate OnePassword(t: PasswordTable) {
    forall i, j :: i in t.rows && j in t.rows && t.rows[i].member == t.rows[j].member ==> i == j
  }

  ghost predicate PasswordsOk(m: MemberTable, t: PasswordTable) {
    && (forall id :: id in t.rows ==> id < t.next && t.rows[id].member in m.rows)
    && OnePassword(t)
  }

  ghost predicate ResetsOk(m: MemberTable, t: ResetTable) {
    forall h :: h in t ==> t[h].about.createdBy in m.rows && t[h].about.forMember in m.rows
  }

  ghost predicate TablesOk(s: State) {
    MembersOk(s.members) && AliasesOk(s.members, s.aliases) && PasswordsOk(s.members, s.passwords) && ResetsOk(s.members, s.resets)
  }

  ghost predicate HasPassword(t: PasswordTable, member: nat, hash: string) {
    exists row :: row in t.rows && t.rows[row] == Password(member, hash)
  }

  ghost predicate NoPassword(t: PasswordTable, member: nat) {
    forall row :: row in t.rows ==> t.rows[row].member != member
  }

  /** The upsert of a member's password row. */
  ghost predicate Written(t: PasswordTable, member: nat, hash: string, u: PasswordTable) {
    || (exists row :: row in t.rows && t.rows[row].member == member && u == t.(rows := t.rows[row := Password(member, hash)]))
    || (NoPassword(t, member) && u == PasswordTable(t.rows[t.next := Password(member, hash)], t.next + 1))
  }

  /** A login is an alias, or else the reference of a member. */
  ghost predicate LogsIn(s: State, login: string, member: nat) {
    if IsAlias(s.aliases, login)
    then exists id :: id in s.aliases.rows && s.aliases.rows[id].name == login && s.aliases.rows[id].member == member
    else member in s.members.rows && RefString(s.members.rows[member].feed) == login
  }

  /** The answer Check gives. */
  ghost predicate Accepts(b: Bcrypt, s: State, login: string, password: string, member: nat) {
    LogsIn(s, login, member) && exists h :: HasPassword(s.passwords, member, h) && b.compare(h, password)
  }

  class AuthFallback {
    const db: Database
    const hash: Hash
    const bcrypt: Bcrypt

    constructor (d: Database, h: Hash, b: Bcrypt)
      ensures db == d && hash == h && bcrypt == b
    {
      db, hash, bcrypt := d, h, b;
    }

    ghost function Now(): State
      reads db
    {
      State(db.members, db.aliases, db.passwords, db.resets)
    }

    ghost predicate Valid()
      reads db
    {
      TablesOk(Now())
    }

    method FindLogin(login: string) returns (member: Option<nat>)
      requires Valid()
      ensures member.Some? ==> LogsIn(Now(), login, member.value)
      ensures forall m: nat :: LogsIn(Now(), login, m) ==> member == Some(m)
    {
      if id :| id in db.aliases.rows && db.aliases.rows[id].name == login {
        return Some(db.aliases.rows[id].member);
      }
      if m :| m in db.members.rows && RefString(db.members.rows[m].feed) == login {
        forall n: nat | LogsIn(Now(), login, n) ensures n == m {
          RefStringInjective(db.members.rows[n].feed, db.members.rows[m].feed);
        }
        return Some(m);
      }
      return None;
    }

    method Check(login: string, password: string) returns (r: Result<nat>)
      requires Valid()
      ensures forall m: nat :: Accepts(bcrypt, Now(), login, password, m) <==> r == Ok(m)
    {
      var member := FindLogin(login);
      if member.None? {
        return Err("/fallback/login");
      }
      if row :| row in db.passwords.rows && db.passwords.rows[row].member == member.value {
        var found := db.passwords.rows[row];
        assert HasPassword(db.passwords, found.member, found.hash);
        if bcrypt.compare(found.hash, password) {
          return Ok(found.member);
        }
      }
      return Err("/fallback/login");
    }

    method SetPassword(member: nat, password: string, salt: nat) returns (ok: bool)
      requires Valid()
      modifies db`passwords
      ensures Valid()
      ensures ok <==> bcrypt.generate(password, salt).Some? && member in db.members.rows
      ensures if ok then Happens(bcrypt, old(Now()), PasswordSet(member, password, salt), Now()) else Now() == old(Now())
    {
      var hashed := bcrypt.generate(password, salt);
      if hashed.None? {
        return false;
      }
      ok := Upsert(member, hashed.value);
    }

    /** The row of the member is updated, or inserted; an insert checks that the member exists. */
    method Upsert(member: nat, hashed: string) returns (ok: bool)
      requires Valid()
      modifies db`passwords
      ensures Valid()
      ensures ok <==> member in db.members.rows
      ensures if ok then Written(old(db.passwords), member, hashed, db.passwords) else db.passwords == old(db.passwords)
    {
      var t := db.passwords;
      if row :| row in t.rows && t.rows[row].member == member {
        db.passwords := t.(rows := t.rows[row := Password(member, hashed)]);
        return true;
      }
      if member !in db.members.rows {
        return false;
      }
      db.passwords := PasswordTable(t.rows[t.next := Password(member, hashed)], t.next + 1);
      return true;
    }

    method SetPasswordWithToken(token: string, password: string, salt: nat) returns (ok: bool)
      requires Valid()
      modifies db`passwords, db`resets
      ensures Valid()
      ensures var h := GetHashedToken(hash, token);
        && (ok <==> bcrypt.generate(password, salt).Some? && h.Ok? && IsActive(old(db.resets), h.value))
        && if ok then Happens(bcrypt, old(Now()), ResetUsed(h.value, old(db.resets)[h.value].about.forMember, password, salt), Now())
           else Now() == old(Now())
    {
      var hashed := bcrypt.generate(password, salt);
      var h := GetHashedToken(hash, token);
      if hashed.None? || h.Err? {
        return false;
      }
      if !(h.value in db.resets && db.resets[h.value].active) {
        return false;
      }
      var entry := db.resets[h.value].about;
      var written := Upsert(entry.forMember, hashed.value);
      db.resets := Spent(db.resets, h.value);
      return true;
    }

    /** On success, i is the try whose token was inserted. */
    method CreateResetToken(createdBy: nat, forMember: nat, draw: nat -> seq<byte>) returns (r: Result<string>, ghost i: nat)
      requires Valid() && Draws(draw)
      modifies db`resets
      ensures Valid()
      ensures r.Err? ==> Now() == old(Now())
      ensures r.Err? ==>
                || createdBy !in db.members.rows || forMember !in db.members.rows
                || (forall n: nat :: !FirstFree(hash, draw, old(db.resets).Keys, n))
      ensures r.Ok? ==>
        && FirstFree(hash, draw, old(db.resets).Keys, i)
        && r.value == Encode(Url, draw(i)) && GetHashedToken(hash, r.value) == Ok(hash(draw(i)))
        && Happens(bcrypt, old(Now()), ResetIssued(hash(draw(i)), createdBy, forMember), Now())
        && i < 100 && |draw(i)| == 50
        && db.resets == old(db.resets)[hash(draw(i)) := OneTime(true, Reset(createdBy, forMember))]
    {
      i := 0;
      var free := DrawFree(hash, draw, db.resets.Keys);
      if free.None? {
        return Err("admindb: failed to generate an invite token in a reasonable amount of time"), i;
      }
      if createdBy !in db.members.rows || forMember !in db.members.rows {
        return Err("FOREIGN KEY constraint failed"), i;
      }
      i := free.value;
      TokenLeadsToHash(hash, draw(free.value));
      db.resets := db.resets[hash(draw(free.value)) := OneTime(true, Reset(createdBy, forMember))];
      return Ok(Encode(Url, draw(free.value))), i;
    }

    method DeleteConsumed()
      requires Valid()
      modifies db`resets
      ensures Valid() && Happens(bcrypt, old(Now()), Swept, Now())
      ensures forall h :: h in db.resets <==> h in old(db.resets) && old(db.resets)[h].active
      ensures forall h :: h in db.resets ==> db.resets[h] == old(db.resets)[h]
    {
      db.resets := Cleaned(db.resets);
    }
  }

  // ---- Runs ----

  datatype Event =
    | PasswordSet(member: nat, password: string, salt: nat)
    | ResetIssued(h: string, createdBy: nat, forMember: nat)
    | ResetUsed(h: string, member: nat, password: string, salt: nat)
    | Swept
    | Joined(feed: FeedRef, role: Role)
    | AliasTaken(name: string, member: nat, signature: seq<byte>)
    | AliasDropped(id: nat)

  ghost predicate Happens(b: Bcrypt, s: State, e: Event, t: State) {
    match e
    case PasswordSet(m, p, salt) =>
      && m in s.members.rows && b.generate(p, salt).Some?
      && Written(s.passwords, m, b.generate(p, salt).value, t.passwords) && t == s.(passwords := t.passwords)
    case ResetIssued(h, issuer, m) =>
      && h !in s.resets && issuer in s.members.rows && m in s.members.rows
      && t == s.(resets := s.resets[h := OneTime(true, Reset(issuer, m))])
    case ResetUsed(h, m, p, salt) =>
      && IsActive(s.resets, h) && m == s.resets[h].about.forMember && b.generate(p, salt).Some?
      && Written(s.passwords, m, b.generate(p, salt).value, t.passwords)
      && t == s.(passwords := t.passwords, resets := Spent(s.resets, h))
    case Swept => t == s.(resets := Cleaned(s.resets))
    case Joined(f, role) => !role.Unknown? && !IsMember(s.members, f) && t == s.(members := WithMember(s.members, f, role))
    case AliasTaken(name, m, sig) =>
      && !IsAlias(s.aliases, name) && m in s.members.rows
      && t == s.(aliases := WithAlias(s.aliases, name, m, sig))
    case AliasDropped(id) => t == s.(aliases := WithoutAlias(s.aliases, id))
  }

  ghost predicate IsRun(b: Bcrypt, states: seq<State>, events: seq<Event>) {
    && |states| == |events| + 1
    && TablesOk(states[0])
    && forall i :: 0 <= i < |events| ==> Happens(b, states[i], events[i], states[i+1])
  }

  lemma RunBefore(b: Bcrypt, states: seq<State>, events: seq<Event>)
    requires IsRun(b, states, events) && events != []
    ensures IsRun(b, states[..|events|], events[..|events|-1])
    ensures Happens(b, states[|events|-1], events[|events|-1], states[|events|])
  {
  }

  lemma WrittenKeeps(m: MemberTable, t: PasswordTable, member: nat, hash: string, u: PasswordTable)
    requires PasswordsOk(m, t) && member in m.rows && Written(t, member, hash, u)
    ensures PasswordsOk(m, u)
    ensures forall x, h :: HasPassword(u, x, h) <==> if x == member then h == hash else HasPassword(t, x, h)
  {
    forall x, h ensures HasPassword(u, x, h) <==> if x == member then h == hash else HasPassword(t, x, h) {
      if HasPassword(t, x, h) && x != member {
        var row :| row in t.rows && t.rows[row] == Password(x, h);
        assert u.rows[row] == Password(x, h);
      }
      if x == member && h == hash {
        if row :| row in t.rows && t.rows[row].member == member && u == t.(rows := t.rows[row := Password(member, hash)]) {
          assert u.rows[row] == Password(member, hash);
        } else {
          assert u.rows[t.next] == Password(member, hash);
        }
      }
    }
  }

  lemma ResetsKeep(m: MemberTable, t: ResetTable, u: ResetTable)
    requires ResetsOk(m, t)
    requires forall h :: h in u ==> (h in t && u[h].about == t[h].about) || (u[h].about.createdBy in m.rows && u[h].about.forMember in m.rows)
    ensures ResetsOk(m, u)
  {
  }

  lemma StepKeeps(b: Bcrypt, s: State, e: Event, t: State)
    requires TablesOk(s) && Happens(b, s, e, t)
    ensures TablesOk(t)
  {
    match e
    case PasswordSet(m, p, salt) => WrittenKeeps(s.members, s.passwords, m, b.generate(p, salt).value, t.passwords);
    case ResetUsed(_, m, p, salt) =>
      WrittenKeeps(s.members, s.passwords, m, b.generate(p, salt).value, t.passwords);
      ResetsKeep(s.members, s.resets, t.resets);
    case Joined(f, role) => WithMemberKeeps(s.members, f, role);
    case AliasTaken(name, m, sig) => WithAliasKeeps(s.members, s.aliases, name, m, sig);
    case AliasDropped(id) => WithoutAliasKeeps(s.members, s.aliases, id);
    case _ => ResetsKeep(s.members, s.resets, t.resets);
  }

  /** The password last stored for a member, and its salt. */
  ghost function LastPassword(events: seq<Event>, member: nat): Option<(string, nat)> {
    if events == [] then None
    else
      var e := events[|events|-1];
      if (e.PasswordSet? || e.ResetUsed?) && e.member == member then Some((e.password, e.salt))
      else LastPassword(events[..|events|-1], member)
  }

  lemma {:induction false} PasswordsFollow(b: Bcrypt, states: seq<State>, events: seq<Event>)
    requires IsRun(b, states, events) && states[0].passwords.rows == map[]
    ensures TablesOk(states[|events|])
    ensures forall m, h :: HasPassword(states[|events|].passwords, m, h) <==>
              LastPassword(events, m).Some? &&
              b.generate(LastPassword(events, m).value.0, LastPassword(events, m).value.1) == Some(h)
    decreases |events|
  {
    var n := |events|;
    if n > 0 {
      RunBefore(b, states, events);
      PasswordsFollow(b, states[..n], events[..n-1]);
      var s, e, t := states[n-1], events[n-1], states[n];
      StepKeeps(b, s, e, t);
      if e.PasswordSet? || e.ResetUsed? {
        WrittenKeeps(s.members, s.passwords, e.member, b.generate(e.password, e.salt).value, t.passwords);
      }
    }
  }

  lemma {:induction false} LastPasswordGenerates(b: Bcrypt, states: seq<State>, events: seq<Event>, m: nat)
    requires IsRun(b, states, events) && LastPassword(events, m).Some?
    ensures b.generate(LastPassword(events, m).value.0, LastPassword(events, m).value.1).Some?
    decreases |events|
  {
    var n := |events|;
    var e := events[n-1];
    RunBefore(b, states, events);
    if !((e.PasswordSet? || e.ResetUsed?) && e.member == m) {
      LastPasswordGenerates(b, states[..n], events[..n-1], m);
    }
  }

  /**
   After every run that starts without passwords no member has two password rows,
   and Check lets a login in as m exactly if it is an alias or the reference of m
   and the password is the one last stored for m.
  */
  lemma CheckFollowsLastPassword(b: Bcrypt, states: seq<State>, events: seq<Event>, login: string, password: string, m: nat)
    requires Ideal(b) && IsRun(b, states, events) && states[0].passwords.rows == map[]
    ensures OnePassword(states[|events|].passwords)
    ensures Accepts(b, states[|events|], login, password, m) <==>
              LogsIn(states[|events|], login, m) && LastPassword(events, m).Some? && LastPassword(events, m).value.0 == password
  {
    PasswordsFollow(b, states, events);
    var t := states[|events|].passwords;
    if LastPassword(events, m).Some? {
      LastPasswordGenerates(b, states, events, m);
      var (p, salt) := LastPassword(events, m).value;
      var h := b.generate(p, salt).value;
      assert HasPassword(t, m, h);
      assert b.compare(h, password) <==> p == password;
    }
  }

  ghost function CountIssued(events: seq<Event>, h: string): nat {
    if events == [] then 0
    else CountIssued(events[..|events|-1], h) + var e := events[|events|-1]; if e.ResetIssued? && e.h == h then 1 else 0
  }

  ghost function CountUsed(events: seq<Event>, h: string): nat {
    if events == [] then 0
    else CountUsed(events[..|events|-1], h) + var e := events[|events|-1]; if e.ResetUsed? && e.h == h then 1 else 0
  }

  lemma StepResets(b: Bcrypt, s: State, e: Event, t: State, h: string)
    requires Happens(b, s, e, t)
    ensures ActiveRows(s.resets, h) + (if e.ResetIssued? && e.h == h then 1 else 0) ==
            ActiveRows(t.resets, h) + (if e.ResetUsed? && e.h == h then 1 else 0)
  {
  }

  /** Reset tokens are conserved: issued (or active at the start) are used or still active, each once. */
  lemma {:induction false} ResetsConserved(b: Bcrypt, states: seq<State>, events: seq<Event>, h: string)
    requires IsRun(b, states, events)
    ensures ActiveRows(states[0].resets, h) + CountIssued(events, h) == CountUsed(events, h) + ActiveRows(states[|events|].resets, h)
    decreases |events|
  {
    var n := |events|;
    if n > 0 {
      var before, e := events[..n-1], events[n-1];
      RunBefore(b, states, events);
      ResetsConserved(b, states[..n], before, h);
      StepResets(b, states[n-1], e, states[n], h);
      assert CountIssued(events, h) == CountIssued(before, h) + if e.ResetIssued? && e.h == h then 1 else 0;
      assert CountUsed(events, h) == CountUsed(before, h) + if e.ResetUsed? && e.h == h then 1 else 0;
    }
  }

  /** A reset sets the password of the member it was issued for. */
  lemma {:induction false} ResetsReachTheirMember(b: Bcrypt, states: seq<State>, events: seq<Event>, n: nat, h: string)
    requires IsRun(b, states, events) && states[0].resets == map[] && n <= |events| && h in states[n].resets
    ensures exists i :: 0 <= i < n && events[i] == ResetIssued(h, states[n].resets[h].about.createdBy, states[n].resets[h].about.forMember)
    decreases n
  {
    assert Happens(b, states[n-1], events[n-1], states[n]);
    if events[n-1] != ResetIssued(h, states[n].resets[h].about.createdBy, states[n].resets[h].about.forMember) {
      ResetsReachTheirMember(b, states, events, n - 1, h);
    }
  }

  ghost predicate HasActive(t: ResetTable, h: string, about: Reset) {
    IsActive(t, h) && t[h].about == about
  }

  /** Event i issued the reset, and it has not been used before n. */
  ghost predicate IsUnused(events: seq<Event>, i: nat, n: nat, h: string, about: Reset)
    requires n <= |events|
  {
    i < n && events[i] == ResetIssued(h, about.createdBy, about.forMember) && forall j :: i < j < n ==> !Uses(events[j], h)
  }

  predicate Uses(e: Event, h: string) {
    e.ResetUsed? && e.h == h
  }

  lemma StepActive(b: Bcrypt, s: State, e: Event, t: State, h: string, about: Reset)
    requires Happens(b, s, e, t)
    ensures HasActive(t.resets, h, about) <==>
              e == ResetIssued(h, about.createdBy, about.forMember) || (HasActive(s.resets, h, about) && !Uses(e, h))
  {
  }

  /** Which reset tokens can be used, and for whom: exactly those issued and not used since, whatever cleanups do. */
  lemma UnusedResetsAreActive(b: Bcrypt, states: seq<State>, events: seq<Event>, n: nat, h: string, about: Reset)
    requires IsRun(b, states, events) && n <= |events| && !IsActive(states[0].resets, h)
    ensures HasActive(states[n].resets, h, about) <==> exists i: nat :: IsUnused(events, i, n, h, about)
  {
    var has := seq(|states|, j requires 0 <= j < |states| => HasActive(states[j].resets, h, about));
    var starts := seq(|events|, j requires 0 <= j < |events| => events[j] == ResetIssued(h, about.createdBy, about.forMember));
    var ends := seq(|events|, j requires 0 <= j < |events| => Uses(events[j], h));
    forall j | 0 <= j < |events| ensures has[j+1] <==> starts[j] || (has[j] && !ends[j]) {
      StepActive(b, states[j], events[j], states[j+1], h, about);
    }
    Lifetime(has, starts, ends, n);
    forall i: nat ensures Lasts(starts, ends, i, n) <==> IsUnused(events, i, n, h, about) {
      assert forall j :: 0 <= j < n ==> ends[j] == Uses(events[j], h);
    }
  }

  /** A reset token sets the password of the member it was issued for, and only if it has not been used since. */
  lemma ResetsSetTheirMembersPassword(b: Bcrypt, states: seq<State>, events: seq<Event>, j: nat) returns (i: nat, issuer: nat)
    requires IsRun(b, states, events) && j < |events| && events[j].ResetUsed? && !IsActive(states[0].resets, events[j].h)
    ensures IsUnused(events, i, j, events[j].h, Reset(issuer, events[j].member))
  {
    assert Happens(b, states[j], events[j], states[j+1]);
    var about := states[j].resets[events[j].h].about;
    issuer := about.createdBy;
    UnusedResetsAreActive(b, states, events, j, events[j].h, about);
    i :| IsUnused(events, i, j, events[j].h, about);
  }

  // ---- Who a login lets in ----

  lemma {:induction false} TablesStayOk(b: Bcrypt, states: seq<State>, events: seq<Event>, n: nat)
    requires IsRun(b, states, events) && n <= |events|
    ensures TablesOk(states[n])
  {
    if n > 0 {
      TablesStayOk(b, states, events, n - 1);
      StepKeeps(b, states[n-1], events[n-1], states[n]);
    }
  }

  ghost predicate HasAlias(t: AliasTable, id: nat, a: Alias) {
    id in t.rows && t.rows[id] == a
  }

  lemma StepAlias(b: Bcrypt, s: State, e: Event, t: State, id: nat, a: Alias)
    requires TablesOk(s) && Happens(b, s, e, t)
    ensures HasAlias(t.aliases, id, a) <==>
              (e == AliasTaken(a.name, a.member, a.signature) && id == s.aliases.next) ||
              (HasAlias(s.aliases, id, a) && e != AliasDropped(id))
  {
  }

  /** Event i gave the alias to its member, in the row with this id, and that row has not been dropped before n. */
  ghost predicate IsHeld(states: seq<State>, events: seq<Event>, i: nat, n: nat, id: nat, a: Alias)
    requires n <= |events| < |states|
  {
    && i < n && events[i] == AliasTaken(a.name, a.member, a.signature) && id == states[i].aliases.next
    && forall j :: i < j < n ==> events[j] != AliasDropped(id)
  }

  lemma {:induction false} HeldAliasIsThere(b: Bcrypt, states: seq<State>, events: seq<Event>, i: nat, n: nat, id: nat, a: Alias)
    requires IsRun(b, states, events) && n <= |events| && IsHeld(states, events, i, n, id, a)
    ensures HasAlias(states[n].aliases, id, a)
    decreases n
  {
    TablesStayOk(b, states, events, n - 1);
    StepAlias(b, states[n-1], events[n-1], states[n], id, a);
    if i + 1 < n {
      HeldAliasIsThere(b, states, events, i, n - 1, id, a);
    }
  }

  lemma AliasMeansItsMember(s: State, id: nat, a: Alias, x: nat)
    requires TablesOk(s) && HasAlias(s.aliases, id, a)
    ensures LogsIn(s, a.name, x) <==> x == a.member
  {
  }

  /**
   An alias logs in the member it was given to, with the password last stored for that
   member, and nobody else with anything, for as long as its row is not dropped.
  */
  lemma AliasLogsInItsOwner(b: Bcrypt, states: seq<State>, events: seq<Event>, i: nat, n: nat, id: nat, a: Alias,
                            password: string, x: nat)
    requires Ideal(b) && IsRun(b, states, events) && n <= |events| && states[0].passwords.rows == map[]
    requires IsHeld(states, events, i, n, id, a)
    ensures Accepts(b, states[n], a.name, password, x) <==>
              x == a.member && LastPassword(events[..n], x).Some? && LastPassword(events[..n], x).value.0 == password
  {
    TablesStayOk(b, states, events, n);
    HeldAliasIsThere(b, states, events, i, n, id, a);
    AliasMeansItsMember(states[n], id, a, x);
    RunUpTo(b, states, events, n);
    CheckFollowsLastPassword(b, states[..n+1], events[..n], a.name, password, x);
  }

  lemma RunUpTo(b: Bcrypt, states: seq<State>, events: seq<Event>, n: nat)
    requires IsRun(b, states, events) && n <= |events|
    ensures IsRun(b, states[..n+1], events[..n])
  {
  }

  /** A member's reference that nobody has for an alias logs in that member, with the password last stored for it. */
  lemma ReferenceLogsInItsOwner(b: Bcrypt, states: seq<State>, events: seq<Event>, n: nat, m: nat, password: string, x: nat)
    requires Ideal(b) && IsRun(b, states, events) && n <= |events| && states[0].passwords.rows == map[]
    requires m in states[n].members.rows && !IsAlias(states[n].aliases, RefString(states[n].members.rows[m].feed))
    ensures Accepts(b, states[n], RefString(states[n].members.rows[m].feed), password, x) <==>
              x == m && LastPassword(events[..n], x).Some? && LastPassword(events[..n], x).value.0 == password
  {
    var login := RefString(states[n].members.rows[m].feed);
    TablesStayOk(b, states, events, n);
    ReferenceMeansItsMember(states[n], m, x);
    RunUpTo(b, states, events, n);
    CheckFollowsLastPassword(b, states[..n+1], events[..n], login, password, x);
  }

  lemma ReferenceMeansItsMember(s: State, m: nat, x: nat)
    requires TablesOk(s) && m in s.members.rows && !IsAlias(s.aliases, RefString(s.members.rows[m].feed))
    ensures LogsIn(s, RefString(s.members.rows[m].feed), x) <==> x == m
  {
    if x in s.members.rows && RefString(s.members.rows[x].feed) == RefString(s.members.rows[m].feed) {
      RefStringInjective(s.members.rows[x].feed, s.members.rows[m].feed);
    }
  }
}
