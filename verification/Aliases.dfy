/**
 Aliases: which names are valid (internal/aliases/names.go), the alias table
 (roomdb/sqlite/aliases.go) and the muxrpc handler in front of it
 (muxrpc/handlers/alias/handler.go).
*/
module AliasService {
  import opened Prelude
  import opened Base64
  import opened Feeds
  import opened Messages
  import opened Storage
  import FallbackService

  const MAX_LENGTH := 63

  predicate IsNameChar(c: char) {
    '0' <= c <= '9' || 'a' <= c <= 'z'
  }

  predicate ValidName(name: string) {
    |name| <= MAX_LENGTH && forall i :: 0 <= i < |name| ==> IsNameChar(name[i])
  }

  method IsValid(name: string) returns (valid: bool)
    ensures valid <==> ValidName(name)
  {
    if |name| > MAX_LENGTH {
      return false;
    }
    valid := true;
    var i := 0;
    while i < |name|
      invariant i <= |name| && valid
      invariant forall j :: 0 <= j < i ==> IsNameChar(name[j])
    {
      if !('0' <= name[i] <= '9') && !('a' <= name[i] <= 'z') {
        valid := false;
        break;
      }
      i := i + 1;
    }
  }

  datatype AliasState = AliasState(members: MemberTable, aliases: AliasTable)

  ghost predicate RowsOk(s: AliasState) {
    MembersOk(s.members) && AliasesOk(s.members, s.aliases)
  }

  /** A row is a valid name with its owner's signature, for this room and that name. */
  ghost predicate IsConfirmed(verify: Verifier, room: FeedRef, m: MemberTable, a: Alias) {
    && ValidName(a.name) && a.member in m.rows
    && Verify(verify, Registration(a.name, m.rows[a.member].feed, room), a.signature)
  }

  ghost predicate AllConfirmed(verify: Verifier, room: FeedRef, s: AliasState) {
    forall id :: id in s.aliases.rows ==> IsConfirmed(verify, room, s.members, s.aliases.rows[id])
  }

  datatype Found = Found(id: nat, name: string, feed: FeedRef)

  class Aliases {
    const db: Database

    constructor (d: Database)
      ensures db == d
    {
      db := d;
    }

    ghost function Now(): AliasState
      reads db
    {
      AliasState(db.members, db.aliases)
    }

    ghost predicate Valid()
      reads db
    {
      RowsOk(Now())
    }

    method Resolve(name: string) returns (r: Result<Found>)
      requires Valid()
      ensures r.Ok? <==> IsAlias(db.aliases, name)
      ensures r.Ok? ==>
        && r.value.id in db.aliases.rows && r.value.name == name && db.aliases.rows[r.value.id].name == name
        && r.value.feed == db.members.rows[db.aliases.rows[r.value.id].member].feed
    {
      if id :| id in db.aliases.rows && db.aliases.rows[id].name == name {
        return Ok(Found(id, name, db.members.rows[db.aliases.rows[id].member].feed));
      }
      return Err("roomdb: object not found");
    }

    method Register(name: string, user: FeedRef, sig: seq<byte>) returns (ok: bool)
      requires Valid()
      modifies db`aliases
      ensures Valid()
      ensures ok <==> IsMember(db.members, user) && !IsAlias(old(db.aliases), name)
      ensures !ok ==> db.aliases == old(db.aliases)
      ensures ok ==> forall m :: m in db.members.rows && db.members.rows[m].feed == user ==>
                db.aliases == WithAlias(old(db.aliases), name, m, sig) &&
                db.aliases.rows == old(db.aliases).rows[old(db.aliases).next := Alias(name, m, sig)]
    {
      if m :| m in db.members.rows && db.members.rows[m].feed == user {
        if id :| id in db.aliases.rows && db.aliases.rows[id].name == name {
          return false;
        }
        WithAliasKeeps(db.members, db.aliases, name, m, sig);
        db.aliases := WithAlias(db.aliases, name, m, sig);
        return true;
      }
      return false;
    }

    method Revoke(name: string) returns (ok: bool)
      requires Valid()
      modifies db`aliases
      ensures Valid()
      ensures ok <==> IsAlias(old(db.aliases), name)
      ensures forall id :: id in old(db.aliases).rows && old(db.aliases).rows[id].name == name ==>
                db.aliases == WithoutAlias(old(db.aliases), id) && db.aliases.rows == old(db.aliases).rows - {id}
      ensures !ok ==> db.aliases == old(db.aliases)
    {
      if id :| id in db.aliases.rows && db.aliases.rows[id].name == name {
        db.aliases := WithoutAlias(db.aliases, id);
        return true;
      }
      return false;
    }
  }

  class Handler {
    const self: FeedRef
    const aliases: Aliases
    const verify: Verifier
    const parseRef: string -> Option<FeedRef>

    constructor (s: FeedRef, a: Aliases, v: Verifier, p: string -> Option<FeedRef>)
      ensures self == s && aliases == a && verify == v && parseRef == p
    {
      self, aliases, verify, parseRef := s, a, v, p;
    }

    ghost predicate Good()
      reads aliases.db
    {
      aliases.Valid() && AllConfirmed(verify, self, aliases.Now())
    }

    /** The request a registration must be: a valid name, and the connected user's signature for it. */
    ghost predicate IsRequest(user: FeedRef, args: seq<string>) {
      && |args| == 2 && HasSuffix(args[1], SIG_SUFFIX) && ValidName(args[0])
      && var sig := Decode(Std, TrimSuffix(args[1], SIG_SUFFIX));
         sig.Ok? && Verify(verify, Registration(args[0], user, self), sig.value)
    }

    /** `args` is the decoded request, if it was a JSON array of strings. */
    method Register(user: FeedRef, args: Option<seq<string>>) returns (ok: bool)
      requires Good()
      modifies aliases.db`aliases
      ensures Good()
      ensures ok <==>
        && args.Some? && IsRequest(user, args.value)
        && IsMember(aliases.db.members, user) && !IsAlias(old(aliases.db.aliases), args.value[0])
      ensures !ok ==> aliases.db.aliases == old(aliases.db.aliases)
      ensures ok ==> forall m :: m in aliases.db.members.rows && aliases.db.members.rows[m].feed == user ==>
                Happens(verify, self, old(aliases.Now()),
                        Registered(args.value[0], m, Decode(Std, TrimSuffix(args.value[1], SIG_SUFFIX)).value), aliases.Now())
    {
      if args.None? || |args.value| != 2 || !HasSuffix(args.value[1], SIG_SUFFIX) {
        return false;
      }
      var name := args.value[0];
      var sig := Decode(Std, TrimSuffix(args.value[1], SIG_SUFFIX));
      if sig.Err? {
        return false;
      }
      var valid := IsValid(name);
      if !valid || !Verify(verify, Registration(name, user, self), sig.value) {
        return false;
      }
      ghost var was := aliases.Now();
      ok := aliases.Register(name, user, sig.value);
      if ok {
        ghost var m :| m in aliases.db.members.rows && aliases.db.members.rows[m].feed == user;
        RegisteredKeeps(verify, self, was, name, m, sig.value);
      }
    }

    /** Only the owner of an alias can revoke it here. */
    method Revoke(user: FeedRef, args: Option<seq<string>>) returns (ok: bool)
      requires Good()
      modifies aliases.db`aliases
      ensures Good()
      ensures ok <==> args.Some? && |args.value| == 1 && Owns(old(aliases.Now()), user, args.value[0])
      ensures !ok ==> aliases.db.aliases == old(aliases.db.aliases)
      ensures ok ==> forall k :: k in aliases.db.aliases.rows <==>
                k in old(aliases.db.aliases).rows && old(aliases.db.aliases).rows[k].name != args.value[0]
      ensures forall k :: k in aliases.db.aliases.rows ==> aliases.db.aliases.rows[k] == old(aliases.db.aliases).rows[k]
    {
      if args.None? || |args.value| != 1 {
        return false;
      }
      var found := aliases.Resolve(args.value[0]);
      if found.Err? || found.value.feed != user {
        return false;
      }
      ok := aliases.Revoke(found.value.name);
    }

    /** The names the feed in the request owns, each once. */
    method List(args: Option<seq<string>>) returns (r: Result<seq<string>>)
      requires aliases.Valid()
      ensures r.Ok? <==> args.Some? && |args.value| == 1 && parseRef(args.value[0]).Some?
      ensures r.Ok? ==> Names(aliases.Now(), {}, parseRef(args.value[0]).value, r.value)
    {
      if args.None? || |args.value| != 1 {
        return Err("listAlias: bad request");
      }
      var ref := parseRef(args.value[0]);
      if ref.None? {
        return Err("listAlias: invalid feed ref");
      }
      var names := NamesOf(ref.value);
      return Ok(names);
    }

    /** The loop over all aliases. */
    method NamesOf(feed: FeedRef) returns (names: seq<string>)
      requires aliases.Valid()
      ensures Names(aliases.Now(), {}, feed, names)
    {
      var t, m := aliases.db.aliases, aliases.db.members;
      ghost var s := AliasState(m, t);
      var todo := t.rows.Keys;
      names := [];
      while todo != {}
        invariant todo <= t.rows.Keys && Names(s, todo, feed, names)
        decreases |todo|
      {
        var id :| id in todo;
        OneMore(s, todo, id, feed, names);
        todo := todo - {id};
        if m.rows[t.rows[id].member].feed == feed {
          names := names + [t.rows[id].name];
        }
      }
    }
  }

  /** `names` are the names feed has in the rows outside `todo`, each once. */
  ghost predicate Names(s: AliasState, todo: set<nat>, feed: FeedRef, names: seq<string>)
    requires RowsOk(s)
  {
    && (forall n :: n in names <==> OwnsOutside(s, todo, feed, n))
    && (forall i, j :: 0 <= i < j < |names| ==> names[i] != names[j])
  }

  /** The rows outside `todo` give feed this name. */
  ghost predicate OwnsOutside(s: AliasState, todo: set<nat>, feed: FeedRef, name: string)
    requires RowsOk(s)
  {
    exists id :: id in s.aliases.rows && id !in todo && s.aliases.rows[id].name == name &&
                 s.members.rows[s.aliases.rows[id].member].feed == feed
  }

  lemma OneMore(s: AliasState, todo: set<nat>, id: nat, feed: FeedRef, names: seq<string>)
    requires RowsOk(s) && id in todo && id in s.aliases.rows && Names(s, todo, feed, names)
    ensures var row := s.aliases.rows[id];
            Names(s, todo - {id}, feed, if s.members.rows[row.member].feed == feed then names + [row.name] else names)
  {
    var row := s.aliases.rows[id];
    assert !OwnsOutside(s, todo, feed, row.name);
    forall n ensures OwnsOutside(s, todo - {id}, feed, n) <==>
              OwnsOutside(s, todo, feed, n) || (n == row.name && s.members.rows[row.member].feed == feed)
    {
      if OwnsOutside(s, todo, feed, n) {
        var k :| k in s.aliases.rows && k !in todo && s.aliases.rows[k].name == n &&
                 s.members.rows[s.aliases.rows[k].member].feed == feed;
        assert k !in todo - {id};
      }
    }
  }

  ghost predicate Owns(s: AliasState, feed: FeedRef, name: string)
    requires RowsOk(s)
  {
    OwnsOutside(s, {}, feed, name)
  }

  // ---- Runs ----

  datatype Event =
    | Joined(feed: FeedRef, role: Role)
    | Registered(name: string, member: nat, signature: seq<byte>)
    | Dropped(id: nat)

  /** What a member add, a registration through the handler, and any revocation do. */
  ghost predicate Happens(verify: Verifier, room: FeedRef, s: AliasState, e: Event, t: AliasState) {
    match e
    case Joined(f, role) => !role.Unknown? && !IsMember(s.members, f) && t == s.(members := WithMember(s.members, f, role))
    case Registered(name, m, sig) =>
      && m in s.members.rows && !IsAlias(s.aliases, name)
      && IsConfirmed(verify, room, s.members, Alias(name, m, sig))
      && t == s.(aliases := WithAlias(s.aliases, name, m, sig))
    case Dropped(id) => t == s.(aliases := WithoutAlias(s.aliases, id))
  }

  lemma JoinedKeeps(verify: Verifier, room: FeedRef, s: AliasState, f: FeedRef, role: Role)
    requires RowsOk(s) && AllConfirmed(verify, room, s) && !role.Unknown? && !IsMember(s.members, f)
    ensures RowsOk(s.(members := WithMember(s.members, f, role)))
    ensures AllConfirmed(verify, room, s.(members := WithMember(s.members, f, role)))
  {
    var t := s.(members := WithMember(s.members, f, role));
    WithMemberKeeps(s.members, f, role);
    forall id | id in s.aliases.rows ensures IsConfirmed(verify, room, t.members, s.aliases.rows[id]) {
      assert IsConfirmed(verify, room, s.members, s.aliases.rows[id]);
    }
  }

  lemma RegisteredKeeps(verify: Verifier, room: FeedRef, s: AliasState, name: string, m: nat, sig: seq<byte>)
    requires RowsOk(s) && AllConfirmed(verify, room, s) && m in s.members.rows && !IsAlias(s.aliases, name)
    requires IsConfirmed(verify, room, s.members, Alias(name, m, sig))
    ensures RowsOk(s.(aliases := WithAlias(s.aliases, name, m, sig)))
    ensures AllConfirmed(verify, room, s.(aliases := WithAlias(s.aliases, name, m, sig)))
  {
    var t := s.(aliases := WithAlias(s.aliases, name, m, sig));
    WithAliasKeeps(s.members, s.aliases, name, m, sig);
    forall id | id in t.aliases.rows ensures IsConfirmed(verify, room, s.members, t.aliases.rows[id]) {
      assert id != s.aliases.next ==> IsConfirmed(verify, room, s.members, s.aliases.rows[id]);
    }
  }

  lemma StepKeeps(verify: Verifier, room: FeedRef, s: AliasState, e: Event, t: AliasState)
    requires RowsOk(s) && AllConfirmed(verify, room, s) && Happens(verify, room, s, e, t)
    ensures RowsOk(t) && AllConfirmed(verify, room, t)
  {
    match e
    case Joined(f, role) => JoinedKeeps(verify, room, s, f, role);
    case Registered(name, m, sig) => RegisteredKeeps(verify, room, s, name, m, sig);
    case Dropped(id) => WithoutAliasKeeps(s.members, s.aliases, id);
  }

  /**
   After every run of member adds, registrations through the handler and revocations:
   no name has two rows, and every row is a valid name with its owner's signature for
   this room and that very name.
  */
  lemma {:induction false} AliasesStayConfirmed(verify: Verifier, room: FeedRef, states: seq<AliasState>, events: seq<Event>, n: nat)
    requires |states| == |events| + 1 && n <= |events|
    requires RowsOk(states[0]) && AllConfirmed(verify, room, states[0])
    requires forall i :: 0 <= i < |events| ==> Happens(verify, room, states[i], events[i], states[i+1])
    ensures RowsOk(states[n]) && AllConfirmed(verify, room, states[n])
  {
    if n > 0 {
      AliasesStayConfirmed(verify, room, states, events, n - 1);
      StepKeeps(verify, room, states[n-1], events[n-1], states[n]);
    }
  }

  /** No valid name reads like a reference, so an alias never stands in the way of a member's own login. */
  lemma ReferenceLogsInItsMember(verify: Verifier, room: FeedRef, s: FallbackService.State, m: nat)
    requires FallbackService.TablesOk(s) && AllConfirmed(verify, room, AliasState(s.members, s.aliases))
    requires m in s.members.rows
    ensures forall n: nat :: FallbackService.LogsIn(s, RefString(s.members.rows[m].feed), n) <==> n == m
  {
    var login := RefString(s.members.rows[m].feed);
    RefStringShape(s.members.rows[m].feed);
    forall id | id in s.aliases.rows ensures s.aliases.rows[id].name != login {
      assert IsConfirmed(verify, room, s.members, s.aliases.rows[id]);
      assert !IsNameChar(login[0]) && !ValidName(login);
    }
    forall n: nat | FallbackService.LogsIn(s, login, n) ensures n == m {
      RefStringInjective(s.members.rows[n].feed, s.members.rows[m].feed);
    }
  }

  const LETTERS_AND_DIGITS := LOWER + "0123456789"

  /** Spelled out. */
  lemma NameCharsAre(name: string)
    ensures ValidName(name) <==> |name| <= 63 && forall i :: 0 <= i < |name| ==> name[i] in LETTERS_AND_DIGITS
  {
    forall i | 0 <= i < |name| ensures IsNameChar(name[i]) <==> name[i] in LETTERS_AND_DIGITS {
      NameCharIs(name[i]);
    }
  }

  lemma NameCharIs(c: char)
    ensures IsNameChar(c) <==> c in LETTERS_AND_DIGITS
  {
    if 'a' <= c <= 'z' {
      LowerLetters(c as int - 'a' as int);
    }
  }

  ghost predicate HasAlias(t: AliasTable, id: nat, a: Alias) {
    id in t.rows && t.rows[id] == a
  }

  /** Event i registered the alias in the row with this id, and that has not been dropped before n. */
  ghost predicate IsHeld(states: seq<AliasState>, events: seq<Event>, i: nat, n: nat, id: nat, a: Alias)
    requires n <= |events| < |states|
  {
    && i < n && events[i] == Registered(a.name, a.member, a.signature) && id == states[i].aliases.next
    && forall j :: i < j < n ==> events[j] != Dropped(id)
  }

  lemma StepAlias(verify: Verifier, room: FeedRef, s: AliasState, e: Event, t: AliasState, id: nat, a: Alias)
    requires RowsOk(s) && Happens(verify, room, s, e, t)
    ensures HasAlias(t.aliases, id, a) <==>
              (e == Registered(a.name, a.member, a.signature) && id == s.aliases.next) ||
              (HasAlias(s.aliases, id, a) && e != Dropped(id))
  {
  }

  /** Which aliases there are: exactly those registered and not dropped since, each with its member and signature. */
  lemma AliasesAreRegistered(verify: Verifier, room: FeedRef, states: seq<AliasState>, events: seq<Event>, n: nat, id: nat, a: Alias)
    requires |states| == |events| + 1 && n <= |events|
    requires RowsOk(states[0]) && AllConfirmed(verify, room, states[0]) && id !in states[0].aliases.rows
    requires forall i :: 0 <= i < |events| ==> Happens(verify, room, states[i], events[i], states[i+1])
    ensures HasAlias(states[n].aliases, id, a) <==> exists i: nat :: IsHeld(states, events, i, n, id, a)
  {
    var has := seq(|states|, j requires 0 <= j < |states| => HasAlias(states[j].aliases, id, a));
    var starts := seq(|events|, j requires 0 <= j < |events| =>
      events[j] == Registered(a.name, a.member, a.signature) && id == states[j].aliases.next);
    var ends := seq(|events|, j requires 0 <= j < |events| => events[j] == Dropped(id));
    forall j | 0 <= j < |events| ensures has[j+1] <==> starts[j] || (has[j] && !ends[j]) {
      AliasesStayConfirmed(verify, room, states, events, j);
      StepAlias(verify, room, states[j], events[j], states[j+1], id, a);
    }
    Lifetime(has, starts, ends, n);
    forall i: nat ensures Lasts(starts, ends, i, n) <==> IsHeld(states, events, i, n, id, a) {
      assert forall j :: 0 <= j < n ==> ends[j] == (events[j] == Dropped(id));
    }
  }

  /** What a client sends for an alias: the name, and its signature of the documented message. */
  lemma ClientRegistrationAccepted(h: Handler, user: FeedRef, name: string, sig: seq<byte>)
    ensures h.IsRequest(user, [name, Encode(Std, sig) + ".sig.ed25519"]) <==>
              ValidName(name) &&
              h.verify(user, "=room-alias-registration:" + RefString(h.self) + ":" + RefString(user) + ":" + name, sig)
  {
    SuffixRoundTrip(Encode(Std, sig), ".sig.ed25519");
    DecodeEncode(Std, sig);
  }
}
