/**
 The tables of the room database (roomdb/sqlite/migrations), each with the
 columns the services use. Row ids are handed out in increasing order. A
 transaction works on a copy of a table's value and commits by assigning it
 back, so that one that fails leaves the table as it was
 (roomdb/sqlite/new.go:142-163).
*/
module Storage {
  import opened Prelude
  import opened Feeds

  datatype Role = Unknown | Ordinary | Moderator | Admin

  datatype Member = Member(feed: FeedRef, role: Role)

  /** members: pub_key is UNIQUE, role is checked to be above zero. */
  datatype MemberTable = MemberTable(rows: map<nat, Member>, next: nat)

  ghost predicate MembersOk(t: MemberTable) {
    && (forall id :: id in t.rows ==> id < t.next && !t.rows[id].role.Unknown?)
    && (forall i, j :: i in t.rows && j in t.rows && t.rows[i].feed == t.rows[j].feed ==> i == j)
  }

  ghost predicate IsMember(t: MemberTable, f: FeedRef) {
    exists id :: id in t.rows && t.rows[id].feed == f
  }

  function WithMember(t: MemberTable, f: FeedRef, role: Role): MemberTable {
    MemberTable(t.rows[t.next := Member(f, role)], t.next + 1)
  }

  lemma WithMemberKeeps(t: MemberTable, f: FeedRef, role: Role)
    requires MembersOk(t) && !role.Unknown? && !IsMember(t, f)
    ensures var u := WithMember(t, f, role);
      && MembersOk(u) && u.rows[t.next].feed == f
      && forall id :: id in t.rows ==> id in u.rows && u.rows[id] == t.rows[id]
  {
  }

  /** What Consume does to the member table: an existing member keeps id and role. */
  ghost function Admitted(t: MemberTable, f: FeedRef): MemberTable {
    if IsMember(t, f) then t else WithMember(t, f, Ordinary)
  }

  /** Rows for tokens that can be used once, by their UNIQUE hashed_token. */
  datatype OneTime<T> = OneTime(active: bool, about: T)

  type TokenRows<T> = map<string, OneTime<T>>

  predicate IsActive<T>(t: TokenRows<T>, h: string) {
    h in t && t[h].active
  }

  function Spent<T>(t: TokenRows<T>, h: string): TokenRows<T> {
    if h in t then t[h := t[h].(active := false)] else t
  }

  function Cleaned<T>(t: TokenRows<T>): TokenRows<T> {
    map h | h in t && t[h].active :: t[h]
  }

  function ActiveRows<T>(t: TokenRows<T>, h: string): nat {
    if IsActive(t, h) then 1 else 0
  }

  datatype Invite = Invite(id: nat, createdBy: nat)

  /** invites. */
  datatype InviteTable = InviteTable(rows: TokenRows<Invite>, next: nat)

  datatype Alias = Alias(name: string, member: nat, signature: seq<byte>)

  /** aliases: name is UNIQUE. */
  datatype AliasTable = AliasTable(rows: map<nat, Alias>, next: nat)

  ghost predicate AliasesOk(m: MemberTable, t: AliasTable) {
    && (forall id :: id in t.rows ==> id < t.next && t.rows[id].member in m.rows)
    && (forall i, j :: i in t.rows && j in t.rows && t.rows[i].name == t.rows[j].name ==> i == j)
  }

  function WithAlias(t: AliasTable, name: string, member: nat, sig: seq<byte>): AliasTable {
    AliasTable(t.rows[t.next := Alias(name, member, sig)], t.next + 1)
  }

  function WithoutAlias(t: AliasTable, id: nat): AliasTable {
    t.(rows := t.rows - {id})
  }

  lemma WithAliasKeeps(m: MemberTable, t: AliasTable, name: string, member: nat, sig: seq<byte>)
    requires AliasesOk(m, t) && member in m.rows && !IsAlias(t, name)
    ensures AliasesOk(m, WithAlias(t, name, member, sig))
  {
  }

  lemma WithoutAliasKeeps(m: MemberTable, t: AliasTable, id: nat)
    requires AliasesOk(m, t)
    ensures AliasesOk(m, WithoutAlias(t, id))
  {
  }

  ghost predicate IsAlias(t: AliasTable, name: string) {
    exists id :: id in t.rows && t.rows[id].name == name
  }

  datatype Password = Password(member: nat, hash: string)

  /** fallback_passwords. */
  datatype PasswordTable = PasswordTable(rows: map<nat, Password>, next: nat)

  datatype Reset = Reset(createdBy: nat, forMember: nat)

  /** fallback_reset_tokens. */
  type ResetTable = TokenRows<Reset>

  /** Time is in nanoseconds; CURRENT_TIMESTAMP has whole seconds. */
  datatype Session = Session(id: nat, member: nat, createdAt: nat)

  /** SIWSSB_sessions, by their UNIQUE token. */
  datatype SessionTable = SessionTable(rows: map<string, Session>, next: nat)

  class Database {
    var members: MemberTable
    var invites: InviteTable
    var aliases: AliasTable
    var passwords: PasswordTable
    var resets: ResetTable
    var sessions: SessionTable

    constructor ()
      ensures members == MemberTable(map[], 0) && invites == InviteTable(map[], 0)
      ensures aliases == AliasTable(map[], 0) && passwords == PasswordTable(map[], 0)
      ensures resets == map[] && sessions == SessionTable(map[], 0)
    {
      members, invites := MemberTable(map[], 0), InviteTable(map[], 0);
      aliases, passwords := AliasTable(map[], 0), PasswordTable(map[], 0);
      resets, sessions := map[], SessionTable(map[], 0);
    }
  }
}
