/** The members service (roomdb/sqlite/members.go). */
module MemberService {
  import opened Prelude
  import opened Feeds
  import opened Storage

  datatype Known = Known(id: nat, role: Role, aliases: map<nat, Alias>)

  datatype AddResult = Added(id: nat) | AlreadyAdded | BadRole

  class Members {
    const db: Database

    constructor (d: Database)
      ensures db == d
    {
      db := d;
    }

    /** Works on the table of the caller's transaction. */
    static method AddIn(tx: MemberTable, f: FeedRef, role: Role) returns (tx': MemberTable, r: AddResult)
      requires MembersOk(tx)
      ensures MembersOk(tx')
      ensures r.BadRole? <==> role.Unknown?
      ensures r.AlreadyAdded? <==> !role.Unknown? && IsMember(tx, f)
      ensures tx' == if r.Added? then WithMember(tx, f, role) else tx
      ensures r.Added? ==> r.id == tx.next && r.id !in tx.rows && tx'.rows == tx.rows[r.id := Member(f, role)]
    {
      if role.Unknown? {
        return tx, BadRole;
      }
      if id :| id in tx.rows && tx.rows[id].feed == f {
        return tx, AlreadyAdded;
      }
      tx' := WithMember(tx, f, role);
      r := Added(tx.next);
    }

    method Add(f: FeedRef, role: Role) returns (r: Result<nat>)
      requires MembersOk(db.members)
      modifies db`members
      ensures MembersOk(db.members)
      ensures r.Ok? <==> !role.Unknown? && !IsMember(old(db.members), f)
      ensures db.members == if r.Ok? then WithMember(old(db.members), f, role) else old(db.members)
      ensures r.Ok? ==> r.value == old(db.members).next && r.value !in old(db.members).rows
      ensures r.Ok? ==> db.members.rows == old(db.members).rows[r.value := Member(f, role)]
    {
      var tx, added := AddIn(db.members, f, role);
      if !added.Added? {
        return Err("could not add member");
      }
      db.members := tx;
      return Ok(added.id);
    }

    /** The member with its role, and the rows of its aliases. */
    method GetByFeed(f: FeedRef) returns (r: Result<Known>)
      requires MembersOk(db.members)
      ensures r.Ok? <==> IsMember(db.members, f)
      ensures r.Ok? ==>
        && r.value.id in db.members.rows && db.members.rows[r.value.id] == Member(f, r.value.role)
        && (forall a :: a in r.value.aliases.Items <==> a in db.aliases.rows.Items && a.1.member == r.value.id)
    {
      if id :| id in db.members.rows && db.members.rows[id].feed == f {
        var own := map a | a in db.aliases.rows && db.aliases.rows[a].member == id :: db.aliases.rows[a];
        return Ok(Known(id, db.members.rows[id].role, own));
      }
      return Err("roomdb: object not found");
    }

    /** Refuses unless an admin other than id exists, whatever the new role is. */
    method SetRole(id: nat, role: Role) returns (ok: bool)
      requires MembersOk(db.members)
      modifies db`members
      ensures MembersOk(db.members)
      ensures ok <==> !role.Unknown? && id in old(db.members).rows && OtherAdmin(old(db.members), id)
      ensures db.members == if ok then Promoted(old(db.members), id, role) else old(db.members)
      ensures ok ==> db.members.rows == old(db.members).rows[id := Member(old(db.members).rows[id].feed, role)]
    {
      if role.Unknown? || id !in db.members.rows {
        return false;
      }
      if other :| other in db.members.rows && other != id && db.members.rows[other].role.Admin? {
        db.members := Promoted(db.members, id, role);
        return true;
      }
      return false;
    }
  }

  ghost predicate OtherAdmin(t: MemberTable, id: nat) {
    exists other :: other in t.rows && other != id && t.rows[other].role.Admin?
  }

  ghost predicate HasAdmin(t: MemberTable) {
    exists id :: id in t.rows && t.rows[id].role.Admin?
  }

  function Promoted(t: MemberTable, id: nat, role: Role): MemberTable {
    if id in t.rows then t.(rows := t.rows[id := t.rows[id].(role := role)]) else t
  }

  datatype MemberEvent = Joined(feed: FeedRef, role: Role) | RoleSet(id: nat, role: Role)

  ghost predicate Happens(t: MemberTable, e: MemberEvent, u: MemberTable) {
    match e
    case Joined(f, role) => !role.Unknown? && !IsMember(t, f) && u == WithMember(t, f, role)
    case RoleSet(id, role) => !role.Unknown? && id in t.rows && OtherAdmin(t, id) && u == Promoted(t, id, role)
  }

  lemma PromotedKeeps(t: MemberTable, id: nat, role: Role)
    requires MembersOk(t) && !role.Unknown? && OtherAdmin(t, id)
    ensures MembersOk(Promoted(t, id, role)) && HasAdmin(Promoted(t, id, role))
  {
    var other :| other in t.rows && other != id && t.rows[other].role.Admin?;
    assert Promoted(t, id, role).rows[other].role.Admin?;
  }

  lemma JoinedKeeps(t: MemberTable, f: FeedRef, role: Role)
    requires MembersOk(t) && !role.Unknown? && !IsMember(t, f)
    ensures MembersOk(WithMember(t, f, role)) && (HasAdmin(t) ==> HasAdmin(WithMember(t, f, role)))
  {
    WithMemberKeeps(t, f, role);
    if a :| a in t.rows && t.rows[a].role.Admin? {
      assert WithMember(t, f, role).rows[a].role.Admin?;
    }
  }

  lemma StepKeepsAdmin(t: MemberTable, e: MemberEvent, u: MemberTable)
    requires MembersOk(t) && Happens(t, e, u)
    ensures MembersOk(u) && (HasAdmin(t) ==> HasAdmin(u))
    ensures forall id :: id in t.rows ==> id in u.rows && u.rows[id].feed == t.rows[id].feed
  {
    match e
    case Joined(f, role) => JoinedKeeps(t, f, role);
    case RoleSet(id, role) => PromotedKeeps(t, id, role);
  }

  /** Over every run of adds and role changes a room that has an admin keeps one, and nobody's id or feed changes. */
  lemma {:induction false} AdminRemains(states: seq<MemberTable>, events: seq<MemberEvent>, n: nat)
    requires |states| == |events| + 1 && n <= |events|
    requires MembersOk(states[0])
    requires forall i :: 0 <= i < |events| ==> Happens(states[i], events[i], states[i+1])
    ensures MembersOk(states[n])
    ensures HasAdmin(states[0]) ==> HasAdmin(states[n])
    ensures forall id :: id in states[0].rows ==> id in states[n].rows && states[n].rows[id].feed == states[0].rows[id].feed
  {
    if n > 0 {
      AdminRemains(states, events, n - 1);
      StepKeepsAdmin(states[n-1], events[n-1], states[n]);
    }
  }

  ghost predicate IsRun(states: seq<MemberTable>, events: seq<MemberEvent>) {
    && |states| == |events| + 1
    && MembersOk(states[0])
    && forall i :: 0 <= i < |events| ==> Happens(states[i], events[i], states[i+1])
  }

  /** The role the last RoleSet of id from position i up to n says, or else r. */
  ghost function LastRole(events: seq<MemberEvent>, i: nat, n: nat, id: nat, r: Role): Role
    requires i <= n <= |events|
  {
    if i == n then r
    else if events[n-1].RoleSet? && events[n-1].id == id then events[n-1].role
    else LastRole(events, i, n - 1, id, r)
  }

  /** Event i brings in a member with this id, and this row. */
  ghost predicate Brings(states: seq<MemberTable>, events: seq<MemberEvent>, i: nat, id: nat, row: Member)
    requires i < |events| < |states|
  {
    events[i] == Joined(row.feed, row.role) && id !in states[i].rows
  }

  lemma StepRow(t: MemberTable, e: MemberEvent, u: MemberTable, id: nat)
    requires MembersOk(t) && Happens(t, e, u)
    ensures id in t.rows ==>
      && id in u.rows
      && u.rows[id] == Member(t.rows[id].feed, if e.RoleSet? && e.id == id then e.role else t.rows[id].role)
    ensures id !in t.rows && id in u.rows ==> e == Joined(u.rows[id].feed, u.rows[id].role)
  {
  }

  lemma RunRow(states: seq<MemberTable>, events: seq<MemberEvent>, j: nat, id: nat)
    requires IsRun(states, events) && j < |events|
    ensures id in states[j].rows ==>
      && id in states[j+1].rows
      && states[j+1].rows[id] == Member(states[j].rows[id].feed, LastRole(events, j, j + 1, id, states[j].rows[id].role))
    ensures id !in states[j].rows && id in states[j+1].rows ==> Brings(states, events, j, id, states[j+1].rows[id])
  {
    AdminRemains(states, events, j);
    StepRow(states[j], events[j], states[j+1], id);
  }

  /** From any position on, a member keeps its feed and has the role set for it last. */
  lemma {:induction false} RoleIsTheLastSet(states: seq<MemberTable>, events: seq<MemberEvent>, i: nat, n: nat, id: nat)
    requires IsRun(states, events) && i <= n <= |events| && id in states[i].rows
    ensures id in states[n].rows
    ensures states[n].rows[id] == Member(states[i].rows[id].feed, LastRole(events, i, n, id, states[i].rows[id].role))
    decreases n
  {
    if i < n {
      RoleIsTheLastSet(states, events, i, n - 1, id);
      RunRow(states, events, n - 1, id);
    }
  }

  /** Every member was there at first, or was brought in by an add that named its feed; its role is the one said last. */
  lemma {:induction false} MembersHaveTheirRole(states: seq<MemberTable>, events: seq<MemberEvent>, n: nat, id: nat)
    requires IsRun(states, events) && n <= |events| && id in states[n].rows
    ensures || (id in states[0].rows &&
                states[n].rows[id] == Member(states[0].rows[id].feed, LastRole(events, 0, n, id, states[0].rows[id].role)))
            || (exists i: nat, row ::
                  && i < n && Brings(states, events, i, id, row)
                  && states[n].rows[id] == Member(row.feed, LastRole(events, i + 1, n, id, row.role)))
  {
    if id in states[0].rows {
      RoleIsTheLastSet(states, events, 0, n, id);
    } else {
      var i := FirstSeen(states, events, n, id);
      RunRow(states, events, i, id);
      assert Brings(states, events, i, id, states[i+1].rows[id]);
      RoleIsTheLastSet(states, events, i + 1, n, id);
    }
  }

  lemma {:induction false} FirstSeen(states: seq<MemberTable>, events: seq<MemberEvent>, n: nat, id: nat) returns (i: nat)
    requires IsRun(states, events) && n <= |events| && id in states[n].rows && id !in states[0].rows
    ensures i < n && id !in states[i].rows && id in states[i+1].rows
  {
    if id in states[n-1].rows {
      i := FirstSeen(states, events, n - 1, id);
    } else {
      i := n - 1;
    }
  }
}
