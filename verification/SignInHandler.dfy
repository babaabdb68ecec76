/** The muxrpc handler of sign-in with SSB (muxrpc/handlers/signinwithssb/withssb.go), one call at a time. */
module SignInHandler {
  import opened Prelude
  import opened Base64
  import opened Feeds
  import opened Messages
  import opened Storage
  import opened Signals
  import opened MemberService
  import SessionService

  /** The three arguments are a valid solution for this room by this client. */
  ghost predicate IsSolution(verify: Verifier, self: FeedRef, client: FeedRef, params: seq<string>) {
    && |params| == 3
    && var sig := Decode(Std, TrimSuffix(params[2], SIG_SUFFIX));
       sig.Ok? && Validate(verify, ClientPayload(client, self, params[1], params[0]), sig.value)
  }

  /** What an honest client sends: both challenges, and its signature of the documented message. */
  lemma ClientSolutionAccepted(verify: Verifier, self: FeedRef, client: FeedRef, sc: string, cc: string, sig: seq<byte>)
    ensures IsSolution(verify, self, client, [sc, cc, Encode(Std, sig) + ".sig.ed25519"]) <==>
              verify(client, "=http-auth-sign-in:" + RefString(self) + ":" + RefString(client) + ":" + (sc + ":" + cc), sig)
  {
    SuffixRoundTrip(Encode(Std, sig), ".sig.ed25519");
    DecodeEncode(Std, sig);
  }

  /** No reader is told of success: at most one channel got an event, and that one a failure. */
  ghost predicate NoSuccess(b: Bridge, c: Bridge) {
    |b.chans| == |c.chans| &&
    forall i :: 0 <= i < |b.chans| ==>
      c.chans[i].sent == b.chans[i].sent ||
      (c.chans[i].sent != [] && !c.chans[i].sent[|c.chans[i].sent| - 1].worked)
  }

  /** A refused call is announced with its reason; one that stored a token finalizes the session, with nothing sent. */
  ghost function AfterRefusal(b: Bridge, sc: string, token: string, reason: string, taken: bool, stored: bool): Bridge
    requires Fresh(b)
  {
    if stored then AfterSend(b, sc, Event(true, token, ""), false)
    else AfterSend(b, sc, Event(false, "", reason), taken)
  }

  /** Neither a failure nor an event nobody took tells of success. */
  lemma FailureTellsNoSuccess(b: Bridge, sc: string, e: Event, taken: bool)
    requires Fresh(b) && (taken && sc in b.sessions ==> !e.worked)
    ensures NoSuccess(b, AfterSend(b, sc, e, taken))
  {
  }

  class Handler {
    const self: FeedRef
    const db: Database
    const members: Members
    const sessions: SessionService.AuthWithSSB
    const bridge: SignalBridge
    const verify: Verifier

    constructor (s: FeedRef, d: Database, m: Members, a: SessionService.AuthWithSSB, b: SignalBridge, v: Verifier)
      requires m.db == d && a.db == d
      ensures self == s && db == d && members == m && sessions == a && bridge == b && verify == v
    {
      self, db, members, sessions, bridge, verify := s, d, m, a, b, v;
    }

    ghost predicate TablesOk()
      reads db
    {
      members.db == db && sessions.db == db && MembersOk(db.members) && sessions.Valid()
    }

    /**
     `params` is the decoded request, if it was a JSON array of strings; `taken` says
     whether a reader takes the event in time. True means that the token of a new
     session went to the reader; an error leaves no session behind and tells nobody
     of success. An error is known by its innermost reason.
    */
    method SendSolution(client: FeedRef, params: Option<seq<string>>, now: nat, draw: nat -> string, taken: bool)
      returns (r: Result<bool>, ghost token: string)
      requires TablesOk() && bridge.Valid()
      modifies db`sessions, bridge
      ensures TablesOk() && bridge.Valid()
      ensures r.Ok? <==>
        && IsMember(db.members, client) && params.Some? && IsSolution(verify, self, client, params.value)
        && SessionService.HasFreshToken(old(db.sessions), draw)
        && params.value[0] in old(bridge.sessions) && taken
      ensures r.Ok? ==>
        && token in db.sessions.rows && token !in old(db.sessions).rows
        && db.sessions.rows[token].member in db.members.rows && db.members.rows[db.sessions.rows[token].member].feed == client
        && db.sessions == SessionService.Stored(old(db.sessions), token, db.sessions.rows[token].member, now)
        && db.sessions.rows - {token} == old(db.sessions).rows
        && bridge.State() == AfterSend(old(bridge.State()), params.value[0], Event(true, token, ""), true)
      ensures r.Err? ==> db.sessions.rows == old(db.sessions).rows && NoSuccess(old(bridge.State()), bridge.State())
      ensures r.Err? && (!IsMember(db.members, client) || params.None? || |params.value| != 3) ==>
        bridge.State() == old(bridge.State())
      ensures r.Err? && IsMember(db.members, client) && params.Some? && |params.value| == 3 ==>
        bridge.State() == AfterRefusal(old(bridge.State()), params.value[0], token, r.reason, taken,
          IsSolution(verify, self, client, params.value) && SessionService.HasFreshToken(old(db.sessions), draw))
    {
      token := "";
      var member := members.GetByFeed(client);
      if member.Err? {
        return Err("client is not a room member"), token;
      }
      if params.None? || |params.value| != 3 {
        return Err("expected 3 arguments (sc, cc, sol)"), token;
      }
      var sc := params.value[0];
      var sig := Decode(Std, TrimSuffix(params.value[2], SIG_SUFFIX));
      if sig.Err? || !Validate(verify, ClientPayload(client, self, params.value[1], sc), sig.value) {
        var reason := if sig.Err? then sig.reason else "not a valid solution";
        Refuse(sc, reason, taken);
        return Err(reason), token;
      }
      r, token := Grant(member.value.id, sc, now, draw, taken);
    }

    method Refuse(sc: string, reason: string, taken: bool)
      requires TablesOk() && bridge.Valid()
      modifies bridge
      ensures TablesOk() && bridge.Valid() && NoSuccess(old(bridge.State()), bridge.State())
      ensures bridge.State() == AfterSend(old(bridge.State()), sc, Event(false, "", reason), taken)
    {
      FailureTellsNoSuccess(bridge.State(), sc, Event(false, "", reason), taken);
      var told := bridge.SessionFailed(sc, reason, taken);
    }

    /** Signals the stored token, or takes it back. */
    method Announce(sc: string, token: string, taken: bool) returns (ok: bool)
      requires TablesOk() && bridge.Valid()
      modifies db`sessions, bridge
      ensures TablesOk() && bridge.Valid()
      ensures ok <==> sc in old(bridge.sessions) && taken
      ensures ok ==> db.sessions == old(db.sessions) && bridge.State() == AfterSend(old(bridge.State()), sc, Event(true, token, ""), true)
      ensures !ok ==> db.sessions == SessionService.Without(old(db.sessions), token) && NoSuccess(old(bridge.State()), bridge.State())
      ensures !ok ==> bridge.State() == AfterSend(old(bridge.State()), sc, Event(true, token, ""), false)
    {
      FailureTellsNoSuccess(bridge.State(), sc, Event(true, token, ""), taken && sc !in bridge.sessions);
      ok := bridge.SessionWorked(sc, token, taken);
      if !ok {
        sessions.RemoveToken(token);
      }
    }

    /** The part of SendSolution after the solution has been accepted. */
    method Grant(member: nat, sc: string, now: nat, draw: nat -> string, taken: bool) returns (r: Result<bool>, ghost token: string)
      requires TablesOk() && bridge.Valid() && member in db.members.rows
      modifies db`sessions, bridge
      ensures TablesOk() && bridge.Valid()
      ensures r.Ok? <==> SessionService.HasFreshToken(old(db.sessions), draw) && sc in old(bridge.sessions) && taken
      ensures r.Ok? ==>
        && token !in old(db.sessions).rows && db.sessions == SessionService.Stored(old(db.sessions), token, member, now)
        && db.sessions.rows - {token} == old(db.sessions).rows
        && bridge.State() == AfterSend(old(bridge.State()), sc, Event(true, token, ""), true)
      ensures r.Err? ==> db.sessions.rows == old(db.sessions).rows && NoSuccess(old(bridge.State()), bridge.State())
      ensures r.Err? ==> bridge.State() == AfterRefusal(old(bridge.State()), sc, token, r.reason, taken,
                                                        SessionService.HasFreshToken(old(db.sessions), draw))
    {
      token := "";
      var tok, tries := sessions.CreateToken(member, now, draw);
      if tok.Err? {
        Refuse(sc, tok.reason, taken);
        return Err(tok.reason), token;
      }
      token := tok.value;
      SessionService.StoreThenRemove(old(db.sessions), token, member, now);
      var ok := Announce(sc, tok.value, taken);
      if !ok {
        return Err("failed to send completed session"), token;
      }
      return Ok(true), token;
    }

    method InvalidateAllSolutions(client: FeedRef) returns (r: Result<bool>)
      requires TablesOk() && bridge.Valid()
      modifies db`sessions
      ensures TablesOk() && bridge.Valid()
      ensures r.Ok? <==> IsMember(db.members, client)
      ensures r.Err? ==> db.sessions == old(db.sessions)
      ensures r.Ok? ==> forall k :: k in db.sessions.rows <==>
                k in old(db.sessions).rows && db.members.rows[old(db.sessions).rows[k].member].feed != client
      ensures forall k :: k in db.sessions.rows ==> db.sessions.rows[k] == old(db.sessions).rows[k]
    {
      var member := members.GetByFeed(client);
      if member.Err? {
        return Err(member.reason);
      }
      sessions.WipeTokensForMember(member.value.id);
      return Ok(true);
    }
  }
}
