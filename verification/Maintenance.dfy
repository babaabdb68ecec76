/** The periodic cleanup of the database (roomdb/sqlite/new.go:88-101 and 122-136). */
module Maintenance {
  import opened Prelude
  import opened Storage
  import InviteService
  import FallbackService
  import SessionService

  /** Deletes expired sessions, consumed invites and used reset tokens, and touches nothing else. */
  method Cleanup(invites: InviteService.Invites, fallback: FallbackService.AuthFallback, sessions: SessionService.AuthWithSSB, now: nat)
    requires invites.db == fallback.db == sessions.db
    requires invites.Valid() && fallback.Valid() && sessions.Valid()
    modifies invites.db`invites, invites.db`resets, invites.db`sessions
    ensures invites.db.invites == old(invites.db.invites).(rows := Cleaned(old(invites.db.invites).rows))
    ensures invites.db.resets == Cleaned(old(invites.db.resets))
    ensures invites.db.sessions == SessionService.Swept(old(invites.db.sessions), now)
  {
    sessions.DeleteExpired(now);
    invites.DeleteConsumed();
    fallback.DeleteConsumed();
  }

  /**
   No caller can tell: the usable invites and resets stay as they are and become no
   more, and CheckToken answers as it would have, then and at any later time.
  */
  lemma CleanupIsInvisible(invites: InviteTable, resets: ResetTable, sessions: SessionTable, now: nat,
                           h: string, token: string, later: nat)
    requires now <= later
    ensures IsActive(Cleaned(invites.rows), h) <==> IsActive(invites.rows, h)
    ensures IsActive(invites.rows, h) ==> Cleaned(invites.rows)[h] == invites.rows[h]
    ensures IsActive(Cleaned(resets), h) <==> IsActive(resets, h)
    ensures IsActive(resets, h) ==> Cleaned(resets)[h] == resets[h]
    ensures SessionService.Answer(SessionService.Swept(sessions, now), token, later) == SessionService.Answer(sessions, token, later)
  {
    if SessionService.Answer(sessions, token, later).Some? {
      SessionService.SweepSparesAccepted(sessions, token, later, now);
    }
  }
}
