# Verification of the room server's protocols and services

A Dafny model of go-ssb-room: its concurrent connection and sign-in protocols and the
stateful services behind them, with proofs about every run.

* **Connections** (`Connections.dfy`, `HandlerRuns.dfy`, `HandlerTraces.dfy`): the connection
  tracker's and the node's maps as classes, and any number of `handleConnection` calls as a step
  system in which each critical section is one step. The same functions specify both; the traces
  say in terms of the steps taken alone what each call does and what a lookup finds.
* **Sign-in with SSB** (`Bridge.dfy`, `SignIn.dfy`, `SignInRuns.dfy`, `SignInHandler.dfy`): the
  signal bridge as a class; `SendSolution` calls, event-stream readers, timers and all other users
  of the session table as one step system, with its invariants and then its results in terms of
  the steps taken; and `SendSolution` as a method, branch by branch.
* **Database** (`Storage.dfy`, `Members.dfy`, `Invites.dfy`, `Fallback.dfy`, `Sessions.dfy`,
  `Maintenance.dfy`): tables as maps. A method works on the table values and assigns only on
  success, which is what commit and rollback amount to. Successful calls are events, and the
  main results are about sequences of events of any length.
* **Room state** (`Listings.dfy`, `Broadcasts.dfy`, `RoomState.dfy`, `RoomRaces.dfy`): the manager,
  the broadcasters (one generic class, since the two source files differ only in what they send)
  and the two handlers; subscribers as replicas of the room; and manager calls that overlap.
* **WebSocket stream** (`Websock.dfy`): messages refined to one byte stream.
* **Signed messages and aliases** (`Base64.dfy`, `Messages.dfy`, `Aliases.dfy`).

Conventions. A `char` stands for one byte of a Go string. SHA-256, ed25519 verification, bcrypt,
random draws, the failures of sinks and the clock are parameters; where a result needs an assumption
about one of them it says so in a `requires` (`Ideal` bcrypt, a `Binding` key, `NeverRepeats`).
Times are nanoseconds. Feed references are classic ed25519 references, 32 key bytes written as a
sigil of 53 characters; go-ssb-refs, which writes them, is not part of this model.

Where the code and its description differ the model follows the code:

* `CheckToken` deletes an expired row and then returns an error, so its transaction rolls the
  deletion back: the row stays until a cleanup (`CheckToken`'s contract says the table is unchanged).
* The cleanup of sessions compares dates, not times: a row can stay almost two days (`SweepWithinTwoDays`).
* Aliases of exactly 63 characters are valid, although the comment says shorter.
* Token strings are decoded leniently (line breaks and stray trailing bits are ignored), so several
  strings name the same invite; everything is therefore counted by the hash of the bytes.
* With the last-wins tracker one live connection per key holds exactly in the runs in which every
  insert finds no entry for its key; `OnAccept` does not look. Calls that do not overlap meet that
  condition (`SerialClaimsAreFree`); without it an endpoint can be lost (`OverlapLosesEndpoint`).
* `SendSolution` ignores an error of `RemoveToken`; the step system has it fail at will, and the
  row then stays. `SignInHandler.Handler.SendSolution`, one call on its own, takes it to succeed.
* `createMessage` determines its fields when the server challenge is a generated one; `SendSolution`
  takes it as sent, and then it does exactly if neither challenge contains a colon.
* The attendants handler registers after it has listed the room, so a change in between can be missed;
  `AttendantCanMiss` shows it, and `AttendantKnowsSinceListing` says exactly what a subscriber then
  gets wrong, and for how long.

## Model

| member | source | states |
|---|---|---|
| Connections.ConnTracker.OnAccept | internal/network/conntracker.go:79-95 | accepts exactly the keys without an entry, with a done channel never used before; a refusal changes nothing |
| Connections.ConnTracker.OnClose | internal/network/conntracker.go:97-109 | removes the key's entry, whoever holds it, and closes its done channel, which was open |
| Connections.ConnTracker.CloseAll | internal/network/conntracker.go:47-60 | closes exactly the tracked connections and keeps the entries |
| Connections.ConnTracker.Replace | internal/network/conntracker.go:136-146 | second locked part: puts the new entry in, without looking for one |
| Connections.Node.GetAllEndpoints | internal/network/new.go:136-157 | each remote with an active entry once, with its endpoint, and nothing else |
| Connections.Node.HandleConnection | internal/network/new.go:192-256 | run alone, the call leaves the tracker as it found it on every path and undoes its own addRemote; while it serves, both lookups show its endpoint |
| HandlerRuns.TrackerAccounts | internal/network/conntracker.go:97-109 | every interleaving, both trackers: no done channel closed twice, tracked connections are accepted and not yet closed, Count at most accepted minus closed |
| HandlerRuns.NoStaleEndpoint | internal/network/new.go:127-190 | every interleaving, both trackers: a lookup only finds an endpoint of that key between its addRemote and removeRemote; when all calls are over both maps are empty |
| HandlerRuns.RefusingTrackerExact | internal/network/new.go:192-256 | every interleaving under the refusing tracker: one live call per key, the two maps list exactly the live and the serving calls (GetAllEndpoints skips none), Count equals accepted minus closed |
| HandlerRuns.OneLiveIffClaimsAreFree | internal/network/conntracker.go:120-146 | every run of either tracker: one live call per key all along, if and only if the maps match the calls all along, if and only if every last-wins insert finds no entry for its key |
| HandlerRuns.SerialClaimsAreFree | internal/network/conntracker.go:120-146 | if no two OnAccept calls for one key overlap, every last-wins insert finds no entry, with time-outs at any point |
| HandlerRuns.LastWinsExactIfSerial | internal/network/conntracker.go:120-146 | so then the maps match the calls, and Count is accepted minus closed |
| HandlerRuns.ReplacedLeavesFirst | internal/network/conntracker.go:120-146 | under that condition a replaced connection's removeRemote precedes its replacement's addRemote, it removes nothing later, and no later lookup finds its endpoint |
| HandlerRuns.ClaimKeepsOneLive | internal/network/conntracker.go:136-146 | one step: the unguarded insert makes a second live call for the key unless the key has no entry, and only then if live calls have their entries |
| HandlerRuns.OverlapLosesEndpoint | internal/network/conntracker.go:120-146 | a run with overlapping accepts that leaves two live calls for a key and a serving one without its remotes entry |
| HandlerTraces.CallsFollowTheSource | internal/network/new.go:192-256 | every interleaving, both trackers: what a call itself has done is always an initial part of the source's statements, with MakeHandler's error leading straight to OnClose |
| HandlerTraces.LinkedAfterHandlerMade | internal/network/new.go:223-242 | an addRemote is preceded by a MakeHandler that succeeded |
| HandlerTraces.FailedHandlerIsNotLinked | internal/network/new.go:223-227 | after a MakeHandler that failed a call does nothing but OnClose |
| HandlerTraces.ServedBetween | internal/network/new.go:223-251 | between a MakeHandler that succeeded and OnClose lie addRemote, the end of Serve and removeRemote, in this order |
| HandlerTraces.NextStatementIsEnabled | internal/network/new.go:192-256 | a call is never stuck: after each step the next statement can be taken |
| HandlerTraces.LookupFindsServing | internal/network/new.go:127-190 | GetEndpointFor answers a key only with a call that arrived with it, has added its endpoint and not removed it; and with each such call, under the refusing tracker always, else if every claim found its slot free |
| Signals.SignalBridge.RegisterSession | internal/signinwithssb/bridge.go:43-67 | returns the first unused draw with a new open channel; every other session keeps its channel and every other channel its contents; a source that never repeats needs at most one draw more than there are sessions |
| Signals.UnusedDrawExists | internal/signinwithssb/bridge.go:49-56 | a source that never repeats meets the loop's condition for ending, for any set of sessions |
| Signals.SignalBridge.SendAndClose | internal/signinwithssb/bridge.go:96-124 | succeeds exactly if the session exists and a reader takes the event; either way the session goes, its channel is closed and carries the event exactly if it was taken, and everything else stays |
| Signals.SignalBridge.SessionWorked | internal/signinwithssb/bridge.go:80-85 | sendAndClose with a success event that carries the token |
| Signals.SignalBridge.SessionFailed | internal/signinwithssb/bridge.go:89-94 | sendAndClose with a failure event |
| SignInRuns.OneShotChannels | internal/signinwithssb/bridge.go:96-124 | every interleaving: no send on and no close of a closed channel, at most one event per channel, and only to a reader that fetched this very session before the mutex was taken |
| SignInRuns.TrueMeansDelivered | muxrpc/handlers/signinwithssb/withssb.go:61-112 | every interleaving: true means exactly one reader, which had asked for the session of the call, holds the stored token as a success; an error means nobody does and the stored row is gone, unless RemoveToken failed; readers learn of success from such calls, about their own session, only |
| SignInRuns.TokenSurvivesIffDelivered | muxrpc/handlers/signinwithssb/withssb.go:99-111 | every interleaving: a returned call's row exists if and only if the call returned true (which it did if and only if a reader holds the token) or its RemoveToken failed, and nobody else has removed that very row |
| SignInRuns.CallsFollowTheSource | muxrpc/handlers/signinwithssb/withssb.go:61-112 | every interleaving: what a call itself has done is always an initial part of SendSolution's statements, with the branch its event and the bridge lead to |
| SignInRuns.ReturnsTrueIff | muxrpc/handlers/signinwithssb/withssb.go:99-111 | a call returns true exactly by storing its token, taking the bridge, handing the event to the reader and finishing |
| SignInRuns.DeliveredToItsSession | internal/signinwithssb/bridge.go:71-124 | an event is only handed to a reader that asked for the session it is about, before the mutex was taken |
| SignInRuns.SessionLives | internal/signinwithssb/bridge.go:43-76 | every interleaving: the sessions are exactly those registered and not expired or finished since, each with the channel made for it |
| SignInRuns.ChannelHasOneSession | internal/signinwithssb/bridge.go:43-76 | a channel never serves two challenges |
| SignInRuns.ChannelsCarryWhatWasSent | internal/signinwithssb/bridge.go:96-124 | a channel carries exactly the events handed over on it, and is closed exactly if a call that used it has finished |
| SignInRuns.EachSessionExpiresOnce | internal/signinwithssb/bridge.go:58-64 | each registration leaves one timer, which can fire once, whenever the mutex is free |
| SignInRuns.RowsAreStored | muxrpc/handlers/signinwithssb/withssb.go:93-135 | every interleaving: the session rows are exactly those stored, for the member they were stored for, and not removed by token or by member since |
| SignInRuns.SignInSucceeds | muxrpc/handlers/signinwithssb/withssb.go:61-112 | a run in which a sign-in succeeds, for any challenge, token and member |
| SignInHandler.Handler.SendSolution | muxrpc/handlers/signinwithssb/withssb.go:61-112 | returns true exactly for a member's valid solution with a free token, a live session and a reader; then one new row, and the event with its token; otherwise the same rows, no success event, and the session closed with the failure or with nothing, or left alone for a non-member or a request of another form |
| SignInHandler.ClientSolutionAccepted | muxrpc/handlers/signinwithssb/withssb.go:78-97 | the request an honest client makes is a solution if and only if its signature verifies for the message of purpose, server, client, server and client challenge |
| SignInHandler.Handler.Grant | muxrpc/handlers/signinwithssb/withssb.go:99-111 | the part from CreateToken on, with the same dichotomy |
| SignInHandler.Handler.InvalidateAllSolutions | muxrpc/handlers/signinwithssb/withssb.go:115-135 | removes exactly the calling member's sessions and keeps the others as they are |
| MemberService.Members.AddIn | roomdb/sqlite/members.go:58-81 | inserts a feed that is new with the role asked for, reports one that is there, refuses the unknown role; no other row changes |
| MemberService.Members.Add | roomdb/sqlite/members.go:44-55 | the same, committed |
| MemberService.Members.GetByFeed | roomdb/sqlite/members.go:108-130 | finds exactly the members, with role and aliases |
| MemberService.Members.SetRole | roomdb/sqlite/members.go:195-227 | sets the role, and nothing else, exactly if the role is known, the member exists and another admin does |
| MemberService.AdminRemains | roomdb/sqlite/members.go:195-227 | over every run of adds and role changes a room with an admin keeps one, and ids keep their feeds |
| MemberService.MembersHaveTheirRole | roomdb/sqlite/members.go:58-81 | every run: each member was there at first or was added by its feed, and has the role it was last given |
| Base64.DecodeEncode | roomdb/sqlite/invites.go:301-305 | decoding undoes encoding for all bytes, in both alphabets of RFC 4648 |
| Base64.EncodingIsTheNumbers | roomdb/sqlite/invites.go:71-98 | each three bytes are written as the four digits of the same 24-bit number, the rest padded |
| Base64.DigitsAreTheTable | roomdb/sqlite/invites.go:71-98 | the digits are the tables of sections 4 and 5 of RFC 4648 |
| Tokens.TokenLeadsToHash | roomdb/sqlite/invites.go:301-315 | a token made of 50 bytes leads back to the hash of those bytes |
| Tokens.DrawFree | roomdb/sqlite/invites.go:71-98 | the retry loop: the first of at most 100 draws whose hash is free, or none is |
| InviteService.Invites.Create | roomdb/sqlite/invites.go:41-108 | on success the returned token's hash is the one inserted, active, booked on a member who may create it; fails exactly if nobody may or all 100 draws are taken, and then changes nothing |
| InviteService.Invites.Consume | roomdb/sqlite/invites.go:113-166 | succeeds exactly for an active invite; then it is spent and newMember is a member, keeping any row, else with the ordinary role; a failure changes no table |
| InviteService.Invites.GetByToken | roomdb/sqlite/invites.go:178-203 | finds exactly the active invites |
| InviteService.Invites.Revoke | roomdb/sqlite/invites.go:277-297 | spends the active invite with that id, or changes nothing |
| InviteService.Invites.DeleteConsumed | roomdb/sqlite/invites.go:170-176 | removes exactly the spent invites and keeps the others as they are |
| InviteService.InvitesConserved | roomdb/sqlite/invites.go:113-176 | every run, every token hash: created equals consumed plus revoked plus active |
| InviteService.MembersStay | roomdb/sqlite/invites.go:133-141 | over every run members keep id, feed and role, and whoever consumed an invite is a member from then on |
| InviteService.MembersAreAdmitted | roomdb/sqlite/invites.go:133-141 | every run: the members are exactly those of the start, those added, with that role, and, as ordinary members, the new feeds that consumed an invite |
| InviteService.InvitesGiveNoPower | roomdb/sqlite/invites.go:133-141 | no admin or moderator comes from an invite |
| InviteService.UnusedInvitesAreActive | roomdb/sqlite/invites.go:41-176 | every run: the invites that can be used are exactly those created and neither consumed nor revoked since, with their creator, whatever cleanups do |
| FallbackService.AuthFallback.Check | roomdb/sqlite/auth_fallback.go:43-83 | answers with a member exactly if the login means that member and the stored hash matches |
| FallbackService.AuthFallback.SetPassword | roomdb/sqlite/auth_fallback.go:85-119 | writes the member's only row, or changes nothing if hashing fails or there is no such member |
| FallbackService.AuthFallback.SetPasswordWithToken | roomdb/sqlite/auth_fallback.go:121-175 | succeeds exactly for an active reset token; then sets the password of the member it is for and spends it |
| FallbackService.AuthFallback.CreateResetToken | roomdb/sqlite/auth_fallback.go:177-225 | on success the returned token's hash is the row inserted, for existing members; otherwise nothing changes |
| FallbackService.AuthFallback.DeleteConsumed | roomdb/sqlite/auth_fallback.go:229-235 | removes exactly the used reset tokens |
| FallbackService.CheckFollowsLastPassword | roomdb/sqlite/auth_fallback.go:43-175 | every run: one password row per member, and Check accepts an alias or reference of a member exactly with the password last stored for that member |
| FallbackService.AliasLogsInItsOwner | roomdb/sqlite/auth_fallback.go:48-67 | every run: while its row is not dropped, an alias logs in the member it was given to, with the password last stored for that member, and nobody else |
| FallbackService.ReferenceLogsInItsOwner | roomdb/sqlite/auth_fallback.go:48-67 | every run: the same for a member's reference that nobody has for an alias |
| FallbackService.ResetsConserved | roomdb/sqlite/auth_fallback.go:121-235 | every run, every token hash: issued equals used plus active |
| FallbackService.ResetsReachTheirMember | roomdb/sqlite/auth_fallback.go:177-225 | every run: a reset row names the member it was issued for |
| FallbackService.UnusedResetsAreActive | roomdb/sqlite/auth_fallback.go:121-235 | every run: the reset tokens that can be used are exactly those issued and not used since, for the member they were issued for |
| FallbackService.ResetsSetTheirMembersPassword | roomdb/sqlite/auth_fallback.go:121-175 | a reset token sets the password of the member it was issued for, and only once |
| SessionService.AuthWithSSB.CreateToken | roomdb/sqlite/auth_withssb.go:35-85 | stores the first free of at most 100 draws for an existing member, or changes nothing |
| SessionService.AuthWithSSB.CheckToken | roomdb/sqlite/auth_withssb.go:90-119 | accepts exactly a row at most 24 hours old and never changes the table |
| SessionService.AuthWithSSB.RemoveToken | roomdb/sqlite/auth_withssb.go:122-125 | removes exactly that token's row |
| SessionService.AuthWithSSB.WipeTokensForMember | roomdb/sqlite/auth_withssb.go:128-139 | removes exactly that member's rows |
| SessionService.AuthWithSSB.DeleteExpired | roomdb/sqlite/auth_withssb.go:143-149 | removes exactly the rows dated before yesterday |
| SessionService.SweepSparesAccepted | roomdb/sqlite/auth_withssb.go:143-149 | a cleanup never drops a session that is still accepted, then or later |
| SessionService.SweepWithinTwoDays | roomdb/sqlite/auth_withssb.go:143-149 | a cleanup drops every session of two days, and can leave one a nanosecond younger |
| SessionService.SessionLifetime | roomdb/sqlite/auth_withssb.go:87-149 | every run with a clock that does not go back: a session not removed or wiped is accepted exactly for 24 hours after the second it was stored in |
| SessionService.RefusedForGood | roomdb/sqlite/auth_withssb.go:102-109 | a row refused for its age is refused in every later check |
| SessionService.AnswersWhatWasStored | roomdb/sqlite/auth_withssb.go:87-149 | every run: CheckToken lets in exactly the member the token was stored for, for 24 hours, unless it was removed or wiped since |
| SessionService.StampIsTheSecond | roomdb/sqlite/auth_withssb.go:35-85 | a session is dated with the second it was stored in |
| Maintenance.Cleanup | roomdb/sqlite/new.go:122-136 | runs the three deletions and leaves the other tables alone |
| Maintenance.CleanupIsInvisible | roomdb/sqlite/new.go:122-136 | usable invites and resets, and all later answers of CheckToken, are the same after it |
| Listings.ListingUnique | roomstate/roomstate.go:47-54 | a set of keys has one strictly ascending list, whatever the map order |
| Listings.LessIsLexicographic | roomstate/roomstate.go:47-54 | the order of listings is the byte-wise order of strings |
| Listings.AsList | roomstate/roomstate.go:47-54 | returns that list |
| Broadcasts.Broadcast.Register | internal/broadcasts/endpoints.go:38-49 | adds a registration of its own |
| Broadcasts.Broadcast.Send | internal/broadcasts/endpoints.go:54-66 | calls every sink once, whatever the order, and drops exactly those whose call fails |
| Broadcasts.CallsAreOffered | internal/broadcasts/endpoints.go:38-66 | every run: a registration is called with exactly the messages from its registration to its cancellation, up to and including the first call that fails, and is registered exactly if neither happened |
| RoomState.Manager.List | roomstate/roomstate.go:65-69 | the sorted list of the peers in the room |
| RoomState.Manager.AddEndpoint | roomstate/roomstate.go:88-98 | puts the peer in, sends the new list to the endpoints sinks and a join to the attendants sinks |
| RoomState.Manager.Remove | roomstate/roomstate.go:101-111 | takes the peer out, sends the new list and a leave, also for an absent peer |
| RoomState.Manager.AlreadyAdded | roomstate/roomstate.go:115-135 | does nothing for a peer that is there, else what AddEndpoint does |
| RoomState.Manager.EndpointsHandler | muxrpc/handlers/tunnel/server/state.go:132-142 | registers, ensures the peer and lists, as steps of a run; leaves the peer in the room and the new sink with the current list |
| RoomState.Manager.AttendantsHandler | muxrpc/handlers/tunnel/server/attendants.go:52-69 | adds the peer and then registers, as steps of a run; leaves the peer in the room and, unless the initial state was refused, a registered subscriber that agrees with the room |
| RoomState.EndpointsStayUpToDate | muxrpc/handlers/tunnel/server/state.go:132-142 | after the handler's listing and every later manager call, the last list of a sink that never failed is the sorted key set |
| RoomState.AttendantKnows | muxrpc/handlers/tunnel/server/attendants.go:52-69 | every run, every peer: the subscriber is right about the peer if and only if it was right at registration or was told of the peer since |
| RoomState.AttendantKnowsSinceListing | muxrpc/handlers/tunnel/server/attendants.go:52-69 | with the room listed some time before the registration: right about a peer if and only if its presence was the same at both, or the subscriber was told of it since |
| RoomState.AttendantCanMiss | muxrpc/handlers/tunnel/server/attendants.go:55-67 | a run in which a peer joins between listing and registering, and the subscriber never hears of it |
| RoomState.AttendantFollows | muxrpc/handlers/tunnel/server/attendants.go:52-69 | a subscriber that registers with the room as listed holds exactly the room's keys ever after |
| RoomState.RoomFollowsEvents | roomstate/roomstate.go:87-135 | every run: the room holds each peer with the endpoint added for it last |
| RoomRaces.DeliveredListsAreReal | roomstate/roomstate.go:87-135 | however manager calls overlap, every delivered list is strictly ascending and the key set of a state the room was in |
| RoomRaces.UpToDateIff | roomstate/roomstate.go:87-135 | however manager calls overlap: a sink's last list is the current one if and only if the room is as it was when the call that took this list left the locked section |
| RoomRaces.LatestExists | roomstate/roomstate.go:87-135 | every sink that has been called has such a last list, with the steps that took and delivered it |
| RoomRaces.InOrderStaysUpToDate | roomstate/roomstate.go:87-135 | if lists are delivered in the order of the locked sections, every healthy sink that has been called is up to date whenever no broadcast is outstanding |
| RoomRaces.LastListCanBeStale | roomstate/roomstate.go:87-111 | a run of two overlapping calls, delivered out of order, that leaves a healthy sink with the older list |
| Websock.WebsockConn.Read | internal/network/websocket.go:141-167 | returns the next bytes of the stream into the buffer, at least one if it has room, exactly if a byte comes before the next foreign message or the end; a failure loses no byte; the recursion ends |
| Websock.WebsockConn.RenewReader | internal/network/websocket.go:169-183 | takes the next message, and makes it current exactly if it is binary |
| Websock.WebsockConn.Write | internal/network/websocket.go:185-197 | sends the buffer as one binary message |
| Websock.ReadsReproduceWrites | internal/network/websocket.go:141-197 | every run: the bytes returned are a prefix of the bytes written, and what is missing is exactly what is pending |
| Websock.ReadyIffPending | internal/network/websocket.go:141-167 | if the peer only writes, a read succeeds exactly when a byte is left |
| Websock.FailureLosesNothing | internal/network/websocket.go:149-160 | a failed read uses up empty binary messages and at most one message that is not binary, which comes last and must be there if a byte is left |
| Messages.ChallengeRoundTrip | internal/signinwithssb/challenges.go:24-43 | a generated challenge decodes to its 32 bytes |
| Messages.MessagesEqualIff | internal/signinwithssb/challenges.go:54-65 | when two sign-in messages are equal, whatever the challenges |
| Messages.MessageDeterminesPayload | internal/signinwithssb/challenges.go:54-65 | with generated server challenges the message determines all four fields |
| Messages.SignInFields | internal/signinwithssb/challenges.go:54-65 | the fields of a sign-in message between its colons: purpose, server, client, server challenge, client challenge |
| Messages.UnambiguousIffNoColon | internal/signinwithssb/challenges.go:54-65 | a message belongs to one payload if and only if neither challenge contains a colon |
| Messages.RegistrationDetermined | internal/aliases/confirm.go:33-42 | a registration message determines room, user and alias |
| Messages.RegistrationFields | internal/aliases/confirm.go:33-42 | the fields of a registration message: purpose, room, user, alias |
| Messages.KindsDisjoint | internal/aliases/confirm.go:33-42 | no registration message is a sign-in message |
| Messages.SignaturesDoNotTransfer | internal/aliases/confirm.go:52-58 | a signature by a binding key is good for one sign-in or one registration only |
| AliasService.IsValid | internal/aliases/names.go:16-35 | accepts exactly names of at most 63 of the characters a-z and 0-9 |
| AliasService.NameCharsAre | internal/aliases/names.go:16-35 | the valid names, letter by letter |
| AliasService.Aliases.Resolve | roomdb/sqlite/aliases.go:30-60 | finds exactly the registered names, with their owner |
| AliasService.Aliases.Register | roomdb/sqlite/aliases.go:83-106 | adds a row exactly for a member and a free name |
| AliasService.Aliases.Revoke | roomdb/sqlite/aliases.go:109-124 | removes exactly the row of that name |
| AliasService.Handler.Register | muxrpc/handlers/alias/handler.go:58-113 | registers exactly a valid, correctly signed and free name of a member; otherwise nothing changes |
| AliasService.ClientRegistrationAccepted | muxrpc/handlers/alias/handler.go:58-113 | the request an honest client makes is accepted if and only if the name is valid and its signature verifies for the message of purpose, room, user and name |
| AliasService.Handler.Revoke | muxrpc/handlers/alias/handler.go:116-149 | lets exactly the owner remove the name, and removes only it |
| AliasService.Handler.List | muxrpc/handlers/alias/handler.go:151-189 | answers exactly requests of one readable reference, with exactly the names that feed owns, each once |
| AliasService.AliasesStayConfirmed | muxrpc/handlers/alias/handler.go:58-149 | every run: names unique and valid, each signature verifies for this room, its owner and that name |
| AliasService.AliasesAreRegistered | roomdb/sqlite/aliases.go:83-124 | every run: the aliases are exactly those registered and not dropped since, each with its member and signature |
| AliasService.ReferenceLogsInItsMember | roomdb/sqlite/auth_fallback.go:48-67 | no alias registered through the handler can shadow a member's own reference as a login |

## Left out

- Network I/O, secret-handshake, muxrpc framing, the listener and the WebSocket upgrade: libraries; Serve is a step that may end at any time.
- The clocks of the connection tracker and the cancelling of contexts: they do not influence either map.
- The accept-all tracker: it keeps no map by key.
- SQL, generated models, migrations and driver errors: tables are maps with the schema's unique keys and foreign keys.
- Member removal and its cascades: every run keeps its members.
- HTTP handlers, templates, notices, flash messages and the cookie half of sign-in.
- The privacy-mode and membership checks in front of the tunnel handlers: a finite case analysis.
- The announce and leave handlers: they are `AddEndpoint` and `Remove` themselves.
- Closing of the broadcasters and of cancelled sinks.
- JSON: a request is the list of strings it decodes to, if it does.
- Attendants subscribers when manager calls overlap: only the lists of endpoints subscribers are followed through overlapping calls (`RoomRaces`).
- Connections.ConnTracker.OnClose: does not return how long the connection was up, because there is no clock.
- Connections.Node.GetAllEndpoints: leaves out address and age, which nothing else depends on.
- Connections.Node.HandleConnection: one call on its own under the refusing tracker; all interleavings under both trackers are in `HandlerRuns`.
- FallbackService.CheckFollowsLastPassword: assumes an ideal bcrypt; the library looks at the first 72 bytes of a password only.
- AliasService.Handler.Revoke: the moderators' revocation through the web dashboard is an event of the runs, not a method.
- InviteService.MembersStay: role changes are not among the events of these runs; MemberService.AdminRemains covers them.
- Broadcasts.Broadcast.Send: a sink's behaviour is given by which of its calls fail; what it does with a message is not modelled.
