/**
 Sign-in with SSB, all of it running at once: SendSolution calls
 (muxrpc/handlers/signinwithssb/withssb.go:61-112), event-stream readers
 (web/handlers/auth/withssb.go:477-527), session registration and expiry, and
 everything else that adds or removes session rows. `holder` is the call that
 holds the bridge's mutex, which sendAndClose keeps while it waits for a reader.
*/
module SignIn {
  import opened Prelude
  import opened Signals

  type CallId = nat
  type ReaderId = nat

  datatype Pc =
    | Begun                        // before the solution is checked
    | Locking                      // wants the bridge, to signal `evt`
    | Sending(ch: nat)             // in the select of sendAndClose
    | Sent(ch: nat, to: ReaderId)  // the send happened
    | GaveUp(ch: nat)              // the two minutes are over
    | Undoing                      // about to RemoveToken
    | ReturnedTrue(to: ReaderId)
    | ReturnedError(leaks: bool)   // `leaks`: RemoveToken failed, which SendSolution ignores
  {
    predicate HoldsLock() { Sending? || Sent? || GaveUp? }
    predicate Reached(r: ReaderId) { (Sent? || ReturnedTrue?) && to == r }
  }

  datatype Stored = Stored(token: string, row: nat)

  /** `lockedAt` is the time at which sendAndClose took the mutex. */
  datatype Call = Call(sc: string, evt: Event, stored: Option<Stored>, pc: Pc, lockedAt: nat)

  /** `from` is the call whose event was received; a closed channel yields the zero event, from nobody. */
  datatype Reader =
    | Listening(ch: nat, since: nat)
    | Got(evt: Event, from: Option<CallId>, since: nat)
    | Gone

  datatype Row = Row(id: nat, member: nat)

  /** The session table. `removed` are the rows removed by anything but the call that stored them. */
  datatype Table = Table(rows: map<string, Row>, nextRow: nat, removed: set<nat>)

  datatype State = State(
    now: nat,
    bridge: Bridge,
    timers: multiset<string>,
    holder: Option<CallId>,
    calls: map<CallId, Call>,
    readers: map<ReaderId, Reader>,
    panicked: bool,
    db: Table)

  const INIT := State(0, NEW_BRIDGE, multiset{}, None, map[], map[], false, Table(map[], 0, {}))

  datatype Action =
    // the bridge's clients
    | Register(sc: string)
    | Expire(sc: string)
    | Fetch(r: ReaderId, sc: string)
    | Leave(r: ReaderId)
    | ReadClosed(r: ReaderId)
    // SendSolution
    | Begin(k: CallId, sc: string)
    | Reject(k: CallId)
    | Fail(k: CallId, reason: string)
    | Store(k: CallId, token: string, member: nat)
    | Lock(k: CallId)
    | Deliver(k: CallId, r: ReaderId)
    | GiveUp(k: CallId)
    | Finish(k: CallId)
    | Undo(k: CallId, ok: bool)
    // other users of the session table
    | StoreOther(token: string, member: nat)
    | Remove(token: string)
    | Wipe(member: nat)

  predicate Enabled(s: State, a: Action) {
    match a
    case Register(sc) => s.holder.None? && sc !in s.bridge.sessions
    case Expire(sc) => s.holder.None? && sc in s.timers
    case Fetch(r, _) => s.holder.None? && r !in s.readers
    case Leave(r) => r in s.readers && s.readers[r].Listening?
    case ReadClosed(r) =>
      r in s.readers && s.readers[r].Listening? && s.readers[r].ch < |s.bridge.chans| && s.bridge.chans[s.readers[r].ch].closed
    case Begin(k, _) => k !in s.calls
    case Reject(k) => k in s.calls && s.calls[k].pc.Begun?
    case Fail(k, _) => k in s.calls && s.calls[k].pc.Begun?
    case Store(k, token, _) => k in s.calls && s.calls[k].pc.Begun? && token !in s.db.rows
    case Lock(k) => k in s.calls && s.calls[k].pc.Locking? && s.holder.None?
    case Deliver(k, r) =>
      && k in s.calls && s.calls[k].pc.Sending? && s.calls[k].pc.ch < |s.bridge.chans|
      && r in s.readers && s.readers[r].Listening? && s.readers[r].ch == s.calls[k].pc.ch
    case GiveUp(k) => k in s.calls && s.calls[k].pc.Sending?
    case Finish(k) => k in s.calls && (s.calls[k].pc.Sent? || s.calls[k].pc.GaveUp?) && s.calls[k].pc.ch < |s.bridge.chans|
    case Undo(k, _) => k in s.calls && s.calls[k].pc.Undoing?
    case StoreOther(token, _) => token !in s.db.rows
    case Remove(_) => true
    case Wipe(_) => true
  }

  function Inserted(db: Table, token: string, member: nat): Table {
    Table(db.rows[token := Row(db.nextRow, member)], db.nextRow + 1, db.removed)
  }

  function Deleted(db: Table, tokens: set<string>): Table {
    db.(rows := db.rows - tokens)
  }

  function DeletedByOthers(db: Table, tokens: set<string>): Table {
    Deleted(db, tokens).(removed := db.removed + set t | t in db.rows && t in tokens :: db.rows[t].id)
  }

  /** RemoveToken of a call that stored st; by now the token may name another row. */
  function Undone(db: Table, st: Stored): Table {
    if HasRow(db, st) then Deleted(db, {st.token}) else DeletedByOthers(db, {st.token})
  }

  predicate HasRow(db: Table, st: Stored) {
    st.token in db.rows && db.rows[st.token].id == st.row
  }

  function Move(s: State, k: CallId, pc: Pc): State
    requires k in s.calls
  {
    s.(calls := s.calls[k := s.calls[k].(pc := pc)])
  }

  /** Where a call goes once the bridge is done with it and no reader got its event. */
  function AfterFailure(c: Call): Pc {
    if c.evt.worked then Undoing else ReturnedError(false)
  }

  /** Where a call goes after the select of sendAndClose. */
  function AfterSelect(c: Call): Pc
    requires c.pc.Sent? || c.pc.GaveUp?
  {
    if c.pc.GaveUp? then AfterFailure(c) else if c.evt.worked then ReturnedTrue(c.pc.to) else ReturnedError(false)
  }

  function BridgeStep(s: State, a: Action): State
    requires Enabled(s, a) && (a.Register? || a.Expire? || a.Fetch? || a.Leave? || a.ReadClosed?)
  {
    match a
    case Register(sc) => s.(bridge := Registered(s.bridge, sc), timers := s.timers + multiset{sc})
    case Expire(sc) => s.(bridge := Expired(s.bridge, sc), timers := s.timers - multiset{sc})
    case Fetch(r, sc) =>
      s.(readers := s.readers[r := if sc in s.bridge.sessions then Listening(s.bridge.sessions[sc], s.now) else Gone])
    case Leave(r) => s.(readers := s.readers[r := Gone])
    case ReadClosed(r) => s.(readers := s.readers[r := Got(ZERO_EVENT, None, s.readers[r].since)])
  }

  function CallStep(s: State, a: Action): State
    requires Enabled(s, a)
    requires a.Begin? || a.Reject? || a.Fail? || a.Store? || a.Lock? || a.Deliver? || a.GiveUp? || a.Finish? || a.Undo?
  {
    match a
    case Begin(k, sc) => s.(calls := s.calls[k := Call(sc, ZERO_EVENT, None, Begun, 0)])
    case Reject(k) => Move(s, k, ReturnedError(false))
    case Fail(k, reason) => s.(calls := s.calls[k := s.calls[k].(evt := Event(false, "", reason), pc := Locking)])
    case Store(k, token, member) =>
      s.(calls := s.calls[k := s.calls[k].(evt := Event(true, token, ""), stored := Some(Stored(token, s.db.nextRow)), pc := Locking)],
         db := Inserted(s.db, token, member))
    case Lock(k) =>
      if s.calls[k].sc in s.bridge.sessions
      then s.(calls := s.calls[k := s.calls[k].(pc := Sending(s.bridge.sessions[s.calls[k].sc]), lockedAt := s.now)],
              holder := Some(k))
      else Move(s, k, AfterFailure(s.calls[k]))
    case Deliver(k, r) =>
      var ch := s.calls[k].pc.ch;
      Move(s, k, Sent(ch, r)).(
        bridge := Offered(s.bridge, ch, s.calls[k].evt),
        readers := s.readers[r := Got(s.calls[k].evt, Some(k), s.readers[r].since)],
        panicked := s.panicked || s.bridge.chans[ch].closed)
    case GiveUp(k) => Move(s, k, GaveUp(s.calls[k].pc.ch))
    case Finish(k) =>
      var c := s.calls[k];
      Move(s, k, AfterSelect(c)).(
        bridge := Finalized(s.bridge, c.sc, c.pc.ch),
        holder := None,
        panicked := s.panicked || s.bridge.chans[c.pc.ch].closed)
    case Undo(k, ok) =>
      Move(s, k, ReturnedError(!ok)).(
        db := if ok && s.calls[k].stored.Some? then Undone(s.db, s.calls[k].stored.value) else s.db)
  }

  function RowStep(s: State, a: Action): State
    requires Enabled(s, a) && (a.StoreOther? || a.Remove? || a.Wipe?)
  {
    match a
    case StoreOther(token, member) => s.(db := Inserted(s.db, token, member))
    case Remove(token) => s.(db := DeletedByOthers(s.db, {token}))
    case Wipe(member) => s.(db := DeletedByOthers(s.db, set t | t in s.db.rows && s.db.rows[t].member == member))
  }

  function Next(s: State, a: Action): State
    requires Enabled(s, a)
  {
    var t :=
      if a.Register? || a.Expire? || a.Fetch? || a.Leave? || a.ReadClosed? then BridgeStep(s, a)
      else if a.StoreOther? || a.Remove? || a.Wipe? then RowStep(s, a)
      else CallStep(s, a);
    t.(now := s.now + 1)
  }

  ghost predicate IsRun(states: seq<State>, acts: seq<Action>) {
    && |states| == |acts| + 1
    && states[0] == INIT
    && forall i :: 0 <= i < |acts| ==> Enabled(states[i], acts[i]) && states[i+1] == Next(states[i], acts[i])
  }

  // ---- The rendezvous ----

  type Calls = map<CallId, Call>
  type Readers = map<ReaderId, Reader>

  /** Sessions have open channels of their own, unused but for the one the holder is done sending on. */
  ghost predicate SessionsOpen(b: Bridge, holder: Option<CallId>, calls: Calls) {
    && (forall c :: c in b.sessions ==> b.sessions[c] < |b.chans| && !b.chans[b.sessions[c]].closed)
    && (forall c, d :: c in b.sessions && d in b.sessions && b.sessions[c] == b.sessions[d] ==> c == d)
    && (forall ch :: 0 <= ch < |b.chans| ==> |b.chans[ch].sent| <= 1)
    && (forall c :: c in b.sessions && b.chans[b.sessions[c]].sent != [] ==>
          holder.Some? && holder.value in calls && calls[holder.value].sc == c && calls[holder.value].pc.Sent?)
  }

  /** The calls inside sendAndClose are exactly the holder of the mutex, and its session is still there. */
  ghost predicate LockHeld(now: nat, b: Bridge, holder: Option<CallId>, calls: Calls) {
    && (holder.Some? ==> holder.value in calls && calls[holder.value].pc.HoldsLock())
    && (forall k :: k in calls && calls[k].pc.HoldsLock() ==>
          && holder == Some(k)
          && calls[k].sc in b.sessions && b.sessions[calls[k].sc] == calls[k].pc.ch
          && calls[k].lockedAt < now)
  }

  /** Readers and calls agree on who got what, and readers came before the lock. */
  ghost predicate Delivered(now: nat, holder: Option<CallId>, calls: Calls, readers: Readers) {
    && (forall r :: r in readers && readers[r].Listening? ==>
          readers[r].since < now &&
          (holder.Some? && holder.value in calls ==> readers[r].since < calls[holder.value].lockedAt))
    && (forall r :: r in readers && readers[r].Got? ==>
          if readers[r].from.None? then !readers[r].evt.worked else GotFrom(calls, readers[r].from.value, r, readers[r]))
    && (forall k :: k in calls ==> Owes(readers, k, calls[k]))
  }

  ghost predicate GotFrom(calls: Calls, k: CallId, r: ReaderId, reader: Reader)
    requires reader.Got?
  {
    && k in calls && reader.evt == calls[k].evt && reader.since < calls[k].lockedAt
    && (reader.evt.worked ==> calls[k].pc.Reached(r))
    && !calls[k].pc.Sending? && !calls[k].pc.Begun? && !calls[k].pc.Locking?
  }

  ghost predicate Owes(readers: Readers, k: CallId, c: Call) {
    && (c.pc.ReturnedTrue? ==> c.evt.worked)
    && (c.pc.Sent? || c.pc.ReturnedTrue? ==>
          c.pc.to in readers && readers[c.pc.to].Got? && readers[c.pc.to].from == Some(k))
  }

  ghost predicate Rendezvous(s: State) {
    && SessionsOpen(s.bridge, s.holder, s.calls)
    && LockHeld(s.now, s.bridge, s.holder, s.calls)
    && Delivered(s.now, s.holder, s.calls, s.readers)
    && !s.panicked
  }

  lemma ReaderKept(now: nat, holder: Option<CallId>, calls: Calls, readers: Readers, r: ReaderId, to: Reader)
    requires Delivered(now, holder, calls, readers)
    requires r in readers ==> readers[r].Listening?
    requires to.Gone? || to == Got(ZERO_EVENT, None, to.since) || (to.Listening? && to.since == now && holder.None?)
    ensures Delivered(now + 1, holder, calls, readers[r := to])
  {
  }

  /** A call that is outside sendAndClose before and after. */
  ghost predicate StaysOutside(calls: Calls, k: CallId, c: Call) {
    && !c.pc.HoldsLock() && !c.pc.ReturnedTrue?
    && (k in calls ==>
          && (calls[k].pc.Begun? || calls[k].pc.Locking? || calls[k].pc.Undoing?)
          && (calls[k].pc.Undoing? ==> c.pc.ReturnedError? && c.evt == calls[k].evt && c.lockedAt == calls[k].lockedAt))
  }

  lemma OutsideKept(now: nat, b: Bridge, holder: Option<CallId>, calls: Calls, k: CallId, c: Call)
    requires SessionsOpen(b, holder, calls) && LockHeld(now, b, holder, calls) && StaysOutside(calls, k, c)
    ensures SessionsOpen(b, holder, calls[k := c]) && LockHeld(now + 1, b, holder, calls[k := c])
  {
  }

  lemma OutsideDelivered(now: nat, b: Bridge, holder: Option<CallId>, calls: Calls, readers: Readers, k: CallId, c: Call)
    requires LockHeld(now, b, holder, calls) && Delivered(now, holder, calls, readers) && StaysOutside(calls, k, c)
    ensures Delivered(now + 1, holder, calls[k := c], readers)
  {
  }

  lemma LockKept(now: nat, b: Bridge, calls: Calls, readers: Readers, k: CallId)
    requires SessionsOpen(b, None, calls) && LockHeld(now, b, None, calls) && Delivered(now, None, calls, readers)
    requires k in calls && calls[k].pc.Locking? && calls[k].sc in b.sessions
    ensures var calls' := calls[k := calls[k].(pc := Sending(b.sessions[calls[k].sc]), lockedAt := now)];
            && SessionsOpen(b, Some(k), calls') && LockHeld(now + 1, b, Some(k), calls')
            && Delivered(now + 1, Some(k), calls', readers)
  {
  }

  lemma GiveUpKept(now: nat, b: Bridge, calls: Calls, readers: Readers, k: CallId)
    requires SessionsOpen(b, Some(k), calls) && LockHeld(now, b, Some(k), calls) && Delivered(now, Some(k), calls, readers)
    requires k in calls && calls[k].pc.Sending?
    ensures var calls' := calls[k := calls[k].(pc := GaveUp(calls[k].pc.ch))];
            && SessionsOpen(b, Some(k), calls') && LockHeld(now + 1, b, Some(k), calls')
            && Delivered(now + 1, Some(k), calls', readers)
  {
  }

  lemma DeliverKept(now: nat, b: Bridge, calls: Calls, readers: Readers, k: CallId, r: ReaderId)
    requires SessionsOpen(b, Some(k), calls) && LockHeld(now, b, Some(k), calls) && Delivered(now, Some(k), calls, readers)
    requires k in calls && calls[k].pc.Sending? && calls[k].pc.ch < |b.chans|
    requires r in readers && readers[r].Listening?
    ensures var calls' := calls[k := calls[k].(pc := Sent(calls[k].pc.ch, r))];
            var b' := Offered(b, calls[k].pc.ch, calls[k].evt);
            && SessionsOpen(b', Some(k), calls') && LockHeld(now + 1, b', Some(k), calls')
            && Delivered(now + 1, Some(k), calls', readers[r := Got(calls[k].evt, Some(k), readers[r].since)])
            && !b.chans[calls[k].pc.ch].closed
  {
  }

  lemma FinishKept(now: nat, b: Bridge, calls: Calls, readers: Readers, k: CallId, c: Call)
    requires SessionsOpen(b, Some(k), calls) && LockHeld(now, b, Some(k), calls) && Delivered(now, Some(k), calls, readers)
    requires k in calls && (calls[k].pc.Sent? || calls[k].pc.GaveUp?) && calls[k].pc.ch < |b.chans|
    requires c.evt == calls[k].evt && c.sc == calls[k].sc && c.lockedAt == calls[k].lockedAt
    requires c.pc == AfterSelect(calls[k])
    ensures var b' := Finalized(b, calls[k].sc, calls[k].pc.ch);
            && SessionsOpen(b', None, calls[k := c]) && LockHeld(now + 1, b', None, calls[k := c])
            && Delivered(now + 1, None, calls[k := c], readers)
            && !b.chans[calls[k].pc.ch].closed
  {
  }

  lemma SessionsKept(now: nat, b: Bridge, calls: Calls, sc: string)
    requires SessionsOpen(b, None, calls) && LockHeld(now, b, None, calls)
    ensures sc !in b.sessions ==> SessionsOpen(Registered(b, sc), None, calls) && LockHeld(now + 1, Registered(b, sc), None, calls)
    ensures SessionsOpen(Expired(b, sc), None, calls) && LockHeld(now + 1, Expired(b, sc), None, calls)
  {
  }

  lemma BridgeRendezvous(s: State, a: Action)
    requires Rendezvous(s) && Enabled(s, a)
    requires a.Register? || a.Expire? || a.Fetch? || a.Leave? || a.ReadClosed?
    ensures Rendezvous(Next(s, a))
  {
    match a {
      case Register(sc) => SessionsKept(s.now, s.bridge, s.calls, sc);
      case Expire(sc) => SessionsKept(s.now, s.bridge, s.calls, sc);
      case Fetch(r, sc) => ReaderKept(s.now, s.holder, s.calls, s.readers, r, Next(s, a).readers[r]);
      case Leave(r) => ReaderKept(s.now, s.holder, s.calls, s.readers, r, Gone);
      case ReadClosed(r) => ReaderKept(s.now, s.holder, s.calls, s.readers, r, Next(s, a).readers[r]);
    }
  }

  /** The steps of SendSolution outside sendAndClose. */
  lemma OutsideRendezvous(s: State, a: Action)
    requires Rendezvous(s) && Enabled(s, a)
    requires a.Begin? || a.Reject? || a.Fail? || a.Store? || a.Undo? || (a.Lock? && s.calls[a.k].sc !in s.bridge.sessions)
    ensures Rendezvous(Next(s, a))
  {
    var t := Next(s, a);
    assert t.calls == s.calls[a.k := t.calls[a.k]];
    OutsideKept(s.now, s.bridge, s.holder, s.calls, a.k, t.calls[a.k]);
    OutsideDelivered(s.now, s.bridge, s.holder, s.calls, s.readers, a.k, t.calls[a.k]);
  }

  lemma LockRendezvous(s: State, k: CallId)
    requires Rendezvous(s) && Enabled(s, Lock(k)) && s.calls[k].sc in s.bridge.sessions
    ensures Rendezvous(Next(s, Lock(k)))
  {
    LockKept(s.now, s.bridge, s.calls, s.readers, k);
  }

  lemma DeliverRendezvous(s: State, k: CallId, r: ReaderId)
    requires Rendezvous(s) && Enabled(s, Deliver(k, r))
    ensures Rendezvous(Next(s, Deliver(k, r)))
  {
    DeliverKept(s.now, s.bridge, s.calls, s.readers, k, r);
  }

  lemma GiveUpRendezvous(s: State, k: CallId)
    requires Rendezvous(s) && Enabled(s, GiveUp(k))
    ensures Rendezvous(Next(s, GiveUp(k)))
  {
    GiveUpKept(s.now, s.bridge, s.calls, s.readers, k);
  }

  lemma FinishRendezvous(s: State, k: CallId)
    requires Rendezvous(s) && Enabled(s, Finish(k))
    ensures Rendezvous(Next(s, Finish(k)))
  {
    FinishKept(s.now, s.bridge, s.calls, s.readers, k, s.calls[k].(pc := AfterSelect(s.calls[k])));
  }

  lemma StepRendezvous(s: State, a: Action)
    requires Rendezvous(s) && Enabled(s, a)
    ensures Rendezvous(Next(s, a))
  {
    if a.Register? || a.Expire? || a.Fetch? || a.Leave? || a.ReadClosed? {
      BridgeRendezvous(s, a);
    } else if a.StoreOther? || a.Remove? || a.Wipe? {
      assert Next(s, a) == s.(now := s.now + 1, db := Next(s, a).db);
    } else if a.Lock? && s.calls[a.k].sc in s.bridge.sessions {
      LockRendezvous(s, a.k);
    } else if a.Deliver? {
      DeliverRendezvous(s, a.k, a.r);
    } else if a.GiveUp? {
      GiveUpRendezvous(s, a.k);
    } else if a.Finish? {
      FinishRendezvous(s, a.k);
    } else {
      OutsideRendezvous(s, a);
    }
  }

  // ---- The session rows ----

  ghost predicate RowIds(db: Table) {
    && (forall t :: t in db.rows ==> db.rows[t].id < db.nextRow && db.rows[t].id !in db.removed)
    && (forall id :: id in db.removed ==> id < db.nextRow)
    && (forall t, u :: t in db.rows && u in db.rows && db.rows[t].id == db.rows[u].id ==> t == u)
  }

  /** The row a call stored is there until others remove it or the call takes it back. */
  ghost predicate OwnRow(db: Table, c: Call) {
    && (c.stored.Some? <==> c.evt.worked)
    && (c.pc.Begun? ==> c.stored.None?)
    && (c.stored.Some? ==>
          var st := c.stored.value;
          && st.row < db.nextRow && st.token == c.evt.token
          && (forall t :: t in db.rows && db.rows[t].id == st.row ==> t == st.token)
          && (HasRow(db, st) <==> st.row !in db.removed && c.pc != ReturnedError(false)))
  }

  ghost predicate OwnRows(db: Table, calls: Calls) {
    && RowIds(db)
    && (forall k :: k in calls ==> OwnRow(db, calls[k]))
    && (forall j, k :: j in calls && k in calls && calls[j].stored.Some? && calls[k].stored.Some? && j != k ==>
          calls[j].stored.value.row != calls[k].stored.value.row)
  }

  lemma OwnRowKept(db: Table, c: Call, token: string, member: nat)
    requires RowIds(db) && OwnRow(db, c) && token !in db.rows
    ensures OwnRow(Inserted(db, token, member), c)
  {
  }

  lemma RowIdsKept(db: Table, token: string, member: nat)
    requires RowIds(db) && token !in db.rows
    ensures RowIds(Inserted(db, token, member))
  {
  }

  lemma InsertRowKept(db: Table, calls: Calls, token: string, member: nat)
    requires OwnRows(db, calls) && token !in db.rows
    ensures OwnRows(Inserted(db, token, member), calls)
  {
    RowIdsKept(db, token, member);
    forall k | k in calls ensures OwnRow(Inserted(db, token, member), calls[k]) {
      OwnRowKept(db, calls[k], token, member);
    }
  }

  lemma StoreKept(db: Table, calls: Calls, token: string, member: nat, k: CallId, c: Call)
    requires OwnRows(db, calls) && token !in db.rows && k in calls
    requires c.stored == Some(Stored(token, db.nextRow)) && c.evt == Event(true, token, "") && c.pc.Locking?
    ensures OwnRows(Inserted(db, token, member), calls[k := c])
  {
    InsertRowKept(db, calls, token, member);
  }

  lemma CallRowKept(db: Table, calls: Calls, k: CallId, c: Call)
    requires OwnRows(db, calls) && OwnRow(db, c)
    requires c.stored.Some? ==> k in calls && calls[k].stored == c.stored
    ensures OwnRows(db, calls[k := c])
  {
  }

  lemma UndoKept(db: Table, calls: Calls, k: CallId)
    requires OwnRows(db, calls) && k in calls && calls[k].pc.Undoing? && calls[k].stored.Some?
    ensures OwnRows(Undone(db, calls[k].stored.value), calls[k := calls[k].(pc := ReturnedError(false))])
  {
    var st := calls[k].stored.value;
    var u := Undone(db, st);
    if HasRow(db, st) {
      assert u.removed == db.removed;
    } else {
      OthersKept(db, calls, {st.token});
    }
  }

  lemma OthersKept(db: Table, calls: Calls, tokens: set<string>)
    requires OwnRows(db, calls)
    ensures OwnRows(DeletedByOthers(db, tokens), calls)
  {
    var db' := DeletedByOthers(db, tokens);
    forall k | k in calls ensures OwnRow(db', calls[k]) {
      if calls[k].stored.Some? && HasRow(db, calls[k].stored.value) && calls[k].stored.value.token in tokens {
        assert db.rows[calls[k].stored.value.token].id in db'.removed;
      }
    }
  }

  lemma BeginRows(s: State, a: Action)
    requires OwnRows(s.db, s.calls) && Enabled(s, a) && (a.Begin? || a.Reject? || a.Fail?)
    ensures OwnRows(Next(s, a).db, Next(s, a).calls)
  {
    CallRowKept(s.db, s.calls, a.k, Next(s, a).calls[a.k]);
  }

  lemma LockRows(s: State, a: Action)
    requires OwnRows(s.db, s.calls) && Enabled(s, a) && a.Lock?
    ensures OwnRows(Next(s, a).db, Next(s, a).calls)
  {
    CallRowKept(s.db, s.calls, a.k, Next(s, a).calls[a.k]);
  }

  lemma SendRows(s: State, a: Action)
    requires OwnRows(s.db, s.calls) && Enabled(s, a) && (a.Deliver? || a.GiveUp? || a.Finish?)
    ensures OwnRows(Next(s, a).db, Next(s, a).calls)
  {
    CallRowKept(s.db, s.calls, a.k, Next(s, a).calls[a.k]);
  }

  lemma StepRows(s: State, a: Action)
    requires OwnRows(s.db, s.calls) && Enabled(s, a)
    ensures OwnRows(Next(s, a).db, Next(s, a).calls)
  {
    var t := Next(s, a);
    if a.Store? {
      StoreKept(s.db, s.calls, a.token, a.member, a.k, t.calls[a.k]);
    } else if a.Undo? {
      if a.ok && s.calls[a.k].stored.Some? {
        UndoKept(s.db, s.calls, a.k);
      } else {
        CallRowKept(s.db, s.calls, a.k, t.calls[a.k]);
      }
    } else if a.StoreOther? {
      InsertRowKept(s.db, s.calls, a.token, a.member);
    } else if a.Remove? {
      OthersKept(s.db, s.calls, {a.token});
    } else if a.Wipe? {
      OthersKept(s.db, s.calls, set t | t in s.db.rows && s.db.rows[t].member == a.member);
    } else if a.Begin? || a.Reject? || a.Fail? {
      BeginRows(s, a);
    } else if a.Lock? {
      LockRows(s, a);
    } else if a.Deliver? || a.GiveUp? || a.Finish? {
      SendRows(s, a);
    }
  }

  // ---- Results for every interleaving ----

  lemma {:induction false} RunKeeps(states: seq<State>, acts: seq<Action>, n: nat)
    requires IsRun(states, acts) && n <= |acts|
    ensures Rendezvous(states[n]) && OwnRows(states[n].db, states[n].calls)
  {
    if n > 0 {
      RunKeeps(states, acts, n - 1);
      StepRendezvous(states[n-1], acts[n-1]);
      StepRows(states[n-1], acts[n-1]);
    }
  }
}
