/**
 The two lock-protected maps of the network node: the connection tracker's
 `active` (internal/network/conntracker.go) and the node's `remotes`
 (internal/network/new.go). A peer's public key stands both for the 32 byte
 key of `active` and for the feed reference string of `remotes`.
*/
module Connections {
  import opened Prelude

  type Key = string
  type Conn = nat

  /** An accepted connection and the channel that announces its end. */
  datatype Entry = Entry(conn: Conn, done: nat)

  /** What the tracker holds; `closed` are the done channels closed so far. */
  datatype Tracker = Tracker(active: map<Key, Entry>, nextDone: nat, closed: set<nat>)

  const NEW_TRACKER := Tracker(map[], 0, {})

  function Insert(t: Tracker, k: Key, c: Conn): Tracker {
    Tracker(t.active[k := Entry(c, t.nextDone)], t.nextDone + 1, t.closed)
  }

  /** OnClose for key k, whoever holds the entry. */
  function Drop(t: Tracker, k: Key): Tracker {
    if k in t.active
    then Tracker(t.active - {k}, t.nextDone, t.closed + {t.active[k].done})
    else t
  }

  /** Active entries own distinct done channels, none of them closed. */
  ghost predicate Sound(t: Tracker) {
    && (forall k :: k in t.active ==> t.active[k].done < t.nextDone && t.active[k].done !in t.closed)
    && (forall j, k :: j in t.active && k in t.active && t.active[j].done == t.active[k].done ==> j == k)
    && (forall d :: d in t.closed ==> d < t.nextDone)
  }

  lemma InsertSound(t: Tracker, k: Key, c: Conn)
    requires Sound(t)
    ensures Sound(Insert(t, k, c))
  {
    var u := Insert(t, k, c);
    forall i, j | i in u.active && j in u.active && u.active[i].done == u.active[j].done
      ensures i == j
    {
      assert i != k ==> u.active[i] == t.active[i];
      assert j != k ==> u.active[j] == t.active[j];
    }
  }

  lemma DropSound(t: Tracker, k: Key)
    requires Sound(t)
    ensures Sound(Drop(t, k))
  {
  }

  lemma InsertThenDrop(t: Tracker, k: Key, c: Conn)
    requires k !in t.active
    ensures Drop(Insert(t, k, c), k).active == t.active
  {
  }

  lemma AddThenRemove(remotes: map<Key, Conn>, k: Key, c: Conn)
    ensures remotes[k := c] - {k} == remotes - {k}
  {
  }

  /** connTracker, and the two locked halves of trackerLastWins. */
  class ConnTracker {
    var active: map<Key, Entry>
    var nextDone: nat
    var closed: set<nat>

    ghost function State(): Tracker
      reads this
    {
      Tracker(active, nextDone, closed)
    }

    ghost predicate Valid()
      reads this
    {
      Sound(State())
    }

    constructor ()
      ensures Valid() && State() == NEW_TRACKER
    {
      active, nextDone, closed := map[], 0, {};
    }

    method Count() returns (n: nat)
      ensures n == |active|
    {
      n := |active|;
    }

    method Active(k: Key) returns (ok: bool)
      ensures ok <==> k in active
    {
      ok := k in active;
    }

    /** Refuses a key that already has an entry. */
    method OnAccept(k: Key, c: Conn) returns (ok: bool)
      requires Valid()
      modifies this
      ensures Valid()
      ensures ok <==> k !in old(active)
      ensures State() == if ok then Insert(old(State()), k, c) else old(State())
      ensures active == if ok then old(active)[k := Entry(c, old(nextDone))] else old(active)
      ensures closed == old(closed) && forall j :: j in old(active) ==> old(active)[j].done != old(nextDone)
    {
      if k in active {
        return false;
      }
      InsertSound(State(), k, c);
      active, nextDone := active[k := Entry(c, nextDone)], nextDone + 1;
      return true;
    }

    /** First critical section of trackerLastWins.OnAccept: the entry to close and wait for. */
    method Previous(k: Key) returns (before: Option<Entry>)
      ensures before == if k in active then Some(active[k]) else None
    {
      if k in active {
        before := Some(active[k]);
      } else {
        before := None;
      }
    }

    /** Second critical section of trackerLastWins.OnAccept: it does not look again. */
    method Replace(k: Key, c: Conn)
      requires Valid()
      modifies this
      ensures Valid() && State() == Insert(old(State()), k, c)
      ensures active == old(active)[k := Entry(c, old(nextDone))] && closed == old(closed)
    {
      InsertSound(State(), k, c);
      active, nextDone := active[k := Entry(c, nextDone)], nextDone + 1;
    }

    method OnClose(k: Key)
      requires Valid()
      modifies this
      ensures Valid() && State() == Drop(old(State()), k)
      ensures active == old(active) - {k}
      ensures closed == old(closed) + if k in old(active) then {old(active)[k].done} else {}
      ensures k in old(active) ==> old(active)[k].done !in old(closed)
    {
      DropSound(State(), k);
      if k in active {
        var who := active[k];
        assert who.done !in closed;  // close() of a closed channel would panic
        closed := closed + {who.done};
        active := active - {k};
      }
    }

    /** Closes every tracked connection; the entries stay until their handlers call OnClose. */
    method CloseAll() returns (shut: set<Conn>)
      ensures shut == set k | k in active :: active[k].conn
    {
      var todo := active.Keys;
      shut := {};
      while todo != {}
        invariant todo <= active.Keys
        invariant shut == set k | k in active.Keys - todo :: active[k].conn
        decreases |todo|
      {
        var k :| k in todo;
        shut := shut + {active[k].conn};
        todo := todo - {k};
      }
    }
  }

  /** What GetAllEndpoints reports for one remote. */
  datatype EndpointStat = EndpointStat(id: Key, edp: Conn)

  /** The `remotes` half of node; an endpoint is named by the connection it serves. */
  class Node {
    var remotes: map<Key, Conn>
    const tracker: ConnTracker

    constructor (t: ConnTracker)
      ensures remotes == map[] && tracker == t
    {
      remotes := map[];
      tracker := t;
    }

    method GetEndpointFor(k: Key) returns (edp: Option<Conn>)
      ensures edp == if k in remotes then Some(remotes[k]) else None
    {
      if k in remotes {
        edp := Some(remotes[k]);
      } else {
        edp := None;
      }
    }

    method AddRemote(k: Key, edp: Conn)
      modifies this
      ensures remotes == old(remotes)[k := edp]
    {
      remotes := remotes[k := edp];
    }

    method RemoveRemote(k: Key)
      modifies this
      ensures remotes == old(remotes) - {k}
    {
      remotes := remotes - {k};
    }

    /**
     handleConnection under the refusing tracker, with nothing else going on: `made` says
     whether MakeHandler accepts the connection. Whatever happens, the tracker ends up as
     if the call had not been there, and so do the remotes but for the peer's own entry.
     `seen` and `listed` are what GetEndpointFor(k) and GetAllEndpoints say during Serve.
    */
    method HandleConnection(k: Key, c: Conn, made: bool)
      returns (served: bool, seen: Option<Conn>, listed: seq<EndpointStat>)
      requires tracker.Valid()
      modifies this, tracker
      ensures tracker.Valid() && tracker.active == old(tracker.active)
      ensures served <==> k !in old(tracker.active) && made
      ensures remotes == if served then old(remotes) - {k} else old(remotes)
      ensures k !in old(tracker.active) <==> tracker.closed != old(tracker.closed)
      ensures if served then seen == Some(c) && EndpointStat(k, c) in listed else seen == None && listed == []
    {
      served, seen, listed := false, None, [];
      AddThenRemove(remotes, k, c);
      var ok := tracker.OnAccept(k, c);
      if !ok {
        return;
      }
      InsertThenDrop(old(tracker.State()), k, c);
      if made {
        AddRemote(k, c);
        served := true;
        seen := GetEndpointFor(k);
        listed := GetAllEndpoints();
        RemoveRemote(k);
      }
      tracker.OnClose(k);
    }

    /** Every remote whose key the tracker knows, once each, in some order. */
    method GetAllEndpoints() returns (stats: seq<EndpointStat>)
      ensures forall s :: s in stats <==>
                s.id in remotes && s.id in tracker.active && s.edp == remotes[s.id]
      ensures forall i, j :: 0 <= i < j < |stats| ==> stats[i].id != stats[j].id
    {
      var todo := remotes.Keys;
      stats := [];
      while todo != {}
        invariant todo <= remotes.Keys
        invariant forall s :: s in stats <==>
                    s.id in remotes && s.id !in todo && s.id in tracker.active && s.edp == remotes[s.id]
        invariant forall i, j :: 0 <= i < j < |stats| ==> stats[i].id != stats[j].id
        decreases |todo|
      {
        var k :| k in todo;
        todo := todo - {k};
        var ok := tracker.Active(k);
        if ok {
          assert forall s :: s in stats ==> s.id != k;
          stats := stats + [EndpointStat(k, remotes[k])];
        }
      }
    }
  }
}
