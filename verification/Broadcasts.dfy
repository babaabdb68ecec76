/**
 The two broadcasters (internal/broadcasts/endpoints.go and attendants.go), which
 differ only in what they send. A registration is numbered; `calls` is what its
 sink has been called with, and `fails` says which of its calls return an error.
*/
module Broadcasts {
  import opened Prelude

  type Reg = nat
  type Failures = (Reg, nat) -> bool

  datatype Cast<M> = Cast(sinks: set<Reg>, next: Reg, calls: map<Reg, seq<M>>)

  ghost predicate CastOk<M>(c: Cast<M>) {
    && (forall r :: r in c.sinks ==> r in c.calls)
    && (forall r :: r in c.calls ==> r < c.next)
  }

  function Registered<M>(c: Cast<M>): Cast<M> {
    Cast(c.sinks + {c.next}, c.next + 1, c.calls[c.next := []])
  }

  function Cancelled<M>(c: Cast<M>, r: Reg): Cast<M> {
    c.(sinks := c.sinks - {r})
  }

  /** One message to every sink; those whose call fails are dropped. */
  ghost function Sent<M>(fails: Failures, c: Cast<M>, m: M): Cast<M>
    requires CastOk(c)
  {
    Cast((set r | r in c.sinks && !fails(r, |c.calls[r]|)), c.next,
         map r | r in c.calls :: if r in c.sinks then c.calls[r] + [m] else c.calls[r])
  }

  /** A call to one sink that does not go through the broadcaster; its error is ignored. */
  function Direct<M>(c: Cast<M>, r: Reg, m: M): Cast<M> {
    if r in c.calls then c.(calls := c.calls[r := c.calls[r] + [m]]) else c
  }

  class Broadcast<M> {
    var sinks: set<Reg>
    var next: Reg
    var calls: map<Reg, seq<M>>
    const fails: Failures

    ghost function State(): Cast<M>
      reads this
    {
      Cast(sinks, next, calls)
    }

    ghost predicate Valid()
      reads this
    {
      CastOk(State())
    }

    constructor (f: Failures)
      ensures Valid() && State() == Cast({}, 0, map[]) && fails == f
    {
      sinks, next, calls, fails := {}, 0, map[], f;
    }

    method Register() returns (r: Reg)
      requires Valid()
      modifies this
      ensures Valid() && r == old(next) && State() == Registered(old(State()))
    {
      r := next;
      sinks, next, calls := sinks + {r}, next + 1, calls[r := []];
    }

    /** The function Register returns. */
    method Cancel(r: Reg)
      requires Valid()
      modifies this
      ensures Valid() && State() == Cancelled(old(State()), r)
    {
      sinks := sinks - {r};
    }

    /** Visits the sinks in an arbitrary order. */
    method Send(m: M)
      requires Valid()
      modifies this
      ensures Valid() && State() == Sent(fails, old(State()), m)
    {
      var todo := sinks;
      while todo != {}
        invariant todo <= sinks <= old(sinks) && next == old(next)
        invariant calls.Keys == old(calls).Keys
        invariant forall r :: r in calls ==> calls[r] == if r in old(sinks) - todo then old(calls)[r] + [m] else old(calls)[r]
        invariant forall r :: r in old(sinks) - todo ==> (r in sinks <==> !fails(r, |old(calls)[r]|))
        decreases |todo|
      {
        var s :| s in todo;
        todo := todo - {s};
        CallOne(s, m);
      }
    }

    /** One call to a sink, which is dropped if the call fails. */
    method CallOne(s: Reg, m: M)
      requires s in calls
      modifies `calls, `sinks
      ensures calls == old(calls)[s := old(calls)[s] + [m]]
      ensures sinks == if fails(s, |old(calls)[s]|) then old(sinks) - {s} else old(sinks)
    {
      var failed := fails(s, |calls[s]|);
      calls := calls[s := calls[s] + [m]];
      if failed {
        sinks := sinks - {s};
      }
    }

    method CallDirectly(r: Reg, m: M)
      requires Valid()
      modifies this
      ensures Valid() && State() == Direct(old(State()), r, m)
    {
      if r in calls {
        calls := calls[r := calls[r] + [m]];
      }
    }
  }

  // ---- Runs of Register, cancel and sends ----

  datatype Event<M> = Register(r: Reg) | Cancel(r: Reg) | Send(m: M)

  ghost predicate Happens<M>(fails: Failures, c: Cast<M>, e: Event<M>, d: Cast<M>)
    requires CastOk(c)
  {
    match e
    case Register(r) => r == c.next && d == Registered(c)
    case Cancel(r) => r in c.calls && d == Cancelled(c, r)
    case Send(m) => d == Sent(fails, c, m)
  }

  ghost predicate IsRun<M>(fails: Failures, states: seq<Cast<M>>, events: seq<Event<M>>) {
    && |states| == |events| + 1
    && states[0] == Cast({}, 0, map[])
    && forall i :: 0 <= i < |events| ==> CastOk(states[i]) && Happens(fails, states[i], events[i], states[i+1])
  }

  /** The messages sent after r was registered and before it was cancelled. */
  ghost function Offered<M>(events: seq<Event<M>>, r: Reg): seq<M> {
    if events == [] then []
    else
      var before := events[..|events|-1];
      var e := events[|events|-1];
      Offered(before, r) + if e.Send? && Register(r) in before && Cancel(r) !in before then [e.m] else []
  }

  /** p is s up to and including the first call of r that fails. */
  ghost predicate UpToFirstFailure<M>(fails: Failures, r: Reg, p: seq<M>, s: seq<M>) {
    && p <= s
    && (forall i :: 0 <= i < |p| - 1 ==> !fails(r, i))
    && (p != s ==> p != [] && fails(r, |p| - 1))
  }

  ghost predicate Unfailed<M>(fails: Failures, r: Reg, p: seq<M>) {
    forall i :: 0 <= i < |p| ==> !fails(r, i)
  }

  /**
   r has been called with the messages offered to it up to and including the first
   call that failed, and is registered exactly if nothing failed or cancelled it.
  */
  ghost predicate Matches<M>(fails: Failures, c: Cast<M>, r: Reg, registered: bool, cancelled: bool, offered: seq<M>) {
    && CastOk(c)
    && (r in c.calls <==> registered)
    && (registered ==>
          && UpToFirstFailure(fails, r, c.calls[r], offered)
          && (r in c.sinks <==> !cancelled && Unfailed(fails, r, c.calls[r])))
    && (!registered ==> offered == [] && !cancelled)
  }

  ghost predicate CallsMatch<M>(fails: Failures, c: Cast<M>, events: seq<Event<M>>, r: Reg) {
    Matches(fails, c, r, Register(r) in events, Cancel(r) in events, Offered(events, r))
  }

  /**
   In every run, whatever the order of each pass and however many sinks fail in it,
   a registration is called with exactly the messages sent from its registration up
   to its cancellation, cut off after the first call that fails; and it is still
   registered exactly if neither has happened.
  */
  lemma {:induction false} CallsAreOffered<M>(fails: Failures, states: seq<Cast<M>>, events: seq<Event<M>>, r: Reg)
    requires IsRun(fails, states, events)
    ensures CallsMatch(fails, states[|events|], events, r)
    decreases |events|
  {
    var n := |events|;
    if n > 0 {
      CallsAreOffered(fails, states[..n], events[..n-1], r);
      assert events == events[..n-1] + [events[n-1]];
      StepCalls(fails, states[n-1], events[n-1], states[n], events[..n-1], r);
    }
  }

  /** One more event. */
  lemma Snoc<M>(before: seq<Event<M>>, e: Event<M>, r: Reg)
    ensures var after := before + [e];
      && (Register(r) in after <==> Register(r) in before || e == Register(r))
      && (Cancel(r) in after <==> Cancel(r) in before || e == Cancel(r))
      && Offered(after, r) == Offered(before, r) + if e.Send? && Register(r) in before && Cancel(r) !in before then [e.m] else []
  {
    var after := before + [e];
    assert after[..|after| - 1] == before;
  }

  lemma RegisterMatches<M>(fails: Failures, c: Cast<M>, r: Reg, registered: bool, cancelled: bool, offered: seq<M>)
    requires Matches(fails, c, r, registered, cancelled, offered)
    ensures Matches(fails, Registered(c), r, registered || r == c.next, cancelled, offered)
  {
  }

  lemma CancelMatches<M>(fails: Failures, c: Cast<M>, q: Reg, r: Reg, registered: bool, cancelled: bool, offered: seq<M>)
    requires Matches(fails, c, r, registered, cancelled, offered) && q in c.calls
    ensures Matches(fails, Cancelled(c, q), r, registered, cancelled || q == r, offered)
  {
  }

  lemma SendMatches<M>(fails: Failures, c: Cast<M>, m: M, r: Reg, registered: bool, cancelled: bool, offered: seq<M>)
    requires Matches(fails, c, r, registered, cancelled, offered)
    ensures Matches(fails, Sent(fails, c, m), r, registered, cancelled,
                    offered + if registered && !cancelled then [m] else [])
  {
    if r in c.sinks {
      assert c.calls[r] == offered;
    }
  }

  lemma StepCalls<M>(fails: Failures, c: Cast<M>, e: Event<M>, d: Cast<M>, before: seq<Event<M>>, r: Reg)
    requires CallsMatch(fails, c, before, r) && Happens(fails, c, e, d)
    ensures CallsMatch(fails, d, before + [e], r)
  {
    Snoc(before, e, r);
    match e
    case Register(_) => RegisterMatches(fails, c, r, Register(r) in before, Cancel(r) in before, Offered(before, r));
    case Cancel(q) => CancelMatches(fails, c, q, r, Register(r) in before, Cancel(r) in before, Offered(before, r));
    case Send(m) => SendMatches(fails, c, m, r, Register(r) in before, Cancel(r) in before, Offered(before, r));
  }
}
