/** Waiting for a diagnostic sink to close: registration, cancellation, closing and delivery can
    interleave in any way, and no waiter is lost. */
module Sink {
  import opened Events

  datatype SinkState = Unbound | Bound | Sealed | Closed

  datatype SinkError = NotBound | AlreadyBound | SealOnlyFromBound | CloseOnlyFromSealed

  /** `resolved` holds what `wait_closed` returned. */
  datatype Waiter = Waiting | Withdrawn | Resolved(summary: nat)

  /** `calling` are the callbacks the closing thread has still to call, after it has released the
      lock; `called` those it has called; `posted` the results queued on event loops. */
  datatype World = World(
    state: SinkState,
    summary: Option<nat>,
    waiters: seq<nat>,
    atClose: seq<nat>,
    called: seq<nat>,
    calling: seq<nat>,
    posted: set<nat>,
    status: map<nat, Waiter>)

  const NEW_SINK := World(Unbound, None, [], [], [], [], {}, map[])

  datatype Op =
    | Register(waiter: nat)
    | Cancel(waiter: nat)
    | Bind
    | Seal
    | Close(summary: nat)
    | CallNext
    | Deliver(waiter: nat)

  function Without(waiters: seq<nat>, waiter: nat): seq<nat> {
    if waiters == [] then []
    else if waiters[0] == waiter then waiters[1..]
    else [waiters[0]] + Without(waiters[1..], waiter)
  }

  /** An unbound sink cannot be waited for; a closed one answers at once. */
  function RegisterStep(w: World, waiter: nat): World {
    if waiter in w.status || w.state.Unbound? then w
    else if w.state.Closed? && w.summary.Some? then w.(status := w.status[waiter := Resolved(w.summary.value)])
    else w.(waiters := w.waiters + [waiter], status := w.status[waiter := Waiting])
  }

  function CancelStep(w: World, waiter: nat): World {
    if waiter !in w.status || !w.status[waiter].Waiting? then w
    else w.(waiters := Without(w.waiters, waiter), status := w.status[waiter := Withdrawn])
  }

  /** Under the lock: the state changes, the summary is fixed and the list is taken and cleared. */
  function CloseStep(w: World, summary: nat): World {
    if !w.state.Sealed? then w
    else w.(state := Closed, summary := Some(summary), waiters := [], atClose := w.waiters, calling := w.waiters)
  }

  /** One callback posts the summary to its loop; a cancelled waiter's loop may already be gone. */
  function CallStep(w: World): World {
    if w.calling == [] then w
    else w.(called := w.called + [w.calling[0]], calling := w.calling[1..], posted := w.posted + {w.calling[0]})
  }

  function DeliverStep(w: World, waiter: nat): World {
    if waiter !in w.posted || w.summary.None? then w
    else
      var rest := w.(posted := w.posted - {waiter});
      if waiter in w.status && w.status[waiter].Waiting?
      then rest.(status := w.status[waiter := Resolved(w.summary.value)], waiters := Without(w.waiters, waiter))
      else rest
  }

  function Step(w: World, op: Op): World {
    match op
    case Register(waiter) => RegisterStep(w, waiter)
    case Cancel(waiter) => CancelStep(w, waiter)
    case Bind => if w.state.Unbound? then w.(state := Bound) else w
    case Seal => if w.state.Bound? then w.(state := Sealed) else w
    case Close(summary) => CloseStep(w, summary)
    case CallNext => CallStep(w)
    case Deliver(waiter) => DeliverStep(w, waiter)
  }

  predicate Distinct(s: seq<nat>) {
    forall i, j :: 0 <= i < j < |s| ==> s[i] != s[j]
  }

  predicate IsWaiting(w: World, id: nat) {
    id in w.status && w.status[id].Waiting?
  }

  ghost predicate Inv(w: World) {
    && Distinct(w.waiters) && Distinct(w.atClose)
    && (forall i :: i in w.atClose ==> i in w.status)
    && w.called + w.calling == w.atClose
    && (forall i :: i in w.posted ==> i in w.called)
    && (w.summary.Some? <==> w.state.Closed?)
    && (!w.state.Closed? ==>
          && w.atClose == []
          && forall i :: i in w.waiters <==> IsWaiting(w, i))
    && (w.state.Closed? ==>
          && w.waiters == []
          && (forall i :: IsWaiting(w, i) ==> i in w.calling || i in w.posted)
          && (forall i :: i in w.status && w.status[i].Resolved? ==> w.status[i].summary == w.summary.value))
    && (forall i :: i in w.status && w.status[i].Resolved? ==> w.state.Closed?)
  }

  lemma {:induction false} WithoutProps(s: seq<nat>, x: nat)
    requires Distinct(s)
    ensures Distinct(Without(s, x)) && forall i :: i in Without(s, x) <==> i in s && i != x
  {
    if s != [] {
      assert Distinct(s[1..]);
      WithoutProps(s[1..], x);
      assert forall i :: i in s <==> i == s[0] || i in s[1..];
      assert s[0] !in s[1..];
    }
  }

  lemma DistinctSnoc(s: seq<nat>, x: nat)
    requires Distinct(s) && x !in s
    ensures Distinct(s + [x])
  {
  }

  lemma RegisterKept(w: World, waiter: nat)
    requires Inv(w)
    ensures Inv(RegisterStep(w, waiter))
  {
    if waiter !in w.status && !w.state.Unbound? && !w.state.Closed? {
      assert !IsWaiting(w, waiter);
      DistinctSnoc(w.waiters, waiter);
    }
    hide Distinct;
  }

  lemma CancelKept(w: World, waiter: nat)
    requires Inv(w)
    ensures Inv(CancelStep(w, waiter))
  {
    WithoutProps(w.waiters, waiter);
    hide Distinct;
  }

  lemma CallKept(w: World)
    requires Inv(w)
    ensures Inv(CallStep(w))
  {
    hide Distinct;
    if w.calling != [] {
      assert (w.called + [w.calling[0]]) + w.calling[1..] == w.atClose;
    }
  }

  lemma DeliverKept(w: World, waiter: nat)
    requires Inv(w)
    ensures Inv(DeliverStep(w, waiter))
  {
    hide Distinct;
  }

  lemma StepKept(w: World, op: Op)
    requires Inv(w)
    ensures Inv(Step(w, op))
  {
    match op
    case Register(waiter) => RegisterKept(w, waiter);
    case Cancel(waiter) => CancelKept(w, waiter);
    case Bind => hide Distinct;
    case Seal => hide Distinct;
    case Close(_) => hide Distinct;
    case CallNext => CallKept(w);
    case Deliver(waiter) => DeliverKept(w, waiter);
  }

  function Rank(s: SinkState): nat {
    match s
    case Unbound => 0
    case Bound => 1
    case Sealed => 2
    case Closed => 3
  }

  /** One step moves the state at most one place forward, and the summary, once set, is final. */
  lemma StepForward(w: World, op: Op)
    requires Inv(w)
    ensures Rank(w.state) <= Rank(Step(w, op).state) <= Rank(w.state) + 1
    ensures w.summary.Some? ==> Step(w, op).summary == w.summary && Step(w, op).atClose == w.atClose
  {
  }

  function Run(w: World, ops: seq<Op>): World
    decreases |ops|
  {
    if ops == [] then w else Run(Step(w, ops[0]), ops[1..])
  }

  lemma {:induction false} RunKept(w: World, ops: seq<Op>)
    requires Inv(w)
    ensures Inv(Run(w, ops)) && Rank(w.state) <= Rank(Run(w, ops).state)
    ensures w.summary.Some? ==> Run(w, ops).summary == w.summary && Run(w, ops).atClose == w.atClose
    decreases |ops|
  {
    if ops != [] {
      StepKept(w, ops[0]);
      StepForward(w, ops[0]);
      RunKept(Step(w, ops[0]), ops[1..]);
    }
  }

  /** No lost wakeup: after a close, once the closing thread has made its calls, each waiter that
      was registered and not cancelled at the close has been called exactly once, in order; once
      the posted results are delivered nobody waits, everybody who was not cancelled has the one
      summary, and the list is empty. */
  lemma NoLostWakeup(before: World, summary: nat, ops: seq<Op>)
    requires Inv(before) && before.state.Sealed?
    ensures var w := Run(Step(before, Close(summary)), ops);
            && w.state.Closed? && w.summary == Some(summary) && w.waiters == []
            && w.called + w.calling == before.waiters && Distinct(before.waiters)
            && (w.calling == [] && w.posted == {} ==>
                  && w.called == before.waiters
                  && (forall i :: i in w.status ==> !w.status[i].Waiting?)
                  && (forall i :: i in w.status && !w.status[i].Withdrawn? ==> w.status[i] == Resolved(summary)))
  {
    var closed := Step(before, Close(summary));
    StepKept(before, Close(summary));
    RunKept(closed, ops);
    var w := Run(closed, ops);
    if w.calling == [] && w.posted == {} {
      assert w.called + [] == w.called;
      forall i | i in w.status ensures !w.status[i].Waiting? {
        assert !IsWaiting(w, i);
      }
    }
  }

  /** A waiter that comes after the close gets the summary at once. */
  lemma LateWaiter(w: World, waiter: nat)
    requires Inv(w) && w.state.Closed? && waiter !in w.status
    ensures Step(w, Register(waiter)).status[waiter] == Resolved(w.summary.value)
  {
  }

  /** The closing thread's calls, one after the other. */
  function CallAll(w: World): World
    decreases |w.calling|
  {
    if w.calling == [] then w else CallAll(CallStep(w))
  }

  // ----- The sink object -----

  class DiagnosticSink {
    var state: SinkState
    var summary: Option<nat>
    var waiters: seq<nat>
    var posted: seq<nat>
    ghost var world: World

    /** The sink is the world of the interleaving model whenever its lock is free and no close is
        under way. */
    ghost predicate Valid()
      reads this
    {
      && Inv(world) && world.calling == []
      && world.state == state && world.summary == summary && world.waiters == waiters && world.called == posted
    }

    constructor ()
      ensures Valid() && world == NEW_SINK
    {
      state, summary, waiters, posted := Unbound, None, [], [];
      world := NEW_SINK;
    }

    method BindSink() returns (error: Option<SinkError>)
      requires Valid()
      modifies this`state, this`world
      ensures Valid() && world == Step(old(world), Bind)
      ensures error == if old(state).Unbound? then None else Some(AlreadyBound)
    {
      StepKept(world, Bind);
      world := Step(world, Bind);
      hide Inv;
      if state != Unbound {
        return Some(AlreadyBound);
      }
      state := Bound;
      error := None;
    }

    method SealSink() returns (error: Option<SinkError>)
      requires Valid()
      modifies this`state, this`world
      ensures Valid() && world == Step(old(world), Seal)
      ensures error == match old(state) case Unbound => Some(NotBound) case Bound => None case _ => Some(SealOnlyFromBound)
    {
      StepKept(world, Seal);
      world := Step(world, Seal);
      hide Inv;
      if state == Unbound {
        return Some(NotBound);
      }
      if state != Bound {
        return Some(SealOnlyFromBound);
      }
      state := Sealed;
      error := None;
    }

    /** The locked part of `wait_closed`: refuse, answer, or register. */
    method AddWaiter(waiter: nat) returns (error: Option<SinkError>, answer: Option<nat>)
      requires Valid() && waiter !in world.status
      modifies this`waiters, this`world
      ensures Valid() && world == RegisterStep(old(world), waiter)
      ensures error == if state.Unbound? then Some(NotBound) else None
      ensures answer == summary && (answer.Some? ==> world.status[waiter] == Resolved(answer.value))
      ensures error.None? && answer.None? ==> waiters == old(waiters) + [waiter] && world.status[waiter].Waiting?
    {
      RegisterKept(world, waiter);
      assert world.summary.Some? <==> world.state.Closed?;
      world := RegisterStep(world, waiter);
      hide Inv;
      if state == Unbound {
        return Some(NotBound), None;
      }
      if state == Closed {
        return None, summary;
      }
      waiters := waiters + [waiter];
      error, answer := None, None;
    }

    /** The `finally` of `wait_closed`: removes the callback if it is still listed. */
    method RemoveWaiter(waiter: nat)
      requires Valid()
      modifies this`waiters, this`world
      ensures Valid() && world == CancelStep(old(world), waiter) && waiters == Without(old(waiters), waiter)
    {
      CancelKept(world, waiter);
      CancelWithout(world, waiter);
      world := CancelStep(world, waiter);
      WithoutSplit(waiters, waiter);
      hide Inv;
      var i := 0;
      while i < |waiters| && waiters[i] != waiter
        invariant 0 <= i <= |waiters| && waiter !in waiters[..i]
      {
        i := i + 1;
      }
      if i < |waiters| {
        waiters := waiters[..i] + waiters[i + 1..];
      }
    }

    /** Calls the callbacks that a close has taken from the list, in order. */
    method CallCallbacks(pending: seq<nat>)
      requires Inv(world) && world.calling == pending && world.called == posted
      modifies this`posted, this`world
      ensures Inv(world) && world == CallAll(old(world)) && world.calling == [] && world.called == posted
      ensures posted == old(posted) + pending
      ensures world.state == old(world).state && world.summary == old(world).summary && world.waiters == old(world).waiters
    {
      hide Inv;
      for i := 0 to |pending|
        invariant posted == old(posted) + pending[..i]
        invariant Inv(world) && world.calling == pending[i..] && world.called == posted
        invariant world.state == old(world).state && world.summary == old(world).summary && world.waiters == old(world).waiters
        invariant CallAll(world) == CallAll(old(world))
      {
        CallKept(world);
        world := CallStep(world);
        posted := posted + [pending[i]];
      }
      assert pending[..|pending|] == pending;
    }

    /** Closes under the lock and then calls every callback it took from the list. */
    method CloseSink(result: nat) returns (error: Option<SinkError>)
      requires Valid()
      modifies this
      ensures Valid() && world == CallAll(CloseStep(old(world), result))
      ensures error == match old(state) case Unbound => Some(NotBound) case Sealed => None case _ => Some(CloseOnlyFromSealed)
      ensures error.Some? ==> state == old(state) && summary == old(summary) && waiters == old(waiters) && posted == old(posted)
      ensures error.None? ==> state == Closed && summary == Some(result) && waiters == []
                              && posted == old(posted) + old(waiters)
    {
      if state == Unbound {
        return Some(NotBound);
      }
      if state != Sealed {
        return Some(CloseOnlyFromSealed);
      }
      ClosedKept(world, result);
      hide Inv;
      state, summary := Closed, Some(result);
      var pending := waiters;
      waiters := [];
      world := CloseStep(world, result);
      CallCallbacks(pending);
      error := None;
    }
  }

  lemma ClosedKept(w: World, summary: nat)
    requires Inv(w)
    ensures Inv(CloseStep(w, summary))
  {
    StepKept(w, Close(summary));
  }

  /** Whoever is not waiting is not listed either. */
  lemma CancelWithout(w: World, waiter: nat)
    requires Inv(w)
    ensures CancelStep(w, waiter).waiters == Without(w.waiters, waiter)
  {
    if !IsWaiting(w, waiter) {
      assert waiter !in w.waiters;
      WithoutSplit(w.waiters, waiter);
    }
  }

  /** Removing the first occurrence, wherever it is. */
  lemma {:induction false} WithoutSplit(s: seq<nat>, x: nat)
    ensures x !in s ==> Without(s, x) == s
    ensures forall i :: 0 <= i < |s| && s[i] == x && x !in s[..i] ==> Without(s, x) == s[..i] + s[i + 1..]
  {
    if s != [] {
      WithoutSplit(s[1..], x);
      forall i | 0 <= i < |s| && s[i] == x && x !in s[..i] ensures Without(s, x) == s[..i] + s[i + 1..] {
        if i > 0 {
          assert s[0] == s[..i][0];
          assert s[1..][..i - 1] == s[1..i] && forall k :: k in s[1..i] ==> k in s[..i];
          assert s[1..][i..] == s[i + 1..];
          assert [s[0]] + s[1..i] == s[..i];
        }
      }
    }
  }
}
