/** Bounded shutdown: command delivery, the wait for the finalize reply and the join all measure
    against one deadline, fixed at the first shutdown action. Time is in nanoseconds. */
module Deadline {
  import opened Events

  const POLL_INTERVAL: nat := 1_000_000

  function Min(a: nat, b: nat): nat {
    if a <= b then a else b
  }

  /** How a bounded channel or thread answers when it is asked. */
  datatype Send = Sent | Full | Hungup

  datatype Delivery = Delivered | CommandFailed | TimedOut

  datatype Reply = Watermark(value: nat) | ReplyError | NoReply | ReplyLost

  datatype Verdict = Ok(watermark: nat) | FinalizeError | Abandoned

  /** A monotonic clock that only moves when somebody waits, plus whatever time passes anyway:
      `lag(n)` is the extra time that has passed when it is read for the n-th time. Only requested
      waiting counts as waited. */
  class Clock {
    var now: nat
    var looks: nat
    var waited: nat
    const lag: nat -> nat

    constructor (now: nat, lag: nat -> nat)
      ensures this.now == now && this.lag == lag && waited == 0
    {
      this.now, this.lag, looks, waited := now, lag, 0, 0;
    }

    method Read() returns (t: nat)
      modifies this`now, this`looks
      ensures t == now && now >= old(now)
    {
      now := now + lag(looks);
      looks := looks + 1;
      t := now;
    }

    /** Sleeping takes at least the requested time. */
    method Sleep(d: nat)
      modifies this`now, this`looks, this`waited
      ensures now >= old(now) + d && waited == old(waited) + d
    {
      now := now + d;
      waited := waited + d;
      var t := Read();
    }

    /** Waiting for an answer that comes after `delay`, or gives up after `limit`. */
    method WaitUpTo(limit: nat, delay: Option<nat>) returns (answered: bool)
      modifies this`now, this`looks, this`waited
      ensures answered ==> delay.Some? && delay.value <= limit
      ensures !answered ==> now >= old(now) + limit
      ensures now >= old(now) + (waited - old(waited)) && old(waited) <= waited <= old(waited) + limit
    {
      answered := delay.Some? && delay.value <= limit;
      Sleep(if answered then delay.value else limit);
    }
  }

  /** The budget the shutdown still has: what was granted, less what has been waited. Waiting more
      than that is impossible while every wait is cut at the deadline. */
  ghost predicate OnBudget(clock: Clock, start: nat, timeout: nat, waited: nat)
    reads clock
  {
    && clock.now >= start + (clock.waited - waited) && clock.waited >= waited
    && clock.waited - waited <= timeout
  }

  /** The first answer other than a full channel is `a`. */
  ghost predicate Answered(answers: nat -> Send, a: Send) {
    exists n: nat :: answers(n) == a && forall m: nat :: m < n ==> answers(m).Full?
  }

  class WriterSupervisor {
    const clock: Clock
    const timeout: nat
    var deadline: Option<nat>
    var abandoned: bool
    ghost var startedAt: nat
    ghost var waitedBefore: nat

    /** Once a deadline is set it is the first action's time plus the timeout, and all waiting since
        then fits into the timeout. */
    ghost predicate Valid()
      reads this, clock
    {
      deadline.Some? ==>
        && deadline.value == startedAt + timeout
        && OnBudget(clock, startedAt, timeout, waitedBefore)
    }

    constructor (clock: Clock, timeout: nat)
      ensures this.clock == clock && this.timeout == timeout && deadline == None && !abandoned && Valid()
    {
      this.clock, this.timeout, deadline, abandoned := clock, timeout, None, false;
    }

    method EnsureDeadline() returns (d: nat)
      requires Valid()
      modifies this, clock`now, clock`looks
      ensures Valid() && deadline == Some(d) && clock.now >= old(clock.now)
      ensures old(deadline).Some? ==> deadline == old(deadline) && startedAt == old(startedAt) && waitedBefore == old(waitedBefore)
      ensures old(deadline).None? ==> waitedBefore == old(clock.waited)
      ensures abandoned == old(abandoned) && clock.waited == old(clock.waited)
    {
      if deadline.None? {
        var now := clock.Read();
        startedAt, waitedBefore := now, clock.waited;
        deadline := Some(now + timeout);
      }
      d := deadline.value;
    }

    /** The time left, zero once the deadline has passed; a wait within it stays on budget. */
    method Remaining(d: nat) returns (left: nat)
      requires Valid() && deadline == Some(d)
      modifies clock`now, clock`looks
      ensures Valid() && clock.now >= old(clock.now) && clock.waited == old(clock.waited)
      ensures left == (if clock.now >= d then 0 else d - clock.now)
      ensures clock.waited + left <= waitedBefore + timeout
    {
      var now := clock.Read();
      left := if now >= d then 0 else d - now;
    }

    /** Polls until the command is taken, the receiver is gone or the deadline has passed. */
    method SendUntil(d: nat, answers: nat -> Send) returns (result: Delivery)
      requires Valid() && deadline == Some(d)
      modifies clock
      ensures Valid()
      ensures result.Delivered? ==> Answered(answers, Sent)
      ensures result.CommandFailed? ==> Answered(answers, Hungup)
      ensures result.TimedOut? ==> clock.now >= d && answers(0).Full?
    {
      var n := 0;
      while true
        invariant Valid()
        invariant forall m: nat :: m < n ==> answers(m).Full?
        decreases waitedBefore + timeout - clock.waited, if clock.now >= d then 0 else 1
      {
        match answers(n) {
          case Sent => return Delivered;
          case Hungup => return CommandFailed;
          case Full =>
        }
        n := n + 1;
        var left := Remaining(d);
        if left == 0 {
          return TimedOut;
        }
        clock.Sleep(Min(POLL_INTERVAL, left));
      }
    }

    /** Polls until the thread has finished or the deadline has passed. */
    method JoinUntil(d: nat, finished: nat -> bool) returns (joined: bool)
      requires Valid() && deadline == Some(d)
      modifies clock
      ensures Valid()
      ensures joined ==> exists n: nat :: finished(n)
      ensures !joined ==> clock.now >= d && !finished(0)
    {
      var n := 0;
      while !finished(n)
        invariant Valid() && (n > 0 ==> !finished(0))
        decreases waitedBefore + timeout - clock.waited
      {
        n := n + 1;
        var left := Remaining(d);
        if left == 0 {
          return false;
        }
        clock.Sleep(Min(POLL_INTERVAL, left));
      }
      joined := true;
    }

    /** Sends the finalize command and waits for its reply, all against the one deadline. */
    method Finalize(answers: nat -> Send, reply: Reply, delay: nat) returns (verdict: Verdict)
      requires Valid()
      modifies this, clock
      ensures Valid() && deadline.Some? && (old(deadline).Some? ==> deadline == old(deadline))
      ensures waitedBefore == if old(deadline).Some? then old(waitedBefore) else old(clock.waited)
      ensures !verdict.Abandoned? ==> Answered(answers, Sent) && abandoned == old(abandoned)
      ensures verdict.Ok? ==> reply == Watermark(verdict.watermark)
      ensures verdict.FinalizeError? ==> reply.ReplyError?
      ensures verdict.Abandoned? ==>
                abandoned && (Answered(answers, Hungup) || reply.ReplyLost? || clock.now >= deadline.value)
    {
      var d := EnsureDeadline();
      var sent := SendUntil(d, answers);
      if sent != Delivered {
        abandoned := true;
        return Abandoned;
      }
      var left := Remaining(d);
      var answered := clock.WaitUpTo(left, if reply.NoReply? then None else Some(delay));
      if !answered || reply.ReplyLost? {
        abandoned := true;
        return Abandoned;
      }
      match reply {
        case Watermark(value) => verdict := Ok(value);
        case _ => verdict := FinalizeError;
      }
    }

    /** Sends the closing command and joins the thread, against the deadline already set; an
        abandoned thread is left alone. */
    method JoinAfter(answers: nat -> Send, finished: nat -> bool) returns (joined: bool)
      requires Valid()
      modifies this, clock
      ensures Valid() && deadline.Some? && (old(deadline).Some? ==> deadline == old(deadline))
      ensures waitedBefore == if old(deadline).Some? then old(waitedBefore) else old(clock.waited)
      ensures joined ==> !old(abandoned) && !abandoned && Answered(answers, Sent) && exists n: nat :: finished(n)
      ensures !joined ==> abandoned && (old(abandoned) || Answered(answers, Hungup) || clock.now >= deadline.value)
    {
      var d := EnsureDeadline();
      if abandoned {
        return false;
      }
      var sent := SendUntil(d, answers);
      if sent != Delivered {
        abandoned := true;
        return false;
      }
      joined := JoinUntil(d, finished);
      abandoned := abandoned || !joined;
    }
  }

  /** A whole shutdown, whatever the writer answers: the waiting it requests never exceeds the
      configured drain timeout. */
  method ShutDown(clock: Clock, timeout: nat, answers: nat -> Send, reply: Reply, delay: nat,
                  closing: nat -> Send, finished: nat -> bool) returns (verdict: Verdict, joined: bool)
    modifies clock
    ensures clock.waited <= old(clock.waited) + timeout
    ensures joined ==> !verdict.Abandoned? && Answered(answers, Sent) && Answered(closing, Sent) && exists n: nat :: finished(n)
    ensures verdict.Ok? ==> reply == Watermark(verdict.watermark)
  {
    var supervisor := new WriterSupervisor(clock, timeout);
    verdict := supervisor.Finalize(answers, reply, delay);
    joined := supervisor.JoinAfter(closing, finished);
  }
}
