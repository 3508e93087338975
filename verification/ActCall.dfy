/** The coroutine that drives one act: created, running, done. It reports to the act producer;
    what it reports, over any sequence of calls with any driver results, is a legal script. */
module ActCall {
  import opened Events
  import opened Act

  datatype CallPhase = Created | Running | Done

  /** What the call tells the act producer; `Admission` creates the producer. */
  datatype Report = Admission | Driver | Cancel | CallerExit(exit: Exit, error: Raised)

  datatype Call = Call(
    phase: CallPhase,
    control: bool,
    inputs: bool,
    signal: bool,
    driver: bool,
    reports: seq<Report>)

  const NEW_CALL := Call(Created, true, true, false, false, [])

  /** How starting the driver goes: refused before any admission, failed after an admission that
      may have created a producer, failed after the driver was reported, or started. */
  datatype Startup =
    | Refused(error: Raised)
    | FailedAdmission(error: Raised, observed: bool)
    | FailedFuture(error: Raised, observed: bool)
    | Started(observed: bool)

  datatype Reply = Yielded | Raised(raised: Raised)

  datatype Decision = Accepted | Rejected

  function Told(c: Call, report: Report): Call {
    if c.control then c.(reports := c.reports + [report]) else c
  }

  function FinishCall(c: Call, exit: Exit, error: Raised): Call {
    var reported := if c.control && !c.phase.Done? then c.reports + [CallerExit(exit, error)] else c.reports;
    Call(Done, false, false, false, false, reported)
  }

  function Drive(c: Call, reply: Reply): Call {
    if !c.driver || reply.Yielded? then c else FinishCall(c, Returned, reply.raised)
  }

  function AfterAdmission(c: Call, observed: bool): Call {
    if observed then c.(inputs := false, reports := c.reports + [Admission]) else c.(inputs := false)
  }

  function StartDriver(c: Call, startup: Startup): (Call, bool) {
    if !c.control || !c.inputs then (c, false)
    else
      match startup
      case Refused(_) => (c, false)
      case FailedAdmission(_, observed) => (AfterAdmission(c, observed), false)
      case FailedFuture(_, observed) => (Told(AfterAdmission(c, observed).(phase := Running), Driver), false)
      case Started(observed) => (Told(AfterAdmission(c, observed).(phase := Running), Driver).(signal := true, driver := true), true)
  }

  function Send(c: Call, none: bool, startup: Startup, reply: Reply): Call {
    match c.phase
    case Created =>
      if !none then FinishCall(c, AdmissionRefused, OtherError)
      else
        var (started, ok) := StartDriver(c, startup);
        if ok then Drive(started, reply)
        else FinishCall(started, AdmissionRefused, if startup.Started? then OtherError else startup.error)
    case Running => Drive(c, reply)
    case Done => c
  }

  /** `cancelled` is absent when the exception cannot even be classified. */
  function Throw(c: Call, error: Raised, cancelled: Option<bool>, decision: Decision, waiter: bool, reply: Reply): Call {
    match c.phase
    case Created => FinishCall(c, AdmissionRefused, error)
    case Running =>
      if cancelled.None? then c
      else if !cancelled.value then Drive(c, reply)
      else
        var told := Told(c, Cancel);
        if c.control && decision.Rejected? then
          if !c.signal || !waiter then told else Drive(told.(driver := true), reply)
        else FinishCall(told, ExitCancelled, error)
    case Done => c
  }

  function Close(c: Call, error: Raised): Call {
    FinishCall(Told(c, Cancel), Closed, if c.driver then error else NoError)
  }

  function Clear(c: Call): Call {
    FinishCall(c, Cleared, NoError)
  }

  datatype CallOp =
    | DoSend(none: bool, startup: Startup, reply: Reply)
    | DoThrow(error: Raised, cancelled: Option<bool>, decision: Decision, waiter: bool, reply: Reply)
    | DoClose(error: Raised)
    | DoClear

  function CallStep(c: Call, op: CallOp): Call {
    match op
    case DoSend(none, startup, reply) => Send(c, none, startup, reply)
    case DoThrow(error, cancelled, decision, waiter, reply) => Throw(c, error, cancelled, decision, waiter, reply)
    case DoClose(error) => Close(c, error)
    case DoClear => Clear(c)
  }

  function CallRun(c: Call, ops: seq<CallOp>): Call
    decreases |ops|
  {
    if ops == [] then c else CallRun(CallStep(c, ops[0]), ops[1..])
  }

  // ----- Legal scripts -----

  /** How far a script of reports has come; `Illegal` once it breaks a rule: admitted at most once
      and first, one driver at most, nothing after the caller's exit. */
  datatype Script = Fresh | Opened | Driven(cancels: nat) | Unadmitted(cancels: nat) | Exited | Illegal

  function Advance(s: Script, report: Report): Script {
    match (s, report)
    case (Fresh, Admission) => Opened
    case (Fresh, Driver) => Driven(0)
    case (Opened, Driver) => Driven(0)
    case (Driven(n), Cancel) => Driven(n + 1)
    case (Fresh, Cancel) => Unadmitted(1)
    case (Unadmitted(n), Cancel) => Unadmitted(n + 1)
    case (Exited, _) => Illegal
    case (Illegal, _) => Illegal
    case (_, CallerExit(_, _)) => Exited
    case _ => Illegal
  }

  function Parse(reports: seq<Report>): Script {
    if reports == [] then Fresh else Advance(Parse(reports[..|reports| - 1]), reports[|reports| - 1])
  }

  lemma ParseSnoc(reports: seq<Report>, report: Report)
    ensures Parse(reports + [report]) == Advance(Parse(reports), report)
  {
    assert (reports + [report])[..|reports|] == reports;
  }

  ghost predicate CallInv(c: Call) {
    match c.phase
    case Created => c == NEW_CALL
    case Running => c.control && c.signal && c.driver && !c.inputs && Parse(c.reports).Driven?
    case Done => !c.control && !c.driver && !c.signal && Parse(c.reports).Exited?
  }

  lemma FinishLegal(c: Call, exit: Exit, error: Raised)
    requires !c.phase.Done? && c.control && !Parse(c.reports).Exited? && !Parse(c.reports).Illegal?
    ensures CallInv(FinishCall(c, exit, error))
  {
    hide Parse;
    ParseSnoc(c.reports, CallerExit(exit, error));
  }

  lemma StartLegal(c: Call, startup: Startup)
    requires c == NEW_CALL
    ensures var (s, ok) := StartDriver(c, startup);
            && s.control && !s.phase.Done?
            && !Parse(s.reports).Exited? && !Parse(s.reports).Illegal?
            && (ok ==> CallInv(s)) && (ok <==> startup.Started?)
  {
    assert Parse([]) == Fresh;
    ParseSnoc([], Admission);
    ParseSnoc([], Driver);
    ParseSnoc([Admission], Driver);
    assert [] + [Admission] == [Admission] && [] + [Driver] == [Driver];
  }

  lemma StepLegal(c: Call, op: CallOp)
    requires CallInv(c)
    ensures CallInv(CallStep(c, op))
  {
    ParseSnoc(c.reports, Cancel);
    match op
    case DoSend(none, startup, reply) =>
      if c.phase.Created? {
        if !none {
          FinishLegal(c, AdmissionRefused, OtherError);
        } else {
          StartLegal(c, startup);
          var (s, ok) := StartDriver(c, startup);
          if ok { DriveLegal(s, reply); } else { FinishLegal(s, AdmissionRefused, startup.error); }
        }
      } else if c.phase.Running? {
        DriveLegal(c, reply);
      }
    case DoThrow(error, cancelled, decision, waiter, reply) =>
      if c.phase.Created? {
        FinishLegal(c, AdmissionRefused, error);
      } else if c.phase.Running? {
        DriveLegal(c, reply);
        DriveLegal(Told(c, Cancel), reply);
        FinishLegal(Told(c, Cancel), ExitCancelled, error);
      }
    case DoClose(error) =>
      if !c.phase.Done? { FinishLegal(Told(c, Cancel), Closed, if c.driver then error else NoError); }
    case DoClear =>
      if !c.phase.Done? { FinishLegal(c, Cleared, NoError); }
  }

  lemma DriveLegal(c: Call, reply: Reply)
    requires CallInv(c) && c.phase.Running?
    ensures CallInv(Drive(c, reply))
  {
    if reply.Raised? { FinishLegal(c, Returned, reply.raised); }
  }

  /** Over every sequence of calls with any driver results, the reports are a legal script, and
      the caller's exit has been reported exactly when the call is done. */
  lemma {:induction false} RunLegal(c: Call, ops: seq<CallOp>)
    requires CallInv(c)
    ensures var c' := CallRun(c, ops);
            && CallInv(c') && !Parse(c'.reports).Illegal?
            && (c'.phase.Done? <==> Parse(c'.reports).Exited?)
    decreases |ops|
  {
    if ops != [] {
      StepLegal(c, ops[0]);
      RunLegal(CallStep(c, ops[0]), ops[1..]);
    } else if c.phase.Created? {
      assert Parse([]) == Fresh;
    }
  }

  // ----- Which exit is reported -----

  /** The driver is asked to go on: by a send that finds it running or starts it, by an error thrown
      that is no cancellation, and by a rejected cancellation that has somebody to wait for. */
  predicate Asked(phase: CallPhase, op: CallOp) {
    || (op.DoSend? && (phase.Running? || (phase.Created? && op.none && op.startup.Started?)))
    || (op.DoThrow? && phase.Running?
        && (op.cancelled == Some(false) || (op.cancelled == Some(true) && op.decision.Rejected? && op.waiter)))
  }

  /** A call that never got a driver: sent something first, not started, or thrown at first. */
  predicate NeverDriven(phase: CallPhase, op: CallOp, error: Raised) {
    && phase.Created?
    && match op
       case DoSend(none, startup, _) => if none then !startup.Started? && error == startup.error else error.OtherError?
       case DoThrow(thrown, _, _, _, _) => error == thrown
       case _ => false
  }

  /** What ends a call, for each of the five ways it can end. */
  predicate EndsCall(phase: CallPhase, op: CallOp, exit: Exit, error: Raised) {
    match exit
    case Returned => Asked(phase, op) && op.reply == Reply.Raised(error)
    case AdmissionRefused => NeverDriven(phase, op, error)
    case ExitCancelled =>
      phase.Running? && op.DoThrow? && op.cancelled == Some(true) && op.decision.Accepted? && error == op.error
    case Closed => op.DoClose? && error == if phase.Running? then op.error else NoError
    case Cleared => op.DoClear? && error.NoError?
  }

  /** What is reported on the way: the admission and the driver when the call starts, a cancellation
      when one is thrown or the call is closed. */
  function OnTheWay(phase: CallPhase, op: CallOp): seq<Report> {
    match op
    case DoSend(none, startup, _) =>
      if !phase.Created? || !none || startup.Refused? then []
      else (if startup.observed then [Admission] else []) + if startup.FailedAdmission? then [] else [Driver]
    case DoThrow(_, cancelled, _, _, _) => if phase.Running? && cancelled == Some(true) then [Cancel] else []
    case DoClose(_) => [Cancel]
    case DoClear => []
  }

  /** An operation on a live call ends it exactly if one of the five cases applies, and then reports
      that exit last; whatever else it reports comes before. A call that is done reports nothing more. */
  ghost predicate Decided(c: Call, op: CallOp, c': Call) {
    var said := c.reports + OnTheWay(c.phase, op);
    if c.phase.Done? then c'.phase.Done? && c'.reports == c.reports
    else
      && (c'.phase.Done? <==> exists exit, error :: EndsCall(c.phase, op, exit, error))
      && (!c'.phase.Done? ==> c'.reports == said)
      && (forall exit, error :: EndsCall(c.phase, op, exit, error) ==> c'.reports == said + [CallerExit(exit, error)])
  }

  lemma StepExit(c: Call, op: CallOp)
    requires CallInv(c)
    ensures Decided(c, op, CallStep(c, op))
  {
    var c' := CallStep(c, op);
    if c.phase.Done? {
      DoneStays(c, op);
    } else if c'.phase.Done? {
      var exit, error := StepEnds(c, op);
    } else {
      StepGoesOn(c, op);
    }
  }

  /** The exit an operation leads to. */
  lemma StepEnds(c: Call, op: CallOp) returns (exit: Exit, error: Raised)
    requires CallInv(c) && !c.phase.Done? && CallStep(c, op).phase.Done?
    ensures EndsCall(c.phase, op, exit, error)
    ensures CallStep(c, op).reports == c.reports + OnTheWay(c.phase, op) + [CallerExit(exit, error)]
    ensures forall x, e :: EndsCall(c.phase, op, x, e) ==> x == exit && e == error
  {
    hide Parse;
    match op
    case DoSend(none, startup, reply) =>
      if Asked(c.phase, op) {
        exit, error := Returned, reply.raised;
      } else {
        exit, error := AdmissionRefused, if none then startup.error else OtherError;
      }
    case DoThrow(thrown, cancelled, decision, waiter, reply) =>
      if c.phase.Created? {
        exit, error := AdmissionRefused, thrown;
      } else if Asked(c.phase, op) {
        exit, error := Returned, reply.raised;
      } else {
        exit, error := ExitCancelled, thrown;
      }
    case DoClose(e) => exit, error := Closed, if c.phase.Running? then e else NoError;
    case DoClear => exit, error := Cleared, NoError;
  }

  lemma StepGoesOn(c: Call, op: CallOp)
    requires CallInv(c) && !c.phase.Done? && !CallStep(c, op).phase.Done?
    ensures CallStep(c, op).reports == c.reports + OnTheWay(c.phase, op)
    ensures forall exit, error :: !EndsCall(c.phase, op, exit, error)
  {
    hide Parse;
  }

  lemma DoneStays(c: Call, op: CallOp)
    requires CallInv(c) && c.phase.Done?
    ensures CallStep(c, op).phase.Done? && CallStep(c, op).reports == c.reports
  {
    hide Parse;
  }

  /** The operation at place `n` ended the call, and the last report says how. */
  ghost predicate EndedBy(ops: seq<CallOp>, n: nat, reports: seq<Report>) {
    && n < |ops| && !CallRun(NEW_CALL, ops[..n]).phase.Done? && reports != [] && reports[|reports| - 1].CallerExit?
    && forall exit, error :: EndsCall(CallRun(NEW_CALL, ops[..n]).phase, ops[n], exit, error) <==>
                             reports[|reports| - 1] == CallerExit(exit, error)
  }

  lemma {:induction false} RunSnoc(c: Call, ops: seq<CallOp>, op: CallOp)
    ensures CallRun(c, ops + [op]) == CallStep(CallRun(c, ops), op)
    decreases |ops|
  {
    hide CallStep;
    if ops == [] {
      assert [op][1..] == [];
    } else {
      assert (ops + [op])[1..] == ops[1..] + [op];
      RunSnoc(CallStep(c, ops[0]), ops[1..], op);
    }
  }

  /** Over every run of a new call: it is done exactly if some operation ended it, and the exit it
      reports is the one that operation decides. */
  lemma {:induction false} RunExit(ops: seq<CallOp>)
    ensures CallRun(NEW_CALL, ops).phase.Done? <==> exists n: nat :: EndedBy(ops, n, CallRun(NEW_CALL, ops).reports)
    decreases |ops|
  {
    if ops == [] {
      assert !CallRun(NEW_CALL, ops).phase.Done?;
    } else {
      var k := |ops| - 1;
      var init, op := ops[..k], ops[k];
      assert init + [op] == ops;
      hide CallStep, Parse, EndsCall;
      RunExit(init);
      RunLegal(NEW_CALL, init);
      RunSnoc(NEW_CALL, init, op);
      var c, c' := CallRun(NEW_CALL, init), CallRun(NEW_CALL, ops);
      assert forall n: nat :: n <= k ==> ops[..n] == init[..n];
      if c.phase.Done? {
        DoneStays(c, op);
        var n: nat :| EndedBy(init, n, c.reports);
        assert EndedBy(ops, n, c'.reports);
      } else {
        StepExit(c, op);
        assert init[..k] == init;
        if c'.phase.Done? {
          var exit, error :| EndsCall(c.phase, op, exit, error);
          LastExit(c, op, exit, error);
          assert EndedBy(ops, k, c'.reports);
        } else {
          StepLegal(c, op);
          NotEnded(c');
        }
      }
    }
  }

  /** Only one exit can be the last report. */
  lemma LastExit(c: Call, op: CallOp, exit: Exit, error: Raised)
    requires CallInv(c) && !c.phase.Done? && CallStep(c, op).phase.Done? && EndsCall(c.phase, op, exit, error)
    ensures var reports := CallStep(c, op).reports;
            && reports != [] && reports[|reports| - 1].CallerExit?
            && forall x, e :: EndsCall(c.phase, op, x, e) <==> reports[|reports| - 1] == CallerExit(x, e)
  {
    hide CallStep, EndsCall, CallInv;
    var exit', error' := StepEnds(c, op);
    assert (c.reports + OnTheWay(c.phase, op) + [CallerExit(exit', error')])[|c.reports + OnTheWay(c.phase, op)|] == CallerExit(exit', error');
  }

  /** A call that is not done has not reported an exit. */
  lemma NotEnded(c: Call)
    requires CallInv(c) && !c.phase.Done?
    ensures c.reports == [] || !c.reports[|c.reports| - 1].CallerExit?
  {
  }

  // ----- The coroutine object -----

  class ActCoroutine {
    var phase: CallPhase
    var control: bool
    var inputs: bool
    var signal: bool
    var driver: bool
    var reports: seq<Report>

    ghost function State(): Call
      reads this
    {
      Call(phase, control, inputs, signal, driver, reports)
    }

    constructor ()
      ensures State() == NEW_CALL && CallInv(State())
    {
      phase, control, inputs, signal, driver, reports := Created, true, true, false, false, [];
    }

    method Finish(exit: Exit, error: Raised)
      modifies this
      ensures State() == FinishCall(old(State()), exit, error)
    {
      if control && phase != Done {
        reports := reports + [CallerExit(exit, error)];
      }
      phase := Done;
      inputs, control, signal, driver := false, false, false, false;
    }

    method RequestCancel()
      modifies this`reports
      ensures State() == Told(old(State()), Cancel)
    {
      if control {
        reports := reports + [Cancel];
      }
    }

    method DriveOnce(reply: Reply)
      modifies this
      ensures State() == Drive(old(State()), reply)
    {
      if driver && reply.Raised? {
        Finish(Returned, reply.raised);
      }
    }

    method BeginDriver(startup: Startup) returns (ok: bool)
      modifies this
      ensures (State(), ok) == StartDriver(old(State()), startup)
    {
      if !control || !inputs || startup.Refused? {
        return false;
      }
      inputs := false;
      if startup.observed {
        reports := reports + [Admission];
      }
      if startup.FailedAdmission? {
        return false;
      }
      phase := Running;
      reports := reports + [Driver];
      if startup.FailedFuture? {
        return false;
      }
      signal, driver := true, true;
      ok := true;
    }

    method SendValue(none: bool, startup: Startup, reply: Reply)
      requires CallInv(State())
      modifies this
      ensures CallInv(State()) && State() == Send(old(State()), none, startup, reply)
      ensures Decided(old(State()), DoSend(none, startup, reply), State())
    {
      StepLegal(State(), DoSend(none, startup, reply));
      StepExit(State(), DoSend(none, startup, reply));
      hide Decided;
      match phase {
        case Created =>
          if !none {
            Finish(AdmissionRefused, OtherError);
            return;
          }
          var ok := BeginDriver(startup);
          if !ok {
            Finish(AdmissionRefused, if startup.Started? then OtherError else startup.error);
            return;
          }
          DriveOnce(reply);
        case Running => DriveOnce(reply);
        case Done =>
      }
    }

    method ThrowError(error: Raised, cancelled: Option<bool>, decision: Decision, waiter: bool, reply: Reply)
      requires CallInv(State())
      modifies this
      ensures CallInv(State()) && State() == Throw(old(State()), error, cancelled, decision, waiter, reply)
      ensures Decided(old(State()), DoThrow(error, cancelled, decision, waiter, reply), State())
    {
      StepLegal(State(), DoThrow(error, cancelled, decision, waiter, reply));
      StepExit(State(), DoThrow(error, cancelled, decision, waiter, reply));
      hide Decided;
      match phase {
        case Created => Finish(AdmissionRefused, error);
        case Running =>
          if cancelled.None? {
            return;
          }
          if !cancelled.value {
            DriveOnce(reply);
            return;
          }
          RequestCancel();
          if decision.Rejected? {
            if waiter {
              driver := true;
              DriveOnce(reply);
            }
            return;
          }
          Finish(ExitCancelled, error);
        case Done =>
      }
    }

    method CloseCall(error: Raised)
      requires CallInv(State())
      modifies this
      ensures CallInv(State()) && phase == Done && State() == Close(old(State()), error)
      ensures Decided(old(State()), DoClose(error), State())
    {
      StepLegal(State(), DoClose(error));
      StepExit(State(), DoClose(error));
      hide Decided;
      var raised := if driver then error else NoError;
      RequestCancel();
      Finish(Closed, raised);
    }

    method ClearCall()
      requires CallInv(State())
      modifies this
      ensures CallInv(State()) && phase == Done && State() == Clear(old(State()))
      ensures Decided(old(State()), DoClear, State())
    {
      StepLegal(State(), DoClear);
      StepExit(State(), DoClear);
      hide Decided;
      Finish(Cleared, NoError);
    }
  }
}
