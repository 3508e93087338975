/** An act call on top of its act: over every run of calls, with remote observations of the act and
    events of other producers before, between and after its reports, the call never triggers the
    duplicate-driver or the duplicate-caller error, and the act's caller ends as the call did. */
module ActCallRun {
  import opened Events
  import opened Hub
  import opened Act
  import opened ActCall
  import AA = ActAnswers

  datatype Coupled = Coupled(call: Call, act: Option<Act>, h: Stream)

  /** The hooks that come from the agent and the usage machinery, not from the call. */
  predicate Remotely(op: Op) {
    !op.OpDriverStarted? && !op.OpCancelRequested? && !op.OpCallerFinished? && !op.OpAdmittedAgain?
  }

  type RemoteHook = op: Op | Remotely(op) witness OpTakeUsageSlot

  /** What other threads do meanwhile: an event of another producer, or a remote hook of this act. */
  datatype Meanwhile = Admitted(candidate: Candidate) | Observed(hook: RemoteHook)

  /** `others(n)` is what happens between the n-th report of a call and the one before it. */
  datatype CoupledOp =
    | CallerOp(op: CallOp, others: nat -> seq<Meanwhile>)
    | OtherOp(other: Meanwhile)

  function Pass(act: Option<Act>, h: Stream, other: Meanwhile): (Option<Act>, Stream) {
    match other
    case Admitted(c) => (act, Admit(h, c).stream)
    case Observed(hook) =>
      if act.None? then (act, h)
      else
        var (a, h') := Step(act.value, h, hook);
        (Some(a), h')
  }

  function PassAll(act: Option<Act>, h: Stream, others: seq<Meanwhile>): (Option<Act>, Stream) {
    if others == [] then (act, h)
    else
      var before := PassAll(act, h, others[..|others| - 1]);
      Pass(before.0, before.1, others[|others| - 1])
  }

  function HookOf(report: Report): Op
    requires !report.Admission?
  {
    match report
    case Driver => OpDriverStarted
    case Cancel => OpCancelRequested
    case CallerExit(exit, error) => OpCallerFinished(exit, error)
  }

  /** Reports that find no producer are dropped. */
  function Deliver(p: Producer, act: Option<Act>, h: Stream, report: Report): (Option<Act>, Stream) {
    if report.Admission? then
      var (s, h') := StartAct(p, PREPARED, h);
      (Some(Act(p, s, InProducer)), h')
    else if act.None? then (act, h)
    else
      var (a, h') := Step(act.value, h, HookOf(report));
      (Some(a), h')
  }

  function DeliverAll(p: Producer, act: Option<Act>, h: Stream, reports: seq<Report>, others: nat -> seq<Meanwhile>):
    (Option<Act>, Stream)
  {
    if reports == [] then (act, h)
    else
      var n := |reports| - 1;
      var before := DeliverAll(p, act, h, reports[..n], others);
      var (a, h') := PassAll(before.0, before.1, others(n));
      Deliver(p, a, h', reports[n])
  }

  function CoupledStep(p: Producer, x: Coupled, op: CoupledOp): Coupled {
    match op
    case CallerOp(op, others) =>
      var call := CallStep(x.call, op);
      var n := |x.call.reports|;
      var (act, h) := DeliverAll(p, x.act, x.h, if n <= |call.reports| then call.reports[n..] else [], others);
      Coupled(call, act, h)
    case OtherOp(other) =>
      var (act, h) := Pass(x.act, x.h, other);
      x.(act := act, h := h)
  }

  function CoupledRun(p: Producer, x: Coupled, ops: seq<CoupledOp>): Coupled
    decreases |ops|
  {
    if ops == [] then x else CoupledRun(p, CoupledStep(p, x, ops[0]), ops[1..])
  }

  predicate Blameless(s: ActState) {
    && s.failed != Some(StateFailed(DriverTransitionInvalid))
    && s.failed != Some(StateFailed(CallerFinishTransitionInvalid))
  }

  /** The caller of the act ended as the last report says. */
  predicate LeftAs(reports: seq<Report>, caller: Option<Terminal>) {
    && caller.Some? && reports != [] && reports[|reports| - 1].CallerExit?
    && AA.ExitsAs(caller.value, reports[|reports| - 1].exit, reports[|reports| - 1].error)
  }

  /** What the reports so far say about the act. */
  predicate Tracks(reports: seq<Report>, act: Option<Act>) {
    act.Some? ==>
      var script, s := Parse(reports), act.value.state;
      && Blameless(s)
      && !script.Fresh? && !script.Unadmitted?
      && (s.failed.None? ==>
            && (script.Opened? ==> s.waiting.None?)
            && (if script.Exited? then LeftAs(reports, s.callerTerminal) else s.callerTerminal.None?)
            && (s.finishAttempted ==> s.callerTerminal.Some?))
  }

  // ----- Hooks that leave the caller's part of the record alone -----

  predicate KeepsCaller(s: ActState, s': ActState) {
    && s'.waiting == s.waiting && s'.callerTerminal == s.callerTerminal
    && (s'.failed.None? && s'.finishAttempted ==> s.finishAttempted || s.callerTerminal.Some?)
    && (s'.failed.None? ==> s.failed.None?)
    && (Blameless(s) ==> Blameless(s'))
  }

  lemma FinishKeepsCaller(p: Producer, s: ActState, h: Stream)
    ensures KeepsCaller(s, MaybeFinish(p, s, h).0)
  {
    hide Admit;
  }

  lemma CloseKeepsCaller(s: ActState, h: Stream, settlement: Settlement, t: Terminal)
    requires s.turnSpan.Some? && s.turnScope.Some? && s.activity.Some?
    ensures KeepsCaller(s, CloseTurn(s, h, settlement, t).0)
  {
    hide AnnounceTerminal, EndTurn;
    var b := AnnounceTerminal(s, h, settlement);
    if b.sequence.Some? { EndKeepsCaller(s, b.stream, b.sequence.value, settlement, t); }
  }

  lemma EndKeepsCaller(s: ActState, h: Stream, source: nat, settlement: Settlement, t: Terminal)
    requires s.turnSpan.Some? && s.turnScope.Some?
    ensures KeepsCaller(s, EndTurn(s, h, source, settlement, t).0)
  {
    hide Admit, Settle;
  }

  lemma TurnKeepsCaller(p: Producer, s: ActState, h: Stream, m: Metadata, settlement: Settlement,
                        outcome: Outcome, code: Option<string>)
    ensures KeepsCaller(s, TurnTerminal(p, s, h, m, settlement, outcome, code).0)
  {
    hide Admit, MaybeFinish, CloseTurn, Settle;
    var t := Terminal(outcome, code);
    if s.failed.Some? || MetadataFault(p, m).Some? {
    } else if s.settlement == Some(NotSubmitted) && settlement.NotSubmitted? {
      FinishKeepsCaller(p, s, h);
    } else if TerminalGuard(p, s, m, settlement, outcome, code).Some? {
    } else if settlement.NotSubmitted? {
      FinishKeepsCaller(p, SettleUnsubmitted(s), h);
    } else {
      CloseKeepsCaller(s, h, settlement, t);
      FinishKeepsCaller(p, CloseTurn(s, h, settlement, t).0, CloseTurn(s, h, settlement, t).1);
    }
  }

  lemma PromptKeepsCaller(p: Producer, s: ActState, h: Stream, m: Metadata)
    ensures KeepsCaller(s, PromptSubmitted(p, s, h, m).0)
  {
    hide Admit, MarkPromptSubmitted, TurnScope, MetadataFault;
    if MetadataFault(p, m).Some? { MetadataBlameless(p, m); }
  }

  lemma HandoffKeepsCaller(p: Producer, s: ActState, h: Stream, m: Metadata)
    ensures KeepsCaller(s, SupervisorHandoff(p, s, h, m).0)
  {
    hide Admit, MetadataFault;
    if MetadataFault(p, m).Some? { MetadataBlameless(p, m); }
  }

  lemma MetadataBlameless(p: Producer, m: Metadata)
    requires MetadataFault(p, m).Some?
    ensures MetadataFault(p, m).value != DriverTransitionInvalid && MetadataFault(p, m).value != CallerFinishTransitionInvalid
  {
  }

  lemma RemoteKeepsCaller(p: Producer, s: ActState, h: Stream, op: Op)
    requires Remotely(op)
    ensures KeepsCaller(s, Apply(p, s, h, op).0)
  {
    hide DriverStarted, CancelRequested, TurnTerminal, CallerFinished, PromptSubmitted, SupervisorHandoff;
    match op
    case OpPromptSubmitted(m) => PromptKeepsCaller(p, s, h, m);
    case OpSupervisorHandoff(m) => HandoffKeepsCaller(p, s, h, m);
    case OpTurnTerminal(m, settlement, outcome, code) => TurnKeepsCaller(p, s, h, m, settlement, outcome, code);
    case _ =>
  }

  lemma RemoteTracks(reports: seq<Report>, act: Act, h: Stream, op: Op)
    requires Tracks(reports, Some(act)) && Remotely(op)
    ensures Tracks(reports, Some(Step(act, h, op).0))
  {
    hide Apply, MaybeFinish;
    if op.OpUsageFinalized? {
      if act.token.AckHeld? {
        FinishKeepsCaller(act.producer, act.state.(usageAck := Some(act.token.sequence)), h);
      }
    } else {
      RemoteKeepsCaller(act.producer, act.state, h, op);
    }
  }

  lemma PassTracks(reports: seq<Report>, act: Option<Act>, h: Stream, other: Meanwhile)
    requires Tracks(reports, act)
    ensures Tracks(reports, Pass(act, h, other).0)
  {
    hide Admit, Step, Tracks;
    if other.Observed? && act.Some? { RemoteTracks(reports, act.value, h, other.hook); }
  }

  lemma {:induction false} PassAllTracks(reports: seq<Report>, act: Option<Act>, h: Stream, others: seq<Meanwhile>)
    requires Tracks(reports, act)
    ensures Tracks(reports, PassAll(act, h, others).0)
  {
    hide Pass, Tracks;
    if others != [] {
      var n := |others| - 1;
      PassAllTracks(reports, act, h, others[..n]);
      var before := PassAll(act, h, others[..n]);
      PassTracks(reports, before.0, before.1, others[n]);
    }
  }

  // ----- Reports -----

  lemma CallerFinishedBlameless(p: Producer, s: ActState, h: Stream, exit: Exit, error: Raised)
    requires Blameless(s) && (s.failed.None? ==> s.callerTerminal.None? && !s.finishAttempted)
    ensures var s' := CallerFinished(p, s, h, exit, error).0;
            && Blameless(s')
            && (s'.failed.None? ==> s'.callerTerminal == Some(CallerTerminal(exit, error)))
  {
    hide Admit, MaybeFinish, CallerTerminal, CallerSource, Settle;
    forall s1, h1 ensures KeepsCaller(s1, MaybeFinish(p, s1, h1).0) { FinishKeepsCaller(p, s1, h1); }
  }

  lemma CancelKeepsCaller(p: Producer, s: ActState, h: Stream)
    ensures KeepsCaller(s, CancelRequested(p, s, h).0)
  {
    hide Admit, CancelSource;
  }

  lemma DeliverTracks(p: Producer, reports: seq<Report>, act: Option<Act>, h: Stream, report: Report)
    requires Tracks(reports, act) && !Parse(reports + [report]).Illegal?
    ensures Tracks(reports + [report], Deliver(p, act, h, report).0)
  {
    ParseSnoc(reports, report);
    hide Admit, CancelRequested, CallerFinished, Parse, CallerTerminal, AA.ExitsAs;
    match report
    case Admission => StartedFields(p, h);
    case Driver => if act.Some? { DriverKeeps(act.value, h); }
    case Cancel =>
      if act.Some? { CancelKeepsCaller(act.value.producer, act.value.state, h); }
    case CallerExit(exit, error) =>
      if act.Some? {
        AA.ExitMeans(exit, error);
        CallerFinishedBlameless(act.value.producer, act.value.state, h, exit, error);
      }
  }

  lemma StartedFields(p: Producer, h: Stream)
    ensures var s := StartAct(p, PREPARED, h).0;
            Blameless(s) && s.waiting.None? && s.callerTerminal.None? && !s.finishAttempted
  {
    hide Admit;
  }

  lemma DriverKeeps(a: Act, h: Stream)
    ensures var s, s' := a.state, DriverStarted(a.producer, a.state, h).0;
            && s'.callerTerminal == s.callerTerminal && s'.finishAttempted == s.finishAttempted && (s'.failed.None? ==> s.failed.None?)
            && (Blameless(s) && (s.failed.None? ==> s.waiting.None? && s.callerTerminal.None?) ==> Blameless(s'))
  {
    hide Admit;
  }

  lemma {:induction false} PrefixLegal(reports: seq<Report>, n: nat)
    requires n <= |reports| && !Parse(reports).Illegal?
    ensures !Parse(reports[..n]).Illegal?
    decreases |reports| - n
  {
    if n < |reports| {
      PrefixLegal(reports, n + 1);
      assert reports[..n + 1][..n] == reports[..n];
    } else {
      assert reports[..n] == reports;
    }
  }

  lemma {:induction false} DeliverAllTracks(p: Producer, done: seq<Report>, act: Option<Act>, h: Stream, reports: seq<Report>,
                                            others: nat -> seq<Meanwhile>)
    requires Tracks(done, act) && !Parse(done + reports).Illegal?
    ensures Tracks(done + reports, DeliverAll(p, act, h, reports, others).0)
    decreases |reports|
  {
    if reports == [] {
      assert done + reports == done;
    } else {
      var init, last := reports[..|reports| - 1], reports[|reports| - 1];
      assert done + reports == (done + init) + [last];
      ParseSnoc(done + init, last);
      DeliverAllTracks(p, done, act, h, init, others);
      var before := DeliverAll(p, act, h, init, others);
      hide Deliver, PassAll, Tracks;
      PassAllTracks(done + init, before.0, before.1, others(|reports| - 1));
      var (a, h') := PassAll(before.0, before.1, others(|reports| - 1));
      DeliverTracks(p, done + init, a, h', last);
    }
  }

  /** A step of the call only adds reports. */
  lemma ReportsGrow(c: Call, op: CallOp)
    ensures c.reports <= CallStep(c, op).reports
  {
  }

  ghost predicate CoupledInv(x: Coupled) {
    CallInv(x.call) && !Parse(x.call.reports).Illegal? && Tracks(x.call.reports, x.act)
  }

  lemma CoupledStepKept(p: Producer, x: Coupled, op: CoupledOp)
    requires CoupledInv(x)
    ensures CoupledInv(CoupledStep(p, x, op))
  {
    match op
    case OtherOp(other) =>
      hide Pass, Tracks, Parse, CallInv;
      PassTracks(x.call.reports, x.act, x.h, other);
    case CallerOp(op, others) =>
      var call, n := CallStep(x.call, op), |x.call.reports|;
      ReportsGrow(x.call, op);
      StepLegal(x.call, op);
      assert Parse([]) == Fresh;
      hide CallStep, DeliverAll, Parse;
      assert x.call.reports + call.reports[n..] == call.reports;
      DeliverAllTracks(p, x.call.reports, x.act, x.h, call.reports[n..], others);
  }

  lemma {:induction false} CoupledRunKept(p: Producer, x: Coupled, ops: seq<CoupledOp>)
    requires CoupledInv(x)
    ensures CoupledInv(CoupledRun(p, x, ops))
    decreases |ops|
  {
    hide CoupledStep, CallInv, Parse;
    if ops != [] {
      CoupledStepKept(p, x, ops[0]);
      CoupledRunKept(p, CoupledStep(p, x, ops[0]), ops[1..]);
    }
  }

  /** The operations on the call in a run. */
  function CallOps(ops: seq<CoupledOp>): seq<CallOp> {
    if ops == [] then [] else (if ops[0].CallerOp? then [ops[0].op] else []) + CallOps(ops[1..])
  }

  lemma {:induction false} CallAlone(p: Producer, x: Coupled, ops: seq<CoupledOp>)
    ensures CoupledRun(p, x, ops).call == CallRun(x.call, CallOps(ops))
    decreases |ops|
  {
    hide CallStep, DeliverAll, Pass;
    if ops != [] {
      CallAlone(p, CoupledStep(p, x, ops[0]), ops[1..]);
      if ops[0].CallerOp? {
        assert CallOps(ops)[1..] == CallOps(ops[1..]);
      } else {
        assert CallOps(ops) == CallOps(ops[1..]);
      }
    }
  }

  /** The caller of an act ended as the operation that ended the call decides: completed exactly if
      that operation had the driver raise a normal return. */
  ghost predicate LeftBy(caller: Terminal, calls: seq<CallOp>, n: nat) {
    && n < |calls|
    && var phase := CallRun(NEW_CALL, calls[..n]).phase;
       && (caller.outcome.Completed? <==> Asked(phase, calls[n]) && calls[n].reply == Reply.Raised(StopIteration))
       && (forall exit, error :: EndsCall(phase, calls[n], exit, error) ==> AA.ExitsAs(caller, exit, error))
  }

  lemma LeftAsEnded(caller: Terminal, calls: seq<CallOp>, n: nat, reports: seq<Report>)
    requires EndedBy(calls, n, reports) && LeftAs(reports, Some(caller))
    ensures LeftBy(caller, calls, n)
  {
    hide CallRun;
    var phase, last := CallRun(NEW_CALL, calls[..n]).phase, reports[|reports| - 1];
    assert EndsCall(phase, calls[n], last.exit, last.error);
    assert EndsCall(phase, calls[n], Returned, StopIteration) <==> last == CallerExit(Returned, StopIteration);
  }

  /** Over every run of a new call, with remote observations and events of others at any point and any
      admissions failing: the act never ends in a duplicate-driver or duplicate-caller error, and a
      healthy act has a caller that has left exactly if the call is done, as the call ended. */
  lemma CallNeverMisreports(p: Producer, h: Stream, ops: seq<CoupledOp>)
    ensures var x, calls := CoupledRun(p, Coupled(NEW_CALL, None, h), ops), CallOps(ops);
            && CoupledInv(x) && x.call == CallRun(NEW_CALL, calls)
            && (x.act.Some? ==> Blameless(x.act.value.state))
            && (x.act.Some? && x.act.value.state.failed.None? ==>
                  var caller := x.act.value.state.callerTerminal;
                  && (caller.Some? <==> x.call.phase.Done?)
                  && (caller.Some? ==> exists n: nat :: EndedBy(calls, n, x.call.reports) && LeftBy(caller.value, calls, n)))
  {
    hide CoupledRun, CallRun, LeftBy, EndedBy;
    CallAlone(p, Coupled(NEW_CALL, None, h), ops);
    NewCallKept(p, h, ops);
    RunExit(CallOps(ops));
    var x, calls := CoupledRun(p, Coupled(NEW_CALL, None, h), ops), CallOps(ops);
    if x.act.Some? && x.act.value.state.failed.None? && x.call.phase.Done? {
      var n: nat :| EndedBy(calls, n, x.call.reports);
      LeftAsEnded(x.act.value.state.callerTerminal.value, calls, n, x.call.reports);
    }
  }

  lemma NewCallKept(p: Producer, h: Stream, ops: seq<CoupledOp>)
    ensures CoupledInv(CoupledRun(p, Coupled(NEW_CALL, None, h), ops))
  {
    assert Parse([]) == Fresh;
    hide CoupledRun, Parse;
    CoupledRunKept(p, Coupled(NEW_CALL, None, h), ops);
  }
}
