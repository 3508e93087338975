/** Shedding cues under load: the ingress pauses cue capture, counts the cues it suppresses and
    reports them as one gap when it resumes. The count lives behind the lock of the ingress, the
    start of the gap behind a lock of its own; a call takes the first, reads the clock, and takes
    the second. */
module CueCapture {
  import opened Events
  import opened Writer

  const PAUSE_EVENTS: nat := MAX_UNCOMMITTED_EVENTS * 3 / 4
  const PAUSE_BYTES: nat := MAX_UNCOMMITTED_CANONICAL_BYTES * 3 / 4
  const RESUME_EVENTS: nat := MAX_UNCOMMITTED_EVENTS / 4
  const RESUME_BYTES: nat := MAX_UNCOMMITTED_CANONICAL_BYTES / 4

  /** What the ingress holds, reserved or accepted, when it is asked. */
  datatype Load = Load(events: nat, bytes: nat, sealed: bool)

  datatype Meter = Meter(paused: bool, suppressed: nat)

  datatype Decision = Capture | Suppress | Resume(count: nat)

  predicate Heavy(load: Load) {
    load.events >= PAUSE_EVENTS || load.bytes >= PAUSE_BYTES
  }

  predicate Light(load: Load) {
    load.events <= RESUME_EVENTS && load.bytes <= RESUME_BYTES
  }

  /** The decision taken for a new cue, under the lock of the ingress. */
  function Decide(m: Meter, load: Load): (Meter, Decision) {
    if load.sealed then (m, Capture)
    else if m.paused then
      if Light(load) then (Meter(false, 0), if m.suppressed == 0 then Capture else Resume(m.suppressed))
      else (m.(suppressed := if m.suppressed < MAX_U64 then m.suppressed + 1 else MAX_U64), Suppress)
    else if Heavy(load) then (Meter(true, 1), Suppress)
    else (m, Capture)
  }

  /** A granted reservation of a cue's event pauses capture, without suppressing anything yet. */
  function CueReserved(m: Meter, load: Load): Meter {
    if Heavy(load) then m.(paused := true) else m
  }

  function TakeRest(m: Meter): (Meter, Option<nat>) {
    (Meter(false, 0), if m.suppressed > 0 then Some(m.suppressed) else None)
  }

  /** A gap as reported: how many cues, and the time they fall into. */
  datatype Gap = Gap(count: nat, start: nat, end: nat)

  /** A call between its two locks, before or after it has read the clock. */
  datatype Call = Noting(reading: Option<nat>) | Closing(count: nat, reading: Option<nat>)

  /** `lost` counts the cues of gaps whose start was missing; `times` are the readings of the
      suppressed cues in the order they were noted. */
  datatype State = State(
    meter: Meter,
    startedAt: Option<nat>,
    calls: seq<Call>,
    gaps: seq<Gap>,
    lost: nat,
    decided: nat,
    times: seq<nat>)

  const IDLE := State(Meter(false, 0), None, [], [], 0, 0, [])

  datatype Op =
    | Begin(load: Load)
    | Reserved(load: Load)
    | End
    | Look(k: nat, now: nat)
    | Pass(k: nat)

  function Left(calls: seq<Call>, k: nat): seq<Call>
    requires k < |calls|
  {
    calls[..k] + calls[k + 1..]
  }

  /** The call holds a reading of the clock, so the lock of the gap is its next step. */
  predicate Ready(s: State, k: nat) {
    k < |s.calls| && s.calls[k].reading.Some?
  }

  /** Under the lock of the gap: a suppressed cue starts the gap unless it has started, a resumption
      takes the start away and fails without one. */
  function PassGap(s: State, k: nat): State
    requires Ready(s, k)
  {
    var rest, at := s.(calls := Left(s.calls, k)), s.calls[k].reading.value;
    match s.calls[k]
    case Noting(_) => rest.(startedAt := if s.startedAt.Some? then s.startedAt else Some(at), times := s.times + [at])
    case Closing(count, _) =>
      if s.startedAt.None? then rest.(lost := s.lost + count)
      else rest.(startedAt := None, gaps := s.gaps + [Gap(count, s.startedAt.value, at)])
  }

  /** A call reads the clock once. */
  function ReadClock(s: State, k: nat, now: nat): State
    requires k < |s.calls|
  {
    if s.calls[k].reading.Some? then s else s.(calls := s.calls[k := s.calls[k].(reading := Some(now))])
  }

  function Step(s: State, op: Op): State {
    match op
    case Begin(load) =>
      var (m, decision) := Decide(s.meter, load);
      (match decision
       case Capture => s.(meter := m)
       case Suppress => s.(meter := m, calls := s.calls + [Noting(None)], decided := s.decided + 1)
       case Resume(count) => s.(meter := m, calls := s.calls + [Closing(count, None)]))
    case Reserved(load) => s.(meter := CueReserved(s.meter, load))
    case End =>
      var (m, count) := TakeRest(s.meter);
      if count.None? then s.(meter := m) else s.(meter := m, calls := s.calls + [Closing(count.value, None)])
    case Look(k, now) => if k < |s.calls| then ReadClock(s, k, now) else s
    case Pass(k) => if Ready(s, k) then PassGap(s, k) else s
  }

  function Run(s: State, ops: seq<Op>): State
    decreases |ops|
  {
    if ops == [] then s else Run(Step(s, ops[0]), ops[1..])
  }

  // ----- When capture is paused -----

  /** An unsealed ingress at or above three quarters of a limit pauses capture, whether it is asked for
      a new cue or has just reserved a cue's event. */
  predicate Pauses(op: Op) {
    match op
    case Begin(load) => !load.sealed && (load.events >= 24_576 || load.bytes >= 50_331_648)
    case Reserved(load) => load.events >= 24_576 || load.bytes >= 50_331_648
    case _ => false
  }

  /** A new cue at an unsealed ingress at or below a quarter of both limits resumes it, and so does the
      end of the run. */
  predicate Resumes(op: Op) {
    match op
    case Begin(load) => !load.sealed && load.events <= 8_192 && load.bytes <= 16_777_216
    case End => true
    case _ => false
  }

  /** Between the two thresholds nothing changes: capture is paused exactly if the last step that
      paused or resumed it paused it. */
  lemma {:induction false} PausedIff(s: State, ops: seq<Op>)
    ensures Run(s, ops).meter.paused <==>
            || (exists i :: 0 <= i < |ops| && Pauses(ops[i]) && forall j :: i < j < |ops| ==> !Resumes(ops[j]))
            || (s.meter.paused && forall j :: 0 <= j < |ops| ==> !Resumes(ops[j]))
    decreases |ops|
  {
    if ops != [] {
      var s1, rest := Step(s, ops[0]), ops[1..];
      PausedStep(s, ops[0]);
      PausedIff(s1, rest);
      hide Step, Pauses, Resumes;
      assert forall j :: 0 <= j < |rest| ==> rest[j] == ops[j + 1];
      if Run(s, ops).meter.paused {
        if i :| 0 <= i < |rest| && Pauses(rest[i]) && forall j :: i < j < |rest| ==> !Resumes(rest[j]) {
          assert Pauses(ops[i + 1]) && forall j :: i + 1 < j < |ops| ==> ops[j] == rest[j - 1];
        } else {
          assert forall j :: 0 < j < |ops| ==> ops[j] == rest[j - 1];
          assert Pauses(ops[0]) || s.meter.paused;
        }
      } else {
        assert forall i :: 0 < i < |ops| ==> ops[i] == rest[i - 1];
      }
    }
  }

  lemma PausedStep(s: State, op: Op)
    ensures Step(s, op).meter.paused <==> Pauses(op) || (s.meter.paused && !Resumes(op))
    ensures !(Pauses(op) && Resumes(op))
  {
    hide Left;
  }

  /** What a new cue is told: it is suppressed while capture is paused or pauses now, and captured
      otherwise, unless it is the one that resumes and has something to tell of. */
  lemma DecideIff(s: State, load: Load)
    ensures var s', decision := Step(s, Begin(load)), Decide(s.meter, load).1;
            var counted := s.meter.paused && Resumes(Begin(load)) && s.meter.suppressed > 0;
            && (decision.Suppress? <==> !load.sealed && s'.meter.paused)
            && (decision.Resume? <==> counted) && (counted ==> decision.count == s.meter.suppressed)
            && (decision.Suppress? && !s.meter.paused ==> s'.meter.suppressed == 1)
            && (decision.Suppress? && s.meter.paused ==>
                  s'.meter.suppressed == if s.meter.suppressed < MAX_U64 then s.meter.suppressed + 1 else MAX_U64)
  {
  }

  // ----- Every suppressed cue is counted once -----

  function Carried(calls: seq<Call>): nat {
    if calls == [] then 0
    else Carried(calls[..|calls| - 1]) + if calls[|calls| - 1].Closing? then calls[|calls| - 1].count else 0
  }

  function Notings(calls: seq<Call>): nat {
    if calls == [] then 0 else Notings(calls[..|calls| - 1]) + if calls[|calls| - 1].Noting? then 1 else 0
  }

  function Told(gaps: seq<Gap>): nat {
    if gaps == [] then 0 else Told(gaps[..|gaps| - 1]) + gaps[|gaps| - 1].count
  }

  /** Each suppressed cue is still counted by the ingress, on its way in a call, in a reported gap,
      or in one whose start was missing; the counter of the ingress never saturates before 2^64
      cues. An ingress that is not paused has suppressed nothing. */
  predicate Counted(s: State) {
    && (!s.meter.paused ==> s.meter.suppressed == 0)
    && (forall i :: 0 <= i < |s.calls| && s.calls[i].Closing? ==> s.calls[i].count > 0)
    && (forall i :: 0 <= i < |s.gaps| ==> s.gaps[i].count > 0)
    && s.meter.suppressed <= s.decided == |s.times| + Notings(s.calls)
    && (s.decided <= MAX_U64 ==> s.decided == s.meter.suppressed + Carried(s.calls) + Told(s.gaps) + s.lost)
  }

  lemma {:induction false} CarriedLeft(calls: seq<Call>, k: nat)
    requires k < |calls|
    ensures Carried(calls) == Carried(Left(calls, k)) + if calls[k].Closing? then calls[k].count else 0
    ensures Notings(calls) == Notings(Left(calls, k)) + if calls[k].Noting? then 1 else 0
  {
    var n := |calls| - 1;
    if k == n {
      assert Left(calls, k) == calls[..n];
    } else {
      CarriedLeft(calls[..n], k);
      assert Left(calls, k)[..n - 1] == Left(calls[..n], k);
    }
  }

  lemma CarriedSnoc(calls: seq<Call>, c: Call)
    ensures Carried(calls + [c]) == Carried(calls) + if c.Closing? then c.count else 0
    ensures Notings(calls + [c]) == Notings(calls) + if c.Noting? then 1 else 0
  {
    assert (calls + [c])[..|calls|] == calls;
  }

  lemma ToldSnoc(gaps: seq<Gap>, g: Gap)
    ensures Told(gaps + [g]) == Told(gaps) + g.count
  {
    assert (gaps + [g])[..|gaps|] == gaps;
  }

  lemma {:induction false} CarriedReading(calls: seq<Call>, k: nat, reading: Option<nat>)
    requires k < |calls|
    ensures var calls' := calls[k := calls[k].(reading := reading)];
            Carried(calls') == Carried(calls) && Notings(calls') == Notings(calls)
  {
    var n, calls' := |calls| - 1, calls[k := calls[k].(reading := reading)];
    if k == n {
      assert calls'[..n] == calls[..n];
    } else {
      CarriedReading(calls[..n], k, reading);
      assert calls'[..n] == calls[..n][k := calls[k].(reading := reading)];
    }
  }

  lemma PassCounted(s: State, k: nat)
    requires Counted(s) && Ready(s, k)
    ensures Counted(PassGap(s, k))
  {
    CarriedLeft(s.calls, k);
    if s.calls[k].Closing? && s.startedAt.Some? {
      ToldSnoc(s.gaps, Gap(s.calls[k].count, s.startedAt.value, s.calls[k].reading.value));
    }
    hide Carried, Notings, Told;
  }

  lemma ReadCounted(s: State, k: nat, now: nat)
    requires Counted(s) && k < |s.calls|
    ensures Counted(ReadClock(s, k, now))
  {
    CarriedReading(s.calls, k, Some(now));
    hide Carried, Notings, Told;
  }

  lemma StepCounted(s: State, op: Op)
    requires Counted(s)
    ensures Counted(Step(s, op))
  {
    hide Carried, Notings, Told, Heavy, Light, PassGap, ReadClock;
    match op
    case Begin(load) =>
      var decision := Decide(s.meter, load).1;
      if decision.Suppress? { CarriedSnoc(s.calls, Noting(None)); }
      if decision.Resume? { CarriedSnoc(s.calls, Closing(decision.count, None)); }
    case Reserved(_) =>
    case End => CarriedSnoc(s.calls, Closing(s.meter.suppressed, None));
    case Look(k, now) => if k < |s.calls| { ReadCounted(s, k, now); }
    case Pass(k) => if Ready(s, k) { PassCounted(s, k); }
  }

  /** Over every interleaving of calls, whatever the load. */
  lemma {:induction false} AlwaysCounted(s: State, ops: seq<Op>)
    requires Counted(s)
    ensures Counted(Run(s, ops))
    decreases |ops|
  {
    hide Step, Counted;
    if ops != [] {
      StepCounted(s, ops[0]);
      AlwaysCounted(Step(s, ops[0]), ops[1..]);
    }
  }

  // ----- When the gaps are exact -----

  predicate Idle(s: State) {
    s.calls == []
  }

  /** Gap `i` tells of the `count` suppressed cues that follow those of earlier gaps, starts with
      the first of them and spans them all. */
  predicate Spanned(gaps: seq<Gap>, i: nat, times: seq<nat>)
    requires i < |gaps|
  {
    var from, g := Told(gaps[..i]), gaps[i];
    && g.count > 0 && from + g.count <= |times|
    && g.start == times[from]
    && (forall j :: from <= j < from + g.count ==> g.start <= times[j] <= g.end)
  }

  predicate Covered(gaps: seq<Gap>, times: seq<nat>) {
    forall i :: 0 <= i < |gaps| ==> Spanned(gaps, i, times)
  }

  /** The gap still open starts with the first cue not yet told of, if there is one. */
  predicate Aligned(s: State) {
    var from := Told(s.gaps);
    && from <= |s.times|
    && (s.startedAt.None? <==> from == |s.times|)
    && (s.startedAt.Some? ==> s.startedAt.value == s.times[from])
  }

  /** And none of the cues not yet told of was suppressed before that. */
  predicate OpenGap(s: State) {
    Aligned(s) && forall j :: Told(s.gaps) <= j < |s.times| && s.startedAt.Some? ==> s.startedAt.value <= s.times[j]
  }

  /** No gap is lost, every reported gap is about exactly its cues, and so will be the next one. */
  predicate Exact(s: State) {
    s.lost == 0 && Covered(s.gaps, s.times) && OpenGap(s)
  }

  /** A resumption about to pass is balanced when the suppressed cues still on their way to the gap
      are as many as those counted after it: the cues it tells of have all noted, and no others. */
  predicate Balanced(s: State, k: nat)
    requires k < |s.calls|
  {
    Notings(s.calls) == s.meter.suppressed + Carried(Left(s.calls, k))
  }

  /** A cue does not pass the gap with an older reading than the start of it; a resumption passes it
      balanced, and with a reading not older than those of the cues waiting to be told of. */
  predicate InOrder(s: State, op: Op) {
    op.Pass? && Ready(s, op.k) ==>
      var call := s.calls[op.k];
      match call
      case Noting(at) => s.startedAt.Some? ==> s.startedAt.value <= at.value
      case Closing(_, at) =>
        Balanced(s, op.k) && forall j :: Told(s.gaps) <= j < |s.times| ==> s.times[j] <= at.value
  }

  /** Every passage of the schedule is in order. */
  predicate Schedule(s: State, ops: seq<Op>)
    decreases |ops|
  {
    ops == [] || (InOrder(s, ops[0]) && Schedule(Step(s, ops[0]), ops[1..]))
  }

  lemma CoveredSnoc(gaps: seq<Gap>, g: Gap, times: seq<nat>)
    requires Covered(gaps, times) && g.count > 0 && Told(gaps) + g.count <= |times| && g.start == times[Told(gaps)]
    requires forall j :: Told(gaps) <= j < Told(gaps) + g.count ==> g.start <= times[j] <= g.end
    ensures Covered(gaps + [g], times)
  {
    forall i | 0 <= i < |gaps| + 1 ensures Spanned(gaps + [g], i, times) {
      assert (gaps + [g])[..i] == gaps[..i];
      assert gaps[..|gaps|] == gaps;
      if i < |gaps| { assert Spanned(gaps, i, times); }
    }
  }

  lemma CoveredMore(gaps: seq<Gap>, times: seq<nat>, now: nat)
    requires Covered(gaps, times)
    ensures Covered(gaps, times + [now])
  {
    forall i | 0 <= i < |gaps| ensures Spanned(gaps, i, times + [now]) {
      assert Spanned(gaps, i, times);
    }
  }

  /** Balance, said of the cues: a resumption tells of as many as are waiting to be told of. */
  lemma BalancedIff(s: State, k: nat)
    requires Counted(s) && s.lost == 0 && s.decided <= MAX_U64 && k < |s.calls| && s.calls[k].Closing?
    ensures Balanced(s, k) <==> s.calls[k].count + Told(s.gaps) == |s.times|
  {
    CarriedLeft(s.calls, k);
    hide Carried, Notings, Told, Left;
  }

  lemma ClosingExact(s: State, k: nat)
    requires Counted(s) && Exact(s) && s.decided <= MAX_U64 && Ready(s, k) && s.calls[k].Closing? && InOrder(s, Pass(k))
    ensures Exact(PassGap(s, k))
  {
    BalancedIff(s, k);
    assert s.calls[k].count > 0;
    hide Counted, Covered, Told, Balanced, Left;
    var g := Gap(s.calls[k].count, s.startedAt.value, s.calls[k].reading.value);
    CoveredSnoc(s.gaps, g, s.times);
    ToldSnoc(s.gaps, g);
  }

  lemma NotingExact(s: State, k: nat)
    requires Exact(s) && Ready(s, k) && s.calls[k].Noting? && InOrder(s, Pass(k))
    ensures Exact(PassGap(s, k))
  {
    CoveredMore(s.gaps, s.times, s.calls[k].reading.value);
    hide Told, Covered, Left;
  }

  /** Only a passage touches the gap. */
  lemma QuietStep(s: State, op: Op)
    requires op.Pass? ==> !Ready(s, op.k)
    ensures var s' := Step(s, op);
            s'.gaps == s.gaps && s'.times == s.times && s'.startedAt == s.startedAt && s'.lost == s.lost
  {
    hide Decide;
  }

  lemma StepExact(s: State, op: Op)
    requires Counted(s) && Exact(s) && s.decided <= MAX_U64 && InOrder(s, op)
    ensures Exact(Step(s, op))
  {
    hide Counted, Covered, Balanced, PassGap, Told, InOrder;
    if op.Pass? && Ready(s, op.k) {
      if s.calls[op.k].Noting? { NotingExact(s, op.k); } else { ClosingExact(s, op.k); }
    } else {
      QuietStep(s, op);
    }
  }

  lemma DecidedStep(s: State, op: Op)
    ensures s.decided <= Step(s, op).decided
  {
  }

  lemma {:induction false} DecidedGrows(s: State, ops: seq<Op>)
    ensures s.decided <= Run(s, ops).decided
    decreases |ops|
  {
    if ops != [] {
      DecidedStep(s, ops[0]);
      hide Step;
      DecidedGrows(Step(s, ops[0]), ops[1..]);
    }
  }

  lemma {:induction false} RunExact(s: State, ops: seq<Op>)
    requires Counted(s) && Exact(s) && Schedule(s, ops) && Run(s, ops).decided <= MAX_U64
    ensures Exact(Run(s, ops))
    decreases |ops|
  {
    hide Step, Exact, Counted, InOrder;
    if ops != [] {
      DecidedGrows(s, ops);
      StepExact(s, ops[0]);
      StepCounted(s, ops[0]);
      RunExact(Step(s, ops[0]), ops[1..]);
    }
  }

  /** As long as every passage is in order, whatever the clock reads: no start is ever missing, every
      suppressed cue is told of by exactly one gap or still counted, and a gap spans exactly its
      cues. */
  lemma GapsTellAll(ops: seq<Op>)
    requires Schedule(IDLE, ops) && Run(IDLE, ops).decided <= MAX_U64
    ensures var s := Run(IDLE, ops);
            && s.lost == 0 && Covered(s.gaps, s.times)
            && (Idle(s) ==> |s.times| == s.decided == s.meter.suppressed + Told(s.gaps))
  {
    hide Run, Covered, Schedule, OpenGap, Told, Carried, Notings;
    IdleStarts();
    RunExact(IDLE, ops);
    AlwaysCounted(IDLE, ops);
    IdleCounts(Run(IDLE, ops));
  }

  lemma IdleStarts()
    ensures Exact(IDLE) && Counted(IDLE) && Unlike(IDLE)
  {
  }

  lemma IdleCounts(s: State)
    ensures Idle(s) ==> Notings(s.calls) == 0 == Carried(s.calls)
  {
  }

  // ----- And when they are not -----

  /** A gap that starts with another cue than its first, or before its first has noted. */
  predicate StartsWrong(s: State, i: nat) {
    && i < |s.gaps|
    && (Told(s.gaps[..i]) < |s.times| ==> s.gaps[i].start != s.times[Told(s.gaps[..i])])
  }

  /** A gap that tells of a cue suppressed before its start or after its end. */
  predicate TellsWrong(s: State, i: nat, j: nat) {
    && i < |s.gaps| && Told(s.gaps[..i]) <= j < Told(s.gaps[..i]) + s.gaps[i].count && j < |s.times|
    && !(s.gaps[i].start <= s.times[j] <= s.gaps[i].end)
  }

  /** A cue waiting to be told of that was suppressed before the start of the open gap. */
  predicate Early(s: State, j: nat) {
    Told(s.gaps) <= j < |s.times| && s.startedAt.Some? && s.times[j] < s.startedAt.value
  }

  /** The ways to be inexact, each of which lasts. */
  ghost predicate Broken(s: State) {
    || s.lost > 0 || !Aligned(s)
    || (exists i: nat :: StartsWrong(s, i))
    || (exists i: nat, j: nat :: TellsWrong(s, i, j))
    || (exists j: nat :: Early(s, j))
  }

  lemma {:induction false} ToldPrefix(gaps: seq<Gap>, i: nat)
    requires i < |gaps|
    ensures Told(gaps[..i]) + gaps[i].count <= Told(gaps)
    decreases |gaps| - i
  {
    assert gaps[..i + 1][..i] == gaps[..i];
    if i + 1 < |gaps| { ToldPrefix(gaps, i + 1); } else { assert gaps[..i + 1] == gaps; }
  }

  lemma BrokenIff(s: State)
    requires Counted(s)
    ensures Broken(s) <==> !Exact(s)
  {
    assert forall i :: 0 <= i < |s.gaps| ==> s.gaps[i].count > 0;
    hide Told, Counted;
    if Broken(s) {
      if i: nat :| StartsWrong(s, i) {
        assert !Spanned(s.gaps, i, s.times);
      } else if i: nat, j: nat :| TellsWrong(s, i, j) {
        assert !Spanned(s.gaps, i, s.times);
      } else if j: nat :| Early(s, j) {
        assert !OpenGap(s);
      }
    } else {
      forall i: nat | i < |s.gaps| ensures Spanned(s.gaps, i, s.times) {
        ToldPrefix(s.gaps, i);
        assert !StartsWrong(s, i);
        var from, g := Told(s.gaps[..i]), s.gaps[i];
        forall j | from <= j < from + g.count ensures g.start <= s.times[j] <= g.end { assert !TellsWrong(s, i, j); }
      }
      forall j | Told(s.gaps) <= j < |s.times| && s.startedAt.Some? ensures s.startedAt.value <= s.times[j] { assert !Early(s, j); }
    }
  }

  /** Whatever starts a gap is the reading of a cue that has noted, and readings still on their way
      differ from those and from each other. */
  predicate Unlike(s: State) {
    && (s.startedAt.Some? ==> s.startedAt.value in s.times)
    && (forall i :: 0 <= i < |s.gaps| ==> s.gaps[i].start in s.times)
    && (forall k :: 0 <= k < |s.calls| && s.calls[k].reading.Some? ==> s.calls[k].reading.value !in s.times)
    && (forall k, l :: 0 <= k < l < |s.calls| && s.calls[k].reading.Some? ==> s.calls[k].reading != s.calls[l].reading)
  }

  /** A reading that nobody holds or has noted. */
  predicate New(s: State, now: nat) {
    now !in s.times && forall k :: 0 <= k < |s.calls| ==> s.calls[k].reading != Some(now)
  }

  /** No two calls read the same time. */
  predicate Distinct(s: State, ops: seq<Op>)
    decreases |ops|
  {
    ops == [] || ((ops[0].Look? ==> New(s, ops[0].now)) && Distinct(Step(s, ops[0]), ops[1..]))
  }

  lemma PassUnlike(s: State, k: nat)
    requires Unlike(s) && Ready(s, k)
    ensures Unlike(PassGap(s, k))
  {
    var calls := Left(s.calls, k);
    assert forall l :: 0 <= l < |calls| ==> calls[l] == s.calls[if l < k then l else l + 1];
    hide Left;
  }

  lemma StepUnlike(s: State, op: Op)
    requires Unlike(s) && (op.Look? ==> New(s, op.now))
    ensures Unlike(Step(s, op))
  {
    hide Decide, PassGap;
    if op.Pass? && Ready(s, op.k) { PassUnlike(s, op.k); }
  }

  lemma NotingBroken(s: State, k: nat)
    requires Broken(s) && Unlike(s) && Ready(s, k) && s.calls[k].Noting?
    ensures Broken(PassGap(s, k))
  {
    var s' := PassGap(s, k);
    hide Told, Left;
    if i: nat :| StartsWrong(s, i) {
      assert StartsWrong(s', i);
    } else if i: nat, j: nat :| TellsWrong(s, i, j) {
      assert TellsWrong(s', i, j);
    } else if j: nat :| Early(s, j) {
      assert Early(s', j);
    } else {
      assert s.lost == 0 ==> !Aligned(s');
    }
  }

  lemma ClosingBroken(s: State, k: nat)
    requires Broken(s) && Ready(s, k) && s.calls[k].Closing? && s.calls[k].count > 0
    ensures Broken(PassGap(s, k))
  {
    var s' := PassGap(s, k);
    hide Told, Left;
    if s.startedAt.Some? {
      assert forall i :: 0 <= i <= |s.gaps| ==> s'.gaps[..i] == s.gaps[..i];
      assert s.gaps[..|s.gaps|] == s.gaps;
      ToldSnoc(s.gaps, s'.gaps[|s.gaps|]);
      if i: nat :| StartsWrong(s, i) {
        assert StartsWrong(s', i);
      } else if i: nat, j: nat :| TellsWrong(s, i, j) {
        assert TellsWrong(s', i, j);
      } else if j: nat :| Early(s, j) {
        assert TellsWrong(s', |s.gaps|, j) || !Aligned(s');
      } else {
        assert s.lost == 0 ==> StartsWrong(s', |s.gaps|);
      }
    }
  }

  /** A passage out of order spoils the record. */
  lemma DisorderBreaks(s: State, k: nat)
    requires Counted(s) && Exact(s) && s.decided <= MAX_U64 && Ready(s, k) && !InOrder(s, Pass(k))
    ensures Broken(PassGap(s, k))
  {
    var s', at := PassGap(s, k), s.calls[k].reading.value;
    if s.calls[k].Noting? {
      assert Early(s', |s.times|) by { hide Told, Left; }
    } else {
      BalancedIff(s, k);
      assert s.calls[k].count > 0;
      hide Counted, Covered, Balanced, Told, Left;
      if s.startedAt.Some? {
        ToldSnoc(s.gaps, s'.gaps[|s.gaps|]);
        assert s'.gaps[..|s.gaps|] == s.gaps;
        if Balanced(s, k) {
          var j: nat :| Told(s.gaps) <= j < |s.times| && s.times[j] > at;
          assert TellsWrong(s', |s.gaps|, j);
        } else {
          assert !Aligned(s');
        }
      }
    }
  }

  lemma StepBroken(s: State, op: Op)
    requires Counted(s) && Broken(s) && Unlike(s)
    ensures Broken(Step(s, op))
  {
    if op.Pass? && Ready(s, op.k) {
      hide Broken, Unlike, PassGap;
      if s.calls[op.k].Noting? {
        NotingBroken(s, op.k);
      } else {
        assert s.calls[op.k].count > 0 by { hide Carried, Notings, Told; }
        ClosingBroken(s, op.k);
      }
    } else {
      hide Step, Unlike;
      QuietStep(s, op);
      SameBroken(s, Step(s, op));
    }
  }

  lemma SameBroken(s: State, s': State)
    requires Broken(s) && s'.gaps == s.gaps && s'.times == s.times && s'.startedAt == s.startedAt && s'.lost == s.lost
    ensures Broken(s')
  {
    hide Told;
    if i: nat :| StartsWrong(s, i) {
      assert StartsWrong(s', i);
    } else if i: nat, j: nat :| TellsWrong(s, i, j) {
      assert TellsWrong(s', i, j);
    } else if j: nat :| Early(s, j) {
      assert Early(s', j);
    }
  }

  /** One step: the record is exact afterwards exactly if it was before and the step is in order. */
  lemma StepExactIff(s: State, op: Op)
    requires Counted(s) && Unlike(s) && s.decided <= MAX_U64
    ensures Exact(Step(s, op)) <==> Exact(s) && InOrder(s, op)
  {
    hide Exact, Counted, Unlike, Broken, Step, Balanced;
    BrokenIff(s);
    StepCounted(s, op);
    BrokenIff(Step(s, op));
    if !Exact(s) {
      StepBroken(s, op);
    } else if InOrder(s, op) {
      StepExact(s, op);
    } else {
      assert Step(s, op) == PassGap(s, op.k) by { PassIs(s, op.k); hide PassGap; }
      hide InOrder;
      DisorderBreaks(s, op.k);
    }
  }

  lemma PassLeaves(s: State, k: nat)
    requires Ready(s, k)
    ensures PassGap(s, k).calls == Left(s.calls, k) && PassGap(s, k).decided == s.decided
  {
    hide Left;
  }

  lemma PassIs(s: State, k: nat)
    ensures Ready(s, k) ==> Step(s, Pass(k)) == PassGap(s, k)
  {
    hide PassGap;
  }

  lemma {:induction false} RunExactIff(s: State, ops: seq<Op>)
    requires Counted(s) && Unlike(s) && Distinct(s, ops) && Run(s, ops).decided <= MAX_U64
    ensures Exact(Run(s, ops)) <==> Exact(s) && Schedule(s, ops)
    decreases |ops|
  {
    hide Step, Exact, Counted, Unlike, New, InOrder;
    if ops != [] {
      DecidedGrows(s, ops);
      StepCounted(s, ops[0]);
      StepUnlike(s, ops[0]);
      StepExactIff(s, ops[0]);
      RunExactIff(Step(s, ops[0]), ops[1..]);
    }
  }

  /** Over every interleaving in which no two calls read the same time: the gaps are exact if and
      only if every passage is in order. */
  lemma ExactIff(ops: seq<Op>)
    requires Distinct(IDLE, ops) && Run(IDLE, ops).decided <= MAX_U64
    ensures Exact(Run(IDLE, ops)) <==> Schedule(IDLE, ops)
  {
    hide Distinct, Run, Schedule, Exact, Counted, Unlike;
    IdleStarts();
    RunExactIff(IDLE, ops);
  }

  // ----- Schedules that go wrong -----

  lemma UnfoldAt(s: State, ops: seq<Op>, n: nat)
    requires n < |ops|
    ensures Run(s, ops[n..]) == Run(Step(s, ops[n]), ops[n + 1..])
  {
    assert ops[n..][1..] == ops[n + 1..];
  }

  lemma RunEnds(s: State, ops: seq<Op>)
    ensures Run(s, ops[|ops|..]) == s
  {
  }

  /** A call that passes the gap right after its reading. */
  function Through(s: State, k: nat, now: nat): State {
    Step(Step(s, Look(k, now)), Pass(k))
  }

  lemma UnfoldThrough(s: State, ops: seq<Op>, n: nat, k: nat, now: nat)
    requires n + 1 < |ops| && ops[n] == Look(k, now) && ops[n + 1] == Pass(k)
    ensures Run(s, ops[n..]) == Run(Through(s, k, now), ops[n + 2..])
  {
    hide Step;
    UnfoldAt(s, ops, n);
    UnfoldAt(Step(s, ops[n]), ops, n + 1);
  }

  lemma NotedThrough(s: State, k: nat, now: nat)
    requires k < |s.calls| && s.calls[k] == Noting(None)
    ensures Through(s, k, now) == s.(calls := Left(s.calls, k), times := s.times + [now],
                                     startedAt := if s.startedAt.Some? then s.startedAt else Some(now))
  {
    assert Left(s.calls[k := Noting(Some(now))], k) == Left(s.calls, k);
  }

  lemma ResumedThrough(s: State, k: nat, count: nat, now: nat)
    requires k < |s.calls| && s.calls[k] == Closing(count, None)
    ensures var rest := s.(calls := Left(s.calls, k));
            Through(s, k, now) == if s.startedAt.None? then rest.(lost := s.lost + count)
                                  else rest.(startedAt := None, gaps := s.gaps + [Gap(count, s.startedAt.value, now)])
  {
    assert Left(s.calls[k := Closing(count, Some(now))], k) == Left(s.calls, k);
  }

  const ONE_SUPPRESSED := IDLE.(meter := Meter(true, 1), calls := [Noting(None)], decided := 1)
  const TWO_SUPPRESSED := IDLE.(meter := Meter(true, 2), calls := [Noting(None), Noting(None)], decided := 2)

  lemma Suppressing(heavy: Load)
    requires Heavy(heavy) && !heavy.sealed
    ensures Step(IDLE, Begin(heavy)) == ONE_SUPPRESSED && Step(ONE_SUPPRESSED, Begin(heavy)) == TWO_SUPPRESSED
  {
  }

  lemma Resuming(s: State, light: Load)
    requires Light(light) && !light.sealed && s.meter.paused && s.meter.suppressed > 0
    ensures Step(s, Begin(light)) == s.(meter := Meter(false, 0), calls := s.calls + [Closing(s.meter.suppressed, None)])
  {
  }

  /** Calls that overlap can lose a gap: one resumes before the only suppressed cue has noted the
      start, or a cue is suppressed between a resumption's two locks. */
  lemma OverlapLoses(heavy: Load, light: Load, now: nat)
    requires Heavy(heavy) && Light(light) && !heavy.sealed && !light.sealed
    ensures Run(IDLE, [Begin(heavy), Begin(light), Look(1, now), Pass(1)]).lost == 1
    ensures Run(IDLE, [Begin(heavy), Look(0, now), Pass(0), Begin(light), Begin(heavy), Look(1, now), Pass(1), Look(0, now),
                       Pass(0), Begin(light), Look(0, now), Pass(0)]).lost == 1
  {
    ResumesTooSoon(heavy, light, now);
    SuppressedBetween(heavy, light, now);
  }

  lemma ResumesTooSoon(heavy: Load, light: Load, now: nat)
    requires Heavy(heavy) && Light(light) && !heavy.sealed && !light.sealed
    ensures Run(IDLE, [Begin(heavy), Begin(light), Look(1, now), Pass(1)]).lost == 1
  {
    var ops := [Begin(heavy), Begin(light), Look(1, now), Pass(1)];
    var s := ONE_SUPPRESSED.(meter := Meter(false, 0), calls := [Noting(None), Closing(1, None)]);
    hide Step, Through, Run;
    Suppressing(heavy);
    assert Step(ONE_SUPPRESSED, ops[1]) == s by { Resuming(ONE_SUPPRESSED, light); }
    assert Through(s, 1, now).lost == 1 by { ResumedThrough(s, 1, 1, now); }
    hide Left;
    assert ops[0..] == ops;
    UnfoldAt(IDLE, ops, 0);
    UnfoldAt(ONE_SUPPRESSED, ops, 1);
    UnfoldThrough(s, ops, 2, 1, now);
    RunEnds(Through(s, 1, now), ops);
  }

  lemma SuppressedBetween(heavy: Load, light: Load, now: nat)
    requires Heavy(heavy) && Light(light) && !heavy.sealed && !light.sealed
    ensures Run(IDLE, [Begin(heavy), Look(0, now), Pass(0), Begin(light), Begin(heavy), Look(1, now), Pass(1), Look(0, now),
                       Pass(0), Begin(light), Look(0, now), Pass(0)]).lost == 1
  {
    hide Step, Through, Run, ONE_SUPPRESSED, IDLE, Heavy, Light;
    var ops := [Begin(heavy), Look(0, now), Pass(0), Begin(light), Begin(heavy), Look(1, now), Pass(1), Look(0, now),
                Pass(0), Begin(light), Look(0, now), Pass(0)];
    Suppressing(heavy);
    var s1, s2, s3, s4, s5, s6 := BetweenSteps(heavy, light, now);
    assert ops[0..] == ops;
    UnfoldAt(IDLE, ops, 0);
    UnfoldThrough(ONE_SUPPRESSED, ops, 1, 0, now);
    UnfoldAt(s1, ops, 3);
    UnfoldAt(s2, ops, 4);
    UnfoldThrough(s3, ops, 5, 1, now);
    UnfoldThrough(s4, ops, 7, 0, now);
    UnfoldAt(s5, ops, 9);
    UnfoldThrough(s6, ops, 10, 0, now);
    RunEnds(Through(s6, 0, now), ops);
  }

  lemma BetweenSteps(heavy: Load, light: Load, now: nat)
    returns (s1: State, s2: State, s3: State, s4: State, s5: State, s6: State)
    requires Heavy(heavy) && Light(light) && !heavy.sealed && !light.sealed
    ensures Through(ONE_SUPPRESSED, 0, now) == s1 && Step(s1, Begin(light)) == s2 && Step(s2, Begin(heavy)) == s3
    ensures Through(s3, 1, now) == s4 && Through(s4, 0, now) == s5
    ensures Step(s5, Begin(light)) == s6 && Through(s6, 0, now).lost == 1
  {
    s1 := ONE_SUPPRESSED.(calls := [], startedAt := Some(now), times := [now]);
    s2 := s1.(meter := Meter(false, 0), calls := [Closing(1, None)]);
    s3 := s2.(meter := Meter(true, 1), calls := [Closing(1, None), Noting(None)], decided := 2);
    s4 := s3.(calls := [Closing(1, None)], times := [now, now]);
    s5 := s4.(calls := [], startedAt := None, gaps := [Gap(1, now, now)]);
    s6 := s5.(meter := Meter(false, 0), calls := [Closing(1, None)]);
    assert Step(s2, Begin(heavy)) == s3;
    hide Step, Through;
    assert Through(ONE_SUPPRESSED, 0, now) == s1 by { NotedThrough(ONE_SUPPRESSED, 0, now); }
    assert Step(s1, Begin(light)) == s2 by { Resuming(s1, light); }
    assert Through(s3, 1, now) == s4 by { NotedThrough(s3, 1, now); }
    assert Through(s4, 0, now) == s5 by { ResumedThrough(s4, 0, 1, now); }
    assert Step(s5, Begin(light)) == s6 by { Resuming(s5, light); }
    ResumedThrough(s6, 0, 1, now);
  }

  lemma MisreportSteps(light: Load) returns (s1: State, s2: State, s3: State, s4: State)
    requires Light(light) && !light.sealed
    ensures Through(TWO_SUPPRESSED, 0, 1) == s1 && Step(s1, Begin(light)) == s2
    ensures Through(s2, 1, 2) == s3 && Through(s3, 0, 3) == s4
    ensures s4.lost == 0 && s4.gaps == [Gap(2, 1, 2)] && s4.times == [1, 3] && s4.startedAt == Some(3) && s4.meter.suppressed == 0
  {
    s1 := TWO_SUPPRESSED.(calls := [Noting(None)], startedAt := Some(1), times := [1]);
    s2 := s1.(meter := Meter(false, 0), calls := [Noting(None), Closing(2, None)]);
    s3 := s2.(calls := [Noting(None)], startedAt := None, gaps := [Gap(2, 1, 2)]);
    s4 := s3.(calls := [], startedAt := Some(3), times := [1, 3]);
    hide Step, Through;
    assert Through(TWO_SUPPRESSED, 0, 1) == s1 by { NotedThrough(TWO_SUPPRESSED, 0, 1); }
    assert Step(s1, Begin(light)) == s2 by { Resuming(s1, light); }
    assert Through(s2, 1, 2) == s3 by { ResumedThrough(s2, 1, 2, 2); }
    assert Through(s3, 0, 3) == s4 by { NotedThrough(s3, 0, 3); }
  }

  /** Nothing need be lost for a gap to be wrong: a cue noted after the resumption that counts it
      leaves a gap that ends before its last cue, and a start with nothing behind it. */
  lemma OverlapMisreports(heavy: Load, light: Load)
    requires Heavy(heavy) && Light(light) && !heavy.sealed && !light.sealed
    ensures var s := Run(IDLE, [Begin(heavy), Begin(heavy), Look(0, 1), Pass(0), Begin(light), Look(1, 2), Pass(1), Look(0, 3), Pass(0)]);
            && s.lost == 0 && s.gaps == [Gap(2, 1, 2)] && s.times == [1, 3] && !Covered(s.gaps, s.times)
            && s.startedAt == Some(3) && s.meter.suppressed == 0
  {
    hide Step, Through, Covered, Run, ONE_SUPPRESSED, TWO_SUPPRESSED, IDLE, Heavy, Light;
    var ops := [Begin(heavy), Begin(heavy), Look(0, 1), Pass(0), Begin(light), Look(1, 2), Pass(1), Look(0, 3), Pass(0)];
    Suppressing(heavy);
    var s1, s2, s3, s4 := MisreportSteps(light);
    assert ops[0..] == ops;
    UnfoldAt(IDLE, ops, 0);
    UnfoldAt(ONE_SUPPRESSED, ops, 1);
    UnfoldThrough(TWO_SUPPRESSED, ops, 2, 0, 1);
    UnfoldAt(s1, ops, 4);
    UnfoldThrough(s2, ops, 5, 1, 2);
    UnfoldThrough(s3, ops, 7, 0, 3);
    RunEnds(s4, ops);
    SpansNot(Gap(2, 1, 2), [1, 3]);
  }

  lemma OvertakingSteps(light: Load) returns (s1: State, s2: State, s3: State, s4: State, s5: State)
    requires Light(light) && !light.sealed
    ensures Step(TWO_SUPPRESSED, Look(0, 1)) == s1 && Through(s1, 1, 2) == s2 && Step(s2, Pass(0)) == s3
    ensures Step(s3, Begin(light)) == s4 && Through(s4, 0, 3) == s5
    ensures s5.lost == 0 && s5.gaps == [Gap(2, 2, 3)] && s5.times == [2, 1]
  {
    s1 := TWO_SUPPRESSED.(calls := [Noting(Some(1)), Noting(None)]);
    s2 := s1.(calls := [Noting(Some(1))], startedAt := Some(2), times := [2]);
    s3 := s2.(calls := [], times := [2, 1]);
    s4 := s3.(meter := Meter(false, 0), calls := [Closing(2, None)]);
    s5 := s4.(calls := [], startedAt := None, gaps := [Gap(2, 2, 3)]);
    assert Step(s2, Pass(0)) == s3 by { assert Left(s2.calls, 0) == []; }
    hide Through, Light, Heavy;
    assert Through(s1, 1, 2) == s2 by { NotedThrough(s1, 1, 2); }
    hide Step;
    assert Step(s3, Begin(light)) == s4 by { Resuming(s3, light); }
    assert Through(s4, 0, 3) == s5 by { ResumedThrough(s4, 0, 2, 3); }
  }

  /** Nor need a resumption be out of balance: of two suppressed cues the one with the later reading
      passes first, and the gap starts after one of its cues. */
  lemma OvertakingMisreports(heavy: Load, light: Load)
    requires Heavy(heavy) && Light(light) && !heavy.sealed && !light.sealed
    ensures var s := Run(IDLE, [Begin(heavy), Begin(heavy), Look(0, 1), Look(1, 2), Pass(1), Pass(0), Begin(light), Look(0, 3), Pass(0)]);
            s.lost == 0 && s.gaps == [Gap(2, 2, 3)] && s.times == [2, 1] && !Covered(s.gaps, s.times)
  {
    hide Step, Through, Covered, Run, ONE_SUPPRESSED, TWO_SUPPRESSED, IDLE, Heavy, Light;
    var ops := [Begin(heavy), Begin(heavy), Look(0, 1), Look(1, 2), Pass(1), Pass(0), Begin(light), Look(0, 3), Pass(0)];
    Suppressing(heavy);
    var s1, s2, s3, s4, s5 := OvertakingSteps(light);
    assert ops[0..] == ops;
    UnfoldAt(IDLE, ops, 0);
    UnfoldAt(ONE_SUPPRESSED, ops, 1);
    UnfoldAt(TWO_SUPPRESSED, ops, 2);
    UnfoldThrough(s1, ops, 3, 1, 2);
    UnfoldAt(s2, ops, 5);
    UnfoldAt(s3, ops, 6);
    UnfoldThrough(s4, ops, 7, 0, 3);
    RunEnds(s5, ops);
    SpansNot(Gap(2, 2, 3), [2, 1]);
  }

  lemma SpansNot(g: Gap, times: seq<nat>)
    requires g.count == |times| == 2 && !(g.start <= times[1] <= g.end)
    ensures !Covered([g], times)
  {
    var gaps := [g];
    assert gaps[..0] == [] && Told([]) == 0;
    assert !Spanned(gaps, 0, times);
  }

  // ----- Whole calls -----

  /** A call that nobody interrupts: the decision, the reading and the passage through the gap. */
  function Whole(s: State, op: Op, now: nat): State {
    var s1 := Step(s, op);
    if Idle(s1) then s1 else Through(s1, 0, now)
  }

  /** Uninterrupted calls pass in order while the clock does not run back, so nothing is ever
      missing. */
  lemma WholeExact(s: State, op: Op, now: nat)
    requires Counted(s) && Exact(s) && Idle(s) && !op.Look? && !op.Pass? && Whole(s, op, now).decided <= MAX_U64
    requires forall j :: 0 <= j < |s.times| ==> s.times[j] <= now
    ensures Exact(Whole(s, op, now)) && Counted(Whole(s, op, now)) && Idle(Whole(s, op, now))
  {
    var s1 := Step(s, op);
    OneCall(s, op);
    QuietStep(s, op);
    DecidedStep(s, op);
    StepCounted(s, op);
    hide Exact, Counted, Step, InOrder;
    StepExact(s, op);
    if !Idle(s1) {
      OnePassage(s1, now);
      var s2 := Step(s1, Look(0, now));
      StepExact(s1, Look(0, now));
      StepCounted(s1, Look(0, now));
      StepExact(s2, Pass(0));
      StepCounted(s2, Pass(0));
    }
  }

  lemma OneCall(s: State, op: Op)
    requires Idle(s) && !op.Look? && !op.Pass?
    ensures InOrder(s, op) && (Idle(Step(s, op)) || BalancedCall(Step(s, op)))
  {
    hide Heavy, Light;
  }

  /** One call in progress that has not read the clock; if it is a resumption, nothing has been
      suppressed since. */
  predicate BalancedCall(s: State) {
    |s.calls| == 1 && s.calls[0].reading.None? && (s.calls[0].Closing? ==> s.meter.suppressed == 0)
  }

  lemma OnePassage(s: State, now: nat)
    requires BalancedCall(s) && (s.startedAt.Some? ==> s.startedAt.value in s.times)
    requires forall j :: 0 <= j < |s.times| ==> s.times[j] <= now
    ensures InOrder(s, Look(0, now)) && InOrder(Step(s, Look(0, now)), Pass(0))
    ensures Idle(Through(s, 0, now)) && Through(s, 0, now).decided == s.decided
  {
    var s1 := s.(calls := [s.calls[0].(reading := Some(now))]);
    assert Step(s, Look(0, now)) == s1;
    assert Left(s1.calls, 0) == [];
    hide Step, Told, PassGap;
    assert Idle(Step(s1, Pass(0))) && Step(s1, Pass(0)).decided == s1.decided by { PassIs(s1, 0); PassLeaves(s1, 0); }
    if s1.calls[0].Closing? {
      assert s1.calls == [] + [s1.calls[0]];
      CarriedSnoc([], s1.calls[0]);
      hide Notings, Carried;
      assert Carried([]) == 0 && Notings([]) == 0;
    }
  }

  datatype Outcome = Captured | Suppressed | Resumed(gap: Gap) | StartMissing

  class CaptureContext {
    var meter: Meter
    var startedAt: Option<nat>
    ghost var told: State

    /** The record is that of a history in which every call has gone through. */
    ghost predicate Valid()
      reads this
    {
      Idle(told) && told.meter == meter && told.startedAt == startedAt
    }

    constructor ()
      ensures Valid() && told == IDLE && Counted(told) && Exact(told)
    {
      meter, startedAt, told := Meter(false, 0), None, IDLE;
    }

    method NoteSuppressed(now: nat)
      modifies this`startedAt
      ensures startedAt == if old(startedAt).Some? then old(startedAt) else Some(now)
    {
      if startedAt.None? {
        startedAt := Some(now);
      }
    }

    method CloseGap(count: nat, now: nat) returns (outcome: Outcome)
      modifies this`startedAt
      ensures startedAt.None?
      ensures outcome == if old(startedAt).None? then StartMissing else Resumed(Gap(count, old(startedAt).value, now))
    {
      if startedAt.None? {
        return StartMissing;
      }
      outcome := Resumed(Gap(count, startedAt.value, now));
      startedAt := None;
    }

    /** Asks whether to capture a new cue; reports the gap when capture resumes. */
    method BeginCueCapture(load: Load, now: nat) returns (outcome: Outcome)
      requires Valid()
      modifies this
      ensures Valid() && told == Whole(old(told), Begin(load), now)
      ensures outcome.Resumed? ==> told.gaps == old(told).gaps + [outcome.gap]
      ensures !outcome.Resumed? ==> told.gaps == old(told).gaps
      ensures outcome.StartMissing? <==> told.lost > old(told).lost
      ensures outcome.Suppressed? <==> told.decided > old(told).decided
    {
      ghost var was := told;
      var (m, decision) := Decide(meter, load);
      meter := m;
      told := Whole(was, Begin(load), now);
      match decision {
        case Capture => outcome := Captured;
        case Suppress =>
          NoteSuppressed(now);
          outcome := Suppressed;
        case Resume(count) => outcome := CloseGap(count, now);
      }
    }

    /** The end of the run reports whatever is still suppressed. */
    method FinishCueCapture(now: nat) returns (outcome: Outcome)
      requires Valid()
      modifies this
      ensures Valid() && told == Whole(old(told), End, now)
      ensures outcome.Resumed? ==> told.gaps == old(told).gaps + [outcome.gap]
      ensures !outcome.Resumed? ==> told.gaps == old(told).gaps
      ensures outcome.StartMissing? <==> told.lost > old(told).lost
    {
      ghost var was := told;
      var (m, count) := TakeRest(meter);
      meter := m;
      told := Whole(was, End, now);
      if count.None? {
        return Captured;
      }
      outcome := CloseGap(count.value, now);
    }
  }
}
