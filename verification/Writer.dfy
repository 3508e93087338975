/** The durable writer: ingress queue, batch accumulator, committed store. Producers reserve,
    commit and seal between any two actions of the writer; nothing accepted is lost, reordered or
    written twice. */
module Writer {
  import opened Events

  const MAX_UNCOMMITTED_EVENTS: nat := 32_768
  const MAX_UNCOMMITTED_CANONICAL_BYTES: nat := 64 * 1024 * 1024
  const MAX_BATCH_AGE: nat := 25_000_000
  const MAX_BATCH_EVENTS: nat := 512
  const MAX_BATCH_CANONICAL_BYTES: nat := 1024 * 1024

  /** An accepted event: its sequence and the size of its canonical encoding. */
  datatype Item = Item(sequence: nat, bytes: nat)

  function Bytes(items: seq<Item>): nat {
    if items == [] then 0 else Bytes(items[..|items| - 1]) + items[|items| - 1].bytes
  }

  // ----- Ingress -----

  datatype Class = Normal | Fatal

  datatype FatalState = Available | FatalReserved | FatalAdmitted

  /** `outstanding` are the accepted, uncommitted events; the first `taken` are in flight. */
  datatype Ingress = Ingress(
    reserved: nat,
    reservedBytes: nat,
    outstanding: seq<Item>,
    taken: nat,
    committedSequence: nat,
    sealed: bool,
    fatalAuthorized: bool,
    fatalState: FatalState,
    budgetExhausted: bool,
    accountingFailed: bool)

  const NEW_INGRESS := Ingress(0, 0, [], 0, 0, false, false, Available, false, false)

  predicate Fits(g: Ingress, bytes: nat) {
    && g.reserved + |g.outstanding| + 1 <= MAX_UNCOMMITTED_EVENTS
    && g.reservedBytes + Bytes(g.outstanding) + bytes <= MAX_UNCOMMITTED_CANONICAL_BYTES
  }

  /** A normal reservation that does not fit seals the ingress for good; the single fatal
      reservation becomes available only then, or after a failure outside. */
  function Reserve(g: Ingress, bytes: nat, class_: Class): (Ingress, bool) {
    if class_.Normal? && g.sealed then (g, false)
    else if class_.Fatal? && (!g.fatalAuthorized || !g.fatalState.Available?) then (g, false)
    else if !Fits(g, bytes) then
      (if class_.Fatal? then g else g.(sealed := true, fatalAuthorized := true, budgetExhausted := true), false)
    else
      (g.(reserved := g.reserved + 1, reservedBytes := g.reservedBytes + bytes,
          fatalState := if class_.Fatal? then FatalReserved else g.fatalState), true)
  }

  function Release(g: Ingress, bytes: nat): Ingress {
    g.(reserved := if g.reserved == 0 then 0 else g.reserved - 1,
       reservedBytes := if g.reservedBytes < bytes then 0 else g.reservedBytes - bytes)
  }

  function NextSequence(g: Ingress): nat {
    if g.outstanding == [] then g.committedSequence + 1 else g.outstanding[|g.outstanding| - 1].sequence + 1
  }

  /** Turning a reservation into an accepted event; a sequence out of line is an accounting failure. */
  function CommitReservation(g: Ingress, item: Item, class_: Class): Ingress {
    var freed := Release(g, item.bytes);
    freed.(outstanding := g.outstanding + [item],
           fatalState := if class_.Fatal? then FatalAdmitted else g.fatalState,
           sealed := g.sealed || item.sequence != NextSequence(g),
           fatalAuthorized := g.fatalAuthorized || item.sequence != NextSequence(g),
           accountingFailed := g.accountingFailed || item.sequence != NextSequence(g))
  }

  function DropReservation(g: Ingress, bytes: nat, class_: Class): Ingress {
    Release(g, bytes).(fatalState := if class_.Fatal? && g.fatalState.FatalReserved? then Available else g.fatalState)
  }

  datatype Notification = Notification(previous: nat, committed: nat, count: nat, bytes: nat)

  /** The committed prefix must be in flight, dense, and as large as the writer says. */
  predicate Accountable(g: Ingress, n: Notification) {
    && n.previous == g.committedSequence
    && n.count <= |g.outstanding| && n.count <= g.taken
    && (forall i :: 0 <= i < n.count ==> g.outstanding[i].sequence == g.committedSequence + i + 1)
    && n.committed == g.committedSequence + n.count
    && n.bytes == Bytes(g.outstanding[..n.count])
  }

  function MarkCommitted(g: Ingress, n: Notification): Ingress {
    if !Accountable(g, n) then g.(sealed := true, fatalAuthorized := true, accountingFailed := true)
    else g.(outstanding := g.outstanding[n.count..], taken := g.taken - n.count, committedSequence := n.committed)
  }

  // ----- Accumulator -----

  datatype Accumulator = Accumulator(
    pending: seq<Item>,
    pendingBytes: nat,
    oldestAt: Option<nat>,
    lastObservedAt: Option<nat>,
    lastSequence: Option<nat>)

  const EMPTY_ACCUMULATOR := Accumulator([], 0, None, None, None)

  datatype BatchError = NonCanonicalSequence | ByteCountOverflow | ClockRegressed

  datatype BatchResult = Kept(acc: Accumulator) | Triggered(acc: Accumulator, batch: seq<Item>) | Invalid(error: BatchError)

  function Take(acc: Accumulator): BatchResult {
    Triggered(acc.(pending := [], pendingBytes := 0, oldestAt := None), acc.pending)
  }

  predicate OldestDue(acc: Accumulator, now: nat) {
    acc.oldestAt.Some? && acc.oldestAt.value <= now && now - acc.oldestAt.value >= MAX_BATCH_AGE
  }

  /** The clock has not gone back since the accumulator last saw it. */
  predicate Ahead(acc: Accumulator, now: nat) {
    acc.lastObservedAt.Some? ==> acc.lastObservedAt.value <= now
  }

  function Push(acc: Accumulator, item: Item, now: nat): BatchResult {
    if acc.lastSequence.Some? && item.sequence != acc.lastSequence.value + 1 then Invalid(NonCanonicalSequence)
    else if acc.lastObservedAt.Some? && now < acc.lastObservedAt.value then Invalid(ClockRegressed)
    else if acc.pendingBytes + item.bytes > MAX_U64 then Invalid(ByteCountOverflow)
    else
      var pushed := Accumulator(acc.pending + [item], acc.pendingBytes + item.bytes,
                                if acc.oldestAt.Some? then acc.oldestAt else Some(now), Some(now), Some(item.sequence));
      if OldestDue(pushed, now) || |pushed.pending| >= MAX_BATCH_EVENTS || pushed.pendingBytes >= MAX_BATCH_CANONICAL_BYTES
      then Take(pushed) else Kept(pushed)
  }

  function Poll(acc: Accumulator, now: nat): BatchResult {
    if acc.lastObservedAt.Some? && now < acc.lastObservedAt.value then Invalid(ClockRegressed)
    else
      var seen := acc.(lastObservedAt := Some(now));
      if OldestDue(seen, now) then Take(seen) else Kept(seen)
  }

  function Flush(acc: Accumulator): BatchResult {
    if acc.pending == [] then Kept(acc) else Take(acc)
  }

  // ----- The writer between two actions -----

  datatype Intent = FinalizeIntent | AbortIntent

  datatype Command = FinalizeCommand | AbortCommand | CloseCommand | Disconnected

  /** How far a drained writer has come: it has seen the status, it has finalized the store up to a
      watermark, it has measured the final size. Producers may act between any two of these. */
  datatype Ending = Sampled(intent: Intent) | StoreFinalized(watermark: nat) | Measured(watermark: nat)

  /** A reservation a producer holds, to be committed or dropped. */
  datatype Reservation = Reservation(bytes: nat, class_: Class)

  datatype WriterFault = IngressFailed | BatchInvalid(error: BatchError) | StoreFailed | NotCanonical | QuotaFailed | ShutdownAbandoned

  /** `held` is an event dequeued and not yet pushed, `batch` a batch taken and not yet committed;
      `accepted` is the history of everything the hub accepted. */
  datatype World = World(
    ingress: Ingress,
    reservations: seq<Reservation>,
    acc: Accumulator,
    held: Option<Item>,
    batch: seq<Item>,
    store: seq<Item>,
    accepted: seq<Item>,
    drain: Option<Intent>,
    ending: Option<Ending>,
    reply: Option<nat>,
    closed: bool,
    fault: Option<WriterFault>)

  const NEW_WORLD := World(NEW_INGRESS, [], EMPTY_ACCUMULATOR, None, [], [], [], None, None, None, false, None)

  datatype CommitOutcome = Committed | PrecheckFailed | TransactionFailed | MeasurementFailed

  datatype FinalizeOutcome = Finalized | AbandonedBefore | FinalizeFailed

  datatype Op =
    | EnvReserve(bytes: nat, class_: Class)
    | EnvCommit(k: nat)
    | EnvDrop(k: nat)
    | EnvSeal
    | EnvCoreFailure
    | CheckFailures(quota: bool)
    | Receive(command: Command)
    | Dequeue
    | PushHeld(now: nat)
    | PollPending(now: nat)
    | FlushPending
    | CommitBatch(result: CommitOutcome)
    | SampleStatus
    | FinalizeStore(outcome: FinalizeOutcome)
    | Measure(ok: bool)
    | SendReply

  predicate Working(w: World) {
    w.fault.None? && !w.closed
  }

  function Absorb(w: World, r: BatchResult): World {
    match r
    case Kept(acc) => w.(acc := acc)
    case Triggered(acc, batch) => w.(acc := acc, batch := batch)
    case Invalid(error) => w.(fault := Some(BatchInvalid(error)))
  }

  /** The store takes the batch in one transaction; the ingress is told only afterwards. */
  function CommitStep(w: World, result: CommitOutcome): World {
    if w.batch == [] then w
    else if result.PrecheckFailed? then w.(fault := Some(QuotaFailed))
    else if w.batch[0].sequence != |w.store| + 1 then w.(fault := Some(NotCanonical))
    else if result.TransactionFailed? then w.(fault := Some(StoreFailed))
    else
      var last := w.batch[|w.batch| - 1].sequence;
      var told := MarkCommitted(w.ingress, Notification(|w.store|, last, |w.batch|, Bytes(w.batch)));
      w.(store := w.store + w.batch, batch := [], ingress := told,
         fault := if result.MeasurementFailed? then Some(QuotaFailed) else None)
  }

  /** Drained: nothing reserved, nothing outstanding, nothing pending. */
  predicate Drained(w: World) {
    w.ingress.reserved + |w.ingress.outstanding| == 0 && w.acc.pending == []
  }

  /** The drain is over when a look at the status finds nothing left; from there on the writer
      looks at neither queue nor status again. */
  function SampleStep(w: World): World {
    if w.drain.None? || w.held.Some? || w.batch != [] || !Drained(w) then w
    else w.(drain := None, ending := Some(Sampled(w.drain.value)))
  }

  function FinalizeStep(w: World, outcome: FinalizeOutcome): World {
    if w.ending == Some(Sampled(AbortIntent)) then w.(closed := true)
    else if w.ending != Some(Sampled(FinalizeIntent)) then w
    else
      match outcome
      case AbandonedBefore => w.(fault := Some(ShutdownAbandoned))
      case FinalizeFailed => w.(fault := Some(StoreFailed))
      case Finalized => w.(ending := Some(StoreFinalized(|w.store|)))
  }

  function MeasureStep(w: World, ok: bool): World {
    if w.ending.None? || !w.ending.value.StoreFinalized? then w
    else if !ok then w.(fault := Some(QuotaFailed))
    else w.(ending := Some(Measured(w.ending.value.watermark)))
  }

  function ReplyStep(w: World): World {
    if w.ending.None? || !w.ending.value.Measured? then w
    else w.(reply := Some(w.ending.value.watermark), closed := true)
  }

  function EndingStep(w: World, op: Op): World {
    match op
    case FinalizeStore(outcome) => FinalizeStep(w, outcome)
    case Measure(ok) => MeasureStep(w, ok)
    case SendReply => ReplyStep(w)
    case _ => w
  }

  function Without(held: seq<Reservation>, k: nat): seq<Reservation>
    requires k < |held|
  {
    held[..k] + held[k + 1..]
  }

  function EnvStep(w: World, op: Op): World {
    match op
    case EnvReserve(bytes, class_) =>
      var (g, granted) := Reserve(w.ingress, bytes, class_);
      w.(ingress := g, reservations := if granted then w.reservations + [Reservation(bytes, class_)] else w.reservations)
    case EnvCommit(k) =>
      if k >= |w.reservations| then w
      else
        var item, class_ := Item(|w.accepted| + 1, w.reservations[k].bytes), w.reservations[k].class_;
        w.(ingress := CommitReservation(w.ingress, item, class_), accepted := w.accepted + [item],
           reservations := Without(w.reservations, k))
    case EnvDrop(k) =>
      if k >= |w.reservations| then w
      else w.(ingress := DropReservation(w.ingress, w.reservations[k].bytes, w.reservations[k].class_),
              reservations := Without(w.reservations, k))
    case EnvSeal => w.(ingress := w.ingress.(sealed := true))
    case EnvCoreFailure => w.(ingress := w.ingress.(sealed := true, fatalAuthorized := true))
    case _ => w
  }

  function WriterStep(w: World, op: Op): World {
    match op
    case CheckFailures(quota) =>
      if w.ingress.budgetExhausted || w.ingress.accountingFailed then w.(fault := Some(IngressFailed))
      else if quota then w.(fault := Some(QuotaFailed))
      else w
    case Receive(command) =>
      if w.drain.Some? then w
      else w.(drain := Some(if command.FinalizeCommand? then FinalizeIntent else AbortIntent))
    case Dequeue =>
      if w.held.Some? || w.batch != [] || w.ingress.taken >= |w.ingress.outstanding| then w
      else w.(held := Some(w.ingress.outstanding[w.ingress.taken]), ingress := w.ingress.(taken := w.ingress.taken + 1))
    case PushHeld(now) =>
      if w.held.None? || w.batch != [] then w else Absorb(w, Push(w.acc, w.held.value, now)).(held := None)
    case PollPending(now) => if w.held.Some? || w.batch != [] then w else Absorb(w, Poll(w.acc, now))
    case FlushPending => if w.held.Some? || w.batch != [] then w else Absorb(w, Flush(w.acc))
    case CommitBatch(result) => CommitStep(w, result)
    case SampleStatus => SampleStep(w)
    case _ => w
  }

  function Step(w: World, op: Op): World {
    if op.EnvReserve? || op.EnvCommit? || op.EnvDrop? || op.EnvSeal? || op.EnvCoreFailure? then EnvStep(w, op)
    else if !Working(w) then w
    else if w.ending.Some? then EndingStep(w, op)
    else WriterStep(w, op)
  }

  // ----- Conservation -----

  predicate Dense(items: seq<Item>) {
    forall i :: 0 <= i < |items| ==> items[i].sequence == i + 1
  }

  /** What the writer has taken in and not yet committed. */
  function Inside(w: World): seq<Item> {
    w.batch + w.acc.pending + if w.held.Some? then [w.held.value] else []
  }

  function ReservedBytes(held: seq<Reservation>): nat {
    if held == [] then 0 else ReservedBytes(held[..|held| - 1]) + held[|held| - 1].bytes
  }

  /** The ingress counts exactly what producers hold, never more than its two limits; there is at
      most one fatal reservation, and the ingress knows of it. */
  ghost predicate Budgeted(g: Ingress, held: seq<Reservation>) {
    && g.reserved == |held| && g.reservedBytes == ReservedBytes(held)
    && g.reserved + |g.outstanding| <= MAX_UNCOMMITTED_EVENTS
    && g.reservedBytes + Bytes(g.outstanding) <= MAX_UNCOMMITTED_CANONICAL_BYTES
    && (g.fatalState.FatalReserved? <==> exists i :: 0 <= i < |held| && held[i].class_.Fatal?)
    && (forall i, j :: 0 <= i < j < |held| ==> held[i].class_.Normal? || held[j].class_.Normal?)
  }

  /** Less than a batch is pending, and its oldest event was not yet due when the writer last
      looked at the clock. */
  predicate Prompt(acc: Accumulator) {
    && |acc.pending| < MAX_BATCH_EVENTS && acc.pendingBytes < MAX_BATCH_CANONICAL_BYTES
    && (acc.pending == [] <==> acc.oldestAt.None?)
    && (acc.oldestAt.Some? ==> acc.lastObservedAt.Some?
                               && acc.oldestAt.value <= acc.lastObservedAt.value < acc.oldestAt.value + MAX_BATCH_AGE)
  }

  predicate AccumulatorOk(w: World) {
    && w.acc.pendingBytes == Bytes(w.acc.pending) && Prompt(w.acc) && |w.batch| <= MAX_BATCH_EVENTS
    && (w.acc.lastSequence.None? ==> |w.store| + |w.batch| + |w.acc.pending| == 0)
    && (w.acc.lastSequence.Some? ==> w.acc.lastSequence.value == |w.store| + |w.batch| + |w.acc.pending|)
  }

  /** At every point the accepted events are the committed ones followed by those the ingress
      still tracks; while the writer is healthy, the tracked ones in flight are exactly what it has
      taken in, in order. No accounting or sequence error ever occurs. */
  ghost predicate Inv(w: World) {
    && Dense(w.accepted)
    && w.accepted == w.store + w.ingress.outstanding
    && w.ingress.committedSequence == |w.store|
    && w.ingress.taken <= |w.ingress.outstanding|
    && !w.ingress.accountingFailed && Budgeted(w.ingress, w.reservations)
    && w.fault != Some(BatchInvalid(NonCanonicalSequence)) && w.fault != Some(NotCanonical)
    && w.fault != Some(BatchInvalid(ByteCountOverflow))
    && (w.reply.Some? ==> w.closed && w.reply.value == |w.store|)
    && (w.ending.Some? ==> w.held.None? && w.batch == [] && w.acc.pending == []
                           && (!w.ending.value.Sampled? ==> w.ending.value.watermark == |w.store|))
    && (w.fault.None? ==> w.ingress.outstanding[..w.ingress.taken] == Inside(w) && AccumulatorOk(w))
  }

  lemma {:induction false} BytesConcat(a: seq<Item>, b: seq<Item>)
    ensures Bytes(a + b) == Bytes(a) + Bytes(b)
  {
    if b == [] {
      assert a + b == a;
    } else {
      BytesConcat(a, b[..|b| - 1]);
      assert (a + b)[..|a + b| - 1] == a + b[..|b| - 1];
    }
  }

  lemma {:induction false} ReservedWithout(held: seq<Reservation>, k: nat)
    requires k < |held|
    ensures ReservedBytes(held) == ReservedBytes(Without(held, k)) + held[k].bytes
  {
    var n := |held| - 1;
    if k == n {
      assert Without(held, k) == held[..n];
    } else {
      ReservedWithout(held[..n], k);
      assert Without(held, k)[..n - 1] == Without(held[..n], k);
    }
  }

  /** Giving up a reservation leaves the others as they were. */
  lemma FatalWithout(held: seq<Reservation>, k: nat)
    requires k < |held|
    requires forall i, j :: 0 <= i < j < |held| ==> held[i].class_.Normal? || held[j].class_.Normal?
    ensures var rest := Without(held, k);
            && (forall i, j :: 0 <= i < j < |rest| ==> rest[i].class_.Normal? || rest[j].class_.Normal?)
            && ((exists i :: 0 <= i < |rest| && rest[i].class_.Fatal?)
                <==> held[k].class_.Normal? && exists i :: 0 <= i < |held| && held[i].class_.Fatal?)
  {
    var rest := Without(held, k);
    forall i | 0 <= i < |held| && i != k ensures held[i] == rest[if i < k then i else i - 1] {
    }
    forall i | 0 <= i < |rest| ensures rest[i] == held[if i < k then i else i + 1] {
    }
  }

  lemma ReserveKept(g: Ingress, held: seq<Reservation>, bytes: nat, class_: Class)
    requires Budgeted(g, held)
    ensures var (g', granted) := Reserve(g, bytes, class_);
            && g' == g.(reserved := g'.reserved, reservedBytes := g'.reservedBytes, fatalState := g'.fatalState,
                        sealed := g'.sealed, fatalAuthorized := g'.fatalAuthorized, budgetExhausted := g'.budgetExhausted)
            && Budgeted(g', if granted then held + [Reservation(bytes, class_)] else held)
  {
    var (g', granted) := Reserve(g, bytes, class_);
    if granted {
      var held' := held + [Reservation(bytes, class_)];
      assert held'[..|held|] == held && held'[|held|].class_ == class_;
      assert forall i :: 0 <= i < |held| ==> held'[i] == held[i];
    }
  }

  lemma ReleaseKept(g: Ingress, held: seq<Reservation>, k: nat)
    requires Budgeted(g, held) && k < |held|
    ensures Budgeted(DropReservation(g, held[k].bytes, held[k].class_), Without(held, k))
  {
    hide Bytes;
    ReservedWithout(held, k);
    FatalWithout(held, k);
    hide ReservedBytes;
  }

  lemma AcceptKept(g: Ingress, held: seq<Reservation>, k: nat, item: Item)
    requires Budgeted(g, held) && k < |held| && item.bytes == held[k].bytes
    ensures Budgeted(CommitReservation(g, item, held[k].class_), Without(held, k))
  {
    BytesConcat(g.outstanding, [item]);
    assert Bytes([item]) == item.bytes by { assert [item][..0] == []; }
    hide Bytes;
    ReservedWithout(held, k);
    FatalWithout(held, k);
    hide ReservedBytes;
  }

  lemma EnvKept(w: World, op: Op)
    requires Inv(w)
    ensures Inv(EnvStep(w, op))
  {
    hide Bytes, Budgeted, Prompt;
    match op
    case EnvReserve(bytes, class_) =>
      ReserveKept(w.ingress, w.reservations, bytes, class_);
      hide Reserve;
    case EnvCommit(k) => if k < |w.reservations| { EnvCommitKept(w, k); }
    case EnvDrop(k) => if k < |w.reservations| { ReleaseKept(w.ingress, w.reservations, k); }
    case EnvSeal => assert Budgeted(w.ingress.(sealed := true), w.reservations) by { SealKept(w); }
    case EnvCoreFailure =>
      assert Budgeted(w.ingress.(sealed := true, fatalAuthorized := true), w.reservations) by { SealKept(w); }
    case _ =>
  }

  lemma SealKept(w: World)
    requires Inv(w)
    ensures Budgeted(w.ingress.(sealed := true), w.reservations)
    ensures Budgeted(w.ingress.(sealed := true, fatalAuthorized := true), w.reservations)
  {
    hide Bytes, ReservedBytes;
  }

  lemma EnvCommitKept(w: World, k: nat)
    requires Inv(w) && k < |w.reservations|
    ensures Inv(EnvStep(w, EnvCommit(k)))
  {
    hide Bytes, Budgeted, Prompt;
    var item := Item(|w.accepted| + 1, w.reservations[k].bytes);
    AcceptKept(w.ingress, w.reservations, k, item);
    var n := |w.ingress.outstanding|;
    if n > 0 { assert w.ingress.outstanding[n - 1] == w.accepted[|w.accepted| - 1]; }
    assert item.sequence == NextSequence(w.ingress);
    assert w.accepted + [item] == w.store + (w.ingress.outstanding + [item]);
    assert (w.ingress.outstanding + [item])[..w.ingress.taken] == w.ingress.outstanding[..w.ingress.taken];
  }

  lemma DequeueKept(w: World)
    requires Inv(w) && Working(w) && w.ending.None?
    ensures Inv(WriterStep(w, Dequeue))
  {
    hide Bytes;
    var n := w.ingress.taken;
    if w.held.None? && w.batch == [] && n < |w.ingress.outstanding| {
      assert w.ingress.outstanding[..n + 1] == w.ingress.outstanding[..n] + [w.ingress.outstanding[n]];
    }
  }

  /** The oldest pending event has waited for the 25 milliseconds a batch may take. */
  predicate WaitedLong(acc: Accumulator, now: nat) {
    acc.oldestAt.Some? && acc.oldestAt.value + 25_000_000 <= now
  }

  /** The accumulator's promise: a batch is given up exactly when it is full by number or size or its
      oldest event has waited long enough, and the only error is a clock that went back; nothing
      pushed is lost, a batch has at most the allowed events, and what stays pending is neither full
      nor due. */
  lemma PushConserves(acc: Accumulator, item: Item, now: nat)
    requires acc.pendingBytes == Bytes(acc.pending) && Prompt(acc) && acc.pendingBytes + item.bytes <= MAX_U64
    requires acc.lastSequence.Some? ==> item.sequence == acc.lastSequence.value + 1
    ensures var r := Push(acc, item, now);
            && (r.Invalid? <==> !Ahead(acc, now)) && (r.Invalid? ==> r.error == ClockRegressed)
            && (r.Triggered? <==>
                  Ahead(acc, now) && (|acc.pending| + 1 >= 512 || acc.pendingBytes + item.bytes >= 1_048_576 || WaitedLong(acc, now)))
            && (!r.Invalid? ==> Prompt(r.acc) && r.acc.lastObservedAt == Some(now))
            && (!r.Invalid? ==> r.acc.lastSequence == Some(item.sequence) && r.acc.pendingBytes == Bytes(r.acc.pending))
            && (r.Kept? ==> r.acc.pending == acc.pending + [item])
            && (r.Triggered? ==> r.batch == acc.pending + [item] && r.acc.pending == [] && |r.batch| <= MAX_BATCH_EVENTS)
  {
    assert (acc.pending + [item])[..|acc.pending|] == acc.pending;
  }

  /** The pending bytes cannot overflow: they are part of what the ingress has budgeted. */
  lemma PendingFits(w: World)
    requires Inv(w) && Working(w) && w.held.Some? && w.batch == []
    ensures w.acc.pendingBytes + w.held.value.bytes <= MAX_UNCOMMITTED_CANONICAL_BYTES
  {
    var g, item := w.ingress, w.held.value;
    assert Inside(w) == w.acc.pending + [item];
    BytesConcat(w.acc.pending, [item]);
    assert Bytes([item]) == item.bytes by { assert [item][..0] == []; }
    assert g.outstanding == g.outstanding[..g.taken] + g.outstanding[g.taken..];
    BytesConcat(g.outstanding[..g.taken], g.outstanding[g.taken..]);
    hide Bytes;
  }

  lemma PushKept(w: World, now: nat)
    requires Inv(w) && Working(w) && w.ending.None?
    ensures Inv(WriterStep(w, PushHeld(now)))
  {
    hide Bytes, Push, Budgeted, Prompt;
    if w.held.Some? && w.batch == [] {
      var item, pending := w.held.value, w.acc.pending;
      assert Inside(w) == pending + [item];
      assert w.ingress.outstanding[|pending|] == Inside(w)[|pending|] == item;
      assert w.accepted[|w.store| + |pending|] == item;
      PendingFits(w);
      PushConserves(w.acc, item, now);
    }
  }

  /** Polling and flushing give up all that is pending or nothing of it; a poll that keeps it has
      found it not due, and a flush keeps nothing. */
  lemma PendingConserves(acc: Accumulator, now: nat)
    requires acc.pendingBytes == Bytes(acc.pending) && Prompt(acc)
    ensures forall r :: r in [Poll(acc, now), Flush(acc)] ==>
              && (r.Invalid? ==> r.error == ClockRegressed)
              && (!r.Invalid? ==> Prompt(r.acc) && r.acc.lastSequence == acc.lastSequence
                                  && r.acc.pendingBytes == Bytes(r.acc.pending))
              && (r.Kept? ==> r.acc.pending == acc.pending)
              && (r.Triggered? ==> r.batch == acc.pending && r.acc.pending == [])
    ensures Poll(acc, now).Kept? ==> Poll(acc, now).acc.lastObservedAt == Some(now)
    ensures !Flush(acc).Invalid? && Flush(acc).acc.pending == []
    ensures (Poll(acc, now).Invalid? <==> !Ahead(acc, now)) && (Poll(acc, now).Triggered? <==> Ahead(acc, now) && WaitedLong(acc, now))
    ensures Flush(acc).Triggered? <==> acc.pending != []
  {
    assert Bytes([]) == 0;
    hide Bytes;
  }

  lemma PendingKept(w: World, op: Op)
    requires Inv(w) && Working(w) && w.ending.None? && (op.PollPending? || op.FlushPending?)
    ensures Inv(WriterStep(w, op))
  {
    hide Bytes, Budgeted, Prompt, Poll, Flush;
    if w.held.None? && w.batch == [] {
      assert Inside(w) == w.acc.pending;
      PendingConserves(w.acc, if op.PollPending? then op.now else 0);
      assert |w.acc.pending| < MAX_BATCH_EVENTS by { PromptShort(w.acc); }
      var r := if op.PollPending? then Poll(w.acc, op.now) else Flush(w.acc);
      assert r in [Poll(w.acc, if op.PollPending? then op.now else 0), Flush(w.acc)];
    }
  }

  lemma PromptShort(acc: Accumulator)
    requires Prompt(acc)
    ensures |acc.pending| < MAX_BATCH_EVENTS
  {
  }

  lemma MarkedKept(g: Ingress, held: seq<Reservation>, n: Notification)
    requires Budgeted(g, held) && Accountable(g, n)
    ensures Budgeted(MarkCommitted(g, n), held)
  {
    assert g.outstanding == g.outstanding[..n.count] + g.outstanding[n.count..];
    BytesConcat(g.outstanding[..n.count], g.outstanding[n.count..]);
    hide Bytes, ReservedBytes;
  }

  lemma CommitKept(w: World, result: CommitOutcome)
    requires Inv(w) && Working(w) && w.ending.None?
    ensures Inv(CommitStep(w, result))
  {
    hide Bytes, Budgeted, Prompt;
    var n, g := |w.batch|, w.ingress;
    if n > 0 {
      assert Inside(w)[..n] == w.batch && n <= g.taken;
      assert g.outstanding[..n] == g.outstanding[..g.taken][..n] == w.batch;
      forall i | 0 <= i < n ensures g.outstanding[i].sequence == |w.store| + i + 1 {
        assert w.accepted[|w.store| + i] == g.outstanding[i];
      }
      assert w.batch[0] == g.outstanding[0] && w.batch[n - 1] == g.outstanding[n - 1];
      var told := Notification(|w.store|, w.batch[n - 1].sequence, n, Bytes(w.batch));
      assert Accountable(g, told);
      MarkedKept(g, w.reservations, told);
      assert w.store + g.outstanding == (w.store + w.batch) + g.outstanding[n..];
      assert g.outstanding[n..][..g.taken - n] == g.outstanding[..g.taken][n..];
      assert Inside(w)[n..] == Inside(w.(batch := []));
    }
  }

  lemma StepKept(w: World, op: Op)
    requires Inv(w)
    ensures Inv(Step(w, op))
  {
    hide Bytes, Push, Poll, Flush, CommitStep;
    match op
    case Receive(_) =>
    case Dequeue => if Working(w) && w.ending.None? { DequeueKept(w); }
    case PushHeld(now) => if Working(w) && w.ending.None? { PushKept(w, now); }
    case PollPending(_) => if Working(w) && w.ending.None? { PendingKept(w, op); }
    case FlushPending => if Working(w) && w.ending.None? { PendingKept(w, op); }
    case CommitBatch(result) => if Working(w) && w.ending.None? { CommitKept(w, result); }
    case SampleStatus =>
    case FinalizeStore(_) =>
    case Measure(_) =>
    case SendReply =>
    case _ => EnvKept(w, op);
  }

  function Run(w: World, ops: seq<Op>): World
    decreases |ops|
  {
    if ops == [] then w else Run(Step(w, ops[0]), ops[1..])
  }

  /** Over every interleaving of producers and writer, with any failures: the store is a prefix of
      what was accepted, the rest is still tracked, and no sequence or accounting error occurs. */
  lemma {:induction false} WriterConserves(w: World, ops: seq<Op>)
    requires Inv(w)
    ensures Inv(Run(w, ops)) && Run(w, ops).store <= Run(w, ops).accepted
    decreases |ops|
  {
    hide Step, AccumulatorOk, Dense;
    if ops != [] {
      StepKept(w, ops[0]);
      WriterConserves(Step(w, ops[0]), ops[1..]);
    }
  }

  /** The same from the start: what is not yet committed stays within the event and byte limits, and
      a reply names the last committed sequence. */
  lemma WriterRuns(ops: seq<Op>)
    ensures var w := Run(NEW_WORLD, ops);
            && w.store <= w.accepted && Dense(w.accepted)
            && |w.reservations| + |w.accepted| - |w.store| <= MAX_UNCOMMITTED_EVENTS
            && ReservedBytes(w.reservations) + Bytes(w.accepted[|w.store|..]) <= MAX_UNCOMMITTED_CANONICAL_BYTES
            && !w.ingress.accountingFailed && w.fault != Some(NotCanonical)
            && (w.fault.Some? && w.fault.value.BatchInvalid? ==> w.fault.value.error == ClockRegressed)
            && (w.reply.Some? ==> w.reply.value == |w.store|)
  {
    WriterConserves(NEW_WORLD, ops);
    var w := Run(NEW_WORLD, ops);
    assert w.accepted[|w.store|..] == w.ingress.outstanding;
    hide Run, Bytes, ReservedBytes;
  }

  /** Whether the ingress lets a producer reserve at all: a normal event until it is sealed, the one
      fatal event once a failure has authorized it. */
  predicate Opens(g: Ingress, class_: Class) {
    if class_.Normal? then !g.sealed else g.fatalAuthorized && g.fatalState.Available?
  }

  /** A reservation is granted exactly when the ingress is open for it and the events and bytes that
      are reserved or accepted and not yet committed stay within their limits; a normal one that
      does not fit seals the ingress for good, and nothing else changes. */
  lemma ReserveIff(w: World, bytes: nat, class_: Class)
    requires Inv(w)
    ensures var w', fits := Step(w, EnvReserve(bytes, class_)),
                            && |w.reservations| + |w.accepted| - |w.store| < 32_768
                            && ReservedBytes(w.reservations) + Bytes(w.accepted[|w.store|..]) + bytes <= 67_108_864;
            if Opens(w.ingress, class_) && fits then
              w' == w.(reservations := w.reservations + [Reservation(bytes, class_)],
                       ingress := w.ingress.(reserved := |w.reservations| + 1, reservedBytes := ReservedBytes(w.reservations) + bytes,
                                             fatalState := if class_.Fatal? then FatalReserved else w.ingress.fatalState))
            else if Opens(w.ingress, class_) && class_.Normal? then
              w' == w.(ingress := w.ingress.(sealed := true, fatalAuthorized := true, budgetExhausted := true))
            else w' == w
  {
    assert w.accepted[|w.store|..] == w.ingress.outstanding;
    hide Bytes, ReservedBytes, AccumulatorOk, Dense;
    EnvIsStep(w, EnvReserve(bytes, class_));
    hide Step;
  }

  /** What becomes of a reservation: committed, it is the next event of the history and nothing is out of
      line; dropped, it leaves no trace, and a fatal one can be made again. Sealing shuts the ingress
      for normal events, and a failure outside authorizes the fatal one beside that. */
  lemma ProducersAnswer(w: World, k: nat)
    requires Inv(w)
    ensures k < |w.reservations| ==>
              var r, rest := w.reservations[k], Without(w.reservations, k);
              var item, left := Item(|w.accepted| + 1, r.bytes), w.ingress.(reserved := |rest|, reservedBytes := ReservedBytes(rest));
              && Step(w, EnvCommit(k)) ==
                 w.(reservations := rest, accepted := w.accepted + [item],
                    ingress := left.(outstanding := w.ingress.outstanding + [item],
                                     fatalState := if r.class_.Fatal? then FatalAdmitted else left.fatalState))
              && Step(w, EnvDrop(k)) ==
                 w.(reservations := rest, ingress := left.(fatalState := if r.class_.Fatal? then Available else left.fatalState))
    ensures k >= |w.reservations| ==> Step(w, EnvCommit(k)) == w && Step(w, EnvDrop(k)) == w
    ensures Step(w, EnvSeal) == w.(ingress := w.ingress.(sealed := true))
    ensures Step(w, EnvCoreFailure) == w.(ingress := w.ingress.(sealed := true, fatalAuthorized := true))
  {
    hide Step, Bytes, Prompt, AccumulatorOk, ReservedBytes, Inside, Dense;
    EnvIsStep(w, EnvSeal);
    EnvIsStep(w, EnvCoreFailure);
    EnvIsStep(w, EnvCommit(k));
    EnvIsStep(w, EnvDrop(k));
    if k < |w.reservations| {
      NextInLine(w);
      ReservationLeaves(w.ingress, w.reservations, k);
      hide Release, NextSequence, Budgeted;
    }
  }

  lemma ReservationLeaves(g: Ingress, held: seq<Reservation>, k: nat)
    requires Budgeted(g, held) && k < |held|
    ensures var rest := Without(held, k);
            Release(g, held[k].bytes) == g.(reserved := |rest|, reservedBytes := ReservedBytes(rest))
    ensures held[k].class_.Fatal? ==> g.fatalState.FatalReserved?
  {
    hide Bytes, ReservedBytes;
    ReservedWithout(held, k);
  }

  /** The next accepted event is the next in sequence. */
  lemma NextInLine(w: World)
    requires Inv(w)
    ensures NextSequence(w.ingress) == |w.accepted| + 1
  {
    hide Bytes, Budgeted, Prompt, AccumulatorOk;
    var n := |w.ingress.outstanding|;
    if n > 0 { assert w.ingress.outstanding[n - 1] == w.accepted[|w.accepted| - 1]; }
  }

  /** The moves of a writer with free hands: it takes the next event of the history, pushes what it
      holds, and gives up what is pending when that is due or to be flushed. */
  lemma MovesAnswer(w: World, now: nat)
    requires Inv(w) && Working(w) && w.ending.None? && w.batch == []
    ensures w.held.None? ==>
              && Step(w, Dequeue) ==
                 (if w.ingress.taken == |w.ingress.outstanding| then w
                  else w.(held := Some(w.accepted[|w.store| + w.ingress.taken]), ingress := w.ingress.(taken := w.ingress.taken + 1)))
              && Step(w, FlushPending) ==
                 (if w.acc.pending == [] then w
                  else w.(batch := w.acc.pending, acc := w.acc.(pending := [], pendingBytes := 0, oldestAt := None)))
              && (if !Ahead(w.acc, now) then Step(w, PollPending(now)) == w.(fault := Some(BatchInvalid(ClockRegressed)))
                  else if WaitedLong(w.acc, now) then
                    Step(w, PollPending(now)) ==
                    w.(batch := w.acc.pending,
                       acc := w.acc.(pending := [], pendingBytes := 0, oldestAt := None, lastObservedAt := Some(now)))
                  else Step(w, PollPending(now)) == w.(acc := w.acc.(lastObservedAt := Some(now))))
    ensures w.held.Some? ==>
              var w', r := Step(w, PushHeld(now)), Push(w.acc, w.held.value, now);
              && w'.held.None? && w'.ingress == w.ingress && w'.store == w.store
              && w'.fault == (if Ahead(w.acc, now) then None else Some(BatchInvalid(ClockRegressed)))
              && (Ahead(w.acc, now) ==> w'.batch + w'.acc.pending == w.acc.pending + [w.held.value] && (w'.batch == [] <==> r.Kept?))
  {
    hide Bytes, Budgeted, Push;
    if w.held.Some? {
      var item, pending := w.held.value, w.acc.pending;
      assert Inside(w) == pending + [item];
      assert w.ingress.outstanding[|pending|] == Inside(w)[|pending|] == item;
      assert w.accepted[|w.store| + |pending|] == item;
      PendingFits(w);
      PushConserves(w.acc, item, now);
      hide Prompt;
    } else if w.ingress.taken < |w.ingress.outstanding| {
      assert w.accepted[|w.store| + w.ingress.taken] == w.ingress.outstanding[w.ingress.taken];
    }
  }

  /** What becomes of a batch: it is in the store, in order and at once, if the transaction succeeded,
      even if the measurement after it fails; otherwise nothing changes but the fault. */
  lemma CommitIff(w: World, result: CommitOutcome)
    requires Inv(w) && Working(w) && w.ending.None?
    ensures var w' := Step(w, CommitBatch(result));
            if w.batch == [] then w' == w
            else if result.PrecheckFailed? then w' == w.(fault := Some(QuotaFailed))
            else if result.TransactionFailed? then w' == w.(fault := Some(StoreFailed))
            else
              && w'.store == w.store + w.batch && w'.batch == [] && w'.accepted == w.accepted && w'.acc == w.acc
              && w'.ingress.outstanding == w.ingress.outstanding[|w.batch|..] && w'.reservations == w.reservations
              && w'.fault == if result.MeasurementFailed? then Some(QuotaFailed) else None
  {
    hide Bytes, Budgeted, Prompt;
    var n, g := |w.batch|, w.ingress;
    if n > 0 {
      assert Inside(w)[..n] == w.batch && n <= g.taken;
      assert g.outstanding[..n] == g.outstanding[..g.taken][..n] == w.batch;
      forall i | 0 <= i < n ensures g.outstanding[i].sequence == |w.store| + i + 1 {
        assert w.accepted[|w.store| + i] == g.outstanding[i];
      }
      assert w.batch[0] == g.outstanding[0] && w.batch[n - 1] == g.outstanding[n - 1];
    }
  }

  /** The other actions of a working writer: it stops for an exhausted or broken ingress before it
      stops for the quota; only a finalize command makes the drain end in a finalized store; and the
      drain ends exactly when the writer holds nothing and nothing is reserved or outstanding. */
  lemma ActionsAnswer(w: World, quota: bool, command: Command)
    requires Inv(w) && Working(w) && w.ending.None?
    ensures Step(w, CheckFailures(quota)) ==
            w.(fault := if w.ingress.budgetExhausted then Some(IngressFailed) else if quota then Some(QuotaFailed) else None)
    ensures Step(w, Receive(command)) ==
            if w.drain.Some? then w else w.(drain := Some(if command == FinalizeCommand then FinalizeIntent else AbortIntent))
    ensures Step(w, SampleStatus) ==
            if w.drain.Some? && w.reservations == [] && w.store == w.accepted
            then w.(drain := None, ending := Some(Sampled(w.drain.value))) else w
  {
    DrainedMeans(w);
    hide Bytes, Inv, Drained;
  }

  lemma DrainedMeans(w: World)
    requires Inv(w) && w.fault.None?
    ensures !w.ingress.accountingFailed
    ensures (w.held.None? && w.batch == [] && Drained(w)) <==> (w.reservations == [] && w.store == w.accepted)
  {
    hide Bytes, ReservedBytes, Prompt, Dense;
    if w.store == w.accepted {
      assert w.ingress.outstanding == [];
      assert w.ingress.outstanding[..w.ingress.taken] == [];
    }
    if w.ingress.outstanding == [] { assert w.store + [] == w.store; }
  }

  /** After the drain: an abort closes the writer, a finalize goes through the store, the measurement
      and the reply in this order, and fails where one of them fails. */
  lemma EndingAnswers(w: World, outcome: FinalizeOutcome, ok: bool)
    requires Inv(w) && Working(w) && w.ending.Some?
    ensures Step(w, FinalizeStore(outcome)) ==
            match w.ending.value
            case Sampled(AbortIntent) => w.(closed := true)
            case Sampled(FinalizeIntent) =>
              if outcome.Finalized? then w.(ending := Some(StoreFinalized(|w.store|)))
              else w.(fault := Some(if outcome.AbandonedBefore? then ShutdownAbandoned else StoreFailed))
            case _ => w
    ensures Step(w, Measure(ok)) ==
            if !w.ending.value.StoreFinalized? then w
            else if ok then w.(ending := Some(Measured(|w.store|))) else w.(fault := Some(QuotaFailed))
    ensures Step(w, SendReply) ==
            if w.ending.value.Measured? then w.(reply := Some(|w.store|), closed := true) else w
  {
    hide Bytes, Budgeted, Prompt, Dense;
  }

  /** Nothing can be accepted any more: the ingress is sealed, nothing is reserved, and the fatal
      reservation is spent, or neither authorized nor, if there are `failures` outside to come, ever
      to be. */
  predicate Exhausted(g: Ingress, failures: bool) {
    g.sealed && g.reserved == 0 && (g.fatalState.Available? ==> !g.fatalAuthorized && !failures)
  }

  /** Failures outside occur only if `failures` says so. */
  predicate Foreseen(ops: seq<Op>, failures: bool) {
    failures || forall op :: op in ops ==> !op.EnvCoreFailure?
  }

  /** The writer has seen the drained status, in this step. */
  predicate SampledNow(w: World, w': World) {
    Working(w) && w.ending.None? && w' == SampleStep(w) && w'.ending.Some?
  }

  /** Everything accepted up to the look at the status is in the store. */
  lemma SampleMeansCommitted(w: World)
    requires Inv(w) && SampledNow(w, SampleStep(w))
    ensures SampleStep(w).store == SampleStep(w).accepted && SampleStep(w).ingress.reserved == 0
  {
    hide Bytes, Budgeted, Prompt;
    assert w.store + w.ingress.outstanding == w.store;
  }

  /** A reply, if there is one, vouches for everything accepted. */
  predicate TrueReply(w: World) {
    w.reply.Some? ==> w.store == w.accepted && w.reply == Some(|w.accepted|)
  }

  /** From the look at the drained status on, every reply that can still follow tells the truth if
      and only if nothing could be accepted any more when the writer looked. */
  lemma ReplyTrueIff(w: World, failures: bool)
    requires Inv(w) && SampledNow(w, SampleStep(w)) && w.drain == Some(FinalizeIntent)
    ensures (forall ops :: Foreseen(ops, failures) ==> TrueReply(Run(SampleStep(w), ops))) <==> Exhausted(w.ingress, failures)
  {
    var w1 := SampleStep(w);
    if Exhausted(w.ingress, failures) {
      forall ops | Foreseen(ops, failures) ensures TrueReply(Run(w1, ops)) { ReplyMeansCommitted(w, ops, failures); }
    } else {
      SampleMeansCommitted(w);
      StepKept(w, SampleStatus);
      hide SampleStep, Bytes, Prompt, Run, Reserve;
      assert w1.ingress == w.ingress && w1.ending == Some(Sampled(FinalizeIntent)) && Working(w1) by { SampleIs(w); }
      assert Step(w, SampleStatus) == w1 by { SampleIs(w); }
      var ops := FalseReply(w1, failures);
      assert Foreseen(ops, failures) && !TrueReply(Run(w1, ops));
    }
  }

  lemma SampleIs(w: World)
    requires SampledNow(w, SampleStep(w)) && w.drain == Some(FinalizeIntent)
    ensures var w1 := SampleStep(w);
            && Step(w, SampleStatus) == w1 && w1.ingress == w.ingress && w1.ending == Some(Sampled(FinalizeIntent)) && Working(w1)
  {
    hide Bytes;
  }

  /** Otherwise something can be accepted, and the reply misses it. */
  lemma FalseReply(w: World, failures: bool) returns (ops: seq<Op>)
    requires Inv(w) && Working(w) && w.ending == Some(Sampled(FinalizeIntent)) && w.store == w.accepted
    requires w.ingress.reserved == 0 && !Exhausted(w.ingress, failures)
    ensures Foreseen(ops, failures) && !TrueReply(Run(w, ops))
  {
    LateForeseen(0);
    hide Inv, Run, Step, LateOps, Reserve;
    NothingHeld(w);
    NothingHeldGrants(w.ingress);
    if !w.ingress.sealed {
      ops := LateOps(0, Normal);
      LateMissed(w, 0, Normal);
    } else if w.ingress.fatalAuthorized {
      ops := LateOps(0, Fatal);
      LateMissed(w, 0, Fatal);
    } else {
      var w1 := w.(ingress := w.ingress.(sealed := true, fatalAuthorized := true));
      ops := [EnvCoreFailure] + LateOps(0, Fatal);
      NothingHeldGrants(w1.ingress);
      LateMissed(w1, 0, Fatal);
      RunFirst(w, EnvCoreFailure, LateOps(0, Fatal));
      EnvIsStep(w, EnvCoreFailure);
    }
  }

  lemma NothingHeld(w: World)
    requires Inv(w) && w.store == w.accepted && w.ingress.reserved == 0
    ensures w.ingress.outstanding == [] && w.reservations == [] && w.ingress.reservedBytes == 0
    ensures !w.ingress.fatalState.FatalReserved?
  {
    hide Bytes, Prompt, AccumulatorOk, Inside;
  }

  lemma NothingHeldGrants(g: Ingress)
    requires g.reserved == g.reservedBytes == 0 && g.outstanding == []
    ensures !g.sealed ==> Reserve(g, 0, Normal).1
    ensures g.fatalAuthorized && g.fatalState.Available? ==> Reserve(g, 0, Fatal).1
  {
  }

  lemma EnvIsStep(w: World, op: Op)
    requires op.EnvReserve? || op.EnvCommit? || op.EnvDrop? || op.EnvSeal? || op.EnvCoreFailure?
    ensures Step(w, op) == EnvStep(w, op)
  {
    hide EnvStep, WriterStep, EndingStep;
  }

  lemma RunFirst(w: World, op: Op, ops: seq<Op>)
    ensures Run(w, [op] + ops) == Run(Step(w, op), ops)
  {
    hide Step;
    assert ([op] + ops)[1..] == ops;
  }

  /** An event accepted after the look, and a reply after that. */
  function LateOps(bytes: nat, class_: Class): seq<Op> {
    [EnvReserve(bytes, class_), EnvCommit(0), FinalizeStore(Finalized), Measure(true), SendReply]
  }

  lemma LateForeseen(bytes: nat)
    ensures forall class_ :: Foreseen(LateOps(bytes, class_), false)
  {
  }

  lemma LateSteps(w: World, bytes: nat, class_: Class) returns (w1: World, w2: World)
    requires w.reservations == [] && Reserve(w.ingress, bytes, class_).1
    ensures Step(w, EnvReserve(bytes, class_)) == w1 && Step(w1, EnvCommit(0)) == w2
    ensures w2 == w.(ingress := w2.ingress, accepted := w.accepted + [Item(|w.accepted| + 1, bytes)])
  {
    hide Reserve, CommitReservation, Step;
    EnvIsStep(w, EnvReserve(bytes, class_));
    w1 := EnvStep(w, EnvReserve(bytes, class_));
    EnvIsStep(w1, EnvCommit(0));
    w2 := EnvStep(w1, EnvCommit(0));
    assert Without(w1.reservations, 0) == [];
  }

  lemma LateMissed(w: World, bytes: nat, class_: Class)
    requires Working(w) && w.ending == Some(Sampled(FinalizeIntent)) && w.reservations == []
    requires Reserve(w.ingress, bytes, class_).1
    ensures var w' := Run(w, LateOps(bytes, class_));
            && w'.reply == Some(|w.store|) && w'.store == w.store
            && w'.accepted == w.accepted + [Item(|w.accepted| + 1, bytes)]
  {
    hide Reserve, Run, Step;
    var ops := LateOps(bytes, class_);
    var w1, w2 := LateSteps(w, bytes, class_);
    LastWords(w2);
    assert ops[0..] == ops;
    Unfold(w, ops, 0);
    Unfold(w1, ops, 1);
    Unfold(w2, ops, 2);
    Unfold(Step(w2, ops[2]), ops, 3);
    Unfold(Step(Step(w2, ops[2]), ops[3]), ops, 4);
    RunEnds(Step(Step(Step(w2, ops[2]), ops[3]), ops[4]), ops);
  }

  lemma LastWords(w: World)
    requires Working(w) && w.ending == Some(Sampled(FinalizeIntent))
    ensures var w3 := Step(Step(Step(w, FinalizeStore(Finalized)), Measure(true)), SendReply);
            w3.reply == Some(|w.store|) && w3.store == w.store && w3.accepted == w.accepted
  {
    hide EnvStep, WriterStep;
  }

  lemma RunEnds(w: World, ops: seq<Op>)
    ensures Run(w, ops[|ops|..]) == w
  {
  }

  lemma AlwaysInv(w: World, ops: seq<Op>)
    requires Inv(w)
    ensures Inv(Run(w, ops))
  {
    WriterConserves(w, ops);
  }

  lemma {:induction false} EndingStays(w: World, ops: seq<Op>)
    requires w.ending.Some?
    ensures var w' := Run(w, ops); w'.store == w.store && w.accepted <= w'.accepted && w'.ending.Some?
    decreases |ops|
  {
    if ops != [] {
      assert var w1 := Step(w, ops[0]); w1.store == w.store && w.accepted <= w1.accepted && w1.ending.Some? by {
        hide Bytes, Reserve, CommitReservation, DropReservation;
      }
      hide Step;
      EndingStays(Step(w, ops[0]), ops[1..]);
    }
  }

  /** A successful finalize reply means that everything accepted is committed, if nothing could be
      accepted any more when the status was seen, whatever producers do before the reply. */
  lemma ReplyMeansCommitted(w: World, ops: seq<Op>, failures: bool)
    requires Inv(w) && SampledNow(w, SampleStep(w)) && Exhausted(w.ingress, failures) && Foreseen(ops, failures)
    ensures TrueReply(Run(SampleStep(w), ops))
  {
    SampleMeansCommitted(w);
    var w1 := SampleStep(w);
    StepKept(w, SampleStatus);
    assert Step(w, SampleStatus) == w1;
    hide Step, Bytes, Budgeted, Prompt, SampleStep, Run;
    NothingHeld(w1);
    NothingAccepted(w1, ops, failures);
    EndingStays(w1, ops);
    AlwaysInv(w1, ops);
  }

  /** An exhausted ingress stays so, and a writer past its drain leaves the store alone. */
  lemma ExhaustedStays(w: World, op: Op, failures: bool)
    requires Exhausted(w.ingress, failures) && w.reservations == [] && (w.ending.Some? || w.closed)
    requires op.EnvCoreFailure? ==> failures
    ensures var w1 := Step(w, op);
            && Exhausted(w1.ingress, failures) && w1.reservations == [] && (w1.ending.Some? || w1.closed)
            && w1.accepted == w.accepted && w1.store == w.store && (w.closed ==> w1.closed && w1.reply == w.reply)
  {
    hide WriterStep, Bytes;
  }

  lemma {:induction false} NothingAccepted(w: World, ops: seq<Op>, failures: bool)
    requires Exhausted(w.ingress, failures) && w.reservations == [] && (w.ending.Some? || w.closed)
    requires Foreseen(ops, failures)
    ensures var w' := Run(w, ops);
            w'.accepted == w.accepted && w'.store == w.store && (w.closed ==> w'.reply == w.reply)
    decreases |ops|
  {
    hide Step, Exhausted;
    if ops != [] {
      ExhaustedStays(w, ops[0], failures);
      NothingAccepted(Step(w, ops[0]), ops[1..], failures);
    }
  }

  lemma FirstGrants(g: Ingress)
    requires g == NEW_INGRESS || g == NEW_INGRESS.(sealed := true, fatalAuthorized := true)
    ensures Reserve(g, 1, if g.sealed then Fatal else Normal).1
  {
  }

  /** Without the seal the reply can be wrong: an event accepted between the look at the status and
      the reply is not in the store that the reply vouches for. */
  lemma UnsealedReplyMisses()
    ensures var w := Run(NEW_WORLD, [Receive(FinalizeCommand), SampleStatus] + LateOps(1, Normal));
            w.reply == Some(0) && w.store == [] && w.accepted == [Item(1, 1)]
  {
    var ops := [Receive(FinalizeCommand), SampleStatus] + LateOps(1, Normal);
    var w1 := NEW_WORLD.(drain := Some(FinalizeIntent));
    var w2 := w1.(drain := None, ending := Some(Sampled(FinalizeIntent)));
    hide Step, Reserve, Run, LateOps;
    FirstLook(NEW_WORLD);
    assert Reserve(w2.ingress, 1, Normal).1 by { FirstGrants(w2.ingress); }
    LateMissed(w2, 1, Normal);
    hide NEW_WORLD, NEW_INGRESS;
    assert ops[0..] == ops && ops[2..] == LateOps(1, Normal);
    Unfold(NEW_WORLD, ops, 0);
    Unfold(w1, ops, 1);
  }

  /** Nor does the seal suffice: a failure outside, after the look, authorizes the fatal event, and
      the reply misses that. */
  lemma FailureReplyMisses()
    ensures var w := Run(NEW_WORLD, [EnvSeal, Receive(FinalizeCommand), SampleStatus, EnvCoreFailure] + LateOps(1, Fatal));
            w.reply == Some(0) && w.store == [] && w.accepted == [Item(1, 1)]
  {
    hide Step, Run, LateOps, NEW_WORLD, NEW_INGRESS;
    var w0, w1, w2, w3 := FailureSteps();
    var ops := [EnvSeal, Receive(FinalizeCommand), SampleStatus, EnvCoreFailure] + LateOps(1, Fatal);
    assert ops[0..] == ops && ops[4..] == LateOps(1, Fatal);
    Unfold(NEW_WORLD, ops, 0);
    Unfold(w0, ops, 1);
    Unfold(w1, ops, 2);
    Unfold(w2, ops, 3);
  }

  lemma FailureSteps() returns (w0: World, w1: World, w2: World, w3: World)
    ensures Step(NEW_WORLD, EnvSeal) == w0 && Step(w0, Receive(FinalizeCommand)) == w1
    ensures Step(w1, SampleStatus) == w2 && Step(w2, EnvCoreFailure) == w3
    ensures var w := Run(w3, LateOps(1, Fatal)); w.reply == Some(0) && w.store == [] && w.accepted == [Item(1, 1)]
  {
    hide Step, Reserve, Run, LateOps;
    w0 := NEW_WORLD.(ingress := NEW_INGRESS.(sealed := true));
    w1 := w0.(drain := Some(FinalizeIntent));
    w2 := w1.(drain := None, ending := Some(Sampled(FinalizeIntent)));
    w3 := w2.(ingress := NEW_INGRESS.(sealed := true, fatalAuthorized := true));
    EnvIsStep(NEW_WORLD, EnvSeal);
    FirstLook(w0);
    EnvIsStep(w2, EnvCoreFailure);
    FirstGrants(w3.ingress);
    LateMissed(w3, 1, Fatal);
  }

  lemma FirstLook(w: World)
    requires w == NEW_WORLD.(ingress := NEW_INGRESS.(sealed := w.ingress.sealed))
    ensures var w1 := w.(drain := Some(FinalizeIntent));
            && Step(w, Receive(FinalizeCommand)) == w1
            && Step(w1, SampleStatus) == w1.(drain := None, ending := Some(Sampled(FinalizeIntent)))
  {
    hide Bytes, EnvStep, Push, Poll, Flush, CommitStep;
  }

  lemma Unfold(w: World, ops: seq<Op>, n: nat)
    requires n < |ops|
    ensures Run(w, ops[n..]) == Run(Step(w, ops[n]), ops[n + 1..])
  {
    hide Step;
    assert ops[n..][1..] == ops[n + 1..] && ops[n..][0] == ops[n];
  }

  /** Once nothing can be accepted any more, a reply that was true stays true. */
  lemma ReplyStaysTrue(w: World, ops: seq<Op>, failures: bool)
    requires Inv(w) && w.closed && w.store == w.accepted && Exhausted(w.ingress, failures) && Foreseen(ops, failures)
    ensures var w' := Run(w, ops); w'.store == w'.accepted == w.accepted && w'.reply == w.reply
  {
    NothingHeld(w);
    hide Run, Inv;
    NothingAccepted(w, ops, failures);
  }

  // ----- One pass of the loop -----

  /** The part of the loop between two looks at the ingress: nothing in the writer's hands. */
  predicate AtLoopHead(w: World) {
    Working(w) && w.ending.None? && w.held.None? && w.batch == []
  }

  /** One event through the accumulator, and its batch, if it completes one, into the store. */
  method TakeOne(w: World, now: nat, result: CommitOutcome) returns (r: World)
    requires Inv(w) && AtLoopHead(w) && w.ingress.taken < |w.ingress.outstanding|
    ensures Inv(r) && r.accepted == w.accepted && r.drain == w.drain && r.closed == w.closed
    ensures r.ingress.reserved == w.ingress.reserved && r.reservations == w.reservations
    ensures r.ingress.sealed == w.ingress.sealed && r.ingress.fatalAuthorized == w.ingress.fatalAuthorized
    ensures r.fault.None? ==> AtLoopHead(r) && |r.ingress.outstanding| - r.ingress.taken == |w.ingress.outstanding| - w.ingress.taken - 1
    ensures Ahead(w.acc, now) && result.Committed? ==> r.fault.None? && r.acc.lastObservedAt == Some(now)
  {
    DequeueKept(w);
    r := WriterStep(w, Dequeue);
    PushKept(r, now);
    PushSettles(r, now);
    hide Bytes, Push, Inv;
    r := WriterStep(r, PushHeld(now));
    if r.fault.None? && r.batch != [] {
      CommitKept(r, result);
      CommitSettles(r, result);
      r := CommitStep(r, result);
    }
  }

  lemma PushSettles(w: World, now: nat)
    requires Inv(w) && Working(w) && w.ending.None? && w.held.Some? && w.batch == []
    ensures var r := WriterStep(w, PushHeld(now));
            && r.ingress == w.ingress && r.accepted == w.accepted && r.drain == w.drain && r.closed == w.closed && r.held.None?
            && r.reservations == w.reservations && r.ending == w.ending
            && (Ahead(w.acc, now) ==> r.fault.None? && r.acc.lastObservedAt == Some(now))
  {
    hide Push, Bytes, Budgeted, Prompt;
    var item, pending := w.held.value, w.acc.pending;
    assert Inside(w)[|pending|] == w.ingress.outstanding[|pending|] == w.accepted[|w.store| + |pending|] == item;
    PendingFits(w);
    PushConserves(w.acc, item, now);
  }

  lemma CommitSettles(w: World, result: CommitOutcome)
    requires Inv(w) && Working(w) && w.ending.None? && w.batch != []
    ensures var r := CommitStep(w, result);
            && r.accepted == w.accepted && r.drain == w.drain && r.closed == w.closed && r.held == w.held
            && r.ingress.reserved == w.ingress.reserved && r.reservations == w.reservations && r.ending == w.ending
            && r.ingress.sealed == w.ingress.sealed && r.ingress.fatalAuthorized == w.ingress.fatalAuthorized
            && |r.ingress.outstanding| - r.ingress.taken == |w.ingress.outstanding| - w.ingress.taken
            && (r.fault.None? ==> r.batch == [])
            && (result.Committed? ==> r.fault.None?) && r.acc == w.acc
  {
    hide Bytes;
    CommitKept(w, result);
  }

  /** A clock that never goes back. */
  ghost predicate Steady(acc: Accumulator, now: nat -> nat) {
    Ahead(acc, now(0)) && forall i: nat, j: nat :: i <= j ==> now(i) <= now(j)
  }

  /** Producers at a sealed ingress: they may still commit or drop what they reserved before. */
  predicate Producing(ops: seq<Op>) {
    forall op :: op in ops ==> op.EnvReserve? || op.EnvCommit? || op.EnvDrop? || op.EnvSeal?
  }

  predicate Shut(g: Ingress) {
    g.sealed && !g.fatalAuthorized
  }

  /** What producers do to a sealed ingress: the queue grows by no more than the reservations
      shrink, and the writer's part is left alone. */
  predicate Trickles(w: World, w': World) {
    && w' == w.(ingress := w'.ingress, reservations := w'.reservations, accepted := w'.accepted)
    && Shut(w'.ingress) && w'.ingress.taken == w.ingress.taken && w.ingress.outstanding <= w'.ingress.outstanding
    && |w'.reservations| + |w'.ingress.outstanding| <= |w.reservations| + |w.ingress.outstanding|
    && w.accepted <= w'.accepted && |w'.accepted| - |w.accepted| == |w'.ingress.outstanding| - |w.ingress.outstanding|
  }

  lemma StepTrickles(w: World, op: Op)
    requires Shut(w.ingress) && Producing([op]) && !EnvStep(w, op).ingress.accountingFailed
    ensures Trickles(w, EnvStep(w, op))
  {
    hide Bytes;
    assert op in [op];
    if (op.EnvCommit? || op.EnvDrop?) && op.k < |w.reservations| {
      assert |Without(w.reservations, op.k)| == |w.reservations| - 1;
    }
  }

  lemma {:induction false} ProducersTrickle(w: World, ops: seq<Op>)
    requires Inv(w) && Shut(w.ingress) && Producing(ops)
    ensures Inv(Run(w, ops)) && Trickles(w, Run(w, ops))
    decreases |ops|
  {
    if ops != [] {
      StepKept(w, ops[0]);
      var w1 := Step(w, ops[0]);
      assert !w1.ingress.accountingFailed && w1 == EnvStep(w, ops[0]) by { hide Bytes, Budgeted, EnvStep; }
      hide Step, Inv, EnvStep;
      StepTrickles(w, ops[0]);
      ProducersTrickle(w1, ops[1..]);
    }
  }

  /** A pass of a draining writer over a sealed ingress, with producers acting before every look at
      the queue: dequeue until the queue is empty, then flush what is pending. Unless a commit fails
      or the clock goes back, everything accepted before the pass is in the store afterwards; with
      no reservation left that is everything, and the drain is over. */
  method DrainPass(w: World, env: nat -> seq<Op>, now: nat -> nat, result: nat -> CommitOutcome) returns (r: World)
    requires Inv(w) && AtLoopHead(w) && w.drain.Some? && Shut(w.ingress) && forall n :: Producing(env(n))
    ensures Inv(r) && w.accepted <= r.accepted && |r.accepted| - |w.accepted| <= |w.reservations|
    ensures r.fault.None? ==> AtLoopHead(r) && r.acc.pending == [] && w.accepted <= r.store
    ensures r.fault.None? && w.reservations == [] ==> Drained(r) && r.store == r.accepted == w.accepted
    ensures Steady(w.acc, now) && (forall n :: result(n).Committed?) ==> r.fault.None?
  {
    hide Bytes, Push, Budgeted, Prompt, Step, Flush;
    ProducersTrickle(w, env(0));
    r := Run(w, env(0));
    var n := 0;
    while r.fault.None? && r.ingress.taken < |r.ingress.outstanding|
      invariant Inv(r) && w.accepted <= r.accepted && r.drain == w.drain && r.closed == w.closed && Shut(r.ingress)
      invariant r.fault.None? ==> AtLoopHead(r)
      invariant |r.accepted| + |r.reservations| <= |w.accepted| + |w.reservations|
      invariant Steady(w.acc, now) && (forall i :: result(i).Committed?) ==> r.fault.None? && Ahead(r.acc, now(n))
      decreases r.fault.None?, |r.reservations| + |r.ingress.outstanding| - r.ingress.taken
    {
      r := TakeOne(r, now(n), result(n));
      n := n + 1;
      if r.fault.None? {
        ProducersTrickle(r, env(n));
        r := Run(r, env(n));
      }
    }
    if r.fault.Some? {
      return;
    }
    ReservedCount(r);
    r := FlushAll(r, result(n));
  }

  lemma ReservedCount(w: World)
    requires Inv(w)
    ensures w.ingress.reserved == |w.reservations|
  {
    hide Bytes, ReservedBytes;
  }

  /** Flushes the accumulator into the store once the queue is empty. */
  method FlushAll(w: World, result: CommitOutcome) returns (r: World)
    requires Inv(w) && AtLoopHead(w) && w.ingress.taken == |w.ingress.outstanding|
    ensures Inv(r) && r.accepted == w.accepted
    ensures r.fault.None? ==> AtLoopHead(r) && r.acc.pending == [] && r.ingress.outstanding == [] && r.store == w.accepted
    ensures r.fault.None? ==> r.ingress.reserved == w.ingress.reserved
    ensures result.Committed? ==> r.fault.None?
  {
    hide Bytes, Push, Budgeted, Prompt;
    PendingKept(w, FlushPending);
    r := WriterStep(w, FlushPending);
    if r.batch != [] {
      CommitKept(r, result);
      CommitSettles(r, result);
      r := CommitStep(r, result);
    }
    if r.fault.None? {
      assert r.ingress.outstanding[..r.ingress.taken] == r.ingress.outstanding;
      assert r.store + [] == r.store;
    }
  }
}
