/** Custom span stacks: a map keyed by task address, each entry carrying a weak reference to the
    task it was made for. Addresses are reused when tasks die; the stacks must not be. */
module SpanStacks {
  import opened Events

  datatype Stack = Stack(identity: nat, spans: seq<nat>)

  /** `live` gives the address of every task alive; `used` are all task identities so far. */
  datatype Tasks = Tasks(live: map<nat, nat>, used: set<nat>)

  ghost predicate TasksOk(tasks: Tasks) {
    && tasks.live.Keys <= tasks.used
    && forall t, u :: t in tasks.live && u in tasks.live && tasks.live[t] == tasks.live[u] ==> t == u
  }

  /** The weak reference still leads to this very task. */
  predicate Matches(stack: Stack, tasks: Tasks, task: nat) {
    stack.identity in tasks.live && stack.identity == task
  }

  function Innermost(spans: seq<nat>, containing: nat): nat {
    if spans == [] then containing else spans[|spans| - 1]
  }

  /** The stack a live task finds behind its own address. */
  function StackOf(stacks: map<nat, Stack>, tasks: Tasks, task: nat): seq<nat>
    requires task in tasks.live
  {
    var key := tasks.live[task];
    if key in stacks && Matches(stacks[key], tasks, task) then stacks[key].spans else []
  }

  /** An entry was made for some task, and one made for a live task sits at that task's address. */
  ghost predicate StacksOk(stacks: map<nat, Stack>, tasks: Tasks) {
    forall key :: key in stacks ==>
      && stacks[key].identity in tasks.used
      && (stacks[key].identity in tasks.live ==> tasks.live[stacks[key].identity] == key)
  }

  /** No live task but `task` sees a difference. */
  ghost predicate OthersSame(before: map<nat, Stack>, after: map<nat, Stack>, tasks: Tasks, task: nat) {
    forall t :: t in tasks.live && t != task ==> StackOf(after, tasks, t) == StackOf(before, tasks, t)
  }

  /** No entry changed but the one at this address. */
  ghost predicate OnlyAt(before: map<nat, Stack>, after: map<nat, Stack>, address: nat) {
    forall k :: k != address ==> (k in after <==> k in before) && (k in after ==> after[k] == before[k])
  }

  class CustomRunBinding {
    var taskSpans: map<nat, Stack>

    constructor ()
      ensures taskSpans == map[]
    {
      taskSpans := map[];
    }

    /** The innermost open span of the task itself, or the containing span; an entry left behind
        by a dead task at the same address is dropped. */
    method CurrentParent(tasks: Tasks, task: nat, containing: nat) returns (parent: nat)
      requires TasksOk(tasks) && StacksOk(taskSpans, tasks) && task in tasks.live
      modifies this
      ensures parent == Innermost(StackOf(old(taskSpans), tasks, task), containing)
      ensures StacksOk(taskSpans, tasks) && OthersSame(old(taskSpans), taskSpans, tasks, task)
      ensures OnlyAt(old(taskSpans), taskSpans, tasks.live[task])
      ensures StackOf(taskSpans, tasks, task) == StackOf(old(taskSpans), tasks, task)
    {
      var key := tasks.live[task];
      var exact := key in taskSpans && Matches(taskSpans[key], tasks, task);
      if !exact {
        taskSpans := taskSpans - {key};
        return containing;
      }
      var spans := taskSpans[key].spans;
      parent := if spans == [] then containing else spans[|spans| - 1];
    }

    /** As CurrentParent, and makes sure the task has a stack of its own to push to. */
    method PrepareSpanTask(tasks: Tasks, task: nat, containing: nat) returns (parent: nat)
      requires TasksOk(tasks) && StacksOk(taskSpans, tasks) && task in tasks.live
      modifies this
      ensures parent == Innermost(StackOf(old(taskSpans), tasks, task), containing)
      ensures StacksOk(taskSpans, tasks) && OthersSame(old(taskSpans), taskSpans, tasks, task)
      ensures OnlyAt(old(taskSpans), taskSpans, tasks.live[task])
      ensures StackOf(taskSpans, tasks, task) == StackOf(old(taskSpans), tasks, task)
      ensures tasks.live[task] in taskSpans && Matches(taskSpans[tasks.live[task]], tasks, task)
    {
      var key := tasks.live[task];
      var exact := key in taskSpans && Matches(taskSpans[key], tasks, task);
      if !exact {
        taskSpans := taskSpans[key := Stack(task, [])];
      }
      var spans := taskSpans[key].spans;
      parent := if spans == [] then containing else spans[|spans| - 1];
    }

    method PushSpan(tasks: Tasks, task: nat, span: nat) returns (pushed: bool)
      requires TasksOk(tasks) && StacksOk(taskSpans, tasks) && task in tasks.live
      modifies this
      ensures pushed <==> tasks.live[task] in old(taskSpans) && Matches(old(taskSpans)[tasks.live[task]], tasks, task)
      ensures StacksOk(taskSpans, tasks) && OthersSame(old(taskSpans), taskSpans, tasks, task)
      ensures OnlyAt(old(taskSpans), taskSpans, tasks.live[task])
      ensures StackOf(taskSpans, tasks, task) ==
              StackOf(old(taskSpans), tasks, task) + if pushed then [span] else []
    {
      var key := tasks.live[task];
      if key !in taskSpans || !Matches(taskSpans[key], tasks, task) {
        return false;
      }
      taskSpans := taskSpans[key := taskSpans[key].(spans := taskSpans[key].spans + [span])];
      pushed := true;
    }

    /** Closes the task's innermost span, and forgets the entry once it is empty. */
    method PopSpan(tasks: Tasks, task: nat) returns (span: Option<nat>)
      requires TasksOk(tasks) && StacksOk(taskSpans, tasks) && task in tasks.live
      modifies this
      ensures var stack := StackOf(old(taskSpans), tasks, task);
              if stack == [] then span == None && StackOf(taskSpans, tasks, task) == []
              else span == Some(stack[|stack| - 1]) && StackOf(taskSpans, tasks, task) == stack[..|stack| - 1]
      ensures StacksOk(taskSpans, tasks) && OthersSame(old(taskSpans), taskSpans, tasks, task)
      ensures OnlyAt(old(taskSpans), taskSpans, tasks.live[task])
    {
      var key := tasks.live[task];
      var exact := key in taskSpans && Matches(taskSpans[key], tasks, task);
      if !exact {
        taskSpans := taskSpans - {key};
        return None;
      }
      var spans := taskSpans[key].spans;
      if spans != [] {
        span := Some(spans[|spans| - 1]);
        spans := spans[..|spans| - 1];
        taskSpans := taskSpans[key := Stack(task, spans)];
      } else {
        span := None;
      }
      if spans == [] {
        taskSpans := taskSpans - {key};
      }
    }
  }

  // ----- Runs: tasks come and go, and publish custom events -----

  /** What is published, by task identity; `domain` is the span the task's domain offers. */
  datatype Published =
    | SpanOpened(task: nat, span: nat, parent: nat, domain: nat)
    | SpanClosed(task: nat, span: nat)
    | InstantPlaced(task: nat, parent: nat, domain: nat)

  /** The identity-keyed stacks, read off the publications alone. */
  function OpenSpans(trace: seq<Published>, task: nat): seq<nat> {
    if trace == [] then []
    else
      var before, p := OpenSpans(trace[..|trace| - 1], task), trace[|trace| - 1];
      if p.task != task then before
      else
        match p
        case SpanOpened(_, span, _, _) => before + [span]
        case SpanClosed(_, _) => if before == [] then [] else before[..|before| - 1]
        case InstantPlaced(_, _, _) => before
  }

  /** Each publication refers to the innermost open span of its own task. */
  ghost predicate PlacedRight(before: seq<Published>, p: Published) {
    match p
    case SpanOpened(task, _, parent, domain) => parent == Innermost(OpenSpans(before, task), domain)
    case InstantPlaced(task, parent, domain) => parent == Innermost(OpenSpans(before, task), domain)
    case SpanClosed(task, span) => var open := OpenSpans(before, task); open != [] && span == open[|open| - 1]
  }

  ghost predicate WellPlaced(trace: seq<Published>) {
    forall i :: 0 <= i < |trace| ==> PlacedRight(trace[..i], trace[i])
  }

  lemma PlacedSnoc(trace: seq<Published>, p: Published)
    requires WellPlaced(trace) && PlacedRight(trace, p)
    ensures WellPlaced(trace + [p])
  {
    forall i | 0 <= i < |trace| + 1 ensures PlacedRight((trace + [p])[..i], (trace + [p])[i]) {
      assert (trace + [p])[..i] == trace[..i];
    }
  }

  lemma OpenSnoc(trace: seq<Published>, p: Published, task: nat)
    ensures var before := OpenSpans(trace, task);
            OpenSpans(trace + [p], task) ==
            if p.task != task || p.InstantPlaced? then before
            else if p.SpanOpened? then before + [p.span]
            else if before == [] then [] else before[..|before| - 1]
  {
    assert (trace + [p])[..|trace|] == trace;
  }

  /** Tasks are born at free addresses and die; live tasks publish. An admission may fail. */
  datatype Op =
    | Spawn(task: nat, address: nat)
    | Die(task: nat)
    | PlaceInstant(task: nat, domain: nat, admitted: bool)
    | OpenSpan(task: nat, domain: nat, sequence: Option<nat>)
    | CloseSpan(task: nat, admitted: bool)

  /** Every live task finds behind its address exactly its own open spans; an identity never used
      has none. */
  ghost predicate Tracked(tasks: Tasks, stacks: map<nat, Stack>, trace: seq<Published>) {
    && TasksOk(tasks) && StacksOk(stacks, tasks)
    && (forall i :: 0 <= i < |trace| ==> trace[i].task in tasks.used)
    && (forall t :: t in tasks.live ==> StackOf(stacks, tasks, t) == OpenSpans(trace, t))
  }

  lemma {:induction false} UnusedIsEmpty(trace: seq<Published>, task: nat)
    requires forall i :: 0 <= i < |trace| ==> trace[i].task != task
    ensures OpenSpans(trace, task) == []
  {
    if trace != [] {
      UnusedIsEmpty(trace[..|trace| - 1], task);
    }
  }

  lemma SpawnTracked(tasks: Tasks, stacks: map<nat, Stack>, trace: seq<Published>, task: nat, address: nat)
    requires Tracked(tasks, stacks, trace) && task !in tasks.used && address !in tasks.live.Values
    ensures Tracked(Tasks(tasks.live[task := address], tasks.used + {task}), stacks, trace)
  {
    UnusedIsEmpty(trace, task);
    var tasks' := Tasks(tasks.live[task := address], tasks.used + {task});
    forall t | t in tasks'.live ensures StackOf(stacks, tasks', t) == OpenSpans(trace, t) {
      if t != task { assert StackOf(stacks, tasks, t) == OpenSpans(trace, t); }
    }
  }

  lemma DieTracked(tasks: Tasks, stacks: map<nat, Stack>, trace: seq<Published>, task: nat)
    requires Tracked(tasks, stacks, trace)
    ensures Tracked(tasks.(live := tasks.live - {task}), stacks, trace)
  {
    var tasks' := tasks.(live := tasks.live - {task});
    forall t | t in tasks'.live ensures StackOf(stacks, tasks', t) == OpenSpans(trace, t) {
      assert StackOf(stacks, tasks, t) == OpenSpans(trace, t);
    }
  }

  /** A publication by one task, after which that task's stack is as the publication says and
      nobody else sees a difference. */
  lemma PublishTracked(tasks: Tasks, before: map<nat, Stack>, after: map<nat, Stack>, trace: seq<Published>, p: Published)
    requires Tracked(tasks, before, trace) && p.task in tasks.live && OthersSame(before, after, tasks, p.task)
    requires StacksOk(after, tasks)
    requires StackOf(after, tasks, p.task) == OpenSpans(trace + [p], p.task)
    ensures Tracked(tasks, after, trace + [p])
  {
    forall t | t in tasks.live ensures StackOf(after, tasks, t) == OpenSpans(trace + [p], t) {
      OpenSnoc(trace, p, t);
      if t != p.task { assert StackOf(before, tasks, t) == OpenSpans(trace, t); }
    }
  }

  // ----- The reference: stacks keyed by task identity -----

  datatype Reference = Reference(tasks: Tasks, trace: seq<Published>, failed: bool)

  /** Publications stop at the first failure; a finish without an open span is a usage error. */
  function ReferenceStep(r: Reference, op: Op): Reference {
    if r.failed then r
    else
      match op
      case Spawn(task, address) =>
        if task in r.tasks.used || address in r.tasks.live.Values then r
        else r.(tasks := Tasks(r.tasks.live[task := address], r.tasks.used + {task}))
      case Die(task) => r.(tasks := r.tasks.(live := r.tasks.live - {task}))
      case PlaceInstant(task, domain, admitted) =>
        if task !in r.tasks.live then r
        else Publish(r, InstantPlaced(task, Innermost(OpenSpans(r.trace, task), domain), domain), admitted)
      case OpenSpan(task, domain, sequence) =>
        if task !in r.tasks.live then r
        else if sequence.None? then r.(failed := true)
        else Publish(r, SpanOpened(task, sequence.value, Innermost(OpenSpans(r.trace, task), domain), domain), true)
      case CloseSpan(task, admitted) =>
        var open := OpenSpans(r.trace, task);
        if task !in r.tasks.live || open == [] then r
        else Publish(r, SpanClosed(task, open[|open| - 1]), admitted)
  }

  function Publish(r: Reference, p: Published, admitted: bool): Reference {
    if admitted then r.(trace := r.trace + [p]) else r.(failed := true)
  }

  function ReferenceRun(ops: seq<Op>): Reference {
    if ops == [] then Reference(Tasks(map[], {}), [], false)
    else ReferenceStep(ReferenceRun(ops[..|ops| - 1]), ops[|ops| - 1])
  }

  function ReferenceFrom(r: Reference, ops: seq<Op>): Reference {
    if ops == [] then r else ReferenceStep(ReferenceFrom(r, ops[..|ops| - 1]), ops[|ops| - 1])
  }

  /** What other tasks do is no matter to the open spans of a task. */
  lemma OtherSteps(r: Reference, op: Op, task: nat)
    requires op.task != task
    ensures OpenSpans(ReferenceStep(r, op).trace, task) == OpenSpans(r.trace, task)
  {
    var r' := ReferenceStep(r, op);
    if r'.trace != r.trace { OpenSnoc(r.trace, r'.trace[|r.trace|], task); }
  }

  lemma PreparedTracked(tasks: Tasks, before: map<nat, Stack>, after: map<nat, Stack>, trace: seq<Published>, task: nat)
    requires Tracked(tasks, before, trace) && task in tasks.live && StacksOk(after, tasks)
    requires OthersSame(before, after, tasks, task) && StackOf(after, tasks, task) == StackOf(before, tasks, task)
    ensures Tracked(tasks, after, trace)
  {
    forall t | t in tasks.live ensures StackOf(after, tasks, t) == OpenSpans(trace, t) {
      assert StackOf(before, tasks, t) == OpenSpans(trace, t);
    }
  }

  /** In the reference every publication refers to its own task's innermost open span. */
  lemma {:induction false} ReferenceWellPlaced(ops: seq<Op>)
    ensures WellPlaced(ReferenceRun(ops).trace)
  {
    if ops != [] {
      var r := ReferenceRun(ops[..|ops| - 1]);
      ReferenceWellPlaced(ops[..|ops| - 1]);
      var r' := ReferenceStep(r, ops[|ops| - 1]);
      if r'.trace != r.trace {
        PlacedSnoc(r.trace, r'.trace[|r.trace|]);
      }
    }
  }

  // ----- The address-keyed implementation -----

  class CustomPublisher {
    const binding: CustomRunBinding
    var tasks: Tasks
    var trace: seq<Published>
    var failed: bool

    /** As long as nothing has failed, stacks and publications agree. */
    ghost predicate Valid()
      reads this, binding
    {
      !failed ==> Tracked(tasks, binding.taskSpans, trace)
    }

    ghost function State(): Reference
      reads this
    {
      Reference(tasks, trace, failed)
    }

    constructor ()
      ensures Valid() && fresh(binding) && State() == ReferenceRun([])
    {
      binding := new CustomRunBinding();
      tasks, trace, failed := Tasks(map[], {}), [], false;
    }

    /** The entry behind the address of every live task but one is left alone. */
    twostate predicate Spares(task: nat)
      reads this, binding
    {
      forall t :: t in old(tasks.live) && t != task ==>
        && t in tasks.live && tasks.live[t] == old(tasks.live)[t]
        && var key := tasks.live[t];
           && (key in binding.taskSpans <==> key in old(binding.taskSpans))
           && (key in binding.taskSpans ==> binding.taskSpans[key] == old(binding.taskSpans)[key])
    }

    method EmitInstant(task: nat, domain: nat, admitted: bool)
      requires Valid() && !failed && task in tasks.live
      modifies this, binding
      ensures Spares(task)
      ensures Valid() && State() == ReferenceStep(old(State()), PlaceInstant(task, domain, admitted))
    {
      ghost var before := binding.taskSpans;
      var parent := binding.CurrentParent(tasks, task, domain);
      var p := InstantPlaced(task, parent, domain);
      if !admitted {
        failed := true;
        return;
      }
      OpenSnoc(trace, p, task);
      PublishTracked(tasks, before, binding.taskSpans, trace, p);
      trace := trace + [p];
    }

    /** Fixes the parent and prepares the stack; then other tasks come, go and publish. */
    method PrepareSpan(task: nat, domain: nat, others: seq<Op>) returns (parent: nat)
      requires Valid() && !failed && task in tasks.live && forall op :: op in others ==> op.task != task
      modifies this, binding
      ensures Valid() && State() == ReferenceFrom(old(State()), others) && (others == [] ==> Spares(task))
      ensures task in tasks.live && OpenSpans(trace, task) == OpenSpans(old(trace), task)
      ensures parent == Innermost(OpenSpans(old(trace), task), domain)
      ensures tasks.live[task] in binding.taskSpans && binding.taskSpans[tasks.live[task]].identity == task
      decreases |others|, 0
    {
      parent := binding.PrepareSpanTask(tasks, task, domain);
      PreparedTracked(tasks, old(binding.taskSpans), binding.taskSpans, trace, task);
      ghost var key := tasks.live[task];
      assert StackOf(old(binding.taskSpans), tasks, task) == OpenSpans(trace, task);
      for i := 0 to |others|
        invariant Valid() && State() == ReferenceFrom(old(State()), others[..i])
        invariant task in tasks.live && tasks.live[task] == key && OpenSpans(trace, task) == OpenSpans(old(trace), task)
        invariant key in binding.taskSpans && binding.taskSpans[key].identity == task
        invariant i == 0 ==> Spares(task)
      {
        OtherSteps(State(), others[i], task);
        Perform(others[i]);
        assert others[..i + 1][..i] == others[..i];
      }
      assert others[..|others|] == others;
    }

    /** The parent is fixed before the admission and the push follows it, whatever other tasks do in
        between. The push always finds the stack that was prepared, and the span is placed as if the
        others had gone first. */
    method StartSpan(task: nat, domain: nat, sequence: Option<nat>, others: seq<Op>) returns (unregistered: bool)
      requires Valid() && !failed && task in tasks.live && forall op :: op in others ==> op.task != task
      modifies this, binding
      ensures Valid() && State() == ReferenceStep(ReferenceFrom(old(State()), others), OpenSpan(task, domain, sequence))
      ensures !unregistered && (others == [] ==> Spares(task))
      decreases |others|, 1
    {
      var parent := PrepareSpan(task, domain, others);
      if failed {
        return false;
      }
      if sequence.None? {
        failed := true;
        return false;
      }
      ghost var before := binding.taskSpans;
      var p := SpanOpened(task, sequence.value, parent, domain);
      var pushed := binding.PushSpan(tasks, task, sequence.value);
      unregistered := !pushed;
      failed := unregistered;
      OpenSnoc(trace, p, task);
      PublishTracked(tasks, before, binding.taskSpans, trace, p);
      trace := trace + [p];
    }

    method FinishSpan(task: nat, admitted: bool) returns (found: bool)
      requires Valid() && !failed && task in tasks.live
      modifies this, binding
      ensures Spares(task)
      ensures Valid() && State() == ReferenceStep(old(State()), CloseSpan(task, admitted))
      ensures found <==> OpenSpans(old(trace), task) != []
    {
      ghost var before := binding.taskSpans;
      var span := binding.PopSpan(tasks, task);
      found := span.Some?;
      if !found {
        return;
      }
      if !admitted {
        failed := true;
        return;
      }
      var p := SpanClosed(task, span.value);
      OpenSnoc(trace, p, task);
      PublishTracked(tasks, before, binding.taskSpans, trace, p);
      trace := trace + [p];
    }

    /** One step of the environment or of a task. */
    method Perform(op: Op)
      requires Valid()
      modifies this, binding
      ensures Valid() && State() == ReferenceStep(old(State()), op) && Spares(op.task)
      decreases 0, 2
    {
      if failed {
        return;
      }
      match op {
        case Spawn(task, address) =>
          if task !in tasks.used && address !in tasks.live.Values {
            SpawnTracked(tasks, binding.taskSpans, trace, task, address);
            tasks := Tasks(tasks.live[task := address], tasks.used + {task});
          }
        case Die(task) =>
          DieTracked(tasks, binding.taskSpans, trace, task);
          tasks := tasks.(live := tasks.live - {task});
        case PlaceInstant(task, domain, admitted) =>
          if task in tasks.live { EmitInstant(task, domain, admitted); }
        case OpenSpan(task, domain, sequence) =>
          if task in tasks.live { var unregistered := StartSpan(task, domain, sequence, []); }
        case CloseSpan(task, admitted) =>
          if task in tasks.live { var found := FinishSpan(task, admitted); }
      }
    }
  }

  /** Over every run with task deaths and address reuse, the address-keyed stacks publish exactly
      what stacks keyed by task identity would. */
  method PublishAll(ops: seq<Op>) returns (trace: seq<Published>)
    ensures trace == ReferenceRun(ops).trace && WellPlaced(trace)
  {
    var publisher := new CustomPublisher();
    for i := 0 to |ops|
      invariant publisher.Valid() && fresh(publisher) && fresh(publisher.binding)
      invariant publisher.State() == ReferenceRun(ops[..i])
    {
      publisher.Perform(ops[i]);
      assert ops[..i + 1][..i] == ops[..i];
    }
    assert ops[..|ops|] == ops;
    ReferenceWellPlaced(ops);
    trace := publisher.trace;
  }
}
