/** The vocabulary shared by every diagnostic producer: scopes, causal links, span and
    instant kinds, and the events of one run's stream. Identifiers that the runtime renders
    as `act-7`, `cue-3`, ... are the counters behind them. */
module Events {

  datatype Option<+T> = None | Some(value: T)

  const MAX_U64: nat := 18_446_744_073_709_551_615

  const MAX_CAUSAL_LINKS: nat := 16

  datatype Scope = Scope(
    scene: Option<nat>,
    actor: Option<nat>,
    cue: Option<nat>,
    effect: Option<nat>,
    act: Option<nat>,
    tool: Option<nat>,
    generation: Option<nat>)

  const EMPTY_SCOPE: Scope := Scope(None, None, None, None, None, None, None)

  datatype Relation = Dispatch | Return | Handoff | Retry | FollowsFrom

  datatype Link = Link(source: nat, relation: Relation)

  datatype Outcome = Completed | Cancelled | Failed

  /** How a span ends: the outcome and the optional error code of its finish event. */
  datatype Terminal = Terminal(outcome: Outcome, code: Option<string>)

  const COMPLETED: Terminal := Terminal(Completed, None)

  datatype SpanKind =
    | RunLifecycle | ProductionStart | ProductionStop | ProductionShutdown | SceneLifecycle
    | CueMailboxWait | CueExecution | EffectLifecycle
    | ActLifecycle | ActCaller | AgentTurn
    | AgentThinking | ToolCall | OtherSpan

  /** The kinds that acts, cues and effects open; every other span is somebody else's. */
  predicate Lifecycle(kind: SpanKind) {
    || kind.CueMailboxWait? || kind.CueExecution? || kind.EffectLifecycle?
    || kind.ActLifecycle? || kind.ActCaller? || kind.AgentTurn?
  }

  datatype InstantKind =
    | CueAdmitted | CueEnqueued | CueDispatched | CueCancelRequested
    | EffectCreated | EffectReturned | EffectConsumed
    | ActAdmitted | ActWaitingReady | ActPromptSubmitted | ActCancelRequested
    | ActSupervisorHandoff | AgentTurnActivity | AgentTurnTerminal | AgentTurnSettled
    | OtherInstant

  datatype CounterKind = ActorMailboxDepth | CueActive | AgentTurnActive | OtherCounter

  /** A span start with no built-in kind opens a custom span. `Recorded` stands for the event
      variants that reference no span: messages, plans, usage samples, gaps, custom counters. */
  datatype Body =
    | SpanStarted(kind: Option<SpanKind>, parent: Option<nat>)
    | SpanFinished(custom: bool, span: nat, terminal: Terminal)
    | Instant(instant: InstantKind, containing: Option<nat>)
    | Counter(counter: CounterKind, sample: nat)
    | Recorded(affected: Option<Scope>)

  datatype Event = Event(
    run: nat,
    sequence: nat,
    elapsed: nat,
    scope: Scope,
    causes: seq<Link>,
    body: Body)

  function Caused(source: nat, relation: Relation): seq<Link> {
    [Link(source, relation)]
  }

  /** The first recorded sequence number of two, in the manner of `Option::or`. */
  function Or(first: Option<nat>, second: Option<nat>): Option<nat> {
    if first.Some? then first else second
  }

  predicate IdContains(parent: Option<nat>, child: Option<nat>) {
    parent.None? || child == parent
  }

  /** Every identifier the parent scope carries is carried, unchanged, by the child scope. */
  predicate ScopeContains(parent: Scope, child: Scope) {
    && IdContains(parent.scene, child.scene)
    && IdContains(parent.actor, child.actor)
    && IdContains(parent.cue, child.cue)
    && IdContains(parent.effect, child.effect)
    && IdContains(parent.act, child.act)
    && IdContains(parent.tool, child.tool)
    && IdContains(parent.generation, child.generation)
  }

  predicate HasUnknownSentinel(scope: Scope) {
    scope.generation == Some(0)
  }
}
