/** Effect producers as objects, and the registry that fans a cue's end out to them. Between hooks
    the record of every effect, its span and the log agree. */
module EffectObject {
  import opened Events
  import opened Hub
  import opened HubObject
  import opened Effect
  import opened Stage
  import EP = EffectProofs
  import EA = EffectAnswers
  import CV = CueView

  /** The record of an effect, its span and the log agree, and no impossible fault occurred. */
  ghost predicate EffectInv(p: Producer, s: EffectState, h: Stream) {
    EP.Inv(p, s, h) && EP.Sane(s)
  }

  /** The cause an owner passes on is on the stream. */
  predicate OpKnown(op: Op, h: Stream) {
    op.OpOwnerTerminal? ==> Known(h, op.source)
  }

  lemma ObserveMeans(p: Producer, s: EffectState, h: Stream, op: Op)
    requires EffectInv(p, s, h) && OpKnown(op, h)
    ensures var r := Apply(p, s, h, op);
            && EffectInv(p, r.0, r.1) && Grows(h, r.1, EffectOwner(p.id)) && Sequenced(r.1)
            && (r.0.failed.None? ==> (r.0.finishAttempted <==> !IsOpen(r.1, p.span)))
  {
    hide Apply, Grows, Continues, EP.Logged;
    EP.ApplyKept(p, s, h, op);
    EP.ApplySane(p, s, h, op);
  }

  lemma ObserveAnswers(p: Producer, s: EffectState, h: Stream, op: Op)
    requires EffectInv(p, s, h)
    ensures EA.Answer(p, s, h, op, Apply(p, s, h, op))
  {
    hide EP.Inv, Apply, EA.Answer;
    EA.HooksAnswer(p, s, h, op);
  }

  lemma OthersKept(p: Producer, s: EffectState, h: Stream, h': Stream, other: nat)
    requires EffectInv(p, s, h) && Grows(h, h', EffectOwner(other)) && p.id != other && Sequenced(h')
    ensures EffectInv(p, s, h')
  {
    hide EP.Inv, Grows, Sequenced;
    EP.StepElsewhere(p, s, h, h', EffectOwner(other));
  }

  class EffectLifecycleProducer {
    const producer: Producer
    const hub: DiagnosticHub
    var state: EffectState

    ghost function Now(): (EffectState, Stream)
      reads this, hub, hub.validator
    {
      (state, hub.Contents())
    }

    constructor (producer: Producer, hub: DiagnosticHub)
      ensures this.producer == producer && this.hub == hub && state == CONSTRUCTING
    {
      this.producer, this.hub, state := producer, hub, CONSTRUCTING;
    }

    method FailDiagnostic()
      modifies this`state
      ensures state == Fail(old(state), EffectAdmissionFailed)
    {
      if state.failed.None? { state := state.(failed := Some(EffectAdmissionFailed)); }
      state := state.(finishAttempted := true);
    }

    method FailTransition(code: EffectCode)
      modifies this`state
      ensures state == FailState(old(state), code)
    {
      if state.failed.None? { state := state.(failed := Some(EffectStateFailed(code))); }
      state := state.(finishAttempted := true);
    }

    method FinishWith(t: Terminal, source: nat, relation: Relation)
      requires hub.Valid()
      modifies this`state, hub, hub.validator
      ensures hub.Valid() && Now() == EffectFinish(producer, old(state), old(hub.Contents()), t, source, relation)
    {
      hide Admit;
      if state.finishAttempted {
        FailTransition(FinishTransitionInvalid);
        return;
      }
      state := state.(finishAttempted := true);
      var finish := hub.AdmitCandidate(Finish(producer.scope, producer.span, t, Caused(source, relation)));
      if finish.None? {
        FailDiagnostic();
      }
    }

    method ConsumeThenFinish()
      requires hub.Valid()
      modifies this`state, hub, hub.validator
      ensures hub.Valid() && Now() == ConsumeAndFinish(producer, old(state), old(hub.Contents()))
    {
      hide Admit, EffectFinish;
      if state.returned.None? {
        FailTransition(ConsumedWithoutReturn);
        return;
      }
      var consumed := hub.AdmitCandidate(
        Note(producer.scope, EffectConsumed, producer.span, Caused(state.returned.value, Handoff)));
      if consumed.None? {
        FailDiagnostic();
        return;
      }
      FinishWith(COMPLETED, consumed.value, FollowsFrom);
    }

    method RecordCreated()
      requires hub.Valid()
      modifies this`state, hub, hub.validator
      ensures hub.Valid() && Now() == Created(producer, old(state), old(hub.Contents()))
    {
      hide Admit;
      if state.failed.Some? || state.finishAttempted {
        return;
      }
      if state.created.Some? || state.constructionFinished {
        FailTransition(CreatedTransitionInvalid);
        return;
      }
      var created := hub.AdmitCandidate(
        Note(producer.scope, EffectCreated, producer.span, Caused(producer.span, FollowsFrom)));
      if created.None? {
        FailDiagnostic();
        return;
      }
      state := state.(created := created);
    }

    method RecordConstructionFinished(error: Option<BuildError>)
      requires hub.Valid()
      modifies this`state, hub, hub.validator
      ensures hub.Valid() && Now() == ConstructionFinished(producer, old(state), old(hub.Contents()), error)
    {
      hide EffectFinish;
      if state.failed.Some? || state.finishAttempted {
        return;
      }
      if state.constructionFinished {
        FailTransition(ConstructionTransitionInvalid);
        return;
      }
      state := state.(constructionFinished := true, raised := error);
      if error.None? {
        if state.created.None? {
          FailTransition(FinishedWithoutCreate);
        }
        return;
      }
      var source := if state.created.Some? then state.created.value else producer.span;
      var terminal := if error.value.BuildCancelled? then CONSTRUCTION_CANCELLED else CONSTRUCTION_FAILED;
      FinishWith(terminal, source, FollowsFrom);
    }

    method RecordReturned()
      requires hub.Valid()
      modifies this`state, hub, hub.validator
      ensures hub.Valid() && Now() == Returned(producer, old(state), old(hub.Contents()))
    {
      hide Admit;
      if state.failed.Some? || state.finishAttempted || state.returned.Some? {
        return;
      }
      if state.created.None? {
        FailTransition(ReturnedWithoutCreate);
        return;
      }
      if !state.constructionFinished || state.ownerTerminal.Some? {
        FailTransition(ReturnedTransitionInvalid);
        return;
      }
      var returned := hub.AdmitCandidate(
        Note(producer.scope, EffectReturned, producer.span, Caused(state.created.value, Return)));
      if returned.None? {
        FailDiagnostic();
        return;
      }
      state := state.(returned := returned);
    }

    method RecordOwnerTerminal(outcome: CueOutcome, source: nat)
      requires hub.Valid()
      modifies this`state, hub, hub.validator
      ensures hub.Valid() && Now() == OwnerTerminal(producer, old(state), old(hub.Contents()), outcome, source)
    {
      hide EffectFinish, ConsumeAndFinish;
      if state.failed.Some? || state.finishAttempted {
        return;
      }
      if state.ownerTerminal.Some? {
        FailTransition(OwnerTransitionInvalid);
        return;
      }
      state := state.(ownerTerminal := Some(outcome));
      match outcome {
        case CueCompleted =>
          if state.returned.None? {
            FinishWith(NOT_RETURNED, source, Return);
          } else if state.callerOutcome == Some(Consumed) {
            ConsumeThenFinish();
          } else if state.callerOutcome == Some(Abandoned) || state.cleared {
            FinishWith(CONSUMER_ABANDONED, state.returned.value, Handoff);
          }
        case CueCancelled => FinishWith(OWNER_CANCELLED, source, Handoff);
        case CueFailed => FinishWith(OWNER_FAILED, source, Return);
        case CueCleanupFailed => FinishWith(OWNER_CLEANUP_FAILED, source, Handoff);
      }
    }

    method RecordCallerFinished(outcome: CallerOutcome)
      requires hub.Valid()
      modifies this`state, hub, hub.validator
      ensures hub.Valid() && Now() == CallerFinished(producer, old(state), old(hub.Contents()), outcome)
    {
      hide EffectFinish, ConsumeAndFinish;
      if state.failed.Some? || state.finishAttempted || state.callerOutcome.Some? {
        return;
      }
      state := state.(callerOutcome := Some(outcome));
      if state.ownerTerminal == Some(CueCompleted) && state.returned.Some? {
        if outcome.Consumed? {
          ConsumeThenFinish();
        } else {
          FinishWith(CONSUMER_ABANDONED, state.returned.value, Handoff);
        }
      }
    }

    method RecordCleared()
      requires hub.Valid()
      modifies this`state, hub, hub.validator
      ensures hub.Valid() && Now() == Cleared(producer, old(state), old(hub.Contents()))
    {
      hide EffectFinish;
      if state.failed.Some? || state.finishAttempted || state.cleared {
        return;
      }
      state := state.(cleared := true);
      if state.ownerTerminal == Some(CueCompleted) && state.returned.Some? {
        FinishWith(CONSUMER_ABANDONED, state.returned.value, Handoff);
      }
    }

    ghost predicate Valid()
      reads this, hub, hub.validator
    {
      hub.Valid() && EffectInv(producer, state, hub.Contents())
    }

    /** Runs one hook and reports whether the effect is over: a healthy effect is over exactly when
        its span is closed, and the stream grew by this effect's events alone. */
    method Observe(op: Op) returns (over: bool)
      requires Valid() && OpKnown(op, hub.Contents())
      modifies this`state, hub, hub.validator
      ensures Valid() && Now() == Apply(producer, old(state), old(hub.Contents()), op)
      ensures Grows(old(hub.Contents()), hub.Contents(), EffectOwner(producer.id)) && Sequenced(hub.Contents())
      ensures EA.Answer(producer, old(state), old(hub.Contents()), op, Now())
      ensures over == state.finishAttempted
      ensures state.failed.None? ==> (over <==> !IsOpen(hub.Contents(), producer.span))
    {
      hide Apply, EffectInv, Grows, Sequenced, EA.Answer;
      ObserveMeans(producer, state, hub.Contents(), op);
      ObserveAnswers(producer, state, hub.Contents(), op);
      RecordHook(op);
      over := state.finishAttempted;
    }

    method RecordHook(op: Op)
      requires hub.Valid()
      modifies this`state, hub, hub.validator
      ensures hub.Valid() && Now() == Apply(producer, old(state), old(hub.Contents()), op)
    {
      hide Created, ConstructionFinished, Returned, OwnerTerminal, CallerFinished, Cleared;
      match op {
        case OpCreated => RecordCreated();
        case OpConstructionFinished(error) => RecordConstructionFinished(error);
        case OpReturned => RecordReturned();
        case OpOwnerTerminal(outcome, source) => RecordOwnerTerminal(outcome, source);
        case OpCallerFinished(outcome) => RecordCallerFinished(outcome);
        case OpCleared => RecordCleared();
      }
    }
  }

  /** A fan-out one effect longer. */
  lemma {:induction false} FanOutSnoc(w: Stage, order: seq<nat>, id: nat, op: Op)
    ensures FanOut(w, order + [id], op) == EffectStep(FanOut(w, order, op), id, op)
    decreases |order|
  {
    if order == [] {
      assert [id][1..] == [];
    } else {
      assert (order + [id])[1..] == order[1..] + [id];
      FanOutSnoc(EffectStep(w, order[0], op), order[1..], id, op);
    }
  }

  lemma DistinctSnoc(order: seq<nat>, id: nat)
    requires Distinct(order) && id !in order
    ensures Distinct(order + [id])
  {
  }

  /** The registered part of a stage's effects. */
  ghost function Registered(w: Stage): map<nat, EffectEntry> {
    map i | i in w.effects && w.effects[i].listed :: w.effects[i]
  }

  lemma RegisteredStep(w: Stage, id: nat, op: Op)
    requires id in w.effects && forall i :: i in w.effects ==> w.effects[i].listed
    ensures var e := w.effects[id];
            var (s, h) := Apply(e.producer, e.state, w.h, op);
            && EffectStep(w, id, op).h == h
            && EffectStep(w, id, op).latched == (w.latched || s.failed.Some?)
            && Registered(EffectStep(w, id, op)) ==
               if s.finishAttempted then w.effects - {id} else w.effects[id := e.(state := s)]
  {
    hide Apply;
  }

  /** A hook finds the same effect whether or not the registry still shows the finished ones. */
  lemma StepRegistered(w: Stage, v: Stage, id: nat, op: Op)
    requires v.h == w.h && v.latched == w.latched && v.effects == Registered(w) && id in v.effects
    ensures EffectStep(v, id, op).h == EffectStep(w, id, op).h
    ensures EffectStep(v, id, op).latched == EffectStep(w, id, op).latched
    ensures Registered(EffectStep(v, id, op)) == Registered(EffectStep(w, id, op))
  {
    hide Apply;
    var v', w' := EffectStep(v, id, op), EffectStep(w, id, op);
    assert forall i :: i in w'.effects && w'.effects[i].listed ==> i in v'.effects && v'.effects[i] == w'.effects[i];
  }

  class EffectRegistry {
    const hub: DiagnosticHub
    var active: map<nat, EffectLifecycleProducer>
    var latched: bool

    /** Every registered effect is known by its own identifier and in good order. */
    ghost predicate Valid()
      reads this, hub, hub.validator, active.Values
    {
      && hub.Valid()
      && forall k :: k in active ==>
           active[k].hub == hub && active[k].producer.id == k && EffectInv(active[k].producer, active[k].state, hub.Contents())
    }

    ghost function Entries(): map<nat, EffectEntry>
      reads this, active.Values
    {
      map k | k in active :: EffectEntry(active[k].producer, active[k].state, true, false)
    }

    /** The registered effects as a stage of their own. */
    ghost function Contents(): Stage
      reads this, hub, hub.validator, active.Values
    {
      Stage(hub.Contents(), latched, map[], map[], Entries())
    }

    constructor (hub: DiagnosticHub)
      requires hub.Valid()
      ensures this.hub == hub && Valid() && active == map[] && !latched
    {
      this.hub, active, latched := hub, map[], false;
    }

    /** Runs one hook on a registered effect; the others are left as they are. */
    method TellOne(id: nat, op: Op) returns (over: bool)
      requires Valid() && id in active && OpKnown(op, hub.Contents())
      modifies hub, hub.validator, active[id]
      ensures Valid() && OpKnown(op, hub.Contents()) && CV.SparesCues(old(hub.Contents()), hub.Contents())
      ensures (active[id].state, hub.Contents()) == Apply(active[id].producer, old(active[id].state), old(hub.Contents()), op)
      ensures over == active[id].state.finishAttempted
      ensures forall k :: k in active && k != id ==> active[k].state == old(active[k].state)
    {
      hide Apply, EffectInv, Grows, Sequenced, CV.SparesCues;
      ghost var h := hub.Contents();
      over := active[id].Observe(op);
      GrowsLonger(h, hub.Contents(), EffectOwner(id));
      CV.EffectSpares(h, hub.Contents(), id);
      forall k | k in active && k != id
        ensures active[k].state == old(active[k].state) && EffectInv(active[k].producer, active[k].state, hub.Contents())
      {
        OthersKept(active[k].producer, active[k].state, h, hub.Contents(), id);
      }
    }

    /** Runs one hook on a registered effect and reports whether the effect is over. */
    method Tell(id: nat, op: Op) returns (over: bool)
      requires Valid() && id in active && OpKnown(op, hub.Contents())
      modifies this`latched, hub, hub.validator, active[id]
      ensures Valid() && OpKnown(op, hub.Contents()) && CV.SparesCues(old(hub.Contents()), hub.Contents())
      ensures var e := old(Entries())[id];
              var (s, h) := Apply(e.producer, e.state, old(hub.Contents()), op);
              && hub.Contents() == h && over == s.finishAttempted
              && latched == (old(latched) || s.failed.Some?)
              && Entries() == old(Entries())[id := e.(state := s)]
    {
      hide Apply, EffectInv, CV.SparesCues, OpKnown, DiagnosticHub.Contents;
      over := TellOne(id, op);
      latched := latched || active[id].state.failed.Some?;
    }

    method Remove(id: nat)
      requires Valid()
      modifies this`active
      ensures Valid() && active == old(active) - {id}
      ensures Entries() == old(Entries()) - {id}
    {
      hide EffectInv, DiagnosticHub.Contents;
      active := active - {id};
    }

    /** Runs one hook on a registered effect and removes the effect if it is over. */
    method Deliver(id: nat, op: Op)
      requires Valid() && id in active && OpKnown(op, hub.Contents())
      modifies this, hub, hub.validator, active[id]
      ensures Valid() && (active == old(active) || active == old(active) - {id}) && OpKnown(op, hub.Contents())
      ensures CV.SparesCues(old(hub.Contents()), hub.Contents())
      ensures latched == EffectStep(old(Contents()), id, op).latched
      ensures hub.Contents() == EffectStep(old(Contents()), id, op).h
      ensures Entries() == Registered(EffectStep(old(Contents()), id, op))
    {
      hide Apply, EffectStep, Registered, DiagnosticHub.Contents, EffectInv, OpKnown, CV.SparesCues, Valid;
      ghost var w, before := Contents(), Entries();
      assert w.h == hub.Contents() && w.latched == latched && w.effects == before;
      RegisteredStep(w, id, op);
      var over := Tell(id, op);
      if over {
        assert Entries() - {id} == before - {id};
        Remove(id);
      }
    }

    /** The keys of the cue's effects, as a snapshot taken before any of them is told. */
    method KeysOfOwner(owner: nat) returns (keys: set<nat>)
      ensures keys == set k | k in active && active[k].producer.owner == owner
    {
      keys := set k | k in active && active[k].producer.owner == owner;
    }

    ghost predicate Agrees(w: Stage)
      reads this, hub, hub.validator, active.Values
    {
      hub.Contents() == w.h && latched == w.latched && Entries() == Registered(w)
    }

    /** One more effect of a fan-out in progress. */
    method TellNext(id: nat, op: Op, ghost w: Stage, ghost order: seq<nat>)
      requires Valid() && id in active && Agrees(FanOut(w, order, op)) && OpKnown(op, hub.Contents())
      modifies this, hub, hub.validator, active[id]
      ensures Valid() && (active == old(active) || active == old(active) - {id}) && OpKnown(op, hub.Contents())
      ensures CV.SparesCues(old(hub.Contents()), hub.Contents())
      ensures Agrees(FanOut(w, order + [id], op))
    {
      hide EffectStep, Apply, FanOut, Registered, DiagnosticHub.Contents, EffectInv, OpKnown, CV.SparesCues;
      FanOutSnoc(w, order, id, op);
      StepRegistered(FanOut(w, order, op), Contents(), id, op);
      Deliver(id, op);
    }

    /** Tells the given effects, in some order, and drops those that are over. */
    method TellKeys(keys: set<nat>, op: Op) returns (ghost order: seq<nat>)
      requires Valid() && keys <= active.Keys && OpKnown(op, hub.Contents())
      modifies this, hub, hub.validator, active.Values
      ensures Valid() && Agrees(FanOut(old(Contents()), order, op)) && CV.SparesCues(old(hub.Contents()), hub.Contents())
      ensures (forall k :: k in keys <==> k in order) && Distinct(order)
    {
      ghost var w := Contents();
      var pending := keys;
      order := [];
      assert Agrees(FanOut(w, [], op)) && Distinct([]);
      ghost var h := hub.Contents();
      hide FanOut, Agrees, Distinct, EffectInv, OpKnown, CV.CueInv;
      while pending != {}
        invariant Valid() && active.Values <= old(active.Values) && OpKnown(op, hub.Contents())
        invariant Agrees(FanOut(w, order, op)) && CV.SparesCues(h, hub.Contents())
        invariant forall k :: k in pending ==> k in active && k !in order
        invariant forall k :: k in keys <==> k in pending || k in order
        invariant Distinct(order)
        decreases |pending|
      {
        var id :| id in pending;
        TellNext(id, op, w, order);
        DistinctSnoc(order, id);
        pending, order := pending - {id}, order + [id];
      }
    }

    /** Tells every registered effect of a cue, in the order the registry happens to yield. */
    method TellAll(owner: nat, op: Op)
      requires Valid() && OpKnown(op, hub.Contents())
      modifies this, hub, hub.validator, active.Values
      ensures Valid() && CV.SparesCues(old(hub.Contents()), hub.Contents())
      ensures exists order :: Enumerates(old(Contents()), owner, order) && Agrees(FanOut(old(Contents()), order, op))
    {
      ghost var w := Contents();
      var keys := KeysOfOwner(owner);
      assert forall e :: e in keys <==> EffectListed(w, e) && w.effects[e].producer.owner == owner;
      hide FanOut, Registered, EffectListed, EffectInv, CV.SparesCues;
      ghost var order := TellKeys(keys, op);
      assert Enumerates(w, owner, order);
    }
  }
}
