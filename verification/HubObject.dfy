/** The hub as the object producers call: a sequence counter, a validator and the committed log. */
module HubObject {
  import opened Events
  import opened Validator
  import opened Hub

  class DiagnosticHub {
    const run: nat
    const fate: nat -> bool
    const stamps: nat -> nat
    const validator: ReferenceValidator
    var attempts: nat
    var nextSequence: Option<nat>
    var log: seq<Event>
    var refusal: Option<Code>
    ghost var strayed: bool

    ghost predicate Valid()
      reads this
    {
      nextSequence == if |log| < MAX_U64 then Some(|log| + 1) else None
    }

    /** The stream this hub holds. */
    ghost function Contents(): Stream
      reads this, validator
    {
      Stream(run, fate, stamps, attempts, log, validator.Contents(), refusal, strayed)
    }

    constructor (run: nat, fate: nat -> bool, stamps: nat -> nat)
      ensures Valid() && fresh(validator) && Contents() == NewStream(run, fate, stamps)
    {
      this.run, this.fate, this.stamps := run, fate, stamps;
      validator := new ReferenceValidator();
      attempts, nextSequence, log, refusal, strayed := 0, Some(1), [], None, false;
    }

    /** Assigns the next sequence, reserves, validates, and only then commits; a candidate that
        fails on the way leaves log and sequence as they were. */
    method AdmitCandidate(c: Candidate) returns (sequence: Option<nat>)
      requires Valid()
      modifies this, validator
      ensures Valid()
      ensures Admission(Contents(), sequence) == Admit(old(Contents()), c)
    {
      var attempt := attempts;
      strayed := strayed || !Proper(Contents(), c);
      attempts := attempts + 1;
      if nextSequence.None? {
        return None;
      }
      var event := Event(run, nextSequence.value, stamps(attempt), c.scope, c.causes, c.body);
      if !fate(attempt) {
        return None;
      }
      var fault := validator.Validate(event);
      if fault.Some? {
        refusal := if refusal.None? then fault else refusal;
        return None;
      }
      sequence := nextSequence;
      nextSequence := if nextSequence.value < MAX_U64 then Some(nextSequence.value + 1) else None;
      log := log + [event];
    }
  }
}
