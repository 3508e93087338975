/** Several admissions in a row, all or nothing in the record: a hook offers its candidates one after
    the other and stops at the first that is turned away. */
module Offers {
  import opened Events
  import opened Validator
  import opened Hub

  /** The stream after the offer, and whether every candidate was taken. */
  function Offer(h: Stream, cs: seq<Candidate>): (Stream, bool)
    decreases |cs|
  {
    if cs == [] then (h, true)
    else
      var a := Admit(h, cs[0]);
      if a.sequence.None? then (a.stream, false) else Offer(a.stream, cs[1..])
  }

  /** The events that `cs` become if they are all taken. */
  function EventsOf(h: Stream, cs: seq<Candidate>): seq<Event> {
    seq(|cs|, k requires 0 <= k < |cs| =>
      Event(h.run, |h.log| + 1 + k, h.stamps(h.attempts + k), cs[k].scope, cs[k].causes, cs[k].body))
  }

  /** An offer that is taken adds exactly its events to the log, any other a proper prefix of them. */
  lemma {:induction false} OfferLog(h: Stream, cs: seq<Candidate>)
    ensures var (h', all) := Offer(h, cs);
            if all then h'.log == h.log + EventsOf(h, cs)
            else exists k: nat :: k < |cs| && h'.log == h.log + EventsOf(h, cs)[..k]
    decreases |cs|
  {
    hide Admit, EventsOf;
    if cs == [] {
      assert EventsOf(h, cs) == [] by { EventsLength(h, cs); }
    } else {
      var a := Admit(h, cs[0]);
      AdmitLog(h, cs[0]);
      EventsLength(h, cs);
      if a.sequence.None? {
        assert h.log + EventsOf(h, cs)[..0] == h.log;
      } else {
        var first, rest := [Materialize(h, cs[0])], EventsOf(a.stream, cs[1..]);
        EventsFirst(h, cs);
        OfferLog(a.stream, cs[1..]);
        hide Materialize;
        assert h.log + (first + rest) == a.stream.log + rest;
        if !Offer(a.stream, cs[1..]).1 {
          var k: nat :| k < |cs| - 1 && Offer(a.stream, cs[1..]).0.log == a.stream.log + rest[..k];
          EventsLength(a.stream, cs[1..]);
          assert EventsOf(h, cs)[..k + 1] == first + rest[..k];
          assert h.log + EventsOf(h, cs)[..k + 1] == a.stream.log + rest[..k];
        }
      }
    }
  }

  lemma EventsLength(h: Stream, cs: seq<Candidate>)
    ensures |EventsOf(h, cs)| == |cs|
  {
  }

  lemma EventsFirst(h: Stream, cs: seq<Candidate>)
    requires cs != [] && Admit(h, cs[0]).sequence.Some?
    ensures EventsOf(h, cs) == [Materialize(h, cs[0])] + EventsOf(Admit(h, cs[0]).stream, cs[1..])
  {
    AdmitCases(h, cs[0]);
    hide Admit, Proper;
  }

  /** The reserver grants the next candidate, its stamp fits, and a span it finishes holds nothing open. */
  predicate Takes(h: Stream, c: Candidate) {
    Reserved(h) && Sound(h, c) && InTime(h, c)
  }

  /** Candidates with their references in order are all taken exactly if each is granted and fits when
      its turn comes. */
  lemma {:induction false} OfferTakenIff(h: Stream, cs: seq<Candidate>)
    requires Sequenced(h)
    requires forall k :: 0 <= k < |cs| ==> Offer(h, cs[..k]).1 ==> Referenced(Offer(h, cs[..k]).0, cs[k])
    ensures Offer(h, cs).1 <==> forall k :: 0 <= k < |cs| ==> Takes(Offer(h, cs[..k]).0, cs[k])
    decreases |cs|
  {
    if cs != [] {
      assert cs[..0] == [] && Offer(h, []) == (h, true);
      assert Referenced(h, cs[0]);
      ReferencedTakenIff(h, cs[0]);
      AdmitSequenced(h, cs[0]);
      var a, rest := Admit(h, cs[0]), cs[1..];
      hide Admit, Referenced, Sound, InTime, Sequenced, Reserved;
      if a.sequence.Some? {
        forall k | 0 <= k < |rest| ensures Offer(a.stream, rest[..k]) == Offer(h, cs[..k + 1]) && rest[k] == cs[k + 1] {
          OfferFirst(h, cs, k + 1);
        }
        OfferTakenIff(a.stream, rest);
        forall k | 0 < k < |cs| ensures Offer(h, cs[..k]) == Offer(a.stream, rest[..k - 1]) && cs[k] == rest[k - 1] {
          OfferFirst(h, cs, k);
        }
        assert Takes(Offer(h, cs[..0]).0, cs[0]);
        if Offer(h, cs).1 {
          forall k | 0 <= k < |cs| ensures Takes(Offer(h, cs[..k]).0, cs[k]) {
            if k > 0 { assert Takes(Offer(a.stream, rest[..k - 1]).0, rest[k - 1]); }
          }
        } else {
          var k :| 0 <= k < |rest| && !Takes(Offer(a.stream, rest[..k]).0, rest[k]);
          assert !Takes(Offer(h, cs[..k + 1]).0, cs[k + 1]);
        }
      } else {
        assert !Takes(Offer(h, cs[..0]).0, cs[0]);
      }
    }
  }

  lemma OfferFirst(h: Stream, cs: seq<Candidate>, k: nat)
    requires 0 < k <= |cs| && Admit(h, cs[0]).sequence.Some?
    ensures Offer(h, cs[..k]) == Offer(Admit(h, cs[0]).stream, cs[1..][..k - 1])
  {
    hide Admit;
    assert cs[..k][1..] == cs[1..][..k - 1];
  }

  // ----- Offers written out -----

  lemma OfferOne(h: Stream, c: Candidate)
    ensures var a := Admit(h, c);
            Offer(h, [c]) == (a.stream, a.sequence.Some?) && (a.sequence.Some? ==> a.sequence.value == |h.log| + 1)
  {
    AdmitLog(h, c);
    hide Admit;
    assert Offer(Admit(h, c).stream, []) == (Admit(h, c).stream, true);
  }

  lemma OfferCons(h: Stream, c: Candidate, cs: seq<Candidate>)
    ensures var a := Admit(h, c);
            && Offer(h, [c] + cs) == (if a.sequence.None? then (a.stream, false) else Offer(a.stream, cs))
            && (a.sequence.Some? ==> a.sequence.value == |h.log| + 1 == |a.stream.log|)
  {
    AdmitLog(h, c);
    hide Admit;
    assert ([c] + cs)[1..] == cs;
  }

  lemma OfferTwo(h: Stream, c: Candidate, d: Candidate)
    ensures var a := Admit(h, c);
            && Offer(h, [c, d]) == (if a.sequence.None? then (a.stream, false) else Offer(a.stream, [d]))
            && (a.sequence.Some? ==> a.sequence.value == |h.log| + 1 == |a.stream.log|)
  {
    hide Admit, Offer;
    OfferCons(h, c, [d]);
    assert [c] + [d] == [c, d];
  }

  lemma OfferThree(h: Stream, c: Candidate, d: Candidate, e: Candidate)
    ensures var a := Admit(h, c);
            && Offer(h, [c, d, e]) == (if a.sequence.None? then (a.stream, false) else Offer(a.stream, [d, e]))
            && (a.sequence.Some? ==> a.sequence.value == |h.log| + 1 == |a.stream.log|)
  {
    hide Admit, Offer;
    OfferCons(h, c, [d, e]);
    assert [c] + [d, e] == [c, d, e];
  }

  lemma OfferFour(h: Stream, c: Candidate, d: Candidate, e: Candidate, f: Candidate)
    ensures var a := Admit(h, c);
            && Offer(h, [c, d, e, f]) == (if a.sequence.None? then (a.stream, false) else Offer(a.stream, [d, e, f]))
            && (a.sequence.Some? ==> a.sequence.value == |h.log| + 1 == |a.stream.log|)
  {
    hide Admit, Offer;
    OfferCons(h, c, [d, e, f]);
    assert [c] + [d, e, f] == [c, d, e, f];
  }
}
