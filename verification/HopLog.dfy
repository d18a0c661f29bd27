/** The order of the messages by which the receiver reports and commands its tuning. */
module HopLog {
  import opened P25
  import opened Talkgroups
  import opened Receiver
  import opened History
  import opened Pacing
  import opened Outline

  predicate CtlMessage(e: HubEvent) {
    e.State? && e.update.UpdateCtlFreq?
  }

  /** The control frequency last announced before position `n`. */
  function CtlAt(log: seq<HubEvent>, n: nat): Freq
    requires n <= |log|
  {
    if n == 0 then U32_MAX
    else if CtlMessage(log[n - 1]) then log[n - 1].update.freq
    else CtlAt(log, n - 1)
  }

  /** The frequencies reported before position `n`. */
  function Tunings(log: seq<HubEvent>, n: nat): seq<Freq>
    requires n <= |log|
  {
    if n == 0 then []
    else Tunings(log, n - 1) + if log[n - 1].UpdateCurFreq? then [log[n - 1].freq] else []
  }

  /** Each new control frequency is immediately tuned to. */
  predicate SitesAreTuned(log: seq<HubEvent>) {
    forall i :: 0 <= i < |log| && CtlMessage(log[i]) ==>
      i + 1 < |log| && log[i + 1] == UpdateCurFreq(log[i].update.freq)
  }

  /** Each talkgroup is reported immediately after its frequency. */
  predicate GroupsAreTuned(log: seq<HubEvent>) {
    forall i :: 0 <= i < |log| && log[i].UpdateTalkGroup? ==> i >= 1 && log[i - 1].UpdateCurFreq?
  }

  /** The groups reported before position `n`, each with the frequency reported just before it. */
  function Reported(log: seq<HubEvent>, n: nat): seq<Pick>
    requires n <= |log|
  {
    if n == 0 then []
    else
      Reported(log, n - 1)
      + if n >= 2 && log[n - 1].UpdateTalkGroup? && log[n - 2].UpdateCurFreq?
        then [Pick(log[n - 1].group, log[n - 2].freq)] else []
  }

  /** The message at `k` reports a tuning to the control frequency then announced. */
  predicate RetunesAt(log: seq<HubEvent>, k: nat) {
    k < |log| && log[k] == UpdateCurFreq(CtlAt(log, k))
  }

  /** A retune to control lies after the talkgroup at `i` and before position `end`. */
  ghost predicate ReturnsIn(log: seq<HubEvent>, i: nat, end: int) {
    exists k: nat :: i < k < end && RetunesAt(log, k)
  }

  /** Every talkgroup in the log has been followed by a return to control. */
  ghost predicate AllReturned(log: seq<HubEvent>) {
    forall i: nat :: i < |log| && log[i].UpdateTalkGroup? ==> ReturnsIn(log, i, |log|)
  }

  /** Between two talkgroups, and before the second's own tuning, lies a return to control. */
  ghost predicate GroupsAreSeparated(log: seq<HubEvent>) {
    forall i: nat, j: nat :: i < j < |log| && log[i].UpdateTalkGroup? && log[j].UpdateTalkGroup? ==>
      ReturnsIn(log, i, j - 1)
  }

  // ---------------------------------------------------------------- appending

  lemma {:induction false} CtlAtPrefix(a: seq<HubEvent>, b: seq<HubEvent>, n: nat)
    requires n <= |a|
    ensures CtlAt(a + b, n) == CtlAt(a, n)
  {
    if n > 0 {
      CtlAtPrefix(a, b, n - 1);
    }
  }

  lemma {:induction false} TuningsPrefix(a: seq<HubEvent>, b: seq<HubEvent>, n: nat)
    requires n <= |a|
    ensures Tunings(a + b, n) == Tunings(a, n)
  {
    if n > 0 {
      TuningsPrefix(a, b, n - 1);
    }
  }

  lemma ReturnsInPrefix(a: seq<HubEvent>, b: seq<HubEvent>, i: nat, end: int)
    requires ReturnsIn(a, i, end) && end <= |a|
    ensures ReturnsIn(a + b, i, end)
  {
    var k: nat :| i < k < end && RetunesAt(a, k);
    CtlAtPrefix(a, b, k);
    assert RetunesAt(a + b, k);
  }

  lemma CtlStep(o: Outline, e: Effect)
    requires CtlAt(o.hub, |o.hub|) == o.ctl && e.Plain()
    ensures CtlAt(o.Do(e).hub, |o.Do(e).hub|) == o.Do(e).ctl
  {
    var part := e.HubPart(o.ctl);
    CtlAtPrefix(o.hub, part, |o.hub|);
    if |part| == 2 {
      assert CtlAt(o.hub + part, |o.hub| + 1)
          == if e.Site? then e.freq else o.ctl;
    }
  }

  lemma TuningsStep(o: Outline, e: Effect)
    requires Tunings(o.hub, |o.hub|) == o.sdr && e.Plain()
    ensures Tunings(o.Do(e).hub, |o.Do(e).hub|) == o.Do(e).sdr
  {
    var part := e.HubPart(o.ctl);
    TuningsPrefix(o.hub, part, |o.hub|);
    if |part| == 2 {
      assert Tunings(o.hub + part, |o.hub| + 1)
          == o.sdr + if e.Site? then [] else e.SdrPart(o.ctl);
    }
  }

  lemma {:induction false} ReportedPrefix(a: seq<HubEvent>, b: seq<HubEvent>, n: nat)
    requires n <= |a|
    ensures Reported(a + b, n) == Reported(a, n)
  {
    if n > 0 {
      ReportedPrefix(a, b, n - 1);
    }
  }

  /** The pair that an effect follows, if any. */
  function FollowedBy(e: Effect): seq<Pick> {
    if e.Follow? then [e.pick] else []
  }

  lemma ReportedStep(o: Outline, e: Effect)
    requires e.Plain()
    ensures var log := o.Do(e).hub;
            Reported(log, |log|) == Reported(o.hub, |o.hub|) + FollowedBy(e)
  {
    var part := e.HubPart(o.ctl);
    ReportedPrefix(o.hub, part, |o.hub|);
    if |part| == 2 {
      assert Reported(o.hub + part, |o.hub| + 1) == Reported(o.hub, |o.hub|);
    }
  }

  lemma AdjacentStep(o: Outline, e: Effect)
    requires SitesAreTuned(o.hub) && GroupsAreTuned(o.hub) && e.Plain()
    ensures SitesAreTuned(o.Do(e).hub) && GroupsAreTuned(o.Do(e).hub)
  {
  }

  /** An effect that ends on control retunes to the frequency it leaves in force. */
  lemma EndingRetunes(o: Outline, e: Effect)
    requires CtlAt(o.hub, |o.hub|) == o.ctl && e.Ends()
    ensures RetunesAt(o.Do(e).hub, if e.Site? then |o.hub| + 1 else |o.hub|)
  {
    var part := e.HubPart(o.ctl);
    CtlAtPrefix(o.hub, part, |o.hub|);
  }

  lemma ReturnedStep(o: Outline, e: Effect)
    requires CtlAt(o.hub, |o.hub|) == o.ctl && e.Plain() && (o.on ==> AllReturned(o.hub))
    ensures o.Do(e).on ==> AllReturned(o.Do(e).hub)
  {
    var part, log := e.HubPart(o.ctl), o.Do(e).hub;
    if o.Do(e).on {
      if e.Ends() {
        EndingRetunes(o, e);
      }
      forall i: nat | i < |log| && log[i].UpdateTalkGroup? ensures ReturnsIn(log, i, |log|) {
        assert i < |o.hub| && o.hub[i] == log[i];
        if !e.Ends() {
          ReturnsInPrefix(o.hub, part, i, |o.hub|);
        }
      }
    }
  }

  lemma SeparatedStep(o: Outline, e: Effect)
    requires e.Plain() && GroupsAreSeparated(o.hub)
    requires e.Follow? ==> AllReturned(o.hub)
    ensures GroupsAreSeparated(o.Do(e).hub)
  {
    var part, log := e.HubPart(o.ctl), o.Do(e).hub;
    forall i: nat, j: nat | i < j < |log| && log[i].UpdateTalkGroup? && log[j].UpdateTalkGroup?
      ensures ReturnsIn(log, i, j - 1)
    {
      assert i < |o.hub| && o.hub[i] == log[i];
      if j < |o.hub| {
        ReturnsInPrefix(o.hub, part, i, j - 1);
      } else {
        assert e.Follow? && j == |o.hub| + 1;
        ReturnsInPrefix(o.hub, part, i, |o.hub|);
      }
    }
  }

  // ---------------------------------------------------------------- runs

  ghost predicate WellOrdered(o: Outline) {
    && CtlAt(o.hub, |o.hub|) == o.ctl
    && Tunings(o.hub, |o.hub|) == o.sdr
    && SitesAreTuned(o.hub) && GroupsAreTuned(o.hub)
    && (o.on ==> AllReturned(o.hub))
  }

  lemma WellOrderedStep(o: Outline, e: Effect)
    requires WellOrdered(o) && e.Plain()
    ensures WellOrdered(o.Do(e))
  {
    CtlStep(o, e);
    TuningsStep(o, e);
    AdjacentStep(o, e);
    ReturnedStep(o, e);
  }

  /** The pairs followed by the first `n` effects. */
  function FollowedPairs(es: seq<Effect>, n: nat): seq<Pick>
    requires n <= |es|
  {
    if n == 0 then [] else FollowedPairs(es, n - 1) + FollowedBy(es[n - 1])
  }

  lemma ReportedNext(o: Outline, e: Effect, before: seq<Pick>, pairs: seq<Pick>)
    requires e.Plain() && Reported(o.hub, |o.hub|) == before + pairs
    ensures var log := o.Do(e).hub;
            Reported(log, |log|) == before + (pairs + FollowedBy(e))
  {
    ReportedStep(o, e);
    assert before + pairs + FollowedBy(e) == before + (pairs + FollowedBy(e));
  }

  lemma {:induction false} ReportedAlong(o: Outline, es: seq<Effect>, n: nat)
    requires n <= |es| && forall e :: e in es ==> e.Plain()
    ensures var log := OutlineAfter(o, es, n).hub;
            Reported(log, |log|) == Reported(o.hub, |o.hub|) + FollowedPairs(es, n)
  {
    if n > 0 {
      ReportedAlong(o, es, n - 1);
      assert es[n - 1] in es;
      ReportedNext(OutlineAfter(o, es, n - 1), es[n - 1], Reported(o.hub, |o.hub|), FollowedPairs(es, n - 1));
    }
  }

  function Flatten(parts: seq<seq<Pick>>, n: nat): seq<Pick>
    requires n <= |parts|
  {
    if n == 0 then [] else Flatten(parts, n - 1) + parts[n - 1]
  }

  /** The pair that a stimulus selects and the receiver follows, if any. */
  ghost function VisitedAt(r: Recv, m: Stimulus): seq<Pick>
    requires r.Valid()
  {
    if Follows(r, m) then [PickBy(r, m).value] else []
  }

  /** The pairs selected and followed in the first `n` stimuli of a run. */
  ghost function Visited(r: Recv, ms: seq<Stimulus>, n: nat): seq<Pick>
    requires r.Valid() && n <= |ms|
  {
    Flatten(seq(n, i requires 0 <= i < n => VisitedAt(After(r, ms, i), ms[i])), n)
  }

  lemma EffectFollows(r: Recv, m: Stimulus)
    requires r.Valid()
    ensures FollowedBy(EffectOf(r, m)) == VisitedAt(r, m)
  {
  }

  lemma EffectAtFollows(r: Recv, ms: seq<Stimulus>, qs: seq<Recv>, es: seq<Effect>, i: nat)
    requires r.Valid() && States(r, ms, qs) && Effects(qs, ms, es) && i < |ms|
    ensures FollowedBy(es[i]) == VisitedAt(After(r, ms, i), ms[i])
  {
    assert qs[i] == After(r, ms, i);
    EffectFollows(qs[i], ms[i]);
  }

  lemma {:induction false} FlattenFollowed(parts: seq<seq<Pick>>, es: seq<Effect>, n: nat)
    requires n <= |parts| && n <= |es| && forall i :: 0 <= i < n ==> parts[i] == FollowedBy(es[i])
    ensures Flatten(parts, n) == FollowedPairs(es, n)
  {
    if n > 0 {
      FlattenFollowed(parts, es, n - 1);
    }
  }

  lemma VisitedIsFollowed(r: Recv, ms: seq<Stimulus>, qs: seq<Recv>, es: seq<Effect>, n: nat)
    requires r.Valid() && States(r, ms, qs) && Effects(qs, ms, es) && n <= |ms|
    ensures Visited(r, ms, n) == FollowedPairs(es, n)
  {
    var parts := seq(n, i requires 0 <= i < n => VisitedAt(After(r, ms, i), ms[i]));
    forall i | 0 <= i < n ensures parts[i] == FollowedBy(es[i]) {
      EffectAtFollows(r, ms, qs, es, i);
    }
    FlattenFollowed(parts, es, n);
  }

  /**
   In every run the pairs of group and frequency reported to the hub are exactly the pairs
   selected and followed, in order.
   */
  lemma ReportsAreVisits(c: Config, ms: seq<Stimulus>, n: nat)
    requires n <= |ms|
    ensures var log := After(Boot(c), ms, n).hub;
            Reported(log, |log|) == Visited(Boot(c), ms, n)
  {
    var qs := StatesExist(Boot(c), ms);
    var es := EffectsExist(Boot(c), ms, qs);
    var o := BootOutline(c.freq);
    RunShown(c, ms, qs, es, n);
    EffectsPlain(qs, ms, es);
    ReportedAlong(o, es, n);
    ReportedStep(START, Site(c.freq));
    assert Reported(o.hub, |o.hub|) == [];
    VisitedIsFollowed(Boot(c), ms, qs, es, n);
  }

  /** Every visit begins on the control channel. */
  ghost predicate FollowsFromControl(o: Outline, es: seq<Effect>) {
    forall i :: 0 <= i < |es| && es[i].Follow? ==> OutlineAfter(o, es, i).on
  }

  lemma {:induction false} WellOrderedAlong(o: Outline, es: seq<Effect>, n: nat)
    requires WellOrdered(o) && n <= |es| && forall e :: e in es ==> e.Plain()
    ensures WellOrdered(OutlineAfter(o, es, n))
  {
    if n > 0 {
      WellOrderedAlong(o, es, n - 1);
      assert es[n - 1] in es;
      WellOrderedStep(OutlineAfter(o, es, n - 1), es[n - 1]);
    }
  }

  ghost predicate Separated(o: Outline) {
    WellOrdered(o) && GroupsAreSeparated(o.hub)
  }

  lemma SeparatedNext(o: Outline, e: Effect)
    requires Separated(o) && e.Plain() && (e.Follow? ==> o.on)
    ensures Separated(o.Do(e))
  {
    WellOrderedStep(o, e);
    SeparatedStep(o, e);
  }

  lemma {:induction false} SeparatedAlong(o: Outline, es: seq<Effect>, n: nat)
    requires Separated(o) && n <= |es| && forall e :: e in es ==> e.Plain()
    requires FollowsFromControl(o, es)
    ensures Separated(OutlineAfter(o, es, n))
  {
    if n > 0 {
      SeparatedAlong(o, es, n - 1);
      assert es[n - 1] in es;
      SeparatedNext(OutlineAfter(o, es, n - 1), es[n - 1]);
    }
  }

  lemma BootWellOrdered(freq: Freq)
    ensures WellOrdered(BootOutline(freq)) && GroupsAreSeparated(BootOutline(freq).hub)
  {
    WellOrderedStep(START, Site(freq));
  }

  /**
   In every run the tunings reported to the hub are those commanded to the SDR, every site is
   tuned to as soon as it is announced, every talkgroup follows a tuning, and the pairs so
   reported are those selected and followed.
   */
  lemma HopGrammar(c: Config, ms: seq<Stimulus>, n: nat)
    requires n <= |ms|
    ensures var r := After(Boot(c), ms, n);
            && Tunings(r.hub, |r.hub|) == r.sdr
            && SitesAreTuned(r.hub) && GroupsAreTuned(r.hub)
            && Reported(r.hub, |r.hub|) == Visited(Boot(c), ms, n)
            && CtlAt(r.hub, |r.hub|) == r.ctlfreq
  {
    var qs := StatesExist(Boot(c), ms);
    var es := EffectsExist(Boot(c), ms, qs);
    RunShown(c, ms, qs, es, n);
    EffectsPlain(qs, ms, es);
    BootWellOrdered(c.freq);
    WellOrderedAlong(BootOutline(c.freq), es, n);
    ReportsAreVisits(c, ms, n);
  }

  /** Without preemption every visit begins on control. */
  lemma NoPreemptFollows(c: Config, ms: seq<Stimulus>, qs: seq<Recv>, es: seq<Effect>)
    requires c.preempt == {} && States(Boot(c), ms, qs) && Effects(qs, ms, es)
    ensures FollowsFromControl(BootOutline(c.freq), es)
  {
    BootNoPreempt(c);
    forall i | 0 <= i < |es| && es[i].Follow? ensures OutlineAfter(BootOutline(c.freq), es, i).on {
      RunShown(c, ms, qs, es, i);
      NoPreemptAlways(Boot(c), ms, i);
      assert qs[i] == After(Boot(c), ms, i);
      FollowFromControl(qs[i], ms[i]);
    }
  }

  /** Without preemption two visits are always separated by a retune to the control channel. */
  lemma VisitsAreSeparated(c: Config, ms: seq<Stimulus>, n: nat)
    requires c.preempt == {} && n <= |ms|
    ensures GroupsAreSeparated(After(Boot(c), ms, n).hub)
  {
    var qs := StatesExist(Boot(c), ms);
    var es := EffectsExist(Boot(c), ms, qs);
    RunShown(c, ms, qs, es, n);
    EffectsPlain(qs, ms, es);
    NoPreemptFollows(c, ms, qs, es);
    BootWellOrdered(c.freq);
    SeparatedAlong(BootOutline(c.freq), es, n);
  }
}
