/** Which visits a voice decoder serves: it is replaced at every end of transmission. */
module Audio {
  import opened P25
  import opened Words
  import opened Receiver
  import opened History
  import opened Outline
  import opened HopLog
  import opened Reaching

  /** Ends of transmission before position `n`: the decoder that plays the frame there. */
  function Generation(audio: seq<AudioEvent>, n: nat): nat
    requires n <= |audio|
  {
    if n == 0 then 0 else Generation(audio, n - 1) + if audio[n - 1].EndTransmission? then 1 else 0
  }

  lemma {:induction false} GenerationPrefix(a: seq<AudioEvent>, b: seq<AudioEvent>, n: nat)
    requires n <= |a|
    ensures Generation(a + b, n) == Generation(a, n)
  {
    if n > 0 {
      GenerationPrefix(a, b, n - 1);
    }
  }

  /** A frame sent during a visit is played by the decoder in use when the visit began. */
  ghost predicate FramesByVisit(o: Outline) {
    && |o.tags| == |o.audio|
    && forall i :: 0 <= i < |o.tags| && o.tags[i].Some? ==>
         && o.audio[i].Voice? && o.tags[i].value < |o.visits|
         && Generation(o.audio, i) == o.visits[o.tags[i].value].generation
  }

  /** Consecutive visits have different decoders exactly if the later began on control. */
  ghost predicate VisitOrder(o: Outline) {
    forall i :: 0 < i < |o.visits| ==>
      && o.visits[i - 1].generation <= o.visits[i].generation
      && (o.visits[i - 1].generation < o.visits[i].generation <==> o.visits[i].fromControl)
  }

  /** On control the last visit's decoder has been replaced; off control it is in use. */
  ghost predicate Current(o: Outline) {
    && Generation(o.audio, |o.audio|) == o.generation
    && (!o.on ==> o.visits != [])
    && (o.visits != [] ==>
          var last := o.visits[|o.visits| - 1].generation;
          if o.on then last < o.generation else last == o.generation)
  }

  ghost predicate Audible(o: Outline) {
    FramesByVisit(o) && VisitOrder(o) && Current(o)
  }

  lemma FramesStep(o: Outline, e: Effect)
    requires Audible(o)
    ensures FramesByVisit(o.Do(e))
  {
    var q := o.Do(e);
    GenerationPrefix(o.audio, e.AudioPart(), |o.audio|);
    forall i | 0 <= i < |q.tags| && q.tags[i].Some?
      ensures && q.audio[i].Voice? && q.tags[i].value < |q.visits|
              && Generation(q.audio, i) == q.visits[q.tags[i].value].generation
    {
      if i < |o.audio| {
        GenerationPrefix(o.audio, e.AudioPart(), i);
        assert q.tags[i] == o.tags[i];
      }
    }
  }

  lemma CurrentStep(o: Outline, e: Effect)
    requires Current(o)
    ensures Current(o.Do(e))
  {
    GenerationPrefix(o.audio, e.AudioPart(), |o.audio|);
  }

  lemma VisitStep(o: Outline, e: Effect)
    requires Current(o) && VisitOrder(o)
    ensures VisitOrder(o.Do(e))
  {
    var q := o.Do(e);
    if e.Follow? {
      assert forall i :: 0 <= i < |o.visits| ==> q.visits[i] == o.visits[i];
    }
  }

  lemma {:induction false} AudibleAlong(o: Outline, es: seq<Effect>, n: nat)
    requires Audible(o) && n <= |es|
    ensures Audible(OutlineAfter(o, es, n))
  {
    if n > 0 {
      AudibleAlong(o, es, n - 1);
      FramesStep(OutlineAfter(o, es, n - 1), es[n - 1]);
      CurrentStep(OutlineAfter(o, es, n - 1), es[n - 1]);
      VisitStep(OutlineAfter(o, es, n - 1), es[n - 1]);
    }
  }

  lemma BootAudible(freq: Freq)
    ensures Audible(BootOutline(freq))
  {
    FramesStep(START, Site(freq));
    CurrentStep(START, Site(freq));
    VisitStep(START, Site(freq));
  }

  /**
   In every run a visit is cut off from the previous one by an end of transmission if and only
   if it began on the control channel, that is, unless it preempted a call.
   */
  lemma TransmissionEndsIff(c: Config, ms: seq<Stimulus>, qs: seq<Recv>, es: seq<Effect>, v: nat)
    requires States(Boot(c), ms, qs) && Effects(qs, ms, es)
    requires 0 < v < |OutlineAfter(BootOutline(c.freq), es, |es|).visits|
    ensures var visits := OutlineAfter(BootOutline(c.freq), es, |es|).visits;
            visits[v - 1].generation < visits[v].generation <==> visits[v].fromControl
  {
    BootAudible(c.freq);
    AudibleAlong(BootOutline(c.freq), es, |es|);
  }

  /** Every visit began on control. */
  ghost predicate AllFromControl(o: Outline) {
    forall v :: 0 <= v < |o.visits| ==> o.visits[v].fromControl
  }

  lemma {:induction false} LaterVisit(o: Outline, v: nat, w: nat)
    requires VisitOrder(o) && v < w < |o.visits|
    requires forall i :: v < i <= w ==> o.visits[i].fromControl
    ensures o.visits[v].generation < o.visits[w].generation
  {
    if v < w - 1 {
      LaterVisit(o, v, w - 1);
    }
    assert o.visits[w - 1].generation < o.visits[w].generation;
  }

  lemma {:induction false} VisitsFromControl(o: Outline, es: seq<Effect>, n: nat)
    requires n <= |es| && FollowsFromControl(o, es)
    requires AllFromControl(o)
    ensures AllFromControl(OutlineAfter(o, es, n))
  {
    if n > 0 {
      VisitsFromControl(o, es, n - 1);
    }
  }

  /** Frames played by the same decoder were sent in the same visit. */
  lemma SameDecoderSameVisit(o: Outline, i: nat, j: nat)
    requires Audible(o) && AllFromControl(o) && i < |o.tags| && j < |o.tags|
    requires o.tags[i].Some? && o.tags[j].Some? && Generation(o.audio, i) == Generation(o.audio, j)
    ensures o.tags[i] == o.tags[j]
  {
    var v, w := o.tags[i].value, o.tags[j].value;
    if v < w {
      LaterVisit(o, v, w);
    } else if w < v {
      LaterVisit(o, w, v);
    }
  }

  /** The outline of a run, where every decoder serves one visit if nothing preempts. */
  lemma RunAudible(c: Config, ms: seq<Stimulus>, qs: seq<Recv>, es: seq<Effect>)
    requires States(Boot(c), ms, qs) && Effects(qs, ms, es)
    ensures var o := OutlineAfter(BootOutline(c.freq), es, |es|);
            Audible(o) && o.audio == qs[|ms|].audio && (c.preempt == {} ==> AllFromControl(o))
  {
    RunShown(c, ms, qs, es, |es|);
    BootAudible(c.freq);
    AudibleAlong(BootOutline(c.freq), es, |es|);
    if c.preempt == {} {
      NoPreemptFollows(c, ms, qs, es);
      VisitsFromControl(BootOutline(c.freq), es, |es|);
    }
  }

  /** Without preemption no decoder plays frames of two different visits. */
  lemma DecodersServeOneVisit(c: Config, ms: seq<Stimulus>, qs: seq<Recv>, es: seq<Effect>, i: nat, j: nat)
    requires c.preempt == {} && States(Boot(c), ms, qs) && Effects(qs, ms, es)
    requires var o := OutlineAfter(BootOutline(c.freq), es, |es|);
             && i < j < |o.tags| && |o.tags| == |o.audio| && o.tags[i].Some? && o.tags[j].Some?
             && Generation(o.audio, i) == Generation(o.audio, j)
    ensures var o := OutlineAfter(BootOutline(c.freq), es, |es|);
            o.audio == qs[|ms|].audio && o.tags[i] == o.tags[j]
  {
    RunAudible(c, ms, qs, es);
    SameDecoderSameVisit(OutlineAfter(BootOutline(c.freq), es, |es|), i, j);
  }

  // ---------------------------------------------------------------- preemption

  /** Frames before and after a visit that begins off control are played by one decoder. */
  ghost predicate SharesDecoder(o: Outline, i: nat) {
    && i + 1 < |o.tags| && |o.tags| == |o.audio|
    && o.audio[i].Voice? && o.audio[i + 1].Voice?
    && o.tags[i].Some? && o.tags[i + 1].Some? && o.tags[i] != o.tags[i + 1]
    && Generation(o.audio, i) == Generation(o.audio, i + 1)
  }

  lemma FollowSharesDecoder(o: Outline, a: VoiceFrame, e: Effect, b: VoiceFrame)
    requires Audible(o) && !o.on && e.Follow?
    ensures SharesDecoder(o.Do(Frame(a)).Do(e).Do(Frame(b)), |o.audio|)
  {
    var q := o.Do(Frame(a)).Do(e).Do(Frame(b));
    assert q.audio == o.audio + [Voice(a), Voice(b)];
  }

  /** Off control, any preempting candidate starts such a visit. */
  lemma PreemptionFollowsOffControl(r: Recv)
    requires r.Valid() && r.hopping && !r.OnControl() && r.talkgroups.curPreempt != []
    ensures EffectOf(r, PreemptCheck).Follow?
    ensures EffectOf(r, PreemptCheck).pick.group in r.talkgroups.curPreempt
    ensures !r.Apply(PreemptCheck).OnControl()
  {
    StateShown(r, PreemptCheck);
  }

  /** A frame, a preempting update, and another frame. */
  function Interrupted(a: VoiceFrame, b: VoiceFrame): seq<Stimulus> {
    [FrameSeen(a), PreemptCheck, FrameSeen(b)]
  }

  lemma InterruptedEffects(r: Recv, a: VoiceFrame)
    requires r.Valid() && r.hopping && !r.OnControl() && r.talkgroups.curPreempt != []
    ensures EffectOf(r.Apply(FrameSeen(a)), PreemptCheck).Follow?
  {
    PreemptionFollowsOffControl(r.Apply(FrameSeen(a)));
  }

  lemma InterruptedStates(r: Recv, past: seq<Stimulus>, more: seq<Stimulus>, qs: seq<Recv>)
    requires r.Valid() && States(r, past + more, qs) && more != []
    ensures qs[|past|] == Run(r, past) && qs[|past| + 1] == Run(r, past).Apply(more[0])
  {
    AfterPrefix(r, past, more, |past|);
    assert qs[|past|] == After(r, past + more, |past|);
    StateStep(r, past + more, qs, |past|);
  }

  lemma InterruptedRun(r: Recv, past: seq<Stimulus>, a: VoiceFrame, b: VoiceFrame,
                       qs: seq<Recv>, es: seq<Effect>)
    requires r.Valid() && States(r, past + Interrupted(a, b), qs) && Effects(qs, past + Interrupted(a, b), es)
    requires var q := Run(r, past);
             !q.OnControl() && q.hopping && q.talkgroups.curPreempt != []
    ensures var n := |past|;
            && |es| == n + 3 && qs[n] == Run(r, past)
            && es[n] == Frame(a) && es[n + 1].Follow? && es[n + 2] == Frame(b)
  {
    var more, n := Interrupted(a, b), |past|;
    InterruptedStates(r, past, more, qs);
    InterruptedEffects(Run(r, past), a);
    assert es[n] == EffectOf(qs[n], more[0]);
    assert es[n + 1] == EffectOf(qs[n + 1], more[1]);
    assert es[n + 2] == EffectOf(qs[n + 2], more[2]);
  }

  lemma AudibleAt(c: Config, ms: seq<Stimulus>, qs: seq<Recv>, es: seq<Effect>, n: nat)
    requires States(Boot(c), ms, qs) && Effects(qs, ms, es) && n <= |ms|
    ensures var o := OutlineAfter(BootOutline(c.freq), es, n);
            Audible(o) && o.on == qs[n].OnControl() && o.audio == qs[n].audio
  {
    RunShown(c, ms, qs, es, n);
    BootAudible(c.freq);
    AudibleAlong(BootOutline(c.freq), es, n);
  }

  lemma ThreeEffects(o: Outline, es: seq<Effect>, n: nat, a: VoiceFrame, b: VoiceFrame)
    requires n + 3 == |es| && es[n] == Frame(a) && es[n + 1].Follow? && es[n + 2] == Frame(b)
    requires Audible(OutlineAfter(o, es, n)) && !OutlineAfter(o, es, n).on
    ensures SharesDecoder(OutlineAfter(o, es, |es|), |OutlineAfter(o, es, n).audio|)
  {
    ThreeSteps(o, es, n);
    FollowSharesDecoder(OutlineAfter(o, es, n), a, es[n + 1], b);
  }

  /**
   From every reachable state off control, with hopping and a preempting candidate, a frame, an
   update and another frame put two visits on the same decoder.
   */
  lemma PreemptingVisitSharesDecoder(c: Config, past: seq<Stimulus>, a: VoiceFrame, b: VoiceFrame,
                                     qs: seq<Recv>, es: seq<Effect>)
    requires var r := Run(Boot(c), past);
             !r.OnControl() && r.hopping && r.talkgroups.curPreempt != []
    requires States(Boot(c), past + Interrupted(a, b), qs) && Effects(qs, past + Interrupted(a, b), es)
    ensures var o := OutlineAfter(BootOutline(c.freq), es, |es|);
            o.audio == qs[|past| + 3].audio && SharesDecoder(o, |Run(Boot(c), past).audio|)
  {
    InterruptedRun(Boot(c), past, a, b, qs, es);
    AudibleAt(c, past + Interrupted(a, b), qs, es, |past|);
    RunAudible(c, past + Interrupted(a, b), qs, es);
    ThreeEffects(BootOutline(c.freq), es, |past|, a, b);
  }

  lemma ThreeSteps(o: Outline, es: seq<Effect>, n: nat)
    requires n + 3 == |es|
    ensures OutlineAfter(o, es, |es|) == OutlineAfter(o, es, n).Do(es[n]).Do(es[n + 1]).Do(es[n + 2])
  {
    assert OutlineAfter(o, es, n + 1) == OutlineAfter(o, es, n).Do(es[n]);
    assert OutlineAfter(o, es, n + 2) == OutlineAfter(o, es, n + 1).Do(es[n + 1]);
  }

  /** Such states are reached, and so a decoder shared by two visits is. */
  lemma SharedDecoderIsReachable(c: Config, g: Group, h: Group, ch: Channel, params: ChannelParams,
                                 a: VoiceFrame, b: VoiceFrame)
      returns (ms: seq<Stimulus>, qs: seq<Recv>, es: seq<Effect>, i: nat)
    requires c.hopping && !c.filter.Excluded(g) && !c.filter.Excluded(h) && h in c.preempt
    requires c.select < Pow2(c.bits)
    ensures States(Boot(c), ms, qs) && Effects(qs, ms, es)
    ensures SharesDecoder(OutlineAfter(BootOutline(c.freq), es, |es|), i)
  {
    var past := FirstVisit(c, g, ch, params) + [GrantSeen(Other(h), ch)];
    PreemptionIsReachable(c, g, h, ch, params);
    ms := past + Interrupted(a, b);
    qs := StatesExist(Boot(c), ms);
    es := EffectsExist(Boot(c), ms, qs);
    i := |Run(Boot(c), past).audio|;
    PreemptingVisitSharesDecoder(c, past, a, b, qs, es);
  }
}
