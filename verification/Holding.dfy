/** How voice keeps a visit going. */
module Holding {
  import opened P25
  import opened Words
  import opened Policy
  import opened Receiver
  import opened ReceiverTask
  import opened History
  import opened Tuning
  import opened Pacing

  /** The sample completes no terminator, no call termination and no sign of encryption. */
  predicate Calm(s: Option<MessageEvent>) {
    s.Some? ==>
      match s.value
      case PacketNID(u) => !u.Terminator()
      case HeaderPacket(alg) => alg == Unencrypted
      case CryptoControlPacket(alg) => alg == Unencrypted
      case LinkControlPacket(lc) => lc != CallTermination
      case VoiceTermPacket(lc) => lc != CallTermination
      case _ => true
  }

  predicate HasVoice(s: Option<MessageEvent>) {
    s.Some? && s.value.PacketNID? && s.value.dataUnit.Voice()
  }

  /** A stimulus from a calm sample. */
  predicate Gentle(m: Stimulus) {
    Inner(m) && !Ending(m)
  }

  predicate Ending(m: Stimulus) {
    m.TermSeen? || m.CryptoSeen? || (m.NidSeen? && m.dataUnit.Terminator())
  }

  lemma CalmIsGentle(s: Option<MessageEvent>)
    requires Calm(s)
    ensures forall m :: m in OfSample(s) ==> Gentle(m)
  {
  }

  lemma {:induction false} CalmIsGentleAlong(samples: seq<Option<MessageEvent>>, n: nat)
    requires n <= |samples| && forall s :: s in samples ==> Calm(s)
    ensures forall m :: m in OfSamples(samples, n) ==> Gentle(m)
  {
    if n > 0 {
      CalmIsGentleAlong(samples, n - 1);
      assert samples[n - 1] in samples;
      CalmIsGentle(samples[n - 1]);
    }
  }

  ghost predicate VoiceIn(ms: seq<Stimulus>) {
    exists i :: 0 <= i < |ms| && VoiceNid(ms[i])
  }

  lemma VoiceInEither(a: seq<Stimulus>, b: seq<Stimulus>)
    ensures VoiceIn(a) || VoiceIn(b) ==> VoiceIn(a + b)
  {
    if VoiceIn(a) {
      var i :| 0 <= i < |a| && VoiceNid(a[i]);
      assert VoiceNid((a + b)[i]);
    } else if VoiceIn(b) {
      var i :| 0 <= i < |b| && VoiceNid(b[i]);
      assert VoiceNid((a + b)[|a| + i]);
    }
  }

  lemma VoiceSampleIsSeen(s: Option<MessageEvent>)
    requires HasVoice(s)
    ensures VoiceIn(OfSample(s))
  {
    assert VoiceNid(OfSample(s)[0]);
  }

  lemma {:induction false} VoiceIsSeen(samples: seq<Option<MessageEvent>>, k: nat, n: nat)
    requires k < n <= |samples| && HasVoice(samples[k])
    ensures VoiceIn(OfSamples(samples, n))
  {
    if k < n - 1 {
      VoiceIsSeen(samples, k, n - 1);
    }
    VoiceSeenNext(samples, n - 1);
  }

  lemma VoiceSeenNext(samples: seq<Option<MessageEvent>>, n: nat)
    requires n < |samples|
    ensures VoiceIn(OfSamples(samples, n)) || HasVoice(samples[n]) ==> VoiceIn(OfSamples(samples, n + 1))
  {
    if HasVoice(samples[n]) {
      VoiceSampleIsSeen(samples[n]);
    }
    VoiceInEither(OfSamples(samples, n), OfSample(samples[n]));
  }

  // ---------------------------------------------------------------- within a chunk

  /** A visit whose watchdog has just been restarted. */
  ghost predicate Restarted(p: PolicyState) {
    p.state.Traffic? && p.state.t == Timer(p.watchdogTime, 0)
  }

  /** Off control, with the settings of `start`. */
  ghost predicate Away(p: PolicyState, start: PolicyState) {
    !p.OnControl() && p.TimerOk() && p == start.(state := p.state)
  }

  lemma GentleStep(p: PolicyState, m: Stimulus, follows: bool, start: PolicyState)
    requires Away(p, start) && Gentle(m)
    ensures Away(PolicyNext(p, m, follows), start)
    ensures Restarted(p) || VoiceNid(m) ==> Restarted(PolicyNext(p, m, follows))
  {
  }

  ghost predicate VoiceBefore(ms: seq<Stimulus>, n: nat)
    requires n <= |ms|
  {
    exists i :: 0 <= i < n && VoiceNid(ms[i])
  }

  /** A visit goes on, its watchdog restarted if `spoken`. */
  ghost predicate GoesOn(p: PolicyState, start: PolicyState, spoken: bool) {
    Away(p, start) && (spoken ==> Restarted(p))
  }

  lemma GentleNext(r: Recv, ms: seq<Stimulus>, n: nat, start: PolicyState)
    requires r.Valid() && n < |ms| && Gentle(ms[n]) && GoesOn(r.policy, start, VoiceBefore(ms, n))
    ensures GoesOn(r.Apply(ms[n]).policy, start, VoiceBefore(ms, n + 1))
  {
    PolicyStep(r, ms[n]);
    GentleStep(r.policy, ms[n], Follows(r, ms[n]), start);
  }

  /** Calm samples never end a visit, and voice among them restarts the watchdog. */
  lemma {:induction false} GentleRun(r: Recv, ms: seq<Stimulus>, n: nat)
    requires r.Valid() && !r.OnControl() && r.policy.TimerOk()
    requires n <= |ms| && forall m :: m in ms ==> Gentle(m)
    ensures GoesOn(After(r, ms, n).policy, r.policy, VoiceBefore(ms, n))
  {
    if n > 0 {
      GentleRun(r, ms, n - 1);
      assert ms[n - 1] in ms;
      GentleNext(After(r, ms, n - 1), ms, n - 1, r.policy);
    }
  }

  /** The tick after a restart returns to control iff it is as long as the watchdog time. */
  lemma TickAfterRestart(p: PolicyState, n: nat, follows: bool)
    requires Restarted(p) && n < Pow2(p.bits)
    ensures var q := PolicyNext(p, Tick(n), false);
            if n < p.watchdogTime then q == p.(state := p.state.(t := Timer(p.watchdogTime, n)))
            else q.OnControl()
  {
  }

  // ---------------------------------------------------------------- whole chunks

  /** A calm chunk with a voice unit in it. */
  ghost predicate Speaks(samples: seq<Option<MessageEvent>>) {
    && (forall s :: s in samples ==> Calm(s))
    && (exists k :: 0 <= k < |samples| && HasVoice(samples[k]))
  }

  ghost predicate NeverOnControl(r: Recv, ms: seq<Stimulus>)
    requires r.Valid()
  {
    forall i :: 0 <= i <= |ms| ==> !After(r, ms, i).OnControl()
  }

  lemma NeverConcat(r: Recv, a: seq<Stimulus>, b: seq<Stimulus>)
    requires r.Valid() && NeverOnControl(r, a) && NeverOnControl(Run(r, a), b)
    ensures NeverOnControl(r, a + b)
  {
    forall i | 0 <= i <= |a + b| ensures !After(r, a + b, i).OnControl() {
      NeverAt(r, a, b, i);
    }
  }

  lemma NeverAt(r: Recv, a: seq<Stimulus>, b: seq<Stimulus>, i: nat)
    requires r.Valid() && NeverOnControl(r, a) && NeverOnControl(Run(r, a), b) && i <= |a + b|
    ensures !After(r, a + b, i).OnControl()
  {
    if i <= |a| {
      var q := After(r, a, i);
      assert !q.OnControl();
      SameAs(r, a, b, i, q);
    } else {
      var q := After(Run(r, a), b, i - |a|);
      assert !q.OnControl();
      SameAs(r, a, b, i, q);
    }
  }

  lemma SameAs(r: Recv, a: seq<Stimulus>, b: seq<Stimulus>, i: nat, q: Recv)
    requires r.Valid() && i <= |a + b|
    requires q == if i <= |a| then After(r, a, i) else After(Run(r, a), b, i - |a|)
    ensures After(r, a + b, i) == q
  {
    if i <= |a| {
      AfterPrefix(r, a, b, i);
    } else {
      AfterConcat(r, a, b, i - |a|);
    }
  }

  lemma NeverOne(r: Recv, m: Stimulus)
    requires r.Valid() && !r.OnControl() && !r.Apply(m).OnControl()
    ensures NeverOnControl(r, [m])
  {
    RunOne(r, m);
    assert After(r, [m], 0) == r && After(r, [m], 1) == r.Apply(m);
  }

  lemma ClockKeepsPolicy(r: Recv, k: nat)
    requires r.Valid()
    ensures r.Apply(Clock(k)).policy == r.policy
  {
  }

  lemma TickAtRestart(q: Recv, k: nat)
    requires q.Valid() && Restarted(q.policy) && k < Pow2(q.policy.bits)
    ensures if k < q.policy.watchdogTime
            then Away(q.Apply(Tick(k)).policy, q.policy) && q.Apply(Tick(k)).policy.state.Traffic?
            else q.Apply(Tick(k)).OnControl()
  {
    PolicyStep(q, Tick(k));
    assert !Follows(q, Tick(k));
    TickAfterRestart(q.policy, k, false);
  }

  /** Off control, before the tick of a chunk that speaks, the watchdog has been restarted. */
  lemma SpokenTo(r: Recv, samples: seq<Option<MessageEvent>>)
    requires r.Valid() && !r.OnControl() && r.policy.TimerOk() && Speaks(samples)
    ensures var start, ms := r.Apply(Clock(|samples|)), OfSamples(samples, |samples|);
            && NeverOnControl(start, ms)
            && Away(Run(start, ms).policy, r.policy) && Restarted(Run(start, ms).policy)
  {
    var start, ms := r.Apply(Clock(|samples|)), OfSamples(samples, |samples|);
    ClockKeepsPolicy(r, |samples|);
    CalmIsGentleAlong(samples, |samples|);
    var k: nat :| k < |samples| && HasVoice(samples[k]);
    VoiceIsSeen(samples, k, |samples|);
    GentleRun(start, ms, |ms|);
    forall i | 0 <= i <= |ms| ensures !After(start, ms, i).OnControl() {
      GentleRun(start, ms, i);
    }
  }

  /** Off control, a chunk that speaks ends on control iff it is as long as the watchdog time. */
  lemma ChunkHoldsIff(r: Recv, samples: seq<Option<MessageEvent>>)
    requires r.Valid() && !r.OnControl() && r.policy.TimerOk() && Speaks(samples)
    requires |samples| < Pow2(r.policy.bits)
    ensures var q := Run(r, OfEvent(Baseband(samples)));
            if |samples| < r.policy.watchdogTime then Away(q.policy, r.policy) && q.policy.state.Traffic?
            else q.OnControl()
  {
    ChunkRun(r, samples);
    SpokenTo(r, samples);
    TickAtRestart(Run(r.Apply(Clock(|samples|)), OfSamples(samples, |samples|)), |samples|);
  }

  lemma ChunkHolds(r: Recv, samples: seq<Option<MessageEvent>>)
    requires r.Valid() && !r.OnControl() && r.policy.TimerOk() && Speaks(samples)
    requires |samples| < Pow2(r.policy.bits) && |samples| < r.policy.watchdogTime
    ensures NeverOnControl(r, OfEvent(Baseband(samples)))
  {
    var k, inner := |samples|, OfSamples(samples, |samples|);
    var start := r.Apply(Clock(k));
    ClockKeepsPolicy(r, k);
    SpokenTo(r, samples);
    TickAtRestart(Run(start, inner), k);
    NeverOne(r, Clock(k));
    NeverOne(Run(start, inner), Tick(k));
    RunOne(r, Clock(k));
    NeverConcat(r, [Clock(k)], inner);
    RunConcat(r, [Clock(k)], inner);
    NeverConcat(r, [Clock(k)] + inner, [Tick(k)]);
  }

  /** Chunks that all speak and are shorter than the watchdog time. */
  ghost predicate Conversation(events: seq<RecvEvent>, p: PolicyState) {
    forall e :: e in events ==>
      e.Baseband? && Speaks(e.samples) && |e.samples| < p.watchdogTime && |e.samples| < Pow2(p.bits)
  }

  ghost predicate Held(r: Recv, ms: seq<Stimulus>)
    requires r.Valid()
  {
    NeverOnControl(r, ms) && Away(Run(r, ms).policy, r.policy)
  }

  lemma HeldNext(r: Recv, ms: seq<Stimulus>, samples: seq<Option<MessageEvent>>)
    requires r.Valid() && Held(r, ms) && Speaks(samples)
    requires |samples| < r.policy.watchdogTime && |samples| < Pow2(r.policy.bits)
    ensures var next := ms + OfEvent(Baseband(samples));
            Held(r, next) && Run(r, next).policy.state.Traffic?
  {
    ChunkHolds(Run(r, ms), samples);
    ChunkHoldsIff(Run(r, ms), samples);
    NeverConcat(r, ms, OfEvent(Baseband(samples)));
    RunConcat(r, ms, OfEvent(Baseband(samples)));
  }

  ghost predicate HeldUntil(r: Recv, events: seq<RecvEvent>, n: nat)
    requires r.Valid() && n <= |events|
  {
    var ms := OfEvents(events, n);
    Held(r, ms) && (n > 0 ==> Run(r, ms).policy.state.Traffic?)
  }

  lemma HeldAtFirst(r: Recv, events: seq<RecvEvent>)
    requires r.Valid() && !r.OnControl() && r.policy.TimerOk()
    ensures HeldUntil(r, events, 0)
  {
    assert After(r, [], 0) == r;
  }

  lemma HeldEvent(r: Recv, events: seq<RecvEvent>, n: nat)
    requires r.Valid() && 0 < n <= |events| && Conversation(events, r.policy) && HeldUntil(r, events, n - 1)
    ensures HeldUntil(r, events, n)
  {
    assert events[n - 1] in events;
    HeldNext(r, OfEvents(events, n - 1), events[n - 1].samples);
  }

  /**
   While every chunk brings a voice unit, and no terminator, call termination, sign of encryption
   or request, and is shorter than the watchdog time, the receiver never returns to control.
   */
  lemma {:induction false} VoiceHoldsVisit(r: Recv, events: seq<RecvEvent>, n: nat)
    requires r.Valid() && !r.OnControl() && r.policy.TimerOk()
    requires n <= |events| && Conversation(events, r.policy)
    ensures HeldUntil(r, events, n)
  {
    if n == 0 {
      HeldAtFirst(r, events);
    } else {
      VoiceHoldsVisit(r, events, n - 1);
      HeldEvent(r, events, n);
    }
  }
}
