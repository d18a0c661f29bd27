/**
 How whole chunks pace the two clocks of the receiver: the talkgroup clock advances at the
 start of a chunk, the policy timer at its end.
 */
module Pacing {
  import opened P25
  import opened Words
  import opened Policy
  import opened Talkgroups
  import opened Receiver
  import opened History
  import opened Tuning

  // ---------------------------------------------------------------- the shape of events

  /** Samples already on the talkgroup clock but not yet on the policy timer. */
  ghost function Pending(ms: seq<Stimulus>, n: nat): int
    requires n <= |ms|
  {
    if n == 0 then 0 else Pending(ms, n - 1) + Moved(ms[n - 1])
  }

  function Moved(m: Stimulus): int {
    match m
    case Clock(k) => k
    case Tick(k) => 0 - k
    case _ => 0
  }

  /** The stimulus comes when `pending` samples wait for the policy timer. */
  predicate OnPace(m: Stimulus, pending: int) {
    match m
    case Clock(_) => pending == 0
    case Tick(k) => pending == k
    case Retune(_) => pending == 0
    case _ => true
  }

  ghost predicate Paced(ms: seq<Stimulus>) {
    forall n {:trigger OnPace(ms[n], Pending(ms, n))} :: 0 <= n < |ms| ==> OnPace(ms[n], Pending(ms, n))
  }

  /** Stimuli that come from samples, in the middle of a chunk. */
  predicate Inner(m: Stimulus) {
    !m.Clock? && !m.Tick? && !m.Retune?
  }

  lemma SampleInner(s: Option<MessageEvent>)
    ensures forall m :: m in OfSample(s) ==> Inner(m)
  {
  }

  lemma {:induction false} SamplesInner(samples: seq<Option<MessageEvent>>, n: nat)
    requires n <= |samples|
    ensures forall m :: m in OfSamples(samples, n) ==> Inner(m)
  {
    if n > 0 {
      SamplesInner(samples, n - 1);
      SampleInner(samples[n - 1]);
    }
  }

  lemma {:induction false} PendingPrefix(a: seq<Stimulus>, b: seq<Stimulus>, n: nat)
    requires n <= |a|
    ensures Pending(a + b, n) == Pending(a, n)
  {
    if n > 0 {
      PendingPrefix(a, b, n - 1);
    }
  }

  lemma {:induction false} PendingConcat(a: seq<Stimulus>, b: seq<Stimulus>, n: nat)
    requires n <= |b|
    ensures Pending(a + b, |a| + n) == Pending(a, |a|) + Pending(b, n)
  {
    if n == 0 {
      PendingPrefix(a, b, |a|);
    } else {
      PendingConcat(a, b, n - 1);
    }
  }

  lemma PacedConcatAt(a: seq<Stimulus>, b: seq<Stimulus>, n: nat)
    requires Paced(a) && Pending(a, |a|) == 0 && Paced(b) && n < |a + b|
    ensures OnPace((a + b)[n], Pending(a + b, n))
  {
    if n < |a| {
      PendingPrefix(a, b, n);
      assert OnPace(a[n], Pending(a, n));
    } else {
      var i := n - |a|;
      PendingConcat(a, b, i);
      assert OnPace(b[i], Pending(b, i));
    }
  }

  lemma PacedConcat(a: seq<Stimulus>, b: seq<Stimulus>)
    requires Paced(a) && Pending(a, |a|) == 0 && Paced(b)
    ensures Paced(a + b) && Pending(a + b, |a + b|) == Pending(b, |b|)
  {
    PendingConcat(a, b, |b|);
    forall n | 0 <= n < |a + b| ensures OnPace((a + b)[n], Pending(a + b, n)) {
      PacedConcatAt(a, b, n);
    }
  }

  lemma {:induction false} PendingInChunk(k: nat, inner: seq<Stimulus>, n: nat)
    requires 1 <= n <= 1 + |inner| && forall m :: m in inner ==> Inner(m)
    ensures Pending([Clock(k)] + inner + [Tick(k)], n) == k
  {
    var ms := [Clock(k)] + inner + [Tick(k)];
    if n == 1 {
      assert Pending(ms, 0) == 0;
    } else {
      PendingInChunk(k, inner, n - 1);
      assert ms[n - 1] == inner[n - 2] && Inner(inner[n - 2]);
    }
  }

  lemma ChunkPaced(samples: seq<Option<MessageEvent>>)
    ensures var ms := OfEvent(Baseband(samples));
            Paced(ms) && Pending(ms, |ms|) == 0
  {
    var inner := OfSamples(samples, |samples|);
    var ms := OfEvent(Baseband(samples));
    SamplesInner(samples, |samples|);
    forall n | 0 <= n < |ms| ensures OnPace(ms[n], Pending(ms, n)) {
      if n > 0 {
        PendingInChunk(|samples|, inner, n);
        if n <= |inner| {
          assert ms[n] == inner[n - 1] && Inner(inner[n - 1]);
        }
      }
    }
    PendingInChunk(|samples|, inner, |inner| + 1);
  }

  /** The stimuli of whole events are paced, with nothing pending in between. */
  lemma {:induction false} EventsPaced(events: seq<RecvEvent>, n: nat)
    requires n <= |events|
    ensures var ms := OfEvents(events, n);
            Paced(ms) && Pending(ms, |ms|) == 0
  {
    if n > 0 {
      EventsPaced(events, n - 1);
      var e := events[n - 1];
      if e.Baseband? {
        ChunkPaced(e.samples);
      } else {
        assert forall i :: 0 <= i < |OfEvent(e)| ==> Pending(OfEvent(e), i) == 0;
        assert Pending(OfEvent(e), |OfEvent(e)|) == 0;
      }
      PacedConcat(OfEvents(events, n - 1), OfEvent(e));
    }
  }

  // ---------------------------------------------------------------- clock coupling

  /** `rs` tells which stimuli of a run select a talkgroup or move to another site. */
  ghost predicate ClockRestarts(r: Recv, ms: seq<Stimulus>, rs: seq<bool>)
    requires r.Valid()
  {
    && |rs| == |ms|
    && forall i :: 0 <= i < |ms| ==>
         rs[i] == (PickBy(After(r, ms, i), ms[i]).Some? || ChangesSite(After(r, ms, i), ms[i]))
  }

  /** Samples on the talkgroup clock since the last selection or change of site. */
  ghost function TrueClock(ms: seq<Stimulus>, rs: seq<bool>, n: nat): nat
    requires |rs| == |ms| && n <= |ms|
  {
    if n == 0 || rs[n - 1] then 0
    else TrueClock(ms, rs, n - 1) + if ms[n - 1].Clock? then ms[n - 1].samples else 0
  }

  /** No talkgroup can preempt a call. */
  ghost predicate NoPreempt(s: Selection) {
    s.preempt == {} && s.curPreempt == []
  }

  lemma NoPreemptStep(r: Recv, m: Stimulus)
    requires r.Valid() && NoPreempt(r.talkgroups)
    ensures NoPreempt(r.Apply(m).talkgroups) && (m.PreemptCheck? ==> PickBy(r, m).None?)
  {
  }

  lemma {:induction false} NoPreemptAlways(r: Recv, ms: seq<Stimulus>, n: nat)
    requires r.Valid() && NoPreempt(r.talkgroups) && n <= |ms|
    ensures NoPreempt(After(r, ms, n).talkgroups)
  {
    if n > 0 {
      NoPreemptAlways(r, ms, n - 1);
      NoPreemptStep(After(r, ms, n - 1), ms[n - 1]);
    }
  }

  /** One step of the policy timer against the clock; `restart` says the clock starts over. */
  lemma CoupledStep(p: PolicyState, m: Stimulus, follows: bool, restart: bool, clock: nat, pending: int)
    requires p.TimerOk() && OnPace(m, pending) && 0 <= pending && p.state.t.cur + pending <= clock
    requires MayRestart(p, m, follows, restart)
    ensures 0 <= pending + Moved(m)
    ensures PolicyNext(p, m, follows).state.t.cur + pending + Moved(m)
         <= if restart then 0 else clock + if m.Clock? then m.samples else 0
    ensures m.Tick? && CanFollow(p, m) ==> clock >= p.selectTime
  {
  }

  /** Without preemption only a choice or a change of site restarts the clock. */
  ghost predicate MayRestart(p: PolicyState, m: Stimulus, follows: bool, restart: bool) {
    && (follows ==> restart)
    && (restart ==> !m.PreemptCheck? && (m.Retune? || CanFollow(p, m)))
  }

  lemma {:induction false} CoupledAlong(ps: seq<PolicyState>, fs: seq<bool>, rs: seq<bool>,
                                        ms: seq<Stimulus>, n: nat)
    requires PolicyRun(ps, fs, ms) && ps[0].TimerOk() && ps[0].state.t.cur == 0
    requires Paced(ms) && n <= |ms| && |rs| == |ms|
    requires forall i :: 0 <= i < |ms| ==> MayRestart(ps[i], ms[i], fs[i], rs[i])
    ensures 0 <= Pending(ms, n) && ps[n].state.t.cur + Pending(ms, n) <= TrueClock(ms, rs, n)
    ensures n < |ms| && ms[n].Tick? && CanFollow(ps[n], ms[n]) ==>
              TrueClock(ms, rs, n) >= ps[0].selectTime
  {
    SoundAlways(ps, fs, ms, n);
    if n == 0 {
    } else {
      SoundAlways(ps, fs, ms, n - 1);
      CoupledAlong(ps, fs, rs, ms, n - 1);
      CoupledStep(ps[n - 1], ms[n - 1], fs[n - 1], rs[n - 1], TrueClock(ms, rs, n - 1), Pending(ms, n - 1));
    }
    if n < |ms| {
      CoupledStep(ps[n], ms[n], fs[n], rs[n], TrueClock(ms, rs, n), Pending(ms, n));
    }
  }

  lemma RestartAllowed(r: Recv, m: Stimulus)
    requires r.Valid() && NoPreempt(r.talkgroups)
    ensures MayRestart(r.policy, m, Follows(r, m), PickBy(r, m).Some? || ChangesSite(r, m))
  {
    NoPreemptStep(r, m);
  }

  lemma RestartsAllowed(c: Config, ms: seq<Stimulus>, ps: seq<PolicyState>, fs: seq<bool>, rs: seq<bool>)
    requires c.preempt == {} && Along(Boot(c), ms, ps, fs) && ClockRestarts(Boot(c), ms, rs)
    ensures forall i :: 0 <= i < |ms| ==> MayRestart(ps[i], ms[i], fs[i], rs[i])
  {
    forall i | 0 <= i < |ms| ensures MayRestart(ps[i], ms[i], fs[i], rs[i]) {
      NoPreemptAlways(Boot(c), ms, i);
      RestartAllowed(After(Boot(c), ms, i), ms[i]);
    }
  }

  lemma ElapsedStep(r: Recv, m: Stimulus, clock: nat)
    requires r.Valid() && r.talkgroups.feats.elapsed == Residue(clock, Pow2(r.talkgroups.feats.bits))
    ensures var f := r.Apply(m).talkgroups.feats;
            && f.bits == r.talkgroups.feats.bits
            && f.elapsed == Residue(if PickBy(r, m).Some? || ChangesSite(r, m) then 0
                                    else clock + if m.Clock? then m.samples else 0, Pow2(f.bits))
  {
    SelectionStep(r, m);
    if m.Clock? {
      ResidueOnce(clock, m.samples, Pow2(r.talkgroups.feats.bits));
    }
  }

  /** The word the selection keeps is that clock, wrapped. */
  lemma {:induction false} ElapsedIsClock(c: Config, ms: seq<Stimulus>, rs: seq<bool>, n: nat)
    requires n <= |ms| && ClockRestarts(Boot(c), ms, rs)
    ensures After(Boot(c), ms, n).talkgroups.feats.bits == c.bits
    ensures After(Boot(c), ms, n).talkgroups.feats.elapsed == Residue(TrueClock(ms, rs, n), Pow2(c.bits))
  {
    if n == 0 {
    } else {
      ElapsedIsClock(c, ms, rs, n - 1);
      ElapsedStep(After(Boot(c), ms, n - 1), ms[n - 1], TrueClock(ms, rs, n - 1));
    }
  }

  /** Between events the policy's timer never runs ahead of the talkgroup clock. */
  lemma TimerBehindClock(c: Config, events: seq<RecvEvent>, rs: seq<bool>)
    requires c.preempt == {} && ClockRestarts(Boot(c), OfEvents(events, |events|), rs)
    ensures var ms := OfEvents(events, |events|);
            Run(Boot(c), ms).policy.state.t.cur <= TrueClock(ms, rs, |ms|)
  {
    var ms := OfEvents(events, |events|);
    EventsPaced(events, |events|);
    var ps, fs := PoliciesAlong(Boot(c), ms);
    AlongIsRun(Boot(c), ms, ps, fs);
    RestartsAllowed(c, ms, ps, fs, rs);
    BootPolicy(c);
    CoupledAlong(ps, fs, rs, ms, |ms|);
  }

  /** Without preemption only a tick that asks for a choice selects anything. */
  lemma PickAtTick(r: Recv, m: Stimulus)
    requires r.Valid() && NoPreempt(r.talkgroups) && PickBy(r, m).Some?
    ensures m.Tick? && CanFollow(r.policy, m)
  {
    NoPreemptStep(r, m);
  }

  lemma BootNoPreempt(c: Config)
    requires c.preempt == {}
    ensures NoPreempt(Boot(c).talkgroups)
  {
  }

  lemma PickAtTickAlong(r: Recv, ms: seq<Stimulus>, n: nat)
    requires r.Valid() && NoPreempt(r.talkgroups) && n < |ms|
    requires PickBy(After(r, ms, n), ms[n]).Some?
    ensures ms[n].Tick? && CanFollow(After(r, ms, n).policy, ms[n])
  {
    NoPreemptAlways(r, ms, n);
    PickAtTick(After(r, ms, n), ms[n]);
  }

  lemma SpacedAlong(c: Config, ms: seq<Stimulus>, rs: seq<bool>, n: nat)
    requires c.preempt == {} && ClockRestarts(Boot(c), ms, rs) && Paced(ms)
    requires n < |ms| && PickBy(After(Boot(c), ms, n), ms[n]).Some?
    ensures TrueClock(ms, rs, n) >= c.select
  {
    var ps, fs := PoliciesAlong(Boot(c), ms);
    AlongIsRun(Boot(c), ms, ps, fs);
    RestartsAllowed(c, ms, ps, fs, rs);
    BootPolicy(c);
    BootNoPreempt(c);
    PickAtTickAlong(Boot(c), ms, n);
    assert CanFollow(ps[n], ms[n]);
    CoupledAlong(ps, fs, rs, ms, n);
  }

  /**
   Without preemption every selection happens at least `select` samples after the previous
   selection or change of site; unless the clock has wrapped, the selection itself sees them.
   */
  lemma SelectionsAreSpaced(c: Config, events: seq<RecvEvent>, rs: seq<bool>, n: nat)
    requires c.preempt == {} && ClockRestarts(Boot(c), OfEvents(events, |events|), rs)
    requires n < |OfEvents(events, |events|)|
    requires PickBy(After(Boot(c), OfEvents(events, |events|), n), OfEvents(events, |events|)[n]).Some?
    ensures var ms := OfEvents(events, |events|);
            var clock := TrueClock(ms, rs, n);
            && clock >= c.select
            && (clock < Pow2(c.bits) ==> After(Boot(c), ms, n).talkgroups.feats.elapsed == clock)
  {
    var ms := OfEvents(events, |events|);
    EventsPaced(events, |events|);
    SpacedAlong(c, ms, rs, n);
    ElapsedIsClock(c, ms, rs, n);
  }

  // ---------------------------------------------------------------- bounded return

  function EventLength(e: RecvEvent): nat {
    if e.Baseband? then |e.samples| else 0
  }

  /** Baseband samples in the first `n` events. */
  function SampleTotal(events: seq<RecvEvent>, n: nat): nat
    requires n <= |events|
  {
    if n == 0 then 0 else SampleTotal(events, n - 1) + EventLength(events[n - 1])
  }

  /** The event is no chunk with a voice unit in it, and its length fits the timers. */
  ghost predicate NoVoice(e: RecvEvent, p: PolicyState) {
    e.Baseband? ==> p.Fits(|e.samples|) && forall u: DataUnit :: u.Voice() ==> Some(PacketNID(u)) !in e.samples
  }

  lemma {:induction false} TickTotalPrefix(a: seq<Stimulus>, b: seq<Stimulus>, n: nat)
    requires n <= |a|
    ensures TickTotal(a + b, n) == TickTotal(a, n)
  {
    if n > 0 {
      TickTotalPrefix(a, b, n - 1);
    }
  }

  lemma {:induction false} TickTotalConcat(a: seq<Stimulus>, b: seq<Stimulus>, n: nat)
    requires n <= |b|
    ensures TickTotal(a + b, |a| + n) == TickTotal(a, |a|) + TickTotal(b, n)
  {
    if n == 0 {
      TickTotalPrefix(a, b, |a|);
    } else {
      TickTotalConcat(a, b, n - 1);
    }
  }

  /** `total` samples are reported by all of `ms`. */
  ghost predicate Ticks(ms: seq<Stimulus>, total: nat) {
    TickTotal(ms, |ms|) == total
  }

  lemma TicksAppend(a: seq<Stimulus>, b: seq<Stimulus>, x: nat, y: nat)
    requires Ticks(a, x) && Ticks(b, y)
    ensures Ticks(a + b, x + y)
  {
    TickTotalConcat(a, b, |b|);
  }

  lemma {:induction false} InnerTicksNothing(ms: seq<Stimulus>, n: nat)
    requires n <= |ms| && forall m :: m in ms ==> Inner(m)
    ensures TickTotal(ms, n) == 0
  {
    if n > 0 {
      InnerTicksNothing(ms, n - 1);
      assert ms[n - 1] in ms;
    }
  }

  lemma EventTicks(e: RecvEvent)
    ensures Ticks(OfEvent(e), EventLength(e))
  {
    if e.Baseband? {
      var inner := OfSamples(e.samples, |e.samples|);
      SamplesInner(e.samples, |e.samples|);
      InnerTicksNothing(inner, |inner|);
      var head, last := [Clock(|e.samples|)] + inner, [Tick(|e.samples|)];
      TickTotalConcat([Clock(|e.samples|)], inner, |inner|);
      TickTotalConcat(head, last, 1);
      assert TickTotal([Clock(|e.samples|)], 0) == 0 && TickTotal(last, 0) == 0;
    } else {
      assert TickTotal(OfEvent(e), 0) == 0;
    }
  }

  lemma {:induction false} EventsTick(events: seq<RecvEvent>, n: nat)
    requires n <= |events|
    ensures Ticks(OfEvents(events, n), SampleTotal(events, n))
  {
    if n > 0 {
      var e := events[n - 1];
      EventsTick(events, n - 1);
      EventTicks(e);
      TicksAppend(OfEvents(events, n - 1), OfEvent(e), SampleTotal(events, n - 1), EventLength(e));
    }
  }

  lemma {:induction false} SamplesVoiceless(samples: seq<Option<MessageEvent>>, n: nat)
    requires n <= |samples| && forall u: DataUnit :: u.Voice() ==> Some(PacketNID(u)) !in samples
    ensures forall m :: m in OfSamples(samples, n) ==> !VoiceNid(m) && Inner(m)
  {
    SamplesInner(samples, n);
    if n > 0 {
      SamplesVoiceless(samples, n - 1);
      var s := samples[n - 1];
      assert s in samples;
      forall m | m in OfSample(s) ensures !VoiceNid(m) {
        if m.NidSeen? {
          assert s == Some(PacketNID(m.dataUnit));
        }
      }
    }
  }

  lemma EventVoiceless(e: RecvEvent, p: PolicyState)
    requires p.Fits(0) && NoVoice(e, p)
    ensures forall m :: m in OfEvent(e) ==> !VoiceNid(m) && p.Fits(TickLength(m))
  {
    if e.Baseband? {
      SamplesVoiceless(e.samples, |e.samples|);
    }
  }

  lemma {:induction false} EventsVoiceless(events: seq<RecvEvent>, n: nat, p: PolicyState)
    requires n <= |events| && p.Fits(0) && forall e :: e in events ==> NoVoice(e, p)
    ensures forall m :: m in OfEvents(events, n) ==> !VoiceNid(m) && p.Fits(TickLength(m))
  {
    if n > 0 {
      EventsVoiceless(events, n - 1, p);
      assert NoVoice(events[n - 1], p);
      EventVoiceless(events[n - 1], p);
    }
  }

  lemma {:induction false} ChunkTicks(events: seq<RecvEvent>, n: nat, k: nat)
    requires k < n <= |events| && events[k].Baseband?
    ensures exists i :: 0 <= i < |OfEvents(events, n)| && OfEvents(events, n)[i].Tick?
  {
    var ms, last := OfEvents(events, n), OfEvent(events[n - 1]);
    if k == n - 1 {
      assert last[|last| - 1].Tick?;
      assert ms[|ms| - 1].Tick?;
    } else {
      ChunkTicks(events, n - 1, k);
      var i :| 0 <= i < |OfEvents(events, n - 1)| && OfEvents(events, n - 1)[i].Tick?;
      assert ms[i].Tick?;
    }
  }

  /** Events with at least one chunk, no voice unit, and at least the bound of samples. */
  ghost predicate LongSilence(events: seq<RecvEvent>, p: PolicyState) {
    && p.Fits(0) && (forall e :: e in events ==> NoVoice(e, p))
    && (exists k :: 0 <= k < |events| && events[k].Baseband?)
    && SampleTotal(events, |events|) >= ReturnBound(p)
  }

  lemma LongSilenceIsSilent(r: Recv, events: seq<RecvEvent>)
    requires r.Valid() && r.policy.TimerOk() && !r.OnControl() && LongSilence(events, r.policy)
    ensures var ms := OfEvents(events, |events|);
            SilentStretch(r, ms) && TickTotal(ms, |ms|) >= ReturnBound(r.policy)
  {
    var ms := OfEvents(events, |events|);
    EventsVoiceless(events, |events|, r.policy);
    EventsTick(events, |events|);
    var k :| 0 <= k < |events| && events[k].Baseband?;
    ChunkTicks(events, |events|, k);
    assert forall i :: 0 <= i < |ms| ==> ms[i] in ms;
  }

  /**
   From any reachable state off control, a stretch of events with at least one chunk, no voice
   unit and no preempting selection followed, and at least the bound of samples, passes through
   the control channel.
   */
  lemma BoundedReturn(c: Config, past: seq<Stimulus>, events: seq<RecvEvent>)
    requires !Run(Boot(c), past).OnControl() && LongSilence(events, Run(Boot(c), past).policy)
    requires var r, ms := Run(Boot(c), past), OfEvents(events, |events|);
             forall i :: 0 <= i < |ms| && ms[i].PreemptCheck? ==> !Follows(After(r, ms, i), ms[i])
    ensures var r, ms := Run(Boot(c), past), OfEvents(events, |events|);
            exists i :: 0 <= i <= |ms| && After(r, ms, i).OnControl()
  {
    ReachableTimerOk(c, past);
    LongSilenceIsSilent(Run(Boot(c), past), events);
    ReturnsToControl(Run(Boot(c), past), OfEvents(events, |events|));
  }

  /** If the stretch follows nothing at all, it also ends on the control channel. */
  lemma SilenceEndsOnControl(c: Config, past: seq<Stimulus>, events: seq<RecvEvent>)
    requires !Run(Boot(c), past).OnControl() && LongSilence(events, Run(Boot(c), past).policy)
    requires var r, ms := Run(Boot(c), past), OfEvents(events, |events|);
             forall i :: 0 <= i < |ms| ==> !Follows(After(r, ms, i), ms[i])
    ensures Run(Run(Boot(c), past), OfEvents(events, |events|)).OnControl()
  {
    ReachableTimerOk(c, past);
    LongSilenceIsSilent(Run(Boot(c), past), events);
    EndsOnControl(Run(Boot(c), past), OfEvents(events, |events|));
  }

  lemma ReachableTimerOk(c: Config, ms: seq<Stimulus>)
    ensures Run(Boot(c), ms).policy.TimerOk()
    ensures Run(Boot(c), ms).policy.watchdogTime == c.watchdog
  {
    var ps, fs := PoliciesAlong(Boot(c), ms);
    AlongIsRun(Boot(c), ms, ps, fs);
    BootPolicy(c);
    SoundAlways(ps, fs, ms, |ms|);
  }
}
