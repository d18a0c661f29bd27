/** Where the receiver is tuned, and how long it can stay off the control channel. */
module Tuning {
  import opened P25
  import opened Words
  import opened Policy
  import opened Talkgroups
  import opened Receiver
  import opened History

  // ---------------------------------------------------------------- tuning

  /** The tuning agrees with the policy, with the last pair selected, and with the SDR queue. */
  ghost predicate Tuned(r: Recv, last: Option<Pick>) {
    && (r.OnControl() ==> r.curfreq == r.ctlfreq)
    && (!r.OnControl() ==> r.hopping && last == Some(Pick(r.curgroup, r.curfreq)))
    && r.sdr != [] && r.sdr[|r.sdr| - 1] == r.curfreq
  }

  lemma TunedSwitch(r: Recv, last: Option<Pick>)
    ensures Tuned(r.SwitchControl(), last)
  {
  }

  lemma TunedSelect(r: Recv, op: SelectionOp, last: Option<Pick>)
    requires r.Valid() && Tuned(r, last)
    ensures var pick := r.talkgroups.Outcome(op);
            Tuned(r.Select(op), if pick.Some? then pick else last)
  {
  }

  lemma TunedEvent(r: Recv, event: Option<PolicyEvent>, last: Option<Pick>)
    requires r.Valid() && Tuned(r, last)
    ensures var pick := if event == Some(ChooseTalkgroup) then r.talkgroups.Outcome(SelectIdle) else None;
            Tuned(r.HandlePolicy(event), if pick.Some? then pick else last)
  {
    match event
    case None =>
    case Some(Resync) =>
    case Some(ReturnControl) => TunedSwitch(r, last);
    case Some(ChooseTalkgroup) => TunedSelect(r, SelectIdle, last);
  }

  lemma TunedConsult(r: Recv, op: PolicyOp, last: Option<Pick>)
    requires r.Valid() && Tuned(r, last) && !op.EnterTraffic? && !op.EnterControl?
    ensures var event := r.policy.React(op).event;
            var pick := if event == Some(ChooseTalkgroup) then r.talkgroups.Outcome(SelectIdle) else None;
            Tuned(r.Consult(op), if pick.Some? then pick else last)
  {
    var x := r.policy.React(op);
    TunedEvent(r.(policy := x.policy), x.event, last);
  }

  /** The last pair selected, after one more stimulus. */
  ghost function Updated(r: Recv, m: Stimulus, last: Option<Pick>): Option<Pick>
    requires r.Valid()
  {
    if PickBy(r, m).Some? then PickBy(r, m) else last
  }

  lemma TunedTick(r: Recv, n: nat, last: Option<Pick>)
    requires r.Valid() && Tuned(r, last)
    ensures Tuned(r.Apply(Tick(n)), Updated(r, Tick(n), last))
  {
    TunedConsult(r, Elapsed(n), last);
  }

  lemma TunedNid(r: Recv, u: DataUnit, last: Option<Pick>)
    requires r.Valid() && Tuned(r, last)
    ensures Tuned(r.Apply(NidSeen(u)), Updated(r, NidSeen(u), last))
  {
    TunedConsult(r, Nid(u), last);
  }

  lemma TunedDirect(r: Recv, m: Stimulus, last: Option<Pick>)
    requires r.Valid() && Tuned(r, last) && !m.Tick? && !m.NidSeen? && !m.PreemptCheck?
    ensures Tuned(r.Apply(m), Updated(r, m, last))
  {
  }

  lemma TunedStep(r: Recv, m: Stimulus, last: Option<Pick>)
    requires r.Valid() && Tuned(r, last)
    ensures Tuned(r.Apply(m), Updated(r, m, last))
  {
    if m.Tick? {
      TunedTick(r, m.samples, last);
    } else if m.NidSeen? {
      TunedNid(r, m.dataUnit, last);
    } else if m.PreemptCheck? {
      TunedSelect(r, SelectPreempt, last);
    } else {
      TunedDirect(r, m, last);
    }
  }

  /** At every instant of every run the receiver is tuned where its policy says. */
  lemma {:induction false} TuningInvariant(c: Config, ms: seq<Stimulus>, n: nat)
    requires n <= |ms|
    ensures Tuned(After(Boot(c), ms, n), LastPick(Boot(c), ms, n))
  {
    if n == 0 {
    } else {
      TuningInvariant(c, ms, n - 1);
      TunedStep(After(Boot(c), ms, n - 1), ms[n - 1], LastPick(Boot(c), ms, n - 1));
    }
  }

  // ---------------------------------------------------------------- the policy along a run

  ghost predicate CanFollow(p: PolicyState, m: Stimulus) {
    m.PreemptCheck? || (m.Tick? && p.React(Elapsed(m.samples)).event == Some(ChooseTalkgroup))
  }

  ghost predicate PolicyRun(ps: seq<PolicyState>, fs: seq<bool>, ms: seq<Stimulus>) {
    && |ps| == |ms| + 1 && |fs| == |ms|
    && (forall i :: 0 <= i < |ms| ==> ps[i + 1] == PolicyNext(ps[i], ms[i], fs[i]))
    && (forall i :: 0 <= i < |ms| && fs[i] ==> CanFollow(ps[i], ms[i]))
  }

  lemma FollowsCan(r: Recv, m: Stimulus)
    requires r.Valid() && Follows(r, m)
    ensures CanFollow(r.policy, m)
  {
  }

  lemma PoliciesStep(r: Recv, ms: seq<Stimulus>, i: nat)
    requires r.Valid() && i < |ms|
    ensures After(r, ms, i + 1).policy
         == PolicyNext(After(r, ms, i).policy, ms[i], Follows(After(r, ms, i), ms[i]))
    ensures Follows(After(r, ms, i), ms[i]) ==> CanFollow(After(r, ms, i).policy, ms[i])
  {
    var q := After(r, ms, i);
    assert After(r, ms, i + 1) == q.Apply(ms[i]);
    PolicyStep(q, ms[i]);
    if Follows(q, ms[i]) {
      FollowsCan(q, ms[i]);
    }
  }

  /** `ps` and `fs` are the policy between the stimuli of a run, and which of them are followed. */
  ghost predicate Along(r: Recv, ms: seq<Stimulus>, ps: seq<PolicyState>, fs: seq<bool>)
    requires r.Valid()
  {
    && |ps| == |ms| + 1 && |fs| == |ms|
    && (forall i :: 0 <= i <= |ms| ==> ps[i] == After(r, ms, i).policy)
    && (forall i :: 0 <= i < |ms| ==> fs[i] == Follows(After(r, ms, i), ms[i]))
  }

  lemma PoliciesAlong(r: Recv, ms: seq<Stimulus>) returns (ps: seq<PolicyState>, fs: seq<bool>)
    requires r.Valid()
    ensures Along(r, ms, ps, fs)
  {
    ps := seq(|ms| + 1, i requires 0 <= i <= |ms| => After(r, ms, i).policy);
    fs := seq(|ms|, i requires 0 <= i < |ms| => Follows(After(r, ms, i), ms[i]));
  }

  lemma AlongIsRun(r: Recv, ms: seq<Stimulus>, ps: seq<PolicyState>, fs: seq<bool>)
    requires r.Valid() && Along(r, ms, ps, fs)
    ensures PolicyRun(ps, fs, ms) && ps[0] == r.policy
  {
    assert After(r, ms, 0) == r;
    forall i | 0 <= i < |ms|
      ensures ps[i + 1] == PolicyNext(ps[i], ms[i], fs[i])
      ensures fs[i] ==> CanFollow(ps[i], ms[i])
    {
      PoliciesStep(r, ms, i);
      var p := After(r, ms, i + 1).policy;
      assert ps[i + 1] == p;
    }
  }

  // ---------------------------------------------------------------- timers

  lemma TimerOkStep(p: PolicyState, m: Stimulus, follows: bool)
    requires p.TimerOk()
    ensures var q := PolicyNext(p, m, follows);
            q.TimerOk() && q == p.(state := q.state)
  {
  }

  /** The timer is sound and the settings are as they were at the start. */
  ghost predicate Sound(p: PolicyState, start: PolicyState) {
    p.TimerOk() && p == start.(state := p.state)
  }

  lemma {:induction false} SoundAlways(ps: seq<PolicyState>, fs: seq<bool>, ms: seq<Stimulus>, n: nat)
    requires PolicyRun(ps, fs, ms) && ps[0].TimerOk() && n <= |ms|
    ensures Sound(ps[n], ps[0])
  {
    if n == 0 {
    } else {
      SoundAlways(ps, fs, ms, n - 1);
      TimerOkStep(ps[n - 1], ms[n - 1], fs[n - 1]);
    }
  }

  /** The stimulus starts the policy's timer afresh. */
  ghost predicate RestartsTimer(p: PolicyState, m: Stimulus, follows: bool) {
    match m
    case Tick(n) => p.React(Elapsed(n)).event.Some?
    case NidSeen(u) => Restarts(p, Nid(u))
    case TermSeen => !p.OnControl()
    case CryptoSeen(_) => true
    case PreemptCheck => follows
    case Retune(_) => true
    case _ => false
  }

  /** Samples reported since the last stimulus that restarted the timer. */
  ghost function SinceTimerRestart(ps: seq<PolicyState>, fs: seq<bool>, ms: seq<Stimulus>, n: nat): nat
    requires PolicyRun(ps, fs, ms) && n <= |ms|
  {
    if n == 0 || RestartsTimer(ps[n - 1], ms[n - 1], fs[n - 1]) then 0
    else SinceTimerRestart(ps, fs, ms, n - 1) + TickLength(ms[n - 1])
  }

  /** Every chunk fits a word on top of every timeout. */
  ghost predicate ChunksFit(p: PolicyState, ms: seq<Stimulus>) {
    forall i :: 0 <= i < |ms| ==> p.Fits(TickLength(ms[i]))
  }

  lemma TimerStepExact(p: PolicyState, m: Stimulus, follows: bool)
    requires p.TimerOk() && p.Fits(TickLength(m)) && (follows ==> CanFollow(p, m))
    ensures p.state.t.cur + TickLength(m) < Pow2(p.bits)
    ensures PolicyNext(p, m, follows).state.t.cur
         == if RestartsTimer(p, m, follows) then 0 else p.state.t.cur + TickLength(m)
  {
  }

  lemma {:induction false} TimerExactAlong(ps: seq<PolicyState>, fs: seq<bool>, ms: seq<Stimulus>, n: nat)
    requires PolicyRun(ps, fs, ms) && ps[0].TimerOk() && ps[0].state.t.cur == 0
    requires n <= |ms| && ChunksFit(ps[0], ms)
    ensures ps[n].state.t.cur == SinceTimerRestart(ps, fs, ms, n)
    ensures n < |ms| ==> ps[n].state.t.cur + TickLength(ms[n]) < Pow2(ps[0].bits)
  {
    SoundAlways(ps, fs, ms, n);
    if n < |ms| {
      TimerStepExact(ps[n], ms[n], fs[n]);
    }
    if n == 0 {
    } else {
      TimerExactAlong(ps, fs, ms, n - 1);
      SoundAlways(ps, fs, ms, n - 1);
      TimerStepExact(ps[n - 1], ms[n - 1], fs[n - 1]);
    }
  }

  lemma BootPolicy(c: Config)
    ensures Boot(c).policy == NewPolicy(c.bits, c.select, c.watchdog, c.pause)
  {
  }

  /**
   In every run the running timer is exactly the time since its last restart, it is fresh or
   below its timeout between stimuli, and adding a chunk to it never overflows a word.
   */
  lemma TimerIsExact(c: Config, ms: seq<Stimulus>, ps: seq<PolicyState>, fs: seq<bool>, n: nat)
    requires Along(Boot(c), ms, ps, fs) && n <= |ms|
    requires ChunksFit(NewPolicy(c.bits, c.select, c.watchdog, c.pause), ms)
    ensures PolicyRun(ps, fs, ms) && ps[n].state.t.cur == SinceTimerRestart(ps, fs, ms, n)
    ensures ps[n].state.t.cur == 0 || ps[n].state.t.cur < ps[n].state.t.max
    ensures n < |ms| ==> ps[n].state.t.cur + TickLength(ms[n]) < Pow2(c.bits)
  {
    AlongIsRun(Boot(c), ms, ps, fs);
    BootPolicy(c);
    SoundAlways(ps, fs, ms, n);
    TimerExactAlong(ps, fs, ms, n);
  }

  // ---------------------------------------------------------------- bounded return

  /** Samples without voice after which the receiver must have been back on control. */
  function ReturnBound(p: PolicyState): nat {
    if p.watchdogTime == 0 || p.pauseTime == 0 then p.watchdogTime + p.pauseTime
    else p.watchdogTime + p.pauseTime - 1
  }

  /** What is left of that bound in a state off the control channel. */
  function Left(p: PolicyState): int {
    match p.state
    case Control(t) => 0
    case Traffic(t, _) => ReturnBound(p) - t.cur
    case Paused(t) => p.pauseTime - t.cur
  }

  /** Off control, every sample without voice uses up the bound. */
  lemma QuietStep(p: PolicyState, m: Stimulus)
    requires p.TimerOk() && !p.OnControl() && p.Fits(TickLength(m)) && !VoiceNid(m)
    requires !PolicyNext(p, m, false).OnControl()
    ensures Left(PolicyNext(p, m, false)) <= Left(p) - TickLength(m)
    ensures m.Tick? ==> Left(PolicyNext(p, m, false)) >= 1
  {
  }

  lemma {:induction false} StaysOffBriefly(ps: seq<PolicyState>, fs: seq<bool>, ms: seq<Stimulus>, n: nat)
    requires PolicyRun(ps, fs, ms) && ps[0].TimerOk() && ChunksFit(ps[0], ms) && n <= |ms|
    requires forall i :: 0 <= i <= n ==> !ps[i].OnControl()
    requires forall i :: 0 <= i < n ==> !VoiceNid(ms[i]) && !fs[i]
    ensures Left(ps[n]) + TickTotal(ms, n) <= ReturnBound(ps[0])
    ensures (exists i :: 0 <= i < n && ms[i].Tick?) ==> TickTotal(ms, n) < ReturnBound(ps[0])
  {
    if n == 0 {
    } else {
      StaysOffBriefly(ps, fs, ms, n - 1);
      SoundAlways(ps, fs, ms, n - 1);
      SoundAlways(ps, fs, ms, n);
      assert ps[0].Fits(TickLength(ms[n - 1]));
      QuietStep(ps[n - 1], ms[n - 1]);
    }
  }

  /** A stretch of stimuli, from a state off control, with a chunk and without any voice unit. */
  ghost predicate SilentStretch(r: Recv, ms: seq<Stimulus>) {
    && r.Valid() && r.policy.TimerOk() && !r.OnControl() && ChunksFit(r.policy, ms)
    && (exists i :: 0 <= i < |ms| && ms[i].Tick?)
    && forall i :: 0 <= i < |ms| ==> !VoiceNid(ms[i])
  }

  /** A silent stretch in which no selection that preempts a call is followed. */
  ghost predicate QuietStretch(r: Recv, ms: seq<Stimulus>) {
    && SilentStretch(r, ms)
    && forall i :: 0 <= i < |ms| && ms[i].PreemptCheck? ==> !Follows(After(r, ms, i), ms[i])
  }

  lemma QuietFollowsNothing(r: Recv, m: Stimulus)
    requires r.Valid() && !r.OnControl() && (m.PreemptCheck? ==> !Follows(r, m))
    ensures !Follows(r, m)
  {
  }

  /** Without a return the stretch would have to be shorter than the bound. */
  lemma OffIsBrief(r: Recv, ms: seq<Stimulus>)
    requires QuietStretch(r, ms)
    requires forall i :: 0 <= i <= |ms| ==> !After(r, ms, i).OnControl()
    ensures TickTotal(ms, |ms|) < ReturnBound(r.policy)
  {
    var ps, fs := PoliciesAlong(r, ms);
    AlongIsRun(r, ms, ps, fs);
    forall i | 0 <= i < |ms| ensures !fs[i] {
      assert !After(r, ms, i).OnControl();
      QuietFollowsNothing(After(r, ms, i), ms[i]);
    }
    StaysOffBriefly(ps, fs, ms, |ms|);
  }

  /**
   Off control, such a stretch brings the receiver back to the control channel, whatever
   terminators, trunking packets, grants and errors are interleaved.
   */
  lemma ReturnsToControl(r: Recv, ms: seq<Stimulus>)
    requires QuietStretch(r, ms) && TickTotal(ms, |ms|) >= ReturnBound(r.policy)
    ensures exists i :: 0 <= i <= |ms| && After(r, ms, i).OnControl()
  {
    if forall i :: 0 <= i <= |ms| ==> !After(r, ms, i).OnControl() {
      OffIsBrief(r, ms);
    }
  }

  lemma {:induction false} StaysOnControl(ps: seq<PolicyState>, fs: seq<bool>, ms: seq<Stimulus>, i: nat, n: nat)
    requires PolicyRun(ps, fs, ms) && i <= n <= |ms| && ps[i].OnControl()
    requires forall j :: i <= j < n ==> !fs[j]
    ensures ps[n].OnControl()
  {
    if i < n {
      StaysOnControl(ps, fs, ms, i, n - 1);
    }
  }

  lemma StaysThere(r: Recv, ms: seq<Stimulus>, i: nat)
    requires r.Valid() && i <= |ms| && After(r, ms, i).OnControl()
    requires forall j :: 0 <= j < |ms| ==> !Follows(After(r, ms, j), ms[j])
    ensures After(r, ms, |ms|).OnControl()
  {
    var ps, fs := PoliciesAlong(r, ms);
    AlongIsRun(r, ms, ps, fs);
    StaysOnControl(ps, fs, ms, i, |ms|);
  }

  /** If nothing is followed meanwhile, the stretch also ends on the control channel. */
  lemma EndsOnControl(r: Recv, ms: seq<Stimulus>)
    requires QuietStretch(r, ms) && TickTotal(ms, |ms|) >= ReturnBound(r.policy)
    requires forall i :: 0 <= i < |ms| ==> !Follows(After(r, ms, i), ms[i])
    ensures After(r, ms, |ms|).OnControl()
  {
    ReturnsToControl(r, ms);
    var i :| 0 <= i <= |ms| && After(r, ms, i).OnControl();
    StaysThere(r, ms, i);
  }

  /** One sample less is not enough: a terminator at the last moment starts the pause. */
  lemma ReturnBoundIsSharp(r: Recv)
    requires r.Valid() && r.policy.state == r.policy.TrafficState(false)
    requires r.policy.watchdogTime >= 1 && r.policy.pauseTime >= 1
    requires r.policy.Fits(r.policy.watchdogTime) && r.policy.Fits(r.policy.pauseTime)
    ensures var ms := [Tick(r.policy.watchdogTime - 1), NidSeen(VoiceLCTerminator),
                       Tick(r.policy.pauseTime - 1)];
            && TickTotal(ms, 3) == ReturnBound(r.policy) - 1
            && forall i :: 0 <= i <= 3 ==> !After(r, ms, i).OnControl()
  {
    var ms := [Tick(r.policy.watchdogTime - 1), NidSeen(VoiceLCTerminator),
               Tick(r.policy.pauseTime - 1)];
    assert After(r, ms, 0) == r;
    assert !After(r, ms, 1).OnControl() && After(r, ms, 1).policy.state.Traffic?;
    assert After(r, ms, 2).policy.state == Paused(Timer(r.policy.pauseTime, 0));
    assert !After(r, ms, 3).OnControl();
    assert TickTotal(ms, 1) == r.policy.watchdogTime - 1;
    assert TickTotal(ms, 2) == r.policy.watchdogTime - 1;
  }
}
