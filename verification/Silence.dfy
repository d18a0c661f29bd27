/** Where a stretch without voice ends: on the control channel, or in a visit begun meanwhile. */
module Silence {
  import opened P25
  import opened Words
  import opened Policy
  import opened Receiver
  import opened History
  import opened Tuning
  import opened Pacing
  import opened Reaching

  /** The stimulus takes a receiver that is not on control back there at once. */
  predicate Recalls(m: Stimulus) {
    m.TermSeen? || m.CryptoSeen? || m.Retune?
  }

  /** A tick comes between the stimuli at `f` and `n`. */
  ghost predicate Ticked(ms: seq<Stimulus>, f: nat, n: nat)
    requires n <= |ms|
  {
    exists j :: f < j < n && ms[j].Tick?
  }

  ghost predicate Recalled(ms: seq<Stimulus>, f: nat, n: nat)
    requires n <= |ms|
  {
    exists j :: f < j < n && Recalls(ms[j])
  }

  /** What was followed at `f` is over by `n`: recalled, or the watchdog has run out. */
  ghost predicate Over(ms: seq<Stimulus>, f: nat, n: nat, watchdog: nat)
    requires f < n <= |ms|
  {
    Recalled(ms, f, n)
    || (Ticked(ms, f, n) && TickTotal(ms, n) - TickTotal(ms, f + 1) >= watchdog)
  }

  /** Without voice a visit stays as it began, its watchdog counting every sample. */
  ghost predicate Silent(p: PolicyState, elapsed: int) {
    p.state.Traffic? && p.state.init && p.state.t.cur == elapsed
  }

  lemma SilentStep(p: PolicyState, m: Stimulus, elapsed: nat)
    requires p.TimerOk() && p.Fits(TickLength(m)) && !VoiceNid(m) && Silent(p, elapsed)
    ensures var q := PolicyNext(p, m, false);
            if Recalls(m) || (m.Tick? && elapsed + m.samples >= p.watchdogTime) then q.OnControl()
            else Silent(q, elapsed + TickLength(m))
  {
  }

  lemma TickTotalGrows(ms: seq<Stimulus>, a: nat, b: nat)
    requires a <= b <= |ms|
    ensures TickTotal(ms, a) <= TickTotal(ms, b)
  {
  }

  lemma FollowedIsSilent(p: PolicyState, m: Stimulus)
    requires CanFollow(p, m)
    ensures Silent(PolicyNext(p, m, true), 0)
  {
  }

  lemma OverNext(ms: seq<Stimulus>, f: nat, n: nat, watchdog: nat)
    requires f < n < |ms|
    ensures Recalled(ms, f, n + 1) <==> Recalled(ms, f, n) || Recalls(ms[n])
    ensures Ticked(ms, f, n + 1) <==> Ticked(ms, f, n) || ms[n].Tick?
    ensures TickTotal(ms, n + 1) == TickTotal(ms, n) + TickLength(ms[n])
  {
  }

  /** After the last visit began, the policy is on control exactly if that visit is over. */
  lemma {:induction false} SilenceAlong(ps: seq<PolicyState>, fs: seq<bool>, ms: seq<Stimulus>, f: nat, n: nat)
    requires PolicyRun(ps, fs, ms) && ps[0].TimerOk() && ChunksFit(ps[0], ms)
    requires f < n <= |ms| && fs[f] && forall i :: f < i < n ==> !fs[i] && !VoiceNid(ms[i])
    ensures if Over(ms, f, n, ps[0].watchdogTime) then ps[n].OnControl()
            else Silent(ps[n], TickTotal(ms, n) - TickTotal(ms, f + 1))
  {
    SoundAlways(ps, fs, ms, n - 1);
    if n == f + 1 {
      FollowedIsSilent(ps[f], ms[f]);
    } else {
      var i := n - 1;
      SilenceAlong(ps, fs, ms, f, i);
      TickTotalGrows(ms, f + 1, i);
      OverNext(ms, f, i, ps[0].watchdogTime);
      if Over(ms, f, i, ps[0].watchdogTime) {
        StaysOnControl(ps, fs, ms, i, n);
      } else {
        SilentStep(ps[i], ms[i], TickTotal(ms, i) - TickTotal(ms, f + 1));
      }
    }
  }

  /** The last stimulus of the run at which a talkgroup is followed. */
  ghost predicate LastFollow(r: Recv, ms: seq<Stimulus>, f: nat)
    requires r.Valid()
  {
    && f < |ms| && Follows(After(r, ms, f), ms[f])
    && forall i :: f < i < |ms| ==> !Follows(After(r, ms, i), ms[i])
  }

  /** After the last visit of a run began, silence ends on control iff that visit is over. */
  lemma EndsIffOver(r: Recv, ms: seq<Stimulus>, f: nat)
    requires r.Valid() && r.policy.TimerOk() && ChunksFit(r.policy, ms) && LastFollow(r, ms, f)
    requires forall i :: f < i < |ms| ==> !VoiceNid(ms[i])
    ensures After(r, ms, |ms|).OnControl() <==> Over(ms, f, |ms|, r.policy.watchdogTime)
  {
    var ps, fs := PoliciesAlong(r, ms);
    AlongIsRun(r, ms, ps, fs);
    SilenceAlong(ps, fs, ms, f, |ms|);
  }

  lemma {:induction false} LastTrue(fs: seq<bool>, n: nat) returns (f: nat)
    requires n <= |fs| && forall i :: n <= i < |fs| ==> !fs[i]
    requires exists i :: 0 <= i < n && fs[i]
    ensures f < |fs| && fs[f] && forall i :: f < i < |fs| ==> !fs[i]
  {
    if fs[n - 1] {
      f := n - 1;
    } else {
      f := LastTrue(fs, n - 1);
    }
  }

  /** If anything is followed, one stimulus is the last to be. */
  lemma LastFollowExists(r: Recv, ms: seq<Stimulus>, k: nat) returns (f: nat)
    requires r.Valid() && k < |ms| && Follows(After(r, ms, k), ms[k])
    ensures LastFollow(r, ms, f)
  {
    var ps, fs := PoliciesAlong(r, ms);
    assert fs[k];
    f := LastTrue(fs, |fs|);
  }

  /** Every visit that is the last to begin is over. */
  ghost predicate VisitsAreOver(r: Recv, ms: seq<Stimulus>, watchdog: nat)
    requires r.Valid()
  {
    forall f: nat :: LastFollow(r, ms, f) ==> Over(ms, f, |ms|, watchdog)
  }

  /**
   From off control, a silent stretch of at least the bound ends on the control channel if and
   only if the last visit begun in it, if any, is over by then.
   */
  lemma EndsOnControlIff(r: Recv, ms: seq<Stimulus>)
    requires SilentStretch(r, ms) && TickTotal(ms, |ms|) >= ReturnBound(r.policy)
    ensures After(r, ms, |ms|).OnControl() <==> VisitsAreOver(r, ms, r.policy.watchdogTime)
  {
    if forall i :: 0 <= i < |ms| ==> !Follows(After(r, ms, i), ms[i]) {
      EndsOnControl(r, ms);
    } else {
      var k: nat :| k < |ms| && Follows(After(r, ms, k), ms[k]);
      var f := LastFollowExists(r, ms, k);
      EndsIffOver(r, ms, f);
      assert forall g: nat :: LastFollow(r, ms, g) ==> g == f;
    }
  }

  /**
   From any reachable state off control, a long enough silence ends on the control channel if
   and only if the last visit begun in it, if any, was recalled by a termination, by encryption
   or by a change of site, or has lasted for the watchdog time.
   */
  lemma SilenceEndsIff(c: Config, past: seq<Stimulus>, events: seq<RecvEvent>)
    requires !Run(Boot(c), past).OnControl() && LongSilence(events, Run(Boot(c), past).policy)
    ensures var r, ms := Run(Boot(c), past), OfEvents(events, |events|);
            Run(r, ms).OnControl() <==> VisitsAreOver(r, ms, c.watchdog)
  {
    var r := Run(Boot(c), past);
    ReachableTimerOk(c, past);
    LongSilenceIsSilent(r, events);
    EndsOnControlIff(r, OfEvents(events, |events|));
  }
  // ---------------------------------------------------------------- a silence that ends in a visit

  lemma {:induction false} NothingDecoded(n: nat, k: nat)
    requires n <= k
    ensures OfSamples(seq(k, i => None), n) == []
  {
    if n > 0 {
      NothingDecoded(n - 1, k);
    }
  }

  /** A chunk of `k` samples in which nothing is decoded. */
  function Static(k: nat): RecvEvent {
    Baseband(seq(k, i => None))
  }

  function Grant(g: Group, ch: Channel): Tsbk {
    Tsbk(0, true, GroupVoiceGrant(Other(g), ch))
  }

  /** A chunk in which a grant is decoded at the first sample, and nothing in `k` more. */
  function GrantChunk(g: Group, ch: Channel, k: nat): RecvEvent {
    Baseband([Some(TrunkingPacket(Grant(g, ch)))] + seq(k, i => None))
  }

  lemma {:induction false} GrantDecoded(g: Group, ch: Channel, k: nat, n: nat)
    requires n <= k
    ensures OfSamples([Some(TrunkingPacket(Grant(g, ch)))] + seq(k, i => None), n + 1)
         == [TsbkSeen(Grant(g, ch)), GrantSeen(Other(g), ch)]
  {
    var samples := [Some(TrunkingPacket(Grant(g, ch)))] + seq(k, i => None);
    if n == 0 {
      assert OfSamples(samples, 0) == [];
    } else {
      GrantDecoded(g, ch, k, n - 1);
      assert samples[n] == None;
    }
  }

  /** Static for at least the watchdog time ends a visit. */
  lemma StaticReturns(r: Recv, c: Config, id: nat, k: nat)
    requires Listening(r, c, id) && r.policy.state == r.policy.TrafficState(true)
    requires r.policy.watchdogTime <= k < Pow2(r.policy.bits)
    ensures var q := Run(r, OfEvent(Static(k)));
            Listening(q, c, id) && q.policy == r.policy.(state := r.policy.ControlState())
  {
    NothingDecoded(k, k);
    var q := r.Apply(Clock(k));
    assert OfEvent(Static(k)) == [Clock(k)] + [Tick(k)];
    RunOne(r, Clock(k));
    RunLast(r, [Clock(k)], Tick(k));
    ListeningStep(r, c, id, Clock(k));
    ListeningStep(q, c, id, Tick(k));
  }

  /** A grant in a chunk of at least the selection time begins another one. */
  lemma GrantLeaves(r: Recv, c: Config, g: Group, ch: Channel, k: nat)
    requires Listening(r, c, ch.id) && c.hopping && !c.filter.Excluded(g)
    requires r.policy.state == r.policy.ControlState()
    requires r.policy.selectTime <= k + 1 < Pow2(r.policy.bits)
    ensures !Run(r, OfEvent(GrantChunk(g, ch, k))).OnControl()
  {
    GrantDecoded(g, ch, k, k);
    var a, b := Clock(k + 1), TsbkSeen(Grant(g, ch));
    assert OfEvent(GrantChunk(g, ch, k)) == [a] + [b] + [GrantSeen(Other(g), ch)] + [Tick(k + 1)];
    RunOne(r, a);
    RunLast(r, [a], b);
    RunLast(r, [a] + [b], GrantSeen(Other(g), ch));
    RunLast(r, [a] + [b] + [GrantSeen(Other(g), ch)], Tick(k + 1));
    ListeningStep(r, c, ch.id, a);
    ListeningStep(r.Apply(a), c, ch.id, b);
    VisitBegins(r.Apply(a).Apply(b), c, g, ch, k + 1);
  }

  /** Enough static to come back, and then a grant to leave again. */
  function LeavesAgain(p: PolicyState, g: Group, ch: Channel): seq<RecvEvent> {
    [Static(ReturnBound(p)), GrantChunk(g, ch, p.selectTime)]
  }

  lemma LeavesAgainIsSilent(p: PolicyState, q: PolicyState, g: Group, ch: Channel)
    requires q == p.(state := q.state) && p.Fits(ReturnBound(p)) && p.Fits(p.selectTime + 1)
    ensures LongSilence(LeavesAgain(p, g, ch), q)
  {
    var events := LeavesAgain(p, g, ch);
    assert SampleTotal(events, 1) == ReturnBound(p);
    assert SampleTotal(events, 2) >= ReturnBound(q);
    assert events[0].Baseband?;
  }

  /**
   Whatever the timeouts, a long silence can end in a visit: on the first visit of a new
   receiver, static for the whole bound, and a chunk with a grant long enough for a choice.
   */
  lemma SilenceCanEndOffControl(c: Config, g: Group, ch: Channel, params: ChannelParams)
    requires c.hopping && !c.filter.Excluded(g)
    requires var p := NewPolicy(c.bits, c.select, c.watchdog, c.pause);
             p.Fits(ReturnBound(p)) && p.Fits(c.select + 1)
    ensures var r := Run(Boot(c), FirstVisit(c, g, ch, params));
            var events := LeavesAgain(r.policy, g, ch);
            && !r.OnControl() && LongSilence(events, r.policy)
            && !Run(r, OfEvents(events, |events|)).OnControl()
  {
    var r := Run(Boot(c), FirstVisit(c, g, ch, params));
    var p := NewPolicy(c.bits, c.select, c.watchdog, c.pause);
    FirstVisitBegins(c, g, ch, params);
    LeavesAgainIsSilent(p, r.policy, g, ch);
    var events := LeavesAgain(p, g, ch);
    assert LeavesAgain(r.policy, g, ch) == events;
    StaticReturns(r, c, ch.id, ReturnBound(p));
    GrantLeaves(Run(r, OfEvent(events[0])), c, g, ch, c.select);
    assert OfEvents(events, 0) == [];
    assert OfEvents(events, 1) == OfEvent(events[0]);
    assert OfEvents(events, 2) == OfEvent(events[0]) + OfEvent(events[1]);
    RunConcat(r, OfEvent(events[0]), OfEvent(events[1]));
  }
}
