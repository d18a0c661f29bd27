/** What each kind of decoded message does to the receiver. */
module Decoding {
  import opened P25
  import opened Policy
  import opened Talkgroups
  import opened Receiver
  import opened History

  /** The receiver after a decoded message. */
  ghost function Decoded(r: Recv, e: MessageEvent): (q: Recv)
    requires r.Valid()
    ensures q.Valid()
  {
    Run(r, OfSample(Some(e)))
  }

  /** A visit that has just begun, or been resumed, and awaits its first voice unit. */
  predicate Awaiting(r: Recv) {
    r.policy.state.Traffic? && r.policy.state.init
  }

  predicate Live(r: Recv) {
    r.policy.state.Traffic? && !r.policy.state.init
  }

  /** The same receiver but for its policy's state and the restarts of the decoder. */
  ghost predicate OnlyPolicyMoves(r: Recv, q: Recv) {
    q == r.(policy := r.policy.(state := q.policy.state), resyncs := q.resyncs)
  }

  // ---------------------------------------------------------------- data units

  /** A decoded data unit sends nothing, and neither leaves the control channel nor returns to it. */
  lemma UnitMovesPolicy(r: Recv, u: DataUnit)
    requires r.Valid()
    ensures var q := Decoded(r, PacketNID(u));
            OnlyPolicyMoves(r, q) && (q.OnControl() <==> r.OnControl())
  {
    RunOne(r, NidSeen(u));
  }

  /** A voice unit restarts the watchdog: it makes a visit live, and resumes a paused one. */
  lemma VoiceRestartsWatchdog(r: Recv, u: DataUnit)
    requires r.Valid() && r.policy.TimerOk() && !r.OnControl() && u.Voice()
    ensures var q := Decoded(r, PacketNID(u));
            q.policy.state == Traffic(Timer(r.policy.watchdogTime, 0), r.policy.state.Paused?)
  {
    RunOne(r, NidSeen(u));
  }

  /** A terminator pauses a live visit; it changes nothing in any other state. */
  lemma TerminatorPauses(r: Recv, u: DataUnit)
    requires r.Valid() && u.Terminator()
    ensures var q := Decoded(r, PacketNID(u));
            if Live(r) then q.policy.state == Paused(Timer(r.policy.pauseTime, 0)) else q == r
  {
    RunOne(r, NidSeen(u));
  }

  /** No other unit, and no unit at all on control, changes the policy's state. */
  lemma OtherUnitsAreIgnored(r: Recv, u: DataUnit)
    requires r.Valid() && (r.OnControl() || (!u.Voice() && !u.Terminator()))
    ensures Decoded(r, PacketNID(u)).policy == r.policy
  {
    RunOne(r, NidSeen(u));
  }

  /** A trunking unit left over on a new traffic channel restarts the decoder; no other does. */
  lemma LeftoverRestartsDecoder(r: Recv, u: DataUnit)
    requires r.Valid()
    ensures Decoded(r, PacketNID(u)).resyncs
         == if Awaiting(r) && u == TrunkingSignaling then r.resyncs + 1 else r.resyncs
  {
    RunOne(r, NidSeen(u));
  }

  // ---------------------------------------------------------------- returning to control

  /** The receiver is back on control, the transmission is over, and `report` precedes the tuning. */
  predicate Returned(r: Recv, q: Recv, report: seq<HubEvent>, after: seq<HubEvent>) {
    && q.OnControl() && q.policy.state.t == Timer(r.policy.selectTime, 0)
    && q.curfreq == r.ctlfreq && q.ctlfreq == r.ctlfreq
    && q.hub == r.hub + report + [UpdateCurFreq(r.ctlfreq)] + after
    && q.sdr == r.sdr + [r.ctlfreq] && q.audio == r.audio + [EndTransmission]
    && q.resyncs == r.resyncs + 1
  }

  /** The messages that carry a link control word. */
  predicate CarriesLc(e: MessageEvent, lc: LinkControlWord) {
    e == LinkControlPacket(lc) || e == VoiceTermPacket(lc)
  }

  /** A decoded call termination ends a visit at once; on control it is only reported. */
  lemma TerminationReturns(r: Recv, e: MessageEvent)
    requires r.Valid() && CarriesLc(e, CallTermination)
    ensures var q := Decoded(r, e);
            if r.OnControl() then q == r.(hub := r.hub + [LinkControl(CallTermination)])
            else Returned(r, q, [LinkControl(CallTermination)], [])
                 && q.talkgroups == r.talkgroups && q.channels == r.channels
  {
    RunHead(r, LcSeen(CallTermination), [TermSeen]);
    RunOne(r.Apply(LcSeen(CallTermination)), TermSeen);
    assert OfSample(Some(e)) == [LcSeen(CallTermination)] + [TermSeen];
  }

  /** Words with an unknown opcode are ignored, and others without a meaning here are reported. */
  lemma OtherWordsAreReported(r: Recv, e: MessageEvent, lc: LinkControlWord)
    requires r.Valid() && CarriesLc(e, lc)
    ensures lc.UnknownLc? ==> Decoded(r, e) == r
    ensures lc.OtherLc? ==> Decoded(r, e) == r.(hub := r.hub + [LinkControl(lc)])
  {
    if lc.OtherLc? {
      assert OfSample(Some(e)) == [LcSeen(lc)];
      RunOne(r, LcSeen(lc));
    }
  }

  /** The messages that tell how the call is encrypted. */
  predicate CarriesCrypto(e: MessageEvent, alg: CryptoAlgorithm) {
    e == HeaderPacket(alg) || e == CryptoControlPacket(alg)
  }

  /**
   A header or control word of an encrypted call returns to control and records the current
   group; one of a clear call changes nothing.
   */
  lemma EncryptionReturns(r: Recv, e: MessageEvent, alg: CryptoAlgorithm)
    requires r.Valid() && CarriesCrypto(e, alg)
    ensures var q := Decoded(r, e);
            if alg == Unencrypted then q == r
            else
              && Returned(r, q, [], [State(UpdateEncrypted(r.curgroup, alg))])
              && q.talkgroups == r.talkgroups.(encrypted := r.talkgroups.encrypted[r.curgroup := alg])
              && q.channels == r.channels
  {
    if alg != Unencrypted {
      RunOne(r, CryptoSeen(alg));
    }
  }

  /** No other message is taken for a sign of encryption. */
  lemma OnlyCryptoIsSeen(e: MessageEvent, alg: CryptoAlgorithm)
    ensures CryptoSeen(alg) in OfSample(Some(e)) <==> CarriesCrypto(e, alg) && alg != Unencrypted
  {
  }

  // ---------------------------------------------------------------- the rest

  /** A voice frame goes to the audio task and nowhere else. */
  lemma FrameIsPlayed(r: Recv, frame: VoiceFrame)
    requires r.Valid()
    ensures Decoded(r, VoicePacket(frame)) == r.(audio := r.audio + [Voice(frame)])
  {
    RunOne(r, FrameSeen(frame));
  }

  /** Samples that complete no message, errors and low-speed data change nothing. */
  lemma NothingToDo(r: Recv)
    requires r.Valid()
    ensures Run(r, OfSample(None)) == r
    ensures Decoded(r, DecodeError) == r && Decoded(r, LowSpeedDataFragment) == r
  {
  }

  /**
   A request for a control frequency is followed at once; it clears what was learnt about the
   site exactly if the frequency is another one.
   */
  lemma RequestIsFollowed(r: Recv, freq: Freq)
    requires r.Valid()
    ensures var q := Run(r, OfEvent(SetControlFreq(freq)));
            && q.OnControl() && q.ctlfreq == freq && q.curfreq == freq && q.curgroup == r.curgroup
            && q.hub == r.hub + [State(UpdateCtlFreq(freq)), UpdateCurFreq(freq)]
            && q.sdr == r.sdr + [freq] && q.audio == r.audio + [EndTransmission]
            && (if freq == r.ctlfreq then q.talkgroups == r.talkgroups && q.channels == r.channels
                else q.channels == map[] && q.talkgroups.encrypted == map[]
                     && q.talkgroups.cur == [] && q.talkgroups.channels == map[])
  {
    RunOne(r, Retune(freq));
  }

  /** A request to clear the statistics does not concern the rest of the receiver. */
  lemma StatisticsAreApart(r: Recv)
    requires r.Valid()
    ensures Run(r, OfEvent(ResetStats)) == r
  {
  }

  lemma {:induction false} SamplesPrefix(a: seq<Option<MessageEvent>>, b: seq<Option<MessageEvent>>, n: nat)
    requires n <= |a|
    ensures OfSamples(a + b, n) == OfSamples(a, n)
  {
    if n > 0 {
      SamplesPrefix(a, b, n - 1);
    }
  }

  /** A further sample is handled after all the others... */
  lemma NextSample(r: Recv, before: seq<Option<MessageEvent>>, s: Option<MessageEvent>)
    requires r.Valid()
    ensures Run(r, OfSamples(before + [s], |before| + 1)) == Run(Run(r, OfSamples(before, |before|)), OfSample(s))
  {
    SamplesPrefix(before, [s], |before|);
    RunConcat(r, OfSamples(before, |before|), OfSample(s));
  }

  lemma {:induction false} EventsPrefix(a: seq<RecvEvent>, b: seq<RecvEvent>, n: nat)
    requires n <= |a|
    ensures OfEvents(a + b, n) == OfEvents(a, n)
  {
    if n > 0 {
      EventsPrefix(a, b, n - 1);
    }
  }

  /** ...and a further message of the receiver's queue after all before it. */
  lemma NextEvent(r: Recv, before: seq<RecvEvent>, e: RecvEvent)
    requires r.Valid()
    ensures Run(r, OfEvents(before + [e], |before| + 1)) == Run(Run(r, OfEvents(before, |before|)), OfEvent(e))
  {
    EventsPrefix(before, [e], |before|);
    RunConcat(r, OfEvents(before, |before|), OfEvent(e));
  }

  /** A new receiver knows nothing, and has announced and tuned to its first control channel. */
  lemma NewReceiver(c: Config)
    ensures var r := Boot(c);
            && r.OnControl() && r.ctlfreq == c.freq && r.curfreq == c.freq && r.curgroup == 0
            && r.hub == [State(UpdateCtlFreq(c.freq)), UpdateCurFreq(c.freq)]
            && r.sdr == [c.freq] && r.audio == [EndTransmission] && r.resyncs == 1
            && r.channels == map[] && r.talkgroups.cur == [] && r.talkgroups.encrypted == map[]
  {
  }

  // ---------------------------------------------------------------- restarts of the decoder

  /** How many of the first `n` stimuli are trunking units left over on a new traffic channel. */
  ghost function Leftovers(r: Recv, ms: seq<Stimulus>, n: nat): nat
    requires r.Valid() && n <= |ms|
  {
    if n == 0 then 0 else Leftovers(r, ms, n - 1) + Leftover(After(r, ms, n - 1), ms[n - 1])
  }

  ghost function Leftover(r: Recv, m: Stimulus): nat {
    if m == NidSeen(TrunkingSignaling) && Awaiting(r) then 1 else 0
  }

  lemma EventRestarts(r: Recv, event: Option<PolicyEvent>)
    requires r.Valid()
    ensures var q := r.HandlePolicy(event);
            && |q.sdr| >= |r.sdr|
            && q.resyncs - r.resyncs == |q.sdr| - |r.sdr| + if event == Some(Resync) then 1 else 0
  {
    match event
    case None =>
    case Some(Resync) =>
    case Some(ReturnControl) =>
    case Some(ChooseTalkgroup) =>
  }

  lemma TickRestarts(r: Recv, n: nat)
    requires r.Valid()
    ensures var q := r.Apply(Tick(n));
            |q.sdr| >= |r.sdr| && q.resyncs - r.resyncs == |q.sdr| - |r.sdr|
  {
    var x := r.policy.React(Elapsed(n));
    EventRestarts(r.(policy := x.policy), x.event);
  }

  lemma RestartStep(r: Recv, m: Stimulus)
    requires r.Valid()
    ensures var q := r.Apply(m);
            |q.sdr| >= |r.sdr| && q.resyncs - r.resyncs == |q.sdr| - |r.sdr| + Leftover(r, m)
  {
    if m.Tick? {
      TickRestarts(r, m.samples);
    }
  }

  /** In every run the decoder is restarted once for each tuning and once for each leftover unit. */
  lemma {:induction false} RestartsAreCounted(c: Config, ms: seq<Stimulus>, n: nat)
    requires n <= |ms|
    ensures var r := After(Boot(c), ms, n);
            r.resyncs == |r.sdr| + Leftovers(Boot(c), ms, n)
  {
    if n > 0 {
      RestartsAreCounted(c, ms, n - 1);
      RestartStep(After(Boot(c), ms, n - 1), ms[n - 1]);
    }
  }
}
