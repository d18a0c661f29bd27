/** The receiver task: its fields, updated in place as messages are handled. */
module ReceiverTask {
  import opened P25
  import opened Policy
  import opened Talkgroups
  import opened Receiver

  /** A chunk advances the clock, then handles its samples, then the policy timer. */
  lemma ChunkRun(r: Recv, samples: seq<Option<MessageEvent>>)
    requires r.Valid()
    ensures Run(r, OfEvent(Baseband(samples)))
         == Run(r.Apply(Clock(|samples|)), OfSamples(samples, |samples|)).Apply(Tick(|samples|))
  {
    var inner := OfSamples(samples, |samples|);
    RunHead(r, Clock(|samples|), inner);
    RunLast(r, [Clock(|samples|)] + inner, Tick(|samples|));
  }

  class RecvTask {
    const rxFreq: (ChannelParams, nat) -> Freq
    const hopping: bool
    var ctlfreq: Freq
    var curfreq: Freq
    var curgroup: Group
    const policy: ReceiverPolicy
    const talkgroups: TalkgroupSelection
    var channels: map<nat, ChannelParams>
    /** Messages sent to the hub, the SDR and the audio task, and restarts of the decoder. */
    var hub: seq<HubEvent>
    var sdr: seq<Freq>
    var audio: seq<AudioEvent>
    var resyncs: nat

    ghost function View(): Recv
      reads this, policy, talkgroups, talkgroups.feats
    {
      Recv(rxFreq, hopping, ctlfreq, curfreq, curgroup, policy.View(), talkgroups.View(),
           channels, hub, sdr, audio, resyncs)
    }

    ghost predicate Valid()
      reads this, policy, talkgroups, talkgroups.feats
    {
      talkgroups.Valid()
    }

    constructor (rxFreq: (ChannelParams, nat) -> Freq, freq: Freq, hopping: bool,
                 policy: ReceiverPolicy, talkgroups: TalkgroupSelection)
      requires talkgroups.Valid()
      modifies policy, talkgroups, talkgroups.feats
      ensures this.policy == policy && this.talkgroups == talkgroups
      ensures Valid()
      ensures View() == NewRecv(rxFreq, hopping, freq, old(policy.View()), old(talkgroups.View()))
    {
      this.rxFreq, this.hopping := rxFreq, hopping;
      this.policy, this.talkgroups := policy, talkgroups;
      ctlfreq, curfreq, curgroup := U32_MAX, U32_MAX, 0;
      channels := map[];
      hub, sdr, audio, resyncs := [], [], [], 0;
      new;
      SetControlFreq(freq);
    }

    method SetControlFreq(freq: Freq)
      requires Valid()
      modifies this, policy, talkgroups, talkgroups.feats
      ensures Valid() && View() == old(View()).ChangeControlFreq(freq)
    {
      if freq != ctlfreq {
        channels := map[];
        talkgroups.ClearState();
      }
      ctlfreq := freq;
      hub := hub + [State(UpdateCtlFreq(freq))];
      SwitchControl();
    }

    method SwitchControl()
      requires Valid()
      modifies this, policy
      ensures Valid() && View() == old(View()).SwitchControl()
    {
      audio := audio + [EndTransmission];
      SetFreq(ctlfreq);
      policy.EnterControl();
    }

    method SetFreq(freq: Freq)
      requires Valid()
      modifies this
      ensures Valid() && View() == old(View()).SetFreq(freq)
    {
      curfreq := freq;
      hub := hub + [UpdateCurFreq(freq)];
      sdr := sdr + [freq];
      resyncs := resyncs + 1;
    }

    method HandlePolicy(event: Option<PolicyEvent>)
      requires Valid()
      modifies this, policy, talkgroups, talkgroups.feats
      ensures Valid() && View() == old(View()).HandlePolicy(event)
    {
      match event {
        case None =>
        case Some(Resync) =>
          resyncs := resyncs + 1;
        case Some(ReturnControl) =>
          SwitchControl();
        case Some(ChooseTalkgroup) =>
          var pick := talkgroups.SelectIdle();
          if pick.Some? {
            SelectTalkgroup(pick.value.group, pick.value.freq);
          }
      }
    }

    method SelectTalkgroup(tg: Group, freq: Freq)
      requires Valid()
      modifies this, policy
      ensures Valid() && View() == old(View()).SelectTalkgroup(Pick(tg, freq))
    {
      if !hopping {
        return;
      }
      curgroup := tg;
      SetFreq(freq);
      policy.EnterTraffic();
      hub := hub + [UpdateTalkGroup(curgroup)];
    }

    /** Handle one message after another, as they arrive. */
    method HandleEvents(events: seq<RecvEvent>)
      requires Valid()
      modifies this, policy, talkgroups, talkgroups.feats
      ensures Valid() && View() == Run(old(View()), OfEvents(events, |events|))
    {
      ghost var start := View();
      for i := 0 to |events|
        invariant Valid() && View() == Run(start, OfEvents(events, i))
      {
        RunConcat(start, OfEvents(events, i), OfEvent(events[i]));
        HandleEvent(events[i]);
      }
    }

    method HandleEvent(event: RecvEvent)
      requires Valid()
      modifies this, policy, talkgroups, talkgroups.feats
      ensures Valid() && View() == Run(old(View()), OfEvent(event))
    {
      match event {
        case Baseband(samples) =>
          HandleChunk(samples);
        case SetControlFreq(freq) =>
          RunOne(View(), Retune(freq));
          SetControlFreq(freq);
        case ResetStats =>
      }
    }

    method HandleChunk(samples: seq<Option<MessageEvent>>)
      requires Valid()
      modifies this, policy, talkgroups, talkgroups.feats
      ensures Valid() && View() == Run(old(View()), OfEvent(Baseband(samples)))
    {
      ghost var start := View();
      talkgroups.RecordElapsed(|samples|);
      ghost var clocked := View();
      for i := 0 to |samples|
        invariant Valid() && View() == Run(clocked, OfSamples(samples, i))
      {
        RunConcat(clocked, OfSamples(samples, i), OfSample(samples[i]));
        HandleSample(samples[i]);
      }
      ChunkRun(start, samples);
      var event := policy.HandleElapsed(|samples|);
      HandlePolicy(event);
    }

    /** Handle what the decoder returned for a sample. */
    method HandleSample(s: Option<MessageEvent>)
      requires Valid()
      modifies this, policy, talkgroups, talkgroups.feats
      ensures Valid() && View() == Run(old(View()), OfSample(s))
    {
      if s.None? {
        return;
      }
      match s.value {
        case DecodeError =>
        case PacketNID(u) =>
          RunOne(View(), NidSeen(u));
          var event := policy.HandleNid(u);
          HandlePolicy(event);
        case HeaderPacket(alg) =>
          HandleCrypto(alg);
        case LinkControlPacket(lc) =>
          HandleLc(lc);
        case CryptoControlPacket(alg) =>
          HandleCrypto(alg);
        case LowSpeedDataFragment =>
        case VoicePacket(frame) =>
          RunOne(View(), FrameSeen(frame));
          audio := audio + [Voice(frame)];
        case TrunkingPacket(tsbk) =>
          HandleTsbk(tsbk);
        case VoiceTermPacket(lc) =>
          HandleLc(lc);
      }
    }

    method HandleTsbk(tsbk: Tsbk)
      requires Valid()
      modifies this, talkgroups, talkgroups.feats
      ensures Valid() && View() == Run(old(View()), OfTsbk(tsbk))
    {
      if tsbk.mfg != 0 || !tsbk.crcValid || tsbk.body.UnknownTsbk? {
        return;
      }
      ghost var start := View();
      hub := hub + [TrunkingControl(tsbk)];
      RunHead(start, TsbkSeen(tsbk), OfTsbk(tsbk)[1..]);
      assert OfTsbk(tsbk) == [TsbkSeen(tsbk)] + OfTsbk(tsbk)[1..];
      match tsbk.body {
        case GroupVoiceGrant(tg, ch) =>
          RunOne(View(), GrantSeen(tg, ch));
          AddTalkgroup(tg, ch);
        case GroupVoiceUpdate(updates) =>
          assert OfTsbk(tsbk)[1..] == OfUpdates(updates);
          HandleTrafficUpdates(updates);
        case ChannelParamsUpdate(id, params) =>
          RunOne(View(), ParamsSeen(id, params));
          channels := channels[id := params];
          hub := hub + [State(UpdateChannelParams(id, params))];
        case OtherTsbk =>
      }
    }

    method HandleLc(lc: LinkControlWord)
      requires Valid()
      modifies this, policy, talkgroups, talkgroups.feats
      ensures Valid() && View() == Run(old(View()), OfLinkControl(lc))
    {
      if lc.UnknownLc? {
        return;
      }
      ghost var start := View();
      hub := hub + [LinkControl(lc)];
      RunHead(start, LcSeen(lc), OfLinkControl(lc)[1..]);
      assert OfLinkControl(lc) == [LcSeen(lc)] + OfLinkControl(lc)[1..];
      match lc {
        case CallTermination =>
          RunOne(View(), TermSeen);
          var event := policy.HandleCallTerm();
          HandlePolicy(event);
        case LcGroupVoiceUpdate(updates) =>
          assert OfLinkControl(lc)[1..] == OfUpdates(updates) + [PreemptCheck];
          RunLast(View(), OfUpdates(updates), PreemptCheck);
          HandleTrafficUpdates(updates);
          Preempt();
        case OtherLc =>
      }
    }

    /** Move to a preempting talkgroup if there is one. */
    method Preempt()
      requires Valid()
      modifies this, policy, talkgroups, talkgroups.feats
      ensures Valid() && View() == old(View()).Apply(PreemptCheck)
    {
      var pick := talkgroups.SelectPreempt();
      if pick.Some? {
        SelectTalkgroup(pick.value.group, pick.value.freq);
      }
    }

    method HandleTrafficUpdates(updates: seq<(Channel, TalkGroup)>)
      requires Valid()
      modifies talkgroups, talkgroups.feats
      ensures Valid() && View() == Run(old(View()), OfUpdates(updates))
    {
      ghost var start, ms := View(), OfUpdates(updates);
      for i := 0 to |updates|
        invariant Valid() && View() == After(start, ms, i)
      {
        AddTalkgroup(updates[i].1, updates[i].0);
      }
    }

    method HandleCrypto(alg: CryptoAlgorithm)
      requires Valid()
      modifies this, policy, talkgroups
      ensures Valid() && View() == Run(old(View()), OfCrypto(alg))
    {
      if alg.Unencrypted? {
        return;
      }
      RunOne(View(), CryptoSeen(alg));
      SwitchControl();
      talkgroups.RecordEncrypted(curgroup, alg);
      hub := hub + [State(UpdateEncrypted(curgroup, alg))];
    }

    method AddTalkgroup(tg: TalkGroup, ch: Channel)
      requires Valid()
      modifies talkgroups, talkgroups.feats
      ensures Valid() && View() == old(View()).Apply(GrantSeen(tg, ch))
    {
      if tg.Reserved? || ch.id !in channels {
        return;
      }
      talkgroups.AddTalkgroup(tg.group, rxFreq(channels[ch.id], ch.number));
    }
  }
}
