/**
 The trunking receiver as a state machine: what each decoded stimulus does to the tuning,
 the policy, the talkgroup selection and the three outgoing message queues.
 */
module Receiver {
  import opened P25
  import opened Policy
  import opened Talkgroups

  /** Something the receiver reacts to. */
  datatype Stimulus =
    | Clock(samples: nat)
    | Tick(samples: nat)
    | NidSeen(dataUnit: DataUnit)
    | TermSeen
    | CryptoSeen(alg: CryptoAlgorithm)
    | FrameSeen(frame: VoiceFrame)
    | TsbkSeen(tsbk: Tsbk)
    | LcSeen(lc: LinkControlWord)
    | GrantSeen(talkgroup: TalkGroup, channel: Channel)
    | ParamsSeen(id: nat, params: ChannelParams)
    | PreemptCheck
    | Retune(freq: Freq)

  /** Value of the receiver's fields; each queue lists everything sent on it so far. */
  datatype Recv = Recv(
    rxFreq: (ChannelParams, nat) -> Freq, hopping: bool,
    ctlfreq: Freq, curfreq: Freq, curgroup: Group,
    policy: PolicyState, talkgroups: Selection, channels: map<nat, ChannelParams>,
    hub: seq<HubEvent>, sdr: seq<Freq>, audio: seq<AudioEvent>, resyncs: nat)
  {
    ghost predicate Valid() {
      talkgroups.Valid()
    }

    predicate OnControl() {
      policy.OnControl()
    }

    function Send(e: HubEvent): Recv {
      this.(hub := hub + [e])
    }

    function Resync(): Recv {
      this.(resyncs := resyncs + 1)
    }

    function SetFreq(freq: Freq): Recv {
      this.(curfreq := freq).Send(UpdateCurFreq(freq)).(sdr := sdr + [freq]).Resync()
    }

    function SwitchControl(): Recv {
      var r := this.(audio := audio + [EndTransmission]).SetFreq(ctlfreq);
      r.(policy := r.policy.React(EnterControl).policy)
    }

    ghost function ChangeControlFreq(freq: Freq): (r: Recv)
      requires Valid()
      ensures r.Valid()
    {
      var r := if freq != ctlfreq
               then this.(channels := map[], talkgroups := talkgroups.Next(ClearState))
               else this;
      r.(ctlfreq := freq).Send(State(UpdateCtlFreq(freq))).SwitchControl()
    }

    function SelectTalkgroup(pick: Pick): Recv {
      if !hopping then this
      else
        var r := this.(curgroup := pick.group).SetFreq(pick.freq);
        r.(policy := r.policy.React(EnterTraffic).policy).Send(UpdateTalkGroup(pick.group))
    }

    /** Ask the selection for a talkgroup, and follow what it returns. */
    ghost function Select(op: SelectionOp): (r: Recv)
      requires Valid()
      ensures r.Valid()
    {
      var pick := talkgroups.Outcome(op);
      var r := this.(talkgroups := talkgroups.Next(op));
      if pick.Some? then r.SelectTalkgroup(pick.value) else r
    }

    ghost function HandlePolicy(event: Option<PolicyEvent>): (r: Recv)
      requires Valid()
      ensures r.Valid()
    {
      match event
      case None => this
      case Some(Resync) => this.Resync()
      case Some(ReturnControl) => SwitchControl()
      case Some(ChooseTalkgroup) => Select(SelectIdle)
    }

    ghost function Consult(op: PolicyOp): (r: Recv)
      requires Valid()
      ensures r.Valid()
    {
      var reaction := policy.React(op);
      this.(policy := reaction.policy).HandlePolicy(reaction.event)
    }

    function HandleCrypto(alg: CryptoAlgorithm): Recv
    {
      var r := SwitchControl();
      r.(talkgroups := r.talkgroups.(encrypted := r.talkgroups.encrypted[curgroup := alg]))
       .Send(State(UpdateEncrypted(curgroup, alg)))
    }

    function AddTalkgroup(tg: TalkGroup, ch: Channel): Recv {
      if tg.Other? && ch.id in channels
      then this.(talkgroups := talkgroups.Add(tg.group, rxFreq(channels[ch.id], ch.number)))
      else this
    }

    function UpdateParams(id: nat, params: ChannelParams): Recv {
      this.(channels := channels[id := params]).Send(State(UpdateChannelParams(id, params)))
    }

    /** The receiver after a stimulus. */
    ghost function Apply(m: Stimulus): (r: Recv)
      requires Valid()
      ensures r.Valid()
    {
      match m
      case Clock(n) => this.(talkgroups := talkgroups.Next(RecordElapsed(n)))
      case Tick(n) => Consult(Elapsed(n))
      case NidSeen(u) => Consult(Nid(u))
      case TermSeen => Consult(CallTerm)
      case CryptoSeen(alg) => HandleCrypto(alg)
      case FrameSeen(frame) => this.(audio := audio + [Voice(frame)])
      case TsbkSeen(tsbk) => Send(TrunkingControl(tsbk))
      case LcSeen(lc) => Send(LinkControl(lc))
      case GrantSeen(tg, ch) => AddTalkgroup(tg, ch)
      case ParamsSeen(id, params) => UpdateParams(id, params)
      case PreemptCheck => Select(SelectPreempt)
      case Retune(freq) => ChangeControlFreq(freq)
    }
  }

  ghost function NewRecv(rxFreq: (ChannelParams, nat) -> Freq, hopping: bool, ctlfreq: Freq,
                         policy: PolicyState, talkgroups: Selection): (r: Recv)
    requires talkgroups.Valid()
    ensures r.Valid()
  {
    Recv(rxFreq, hopping, U32_MAX, U32_MAX, 0, policy, talkgroups, map[], [], [], [], 0)
    .ChangeControlFreq(ctlfreq)
  }

  // ---------------------------------------------------------------- parsing

  function OfUpdates(updates: seq<(Channel, TalkGroup)>): (ms: seq<Stimulus>)
  {
    seq(|updates|, i requires 0 <= i < |updates| => GrantSeen(updates[i].1, updates[i].0))
  }

  function OfTsbk(tsbk: Tsbk): seq<Stimulus> {
    if tsbk.mfg != 0 || !tsbk.crcValid || tsbk.body.UnknownTsbk? then []
    else
      [TsbkSeen(tsbk)]
      + match tsbk.body
        case GroupVoiceGrant(tg, ch) => [GrantSeen(tg, ch)]
        case GroupVoiceUpdate(updates) => OfUpdates(updates)
        case ChannelParamsUpdate(id, params) => [ParamsSeen(id, params)]
        case _ => []
  }

  function OfLinkControl(lc: LinkControlWord): seq<Stimulus> {
    if lc.UnknownLc? then []
    else
      [LcSeen(lc)]
      + match lc
        case CallTermination => [TermSeen]
        case LcGroupVoiceUpdate(updates) => OfUpdates(updates) + [PreemptCheck]
        case _ => []
  }

  function OfCrypto(alg: CryptoAlgorithm): seq<Stimulus> {
    if alg.Unencrypted? then [] else [CryptoSeen(alg)]
  }

  function OfMessage(e: MessageEvent): seq<Stimulus> {
    match e
    case DecodeError => []
    case PacketNID(u) => [NidSeen(u)]
    case HeaderPacket(alg) => OfCrypto(alg)
    case LinkControlPacket(lc) => OfLinkControl(lc)
    case CryptoControlPacket(alg) => OfCrypto(alg)
    case LowSpeedDataFragment => []
    case VoicePacket(frame) => [FrameSeen(frame)]
    case TrunkingPacket(tsbk) => OfTsbk(tsbk)
    case VoiceTermPacket(lc) => OfLinkControl(lc)
  }

  function OfSample(s: Option<MessageEvent>): seq<Stimulus> {
    if s.Some? then OfMessage(s.value) else []
  }

  /** The stimuli in the first `n` samples of a chunk. */
  function OfSamples(samples: seq<Option<MessageEvent>>, n: nat): seq<Stimulus>
    requires n <= |samples|
  {
    if n == 0 then [] else OfSamples(samples, n - 1) + OfSample(samples[n - 1])
  }

  /** A chunk advances the talkgroup clock first and the policy timer last. */
  function OfEvent(e: RecvEvent): seq<Stimulus> {
    match e
    case Baseband(samples) =>
      [Clock(|samples|)] + OfSamples(samples, |samples|) + [Tick(|samples|)]
    case SetControlFreq(freq) => [Retune(freq)]
    case ResetStats => []
  }

  /** The stimuli in the first `n` events. */
  function OfEvents(events: seq<RecvEvent>, n: nat): seq<Stimulus>
    requires n <= |events|
  {
    if n == 0 then [] else OfEvents(events, n - 1) + OfEvent(events[n - 1])
  }

  // ---------------------------------------------------------------- runs

  /** The receiver after the first `n` stimuli. */
  ghost function After(r: Recv, ms: seq<Stimulus>, n: nat): (q: Recv)
    requires r.Valid() && n <= |ms|
    ensures q.Valid()
  {
    if n == 0 then r else After(r, ms, n - 1).Apply(ms[n - 1])
  }

  ghost function Run(r: Recv, ms: seq<Stimulus>): (q: Recv)
    requires r.Valid()
    ensures q.Valid()
  {
    After(r, ms, |ms|)
  }

  lemma {:induction false} AfterPrefix(r: Recv, a: seq<Stimulus>, b: seq<Stimulus>, n: nat)
    requires r.Valid() && n <= |a|
    ensures After(r, a + b, n) == After(r, a, n)
  {
    if n > 0 {
      AfterPrefix(r, a, b, n - 1);
    }
  }

  /** Running on continues from where the first part ended. */
  lemma {:induction false} AfterConcat(r: Recv, a: seq<Stimulus>, b: seq<Stimulus>, n: nat)
    requires r.Valid() && n <= |b|
    ensures After(r, a + b, |a| + n) == After(Run(r, a), b, n)
  {
    if n == 0 {
      AfterPrefix(r, a, b, |a|);
    } else {
      AfterConcat(r, a, b, n - 1);
    }
  }

  lemma RunConcat(r: Recv, a: seq<Stimulus>, b: seq<Stimulus>)
    requires r.Valid()
    ensures Run(r, a + b) == Run(Run(r, a), b)
  {
    AfterConcat(r, a, b, |b|);
  }

  lemma RunOne(r: Recv, m: Stimulus)
    requires r.Valid()
    ensures Run(r, [m]) == r.Apply(m)
  {
    assert After(r, [m], 0) == r;
  }

  lemma RunHead(r: Recv, m: Stimulus, rest: seq<Stimulus>)
    requires r.Valid()
    ensures Run(r, [m] + rest) == Run(r.Apply(m), rest)
  {
    RunOne(r, m);
    RunConcat(r, [m], rest);
  }

  lemma RunLast(r: Recv, ms: seq<Stimulus>, m: Stimulus)
    requires r.Valid()
    ensures Run(r, ms + [m]) == Run(r, ms).Apply(m)
  {
    RunOne(Run(r, ms), m);
    RunConcat(r, ms, [m]);
  }
}
