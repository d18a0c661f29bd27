/**
 The receiver reduced to what others can observe: its messages, whether it is on the control
 channel, the site state it shares with the hub, and a history of its visits to talkgroups.
 */
module Outline {
  import opened P25
  import opened Policy
  import opened Talkgroups
  import opened Receiver
  import opened History
  import opened Pacing

  /** What a stimulus amounts to for the rest of the system. */
  datatype Effect =
    | Nothing
    | Note(event: HubEvent)
    | Params(id: nat, params: ChannelParams)
    | Return
    | Crypto(group: Group, alg: CryptoAlgorithm)
    | Follow(pick: Pick)
    | Site(freq: Freq)
    | Frame(frame: VoiceFrame)
  {
    /** The effect ends the transmission and leaves the receiver on control. */
    predicate Ends() {
      Return? || Crypto? || Site?
    }

    function HubPart(ctl: Freq): seq<HubEvent> {
      match this
      case Note(e) => [e]
      case Params(id, params) => [State(UpdateChannelParams(id, params))]
      case Return => [UpdateCurFreq(ctl)]
      case Crypto(g, alg) => [UpdateCurFreq(ctl), State(UpdateEncrypted(g, alg))]
      case Follow(pick) => [UpdateCurFreq(pick.freq), UpdateTalkGroup(pick.group)]
      case Site(freq) => [State(UpdateCtlFreq(freq)), UpdateCurFreq(freq)]
      case _ => []
    }

    function SdrPart(ctl: Freq): seq<Freq> {
      match this
      case Return => [ctl]
      case Crypto(_, _) => [ctl]
      case Follow(pick) => [pick.freq]
      case Site(freq) => [freq]
      case _ => []
    }

    function AudioPart(): seq<AudioEvent> {
      if Ends() then [EndTransmission] else if Frame? then [Voice(frame)] else []
    }

    /** Only calls are noted, never state, tuning or talkgroup messages. */
    predicate Plain() {
      Note? ==> event.TrunkingControl? || event.LinkControl?
    }
  }

  /** A visit to a talkgroup: whether it began on control, and the decoder then in use. */
  datatype Visit = Visit(fromControl: bool, generation: nat)

  /**
   `generation` counts the ends of transmission, each of which replaces the voice decoder;
   `tags` gives for every audio message the visit it was sent in, if any.
   */
  datatype Outline = Outline(
    ctl: Freq, on: bool, hub: seq<HubEvent>, sdr: seq<Freq>, audio: seq<AudioEvent>,
    channels: map<nat, ChannelParams>, encrypted: map<Group, CryptoAlgorithm>,
    generation: nat, visits: seq<Visit>, tags: seq<Option<nat>>)
  {
    function Do(e: Effect): Outline {
      var moved := e.Site? && e.freq != ctl;
      Outline(
        if e.Site? then e.freq else ctl,
        if e.Follow? then false else on || e.Ends(),
        hub + e.HubPart(ctl),
        sdr + e.SdrPart(ctl),
        audio + e.AudioPart(),
        if moved then map[] else if e.Params? then channels[e.id := e.params] else channels,
        if moved then map[] else if e.Crypto? then encrypted[e.group := e.alg] else encrypted,
        if e.Ends() then generation + 1 else generation,
        if e.Follow? then visits + [Visit(on, generation)] else visits,
        tags + if e.Ends() then [None]
               else if e.Frame? then [if on || visits == [] then None else Some(|visits| - 1)]
               else [])
    }
  }

  /** Before the receiver tunes to its first control channel. */
  const START := Outline(U32_MAX, true, [], [], [], map[], map[], 0, [], [])

  function OutlineAfter(o: Outline, es: seq<Effect>, n: nat): Outline
    requires n <= |es|
  {
    if n == 0 then o else OutlineAfter(o, es, n - 1).Do(es[n - 1])
  }

  ghost function EffectOf(r: Recv, m: Stimulus): Effect
    requires r.Valid()
  {
    match m
    case Tick(n) =>
      if r.policy.React(Elapsed(n)).event == Some(ReturnControl) then Return
      else if Follows(r, m) then Follow(PickBy(r, m).value) else Nothing
    case TermSeen => if r.OnControl() then Nothing else Return
    case CryptoSeen(alg) => Crypto(r.curgroup, alg)
    case FrameSeen(frame) => Frame(frame)
    case TsbkSeen(tsbk) => Note(TrunkingControl(tsbk))
    case LcSeen(lc) => Note(LinkControl(lc))
    case ParamsSeen(id, params) => Params(id, params)
    case PreemptCheck => if Follows(r, m) then Follow(PickBy(r, m).value) else Nothing
    case Retune(freq) => Site(freq)
    case _ => Nothing
  }

  /** The outline shows the receiver's observable fields. */
  ghost predicate Shows(o: Outline, r: Recv) {
    && o.ctl == r.ctlfreq && o.on == r.OnControl()
    && o.hub == r.hub && o.sdr == r.sdr && o.audio == r.audio
    && o.channels == r.channels && o.encrypted == r.talkgroups.encrypted
  }

  /** The messages sent from `r` to `q` are those of the effect. */
  ghost predicate Sends(r: Recv, e: Effect, q: Recv) {
    && q.hub == r.hub + e.HubPart(r.ctlfreq)
    && q.sdr == r.sdr + e.SdrPart(r.ctlfreq)
    && q.audio == r.audio + e.AudioPart()
    && q.ctlfreq == if e.Site? then e.freq else r.ctlfreq
  }

  lemma SwitchSends(r: Recv)
    ensures Sends(r, Return, r.SwitchControl())
  {
  }

  lemma CryptoSends(r: Recv, alg: CryptoAlgorithm)
    ensures Sends(r, Crypto(r.curgroup, alg), r.HandleCrypto(alg))
  {
    SwitchSends(r);
    assert r.HandleCrypto(alg).hub == r.SwitchControl().hub + [State(UpdateEncrypted(r.curgroup, alg))];
  }

  lemma SiteSends(r: Recv, freq: Freq)
    requires r.Valid()
    ensures Sends(r, Site(freq), r.ChangeControlFreq(freq))
  {
  }

  lemma SelectSends(r: Recv, op: SelectionOp)
    requires r.Valid()
    ensures var pick := r.talkgroups.Outcome(op);
            Sends(r, if r.hopping && pick.Some? then Follow(pick.value) else Nothing, r.Select(op))
  {
  }

  lemma EventSends(r: Recv, event: Option<PolicyEvent>)
    requires r.Valid()
    ensures var pick := r.talkgroups.Outcome(SelectIdle);
            Sends(r, if event == Some(ReturnControl) then Return
                     else if event == Some(ChooseTalkgroup) && r.hopping && pick.Some? then Follow(pick.value)
                     else Nothing,
                  r.HandlePolicy(event))
  {
    match event
    case None =>
    case Some(Resync) =>
    case Some(ReturnControl) => SwitchSends(r);
    case Some(ChooseTalkgroup) => SelectSends(r, SelectIdle);
  }

  lemma ConsultSends(r: Recv, op: PolicyOp)
    requires r.Valid() && !op.EnterTraffic? && !op.EnterControl?
    ensures var event := r.policy.React(op).event;
            var pick := r.talkgroups.Outcome(SelectIdle);
            Sends(r, if event == Some(ReturnControl) then Return
                     else if event == Some(ChooseTalkgroup) && r.hopping && pick.Some? then Follow(pick.value)
                     else Nothing,
                  r.Consult(op))
  {
    var x := r.policy.React(op);
    EventSends(r.(policy := x.policy), x.event);
  }

  lemma TickSends(r: Recv, n: nat)
    requires r.Valid()
    ensures Sends(r, EffectOf(r, Tick(n)), r.Apply(Tick(n)))
  {
    ConsultSends(r, Elapsed(n));
  }

  lemma NidSends(r: Recv, u: DataUnit)
    requires r.Valid()
    ensures Sends(r, Nothing, r.Apply(NidSeen(u)))
  {
    ConsultSends(r, Nid(u));
  }

  lemma TuningShown(r: Recv, m: Stimulus)
    requires r.Valid()
    ensures Sends(r, EffectOf(r, m), r.Apply(m))
  {
    if m.Tick? {
      TickSends(r, m.samples);
    } else if m.NidSeen? {
      NidSends(r, m.dataUnit);
    } else if m.TermSeen? {
      ConsultSends(r, CallTerm);
    } else if m.CryptoSeen? {
      CryptoSends(r, m.alg);
    } else if m.PreemptCheck? {
      SelectSends(r, SelectPreempt);
    } else if m.Retune? {
      SiteSends(r, m.freq);
    }
  }

  /** From `r` to `q` the site state and the policy change as the effect says. */
  ghost predicate Settles(r: Recv, e: Effect, q: Recv) {
    var moved := e.Site? && e.freq != r.ctlfreq;
    && q.OnControl() == (if e.Follow? then false else r.OnControl() || e.Ends())
    && q.channels == (if moved then map[]
                      else if e.Params? then r.channels[e.id := e.params] else r.channels)
    && q.talkgroups.encrypted
       == (if moved then map[]
           else if e.Crypto? then r.talkgroups.encrypted[e.group := e.alg]
           else r.talkgroups.encrypted)
  }

  lemma StateShown(r: Recv, m: Stimulus)
    requires r.Valid()
    ensures Settles(r, EffectOf(r, m), r.Apply(m))
  {
    PolicyStep(r, m);
    SelectionStep(r, m);
    ParamsStep(r, m);
  }

  ghost predicate Does(r: Recv, e: Effect, q: Recv) {
    Sends(r, e, q) && Settles(r, e, q)
  }

  /** Each step changes the outline by its effect. */
  lemma EffectShown(o: Outline, r: Recv, e: Effect, q: Recv)
    requires Shows(o, r) && Does(r, e, q)
    ensures Shows(o.Do(e), q)
  {
  }

  ghost predicate EffectRun(qs: seq<Recv>, es: seq<Effect>) {
    && |qs| == |es| + 1
    && forall i {:trigger Does(qs[i], es[i], qs[i + 1])} ::
         0 <= i < |es| ==> Does(qs[i], es[i], qs[i + 1])
  }

  /** The effects of a run's stimuli. */
  ghost predicate Effects(qs: seq<Recv>, ms: seq<Stimulus>, es: seq<Effect>) {
    && |qs| == |ms| + 1 && |es| == |ms|
    && forall i :: 0 <= i < |ms| ==> qs[i].Valid() && es[i] == EffectOf(qs[i], ms[i])
  }

  lemma EffectsExist(r: Recv, ms: seq<Stimulus>, qs: seq<Recv>) returns (es: seq<Effect>)
    requires r.Valid() && States(r, ms, qs)
    ensures Effects(qs, ms, es)
  {
    StatesValid(r, ms, qs);
    es := seq(|ms|, i requires 0 <= i < |ms| => EffectOf(qs[i], ms[i]));
  }

  function BootOutline(freq: Freq): Outline {
    START.Do(Site(freq))
  }

  lemma BootShown(c: Config)
    ensures Shows(BootOutline(c.freq), Boot(c))
  {
  }

  lemma StatesDo(r: Recv, ms: seq<Stimulus>, qs: seq<Recv>, es: seq<Effect>)
    requires r.Valid() && States(r, ms, qs) && Effects(qs, ms, es)
    ensures EffectRun(qs, es) && qs[0] == r
  {
    assert qs[0] == After(r, ms, 0);
    forall i | 0 <= i < |es| ensures Does(qs[i], es[i], qs[i + 1]) {
      StateStep(r, ms, qs, i);
      TuningShown(qs[i], ms[i]);
      StateShown(qs[i], ms[i]);
    }
  }

  lemma {:induction false} OutlineShown(o: Outline, qs: seq<Recv>, es: seq<Effect>, n: nat)
    requires EffectRun(qs, es) && Shows(o, qs[0]) && n <= |es|
    ensures Shows(OutlineAfter(o, es, n), qs[n])
  {
    if n > 0 {
      var i := n - 1;
      OutlineShown(o, qs, es, i);
      assert Does(qs[i], es[i], qs[i + 1]);
      EffectShown(OutlineAfter(o, es, i), qs[i], es[i], qs[i + 1]);
    }
  }

  /** The outline of a run shows the receiver at every instant. */
  lemma RunShown(c: Config, ms: seq<Stimulus>, qs: seq<Recv>, es: seq<Effect>, n: nat)
    requires States(Boot(c), ms, qs) && Effects(qs, ms, es) && n <= |ms|
    ensures Shows(OutlineAfter(BootOutline(c.freq), es, n), qs[n])
  {
    BootShown(c);
    StatesDo(Boot(c), ms, qs, es);
    OutlineShown(BootOutline(c.freq), qs, es, n);
  }

  lemma EffectsPlain(qs: seq<Recv>, ms: seq<Stimulus>, es: seq<Effect>)
    requires Effects(qs, ms, es)
    ensures forall e :: e in es ==> e.Plain()
  {
  }

  lemma FollowFromControl(r: Recv, m: Stimulus)
    requires r.Valid() && NoPreempt(r.talkgroups) && EffectOf(r, m).Follow?
    ensures r.OnControl()
  {
    NoPreemptStep(r, m);
  }
}
