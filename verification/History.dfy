/** Starting a receiver, and what a run of it has selected so far. */
module History {
  import opened P25
  import opened Policy
  import opened Talkgroups
  import opened Receiver

  /** Everything fixed before the receiver starts. */
  datatype Config = Config(
    rxFreq: (ChannelParams, nat) -> Freq, hopping: bool, freq: Freq,
    bits: nat, select: nat, watchdog: nat, pause: nat,
    preempt: set<Group>, filter: Filter, prios: map<Group, real>, weights: FeatureWeights)

  /** The receiver as it starts, tuned to its first control channel. */
  ghost function Boot(c: Config): (r: Recv)
    ensures r.Valid()
  {
    NewRecv(c.rxFreq, c.hopping, c.freq,
            NewPolicy(c.bits, c.select, c.watchdog, c.pause),
            NewSelection(c.bits, c.preempt, c.filter, c.prios, c.weights))
  }

  /** The stimulus moves the receiver to another site. */
  predicate ChangesSite(r: Recv, m: Stimulus) {
    m.Retune? && m.freq != r.ctlfreq
  }

  /** The call a stimulus makes on the talkgroup selection, if any. */
  ghost function SelectionCall(r: Recv, m: Stimulus): Option<SelectionOp> {
    match m
    case Clock(n) => Some(RecordElapsed(n))
    case Tick(n) =>
      if r.policy.React(Elapsed(n)).event == Some(ChooseTalkgroup) then Some(SelectIdle) else None
    case CryptoSeen(alg) => Some(RecordEncrypted(r.curgroup, alg))
    case GrantSeen(tg, ch) =>
      if tg.Other? && ch.id in r.channels
      then Some(SelectionOp.AddTalkgroup(tg.group, r.rxFreq(r.channels[ch.id], ch.number))) else None
    case PreemptCheck => Some(SelectPreempt)
    case Retune(_) => if ChangesSite(r, m) then Some(ClearState) else None
    case _ => None
  }

  lemma SelectParts(r: Recv, op: SelectionOp)
    requires r.Valid()
    ensures r.Select(op).rxFreq == r.rxFreq && r.Select(op).channels == r.channels
    ensures r.Select(op).talkgroups == r.talkgroups.Next(op)
  {
  }

  /** An event of the policy reaches the selection only by asking it to choose. */
  lemma EventParts(r: Recv, event: Option<PolicyEvent>)
    requires r.Valid()
    ensures r.HandlePolicy(event).rxFreq == r.rxFreq
    ensures r.HandlePolicy(event).channels == r.channels
    ensures r.HandlePolicy(event).talkgroups
         == if event == Some(ChooseTalkgroup) then r.talkgroups.Next(SelectIdle) else r.talkgroups
  {
    match event
    case None =>
    case Some(Resync) =>
    case Some(ReturnControl) =>
    case Some(ChooseTalkgroup) => SelectParts(r, SelectIdle);
  }

  lemma ConsultParts(r: Recv, op: PolicyOp)
    requires r.Valid()
    ensures var q := r.Consult(op);
            && q.rxFreq == r.rxFreq && q.channels == r.channels
            && q.talkgroups == if r.policy.React(op).event == Some(ChooseTalkgroup)
                               then r.talkgroups.Next(SelectIdle) else r.talkgroups
  {
    var x := r.policy.React(op);
    EventParts(r.(policy := x.policy), x.event);
  }

  lemma SelectionStep(r: Recv, m: Stimulus)
    requires r.Valid()
    ensures r.Apply(m).talkgroups
         == match SelectionCall(r, m) case Some(op) => r.talkgroups.Next(op) case None => r.talkgroups
  {
    if m.Tick? {
      ConsultParts(r, Elapsed(m.samples));
    } else if m.NidSeen? {
      ConsultParts(r, Nid(m.dataUnit));
    } else if m.TermSeen? {
      ConsultParts(r, CallTerm);
    }
  }

  /** What a step does to the channel parameters. */
  lemma ParamsStep(r: Recv, m: Stimulus)
    requires r.Valid()
    ensures r.Apply(m).rxFreq == r.rxFreq
    ensures r.Apply(m).channels == if ChangesSite(r, m) then map[]
                                   else if m.ParamsSeen? then r.channels[m.id := m.params]
                                   else r.channels
  {
    if m.Tick? {
      ConsultParts(r, Elapsed(m.samples));
    } else if m.NidSeen? {
      ConsultParts(r, Nid(m.dataUnit));
    } else if m.TermSeen? {
      ConsultParts(r, CallTerm);
    }
  }

  /** What the selection returns to a stimulus. */
  ghost function PickBy(r: Recv, m: Stimulus): Option<Pick>
    requires r.Valid()
  {
    match SelectionCall(r, m)
    case Some(op) => r.talkgroups.Outcome(op)
    case None => None
  }

  /** The most recent pair returned by the selection in the first `n` stimuli. */
  ghost function LastPick(r: Recv, ms: seq<Stimulus>, n: nat): Option<Pick>
    requires r.Valid() && n <= |ms|
  {
    if n == 0 then None
    else
      var pick := PickBy(After(r, ms, n - 1), ms[n - 1]);
      if pick.Some? then pick else LastPick(r, ms, n - 1)
  }

  function TickLength(m: Stimulus): nat {
    if m.Tick? then m.samples else 0
  }

  /** Samples reported to the policy by the first `n` stimuli. */
  ghost function TickTotal(ms: seq<Stimulus>, n: nat): nat
    requires n <= |ms|
  {
    if n == 0 then 0 else TickTotal(ms, n - 1) + TickLength(ms[n - 1])
  }

  predicate VoiceNid(m: Stimulus) {
    m.NidSeen? && m.dataUnit.Voice()
  }

  /** The stimulus makes the receiver move to a talkgroup. */
  ghost predicate Follows(r: Recv, m: Stimulus)
    requires r.Valid()
  {
    r.hopping && PickBy(r, m).Some?
  }

  /** What a stimulus does to the policy, given whether a talkgroup is followed. */
  function PolicyNext(p: PolicyState, m: Stimulus, follows: bool): PolicyState {
    var onControl, onTraffic := p.(state := p.ControlState()), p.(state := p.TrafficState(true));
    match m
    case Tick(n) =>
      var x := p.React(Elapsed(n));
      if x.event == Some(ReturnControl) then onControl else if follows then onTraffic else x.policy
    case NidSeen(u) => p.React(Nid(u)).policy
    case TermSeen => onControl.(state := if p.OnControl() then p.state else onControl.state)
    case CryptoSeen(_) => onControl
    case PreemptCheck => if follows then onTraffic else p
    case Retune(_) => onControl
    case _ => p
  }

  lemma TickPolicy(r: Recv, n: nat)
    requires r.Valid()
    ensures r.Apply(Tick(n)).policy == PolicyNext(r.policy, Tick(n), Follows(r, Tick(n)))
  {
  }

  lemma PolicyStep(r: Recv, m: Stimulus)
    requires r.Valid()
    ensures r.Apply(m).policy == PolicyNext(r.policy, m, Follows(r, m))
  {
    if m.Tick? {
      TickPolicy(r, m.samples);
    }
  }

  /** `qs` lists the states between the stimuli of a run. */
  ghost predicate States(r: Recv, ms: seq<Stimulus>, qs: seq<Recv>)
    requires r.Valid()
  {
    |qs| == |ms| + 1 && forall i :: 0 <= i <= |ms| ==> qs[i] == After(r, ms, i)
  }

  /** Every run has its states. */
  lemma StatesExist(r: Recv, ms: seq<Stimulus>) returns (qs: seq<Recv>)
    requires r.Valid()
    ensures States(r, ms, qs)
  {
    qs := seq(|ms| + 1, i requires 0 <= i <= |ms| => After(r, ms, i));
  }

  lemma StateStep(r: Recv, ms: seq<Stimulus>, qs: seq<Recv>, i: nat)
    requires r.Valid() && States(r, ms, qs) && i < |ms|
    ensures qs[i].Valid() && qs[i + 1] == qs[i].Apply(ms[i])
  {
    assert qs[i] == After(r, ms, i);
    assert qs[i + 1] == After(r, ms, i + 1);
  }

  lemma StatesValid(r: Recv, ms: seq<Stimulus>, qs: seq<Recv>)
    requires r.Valid() && States(r, ms, qs)
    ensures forall i :: 0 <= i <= |ms| ==> qs[i].Valid()
  {
  }
}
