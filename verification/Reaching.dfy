/** Runs that take a new receiver to a visit, for any timeouts and any groups it accepts. */
module Reaching {
  import opened P25
  import opened Words
  import opened Policy
  import opened Talkgroups
  import opened Receiver
  import opened History
  import opened Tuning

  /** Nothing is known to be encrypted, and the settings are as at the start. */
  ghost predicate Clear(r: Recv, c: Config, id: nat) {
    && r.Valid() && r.hopping == c.hopping && id in r.channels
    && r.talkgroups.encrypted == map[]
    && r.talkgroups.filter == c.filter && r.talkgroups.preempt == c.preempt
  }

  /** Moreover there are no candidates. */
  ghost predicate Listening(r: Recv, c: Config, id: nat) {
    && Clear(r, c, id)
    && r.talkgroups.cur == [] && r.talkgroups.curPreempt == [] && r.talkgroups.channels == map[]
  }

  lemma HoppingStep(r: Recv, m: Stimulus)
    requires r.Valid()
    ensures r.Apply(m).hopping == r.hopping
  {
  }

  lemma NothingToPick(r: Recv, m: Stimulus)
    requires r.Valid() && r.talkgroups.cur == [] && r.talkgroups.curPreempt == []
    ensures PickBy(r, m).None?
  {
  }

  /** Neither the clock, nor a report, nor a tick ends the listening. */
  lemma ListeningStep(r: Recv, c: Config, id: nat, m: Stimulus)
    requires Listening(r, c, id) && (m.Clock? || m.TsbkSeen? || m.Tick?)
    ensures Listening(r.Apply(m), c, id) && r.Apply(m).policy == PolicyNext(r.policy, m, false)
  {
    NothingToPick(r, m);
    HoppingStep(r, m);
    SelectionStep(r, m);
    ParamsStep(r, m);
    PolicyStep(r, m);
  }

  /** A grant makes its group the only candidate. */
  lemma GrantIsHeard(r: Recv, c: Config, g: Group, ch: Channel)
    requires Listening(r, c, ch.id) && !c.filter.Excluded(g)
    ensures var q := r.Apply(GrantSeen(Other(g), ch));
            && Clear(q, c, ch.id) && q.policy == r.policy && q.talkgroups.cur == [g]
            && q.talkgroups.curPreempt == if g in c.preempt then [g] else []
  {
  }

  /** A tick that asks for a choice then begins a visit, and nothing is left to choose. */
  lemma ChoiceBegins(r: Recv, c: Config, id: nat, n: nat)
    requires Clear(r, c, id) && c.hopping && r.talkgroups.cur != []
    requires r.policy.React(Elapsed(n)).event == Some(ChooseTalkgroup)
    ensures Follows(r, Tick(n))
    ensures var q := r.Apply(Tick(n));
            Listening(q, c, id) && q.policy == r.policy.(state := r.policy.TrafficState(true))
  {
    HoppingStep(r, Tick(n));
    SelectionStep(r, Tick(n));
    ParamsStep(r, Tick(n));
    PolicyStep(r, Tick(n));
  }

  /** Listening on control with a fresh timer, a grant and a long enough tick begin a visit. */
  lemma VisitBegins(r: Recv, c: Config, g: Group, ch: Channel, n: nat)
    requires Listening(r, c, ch.id) && c.hopping && !c.filter.Excluded(g)
    requires r.policy.state == r.policy.ControlState() && r.policy.selectTime <= n < Pow2(r.policy.bits)
    ensures var q := r.Apply(GrantSeen(Other(g), ch)).Apply(Tick(n));
            Listening(q, c, ch.id) && q.policy == r.policy.(state := r.policy.TrafficState(true))
  {
    GrantIsHeard(r, c, g, ch);
    ChoiceBegins(r.Apply(GrantSeen(Other(g), ch)), c, ch.id, n);
  }

  lemma BootListens(c: Config, id: nat, params: ChannelParams)
    ensures Listening(Boot(c).Apply(ParamsSeen(id, params)), c, id)
    ensures Boot(c).Apply(ParamsSeen(id, params)).policy == NewPolicy(c.bits, c.select, c.watchdog, c.pause)
  {
    assert Boot(c).talkgroups == NewSelection(c.bits, c.preempt, c.filter, c.prios, c.weights);
  }

  /** The parameters of a channel, a grant on it, and a choice. */
  function FirstVisit(c: Config, g: Group, ch: Channel, params: ChannelParams): seq<Stimulus> {
    [ParamsSeen(ch.id, params)] + [GrantSeen(Other(g), ch)] + [Tick(c.select)]
  }

  /** They take a new receiver to its first visit. */
  lemma FirstVisitBegins(c: Config, g: Group, ch: Channel, params: ChannelParams)
    requires c.hopping && !c.filter.Excluded(g) && c.select < Pow2(c.bits)
    ensures var q := Run(Boot(c), FirstVisit(c, g, ch, params));
            var p := NewPolicy(c.bits, c.select, c.watchdog, c.pause);
            Listening(q, c, ch.id) && q.policy == p.(state := p.TrafficState(true))
  {
    var m := ParamsSeen(ch.id, params);
    BootListens(c, ch.id, params);
    VisitBegins(Boot(c).Apply(m), c, g, ch, c.select);
    RunOne(Boot(c), m);
    RunLast(Boot(c), [m], GrantSeen(Other(g), ch));
    RunLast(Boot(c), [m] + [GrantSeen(Other(g), ch)], Tick(c.select));
  }

  /** During the visit a group that preempts can be heard. */
  lemma PreemptionIsReachable(c: Config, g: Group, h: Group, ch: Channel, params: ChannelParams)
    requires c.hopping && !c.filter.Excluded(g) && !c.filter.Excluded(h) && h in c.preempt
    requires c.select < Pow2(c.bits)
    ensures var q := Run(Boot(c), FirstVisit(c, g, ch, params) + [GrantSeen(Other(h), ch)]);
            !q.OnControl() && q.hopping && q.talkgroups.curPreempt == [h]
  {
    FirstVisitBegins(c, g, ch, params);
    var q := Run(Boot(c), FirstVisit(c, g, ch, params));
    GrantIsHeard(q, c, h, ch);
    RunLast(Boot(c), FirstVisit(c, g, ch, params), GrantSeen(Other(h), ch));
  }
}
