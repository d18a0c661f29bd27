/** What decoded grants, updates and channel parameters do to the candidates. */
module Collecting {
  import opened P25
  import opened Policy
  import opened Talkgroups
  import opened TalkgroupLog
  import opened Scoring
  import opened Receiver
  import opened History
  import opened Calls
  import opened Decoding

  // ---------------------------------------------------------------- complete lists

  /** Whatever has a frequency is a candidate, and exactly the preempting ones may preempt. */
  ghost predicate Complete(s: Selection) {
    && (forall g :: g in s.channels <==> g in s.cur)
    && (forall g :: g in s.curPreempt <==> g in s.cur && g in s.preempt)
  }

  lemma RefinedIsComplete(s: Selection, log: Log)
    requires Refines(s, log)
    ensures Complete(s)
  {
    ListsOffered(s, log);
    assert s.channels.Keys == Heard(log.entries);
  }

  /** In every run of a receiver the lists are complete. */
  lemma ReachableIsComplete(c: Config, ms: seq<Stimulus>)
    ensures Complete(Run(Boot(c), ms).talkgroups)
  {
    var ops := SelectionCalls(Boot(c), ms, |ms|);
    ReceiverRefinesLog(c, ms, |ms|);
    RefinedIsComplete(Run(Boot(c), ms).talkgroups, LogAfter(Boot(c).talkgroups, ops, |ops|));
  }

  lemma AddIsComplete(s: Selection, g: Group, freq: Freq)
    requires s.Valid() && Complete(s)
    ensures Complete(s.Add(g, freq))
  {
    var t := s.Add(g, freq);
    assert forall h :: h in t.cur <==> h in s.cur || (s.Accepts(g) && h == g);
  }

  // ---------------------------------------------------------------- updates

  /** Entry `k` of an update names the group, on a channel whose parameters are known. */
  predicate Names(known: set<nat>, updates: seq<(Channel, TalkGroup)>, k: nat, g: Group)
    requires k < |updates|
  {
    updates[k].1 == Other(g) && updates[k].0.id in known
  }

  /** The last of the first `n` entries that names the group. */
  function LastNaming(known: set<nat>, updates: seq<(Channel, TalkGroup)>, n: nat, g: Group): (last: Option<nat>)
    requires n <= |updates|
    ensures last.Some? ==> last.value < n && Names(known, updates, last.value, g)
                           && forall j :: last.value < j < n ==> !Names(known, updates, j, g)
    ensures last.None? ==> forall j :: 0 <= j < n ==> !Names(known, updates, j, g)
  {
    if n == 0 then None
    else if Names(known, updates, n - 1, g) then Some(n - 1)
    else LastNaming(known, updates, n - 1, g)
  }

  /** The frequency of a channel whose parameters are known. */
  function FreqOf(r: Recv, ch: Channel): Freq
    requires ch.id in r.channels
  {
    r.rxFreq(r.channels[ch.id], ch.number)
  }

  /**
   From `r` to `q` exactly the accepted groups named by the first `n` entries were heard: each at
   the frequency of its last entry and at the current time. Nothing else changed.
   */
  ghost predicate Collected(r: Recv, q: Recv, updates: seq<(Channel, TalkGroup)>, n: nat)
    requires n <= |updates|
  {
    var s, t := r.talkgroups, q.talkgroups;
    && q == r.(talkgroups := t)
    && t == s.(cur := t.cur, curPreempt := t.curPreempt, channels := t.channels,
               feats := s.feats.(age := t.feats.age))
    && forall g :: CollectedGroup(r, s, t, updates, n, g)
  }

  ghost predicate CollectedGroup(r: Recv, s: Selection, t: Selection,
                                 updates: seq<(Channel, TalkGroup)>, n: nat, g: Group)
    requires n <= |updates|
  {
    var last := LastNaming(r.channels.Keys, updates, n, g);
    if last.Some? && s.Accepts(g)
    then && g in t.channels && t.channels[g] == FreqOf(r, updates[last.value].0)
         && g in t.feats.age && t.feats.age[g] == s.feats.elapsed
    else && (g in t.channels <==> g in s.channels) && (g in s.channels ==> t.channels[g] == s.channels[g])
         && (g in t.feats.age <==> g in s.feats.age) && (g in s.feats.age ==> t.feats.age[g] == s.feats.age[g])
  }

  lemma GrantStep(r: Recv, tg: TalkGroup, ch: Channel)
    requires r.Valid()
    ensures r.Apply(GrantSeen(tg, ch))
         == r.(talkgroups := if tg.Other? && ch.id in r.channels
                             then r.talkgroups.Add(tg.group, FreqOf(r, ch)) else r.talkgroups)
  {
  }

  lemma GrantIsComplete(r: Recv, tg: TalkGroup, ch: Channel)
    requires r.Valid()
    ensures Complete(r.talkgroups) ==> Complete(r.Apply(GrantSeen(tg, ch)).talkgroups)
  {
    GrantStep(r, tg, ch);
    if tg.Other? && ch.id in r.channels && Complete(r.talkgroups) {
      AddIsComplete(r.talkgroups, tg.group, FreqOf(r, ch));
    }
  }

  lemma CollectNext(r: Recv, q: Recv, updates: seq<(Channel, TalkGroup)>, n: nat)
    requires r.Valid() && q.Valid() && n < |updates| && Collected(r, q, updates, n)
    ensures Collected(r, q.Apply(GrantSeen(updates[n].1, updates[n].0)), updates, n + 1)
  {
    var (ch, tg) := updates[n];
    var p := q.Apply(GrantSeen(tg, ch));
    GrantStep(q, tg, ch);
    var next := n + 1;
    forall g ensures CollectedGroup(r, r.talkgroups, p.talkgroups, updates, next, g) {
      assert CollectedGroup(r, r.talkgroups, q.talkgroups, updates, n, g);
    }
  }

  lemma {:induction false} UpdatesAreCollected(r: Recv, updates: seq<(Channel, TalkGroup)>, n: nat)
    requires r.Valid() && n <= |updates|
    ensures var q := After(r, OfUpdates(updates), n);
            Collected(r, q, updates, n) && (Complete(r.talkgroups) ==> Complete(q.talkgroups))
  {
    if n > 0 {
      UpdatesAreCollected(r, updates, n - 1);
      CollectNext(r, After(r, OfUpdates(updates), n - 1), updates, n - 1);
      GrantIsComplete(After(r, OfUpdates(updates), n - 1), updates[n - 1].1, updates[n - 1].0);
    }
  }

  // ---------------------------------------------------------------- trunking blocks

  /** Foreign, corrupt and unknown blocks change nothing. */
  lemma BadBlocksAreIgnored(r: Recv, t: Tsbk)
    requires r.Valid() && (t.mfg != 0 || !t.crcValid || t.body.UnknownTsbk?)
    ensures Decoded(r, TrunkingPacket(t)) == r
  {
  }

  predicate Sound(t: Tsbk) {
    t.mfg == 0 && t.crcValid
  }

  ghost predicate Reported(r: Recv, q: Recv, e: HubEvent) {
    q == r.(hub := r.hub + [e])
  }

  lemma OtherBlocksAreReported(r: Recv, t: Tsbk)
    requires r.Valid() && Sound(t) && t.body.OtherTsbk?
    ensures Reported(r, Decoded(r, TrunkingPacket(t)), TrunkingControl(t))
  {
    assert OfSample(Some(TrunkingPacket(t))) == [TsbkSeen(t)];
    RunOne(r, TsbkSeen(t));
  }

  /** The groups that a block grants, or that have calls running, with their channels. */
  function Granted(t: Tsbk): seq<(Channel, TalkGroup)> {
    match t.body
    case GroupVoiceGrant(tg, ch) => [(ch, tg)]
    case GroupVoiceUpdate(updates) => updates
    case _ => []
  }

  /** Sound blocks with grants or updates are reported, and all they name is collected. */
  lemma GrantsAreCollected(r: Recv, t: Tsbk)
    requires r.Valid() && Sound(t) && (t.body.GroupVoiceGrant? || t.body.GroupVoiceUpdate?)
    ensures var q := Decoded(r, TrunkingPacket(t));
            && Collected(r.(hub := r.hub + [TrunkingControl(t)]), q, Granted(t), |Granted(t)|)
            && (Complete(r.talkgroups) ==> Complete(q.talkgroups))
  {
    var ms := OfUpdates(Granted(t));
    assert OfSample(Some(TrunkingPacket(t))) == [TsbkSeen(t)] + ms;
    RunHead(r, TsbkSeen(t), ms);
    UpdatesAreCollected(r.Apply(TsbkSeen(t)), Granted(t), |Granted(t)|);
  }

  /** Announced parameters are kept for their channel and passed on to the hub. */
  lemma ParamsAreKept(r: Recv, t: Tsbk)
    requires r.Valid() && Sound(t) && t.body.ChannelParamsUpdate?
    ensures var report := State(UpdateChannelParams(t.body.id, t.body.params));
            Decoded(r, TrunkingPacket(t)) == r.(channels := r.channels[t.body.id := t.body.params],
                                                hub := r.hub + [TrunkingControl(t), report])
  {
    var m := ParamsSeen(t.body.id, t.body.params);
    assert OfSample(Some(TrunkingPacket(t))) == [TsbkSeen(t)] + [m];
    RunHead(r, TsbkSeen(t), [m]);
    RunOne(r.Apply(TsbkSeen(t)), m);
  }

  /** The next grant on the channel is at the frequency they give, whatever was known before. */
  lemma ParamsAreUsed(r: Recv, t: Tsbk, grant: Tsbk, g: Group, number: nat)
    requires r.Valid() && Sound(t) && t.body.ChannelParamsUpdate? && r.talkgroups.Accepts(g)
    requires Sound(grant) && grant.body == GroupVoiceGrant(Other(g), Channel(t.body.id, number))
    ensures var q := Decoded(Decoded(r, TrunkingPacket(t)), TrunkingPacket(grant));
            g in q.talkgroups.channels && q.talkgroups.channels[g] == r.rxFreq(t.body.params, number)
  {
    var mid := Decoded(r, TrunkingPacket(t));
    var start := mid.(hub := mid.hub + [TrunkingControl(grant)]);
    var q := Decoded(mid, TrunkingPacket(grant));
    ParamsAreKept(r, t);
    GrantsAreCollected(mid, grant);
    assert CollectedGroup(start, start.talkgroups, q.talkgroups, Granted(grant), 1, g);
    assert Names(start.channels.Keys, Granted(grant), 0, g);
  }

  // ---------------------------------------------------------------- updates during a call

  /** The receiver after collecting a decoded update, before it looks for a preempting group. */
  ghost function Updated(r: Recv, lc: LinkControlWord): (q: Recv)
    requires r.Valid() && lc.LcGroupVoiceUpdate?
    ensures q.Valid()
  {
    Run(r.Apply(LcSeen(lc)), OfUpdates(lc.updates))
  }

  /** All that a decoded update names is collected first; then a preempting candidate is looked for. */
  lemma WordsAreCollected(r: Recv, e: MessageEvent, lc: LinkControlWord)
    requires r.Valid() && lc.LcGroupVoiceUpdate? && CarriesLc(e, lc)
    ensures var q := Updated(r, lc);
            && Collected(r.(hub := r.hub + [LinkControl(lc)]), q, lc.updates, |lc.updates|)
            && (Complete(r.talkgroups) ==> Complete(q.talkgroups))
            && Decoded(r, e) == q.Apply(PreemptCheck)
  {
    var ms := OfUpdates(lc.updates);
    var start := r.Apply(LcSeen(lc));
    assert OfSample(Some(e)) == [LcSeen(lc)] + (ms + [PreemptCheck]);
    RunHead(r, LcSeen(lc), ms + [PreemptCheck]);
    RunLast(start, ms, PreemptCheck);
    UpdatesAreCollected(start, lc.updates, |lc.updates|);
  }

  /** A preempting group is a candidate already, or is accepted and named by the update. */
  ghost predicate Interrupts(r: Recv, updates: seq<(Channel, TalkGroup)>) {
    exists g :: g in r.talkgroups.preempt
                && (g in r.talkgroups.channels
                    || (r.talkgroups.Accepts(g) && LastNaming(r.channels.Keys, updates, |updates|, g).Some?))
  }

  lemma InterruptsIffListed(r: Recv, start: Recv, q: Recv, updates: seq<(Channel, TalkGroup)>)
    requires start.talkgroups == r.talkgroups && start.channels == r.channels
    requires Collected(start, q, updates, |updates|) && Complete(q.talkgroups)
    ensures Interrupts(r, updates) <==> q.talkgroups.curPreempt != []
  {
    var s, t := start.talkgroups, q.talkgroups;
    if q.talkgroups.curPreempt != [] {
      var g := t.curPreempt[0];
      assert g in t.curPreempt && g in t.preempt && g in t.channels;
      assert CollectedGroup(start, s, t, updates, |updates|, g);
    }
    if Interrupts(r, updates) {
      var g :| g in r.talkgroups.preempt
               && (g in r.talkgroups.channels
                   || (r.talkgroups.Accepts(g) && LastNaming(r.channels.Keys, updates, |updates|, g).Some?));
      assert CollectedGroup(start, s, t, updates, |updates|, g);
      assert g in t.curPreempt;
    }
  }

  /** A check for preemption follows a preempting candidate, or changes nothing. */
  lemma CheckOutcome(q: Recv)
    requires q.Valid() && q.hopping
    ensures var p := q.Apply(PreemptCheck);
            if q.talkgroups.curPreempt == [] then p == q
            else && p.policy.state == q.policy.TrafficState(true)
                 && p.curgroup in q.talkgroups.curPreempt && p.curgroup in q.talkgroups.channels
                 && p.curfreq == q.talkgroups.channels[p.curgroup]
                 && p.hub == q.hub + [UpdateCurFreq(p.curfreq), UpdateTalkGroup(p.curgroup)]
                 && p.talkgroups.cur == []
  {
  }

  /**
   With hopping, an update decoded in any reachable state begins a visit, to a preempting group
   at the frequency last given for it, if and only if there is one among the candidates and the
   groups it names; otherwise they are just collected.
   */
  lemma UpdateInterruptsIff(r: Recv, e: MessageEvent, lc: LinkControlWord)
    requires r.Valid() && Complete(r.talkgroups) && r.hopping
    requires lc.LcGroupVoiceUpdate? && CarriesLc(e, lc)
    ensures var p, q := Decoded(r, e), Updated(r, lc);
            && Collected(r.(hub := r.hub + [LinkControl(lc)]), q, lc.updates, |lc.updates|)
            && if Interrupts(r, lc.updates)
               then && p.policy.state == r.policy.TrafficState(true)
                    && p.curgroup in r.talkgroups.preempt && p.curgroup in q.talkgroups.channels
                    && p.curfreq == q.talkgroups.channels[p.curgroup]
                    && p.hub == q.hub + [UpdateCurFreq(p.curfreq), UpdateTalkGroup(p.curgroup)]
               else p == q
  {
    WordsAreCollected(r, e, lc);
    InterruptsIffListed(r, r.(hub := r.hub + [LinkControl(lc)]), Updated(r, lc), lc.updates);
    CheckOutcome(Updated(r, lc));
  }
}
