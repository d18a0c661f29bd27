/** How far the hub's copy of the receiver's state agrees with the receiver. */
module Replica {
  import opened P25
  import opened Receiver
  import opened History
  import opened Outline
  import opened HopLog
  import opened Hub

  /** The copy after taking the messages at positions `[from, to)`. */
  function Fold(h: HubState, log: seq<HubEvent>, from: nat, to: nat): HubState
    requires to <= |log|
  {
    if to <= from then h else Fold(h, log, from, to - 1).Take(log[to - 1])
  }

  function FoldAll(h: HubState, log: seq<HubEvent>): HubState {
    Fold(h, log, 0, |log|)
  }

  lemma {:induction false} FoldPrefix(h: HubState, a: seq<HubEvent>, b: seq<HubEvent>, from: nat, n: nat)
    requires n <= |a|
    ensures Fold(h, a + b, from, n) == Fold(h, a, from, n)
  {
    if n > from {
      FoldPrefix(h, a, b, from, n - 1);
    }
  }

  lemma {:induction false} FoldConcat(h: HubState, a: seq<HubEvent>, b: seq<HubEvent>, n: nat)
    requires n <= |b|
    ensures Fold(h, a + b, 0, |a| + n) == Fold(FoldAll(h, a), b, 0, n)
  {
    if n == 0 {
      FoldPrefix(h, a, b, 0, |a|);
    } else {
      FoldConcat(h, a, b, n - 1);
    }
  }

  /** Where the messages about the current site begin: after the last change of frequency. */
  function SiteStart(log: seq<HubEvent>, n: nat): (s: nat)
    requires n <= |log|
    ensures s <= n
  {
    if n == 0 then 0
    else if CtlMessage(log[n - 1]) && log[n - 1].update.freq != CtlAt(log, n - 1) then n
    else SiteStart(log, n - 1)
  }

  lemma {:induction false} SiteStartPrefix(a: seq<HubEvent>, b: seq<HubEvent>, n: nat)
    requires n <= |a|
    ensures SiteStart(a + b, n) == SiteStart(a, n)
  {
    if n > 0 {
      SiteStartPrefix(a, b, n - 1);
      CtlAtPrefix(a, b, n - 1);
    }
  }

  /** The receiver's state is what the messages about the current site say. */
  ghost predicate SiteState(o: Outline) {
    var since := Fold(DEFAULT_STATE, o.hub, SiteStart(o.hub, |o.hub|), |o.hub|);
    && CtlAt(o.hub, |o.hub|) == o.ctl
    && since.channels == o.channels && since.encrypted == o.encrypted
  }

  /** The state built from the current site's messages before position `n`. */
  function Since(log: seq<HubEvent>, n: nat): HubState
    requires n <= |log|
  {
    Fold(DEFAULT_STATE, log, SiteStart(log, n), n)
  }

  lemma SinceNext(log: seq<HubEvent>, n: nat)
    requires n < |log|
    ensures Since(log, n + 1)
         == if CtlMessage(log[n]) && log[n].update.freq != CtlAt(log, n) then DEFAULT_STATE
            else Since(log, n).Take(log[n])
  {
  }

  lemma SincePrefix(a: seq<HubEvent>, b: seq<HubEvent>)
    ensures Since(a + b, |a|) == Since(a, |a|) && CtlAt(a + b, |a|) == CtlAt(a, |a|)
  {
    SiteStartPrefix(a, b, |a|);
    FoldPrefix(DEFAULT_STATE, a, b, SiteStart(a, |a|), |a|);
    CtlAtPrefix(a, b, |a|);
  }

  lemma SiteStateStep(o: Outline, e: Effect)
    requires SiteState(o) && e.Plain()
    ensures SiteState(o.Do(e))
  {
    var part := e.HubPart(o.ctl);
    var log := o.hub + part;
    CtlStep(o, e);
    SincePrefix(o.hub, part);
    if |part| > 0 {
      SinceNext(log, |o.hub|);
    }
    if |part| > 1 {
      SinceNext(log, |o.hub| + 1);
    }
  }

  lemma {:induction false} SiteStateAlong(o: Outline, es: seq<Effect>, n: nat)
    requires SiteState(o) && n <= |es| && forall e :: e in es ==> e.Plain()
    ensures SiteState(OutlineAfter(o, es, n))
  {
    if n > 0 {
      SiteStateAlong(o, es, n - 1);
      assert es[n - 1] in es;
      SiteStateStep(OutlineAfter(o, es, n - 1), es[n - 1]);
    }
  }

  // ---------------------------------------------------------------- both folds compared

  ghost predicate SubMap<K, V>(a: map<K, V>, b: map<K, V>) {
    forall k :: k in a ==> k in b && b[k] == a[k]
  }

  lemma {:induction false} LaterFoldIsPart(log: seq<HubEvent>, s: nat, n: nat)
    requires s <= n <= |log|
    ensures SubMap(Fold(DEFAULT_STATE, log, s, n).channels, Fold(DEFAULT_STATE, log, 0, n).channels)
    ensures SubMap(Fold(DEFAULT_STATE, log, s, n).encrypted, Fold(DEFAULT_STATE, log, 0, n).encrypted)
  {
    if n > s {
      LaterFoldIsPart(log, s, n - 1);
    }
  }

  lemma {:induction false} FoldCtl(log: seq<HubEvent>, n: nat)
    requires n <= |log|
    ensures Fold(DEFAULT_STATE, log, 0, n).ctlfreq == CtlAt(log, n)
  {
    if n > 0 {
      FoldCtl(log, n - 1);
    }
  }

  predicate AnnouncesId(e: HubEvent, id: nat) {
    e.State? && e.update.UpdateChannelParams? && e.update.id == id
  }

  predicate AnnouncesGroup(e: HubEvent, g: Group) {
    e.State? && e.update.UpdateEncrypted? && e.update.group == g
  }

  ghost predicate IdIn(log: seq<HubEvent>, from: nat, to: nat, id: nat)
    requires to <= |log|
  {
    exists j :: from <= j < to && AnnouncesId(log[j], id)
  }

  ghost predicate GroupIn(log: seq<HubEvent>, from: nat, to: nat, g: Group)
    requires to <= |log|
  {
    exists j :: from <= j < to && AnnouncesGroup(log[j], g)
  }

  lemma {:induction false} FoldKeys(log: seq<HubEvent>, from: nat, n: nat)
    requires n <= |log|
    ensures forall id: nat :: id in Fold(DEFAULT_STATE, log, from, n).channels <==> IdIn(log, from, n, id)
    ensures forall g: Group :: g in Fold(DEFAULT_STATE, log, from, n).encrypted <==> GroupIn(log, from, n, g)
  {
    if n > from {
      FoldKeys(log, from, n - 1);
      var h, e := Fold(DEFAULT_STATE, log, from, n - 1), log[n - 1];
      forall id: nat ensures IdIn(log, from, n, id) <==> IdIn(log, from, n - 1, id) || AnnouncesId(e, id) {
      }
      forall g: Group ensures GroupIn(log, from, n, g) <==> GroupIn(log, from, n - 1, g) || AnnouncesGroup(e, g) {
      }
    }
  }

  lemma SubMapEqual<K, V>(a: map<K, V>, b: map<K, V>)
    requires SubMap(a, b)
    ensures a == b <==> forall k :: k in b ==> k in a
  {
    if forall k :: k in b ==> k in a {
      assert a.Keys == b.Keys;
    }
  }

  /** What the copy, once it has taken all messages, has in common with the receiver. */
  ghost predicate Agrees(h: HubState, r: Recv) {
    && h.ctlfreq == r.ctlfreq
    && SubMap(r.channels, h.channels) && SubMap(r.talkgroups.encrypted, h.encrypted)
  }

  ghost predicate Equal(h: HubState, r: Recv) {
    h.ctlfreq == r.ctlfreq && h.channels == r.channels && h.encrypted == r.talkgroups.encrypted
  }

  /** All the ids and groups of earlier sites have been announced again at the current one. */
  ghost predicate NothingStale(log: seq<HubEvent>) {
    var s := SiteStart(log, |log|);
    && (forall j, id: nat {:trigger AnnouncesId(log[j], id)} ::
          0 <= j < s && AnnouncesId(log[j], id) ==> IdIn(log, s, |log|, id))
    && (forall j, g: Group {:trigger AnnouncesGroup(log[j], g)} ::
          0 <= j < s && AnnouncesGroup(log[j], g) ==> GroupIn(log, s, |log|, g))
  }

  lemma StaleIds(log: seq<HubEvent>, s: nat)
    requires s <= |log|
    ensures (forall id: nat :: IdIn(log, 0, |log|, id) ==> IdIn(log, s, |log|, id))
       <==> (forall j, id: nat {:trigger AnnouncesId(log[j], id)} ::
               0 <= j < s && AnnouncesId(log[j], id) ==> IdIn(log, s, |log|, id))
  {
    if forall id: nat :: IdIn(log, 0, |log|, id) ==> IdIn(log, s, |log|, id) {
      forall j, id: nat | 0 <= j < s && AnnouncesId(log[j], id) ensures IdIn(log, s, |log|, id) {
        assert IdIn(log, 0, |log|, id);
      }
    }
  }

  lemma StaleGroups(log: seq<HubEvent>, s: nat)
    requires s <= |log|
    ensures (forall g: Group :: GroupIn(log, 0, |log|, g) ==> GroupIn(log, s, |log|, g))
       <==> (forall j, g: Group {:trigger AnnouncesGroup(log[j], g)} ::
               0 <= j < s && AnnouncesGroup(log[j], g) ==> GroupIn(log, s, |log|, g))
  {
    if forall g: Group :: GroupIn(log, 0, |log|, g) ==> GroupIn(log, s, |log|, g) {
      forall j, g: Group | 0 <= j < s && AnnouncesGroup(log[j], g) ensures GroupIn(log, s, |log|, g) {
        assert GroupIn(log, 0, |log|, g);
      }
    }
  }

  lemma EqualIffNothingStale(log: seq<HubEvent>)
    ensures (FoldAll(DEFAULT_STATE, log).channels == Since(log, |log|).channels
             && FoldAll(DEFAULT_STATE, log).encrypted == Since(log, |log|).encrypted)
       <==> NothingStale(log)
  {
    var s := SiteStart(log, |log|);
    LaterFoldIsPart(log, s, |log|);
    SubMapEqual(Since(log, |log|).channels, FoldAll(DEFAULT_STATE, log).channels);
    SubMapEqual(Since(log, |log|).encrypted, FoldAll(DEFAULT_STATE, log).encrypted);
    FoldKeys(log, 0, |log|);
    FoldKeys(log, s, |log|);
    StaleIds(log, s);
    StaleGroups(log, s);
  }

  lemma BootSiteState(freq: Freq)
    ensures SiteState(BootOutline(freq))
  {
    SiteStateStep(START, Site(freq));
  }

  lemma ReachedSiteState(c: Config, ms: seq<Stimulus>)
    ensures var r := Run(Boot(c), ms);
            && CtlAt(r.hub, |r.hub|) == r.ctlfreq
            && Since(r.hub, |r.hub|).channels == r.channels
            && Since(r.hub, |r.hub|).encrypted == r.talkgroups.encrypted
  {
    var qs := StatesExist(Boot(c), ms);
    var es := EffectsExist(Boot(c), ms, qs);
    RunShown(c, ms, qs, es, |ms|);
    EffectsPlain(qs, ms, es);
    BootSiteState(c.freq);
    SiteStateAlong(BootOutline(c.freq), es, |ms|);
  }

  /**
   A copy that has taken every message of a run has the receiver's control frequency and
   contains its channels and encrypted groups; it equals the receiver's state exactly if
   everything announced before the last change of frequency was announced again after it.
   */
  lemma CopyAgrees(c: Config, ms: seq<Stimulus>)
    ensures var r := Run(Boot(c), ms);
            var h := FoldAll(DEFAULT_STATE, r.hub);
            Agrees(h, r) && (Equal(h, r) <==> NothingStale(r.hub))
  {
    var r := Run(Boot(c), ms);
    ReachedSiteState(c, ms);
    FoldCtl(r.hub, |r.hub|);
    LaterFoldIsPart(r.hub, SiteStart(r.hub, |r.hub|), |r.hub|);
    EqualIffNothingStale(r.hub);
  }

  /** Moving to another site right after hearing channel parameters leaves the copy stale. */
  lemma MovingLeavesCopyStale(r: Recv, id: nat, params: ChannelParams, freq: Freq)
    requires r.Valid() && freq != r.ctlfreq
    ensures var q := r.Apply(ParamsSeen(id, params)).Apply(Retune(freq));
            q.channels == map[] && id in FoldAll(DEFAULT_STATE, q.hub).channels
  {
    var q := r.Apply(ParamsSeen(id, params)).Apply(Retune(freq));
    TuningShown(r, ParamsSeen(id, params));
    TuningShown(r.Apply(ParamsSeen(id, params)), Retune(freq));
    assert q.hub[|r.hub|] == State(UpdateChannelParams(id, params));
    assert AnnouncesId(q.hub[|r.hub|], id);
    FoldKeys(q.hub, 0, |q.hub|);
    assert IdIn(q.hub, 0, |q.hub|, id);
  }

  /** With a single site there is nothing to become stale. */
  lemma FirstSiteNothingStale(log: seq<HubEvent>)
    requires |log| > 0 && CtlMessage(log[0]) && SiteStart(log, |log|) <= 1
    ensures NothingStale(log)
  {
  }
}
