/** Where selected pairs come from, over whole runs of the receiver. */
module Provenance {
  import opened P25
  import opened Talkgroups
  import opened Receiver
  import opened History
  import opened Encryption

  // ---------------------------------------------------------------- one step

  /** The stimulus adds the group to the candidates, or updates it. */
  ghost predicate Hears(r: Recv, m: Stimulus, g: Group) {
    m.GrantSeen? && m.talkgroup == Other(g) && m.channel.id in r.channels && r.talkgroups.Accepts(g)
  }

  ghost predicate HearsAny(r: Recv, m: Stimulus) {
    m.GrantSeen? && m.talkgroup.Other? && Hears(r, m, m.talkgroup.group)
  }

  /** What a step does to the channel parameters and to the candidates' frequencies. */
  ghost predicate Traceable(q: Recv, m: Stimulus, next: Recv) {
    && q.Valid() && next.rxFreq == q.rxFreq
    && next.channels == (if ChangesSite(q, m) then map[]
                         else if m.ParamsSeen? then q.channels[m.id := m.params]
                         else q.channels)
    && next.talkgroups.channels
       == (if ChangesSite(q, m) || PickBy(q, m).Some? then map[]
           else if HearsAny(q, m)
           then q.talkgroups.channels[m.talkgroup.group :=
                                        q.rxFreq(q.channels[m.channel.id], m.channel.number)]
           else q.talkgroups.channels)
  }

  lemma ApplyTraceable(r: Recv, m: Stimulus)
    requires r.Valid()
    ensures Traceable(r, m, r.Apply(m))
  {
    SelectionStep(r, m);
    ParamsStep(r, m);
  }

  ghost predicate TraceableRun(qs: seq<Recv>, ms: seq<Stimulus>) {
    && |qs| == |ms| + 1 && (forall i {:trigger qs[i].Valid()} :: 0 <= i <= |ms| ==> qs[i].Valid())
    && forall i {:trigger Traceable(qs[i], ms[i], qs[i + 1])} ::
         0 <= i < |ms| ==> Traceable(qs[i], ms[i], qs[i + 1])
  }

  lemma StatesTraceable(r: Recv, ms: seq<Stimulus>, qs: seq<Recv>)
    requires r.Valid() && States(r, ms, qs)
    ensures TraceableRun(qs, ms)
  {
    StatesValid(r, ms, qs);
    forall i | 0 <= i < |ms| ensures Traceable(qs[i], ms[i], qs[i + 1]) {
      StateStep(r, ms, qs, i);
      ApplyTraceable(qs[i], ms[i]);
    }
  }

  // ---------------------------------------------------------------- origins

  /** No stimulus after position `from` and before `to` moves to another site. */
  ghost predicate SameSite(qs: seq<Recv>, ms: seq<Stimulus>, from: nat, to: nat)
    requires TraceableRun(qs, ms) && to <= |ms|
  {
    forall j :: from < j < to ==> !ChangesSite(qs[j], ms[j])
  }

  /** The latest announcement of the parameters of `id`, at position `l`, still holds at `n`. */
  ghost predicate ParamsFrom(qs: seq<Recv>, ms: seq<Stimulus>, n: nat, l: nat, id: nat, params: ChannelParams)
    requires TraceableRun(qs, ms) && n <= |ms|
  {
    && l < n && ms[l] == ParamsSeen(id, params) && SameSite(qs, ms, l, n)
    && forall j :: l < j < n ==> !(ms[j].ParamsSeen? && ms[j].id == id)
  }

  /**
   The candidate `g` on frequency `freq` comes from the grant at position `k`, the last one
   heard for it, by the channel parameters announced at position `l`, the last ones for its
   channel; since then nothing was selected and the site did not change.
   */
  ghost predicate GrantFrom(qs: seq<Recv>, ms: seq<Stimulus>, n: nat, k: nat, l: nat, g: Group, freq: Freq)
    requires TraceableRun(qs, ms) && n <= |ms|
  {
    && l < k < n && ms[l].ParamsSeen? && ms[k].GrantSeen? && ms[k].talkgroup == Other(g)
    && ParamsFrom(qs, ms, k, l, ms[k].channel.id, ms[l].params)
    && freq == qs[0].rxFreq(ms[l].params, ms[k].channel.number)
    && SameSite(qs, ms, l, n)
    && forall j :: k < j < n ==> PickBy(qs[j], ms[j]).None? && !Hears(qs[j], ms[j], g)
  }

  ghost predicate ParamsTraced(qs: seq<Recv>, ms: seq<Stimulus>, n: nat)
    requires TraceableRun(qs, ms) && n <= |ms|
  {
    forall id :: id in qs[n].channels ==>
      exists l: nat :: ParamsFrom(qs, ms, n, l, id, qs[n].channels[id])
  }

  ghost predicate CandidatesTraced(qs: seq<Recv>, ms: seq<Stimulus>, n: nat)
    requires TraceableRun(qs, ms) && n <= |ms|
  {
    forall g :: g in qs[n].talkgroups.channels ==>
      exists k: nat, l: nat :: GrantFrom(qs, ms, n, k, l, g, qs[n].talkgroups.channels[g])
  }

  lemma {:induction false} RxFreqFixed(qs: seq<Recv>, ms: seq<Stimulus>, n: nat)
    requires TraceableRun(qs, ms) && n <= |ms|
    ensures qs[n].rxFreq == qs[0].rxFreq
  {
    if n > 0 {
      var i := n - 1;
      RxFreqFixed(qs, ms, i);
      assert Traceable(qs[i], ms[i], qs[i + 1]);
    }
  }

  lemma ParamsTracedNext(qs: seq<Recv>, ms: seq<Stimulus>, n: nat)
    requires TraceableRun(qs, ms) && n < |ms| && ParamsTraced(qs, ms, n)
    ensures ParamsTraced(qs, ms, n + 1)
  {
    var q, m, next := qs[n], ms[n], qs[n + 1];
    assert Traceable(q, m, next);
    forall id | id in next.channels
      ensures exists l: nat {:trigger ParamsFrom(qs, ms, n + 1, l, id, next.channels[id])} ::
                ParamsFrom(qs, ms, n + 1, l, id, next.channels[id])
    {
      if m.ParamsSeen? && m.id == id {
        assert ParamsFrom(qs, ms, n + 1, n, id, next.channels[id]);
      } else {
        var l: nat :| ParamsFrom(qs, ms, n, l, id, q.channels[id]);
        assert ParamsFrom(qs, ms, n + 1, l, id, next.channels[id]);
      }
    }
  }

  lemma GrantFromNext(qs: seq<Recv>, ms: seq<Stimulus>, n: nat, k: nat, l: nat, g: Group, freq: Freq)
    requires TraceableRun(qs, ms) && n < |ms| && GrantFrom(qs, ms, n, k, l, g, freq)
    requires !ChangesSite(qs[n], ms[n]) && PickBy(qs[n], ms[n]).None? && !Hears(qs[n], ms[n], g)
    ensures GrantFrom(qs, ms, n + 1, k, l, g, freq)
  {
  }

  lemma GrantFromNow(qs: seq<Recv>, ms: seq<Stimulus>, n: nat, l: nat, g: Group)
    requires TraceableRun(qs, ms) && n < |ms| && Hears(qs[n], ms[n], g)
    requires ParamsFrom(qs, ms, n, l, ms[n].channel.id, qs[n].channels[ms[n].channel.id])
    ensures GrantFrom(qs, ms, n + 1, n, l, g,
                      qs[n].rxFreq(qs[n].channels[ms[n].channel.id], ms[n].channel.number))
  {
    RxFreqFixed(qs, ms, n);
  }

  lemma CandidateTracedNext(qs: seq<Recv>, ms: seq<Stimulus>, n: nat, g: Group) returns (k: nat, l: nat)
    requires TraceableRun(qs, ms) && n < |ms| && ParamsTraced(qs, ms, n) && CandidatesTraced(qs, ms, n)
    requires g in qs[n + 1].talkgroups.channels
    ensures GrantFrom(qs, ms, n + 1, k, l, g, qs[n + 1].talkgroups.channels[g])
  {
    var q, m, next := qs[n], ms[n], qs[n + 1];
    assert Traceable(q, m, next);
    if Hears(q, m, g) {
      k := n;
      l :| ParamsFrom(qs, ms, n, l, m.channel.id, q.channels[m.channel.id]);
      GrantFromNow(qs, ms, n, l, g);
    } else {
      k, l :| GrantFrom(qs, ms, n, k, l, g, q.talkgroups.channels[g]);
      GrantFromNext(qs, ms, n, k, l, g, q.talkgroups.channels[g]);
    }
  }

  lemma {:induction false} EverythingTraced(qs: seq<Recv>, ms: seq<Stimulus>, n: nat)
    requires TraceableRun(qs, ms) && n <= |ms|
    requires qs[0].channels == map[] && qs[0].talkgroups.channels == map[]
    ensures ParamsTraced(qs, ms, n) && CandidatesTraced(qs, ms, n)
  {
    if n > 0 {
      EverythingTraced(qs, ms, n - 1);
      ParamsTracedNext(qs, ms, n - 1);
      forall g | g in qs[n].talkgroups.channels
        ensures exists k: nat, l: nat {:trigger GrantFrom(qs, ms, n, k, l, g, qs[n].talkgroups.channels[g])} ::
                  GrantFrom(qs, ms, n, k, l, g, qs[n].talkgroups.channels[g])
      {
        var k, l := CandidateTracedNext(qs, ms, n - 1, g);
      }
    }
  }

  lemma PickIsCandidate(r: Recv, m: Stimulus)
    requires r.Valid() && PickBy(r, m).Some?
    ensures var pick := PickBy(r, m).value;
            pick.group in r.talkgroups.channels && pick.freq == r.talkgroups.channels[pick.group]
  {
  }

  lemma BootIsEmpty(c: Config)
    ensures Boot(c).channels == map[] && Boot(c).talkgroups.channels == map[]
  {
  }

  /**
   Every pair a running receiver selects comes from the last grant heard for its group and the
   last parameters announced for its channel, both received after the last change of site.
   */
  lemma SiteIsolation(c: Config, ms: seq<Stimulus>, qs: seq<Recv>, n: nat)
    requires States(Boot(c), ms, qs) && n < |ms| && qs[n].Valid() && PickBy(qs[n], ms[n]).Some?
    ensures TraceableRun(qs, ms)
    ensures var pick := PickBy(qs[n], ms[n]).value;
            exists k: nat, l: nat :: GrantFrom(qs, ms, n, k, l, pick.group, pick.freq)
  {
    StatesTraceable(Boot(c), ms, qs);
    assert qs[0] == After(Boot(c), ms, 0);
    BootIsEmpty(c);
    EverythingTraced(qs, ms, n);
    PickIsCandidate(qs[n], ms[n]);
  }

  // ---------------------------------------------------------------- encryption on the air

  /** How a step at the same site treats a group known to be encrypted. */
  ghost predicate Bars(q: Recv, m: Stimulus, next: Recv, g: Group) {
    && q.Valid()
    && (!ChangesSite(q, m) && g in q.talkgroups.encrypted ==>
          && g in next.talkgroups.encrypted
          && (PickBy(q, m).Some? || Barred(q.talkgroups, g) ==> Barred(next.talkgroups, g)))
    && (Barred(q.talkgroups, g) && PickBy(q, m).Some? ==> PickBy(q, m).value.group != g)
  }

  lemma ApplyBars(r: Recv, m: Stimulus, g: Group)
    requires r.Valid()
    ensures Bars(r, m, r.Apply(m), g)
  {
    SelectionStep(r, m);
    if SelectionCall(r, m).Some? {
      var op := SelectionCall(r, m).value;
      if Barred(r.talkgroups, g) {
        BarredIsNotPicked(r.talkgroups, g, op);
        if !ChangesSite(r, m) {
          BarredStep(r.talkgroups, g, op);
        }
      }
      if PickBy(r, m).Some? && g in r.talkgroups.encrypted {
        PickBars(r.talkgroups, g, op);
      }
    }
  }

  ghost predicate BarringRun(qs: seq<Recv>, ms: seq<Stimulus>, g: Group) {
    && |qs| == |ms| + 1 && (forall i {:trigger qs[i].Valid()} :: 0 <= i <= |ms| ==> qs[i].Valid())
    && forall i {:trigger Bars(qs[i], ms[i], qs[i + 1], g)} ::
         0 <= i < |ms| ==> Bars(qs[i], ms[i], qs[i + 1], g)
  }

  lemma StatesBar(r: Recv, ms: seq<Stimulus>, qs: seq<Recv>, g: Group)
    requires r.Valid() && States(r, ms, qs)
    ensures BarringRun(qs, ms, g)
  {
    StatesValid(r, ms, qs);
    forall k | 0 <= k < |ms| ensures Bars(qs[k], ms[k], qs[k + 1], g) {
      StateStep(r, ms, qs, k);
      ApplyBars(qs[k], ms[k], g);
    }
  }

  lemma {:induction false} BarredOnAir(qs: seq<Recv>, ms: seq<Stimulus>, g: Group, i: nat, j: nat)
    requires BarringRun(qs, ms, g) && i <= j <= |ms| && g in qs[i].talkgroups.encrypted
    requires forall k :: i <= k < j ==> !ChangesSite(qs[k], ms[k])
    ensures g in qs[j].talkgroups.encrypted
    ensures Barred(qs[i].talkgroups, g) ==> Barred(qs[j].talkgroups, g)
    ensures (exists k :: i <= k < j && PickBy(qs[k], ms[k]).Some?) ==> Barred(qs[j].talkgroups, g)
  {
    if i < j {
      var k := j - 1;
      BarredOnAir(qs, ms, g, i, k);
      assert Bars(qs[k], ms[k], qs[k + 1], g);
    }
  }

  /** The encrypted group keeps its place among the candidates, if it had one. */
  lemma CryptoStep(r: Recv, m: Stimulus)
    requires r.Valid() && m.CryptoSeen?
    ensures r.Apply(m).talkgroups.cur == r.talkgroups.cur
    ensures r.curgroup in r.Apply(m).talkgroups.encrypted
  {
  }

  lemma CryptoAt(r: Recv, ms: seq<Stimulus>, qs: seq<Recv>, i: nat)
    requires r.Valid() && States(r, ms, qs) && i < |ms| && ms[i].CryptoSeen?
    ensures qs[i + 1].talkgroups.cur == qs[i].talkgroups.cur
    ensures qs[i].curgroup in qs[i + 1].talkgroups.encrypted
  {
    StateStep(r, ms, qs, i);
    CryptoStep(qs[i], ms[i]);
  }

  /** No stimulus after position `i` and before `j` selects anything. */
  ghost predicate NoPickBetween(qs: seq<Recv>, ms: seq<Stimulus>, i: nat, j: nat)
    requires j <= |ms| && |qs| == |ms| + 1
  {
    forall k :: i < k < j ==> qs[k].Valid() && PickBy(qs[k], ms[k]).None?
  }

  /** No stimulus after position `i` and before `j` moves to another site. */
  ghost predicate NoMoveBetween(qs: seq<Recv>, ms: seq<Stimulus>, i: nat, j: nat)
    requires j <= |ms| && |qs| == |ms| + 1
  {
    forall k :: i < k < j ==> !ChangesSite(qs[k], ms[k])
  }

  lemma NothingPickedBetween(qs: seq<Recv>, ms: seq<Stimulus>, g: Group, i: nat, j: nat)
    requires BarringRun(qs, ms, g) && i < j < |ms| && g in qs[i + 1].talkgroups.encrypted
    requires NoMoveBetween(qs, ms, i, j)
    requires PickBy(qs[j], ms[j]).Some? && PickBy(qs[j], ms[j]).value.group == g
    ensures g in qs[i + 1].talkgroups.cur && NoPickBetween(qs, ms, i, j)
  {
    BarredOnAir(qs, ms, g, i + 1, j);
    assert Bars(qs[j], ms[j], qs[j + 1], g);
  }

  /**
   Once the group being received turns out to be encrypted, and until the site changes, it can
   be selected only by the very next selection, and only if it was still a candidate.
   */
  lemma EncryptedGroupLeaves(r: Recv, ms: seq<Stimulus>, qs: seq<Recv>, i: nat, j: nat)
    requires r.Valid() && States(r, ms, qs) && i < j < |ms| && ms[i].CryptoSeen?
    requires NoMoveBetween(qs, ms, i, j) && qs[j].Valid()
    requires PickBy(qs[j], ms[j]).Some? && PickBy(qs[j], ms[j]).value.group == qs[i].curgroup
    ensures qs[i].curgroup in qs[i].talkgroups.cur
    ensures NoPickBetween(qs, ms, i, j)
  {
    StatesBar(r, ms, qs, qs[i].curgroup);
    CryptoAt(r, ms, qs, i);
    NothingPickedBetween(qs, ms, qs[i].curgroup, i, j);
  }
}
