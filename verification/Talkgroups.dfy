/** Talkgroup collection, filtering, scoring and selection. */
module Talkgroups {
  import opened P25
  import opened Words

  datatype Pick = Pick(group: Group, freq: Freq)

  /** Include-by-default (`exclude`) or exclude-by-default list of talkgroups. */
  datatype Filter = Filter(exclude: bool, filt: set<Group>) {
    predicate Excluded(tg: Group) {
      (exclude && tg in filt) || (!exclude && tg !in filt)
    }
  }

  datatype FeatureWeights = FeatureWeights(prio: real, age: real, recent: real) {
    function Sum(p: real, a: real, r: real): real {
      p * prio + a * age + r * recent
    }
  }

  // ---------------------------------------------------------------- scoring

  ghost predicate IsLeast(m: nat, age: map<Group, nat>) {
    && (exists g :: g in age && age[g] == m)
    && (forall g :: g in age ==> m <= age[g])
  }

  lemma LeastExists(age: map<Group, nat>)
    requires age != map[]
    ensures exists m: nat :: IsLeast(m, age)
  {
    var g :| g in age;
    var rest := age - {g};
    if rest == map[] {
      assert forall h :: h in age ==> h == g || h in rest;
      assert IsLeast(age[g], age);
    } else {
      LeastExists(rest);
      var m: nat :| IsLeast(m, rest);
      assert forall h :: h in age ==> h == g || h in rest;
      assert IsLeast(if age[g] <= m then age[g] else m, age);
    }
  }

  /** The smallest recorded stamp, or zero when nothing is recorded. */
  ghost function MinStamp(age: map<Group, nat>): (m: nat)
    ensures age == map[] ==> m == 0
    ensures age != map[] ==> IsLeast(m, age)
  {
    if age == map[] then 0
    else
      LeastExists(age);
      var m: nat :| IsLeast(m, age);
      m
  }

  /** Reciprocal of the oldest age, with zero for zero. */
  function AgeScale(oldest: nat): real {
    if oldest == 0 then 0.0 else 1.0 / oldest as real
  }

  /** Position `k` holds the last of the groups with the highest score. */
  ghost predicate LastMax(score: Group -> real, groups: seq<Group>, k: nat) {
    && k < |groups|
    && (forall j :: 0 <= j < |groups| ==> score(groups[j]) <= score(groups[k]))
    && (forall j :: k < j < |groups| ==> score(groups[j]) < score(groups[k]))
  }

  /** A left fold that keeps the later of two equal maxima. */
  ghost function LastArgMax(score: Group -> real, groups: seq<Group>): (best: Option<Group>)
    ensures best.None? <==> groups == []
    ensures best.Some? ==> best.value in groups
  {
    if groups == [] then None
    else
      var n := |groups| - 1;
      var best := LastArgMax(score, groups[..n]);
      if best.Some? && score(best.value) > score(groups[n]) then best else Some(groups[n])
  }

  lemma LastMaxKept(score: Group -> real, groups: seq<Group>, k: nat)
    requires groups != [] && LastMax(score, groups[..|groups| - 1], k)
    requires score(groups[k]) > score(groups[|groups| - 1])
    ensures LastMax(score, groups, k)
  {
    assert forall j :: 0 <= j < |groups| - 1 ==> groups[j] == groups[..|groups| - 1][j];
  }

  lemma LastMaxReplaced(score: Group -> real, groups: seq<Group>, k: nat)
    requires groups != [] && LastMax(score, groups[..|groups| - 1], k)
    requires score(groups[k]) <= score(groups[|groups| - 1])
    ensures LastMax(score, groups, |groups| - 1)
  {
    assert forall j :: 0 <= j < |groups| - 1 ==> groups[j] == groups[..|groups| - 1][j];
  }

  /** The fold returns the last element that attains the maximum score. */
  lemma {:induction false} LastArgMaxIsLastMax(score: Group -> real, groups: seq<Group>)
    requires groups != []
    ensures exists k: nat :: LastMax(score, groups, k) && LastArgMax(score, groups) == Some(groups[k])
  {
    var n := |groups| - 1;
    if n == 0 {
      assert LastMax(score, groups, 0);
    } else {
      LastArgMaxIsLastMax(score, groups[..n]);
      var k: nat :| LastMax(score, groups[..n], k)
                    && LastArgMax(score, groups[..n]) == Some(groups[..n][k]);
      if score(groups[k]) > score(groups[n]) {
        LastMaxKept(score, groups, k);
      } else {
        LastMaxReplaced(score, groups, k);
      }
    }
  }

  /** Value of the features' fields. */
  datatype Features = Features(
    bits: nat, elapsed: nat, age: map<Group, nat>, recent: Group,
    prios: map<Group, real>, weights: FeatureWeights)
  {
    ghost function Oldest(): nat {
      WrapSub(bits, elapsed, MinStamp(age))
    }

    /** One for a group heard just now, less the longer ago it was heard. */
    function AgeTerm(scale: real, tg: Group): real
      requires tg in age
    {
      1.0 - WrapSub(bits, elapsed, age[tg]) as real * scale
    }

    function Prio(tg: Group): real {
      if tg in prios then prios[tg] else 1.0
    }

    function Reward(tg: Group): real {
      if tg == recent then 1.0 else 0.0
    }

    /** The weighted sum of a group's features. */
    function Weigh(scale: real, tg: Group): real
      requires tg in age
    {
      weights.Sum(Prio(tg), AgeTerm(scale, tg), Reward(tg))
    }

    ghost function Score(tg: Group): real
      requires tg in age
    {
      Weigh(AgeScale(Oldest()), tg)
    }

    /** The score as a function of any group; candidates are always in `age`. */
    ghost function Scorer(): Group -> real {
      (g: Group) => if g in age then Score(g) else 0.0
    }

    ghost function Best(groups: seq<Group>): (best: Option<Group>)
      ensures best.None? <==> groups == []
      ensures best.Some? ==> best.value in groups
    {
      LastArgMax(Scorer(), groups)
    }

    function Selected(tg: Group): Features {
      this.(age := map[], recent := tg, elapsed := 0)
    }
  }

  /** Tracks the features used to rank talkgroups, updated in place. */
  class TalkgroupFeatures {
    const bits: nat
    var elapsed: nat
    var age: map<Group, nat>
    var recent: Group
    const prios: map<Group, real>
    const weights: FeatureWeights

    ghost function View(): Features
      reads this
    {
      Features(bits, elapsed, age, recent, prios, weights)
    }

    constructor (bits: nat, prios: map<Group, real>, weights: FeatureWeights)
      ensures View() == Features(bits, 0, map[], 0, prios, weights)
    {
      this.bits, this.prios, this.weights := bits, prios, weights;
      elapsed, age, recent := 0, map[], 0;
    }

    method RecordElapsed(samples: nat)
      modifies this
      ensures View() == old(View()).(elapsed := WrapAdd(bits, old(elapsed), samples))
    {
      elapsed := WrapAdd(bits, elapsed, samples);
    }

    method Add(tg: Group)
      modifies this
      ensures View() == old(View()).(age := old(age)[tg := old(elapsed)])
    {
      age := age[tg := elapsed];
    }

    method Select(tg: Group)
      modifies this
      ensures View() == old(View()).Selected(tg)
    {
      age := map[];
      recent := tg;
      elapsed := 0;
    }

    method Reset()
      modifies this
      ensures View() == old(View()).Selected(0)
    {
      Select(0);
    }

    method Oldest() returns (oldest: nat)
      ensures oldest == View().Oldest()
    {
      var least: Option<nat> := None;
      var rest := age.Keys;
      while rest != {}
        invariant rest <= age.Keys
        invariant least.None? <==> rest == age.Keys
        invariant least.Some? ==> exists g :: g in age && g !in rest && age[g] == least.value
        invariant least.Some? ==> forall g :: g in age && g !in rest ==> least.value <= age[g]
      {
        var g :| g in rest;
        rest := rest - {g};
        if least.None? || age[g] < least.value {
          least := Some(age[g]);
        }
      }
      if least.Some? {
        assert IsLeast(least.value, age);
        assert age != map[];
        assert MinStamp(age) == least.value;
      } else {
        assert age.Keys == {};
        assert age == map[];
      }
      oldest := WrapSub(bits, elapsed, if least.Some? then least.value else 0);
    }

    /** The last of the groups with the highest score; every group must have been added. */
    method MaxScore(groups: seq<Group>) returns (best: Option<Group>)
      requires forall g :: g in groups ==> g in age
      ensures best == View().Best(groups)
    {
      var oldest := Oldest();
      var scale := AgeScale(oldest);
      var f := Features(bits, elapsed, age, recent, prios, weights);
      best := None;
      for i := 0 to |groups|
        invariant best == f.Best(groups[..i])
      {
        assert groups[..i + 1][..i] == groups[..i];
        if best.None? || f.Weigh(scale, best.value) <= f.Weigh(scale, groups[i]) {
          best := Some(groups[i]);
        }
      }
      assert groups[..|groups|] == groups;
    }
  }

  // ---------------------------------------------------------------- selection

  /** A call on the selection. */
  datatype SelectionOp =
    | RecordElapsed(samples: nat)
    | AddTalkgroup(group: Group, freq: Freq)
    | SelectIdle
    | SelectPreempt
    | RecordEncrypted(group: Group, alg: CryptoAlgorithm)
    | ClearState

  /** Value of the selection's fields. */
  datatype Selection = Selection(
    cur: seq<Group>, curPreempt: seq<Group>, channels: map<Group, Freq>,
    encrypted: map<Group, CryptoAlgorithm>, preempt: set<Group>, filter: Filter, feats: Features)
  {
    /** Every candidate has a frequency and an age, so no lookup can fail. */
    ghost predicate Valid() {
      && (forall g :: g in cur ==> g in channels)
      && (forall g :: g in curPreempt ==> g in cur)
      && channels.Keys == feats.age.Keys
    }

    predicate Accepts(tg: Group) {
      tg !in encrypted && !filter.Excluded(tg)
    }

    function Add(tg: Group, freq: Freq): Selection {
      if !Accepts(tg) then this
      else
        var s := this.(feats := feats.(age := feats.age[tg := feats.elapsed]),
                       channels := channels[tg := freq]);
        if tg in channels then s
        else s.(cur := cur + [tg],
                curPreempt := if tg in preempt then curPreempt + [tg] else curPreempt)
    }

    function ClearCandidates(): Selection {
      this.(cur := [], curPreempt := [], channels := map[])
    }

    /** The group and frequency that a call returns, if it selects anything. */
    ghost function Outcome(op: SelectionOp): (pick: Option<Pick>)
      requires Valid()
    {
      var best := match op
                  case SelectIdle => feats.Best(cur)
                  case SelectPreempt => feats.Best(curPreempt)
                  case _ => None;
      if best.Some? then Some(Pick(best.value, channels[best.value])) else None
    }

    ghost function Next(op: SelectionOp): (s: Selection)
      requires Valid()
      ensures s.Valid()
    {
      match op
      case RecordElapsed(n) =>
        this.(feats := feats.(elapsed := WrapAdd(feats.bits, feats.elapsed, n)))
      case AddTalkgroup(tg, freq) => Add(tg, freq)
      case SelectIdle => Settle(Outcome(op))
      case SelectPreempt => Settle(Outcome(op))
      case RecordEncrypted(tg, alg) => this.(encrypted := encrypted[tg := alg])
      case ClearState => ClearCandidates().(encrypted := map[], feats := feats.Selected(0))
    }

    function Settle(pick: Option<Pick>): Selection {
      if pick.None? then this
      else ClearCandidates().(feats := feats.Selected(pick.value.group))
    }
  }

  function NewSelection(bits: nat, preempt: set<Group>, filter: Filter,
                        prios: map<Group, real>, weights: FeatureWeights): Selection {
    Selection([], [], map[], map[], preempt, filter, Features(bits, 0, map[], 0, prios, weights))
  }

  /** Collects, filters and selects talkgroups, updated in place. */
  class TalkgroupSelection {
    var cur: seq<Group>
    var curPreempt: seq<Group>
    var channels: map<Group, Freq>
    var encrypted: map<Group, CryptoAlgorithm>
    const preempt: set<Group>
    const filter: Filter
    const feats: TalkgroupFeatures

    ghost function View(): Selection
      reads this, feats
    {
      Selection(cur, curPreempt, channels, encrypted, preempt, filter, feats.View())
    }

    ghost predicate Valid()
      reads this, feats
    {
      View().Valid()
    }

    constructor (bits: nat, preempt: set<Group>, filter: Filter,
                 prios: map<Group, real>, weights: FeatureWeights)
      ensures Valid() && fresh(feats)
      ensures View() == NewSelection(bits, preempt, filter, prios, weights)
    {
      cur, curPreempt, channels, encrypted := [], [], map[], map[];
      this.preempt, this.filter := preempt, filter;
      feats := new TalkgroupFeatures(bits, prios, weights);
    }

    method RecordElapsed(samples: nat)
      requires Valid()
      modifies feats
      ensures Valid() && View() == old(View()).Next(SelectionOp.RecordElapsed(samples))
    {
      feats.RecordElapsed(samples);
    }

    method AddTalkgroup(tg: Group, freq: Freq)
      requires Valid()
      modifies this, feats
      ensures Valid() && View() == old(View()).Next(SelectionOp.AddTalkgroup(tg, freq))
    {
      if tg in encrypted || filter.Excluded(tg) {
        return;
      }
      feats.Add(tg);
      var known := tg in channels;
      channels := channels[tg := freq];
      if known {
        return;
      }
      cur := cur + [tg];
      if tg in preempt {
        curPreempt := curPreempt + [tg];
      }
    }

    method SelectIdle() returns (pick: Option<Pick>)
      requires Valid()
      modifies this, feats
      ensures Valid() && pick == old(View()).Outcome(SelectionOp.SelectIdle)
      ensures View() == old(View()).Next(SelectionOp.SelectIdle)
    {
      var best := feats.MaxScore(cur);
      pick := None;
      if best.Some? {
        pick := SelectTg(best.value);
      }
    }

    method SelectPreempt() returns (pick: Option<Pick>)
      requires Valid()
      modifies this, feats
      ensures Valid() && pick == old(View()).Outcome(SelectionOp.SelectPreempt)
      ensures View() == old(View()).Next(SelectionOp.SelectPreempt)
    {
      var best := feats.MaxScore(curPreempt);
      pick := None;
      if best.Some? {
        pick := SelectTg(best.value);
      }
    }

    method RecordEncrypted(tg: Group, alg: CryptoAlgorithm)
      requires Valid()
      modifies this
      ensures Valid() && View() == old(View()).Next(SelectionOp.RecordEncrypted(tg, alg))
    {
      encrypted := encrypted[tg := alg];
    }

    method SelectTg(tg: Group) returns (pick: Option<Pick>)
      requires Valid() && tg in channels
      modifies this, feats
      ensures Valid() && pick == Some(Pick(tg, old(channels)[tg]))
      ensures View() == old(View()).Settle(pick)
    {
      var freq := channels[tg];
      ClearCandidates();
      feats.Select(tg);
      pick := Some(Pick(tg, freq));
    }

    method ClearCandidates()
      modifies this
      ensures View() == old(View()).ClearCandidates()
    {
      cur := [];
      curPreempt := [];
      channels := map[];
    }

    method ClearState()
      requires Valid()
      modifies this, feats
      ensures Valid() && View() == old(View()).Next(SelectionOp.ClearState)
    {
      ClearCandidates();
      encrypted := map[];
      feats.Reset();
    }
  }

  // ---------------------------------------------------------------- runs of calls

  /** The selection after the first `n` calls. */
  ghost function SelectionAfter(s: Selection, ops: seq<SelectionOp>, n: nat): (t: Selection)
    requires s.Valid() && n <= |ops|
    ensures t.Valid()
  {
    if n == 0 then s else SelectionAfter(s, ops, n - 1).Next(ops[n - 1])
  }

  /** What call `i` of a run returns. */
  ghost function PickAt(s: Selection, ops: seq<SelectionOp>, i: nat): Option<Pick>
    requires s.Valid() && i < |ops|
  {
    SelectionAfter(s, ops, i).Outcome(ops[i])
  }

  lemma SettingsKept(s: Selection, op: SelectionOp)
    requires s.Valid()
    ensures SameSettings(s, s.Next(op))
  {
  }

  ghost predicate SameSettings(s: Selection, t: Selection) {
    && t.preempt == s.preempt && t.filter == s.filter && t.feats.bits == s.feats.bits
    && t.feats.prios == s.feats.prios && t.feats.weights == s.feats.weights
  }

  lemma {:induction false} SettingsFixed(s: Selection, ops: seq<SelectionOp>, n: nat)
    requires s.Valid() && n <= |ops|
    ensures SameSettings(s, SelectionAfter(s, ops, n))
  {
    if n > 0 {
      SettingsFixed(s, ops, n - 1);
      SettingsKept(SelectionAfter(s, ops, n - 1), ops[n - 1]);
    }
  }
}
