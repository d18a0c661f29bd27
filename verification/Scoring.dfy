/** What the scores mean in terms of the true times at which candidates were heard. */
module Scoring {
  import opened P25
  import opened Words
  import opened Talkgroups
  import opened TalkgroupLog

  /** When each candidate was last heard, and the time now, on a clock that never wraps. */
  datatype Times = Times(ats: map<Group, nat>, clock: nat) {
    /** Samples since the group was last heard. */
    ghost function Age(g: Group): int
      requires g in ats
    {
      clock - ats[g]
    }

    /** The group has been silent for longest. */
    ghost predicate Eldest(g: Group) {
      g in ats && forall h :: h in ats ==> ats[g] <= ats[h]
    }

    /** The clock did not wrap between the times at which any two candidates were last heard. */
    ghost predicate SameLap(m: nat)
      requires m > 0
    {
      forall g, h :: g in ats && h in ats ==> Lap(ats[g], m) == Lap(ats[h], m)
    }

    /** Every candidate age fits in a word and no lap lies between any two. */
    ghost predicate Exact(m: nat)
      requires m > 0
    {
      && (forall g :: g in ats ==> Age(g) < m)
      && SameLap(m)
    }
  }

  /** The features hold the wrapped times. */
  ghost predicate Timed(f: Features, t: Times) {
    && f.age.Keys == t.ats.Keys
    && f.age == Wrapped(t.ats, Pow2(f.bits))
    && f.elapsed == Residue(t.clock, Pow2(f.bits))
    && forall g :: g in t.ats ==> t.ats[g] <= t.clock
  }

  ghost function TimesOf(log: Log): Times {
    Times(Ats(log.entries), log.clock)
  }

  /** After any run of calls the features hold the wrapped times of the log. */
  lemma FeaturesAreTimed(s: Selection, ops: seq<SelectionOp>, n: nat)
    requires Fresh(s) && n <= |ops|
    ensures Timed(SelectionAfter(s, ops, n).feats, TimesOf(LogAfter(s, ops, n)))
  {
    CandidatesRefineLog(s, ops, n);
    var log := LogAfter(s, ops, n);
    forall g | g in Ats(log.entries) ensures Ats(log.entries)[g] <= log.clock {
      assert Latest(log.entries, g) in log.entries;
    }
  }

  lemma TimedAfter(s: Selection, ops: seq<SelectionOp>, n: nat, f: Features, t: Times)
    requires Fresh(s) && n <= |ops|
    requires f == SelectionAfter(s, ops, n).feats && t == TimesOf(LogAfter(s, ops, n))
    ensures Timed(f, t) && f.bits == s.feats.bits
  {
    FeaturesAreTimed(s, ops, n);
    SettingsFixed(s, ops, n);
  }

  // ---------------------------------------------------------------- ages

  /** A difference read back from wrapped stamps is right iff it fits in a word. */
  lemma WrappedDifference(bits: nat, clock: nat, at: nat)
    requires at <= clock
    ensures WrapSub(bits, Residue(clock, Pow2(bits)), Residue(at, Pow2(bits))) == clock - at
       <==> clock - at < Pow2(bits)
  {
    WrapSubOnce(bits, clock, at);
  }

  /** The wrapped age of a candidate is its true age exactly when that age fits in a word. */
  lemma AgeExactIff(f: Features, t: Times, g: Group)
    requires Timed(f, t) && g in t.ats
    ensures WrapSub(f.bits, f.elapsed, f.age[g]) == t.Age(g) <==> t.Age(g) < Pow2(f.bits)
  {
    WrappedDifference(f.bits, t.clock, t.ats[g]);
  }

  /** With all ages below a word, the smallest stamp is the eldest's iff no lap lies between. */
  lemma LeastStamp(t: Times, m: nat, eldest: Group, holder: Group)
    requires m > 0 && t.Eldest(eldest) && holder in t.ats
    requires forall g :: g in t.ats ==> t.ats[g] < t.ats[eldest] + m
    requires forall g :: g in t.ats ==> Residue(t.ats[holder], m) <= Residue(t.ats[g], m)
    ensures t.ats[holder] == t.ats[eldest] <==> t.SameLap(m)
  {
    var ats := t.ats;
    forall g | g in ats
      ensures Lap(ats[eldest], m) == Lap(ats[g], m) ==>
                Residue(ats[eldest], m) + (ats[g] - ats[eldest]) == Residue(ats[g], m)
      ensures Lap(ats[eldest], m) != Lap(ats[g], m) ==> Residue(ats[g], m) < Residue(ats[eldest], m)
    {
      LapOrder(ats[eldest], ats[g], m);
    }
    if ats[holder] == ats[eldest] {
      assert forall g :: g in ats ==> Lap(ats[g], m) == Lap(ats[eldest], m);
    }
  }

  /** `oldest()` is the true age, once wrapped, of a candidate holding the smallest stamp. */
  lemma OldestOfHolder(f: Features, t: Times) returns (holder: Group)
    requires Timed(f, t) && t.ats != map[]
    ensures holder in t.ats && f.Oldest() == Residue(t.Age(holder), Pow2(f.bits))
    ensures forall g :: g in t.ats ==> Residue(t.ats[holder], Pow2(f.bits)) <= Residue(t.ats[g], Pow2(f.bits))
  {
    assert f.age != map[] by {
      var g :| g in t.ats;
      assert g in f.age;
    }
    assert IsLeast(MinStamp(f.age), f.age);
    holder :| holder in f.age && f.age[holder] == MinStamp(f.age);
    WrapSubOnce(f.bits, t.clock, t.ats[holder]);
    forall g | g in t.ats ensures f.age[g] == Residue(t.ats[g], Pow2(f.bits)) && MinStamp(f.age) <= f.age[g] {
      assert g in f.age;
    }
  }

  /**
   `oldest()` is the largest candidate age if and only if that age fits in a word and the
   clock did not wrap between the times at which the candidates were last heard.
   */
  lemma OldestExactIff(f: Features, t: Times, eldest: Group)
    requires Timed(f, t) && t.Eldest(eldest)
    ensures f.Oldest() == t.Age(eldest) <==> t.Age(eldest) < Pow2(f.bits) && t.SameLap(Pow2(f.bits))
  {
    var m := Pow2(f.bits);
    var holder := OldestOfHolder(f, t);
    if t.Age(eldest) < m {
      LeastStamp(t, m, eldest, holder);
    }
  }

  /** A grant on the last tick before the clock wraps, and another one tick later. */
  function AcrossTheWrap(bits: nat, g: Group, h: Group, freq: Freq): seq<SelectionOp> {
    [RecordElapsed(Pow2(bits) - 1), AddTalkgroup(g, freq), RecordElapsed(1), AddTalkgroup(h, freq)]
  }

  lemma LogNext(s: Selection, ops: seq<SelectionOp>, n: nat, log: Log)
    requires s.Valid() && n < |ops| && !Selects(ops[n]) && log == LogAfter(s, ops, n)
    ensures LogAfter(s, ops, n + 1) == log.Next(ops[n], None, s.filter)
  {
  }

  lemma LogAcrossTheWrap(s: Selection, g: Group, h: Group, freq: Freq)
    requires Fresh(s) && g != h && !s.filter.Excluded(g) && !s.filter.Excluded(h)
    ensures var ops := AcrossTheWrap(s.feats.bits, g, h, freq);
            var log := LogAfter(s, ops, |ops|);
            var m := Pow2(s.feats.bits);
            log.clock == m && log.entries == [Entry(g, freq, m - 1)] + [Entry(h, freq, m)]
  {
    var ops := AcrossTheWrap(s.feats.bits, g, h, freq);
    var m := Pow2(s.feats.bits);
    var first := [Entry(g, freq, m - 1)];
    LogNext(s, ops, 0, Log([], 0, map[], 0));
    LogNext(s, ops, 1, Log([], m - 1, map[], 0));
    LogNext(s, ops, 2, Log(first, m - 1, map[], 0));
    LogNext(s, ops, 3, Log(first, m, map[], 0));
  }

  lemma TimesOfTwo(log: Log, a: Entry, b: Entry)
    requires log.entries == [a] + [b] && a.group != b.group
    ensures TimesOf(log) == Times(map[a.group := a.at, b.group := b.at], log.clock)
  {
    AtsSnoc([], a);
    AtsSnoc([a], b);
    assert [] + [a] == [a];
  }

  /** `oldest()` is zero, although the eldest group was heard one sample ago. */
  ghost predicate Misled(f: Features, t: Times, eldest: Group) {
    Timed(f, t) && t.Eldest(eldest) && t.Age(eldest) == 1 && f.Oldest() == 0
  }

  /** A stamp taken at the wrap is the smallest, and the clock still stands there. */
  lemma OldestAtTheWrap(f: Features, t: Times, m: nat, g: Group, h: Group)
    requires m == Pow2(f.bits) && g != h && t == Times(map[g := m - 1, h := m], m) && Timed(f, t)
    ensures Misled(f, t, g)
  {
    assert h in t.ats && t.ats[h] == m;
    assert f.age[h] == 0 && f.elapsed == 0;
    assert IsLeast(MinStamp(f.age), f.age);
  }

  lemma TimesAcrossTheWrap(s: Selection, g: Group, h: Group, freq: Freq) returns (ops: seq<SelectionOp>)
    requires Fresh(s) && g != h && !s.filter.Excluded(g) && !s.filter.Excluded(h)
    ensures var m := Pow2(s.feats.bits);
            TimesOf(LogAfter(s, ops, |ops|)) == Times(map[g := m - 1, h := m], m)
  {
    ops := AcrossTheWrap(s.feats.bits, g, h, freq);
    var m := Pow2(s.feats.bits);
    LogAcrossTheWrap(s, g, h, freq);
    TimesOfTwo(LogAfter(s, ops, |ops|), Entry(g, freq, m - 1), Entry(h, freq, m));
  }

  lemma MisledAfter(s: Selection, ops: seq<SelectionOp>, n: nat, f: Features, t: Times, m: nat, g: Group, h: Group)
    requires Fresh(s) && n <= |ops| && g != h && m == Pow2(s.feats.bits)
    requires f == SelectionAfter(s, ops, n).feats && t == TimesOf(LogAfter(s, ops, n))
    requires t == Times(map[g := m - 1, h := m], m)
    ensures Misled(f, t, g)
  {
    TimedAfter(s, ops, n, f, t);
    OldestAtTheWrap(f, t, m, g, h);
  }

  /** For any two groups there is a run that takes the later heard for the eldest. */
  lemma OldestMisleads(s: Selection, g: Group, h: Group, freq: Freq) returns (ops: seq<SelectionOp>)
    requires Fresh(s) && g != h && !s.filter.Excluded(g) && !s.filter.Excluded(h)
    ensures Misled(SelectionAfter(s, ops, |ops|).feats, TimesOf(LogAfter(s, ops, |ops|)), g)
  {
    ops := TimesAcrossTheWrap(s, g, h, freq);
    MisledAfter(s, ops, |ops|, SelectionAfter(s, ops, |ops|).feats, TimesOf(LogAfter(s, ops, |ops|)),
                Pow2(s.feats.bits), g, h);
  }

  lemma EldestExists(t: Times) returns (g: Group)
    requires t.ats != map[]
    ensures t.Eldest(g)
  {
    LeastExists(t.ats);
    var m: nat :| IsLeast(m, t.ats);
    g :| g in t.ats && t.ats[g] == m;
  }

  /** Fewer samples than a word holds since the last selection or reset is enough. */
  lemma UnwrappedClockIsExact(f: Features, t: Times)
    requires Timed(f, t) && t.clock < Pow2(f.bits)
    ensures t.Exact(Pow2(f.bits))
  {
    assert forall g :: g in t.ats ==> Lap(t.ats[g], Pow2(f.bits)) == 0;
  }

  // ---------------------------------------------------------------- scores

  /** The share of the oldest age, with zero for zero. */
  ghost function Share(age: int, oldest: nat): real {
    age as real * AgeScale(oldest)
  }

  lemma ShareOrder(a: int, b: int, oldest: nat)
    requires 0 <= a <= oldest && 0 <= b <= oldest
    ensures a <= b <==> Share(a, oldest) <= Share(b, oldest)
    ensures 0.0 <= Share(a, oldest) <= 1.0
  {
    if oldest > 0 {
      var scale := AgeScale(oldest);
      assert scale > 0.0;
      assert oldest as real * scale == 1.0;
      ProductOrder(a as real, b as real, scale);
      ProductOrder(b as real, a as real, scale);
      ProductOrder(a as real, oldest as real, scale);
      ProductOrder(0.0, a as real, scale);
    }
  }

  lemma ProductOrder(x: real, y: real, k: real)
    requires k > 0.0
    ensures x <= y <==> x * k <= y * k
  {
    var d := y - x;
    assert y * k - x * k == d * k;
    assert d > 0.0 ==> d * k > 0.0;
    assert d < 0.0 ==> d * k < 0.0 by {
      assert d < 0.0 ==> -d * k > 0.0;
      assert -d * k == -(d * k);
    }
  }

  /** When all ages are exact, they are measured right and none exceeds the oldest. */
  lemma AgesAreMeasured(f: Features, t: Times, g: Group)
    requires Timed(f, t) && t.Exact(Pow2(f.bits)) && g in f.age
    ensures g in t.ats && 0 <= t.Age(g) <= f.Oldest()
    ensures WrapSub(f.bits, f.elapsed, f.age[g]) == t.Age(g)
  {
    var eldest := EldestExists(t);
    OldestExactIff(f, t, eldest);
    AgeExactIff(f, t, g);
  }

  /** A group's age term at the scale in force. */
  ghost function Freshness(f: Features, g: Group): real
    requires g in f.age
  {
    f.AgeTerm(AgeScale(f.Oldest()), g)
  }

  lemma FreshnessOfAge(f: Features, g: Group, age: int)
    requires g in f.age && age == WrapSub(f.bits, f.elapsed, f.age[g])
    ensures Freshness(f, g) == 1.0 - Share(age, f.Oldest())
  {
  }

  /** Later heard means fresher, and a freshness is a fraction. */
  lemma FreshnessOrder(f: Features, t: Times, g: Group, h: Group)
    requires Timed(f, t) && t.Exact(Pow2(f.bits)) && g in f.age && h in f.age
    ensures g in t.ats && h in t.ats
    ensures Freshness(f, g) <= Freshness(f, h) <==> t.ats[g] <= t.ats[h]
    ensures 0.0 <= Freshness(f, g) <= 1.0
  {
    AgesAreMeasured(f, t, g);
    AgesAreMeasured(f, t, h);
    FreshnessOfAge(f, g, t.Age(g));
    FreshnessOfAge(f, h, t.Age(h));
    ShareOrder(t.Age(h), t.Age(g), f.Oldest());
    ShareOrder(t.Age(g), t.Age(h), f.Oldest());
  }

  /** All the groups have the same priority. */
  ghost predicate EqualPriorities(f: Features, groups: seq<Group>) {
    forall g, h :: g in groups && h in groups ==> f.Prio(g) == f.Prio(h)
  }

  lemma WeightedOrder(a: real, b: real, w: real)
    ensures w > 0.0 ==> (a <= b <==> a * w <= b * w)
    ensures w < 0.0 ==> (b <= a <==> a * w <= b * w)
  {
    if w > 0.0 {
      ProductOrder(a, b, w);
    } else if w < 0.0 {
      ProductOrder(b, a, -w);
      assert a * -w == -(a * w) && b * -w == -(b * w);
    }
  }

  /** Sums that differ in age and reward only. */
  lemma SumDifference(w: FeatureWeights, p: real, a: real, b: real, r: real, q: real)
    ensures w.Sum(p, a, r) - w.Sum(p, b, q) == a * w.age - b * w.age + (r * w.recent - q * w.recent)
  {
  }

  lemma SumOrder(w: FeatureWeights, p: real, a: real, b: real)
    ensures w.age > 0.0 ==> (w.Sum(p, a, 0.0) <= w.Sum(p, b, 0.0) <==> a <= b)
    ensures w.age < 0.0 ==> (w.Sum(p, a, 0.0) <= w.Sum(p, b, 0.0) <==> b <= a)
  {
    SumDifference(w, p, a, b, 0.0, 0.0);
    WeightedOrder(a, b, w.age);
  }

  /** The reward outweighs any difference in freshness. */
  lemma RewardOutweighs(w: FeatureWeights, p: real, a: real, b: real)
    requires 0.0 <= a <= 1.0 && 0.0 <= b <= 1.0 && w.recent >= w.age >= 0.0
    ensures w.Sum(p, a, 0.0) <= w.Sum(p, b, 1.0)
    ensures w.recent > w.age ==> w.Sum(p, a, 0.0) < w.Sum(p, b, 1.0)
  {
    SumDifference(w, p, a, b, 0.0, 1.0);
    UnitProduct(a, w.age);
    UnitProduct(b, w.age);
  }

  lemma ScoreIsSum(f: Features, g: Group)
    requires g in f.age
    ensures f.Score(g) == f.weights.Sum(f.Prio(g), Freshness(f, g), f.Reward(g))
  {
  }

  /** Among equals, the sign of the age weight says whether later or earlier heard scores higher. */
  lemma ScoreOrder(f: Features, t: Times, g: Group, h: Group)
    requires Timed(f, t) && t.Exact(Pow2(f.bits))
    requires g in f.age && h in f.age && f.Prio(g) == f.Prio(h)
    requires g != f.recent && h != f.recent
    ensures g in t.ats && h in t.ats
    ensures f.weights.age > 0.0 ==> (f.Score(g) <= f.Score(h) <==> t.ats[g] <= t.ats[h])
    ensures f.weights.age < 0.0 ==> (f.Score(g) <= f.Score(h) <==> t.ats[g] >= t.ats[h])
  {
    FreshnessOrder(f, t, g, h);
    FreshnessOrder(f, t, h, g);
    ScoreIsSum(f, g);
    ScoreIsSum(f, h);
    SumOrder(f.weights, f.Prio(g), Freshness(f, g), Freshness(f, h));
  }

  /** The last of the groups that were heard latest (`later`), or earliest (not `later`). */
  ghost predicate LastByTime(ats: map<Group, nat>, groups: seq<Group>, k: nat, later: bool) {
    && k < |groups| && (forall g :: g in groups ==> g in ats)
    && (forall j :: 0 <= j < |groups| ==>
          if later then ats[groups[j]] <= ats[groups[k]] else ats[groups[j]] >= ats[groups[k]])
    && (forall j :: k < j < |groups| ==> ats[groups[j]] != ats[groups[k]])
  }

  /** The best group is last by time when the scores are ordered by time. */
  lemma BestByOrder(score: Group -> real, ats: map<Group, nat>, groups: seq<Group>, later: bool)
    requires groups != [] && forall g :: g in groups ==> g in ats
    requires forall g, h :: g in groups && h in groups ==>
               (score(g) <= score(h) <==> if later then ats[g] <= ats[h] else ats[g] >= ats[h])
    ensures exists k: nat :: LastByTime(ats, groups, k, later) && LastArgMax(score, groups) == Some(groups[k])
  {
    LastArgMaxIsLastMax(score, groups);
    var k: nat :| LastMax(score, groups, k) && LastArgMax(score, groups) == Some(groups[k]);
    assert LastByTime(ats, groups, k, later);
  }

  /**
   With equal priorities and no recent group among the candidates, the best candidate is the
   latest heard one for a positive age weight and the earliest heard one for a negative
   weight, ties going to the last in the list.
   */
  lemma BestFollowsTime(f: Features, t: Times, groups: seq<Group>)
    requires Timed(f, t) && t.Exact(Pow2(f.bits)) && forall g :: g in groups ==> g in f.age
    requires EqualPriorities(f, groups) && f.recent !in groups
    requires f.weights.age != 0.0 && groups != []
    ensures exists k: nat :: LastByTime(t.ats, groups, k, f.weights.age > 0.0)
                             && f.Best(groups) == Some(groups[k])
  {
    forall g, h | g in groups && h in groups
      ensures g in t.ats && h in t.ats
      ensures f.Score(g) <= f.Score(h) <==>
                if f.weights.age > 0.0 then t.ats[g] <= t.ats[h] else t.ats[g] >= t.ats[h]
    {
      ScoreOrder(f, t, g, h);
    }
    BestByOrder(f.Scorer(), t.ats, groups, f.weights.age > 0.0);
  }

  lemma RecentBeats(f: Features, t: Times, g: Group)
    requires Timed(f, t) && t.Exact(Pow2(f.bits)) && g in f.age && f.recent in f.age
    requires f.Prio(g) == f.Prio(f.recent)
    requires f.weights.recent >= f.weights.age >= 0.0
    ensures f.Score(g) <= f.Score(f.recent)
    ensures f.weights.recent > f.weights.age && g != f.recent ==> f.Score(g) < f.Score(f.recent)
  {
    if g != f.recent {
      FreshnessOrder(f, t, g, f.recent);
      FreshnessOrder(f, t, f.recent, g);
      ScoreIsSum(f, g);
      ScoreIsSum(f, f.recent);
      RewardOutweighs(f.weights, f.Prio(g), Freshness(f, g), Freshness(f, f.recent));
    }
  }

  lemma StrictMaxIsBest(score: Group -> real, groups: seq<Group>, top: Group)
    requires top in groups && forall g :: g in groups && g != top ==> score(g) < score(top)
    ensures LastArgMax(score, groups) == Some(top)
  {
    LastArgMaxIsLastMax(score, groups);
    var k: nat :| LastMax(score, groups, k) && LastArgMax(score, groups) == Some(groups[k]);
    assert groups[k] in groups;
  }

  /** A large enough reward makes the recent group a best candidate, or the only one. */
  lemma RecentDominates(f: Features, t: Times, groups: seq<Group>)
    requires Timed(f, t) && t.Exact(Pow2(f.bits)) && forall g :: g in groups ==> g in f.age
    requires EqualPriorities(f, groups) && f.recent in groups
    requires f.weights.recent >= f.weights.age >= 0.0
    ensures forall g :: g in groups ==> f.Score(g) <= f.Score(f.recent)
    ensures f.weights.recent > f.weights.age ==> f.Best(groups) == Some(f.recent)
  {
    forall g | g in groups
      ensures f.Score(g) <= f.Score(f.recent)
      ensures f.weights.recent > f.weights.age && g != f.recent ==> f.Score(g) < f.Score(f.recent)
    {
      RecentBeats(f, t, g);
    }
    if f.weights.recent > f.weights.age {
      StrictMaxIsBest(f.Scorer(), groups, f.recent);
    }
  }

  lemma UnitProduct(x: real, w: real)
    requires 0.0 <= x <= 1.0 && w >= 0.0
    ensures 0.0 <= x * w <= w
  {
    assert w - x * w == (1.0 - x) * w;
  }

  // ---------------------------------------------------------------- selections in a run

  /** The groups a selection chooses from, in the order in which they were first heard. */
  ghost function OfferedList(s: Selection, entries: seq<Entry>, op: SelectionOp): seq<Group> {
    if op.SelectIdle? then FirstHeard(entries) else Filtered(FirstHeard(entries), s.preempt)
  }

  ghost predicate Selects(op: SelectionOp) {
    op.SelectIdle? || op.SelectPreempt?
  }

  lemma OutcomeIsBest(s: Selection, op: SelectionOp, best: Group)
    requires s.Valid() && Selects(op) && s.feats.Best(ListFor(s, op)) == Some(best)
    ensures s.Outcome(op).Some? && s.Outcome(op).value.group == best
  {
  }

  /** What a selection in a run works on: the offered groups, exact times, the same settings. */
  lemma SelectionInRun(s: Selection, ops: seq<SelectionOp>, i: nat, log: Log, u: Selection)
    requires Fresh(s) && i < |ops| && Selects(ops[i])
    requires log == LogAfter(s, ops, i) && u == SelectionAfter(s, ops, i)
    ensures u.Valid() && Timed(u.feats, TimesOf(log)) && SameSettings(s, u)
    ensures u.feats.recent == log.recent && ListFor(u, ops[i]) == OfferedList(s, log.entries, ops[i])
    ensures forall g :: g in ListFor(u, ops[i]) ==> g in u.feats.age
  {
    TimedAfter(s, ops, i, u.feats, TimesOf(log));
    SettingsFixed(s, ops, i);
    CandidatesRefineLog(s, ops, i);
  }

  /**
   In every run, a selection among groups of equal priority, none of them the recent one,
   returns the latest heard of the offered groups for a positive age weight, and the earliest
   heard for a negative one, ties going to the group that was first heard last.
   */
  lemma SelectionFollowsTime(s: Selection, ops: seq<SelectionOp>, i: nat)
    requires Fresh(s) && i < |ops| && Selects(ops[i]) && s.feats.weights.age != 0.0
    requires var log := LogAfter(s, ops, i);
             var groups := OfferedList(s, log.entries, ops[i]);
             && TimesOf(log).Exact(Pow2(s.feats.bits))
             && groups != [] && EqualPriorities(s.feats, groups) && log.recent !in groups
    ensures var log, pick := LogAfter(s, ops, i), PickAt(s, ops, i);
            var groups := OfferedList(s, log.entries, ops[i]);
            && pick.Some?
            && exists k: nat ::
                 LastByTime(TimesOf(log).ats, groups, k, s.feats.weights.age > 0.0) && pick.value.group == groups[k]
  {
    var log, u := LogAfter(s, ops, i), SelectionAfter(s, ops, i);
    var groups := OfferedList(s, log.entries, ops[i]);
    SelectionInRun(s, ops, i, log, u);
    assert forall g :: u.feats.Prio(g) == s.feats.Prio(g);
    BestFollowsTime(u.feats, TimesOf(log), groups);
    var k: nat :| LastByTime(TimesOf(log).ats, groups, k, s.feats.weights.age > 0.0)
                  && u.feats.Best(groups) == Some(groups[k]);
    OutcomeIsBest(u, ops[i], groups[k]);
  }

  /** In every run a large enough reward makes a selection return the recent group if offered. */
  lemma SelectionKeepsRecent(s: Selection, ops: seq<SelectionOp>, i: nat)
    requires Fresh(s) && i < |ops| && Selects(ops[i])
    requires s.feats.weights.recent > s.feats.weights.age >= 0.0
    requires var log := LogAfter(s, ops, i);
             var groups := OfferedList(s, log.entries, ops[i]);
             && TimesOf(log).Exact(Pow2(s.feats.bits))
             && EqualPriorities(s.feats, groups) && log.recent in groups
    ensures var pick := PickAt(s, ops, i);
            pick.Some? && pick.value.group == LogAfter(s, ops, i).recent
  {
    var log, u := LogAfter(s, ops, i), SelectionAfter(s, ops, i);
    var groups := OfferedList(s, log.entries, ops[i]);
    SelectionInRun(s, ops, i, log, u);
    RecentIsBest(s.feats, u.feats, TimesOf(log), groups);
    OutcomeIsBest(u, ops[i], log.recent);
  }

  lemma RecentIsBest(start: Features, f: Features, t: Times, groups: seq<Group>)
    requires Timed(f, t) && t.Exact(Pow2(f.bits)) && forall g :: g in groups ==> g in f.age
    requires f.prios == start.prios && f.weights == start.weights
    requires EqualPriorities(start, groups) && f.recent in groups
    requires f.weights.recent > f.weights.age >= 0.0
    ensures f.Best(groups) == Some(f.recent)
  {
    assert forall g :: f.Prio(g) == start.Prio(g);
    RecentDominates(f, t, groups);
  }
}
