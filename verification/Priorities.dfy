/** What priorities, ages and the reward are worth against each other. */
module Priorities {
  import opened P25
  import opened Words
  import opened Talkgroups
  import opened TalkgroupLog
  import opened Scoring

  /** The priority set for a group, and one for the others. */
  function PriorityOf(prios: map<Group, real>, g: Group): real {
    if g in prios then prios[g] else 1.0
  }

  // ---------------------------------------------------------------- the score in true units

  function RewardOf(recent: Group, g: Group): real {
    if g == recent then 1.0 else 0.0
  }

  /** The scores differ by the weighted differences in priority, freshness and reward. */
  ghost predicate Apart(w: FeatureWeights, x: real, y: real, priority: real, freshness: real, reward: real) {
    x - y == priority * w.prio + freshness * w.age + reward * w.recent
  }

  /** A score is the weighted sum of three parts. */
  ghost predicate HasParts(w: FeatureWeights, x: real, p: real, a: real, r: real) {
    x == w.Sum(p, a, r)
  }

  lemma PartsOfScore(f: Features, g: Group)
    requires g in f.age
    ensures HasParts(f.weights, f.Score(g), PriorityOf(f.prios, g), Freshness(f, g),
                     RewardOf(f.recent, g))
  {
    ScoreIsSum(f, g);
  }

  lemma GapOfParts(w: FeatureWeights, x: real, p: real, a: real, r: real,
                   y: real, q: real, b: real, s: real)
    requires HasParts(w, x, p, a, r) && HasParts(w, y, q, b, s)
    ensures Apart(w, x, y, p - q, a - b, r - s)
  {
  }

  /** How much later `g` was heard than `h`, as a part of the largest age. */
  ghost function Lead(t: Times, eldest: Group, g: Group, h: Group): real
    requires eldest in t.ats && g in t.ats && h in t.ats
  {
    if t.Age(eldest) == 0 then 0.0 else (t.Age(h) - t.Age(g)) as real / t.Age(eldest) as real
  }

  lemma ShareGap(a: int, b: int, oldest: nat)
    requires oldest > 0
    ensures Share(a, oldest) - Share(b, oldest) == (a - b) as real / oldest as real
  {
    var scale := 1.0 / oldest as real;
    assert a as real * scale - b as real * scale == (a - b) as real * scale;
  }

  lemma FreshnessGap(f: Features, t: Times, eldest: Group, g: Group, h: Group)
    requires Timed(f, t) && t.Exact(Pow2(f.bits)) && t.Eldest(eldest) && g in f.age && h in f.age
    ensures g in t.ats && h in t.ats
    ensures Freshness(f, g) - Freshness(f, h) == Lead(t, eldest, g, h)
  {
    AgesAreMeasured(f, t, g);
    AgesAreMeasured(f, t, h);
    OldestExactIff(f, t, eldest);
    FreshnessOfAge(f, g, t.Age(g));
    FreshnessOfAge(f, h, t.Age(h));
    if t.Age(eldest) > 0 {
      ShareGap(t.Age(h), t.Age(g), f.Oldest());
    }
  }

  /**
   What two candidates' scores differ by: their priorities, the times at which they were heard
   relative to the largest age, and the reward, each times its weight.
   */
  lemma ScoreGap(f: Features, t: Times, eldest: Group, g: Group, h: Group)
    requires Timed(f, t) && t.Exact(Pow2(f.bits)) && t.Eldest(eldest) && g in f.age && h in f.age
    ensures g in t.ats && h in t.ats
    ensures Apart(f.weights, f.Score(g), f.Score(h), PriorityOf(f.prios, g) - PriorityOf(f.prios, h),
                  Lead(t, eldest, g, h), RewardOf(f.recent, g) - RewardOf(f.recent, h))
  {
    FreshnessGap(f, t, eldest, g, h);
    PartsOfScore(f, g);
    PartsOfScore(f, h);
    GapOfParts(f.weights, f.Score(g), PriorityOf(f.prios, g), Freshness(f, g), RewardOf(f.recent, g),
               f.Score(h), PriorityOf(f.prios, h), Freshness(f, h), RewardOf(f.recent, h));
  }

  // ---------------------------------------------------------------- priorities decide

  /** Ages do not tell the groups apart: they carry no weight, or all were heard together. */
  ghost predicate SameAges(f: Features, groups: seq<Group>)
    requires forall g :: g in groups ==> g in f.age
  {
    f.weights.age == 0.0 || forall g, h :: g in groups && h in groups ==> f.age[g] == f.age[h]
  }

  /** Scores `x` and `y` are ordered as the priorities `p` and `q`, or the other way round. */
  ghost predicate Ordered(w: FeatureWeights, x: real, y: real, p: real, q: real) {
    && (w.prio > 0.0 ==> (x <= y <==> p <= q))
    && (w.prio < 0.0 ==> (x <= y <==> p >= q))
  }

  lemma OrderOfParts(w: FeatureWeights, x: real, p: real, a: real, y: real, q: real, b: real)
    requires HasParts(w, x, p, a, 0.0) && HasParts(w, y, q, b, 0.0) && (w.age == 0.0 || a == b)
    ensures Ordered(w, x, y, p, q)
  {
    GapOfParts(w, x, p, a, 0.0, y, q, b, 0.0);
    WeightedOrder(p, q, w.prio);
    assert (p - q) * w.prio == p * w.prio - q * w.prio;
  }

  /** Then scores are ordered as the priorities, or against them for a negative weight. */
  lemma PriorityOrder(f: Features, g: Group, h: Group)
    requires g in f.age && h in f.age && g != f.recent && h != f.recent
    requires f.weights.age == 0.0 || f.age[g] == f.age[h]
    ensures Ordered(f.weights, f.Score(g), f.Score(h), PriorityOf(f.prios, g), PriorityOf(f.prios, h))
  {
    var x, p, a := Parts(f, g);
    var y, q, b := Parts(f, h);
    SameFreshness(f, g, h);
    OrderOfParts(f.weights, x, p, a, y, q, b);
  }

  /** Score, priority and freshness of a group that is not the recent one. */
  lemma Parts(f: Features, g: Group) returns (x: real, p: real, a: real)
    requires g in f.age && g != f.recent
    ensures x == f.Score(g) && p == PriorityOf(f.prios, g) && a == Freshness(f, g)
    ensures HasParts(f.weights, x, p, a, 0.0)
  {
    x, p, a := f.Score(g), PriorityOf(f.prios, g), Freshness(f, g);
    PartsOfScore(f, g);
  }

  lemma SameFreshness(f: Features, g: Group, h: Group)
    requires g in f.age && h in f.age
    ensures f.age[g] == f.age[h] ==> Freshness(f, g) == Freshness(f, h)
  {
  }

  /** The last of the groups with the highest priority (`higher`), or the lowest (not `higher`). */
  ghost predicate LastByPriority(prios: map<Group, real>, groups: seq<Group>, k: nat, higher: bool) {
    && k < |groups|
    && (forall j :: 0 <= j < |groups| ==>
          if higher then PriorityOf(prios, groups[j]) <= PriorityOf(prios, groups[k])
          else PriorityOf(prios, groups[j]) >= PriorityOf(prios, groups[k]))
    && (forall j :: k < j < |groups| ==> PriorityOf(prios, groups[j]) != PriorityOf(prios, groups[k]))
  }

  lemma BestByPriorityOrder(score: Group -> real, prios: map<Group, real>, groups: seq<Group>, higher: bool)
    requires groups != []
    requires forall g, h :: g in groups && h in groups ==>
               (score(g) <= score(h) <==> if higher then PriorityOf(prios, g) <= PriorityOf(prios, h)
                                          else PriorityOf(prios, g) >= PriorityOf(prios, h))
    ensures exists k: nat :: LastByPriority(prios, groups, k, higher) && LastArgMax(score, groups) == Some(groups[k])
  {
    LastArgMaxIsLastMax(score, groups);
    var k: nat :| LastMax(score, groups, k) && LastArgMax(score, groups) == Some(groups[k]);
    assert LastByPriority(prios, groups, k, higher);
  }

  /** Then the best candidate is the last one of the highest, or of the lowest, priority. */
  lemma BestFollowsPriority(f: Features, groups: seq<Group>)
    requires groups != [] && (forall g :: g in groups ==> g in f.age) && f.recent !in groups
    requires SameAges(f, groups) && f.weights.prio != 0.0
    ensures exists k: nat :: LastByPriority(f.prios, groups, k, f.weights.prio > 0.0)
                             && f.Best(groups) == Some(groups[k])
  {
    forall g, h | g in groups && h in groups
      ensures f.Scorer()(g) <= f.Scorer()(h) <==>
                if f.weights.prio > 0.0 then PriorityOf(f.prios, g) <= PriorityOf(f.prios, h)
                else PriorityOf(f.prios, g) >= PriorityOf(f.prios, h)
    {
      PriorityOrder(f, g, h);
    }
    BestByPriorityOrder(f.Scorer(), f.prios, groups, f.weights.prio > 0.0);
  }

  // ---------------------------------------------------------------- selections in a run

  /** No two of the groups were last heard at different times, unless ages carry no weight. */
  ghost predicate HeardTogether(w: FeatureWeights, ats: map<Group, nat>, groups: seq<Group>) {
    w.age == 0.0
    || forall g, h :: g in groups && h in groups && g in ats && h in ats ==> ats[g] == ats[h]
  }

  lemma TogetherIsSameAges(f: Features, t: Times, groups: seq<Group>)
    requires Timed(f, t) && HeardTogether(f.weights, t.ats, groups) && forall g :: g in groups ==> g in f.age
    ensures SameAges(f, groups)
  {
    if f.weights.age != 0.0 {
      forall g, h | g in groups && h in groups ensures f.age[g] == f.age[h] {
        assert g in t.ats && h in t.ats;
      }
    }
  }

  lemma BestInRun(start: Features, f: Features, t: Times, groups: seq<Group>) returns (k: nat)
    requires Timed(f, t) && groups != [] && (forall g :: g in groups ==> g in f.age) && f.recent !in groups
    requires f.prios == start.prios && f.weights == start.weights && f.weights.prio != 0.0
    requires HeardTogether(start.weights, t.ats, groups)
    ensures LastByPriority(start.prios, groups, k, start.weights.prio > 0.0)
    ensures f.Best(groups) == Some(groups[k])
  {
    TogetherIsSameAges(f, t, groups);
    BestFollowsPriority(f, groups);
    k :| LastByPriority(f.prios, groups, k, f.weights.prio > 0.0) && f.Best(groups) == Some(groups[k]);
  }

  /**
   In every run, a selection among groups heard together, none of them the recent one, returns
   the offered group of the highest priority for a positive priority weight, and of the lowest
   for a negative one, ties going to the group that was first heard last.
   */
  lemma SelectionFollowsPriority(s: Selection, ops: seq<SelectionOp>, i: nat) returns (k: nat)
    requires Fresh(s) && i < |ops| && Selects(ops[i]) && s.feats.weights.prio != 0.0
    requires var log := LogAfter(s, ops, i);
             var groups := OfferedList(s, log.entries, ops[i]);
             groups != [] && log.recent !in groups && HeardTogether(s.feats.weights, TimesOf(log).ats, groups)
    ensures var groups, pick := OfferedList(s, LogAfter(s, ops, i).entries, ops[i]), PickAt(s, ops, i);
            && LastByPriority(s.feats.prios, groups, k, s.feats.weights.prio > 0.0)
            && pick.Some? && pick.value.group == groups[k]
  {
    var log, u := LogAfter(s, ops, i), SelectionAfter(s, ops, i);
    var groups := OfferedList(s, log.entries, ops[i]);
    SelectionInRun(s, ops, i, log, u);
    k := BestInRun(s.feats, u.feats, TimesOf(log), groups);
    OutcomeIsBest(u, ops[i], groups[k]);
  }
}
