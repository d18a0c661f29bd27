/**
 The candidate state is a function of a simple log: the accepted talkgroups since the
 last selection or site change, each with its frequency and an unwrapped time stamp.
 */
module TalkgroupLog {
  import opened P25
  import opened Words
  import opened Talkgroups

  datatype Entry = Entry(group: Group, freq: Freq, at: nat)

  datatype Log = Log(
    entries: seq<Entry>, clock: nat, encrypted: map<Group, CryptoAlgorithm>, recent: Group)
  {
    /** The log after a call that returned `pick`. */
    function Next(op: SelectionOp, pick: Option<Pick>, filter: Filter): Log {
      match op
      case RecordElapsed(n) => this.(clock := clock + n)
      case AddTalkgroup(tg, freq) =>
        if tg in encrypted || filter.Excluded(tg) then this
        else this.(entries := entries + [Entry(tg, freq, clock)])
      case SelectIdle => AfterPick(pick)
      case SelectPreempt => AfterPick(pick)
      case RecordEncrypted(tg, alg) => this.(encrypted := encrypted[tg := alg])
      case ClearState => Log([], 0, map[], 0)
    }

    function AfterPick(pick: Option<Pick>): Log {
      if pick.None? then this else this.(entries := [], clock := 0, recent := pick.value.group)
    }
  }

  /** The log after the first `n` calls. */
  ghost function LogAfter(s: Selection, ops: seq<SelectionOp>, n: nat): Log
    requires s.Valid() && n <= |ops|
  {
    if n == 0 then Log([], 0, map[], 0)
    else LogAfter(s, ops, n - 1).Next(ops[n - 1], PickAt(s, ops, n - 1), s.filter)
  }

  // ---------------------------------------------------------------- reading the log

  ghost function Heard(entries: seq<Entry>): set<Group> {
    set e | e in entries :: e.group
  }

  /** The last entry for a group. */
  ghost function Latest(entries: seq<Entry>, g: Group): (e: Entry)
    requires g in Heard(entries)
    ensures exists k :: 0 <= k < |entries| && entries[k] == e
                        && forall j :: k < j < |entries| ==> entries[j].group != g
    ensures e.group == g
  {
    var n := |entries| - 1;
    if entries[n].group == g then
      assert entries[n] == entries[n];
      entries[n]
    else
      assert entries == entries[..n] + [entries[n]];
      Latest(entries[..n], g)
  }

  /** Position of the first entry for a group. */
  ghost function FirstIndex(entries: seq<Entry>, g: Group): (k: nat)
    requires g in Heard(entries)
    ensures k < |entries| && entries[k].group == g
    ensures forall j :: 0 <= j < k ==> entries[j].group != g
  {
    var n := |entries| - 1;
    assert entries == entries[..n] + [entries[n]];
    if g in Heard(entries[..n]) then FirstIndex(entries[..n], g)
    else
      assert forall j :: 0 <= j < n ==> entries[j] in entries[..n];
      n
  }

  /** The logged groups, each once, in the order they were first heard. */
  ghost function FirstHeard(entries: seq<Entry>): (groups: seq<Group>)
    ensures forall g :: g in groups <==> g in Heard(entries)
    ensures forall i, j :: 0 <= i < j < |groups| ==>
              FirstIndex(entries, groups[i]) < FirstIndex(entries, groups[j])
  {
    if entries == [] then []
    else
      var n := |entries| - 1;
      var e := entries[n];
      assert entries == entries[..n] + [e];
      var groups := FirstHeard(entries[..n]);
      assert forall g :: g in groups ==> FirstIndex(entries, g) == FirstIndex(entries[..n], g);
      if e.group in groups then groups else groups + [e.group]
  }

  /** The elements of `groups` that are in `keep`, in order. */
  ghost function Filtered(groups: seq<Group>, keep: set<Group>): seq<Group> {
    if groups == [] then []
    else
      var n := |groups| - 1;
      Filtered(groups[..n], keep) + if groups[n] in keep then [groups[n]] else []
  }

  ghost function Freqs(entries: seq<Entry>): map<Group, Freq> {
    map g | g in Heard(entries) :: Latest(entries, g).freq
  }

  ghost function Ats(entries: seq<Entry>): map<Group, nat> {
    map g | g in Heard(entries) :: Latest(entries, g).at
  }

  ghost function Wrapped(ats: map<Group, nat>, m: nat): map<Group, nat>
    requires m > 0
  {
    map g | g in ats :: Residue(ats[g], m)
  }

  /** The candidate lists are the logged groups in first-heard order. */
  ghost predicate ListsRefine(s: Selection, log: Log) {
    && s.cur == FirstHeard(log.entries)
    && s.curPreempt == Filtered(FirstHeard(log.entries), s.preempt)
  }

  /** The maps and the clock hold the latest frequency and the wrapped times. */
  ghost predicate MapsRefine(s: Selection, log: Log) {
    && s.channels == Freqs(log.entries)
    && s.feats.age == Wrapped(Ats(log.entries), Pow2(s.feats.bits))
    && s.feats.elapsed == Residue(log.clock, Pow2(s.feats.bits))
    && s.encrypted == log.encrypted
    && s.feats.recent == log.recent
    && forall e :: e in log.entries ==> e.at <= log.clock
  }

  ghost predicate Refines(s: Selection, log: Log) {
    ListsRefine(s, log) && MapsRefine(s, log)
  }

  // ---------------------------------------------------------------- refinement

  lemma LatestSnoc(entries: seq<Entry>, e: Entry, g: Group)
    requires g in Heard(entries + [e])
    ensures g != e.group ==> g in Heard(entries)
    ensures Latest(entries + [e], g) == if g == e.group then e else Latest(entries, g)
  {
    assert (entries + [e])[..|entries|] == entries;
  }

  lemma HeardSnoc(entries: seq<Entry>, e: Entry)
    ensures Heard(entries + [e]) == Heard(entries) + {e.group}
  {
    assert e in entries + [e];
    assert forall f :: f in entries ==> f in entries + [e];
  }

  lemma FreqsSnoc(entries: seq<Entry>, e: Entry)
    ensures Freqs(entries + [e]) == Freqs(entries)[e.group := e.freq]
  {
    HeardSnoc(entries, e);
    forall g | g in Heard(entries + [e]) {
      LatestSnoc(entries, e, g);
    }
  }

  lemma AtsSnoc(entries: seq<Entry>, e: Entry)
    ensures Ats(entries + [e]) == Ats(entries)[e.group := e.at]
  {
    HeardSnoc(entries, e);
    forall g | g in Heard(entries + [e]) {
      LatestSnoc(entries, e, g);
    }
  }

  lemma WrappedUpdate(ats: map<Group, nat>, m: nat, g: Group, at: nat)
    requires m > 0
    ensures Wrapped(ats[g := at], m) == Wrapped(ats, m)[g := Residue(at, m)]
  {
  }

  lemma FirstHeardSnoc(entries: seq<Entry>, e: Entry)
    ensures FirstHeard(entries + [e])
         == if e.group in Heard(entries) then FirstHeard(entries) else FirstHeard(entries) + [e.group]
  {
    assert (entries + [e])[..|entries|] == entries;
  }

  lemma FilteredSnoc(groups: seq<Group>, g: Group, keep: set<Group>)
    ensures Filtered(groups + [g], keep) == Filtered(groups, keep) + if g in keep then [g] else []
  {
    assert (groups + [g])[..|groups|] == groups;
  }

  lemma AddMaps(s: Selection, log: Log, tg: Group, freq: Freq)
    requires MapsRefine(s, log) && s.Accepts(tg)
    ensures MapsRefine(s.Add(tg, freq), log.(entries := log.entries + [Entry(tg, freq, log.clock)]))
  {
    var e := Entry(tg, freq, log.clock);
    var t := s.Add(tg, freq);
    var m := Pow2(s.feats.bits);
    assert t.channels == s.channels[tg := freq] && t.feats == s.feats.(age := s.feats.age[tg := s.feats.elapsed]);
    assert t.channels == Freqs(log.entries + [e]) by {
      FreqsSnoc(log.entries, e);
    }
    assert t.feats.age == Wrapped(Ats(log.entries + [e]), m) by {
      AtsSnoc(log.entries, e);
      WrappedUpdate(Ats(log.entries), m, tg, log.clock);
    }
  }

  lemma AddRefines(s: Selection, log: Log, tg: Group, freq: Freq)
    requires Refines(s, log) && s.Accepts(tg)
    ensures Refines(s.Add(tg, freq), log.(entries := log.entries + [Entry(tg, freq, log.clock)]))
  {
    AddMaps(s, log, tg, freq);
    FirstHeardSnoc(log.entries, Entry(tg, freq, log.clock));
    FilteredSnoc(s.cur, tg, s.preempt);
  }

  lemma EmptyLogRefines(s: Selection, log: Log)
    requires s.cur == [] && s.curPreempt == [] && s.channels == map[] && s.feats.age == map[]
    requires log.entries == [] && log.clock == 0 && s.feats.elapsed == 0
    requires s.encrypted == log.encrypted && s.feats.recent == log.recent
    ensures Refines(s, log)
  {
    assert Heard([]) == {};
  }

  lemma ClockRefines(s: Selection, log: Log, n: nat)
    requires s.Valid() && Refines(s, log)
    ensures Refines(s.Next(RecordElapsed(n)), log.(clock := log.clock + n))
  {
    ResidueOnce(log.clock, n, Pow2(s.feats.bits));
  }

  lemma StepRefines(s: Selection, log: Log, op: SelectionOp)
    requires s.Valid() && Refines(s, log)
    ensures Refines(s.Next(op), log.Next(op, s.Outcome(op), s.filter))
  {
    match op
    case RecordElapsed(n) => ClockRefines(s, log, n);
    case AddTalkgroup(tg, freq) => if s.Accepts(tg) { AddRefines(s, log, tg, freq); }
    case SelectIdle => AfterPickRefines(s, log, s.Outcome(op));
    case SelectPreempt => AfterPickRefines(s, log, s.Outcome(op));
    case RecordEncrypted(tg, alg) => 
    case ClearState => EmptyLogRefines(s.Next(op), log.Next(op, None, s.filter));
  }

  lemma AfterPickRefines(s: Selection, log: Log, pick: Option<Pick>)
    requires s.Valid() && Refines(s, log)
    ensures Refines(s.Settle(pick), log.AfterPick(pick))
  {
    if pick.Some? {
      EmptyLogRefines(s.Settle(pick), log.AfterPick(pick));
    }
  }

  /** A selection with nothing collected yet. */
  ghost predicate Fresh(s: Selection) {
    s == NewSelection(s.feats.bits, s.preempt, s.filter, s.feats.prios, s.feats.weights)
  }

  /** After any run of calls the candidates are exactly what the log says. */
  lemma {:induction false} CandidatesRefineLog(s: Selection, ops: seq<SelectionOp>, n: nat)
    requires Fresh(s) && n <= |ops|
    ensures Refines(SelectionAfter(s, ops, n), LogAfter(s, ops, n))
  {
    if n == 0 {
      EmptyLogRefines(s, LogAfter(s, ops, n));
    } else {
      CandidatesRefineLog(s, ops, n - 1);
      var t, log := SelectionAfter(s, ops, n - 1), LogAfter(s, ops, n - 1);
      assert t.filter == s.filter by {
        SettingsFixed(s, ops, n - 1);
      }
      StepRefines(t, log, ops[n - 1]);
      assert SelectionAfter(s, ops, n) == t.Next(ops[n - 1]);
      assert LogAfter(s, ops, n) == log.Next(ops[n - 1], t.Outcome(ops[n - 1]), t.filter);
    }
  }

  lemma FilteredMembers(groups: seq<Group>, keep: set<Group>)
    ensures forall g :: g in Filtered(groups, keep) <==> g in groups && g in keep
  {
    if groups != [] {
      var n := |groups| - 1;
      assert groups == groups[..n] + [groups[n]];
      FilteredMembers(groups[..n], keep);
    }
  }

  lemma ListsOffered(s: Selection, log: Log)
    requires ListsRefine(s, log)
    ensures forall g :: g in s.cur <==> g in Heard(log.entries)
    ensures forall g :: g in s.curPreempt <==> g in Heard(log.entries) * s.preempt
  {
    FilteredMembers(s.cur, s.preempt);
  }

  /** The groups among which a selection chooses. */
  ghost function Offered(s: Selection, entries: seq<Entry>, op: SelectionOp): set<Group> {
    if op.SelectIdle? then Heard(entries) else Heard(entries) * s.preempt
  }

  function ListFor(s: Selection, op: SelectionOp): seq<Group> {
    if op.SelectIdle? then s.cur else s.curPreempt
  }

  lemma OutcomeFromList(s: Selection, op: SelectionOp)
    requires s.Valid() && (op.SelectIdle? || op.SelectPreempt?)
    ensures var pick := s.Outcome(op);
            && (pick.None? <==> ListFor(s, op) == [])
            && (pick.Some? ==> && pick.value.group in ListFor(s, op)
                               && pick.value.group in s.channels
                               && pick.value.freq == s.channels[pick.value.group])
  {
  }

  lemma ListIsOffered(s: Selection, log: Log, op: SelectionOp)
    requires ListsRefine(s, log)
    ensures forall g :: g in ListFor(s, op) <==> g in Offered(s, log.entries, op)
    ensures ListFor(s, op) == [] <==> Offered(s, log.entries, op) == {}
  {
    ListsOffered(s, log);
    var groups := ListFor(s, op);
    assert forall g :: g in groups <==> g in Offered(s, log.entries, op);
    if groups != [] {
      assert groups[0] in groups;
    }
  }

  lemma OutcomeReturnsLatest(s: Selection, log: Log, op: SelectionOp)
    requires s.Valid() && Refines(s, log) && (op.SelectIdle? || op.SelectPreempt?)
    ensures var pick := s.Outcome(op);
            && (pick.Some? <==> Offered(s, log.entries, op) != {})
            && (pick.Some? ==> && pick.value.group in Offered(s, log.entries, op)
                               && pick.value.group in Heard(log.entries)
                               && pick.value.freq == Latest(log.entries, pick.value.group).freq)
  {
    ListIsOffered(s, log, op);
    OutcomeFromList(s, op);
  }

  /** A selection succeeds iff the log has a group to offer, and tunes to its latest frequency. */
  lemma SelectionReturnsLatest(s: Selection, ops: seq<SelectionOp>, i: nat)
    requires Fresh(s) && i < |ops| && (ops[i].SelectIdle? || ops[i].SelectPreempt?)
    ensures var entries := LogAfter(s, ops, i).entries;
            var pick := PickAt(s, ops, i);
            && (pick.Some? <==> Offered(s, entries, ops[i]) != {})
            && (pick.Some? ==> && pick.value.group in Offered(s, entries, ops[i])
                               && pick.value.freq == Latest(entries, pick.value.group).freq)
  {
    CandidatesRefineLog(s, ops, i);
    SettingsFixed(s, ops, i);
    OutcomeReturnsLatest(SelectionAfter(s, ops, i), LogAfter(s, ops, i), ops[i]);
  }
}
