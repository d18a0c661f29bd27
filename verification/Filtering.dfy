/** Which groups become candidates: those listened to and not known to be encrypted. */
module Filtering {
  import opened P25
  import opened Talkgroups
  import opened TalkgroupLog
  import opened Encryption
  import opened Receiver
  import opened History
  import opened Calls
  import opened Collecting
  import opened Provenance

  /** The group is not on an exclusion list, or is on an inclusion list. */
  predicate Listened(filter: Filter, g: Group) {
    filter.exclude <==> g !in filter.filt
  }

  /** A group that is neither a candidate nor encrypted becomes a candidate iff it is listened to. */
  lemma AddedIffListened(s: Selection, g: Group, freq: Freq)
    requires s.Valid() && g !in s.channels && g !in s.encrypted
    ensures g in s.Next(AddTalkgroup(g, freq)).channels <==> Listened(s.filter, g)
  {
  }

  /** By default every group is listened to. */
  lemma DefaultListens(g: Group)
    ensures Listened(Filter(true, {}), g)
  {
  }

  // ---------------------------------------------------------------- runs of calls

  /** The state was not cleared after call `j` and before call `i`. */
  predicate NotForgotten(ops: seq<SelectionOp>, j: nat, i: nat)
    requires i <= |ops|
  {
    forall k :: j < k < i ==> !ops[k].ClearState?
  }

  predicate Records(op: SelectionOp, g: Group) {
    op.RecordEncrypted? && op.group == g
  }

  /** Before call `i` the group was recorded as encrypted, and the state not cleared since. */
  ghost predicate KnownEncrypted(ops: seq<SelectionOp>, i: nat, g: Group)
    requires i <= |ops|
  {
    exists j: nat :: j < i && Records(ops[j], g) && NotForgotten(ops, j, i)
  }

  lemma KnownNext(ops: seq<SelectionOp>, i: nat, g: Group)
    requires i < |ops|
    ensures KnownEncrypted(ops, i + 1, g) <==>
              Records(ops[i], g) || (KnownEncrypted(ops, i, g) && !ops[i].ClearState?)
  {
    if KnownEncrypted(ops, i + 1, g) && !Records(ops[i], g) {
      var j: nat :| j < i + 1 && Records(ops[j], g) && NotForgotten(ops, j, i + 1);
      assert NotForgotten(ops, j, i);
    }
    if Records(ops[i], g) {
      assert NotForgotten(ops, i, i + 1);
    } else if KnownEncrypted(ops, i, g) && !ops[i].ClearState? {
      var j: nat :| j < i && Records(ops[j], g) && NotForgotten(ops, j, i);
      assert NotForgotten(ops, j, i + 1);
    }
  }

  lemma EncryptedNext(s: Selection, op: SelectionOp, g: Group)
    requires s.Valid()
    ensures g in s.Next(op).encrypted <==> Records(op, g) || (g in s.encrypted && !op.ClearState?)
  {
  }

  /** The recorded groups are those known to be encrypted. */
  lemma {:induction false} EncryptedIffKnown(s: Selection, ops: seq<SelectionOp>, n: nat, g: Group)
    requires Fresh(s) && n <= |ops|
    ensures g in SelectionAfter(s, ops, n).encrypted <==> KnownEncrypted(ops, n, g)
  {
    if n > 0 {
      EncryptedIffKnown(s, ops, n - 1, g);
      EncryptedNext(SelectionAfter(s, ops, n - 1), ops[n - 1], g);
      KnownNext(ops, n - 1, g);
    }
  }

  /** Call `i` brings a group that is listened to and not known to be encrypted. */
  ghost predicate HeardAt(s: Selection, ops: seq<SelectionOp>, i: nat, g: Group)
    requires i < |ops|
  {
    && ops[i].AddTalkgroup? && ops[i].group == g
    && Listened(s.filter, g) && !KnownEncrypted(ops, i, g)
  }

  /** The group was so heard before call `n`, and the candidates have not been cleared since. */
  ghost predicate StillHeard(s: Selection, ops: seq<SelectionOp>, n: nat, g: Group)
    requires s.Valid() && n <= |ops|
  {
    exists i: nat :: i < n && HeardAt(s, ops, i, g) && !ClearedIn(s, ops, i, n)
  }

  lemma StillHeardNext(s: Selection, ops: seq<SelectionOp>, n: nat, g: Group)
    requires s.Valid() && n < |ops|
    ensures StillHeard(s, ops, n + 1, g) <==>
              HeardAt(s, ops, n, g) || (StillHeard(s, ops, n, g) && !Clears(s, ops, n))
  {
    if StillHeard(s, ops, n + 1, g) && !HeardAt(s, ops, n, g) {
      var i: nat :| i < n + 1 && HeardAt(s, ops, i, g) && !ClearedIn(s, ops, i, n + 1);
      ClearedInNext(s, ops, i, n);
    }
    if HeardAt(s, ops, n, g) {
      assert !ClearedIn(s, ops, n, n + 1);
    } else if StillHeard(s, ops, n, g) && !Clears(s, ops, n) {
      var i: nat :| i < n && HeardAt(s, ops, i, g) && !ClearedIn(s, ops, i, n);
      ClearedInNext(s, ops, i, n);
    }
  }

  lemma CandidateNext(s: Selection, op: SelectionOp, g: Group)
    requires s.Valid()
    ensures g in s.Next(op).channels <==>
              || (op.AddTalkgroup? && op.group == g && Listened(s.filter, g) && g !in s.encrypted)
              || (g in s.channels && !op.ClearState? && s.Outcome(op).None?)
  {
  }

  lemma {:induction false} CandidateIffStillHeard(s: Selection, ops: seq<SelectionOp>, n: nat, g: Group)
    requires Fresh(s) && n <= |ops|
    ensures g in SelectionAfter(s, ops, n).channels <==> StillHeard(s, ops, n, g)
  {
    if n > 0 {
      CandidateIffStillHeard(s, ops, n - 1, g);
      CandidateStep(s, ops, n - 1, g);
      StillHeardNext(s, ops, n - 1, g);
    }
  }

  lemma CandidateStep(s: Selection, ops: seq<SelectionOp>, n: nat, g: Group)
    requires Fresh(s) && n < |ops|
    ensures g in SelectionAfter(s, ops, n + 1).channels <==>
              HeardAt(s, ops, n, g) || (g in SelectionAfter(s, ops, n).channels && !Clears(s, ops, n))
  {
    SettingsFixed(s, ops, n);
    EncryptedIffKnown(s, ops, n, g);
    CandidateNext(SelectionAfter(s, ops, n), ops[n], g);
  }

  /**
   After any run of calls a group is a candidate if and only if it was added, while listened to
   and not known to be encrypted, since the last successful selection or clearing of the state.
   */
  lemma CandidateIff(s: Selection, ops: seq<SelectionOp>, n: nat, g: Group)
    requires Fresh(s) && n <= |ops|
    ensures g in SelectionAfter(s, ops, n).cur <==> StillHeard(s, ops, n, g)
  {
    CandidateIffStillHeard(s, ops, n, g);
    CandidatesRefineLog(s, ops, n);
    RefinedIsComplete(SelectionAfter(s, ops, n), LogAfter(s, ops, n));
  }

  /** In every run of calls only groups that are listened to are selected. */
  lemma OnlyListenedAreSelected(s: Selection, ops: seq<SelectionOp>, i: nat)
    requires Fresh(s) && i < |ops| && PickAt(s, ops, i).Some?
    ensures Listened(s.filter, PickAt(s, ops, i).value.group)
    ensures StillHeard(s, ops, i, PickAt(s, ops, i).value.group)
  {
    CandidateIffStillHeard(s, ops, i, PickAt(s, ops, i).value.group);
  }

  // ---------------------------------------------------------------- running receivers

  /** The same for the candidates of a running receiver... */
  lemma ReceiverCandidateIff(c: Config, ms: seq<Stimulus>, n: nat, g: Group)
    requires n <= |ms|
    ensures var ops := SelectionCalls(Boot(c), ms, n);
            g in After(Boot(c), ms, n).talkgroups.cur <==> StillHeard(Boot(c).talkgroups, ops, |ops|, g)
  {
    var ops := SelectionCalls(Boot(c), ms, n);
    BootSelection(c);
    SelectionReplays(Boot(c), ms, n);
    CandidateIff(Boot(c).talkgroups, ops, |ops|, g);
  }

  lemma BootFilter(c: Config)
    ensures Boot(c).talkgroups.filter == c.filter
  {
    assert Boot(c).talkgroups == NewSelection(c.bits, c.preempt, c.filter, c.prios, c.weights);
  }

  lemma HeardIsListened(s: Selection, ops: seq<SelectionOp>, n: nat, g: Group)
    requires s.Valid() && n <= |ops| && StillHeard(s, ops, n, g)
    ensures Listened(s.filter, g)
  {
  }

  /** ...which therefore only ever selects groups that are listened to. */
  lemma ReceiverFollowsListened(c: Config, ms: seq<Stimulus>, n: nat)
    requires n < |ms| && PickBy(After(Boot(c), ms, n), ms[n]).Some?
    ensures Listened(c.filter, PickBy(After(Boot(c), ms, n), ms[n]).value.group)
  {
    var r := After(Boot(c), ms, n);
    var ops := SelectionCalls(Boot(c), ms, n);
    var g := PickBy(r, ms[n]).value.group;
    PickIsCandidate(r, ms[n]);
    BootSelection(c);
    BootFilter(c);
    SelectionReplays(Boot(c), ms, n);
    CandidateIffStillHeard(Boot(c).talkgroups, ops, |ops|, g);
    HeardIsListened(Boot(c).talkgroups, ops, |ops|, g);
  }
}
