/** What recording a talkgroup as encrypted does to later selections. */
module Encryption {
  import opened P25
  import opened Talkgroups

  /** The group is known to be encrypted and is no candidate. */
  ghost predicate Barred(s: Selection, tg: Group) {
    tg in s.encrypted && tg !in s.cur
  }

  lemma BarredStep(s: Selection, tg: Group, op: SelectionOp)
    requires s.Valid() && Barred(s, tg) && !op.ClearState?
    ensures Barred(s.Next(op), tg)
  {
  }

  /** A successful selection leaves no candidate behind. */
  lemma PickBars(s: Selection, tg: Group, op: SelectionOp)
    requires s.Valid() && tg in s.encrypted && s.Outcome(op).Some?
    ensures Barred(s.Next(op), tg)
  {
  }

  lemma BarredIsNotPicked(s: Selection, tg: Group, op: SelectionOp)
    requires s.Valid() && Barred(s, tg)
    ensures s.Outcome(op).Some? ==> s.Outcome(op).value.group != tg
  {
  }

  /** A group barred after `j` calls is still barred after `i` of them. */
  lemma {:induction false} BarredBetween(s: Selection, tg: Group, ops: seq<SelectionOp>, j: nat, i: nat)
    requires s.Valid() && j <= i <= |ops| && SelectionOp.ClearState !in ops
    requires Barred(SelectionAfter(s, ops, j), tg)
    ensures Barred(SelectionAfter(s, ops, i), tg)
  {
    if i > j {
      BarredBetween(s, tg, ops, j, i - 1);
      assert ops[i - 1] in ops;
      BarredStep(SelectionAfter(s, ops, i - 1), tg, ops[i - 1]);
    }
  }

  lemma {:induction false} EncryptedStays(s: Selection, tg: Group, ops: seq<SelectionOp>, n: nat)
    requires s.Valid() && tg in s.encrypted && n <= |ops| && SelectionOp.ClearState !in ops
    ensures tg in SelectionAfter(s, ops, n).encrypted
  {
    if n == 0 {
    } else {
      assert ops[n - 1] in ops;
      EncryptedStays(s, tg, ops, n - 1);
    }
  }

  /** After a successful selection, no later one returns a group known to be encrypted. */
  lemma NeverAfterPick(s: Selection, tg: Group, ops: seq<SelectionOp>, j: nat, i: nat)
    requires s.Valid() && tg in s.encrypted && j < i < |ops| && SelectionOp.ClearState !in ops
    requires PickAt(s, ops, j).Some?
    ensures PickAt(s, ops, i).Some? ==> PickAt(s, ops, i).value.group != tg
  {
    EncryptedStays(s, tg, ops, j);
    PickBars(SelectionAfter(s, ops, j), tg, ops[j]);
    BarredBetween(s, tg, ops, j + 1, i);
    BarredIsNotPicked(SelectionAfter(s, ops, i), tg, ops[i]);
  }

  /**
   Once recorded as encrypted, and until the state is cleared, a group can be returned only
   by the very next successful selection, and only if it was a candidate when recorded.
   */
  lemma EncryptedGroupsDieOut(s: Selection, tg: Group, alg: CryptoAlgorithm,
                              ops: seq<SelectionOp>, i: nat)
    requires s.Valid() && i < |ops| && SelectionOp.ClearState !in ops
    ensures var t := s.Next(RecordEncrypted(tg, alg));
            var pick := PickAt(t, ops, i);
            pick.Some? && pick.value.group == tg ==>
              && tg in s.cur
              && (forall j: nat :: j < i ==> PickAt(t, ops, j).None?)
  {
    var t := s.Next(RecordEncrypted(tg, alg));
    if tg !in s.cur {
      BarredBetween(t, tg, ops, 0, i);
      BarredIsNotPicked(SelectionAfter(t, ops, i), tg, ops[i]);
    }
    forall j: nat | j < i && PickAt(t, ops, j).Some?
      ensures PickAt(t, ops, i).Some? ==> PickAt(t, ops, i).value.group != tg
    {
      NeverAfterPick(t, tg, ops, j, i);
    }
  }

  ghost predicate NoCandidateEncrypted(s: Selection) {
    forall g :: g in s.cur ==> g !in s.encrypted
  }

  /** Every other call keeps encrypted groups out of the candidates... */
  lemma OnlyRecordingSpoils(s: Selection, op: SelectionOp)
    requires s.Valid() && NoCandidateEncrypted(s) && !op.RecordEncrypted?
    ensures NoCandidateEncrypted(s.Next(op))
  {
  }

  /** ...and recording one does so exactly when the group is not a candidate at that moment. */
  lemma RecordingSpoilsIff(s: Selection, tg: Group, alg: CryptoAlgorithm)
    requires s.Valid() && NoCandidateEncrypted(s)
    ensures NoCandidateEncrypted(s.Next(RecordEncrypted(tg, alg))) <==> tg !in s.cur
  {
  }

  /** Call `i` records a group that is a candidate at that moment. */
  ghost predicate Spoils(s: Selection, ops: seq<SelectionOp>, i: nat)
    requires s.Valid() && i < |ops|
  {
    ops[i].RecordEncrypted? && ops[i].group in SelectionAfter(s, ops, i).cur
  }

  /** Call `j` leaves no candidates. */
  ghost predicate Clears(s: Selection, ops: seq<SelectionOp>, j: nat)
    requires s.Valid() && j < |ops|
  {
    ops[j].ClearState? || PickAt(s, ops, j).Some?
  }

  ghost predicate ClearedIn(s: Selection, ops: seq<SelectionOp>, i: nat, n: nat)
    requires s.Valid() && n <= |ops|
  {
    exists j: nat :: i < j < n && Clears(s, ops, j)
  }

  /** Among the first `n` calls, every one that spoils the candidates is later made good. */
  ghost predicate MadeGood(s: Selection, ops: seq<SelectionOp>, n: nat)
    requires s.Valid() && n <= |ops|
  {
    forall i: nat :: i < n && Spoils(s, ops, i) ==> ClearedIn(s, ops, i, n)
  }

  /** A call that leaves candidates keeps the encrypted ones among them, and may add one. */
  lemma EncryptedCandidates(s: Selection, op: SelectionOp)
    requires s.Valid()
    ensures var clears := op.ClearState? || s.Outcome(op).Some?;
            var spoils := op.RecordEncrypted? && op.group in s.cur;
            NoCandidateEncrypted(s.Next(op)) <==> clears || (NoCandidateEncrypted(s) && !spoils)
  {
    var t := s.Next(op);
    if op.ClearState? || s.Outcome(op).Some? {
      assert t.cur == [];
    } else if !NoCandidateEncrypted(s) {
      var g :| g in s.cur && g in s.encrypted;
      assert g in t.cur && g in t.encrypted;
    } else if op.RecordEncrypted? && op.group in s.cur {
      assert op.group in t.cur && op.group in t.encrypted;
    }
  }

  ghost predicate CleanAfter(s: Selection, ops: seq<SelectionOp>, n: nat)
    requires s.Valid() && n <= |ops|
  {
    NoCandidateEncrypted(SelectionAfter(s, ops, n))
  }

  lemma CleanNext(s: Selection, ops: seq<SelectionOp>, n: nat)
    requires s.Valid() && n < |ops|
    ensures CleanAfter(s, ops, n + 1) <==> Clears(s, ops, n) || (CleanAfter(s, ops, n) && !Spoils(s, ops, n))
  {
    EncryptedCandidates(SelectionAfter(s, ops, n), ops[n]);
  }

  lemma ClearedInNext(s: Selection, ops: seq<SelectionOp>, i: nat, n: nat)
    requires s.Valid() && i < n < |ops|
    ensures ClearedIn(s, ops, i, n + 1) <==> ClearedIn(s, ops, i, n) || Clears(s, ops, n)
  {
    if ClearedIn(s, ops, i, n + 1) && !Clears(s, ops, n) {
      var j: nat :| i < j < n + 1 && Clears(s, ops, j);
      assert j != n;
    }
  }

  lemma MadeGoodNext(s: Selection, ops: seq<SelectionOp>, n: nat)
    requires s.Valid() && n < |ops|
    ensures MadeGood(s, ops, n + 1) <==> Clears(s, ops, n) || (MadeGood(s, ops, n) && !Spoils(s, ops, n))
  {
    forall i: nat | i < n
      ensures ClearedIn(s, ops, i, n + 1) <==> ClearedIn(s, ops, i, n) || Clears(s, ops, n)
    {
      ClearedInNext(s, ops, i, n);
    }
  }

  lemma CleanStays(s: Selection, ops: seq<SelectionOp>, n: nat)
    requires s.Valid() && n < |ops| && (CleanAfter(s, ops, n) <==> MadeGood(s, ops, n))
    ensures CleanAfter(s, ops, n + 1) <==> MadeGood(s, ops, n + 1)
  {
    CleanNext(s, ops, n);
    MadeGoodNext(s, ops, n);
  }

  /**
   After any run of calls no candidate is encrypted if and only if every call that recorded a
   candidate was followed by a successful selection or by clearing the state.
   */
  lemma {:induction false} CleanIffMadeGood(s: Selection, ops: seq<SelectionOp>, n: nat)
    requires s.Valid() && NoCandidateEncrypted(s) && n <= |ops|
    ensures CleanAfter(s, ops, n) <==> MadeGood(s, ops, n)
  {
    if n > 0 {
      CleanIffMadeGood(s, ops, n - 1);
      CleanStays(s, ops, n - 1);
    }
  }

  /** A candidate that turns out to be encrypted is still selected once. */
  lemma EncryptedCandidateIsSelected(s: Selection, tg: Group, freq: Freq, alg: CryptoAlgorithm)
    requires s.Valid() && s.cur == [] && s.channels == map[] && s.Accepts(tg)
    ensures s.Next(AddTalkgroup(tg, freq)).Next(RecordEncrypted(tg, alg)).Outcome(SelectIdle)
         == Some(Pick(tg, freq))
  {
    var t := s.Next(AddTalkgroup(tg, freq));
    assert t.cur == [tg] && t.channels[tg] == freq;
    var u := t.Next(RecordEncrypted(tg, alg));
    assert u == t.(encrypted := t.encrypted[tg := alg]);
    assert u.feats.Best(u.cur) == Some(tg);
  }
}
