/**
 The receiver drives its policy and its talkgroup selection only through their calls, so
 whatever holds of every run of calls holds of them inside every run of the receiver.
 */
module Calls {
  import opened P25
  import opened Policy
  import opened Talkgroups
  import opened TalkgroupLog
  import opened Scoring
  import opened Encryption
  import opened Receiver
  import opened History

  // ---------------------------------------------------------------- selection

  function Calls(parts: seq<Option<SelectionOp>>, n: nat): seq<SelectionOp>
    requires n <= |parts|
  {
    if n == 0 then [] else Calls(parts, n - 1) + if parts[n - 1].Some? then [parts[n - 1].value] else []
  }

  /** The calls that the first `n` stimuli of a run make on the selection. */
  ghost function SelectionCalls(r: Recv, ms: seq<Stimulus>, n: nat): seq<SelectionOp>
    requires r.Valid() && n <= |ms|
  {
    Calls(seq(n, i requires 0 <= i < n => SelectionCall(After(r, ms, i), ms[i])), n)
  }

  lemma {:induction false} SelectionPrefix(s: Selection, a: seq<SelectionOp>, b: seq<SelectionOp>, n: nat)
    requires s.Valid() && n <= |a|
    ensures SelectionAfter(s, a + b, n) == SelectionAfter(s, a, n)
  {
    if n > 0 {
      SelectionPrefix(s, a, b, n - 1);
    }
  }

  /** A call, if any, takes one selection to the other. */
  ghost predicate Called(s: Selection, call: Option<SelectionOp>, t: Selection) {
    s.Valid() && t == if call.Some? then s.Next(call.value) else s
  }

  lemma SelectionJoin(s: Selection, ops: seq<SelectionOp>, call: Option<SelectionOp>, t: Selection)
    requires s.Valid() && Called(SelectionAfter(s, ops, |ops|), call, t)
    ensures var more := ops + if call.Some? then [call.value] else [];
            SelectionAfter(s, more, |more|) == t
  {
    if call.Some? {
      SelectionPrefix(s, ops, [call.value], |ops|);
    } else {
      assert ops + [] == ops;
    }
  }

  lemma {:induction false} CallsReplay(ss: seq<Selection>, parts: seq<Option<SelectionOp>>, n: nat)
    requires n <= |parts| < |ss| && ss[0].Valid()
    requires forall i {:trigger Called(ss[i], parts[i], ss[i + 1])} ::
               0 <= i < n ==> Called(ss[i], parts[i], ss[i + 1])
    ensures SelectionAfter(ss[0], Calls(parts, n), |Calls(parts, n)|) == ss[n]
  {
    if n > 0 {
      var i := n - 1;
      CallsReplay(ss, parts, i);
      assert Called(ss[i], parts[i], ss[i + 1]);
      SelectionJoin(ss[0], Calls(parts, i), parts[i], ss[i + 1]);
    }
  }

  lemma CalledStep(r: Recv, ms: seq<Stimulus>, i: nat)
    requires r.Valid() && i < |ms|
    ensures Called(After(r, ms, i).talkgroups, SelectionCall(After(r, ms, i), ms[i]),
                   After(r, ms, i + 1).talkgroups)
  {
    SelectionStep(After(r, ms, i), ms[i]);
  }

  /** `ss` and `parts` are the selection between the stimuli of a run, and their calls on it. */
  ghost predicate SelectionAlong(r: Recv, ms: seq<Stimulus>, n: nat, ss: seq<Selection>, parts: seq<Option<SelectionOp>>)
    requires r.Valid() && n <= |ms|
  {
    && |ss| == n + 1 && |parts| == n
    && (forall i :: 0 <= i <= n ==> ss[i] == After(r, ms, i).talkgroups)
    && (forall i :: 0 <= i < n ==> parts[i] == SelectionCall(After(r, ms, i), ms[i]))
  }

  lemma CalledAlong(r: Recv, ms: seq<Stimulus>, n: nat, ss: seq<Selection>, parts: seq<Option<SelectionOp>>, i: nat)
    requires r.Valid() && i < n <= |ms| && SelectionAlong(r, ms, n, ss, parts)
    ensures Called(ss[i], parts[i], ss[i + 1])
  {
    CalledStep(r, ms, i);
  }

  lemma AlongReplays(r: Recv, ms: seq<Stimulus>, n: nat, ss: seq<Selection>, parts: seq<Option<SelectionOp>>)
    requires r.Valid() && n <= |ms| && SelectionAlong(r, ms, n, ss, parts)
    ensures SelectionAfter(r.talkgroups, Calls(parts, n), |Calls(parts, n)|) == ss[n]
  {
    assert ss[0] == After(r, ms, 0).talkgroups;
    forall i | 0 <= i < n ensures Called(ss[i], parts[i], ss[i + 1]) {
      CalledAlong(r, ms, n, ss, parts, i);
    }
    CallsReplay(ss, parts, n);
  }

  /** The receiver's selection is the result of its calls. */
  lemma SelectionReplays(r: Recv, ms: seq<Stimulus>, n: nat)
    requires r.Valid() && n <= |ms|
    ensures var ops := SelectionCalls(r, ms, n);
            After(r, ms, n).talkgroups == SelectionAfter(r.talkgroups, ops, |ops|)
  {
    var ss := seq(n + 1, i requires 0 <= i <= n => After(r, ms, i).talkgroups);
    var parts := seq(n, i requires 0 <= i < n => SelectionCall(After(r, ms, i), ms[i]));
    AlongReplays(r, ms, n, ss, parts);
  }

  lemma BootSelection(c: Config)
    ensures Fresh(Boot(c).talkgroups) && Boot(c).talkgroups.feats.bits == c.bits
  {
    assert Boot(c).talkgroups == NewSelection(c.bits, c.preempt, c.filter, c.prios, c.weights);
  }

  /** Inside a running receiver the candidates are what the log of its calls says. */
  lemma ReceiverRefinesLog(c: Config, ms: seq<Stimulus>, n: nat)
    requires n <= |ms|
    ensures var s := Boot(c).talkgroups;
            var ops := SelectionCalls(Boot(c), ms, n);
            && Refines(After(Boot(c), ms, n).talkgroups, LogAfter(s, ops, |ops|))
            && Timed(After(Boot(c), ms, n).talkgroups.feats, TimesOf(LogAfter(s, ops, |ops|)))
  {
    var ops := SelectionCalls(Boot(c), ms, n);
    BootSelection(c);
    SelectionReplays(Boot(c), ms, n);
    CandidatesRefineLog(Boot(c).talkgroups, ops, |ops|);
    FeaturesAreTimed(Boot(c).talkgroups, ops, |ops|);
  }

  /** Inside a running receiver no candidate is encrypted iff every spoiling call was made good. */
  lemma ReceiverCleanIff(c: Config, ms: seq<Stimulus>, n: nat)
    requires n <= |ms|
    ensures var ops := SelectionCalls(Boot(c), ms, n);
            NoCandidateEncrypted(After(Boot(c), ms, n).talkgroups) <==> MadeGood(Boot(c).talkgroups, ops, |ops|)
  {
    var ops := SelectionCalls(Boot(c), ms, n);
    BootSelection(c);
    SelectionReplays(Boot(c), ms, n);
    CleanIffMadeGood(Boot(c).talkgroups, ops, |ops|);
  }

  // ---------------------------------------------------------------- policy

  /** The calls a stimulus makes on the policy. */
  ghost function PolicyCall(r: Recv, m: Stimulus): seq<PolicyOp>
    requires r.Valid()
  {
    match m
    case Tick(n) =>
      [Elapsed(n)] + if r.policy.React(Elapsed(n)).event == Some(ReturnControl) then [EnterControl]
                     else if Follows(r, m) then [EnterTraffic] else []
    case NidSeen(u) => [Nid(u)]
    case TermSeen => [CallTerm] + if r.OnControl() then [] else [EnterControl]
    case CryptoSeen(_) => [EnterControl]
    case PreemptCheck => if Follows(r, m) then [EnterTraffic] else []
    case Retune(_) => [EnterControl]
    case _ => []
  }

  function Joined(parts: seq<seq<PolicyOp>>, n: nat): seq<PolicyOp>
    requires n <= |parts|
  {
    if n == 0 then [] else Joined(parts, n - 1) + parts[n - 1]
  }

  /** The calls that the first `n` stimuli of a run make on the policy. */
  ghost function PolicyCalls(r: Recv, ms: seq<Stimulus>, n: nat): seq<PolicyOp>
    requires r.Valid() && n <= |ms|
  {
    Joined(seq(n, i requires 0 <= i < n => PolicyCall(After(r, ms, i), ms[i])), n)
  }

  lemma {:induction false} PolicyPrefix(p: PolicyState, a: seq<PolicyOp>, b: seq<PolicyOp>, n: nat)
    requires n <= |a|
    ensures PolicyAfter(p, a + b, n) == PolicyAfter(p, a, n)
  {
    if n > 0 {
      PolicyPrefix(p, a, b, n - 1);
    }
  }

  lemma {:induction false} PolicyConcat(p: PolicyState, a: seq<PolicyOp>, b: seq<PolicyOp>, n: nat)
    requires n <= |b|
    ensures PolicyAfter(p, a + b, |a| + n) == PolicyAfter(PolicyAfter(p, a, |a|), b, n)
  {
    if n == 0 {
      PolicyPrefix(p, a, b, |a|);
    } else {
      PolicyConcat(p, a, b, n - 1);
    }
  }

  /** One or two calls take the policy where the stimulus does. */
  lemma PolicyCallStep(r: Recv, m: Stimulus)
    requires r.Valid()
    ensures PolicyAfter(r.policy, PolicyCall(r, m), |PolicyCall(r, m)|)
         == PolicyNext(r.policy, m, Follows(r, m))
  {
    var ops := PolicyCall(r, m);
    assert PolicyAfter(r.policy, ops, 0) == r.policy;
    if |ops| > 0 {
      assert PolicyAfter(r.policy, ops, 1) == r.policy.React(ops[0]).policy;
    }
  }

  lemma PolicyJoin(p: PolicyState, a: seq<PolicyOp>, b: seq<PolicyOp>, q: PolicyState, next: PolicyState)
    requires Driven(p, a, q) && Driven(q, b, next)
    ensures Driven(p, a + b, next)
  {
    PolicyConcat(p, a, b, |b|);
  }

  /** The calls take one policy to the other. */
  ghost predicate Driven(p: PolicyState, calls: seq<PolicyOp>, q: PolicyState) {
    q == PolicyAfter(p, calls, |calls|)
  }

  lemma {:induction false} JoinedReplay(ps: seq<PolicyState>, parts: seq<seq<PolicyOp>>, n: nat)
    requires n <= |parts| < |ps|
    requires forall i {:trigger Driven(ps[i], parts[i], ps[i + 1])} ::
               0 <= i < n ==> Driven(ps[i], parts[i], ps[i + 1])
    ensures Driven(ps[0], Joined(parts, n), ps[n])
  {
    if n > 0 {
      var i := n - 1;
      JoinedReplay(ps, parts, i);
      assert Driven(ps[i], parts[i], ps[i + 1]);
      PolicyJoin(ps[0], Joined(parts, i), parts[i], ps[i], ps[i + 1]);
    }
  }

  lemma DrivenStep(r: Recv, ms: seq<Stimulus>, i: nat)
    requires r.Valid() && i < |ms|
    ensures Driven(After(r, ms, i).policy, PolicyCall(After(r, ms, i), ms[i]), After(r, ms, i + 1).policy)
  {
    PolicyStep(After(r, ms, i), ms[i]);
    PolicyCallStep(After(r, ms, i), ms[i]);
  }

  /** `ps` and `parts` are the policy between the stimuli of a run, and their calls on it. */
  ghost predicate PolicyAlong(r: Recv, ms: seq<Stimulus>, n: nat, ps: seq<PolicyState>, parts: seq<seq<PolicyOp>>)
    requires r.Valid() && n <= |ms|
  {
    && |ps| == n + 1 && |parts| == n
    && (forall i :: 0 <= i <= n ==> ps[i] == After(r, ms, i).policy)
    && (forall i :: 0 <= i < n ==> parts[i] == PolicyCall(After(r, ms, i), ms[i]))
  }

  lemma DrivenAlong(r: Recv, ms: seq<Stimulus>, n: nat, ps: seq<PolicyState>, parts: seq<seq<PolicyOp>>, i: nat)
    requires r.Valid() && i < n <= |ms| && PolicyAlong(r, ms, n, ps, parts)
    ensures Driven(ps[i], parts[i], ps[i + 1])
  {
    DrivenStep(r, ms, i);
  }

  lemma DrivenReplays(r: Recv, ms: seq<Stimulus>, n: nat, ps: seq<PolicyState>, parts: seq<seq<PolicyOp>>)
    requires r.Valid() && n <= |ms| && PolicyAlong(r, ms, n, ps, parts)
    ensures Driven(r.policy, Joined(parts, n), ps[n])
  {
    assert ps[0] == After(r, ms, 0).policy;
    forall i | 0 <= i < n ensures Driven(ps[i], parts[i], ps[i + 1]) {
      DrivenAlong(r, ms, n, ps, parts, i);
    }
    JoinedReplay(ps, parts, n);
  }

  /** The receiver's policy is the result of its calls. */
  lemma PolicyReplays(r: Recv, ms: seq<Stimulus>, n: nat)
    requires r.Valid() && n <= |ms|
    ensures var ops := PolicyCalls(r, ms, n);
            After(r, ms, n).policy == PolicyAfter(r.policy, ops, |ops|)
  {
    var ps := seq(n + 1, i requires 0 <= i <= n => After(r, ms, i).policy);
    var parts := seq(n, i requires 0 <= i < n => PolicyCall(After(r, ms, i), ms[i]));
    DrivenReplays(r, ms, n, ps, parts);
  }
}
