/** The receiver policy: when to leave and when to return to the control channel. */
module Policy {
  import opened P25
  import opened Words

  /** Action that the receiver should take. */
  datatype PolicyEvent = Resync | ReturnControl | ChooseTalkgroup

  /** Elapsed samples compared to a timeout. */
  datatype Timer = Timer(max: nat, cur: nat) {
    function Advance(bits: nat, samples: nat): Timer {
      this.(cur := WrapAdd(bits, cur, samples))
    }

    predicate Expired() {
      cur >= max
    }

    function Reset(): Timer {
      this.(cur := 0)
    }
  }

  datatype ReceiverState =
    | Control(t: Timer)
    | Traffic(t: Timer, init: bool)
    | Paused(t: Timer)

  /** A call on the policy. */
  datatype PolicyOp =
    | Elapsed(samples: nat)
    | Nid(dataUnit: DataUnit)
    | CallTerm
    | EnterTraffic
    | EnterControl

  datatype Reaction = Reaction(policy: PolicyState, event: Option<PolicyEvent>)

  /** Value of the policy's fields. */
  datatype PolicyState = PolicyState(
    bits: nat, state: ReceiverState, selectTime: nat, watchdogTime: nat, pauseTime: nat)
  {
    predicate OnControl() {
      state.Control?
    }

    function ControlState(): ReceiverState {
      Control(Timer(selectTime, 0))
    }

    function TrafficState(init: bool): ReceiverState {
      Traffic(Timer(watchdogTime, 0), init)
    }

    function HandleElapsed(samples: nat): Reaction {
      var t := state.t.Advance(bits, samples);
      match state
      case Control(_) =>
        if t.Expired() then Reaction(this.(state := Control(t.Reset())), Some(ChooseTalkgroup))
        else Reaction(this.(state := Control(t)), None)
      case Traffic(_, init) =>
        Reaction(this.(state := Traffic(t, init)), if t.Expired() then Some(ReturnControl) else None)
      case Paused(_) =>
        Reaction(this.(state := Paused(t)), if t.Expired() then Some(ReturnControl) else None)
    }

    function HandleNid(u: DataUnit): Reaction {
      match state
      case Control(_) => Reaction(this, None)
      case Traffic(t, init) =>
        if u.Voice() then
          Reaction(this.(state := if init then TrafficState(false) else Traffic(t.Reset(), false)), None)
        else if init then
          Reaction(this, if u.TrunkingSignaling? then Some(Resync) else None)
        else if u.Terminator() then
          Reaction(this.(state := Paused(Timer(pauseTime, 0))), None)
        else
          Reaction(this, None)
      case Paused(_) =>
        Reaction(if u.Voice() then this.(state := TrafficState(true)) else this, None)
    }

    function HandleCallTerm(): Reaction {
      Reaction(this, if OnControl() then None else Some(ReturnControl))
    }

    function React(op: PolicyOp): Reaction {
      match op
      case Elapsed(n) => HandleElapsed(n)
      case Nid(u) => HandleNid(u)
      case CallTerm => HandleCallTerm()
      case EnterTraffic => Reaction(this.(state := TrafficState(true)), None)
      case EnterControl => Reaction(this.(state := ControlState()), None)
    }

    /** The running timer has the timeout of its state, and is either fresh or not expired. */
    predicate TimerOk() {
      && state.t.max == (match state
                         case Control(_) => selectTime
                         case Traffic(_, _) => watchdogTime
                         case Paused(_) => pauseTime)
      && (state.t.cur == 0 || state.t.cur < state.t.max)
    }

    /** Adding `samples` to an unexpired timer stays within a word. */
    predicate Fits(samples: nat) {
      && samples < Pow2(bits)
      && selectTime + samples <= Pow2(bits)
      && watchdogTime + samples <= Pow2(bits)
      && pauseTime + samples <= Pow2(bits)
    }
  }

  function NewPolicy(bits: nat, select: nat, watchdog: nat, pause: nat): PolicyState {
    PolicyState(bits, Control(Timer(select, 0)), select, watchdog, pause)
  }

  /** The policy state machine, updated in place. */
  class ReceiverPolicy {
    const bits: nat
    var state: ReceiverState
    const selectTime: nat
    const watchdogTime: nat
    const pauseTime: nat

    ghost function View(): PolicyState
      reads this
    {
      PolicyState(bits, state, selectTime, watchdogTime, pauseTime)
    }

    constructor (bits: nat, select: nat, watchdog: nat, pause: nat)
      ensures View() == NewPolicy(bits, select, watchdog, pause)
    {
      this.bits := bits;
      state := Control(Timer(select, 0));
      selectTime, watchdogTime, pauseTime := select, watchdog, pause;
    }

    method HandleElapsed(samples: nat) returns (event: Option<PolicyEvent>)
      modifies this
      ensures Reaction(View(), event) == old(View()).React(Elapsed(samples))
    {
      event := None;
      match state {
        case Control(t) =>
          var t' := t.Advance(bits, samples);
          if t'.Expired() {
            t' := t'.Reset();
            event := Some(ChooseTalkgroup);
          }
          state := Control(t');
        case Traffic(t, init) =>
          state := Traffic(t.Advance(bits, samples), init);
          if state.t.Expired() {
            event := Some(ReturnControl);
          }
        case Paused(t) =>
          state := Paused(t.Advance(bits, samples));
          if state.t.Expired() {
            event := Some(ReturnControl);
          }
      }
    }

    method HandleNid(u: DataUnit) returns (event: Option<PolicyEvent>)
      modifies this
      ensures Reaction(View(), event) == old(View()).React(Nid(u))
    {
      event := None;
      match state {
        case Control(_) =>
        case Traffic(t, true) =>
          match u {
            case VoiceLCTerminator | VoiceSimpleTerminator =>
            case VoiceHeader | VoiceLCFrameGroup | VoiceCCFrameGroup =>
              state := Traffic(Timer(watchdogTime, 0), false);
            case TrunkingSignaling =>
              event := Some(Resync);
            case OtherUnit =>
          }
        case Traffic(t, false) =>
          match u {
            case VoiceLCTerminator | VoiceSimpleTerminator =>
              state := Paused(Timer(pauseTime, 0));
            case VoiceHeader | VoiceLCFrameGroup | VoiceCCFrameGroup =>
              state := Traffic(t.Reset(), false);
            case TrunkingSignaling =>
            case OtherUnit =>
          }
        case Paused(_) =>
          match u {
            case VoiceHeader | VoiceLCFrameGroup | VoiceCCFrameGroup =>
              state := Traffic(Timer(watchdogTime, 0), true);
            case VoiceLCTerminator | VoiceSimpleTerminator | TrunkingSignaling | OtherUnit =>
          }
      }
    }

    method HandleCallTerm() returns (event: Option<PolicyEvent>)
      ensures Reaction(View(), event) == View().React(CallTerm)
    {
      match state {
        case Control(_) => event := None;
        case Traffic(_, _) => event := Some(ReturnControl);
        case Paused(_) => event := Some(ReturnControl);
      }
    }

    method EnterTraffic()
      modifies this
      ensures View() == old(View()).React(PolicyOp.EnterTraffic).policy
    {
      state := Traffic(Timer(watchdogTime, 0), true);
    }

    method EnterControl()
      modifies this
      ensures View() == old(View()).React(PolicyOp.EnterControl).policy
    {
      state := Control(Timer(selectTime, 0));
    }
  }

  // ---------------------------------------------------------------- runs of calls

  /** The policy after the first `n` calls. */
  ghost function PolicyAfter(p: PolicyState, ops: seq<PolicyOp>, n: nat): PolicyState
    requires n <= |ops|
  {
    if n == 0 then p else PolicyAfter(p, ops, n - 1).React(ops[n - 1]).policy
  }

  function SamplesOf(op: PolicyOp): nat {
    if op.Elapsed? then op.samples else 0
  }

  /** Samples reported by the first `n` calls. */
  ghost function TotalSamples(ops: seq<PolicyOp>, n: nat): nat
    requires n <= |ops|
  {
    if n == 0 then 0 else TotalSamples(ops, n - 1) + SamplesOf(ops[n - 1])
  }

  /** How many of the first `n` calls asked for a talkgroup to be chosen. */
  ghost function Choices(p: PolicyState, ops: seq<PolicyOp>, n: nat): nat
    requires n <= |ops|
  {
    if n == 0 then 0
    else
      Choices(p, ops, n - 1)
      + if PolicyAfter(p, ops, n - 1).React(ops[n - 1]).event == Some(ChooseTalkgroup) then 1 else 0
  }

  /** The call leaves the choice of channel alone and reports at most `chunk` samples. */
  ghost predicate Stays(op: PolicyOp, chunk: nat) {
    !op.EnterTraffic? && !op.EnterControl? && SamplesOf(op) <= chunk
  }

  /** One call that stays on the control channel, seen by the timer alone. */
  lemma ChoiceStep(p: PolicyState, op: PolicyOp)
    requires p.OnControl() && !op.EnterTraffic? && !op.EnterControl?
    ensures var r := p.React(op);
            var sum := p.state.t.cur + SamplesOf(op);
            && r.policy == p.(state := Control(Timer(p.state.t.max, r.policy.state.t.cur)))
            && (if r.event == Some(ChooseTalkgroup)
                then r.policy.state.t.cur == 0 && sum >= p.state.t.max
                else r.policy.state.t.cur <= sum
                     && (op.Elapsed? ==> r.policy.state.t.cur < p.state.t.max)
                     && (sum < Pow2(p.bits) ==> r.policy.state.t.cur == sum))
  {
  }

  lemma OneMore(k: nat, x: int)
    ensures (k + 1) * x == k * x + x
  {
  }

  lemma {:induction false} ChoiceBounds(p: PolicyState, ops: seq<PolicyOp>, chunk: nat, n: nat)
    requires p.state == p.ControlState() && n <= |ops| && forall op :: op in ops ==> Stays(op, chunk)
    ensures var q := PolicyAfter(p, ops, n);
            var k := Choices(p, ops, n);
            && q == p.(state := Control(Timer(p.selectTime, q.state.t.cur)))
            && k * p.selectTime + q.state.t.cur <= TotalSamples(ops, n)
            && (p.selectTime >= 1 ==> q.state.t.cur < p.selectTime)
            && (p.selectTime >= 1 && p.selectTime + chunk <= Pow2(p.bits) ==>
                  TotalSamples(ops, n) <= k * (p.selectTime - 1 + chunk) + q.state.t.cur)
  {
    if n == 0 {
    } else {
      ChoiceBounds(p, ops, chunk, n - 1);
      var q, k := PolicyAfter(p, ops, n - 1), Choices(p, ops, n - 1);
      assert Stays(ops[n - 1], chunk);
      ChoiceStep(q, ops[n - 1]);
      OneMore(k, p.selectTime);
      OneMore(k, p.selectTime - 1 + chunk);
    }
  }

  /** Samples between two choices: at least the timeout, and less than the timeout plus a chunk. */
  lemma ChoiceRate(p: PolicyState, ops: seq<PolicyOp>, chunk: nat)
    requires p.state == p.ControlState() && forall op :: op in ops ==> Stays(op, chunk)
    ensures PolicyAfter(p, ops, |ops|).OnControl()
    ensures Choices(p, ops, |ops|) * p.selectTime <= TotalSamples(ops, |ops|)
    ensures p.selectTime >= 1 && p.selectTime + chunk <= Pow2(p.bits) ==>
              TotalSamples(ops, |ops|) <=
                Choices(p, ops, |ops|) * (p.selectTime - 1 + chunk) + (p.selectTime - 1)
  {
    ChoiceBounds(p, ops, chunk, |ops|);
  }

  /** Voice units among the first `n` calls. */
  ghost function VoiceUnits(ops: seq<PolicyOp>, n: nat): nat
    requires n <= |ops|
  {
    if n == 0 then 0
    else VoiceUnits(ops, n - 1) + if ops[n - 1].Nid? && ops[n - 1].dataUnit.Voice() then 1 else 0
  }

  /** How many of the first `n` calls moved the policy into a pause. */
  ghost function Pauses(p: PolicyState, ops: seq<PolicyOp>, n: nat): nat
    requires n <= |ops|
  {
    if n == 0 then 0
    else
      var before, after := PolicyAfter(p, ops, n - 1).state, PolicyAfter(p, ops, n).state;
      Pauses(p, ops, n - 1) + if !before.Paused? && after.Paused? then 1 else 0
  }

  /** Every pause costs two voice units: one to start the message, one to resume it. */
  lemma {:induction false} PauseCounting(p: PolicyState, ops: seq<PolicyOp>, n: nat)
    requires p.state == p.TrafficState(true) && n <= |ops|
    requires forall op :: op in ops ==> !op.EnterTraffic? && !op.EnterControl?
    ensures var v, c := VoiceUnits(ops, n), Pauses(p, ops, n);
            match PolicyAfter(p, ops, n).state
            case Control(_) => false
            case Traffic(_, init) => if init then v >= 2 * c else v >= 2 * c + 1
            case Paused(_) => c >= 1 && v >= 2 * c - 1
  {
    if n == 0 {
    } else {
      assert ops[n - 1] in ops;
      PauseCounting(p, ops, n - 1);
    }
  }

  /** Call `n - 1` begins a visit, or resumes it after a pause. */
  ghost predicate Begins(p: PolicyState, ops: seq<PolicyOp>, n: nat)
    requires 0 < n <= |ops|
  {
    var op := ops[n - 1];
    op.EnterTraffic? || (op.Nid? && op.dataUnit.Voice() && PolicyAfter(p, ops, n - 1).state.Paused?)
  }

  /** A voice unit came, within the first `n` calls, after the visit last began or was resumed. */
  ghost predicate VoiceSince(p: PolicyState, ops: seq<PolicyOp>, n: nat)
    requires n <= |ops|
  {
    n > 0 && !Begins(p, ops, n)
    && ((ops[n - 1].Nid? && ops[n - 1].dataUnit.Voice()) || VoiceSince(p, ops, n - 1))
  }

  lemma {:induction false} LiveIffVoiceSince(p: PolicyState, ops: seq<PolicyOp>, n: nat)
    requires p.OnControl() || p.state == p.TrafficState(true)
    requires n <= |ops| && PolicyAfter(p, ops, n).state.Traffic?
    ensures PolicyAfter(p, ops, n).state.init <==> !VoiceSince(p, ops, n)
  {
    if n > 0 && PolicyAfter(p, ops, n - 1).state.Traffic? {
      LiveIffVoiceSince(p, ops, n - 1);
    }
  }

  /**
   In every run of calls, a terminator starts a pause if and only if a voice unit has come since
   the visit last began or was resumed.
   */
  lemma PausesIff(p: PolicyState, ops: seq<PolicyOp>, n: nat)
    requires p.OnControl() || p.state == p.TrafficState(true)
    requires n < |ops| && ops[n].Nid? && ops[n].dataUnit.Terminator()
    requires PolicyAfter(p, ops, n).state.Traffic?
    ensures PolicyAfter(p, ops, n + 1).state.Paused? <==> VoiceSince(p, ops, n)
  {
    LiveIffVoiceSince(p, ops, n);
  }

  /** A terminator right after a resumption does not pause again. */
  lemma ResumedIgnoresTerminator(p: PolicyState)
    requires p.state == p.TrafficState(true)
    ensures var ops := [Nid(VoiceHeader), Nid(VoiceLCTerminator), Nid(VoiceLCFrameGroup), Nid(VoiceLCTerminator)];
            PolicyAfter(p, ops, 2).state.Paused? && PolicyAfter(p, ops, 4).state == p.TrafficState(true)
  {
    var ops := [Nid(VoiceHeader), Nid(VoiceLCTerminator), Nid(VoiceLCFrameGroup), Nid(VoiceLCTerminator)];
    var live, paused := p.(state := p.TrafficState(false)), p.(state := Paused(Timer(p.pauseTime, 0)));
    OneCall(p, ops, 0, p, live);
    OneCall(p, ops, 1, live, paused);
    OneCall(p, ops, 2, paused, p);
    OneCall(p, ops, 3, p, p);
  }

  lemma OneCall(p: PolicyState, ops: seq<PolicyOp>, n: nat, before: PolicyState, after: PolicyState)
    requires n < |ops| && before == PolicyAfter(p, ops, n) && after == before.React(ops[n]).policy
    ensures PolicyAfter(p, ops, n + 1) == after
  {
  }

  /** Whether the call starts the running timer afresh. */
  ghost predicate Restarts(p: PolicyState, op: PolicyOp) {
    match op
    case Elapsed(_) => p.React(op).event == Some(ChooseTalkgroup)
    case Nid(u) => !p.OnControl() && (u.Voice() || (u.Terminator() && p.state.Traffic? && !p.state.init))
    case CallTerm => false
    case EnterTraffic => true
    case EnterControl => true
  }

  /** Samples reported, within the first `n` calls, since the last one that restarted the timer. */
  ghost function SinceRestart(p: PolicyState, ops: seq<PolicyOp>, n: nat): nat
    requires n <= |ops|
  {
    if n == 0 || Restarts(PolicyAfter(p, ops, n - 1), ops[n - 1]) then 0
    else SinceRestart(p, ops, n - 1) + SamplesOf(ops[n - 1])
  }

  lemma SettingsKept(p: PolicyState, ops: seq<PolicyOp>, n: nat)
    requires n <= |ops|
    ensures PolicyAfter(p, ops, n) == p.(state := PolicyAfter(p, ops, n).state)
  {
  }

  lemma TimerStep(p: PolicyState, op: PolicyOp, since: nat)
    requires p.state.t.cur == Residue(since, Pow2(p.bits))
    ensures p.React(op).policy.state.t.cur
         == Residue(if Restarts(p, op) then 0 else since + SamplesOf(op), Pow2(p.bits))
  {
    if op.Elapsed? {
      ResidueOnce(since, op.samples, Pow2(p.bits));
    }
  }

  /** The timer is the number of samples since its last restart, modulo the word size. */
  lemma {:induction false} TimerIsSumSinceRestart(p: PolicyState, ops: seq<PolicyOp>, n: nat)
    requires p.state.t.cur == 0 && n <= |ops|
    ensures PolicyAfter(p, ops, n).state.t.cur == Residue(SinceRestart(p, ops, n), Pow2(p.bits))
  {
    if n == 0 {
    } else {
      TimerIsSumSinceRestart(p, ops, n - 1);
      SettingsKept(p, ops, n - 1);
      TimerStep(PolicyAfter(p, ops, n - 1), ops[n - 1], SinceRestart(p, ops, n - 1));
    }
  }
}
