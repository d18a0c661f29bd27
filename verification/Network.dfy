/** The tasks and the queues between them, interleaved in any order. */
module Network {
  import opened P25
  import opened Receiver
  import opened History
  import opened Outline
  import opened HopLog
  import opened Tuning
  import opened Pacing
  import opened Hub
  import opened Replica

  /** The receiver, the hub, the SDR's frequency, and the messages still under way. */
  datatype Tasks = Tasks(
    recv: Recv, hubQueue: seq<HubEvent>, hub: HubView, sdrQueue: seq<Freq>, tuned: Option<Freq>)

  datatype TaskStep =
    | Receive(event: RecvEvent)
    | OtherSends(message: HubEvent)
    | HubTakes(broken: set<nat>)
    | HubAdmits(started: bool)
    | SdrTakes

  /** What was sent on a queue since it held `before`. */
  function SentSince<T>(before: seq<T>, now: seq<T>): seq<T> {
    if |before| <= |now| then now[|before|..] else []
  }

  /** A step of one task; other tasks send no state messages, and an empty queue waits. */
  ghost function TaskNext(s: Tasks, step: TaskStep): Tasks
    requires s.recv.Valid()
  {
    match step
    case Receive(event) =>
      var r := Run(s.recv, OfEvent(event));
      s.(recv := r, hubQueue := s.hubQueue + SentSince(s.recv.hub, r.hub),
         sdrQueue := s.sdrQueue + SentSince(s.recv.sdr, r.sdr))
    case OtherSends(e) =>
      if e.State? then s else s.(hubQueue := s.hubQueue + [e])
    case HubTakes(broken) =>
      if s.hubQueue == [] then s
      else s.(hubQueue := s.hubQueue[1..], hub := s.hub.Step(Deliver(s.hubQueue[0], broken)))
    case HubAdmits(started) =>
      s.(hub := s.hub.Step(Subscribe(started)))
    case SdrTakes =>
      if s.sdrQueue == [] then s
      else s.(sdrQueue := s.sdrQueue[1..], tuned := Some(s.sdrQueue[0]))
  }

  ghost function BootTasks(c: Config): Tasks {
    Tasks(Boot(c), Boot(c).hub, NEW_HUB, Boot(c).sdr, None)
  }

  lemma NextValid(s: Tasks, step: TaskStep)
    requires s.recv.Valid()
    ensures TaskNext(s, step).recv.Valid()
  {
  }

  ghost function TasksAfter(c: Config, steps: seq<TaskStep>, n: nat): (s: Tasks)
    requires n <= |steps|
    ensures s.recv.Valid()
  {
    if n == 0 then BootTasks(c)
    else
      NextValid(TasksAfter(c, steps, n - 1), steps[n - 1]);
      TaskNext(TasksAfter(c, steps, n - 1), steps[n - 1])
  }

  /** The last frequency sent to the SDR, counting those still under way. */
  function LastSent(s: Tasks): Option<Freq> {
    if s.sdrQueue == [] then s.tuned else Some(s.sdrQueue[|s.sdrQueue| - 1])
  }

  lemma {:induction false} QueuesGrow(r: Recv, ms: seq<Stimulus>, n: nat)
    requires r.Valid() && n <= |ms|
    ensures var q := After(r, ms, n);
            r.hub <= q.hub && r.sdr <= q.sdr
  {
    if n > 0 {
      QueuesGrow(r, ms, n - 1);
      TuningShown(After(r, ms, n - 1), ms[n - 1]);
    }
  }

  ghost predicate Reachable(c: Config, r: Recv) {
    exists ms :: r == Run(Boot(c), ms)
  }

  lemma ReachableNext(c: Config, r: Recv, event: RecvEvent)
    requires Reachable(c, r) && r.Valid()
    ensures Reachable(c, Run(r, OfEvent(event)))
  {
    var ms :| r == Run(Boot(c), ms);
    RunConcat(Boot(c), ms, OfEvent(event));
    assert Run(r, OfEvent(event)) == Run(Boot(c), ms + OfEvent(event));
  }

  /** What is under way completes the hub's copy and the SDR's tuning. */
  ghost predicate InFlight(s: Tasks) {
    && FoldAll(s.hub.state, s.hubQueue) == FoldAll(DEFAULT_STATE, s.recv.hub)
    && s.recv.sdr != [] && LastSent(s) == Some(s.recv.sdr[|s.recv.sdr| - 1])
  }

  lemma TakeFirst(h: HubState, queue: seq<HubEvent>)
    requires queue != []
    ensures FoldAll(h.Take(queue[0]), queue[1..]) == FoldAll(h, queue)
  {
    FoldConcat(h, [queue[0]], queue[1..], |queue| - 1);
    assert [queue[0]] + queue[1..] == queue;
    assert Fold(h, [queue[0]], 0, 0) == h;
  }

  lemma Enqueue(h: HubState, queue: seq<HubEvent>, more: seq<HubEvent>)
    ensures FoldAll(h, queue + more) == FoldAll(FoldAll(h, queue), more)
  {
    FoldConcat(h, queue, more, |more|);
  }

  /** Putting what the receiver sends on the queues keeps them complete. */
  lemma InFlightSend(s: Tasks, r: Recv)
    requires InFlight(s) && s.recv.hub <= r.hub && s.recv.sdr <= r.sdr
    ensures InFlight(s.(recv := r, hubQueue := s.hubQueue + SentSince(s.recv.hub, r.hub),
                        sdrQueue := s.sdrQueue + SentSince(s.recv.sdr, r.sdr)))
  {
    var more := SentSince(s.recv.hub, r.hub);
    assert r.hub == s.recv.hub + more;
    Enqueue(s.hub.state, s.hubQueue, more);
    Enqueue(DEFAULT_STATE, s.recv.hub, more);
  }

  lemma InFlightReceive(s: Tasks, event: RecvEvent)
    requires s.recv.Valid() && InFlight(s)
    ensures InFlight(TaskNext(s, Receive(event)))
  {
    QueuesGrow(s.recv, OfEvent(event), |OfEvent(event)|);
    InFlightSend(s, Run(s.recv, OfEvent(event)));
  }

  lemma InFlightStep(s: Tasks, step: TaskStep)
    requires s.recv.Valid() && InFlight(s)
    ensures InFlight(TaskNext(s, step))
  {
    match step
    case Receive(event) =>
      InFlightReceive(s, event);
    case OtherSends(e) =>
      if !e.State? {
        Enqueue(s.hub.state, s.hubQueue, [e]);
        assert FoldAll(FoldAll(s.hub.state, s.hubQueue), [e]) == FoldAll(s.hub.state, s.hubQueue) by {
          assert Fold(FoldAll(s.hub.state, s.hubQueue), [e], 0, 0) == FoldAll(s.hub.state, s.hubQueue);
        }
      }
    case HubTakes(broken) =>
      if s.hubQueue != [] {
        TakeFirst(s.hub.state, s.hubQueue);
      }
    case HubAdmits(_) =>
    case SdrTakes =>
  }

  lemma BootInFlight(c: Config)
    ensures InFlight(BootTasks(c))
  {
  }

  lemma ReachableStep(c: Config, s: Tasks, step: TaskStep)
    requires s.recv.Valid() && Reachable(c, s.recv)
    ensures Reachable(c, TaskNext(s, step).recv)
  {
    if step.Receive? {
      ReachableNext(c, s.recv, step.event);
    }
  }

  lemma {:induction false} ReachableAlways(c: Config, steps: seq<TaskStep>, n: nat)
    requires n <= |steps|
    ensures Reachable(c, TasksAfter(c, steps, n).recv)
  {
    if n == 0 {
      assert Boot(c) == Run(Boot(c), []);
    } else {
      ReachableAlways(c, steps, n - 1);
      ReachableStep(c, TasksAfter(c, steps, n - 1), steps[n - 1]);
    }
  }

  lemma {:induction false} InFlightAlways(c: Config, steps: seq<TaskStep>, n: nat)
    requires n <= |steps|
    ensures InFlight(TasksAfter(c, steps, n))
  {
    if n == 0 {
      BootInFlight(c);
    } else {
      InFlightAlways(c, steps, n - 1);
      InFlightStep(TasksAfter(c, steps, n - 1), steps[n - 1]);
    }
  }

  /**
   At every interleaving of the tasks, the messages under way complete the hub's copy: it gets
   the receiver's control frequency and contains its maps, and it becomes equal to the
   receiver's state exactly if nothing from an earlier site is stale.
   */
  lemma ReplicaSimulation(c: Config, steps: seq<TaskStep>, n: nat)
    requires n <= |steps|
    ensures var s := TasksAfter(c, steps, n);
            var copy := FoldAll(s.hub.state, s.hubQueue);
            Agrees(copy, s.recv) && (Equal(copy, s.recv) <==> NothingStale(s.recv.hub))
  {
    InFlightAlways(c, steps, n);
    ReachableAlways(c, steps, n);
    var r := TasksAfter(c, steps, n).recv;
    var ms :| r == Run(Boot(c), ms);
    CopyAgrees(c, ms);
  }

  /** While the site has not changed since the start, the completed copy is the receiver's state. */
  lemma ReplicaEqualAtFirstSite(c: Config, steps: seq<TaskStep>, n: nat)
    requires n <= |steps|
    requires var log := TasksAfter(c, steps, n).recv.hub;
             SiteStart(log, |log|) <= 1
    ensures var s := TasksAfter(c, steps, n);
            Equal(FoldAll(s.hub.state, s.hubQueue), s.recv)
  {
    ReplicaSimulation(c, steps, n);
    InFlightAlways(c, steps, n);
    ReachableAlways(c, steps, n);
    var r := TasksAfter(c, steps, n).recv;
    var ms :| r == Run(Boot(c), ms);
    FirstMessage(c, ms);
    FirstSiteNothingStale(r.hub);
  }

  // ---------------------------------------------------------------- a single site

  /** Every control frequency in the log is `freq`. */
  predicate OnlyFreq(log: seq<HubEvent>, freq: Freq) {
    forall i :: 0 <= i < |log| && CtlMessage(log[i]) ==> log[i].update.freq == freq
  }

  lemma {:induction false} OnlyFreqStart(log: seq<HubEvent>, freq: Freq, n: nat)
    requires 1 <= n <= |log| && OnlyFreq(log, freq) && log[0] == State(UpdateCtlFreq(freq))
    ensures CtlAt(log, n) == freq && SiteStart(log, n) <= 1
  {
    if n > 1 {
      OnlyFreqStart(log, freq, n - 1);
    }
  }

  lemma OnlyFreqStep(r: Recv, m: Stimulus, freq: Freq)
    requires r.Valid() && OnlyFreq(r.hub, freq) && (m.Retune? ==> m.freq == freq)
    ensures OnlyFreq(r.Apply(m).hub, freq)
  {
    TuningShown(r, m);
  }

  lemma {:induction false} OnlyFreqRun(r: Recv, ms: seq<Stimulus>, freq: Freq, n: nat)
    requires r.Valid() && OnlyFreq(r.hub, freq) && n <= |ms|
    requires forall m :: m in ms && m.Retune? ==> m.freq == freq
    ensures OnlyFreq(After(r, ms, n).hub, freq)
  {
    if n > 0 {
      OnlyFreqRun(r, ms, freq, n - 1);
      assert ms[n - 1] in ms;
      OnlyFreqStep(After(r, ms, n - 1), ms[n - 1], freq);
    }
  }

  /** The step does not ask the receiver for another control frequency. */
  predicate KeepsSite(step: TaskStep, freq: Freq) {
    step.Receive? && step.event.SetControlFreq? ==> step.event.freq == freq
  }

  lemma EventKeepsSite(event: RecvEvent, freq: Freq)
    requires KeepsSite(Receive(event), freq)
    ensures forall m :: m in OfEvent(event) && m.Retune? ==> m.freq == freq
  {
    if event.Baseband? {
      SamplesInner(event.samples, |event.samples|);
    }
  }

  lemma OnlyFreqTask(s: Tasks, step: TaskStep, freq: Freq)
    requires s.recv.Valid() && OnlyFreq(s.recv.hub, freq) && KeepsSite(step, freq)
    ensures OnlyFreq(TaskNext(s, step).recv.hub, freq)
  {
    if step.Receive? {
      EventKeepsSite(step.event, freq);
      OnlyFreqRun(s.recv, OfEvent(step.event), freq, |OfEvent(step.event)|);
    }
  }

  lemma {:induction false} OnlyFreqTasks(c: Config, steps: seq<TaskStep>, n: nat)
    requires n <= |steps| && forall i :: 0 <= i < n ==> KeepsSite(steps[i], c.freq)
    ensures OnlyFreq(TasksAfter(c, steps, n).recv.hub, c.freq)
  {
    if n == 0 {
      BootShown(c);
    } else {
      OnlyFreqTasks(c, steps, n - 1);
      OnlyFreqTask(TasksAfter(c, steps, n - 1), steps[n - 1], c.freq);
    }
  }

  /**
   As long as no request asks for a control frequency other than the first, the messages under
   way make the hub's copy equal to the receiver's state.
   */
  lemma ReplicaEqualWithoutMoves(c: Config, steps: seq<TaskStep>, n: nat)
    requires n <= |steps| && forall i :: 0 <= i < n ==> KeepsSite(steps[i], c.freq)
    ensures var s := TasksAfter(c, steps, n);
            Equal(FoldAll(s.hub.state, s.hubQueue), s.recv)
  {
    var r := TasksAfter(c, steps, n).recv;
    OnlyFreqTasks(c, steps, n);
    ReachableAlways(c, steps, n);
    ReachableStarts(c, r);
    OnlyFreqStart(r.hub, c.freq, |r.hub|);
    ReplicaEqualAtFirstSite(c, steps, n);
  }

  lemma ReachableStarts(c: Config, r: Recv)
    requires Reachable(c, r)
    ensures |r.hub| > 0 && r.hub[0] == State(UpdateCtlFreq(c.freq))
  {
    var ms :| r == Run(Boot(c), ms);
    FirstMessage(c, ms);
  }

  /** The first message of a run announces the first control frequency. */
  lemma FirstMessage(c: Config, ms: seq<Stimulus>)
    ensures var log := Run(Boot(c), ms).hub;
            |log| > 0 && log[0] == State(UpdateCtlFreq(c.freq))
  {
    QueuesGrow(Boot(c), ms, |ms|);
    BootShown(c);
  }

  /** The last frequency sent to the SDR is always the receiver's current one. */
  lemma SdrFollows(c: Config, steps: seq<TaskStep>, n: nat)
    requires n <= |steps|
    ensures var s := TasksAfter(c, steps, n);
            LastSent(s) == Some(s.recv.curfreq)
  {
    InFlightAlways(c, steps, n);
    ReachableAlways(c, steps, n);
    var r := TasksAfter(c, steps, n).recv;
    var ms :| r == Run(Boot(c), ms);
    TuningInvariant(c, ms, |ms|);
  }
}
