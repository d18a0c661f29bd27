/** The hub: a copy of the receiver's state, and the broadcast of its messages. */
module Hub {
  import opened P25

  // ---------------------------------------------------------------- state copy

  /** Value of the hub's copy of the receiver's state. */
  datatype HubState = HubState(
    ctlfreq: Freq, channels: map<nat, ChannelParams>, encrypted: map<Group, CryptoAlgorithm>)
  {
    function Update(e: StateEvent): HubState {
      match e
      case UpdateCtlFreq(freq) => this.(ctlfreq := freq)
      case UpdateChannelParams(id, params) => this.(channels := channels[id := params])
      case UpdateEncrypted(g, alg) => this.(encrypted := encrypted[g := alg])
    }

    function Take(e: HubEvent): HubState {
      if e.State? then Update(e.update) else this
    }
  }

  const DEFAULT_STATE := HubState(U32_MAX, map[], map[])

  /** The copy kept by the hub, updated in place. */
  class StateCopy {
    var ctlfreq: Freq
    var channels: map<nat, ChannelParams>
    var encrypted: map<Group, CryptoAlgorithm>

    ghost function View(): HubState
      reads this
    {
      HubState(ctlfreq, channels, encrypted)
    }

    constructor ()
      ensures View() == DEFAULT_STATE && ctlfreq == 0xffff_ffff
    {
      ctlfreq, channels, encrypted := U32_MAX, map[], map[];
    }

    method Update(e: StateEvent)
      modifies this
      ensures View() == old(View()).Update(e)
    {
      match e {
        case UpdateCtlFreq(freq) => ctlfreq := freq;
        case UpdateChannelParams(id, params) => channels := channels[id := params];
        case UpdateEncrypted(g, alg) => encrypted := encrypted[g := alg];
      }
    }
  }

  // ---------------------------------------------------------------- broadcast

  /** A subscriber's connection and the events offered to it so far. */
  datatype Stream = Stream(id: nat, offered: seq<HubEvent>)

  const MAX_STREAMS := 4

  /** Whether offering the event writes to the connection at all. */
  predicate Writes(e: HubEvent) {
    !(e.State? && e.update.UpdateChannelParams?)
  }

  /** Offering the event to the stream succeeds; `broken` are the connections that fail. */
  predicate Accepted(id: nat, e: HubEvent, broken: set<nat>) {
    Writes(e) ==> id !in broken
  }

  /** The streams that accept the event, last first. */
  function Kept(streams: seq<Stream>, e: HubEvent, broken: set<nat>): (kept: seq<Stream>)
    ensures |kept| <= |streams|
  {
    if streams == [] then []
    else
      var n := |streams| - 1;
      var s := streams[n].(offered := streams[n].offered + [e]);
      (if Accepted(s.id, e, broken) then [s] else []) + Kept(streams[..n], e, broken)
  }

  /** The streams that fail the event, last first. */
  function Dropped(streams: seq<Stream>, e: HubEvent, broken: set<nat>): seq<Stream> {
    if streams == [] then []
    else
      var n := |streams| - 1;
      var s := streams[n].(offered := streams[n].offered + [e]);
      (if Accepted(s.id, e, broken) then [] else [s]) + Dropped(streams[..n], e, broken)
  }

  lemma MoveOver(done: seq<Stream>, s: Stream, more: seq<Stream>)
    ensures done + ([s] + more) == (done + [s]) + more
    ensures [] + more == more
  {
  }

  /** Offering the event to the last stream moves it to the end of one list or the other. */
  lemma OfferLast(streams: seq<Stream>, keep: seq<Stream>, gone: seq<Stream>, e: HubEvent, broken: set<nat>)
    requires streams != []
    ensures var rest, last := streams[..|streams| - 1], streams[|streams| - 1];
            var s := last.(offered := last.offered + [e]);
            if Accepted(s.id, e, broken)
            then keep + Kept(streams, e, broken) == (keep + [s]) + Kept(rest, e, broken)
                 && gone + Dropped(streams, e, broken) == gone + Dropped(rest, e, broken)
            else keep + Kept(streams, e, broken) == keep + Kept(rest, e, broken)
                 && gone + Dropped(streams, e, broken) == (gone + [s]) + Dropped(rest, e, broken)
  {
    var rest, last := streams[..|streams| - 1], streams[|streams| - 1];
    var s := last.(offered := last.offered + [e]);
    MoveOver(keep, s, Kept(rest, e, broken));
    MoveOver(gone, s, Dropped(rest, e, broken));
  }

  /** Something that happens to the hub, with the environment's part in it. */
  datatype HubStep =
    | Subscribe(started: bool)
    | Deliver(event: HubEvent, broken: set<nat>)

  /** Value of the hub's fields; `gone` and `next` are the history of its subscribers. */
  datatype HubView = HubView(state: HubState, streamers: seq<Stream>, gone: seq<Stream>, next: nat) {
    function Step(step: HubStep): HubView {
      match step
      case Subscribe(started) =>
        if |streamers| < MAX_STREAMS && started
        then this.(streamers := streamers + [Stream(next, [])], next := next + 1)
        else this
      case Deliver(e, broken) =>
        HubView(state.Take(e), Kept(streamers, e, broken), gone + Dropped(streamers, e, broken), next)
    }
  }

  /** The hub after the steps from position `i` on. */
  function HubAfter(h: HubView, steps: seq<HubStep>, i: nat): HubView
    requires i <= |steps|
    decreases |steps| - i
  {
    if i == |steps| then h else HubAfter(h.Step(steps[i]), steps, i + 1)
  }

  const NEW_HUB := HubView(DEFAULT_STATE, [], [], 0)

  class HubTask {
    const state: StateCopy
    var streamers: seq<Stream>
    /** Messages waiting for the hub, and whether more can come. */
    var chan: seq<HubEvent>
    var connected: bool
    /** Connections are numbered in the order they subscribe. */
    var next: nat
    ghost var gone: seq<Stream>

    ghost function View(): HubView
      reads this, state
    {
      HubView(state.View(), streamers, gone, next)
    }

    constructor ()
      ensures View() == NEW_HUB && chan == [] && connected && fresh(state)
    {
      state := new StateCopy();
      streamers, chan, connected := [], [], true;
      gone, next := [], 0;
    }

    /** Offer an event to every stream and keep those that accept it. */
    method HandleEvent(e: HubEvent, broken: set<nat>)
      modifies this`streamers, this`gone, state
      ensures View() == old(View()).Step(Deliver(e, broken))
    {
      if e.State? {
        state.Update(e.update);
      }
      ghost var all, before := streamers, gone;
      var keep: seq<Stream> := [];
      while |streamers| > 0
        invariant state.View() == old(state.View()).Take(e)
        invariant keep + Kept(streamers, e, broken) == Kept(all, e, broken)
        invariant gone + Dropped(streamers, e, broken) == before + Dropped(all, e, broken)
        decreases |streamers|
      {
        OfferLast(streamers, keep, gone, e, broken);
        var s := streamers[|streamers| - 1];
        streamers := streamers[..|streamers| - 1];
        s := s.(offered := s.offered + [e]);
        if Accepted(s.id, e, broken) {
          keep := keep + [s];
        } else {
          gone := gone + [s];
        }
      }
      streamers := keep;
    }

    /**
     Handle waiting events until there are none; `late[i]` arrive while the i-th is handled, and
     `broken(i)` are the connections that fail it.
     */
    method HandleChan(late: seq<seq<HubEvent>>, broken: nat -> set<nat>) returns (ok: bool)
      modifies this`streamers, this`gone, this`chan, state
      ensures chan == [] && ok == connected
      ensures View() == HubAfter(old(View()), Deliveries(Drained(old(chan), late, 0), broken), 0)
    {
      ghost var start, events := View(), Drained(chan, late, 0);
      ghost var steps := Deliveries(events, broken);
      var i := 0;
      while |chan| > 0
        invariant i <= |events| && Drained(chan, late, i) == events[i..]
        invariant HubAfter(View(), steps, i) == HubAfter(start, steps, 0)
        decreases |events| - i
      {
        DrainedNext(chan, late, events, i);
        var e := chan[0];
        chan := chan[1..];
        HandleEvent(e, broken(i));
        if i < |late| {
          chan := chan + late[i];
        } else {
          assert chan + [] == chan;
        }
        i := i + 1;
      }
      ok := connected;
    }

    /**
     Admit a subscriber unless the list is full; `cloned` says that its connection could be
     duplicated, and `started` that its header was written.
     */
    method HandleSubscribe(cloned: bool, started: bool) returns (accepted: bool)
      modifies this`streamers, this`next
      ensures View() == old(View()).Step(Subscribe(cloned && started))
      ensures accepted <==> cloned && |old(streamers)| < 4
    {
      if !cloned || |streamers| >= MAX_STREAMS {
        return false;
      }
      if started {
        streamers := streamers + [Stream(next, [])];
        next := next + 1;
      }
      return true;
    }
  }

  /** The events that are handled, from the i-th on, when `queue` is waiting. */
  function Drained(queue: seq<HubEvent>, late: seq<seq<HubEvent>>, i: nat): seq<HubEvent>
    decreases if i < |late| then |late| - i else 0, |queue|
  {
    if queue == [] then []
    else [queue[0]] + Drained(queue[1..] + (if i < |late| then late[i] else []), late, i + 1)
  }

  lemma DrainedNext(queue: seq<HubEvent>, late: seq<seq<HubEvent>>, events: seq<HubEvent>, i: nat)
    requires queue != [] && i <= |events| && Drained(queue, late, i) == events[i..]
    ensures i < |events| && events[i] == queue[0]
    ensures Drained(queue[1..] + (if i < |late| then late[i] else []), late, i + 1) == events[i + 1..]
  {
    assert events[i..][1..] == events[i + 1..];
  }

  /** Everything that arrives while the events from the i-th to before the n-th are handled. */
  function Arrived(late: seq<seq<HubEvent>>, i: nat, n: nat): seq<HubEvent>
    decreases n - i
  {
    if i >= n then [] else (if i < |late| then late[i] else []) + Arrived(late, i + 1, n)
  }

  /** They are those waiting at first, followed by all that arrive meanwhile, in order. */
  lemma {:induction false} DrainedInOrder(queue: seq<HubEvent>, late: seq<seq<HubEvent>>, i: nat)
    ensures var n := i + |Drained(queue, late, i)|;
            Drained(queue, late, i) == queue + Arrived(late, i, n)
    decreases if i < |late| then |late| - i else 0, |queue|
  {
    if queue != [] {
      var more := if i < |late| then late[i] else [];
      var rest := Drained(queue[1..] + more, late, i + 1);
      DrainedInOrder(queue[1..] + more, late, i + 1);
      var after := Arrived(late, i + 1, i + 1 + |rest|);
      assert [queue[0]] + (queue[1..] + more + after) == queue + (more + after);
    }
  }

  function Deliveries(events: seq<HubEvent>, broken: nat -> set<nat>): seq<HubStep> {
    seq(|events|, i requires 0 <= i < |events| => Deliver(events[i], broken(i)))
  }

  // ---------------------------------------------------------------- delivery

  /** The events from step `i` on, up to and including the first that the stream fails. */
  function Due(steps: seq<HubStep>, i: nat, id: nat): seq<HubEvent>
    requires i <= |steps|
    decreases |steps| - i
  {
    if i == |steps| then []
    else match steps[i]
         case Subscribe(_) => Due(steps, i + 1, id)
         case Deliver(e, broken) =>
           [e] + if Accepted(id, e, broken) then Due(steps, i + 1, id) else []
  }

  /** The stream accepts every event from step `i` on. */
  predicate Survives(steps: seq<HubStep>, i: nat, id: nat)
    requires i <= |steps|
  {
    forall j :: i <= j < |steps| && steps[j].Deliver? ==> Accepted(id, steps[j].event, steps[j].broken)
  }

  ghost predicate Listed(streams: seq<Stream>, id: nat) {
    exists i :: 0 <= i < |streams| && streams[i].id == id
  }

  ghost predicate Distinct(streams: seq<Stream>) {
    forall i, j :: 0 <= i < j < |streams| ==> streams[i].id != streams[j].id
  }

  /** At most four streams, all with different identities, none of them dropped or yet to come. */
  ghost predicate Sane(h: HubView) {
    && |h.streamers| <= 4
    && Distinct(h.streamers)
    && (forall i :: 0 <= i < |h.streamers| ==> h.streamers[i].id < h.next && !Listed(h.gone, h.streamers[i].id))
    && (forall i :: 0 <= i < |h.gone| ==> h.gone[i].id < h.next)
  }

  lemma {:induction false} KeptMembers(streams: seq<Stream>, e: HubEvent, broken: set<nat>, s: Stream)
    requires s in streams
    ensures var t := s.(offered := s.offered + [e]);
            if Accepted(s.id, e, broken) then t in Kept(streams, e, broken)
            else t in Dropped(streams, e, broken)
  {
    var n := |streams| - 1;
    if s != streams[n] {
      KeptMembers(streams[..n], e, broken, s);
    }
  }

  /** Kept and dropped streams come from the list. */
  lemma {:induction false} KeptFrom(streams: seq<Stream>, e: HubEvent, broken: set<nat>)
    ensures forall t :: t in Kept(streams, e, broken) ==>
              Listed(streams, t.id) && Accepted(t.id, e, broken)
    ensures forall t :: t in Dropped(streams, e, broken) ==>
              Listed(streams, t.id) && !Accepted(t.id, e, broken)
  {
    if streams != [] {
      var n := |streams| - 1;
      KeptFrom(streams[..n], e, broken);
      assert forall id :: Listed(streams[..n], id) ==> Listed(streams, id) by {
        forall id | Listed(streams[..n], id) ensures Listed(streams, id) {
          var i :| 0 <= i < n && streams[..n][i].id == id;
          assert streams[i].id == id;
        }
      }
      assert Listed(streams, streams[n].id);
    }
  }

  lemma DistinctCons(s: Stream, rest: seq<Stream>)
    requires Distinct(rest) && !Listed(rest, s.id)
    ensures Distinct([s] + rest)
  {
    forall i, j | 0 <= i < j < |[s] + rest| ensures ([s] + rest)[i].id != ([s] + rest)[j].id {
      assert ([s] + rest)[j] == rest[j - 1];
    }
  }

  lemma {:induction false} KeptDistinct(streams: seq<Stream>, e: HubEvent, broken: set<nat>)
    requires Distinct(streams)
    ensures Distinct(Kept(streams, e, broken))
  {
    if streams != [] {
      var n := |streams| - 1;
      KeptDistinct(streams[..n], e, broken);
      KeptFrom(streams[..n], e, broken);
      var rest := Kept(streams[..n], e, broken);
      forall i | 0 <= i < |rest| ensures rest[i].id != streams[n].id {
        assert rest[i] in rest;
        var j :| 0 <= j < n && streams[..n][j].id == rest[i].id;
        assert streams[j].id != streams[n].id;
      }
      DistinctCons(streams[n].(offered := streams[n].offered + [e]), rest);
    }
  }

  lemma ListedConcat(a: seq<Stream>, b: seq<Stream>, id: nat)
    requires !Listed(a, id) && !Listed(b, id)
    ensures !Listed(a + b, id)
  {
    forall i | 0 <= i < |a + b| ensures (a + b)[i].id != id {
      if i < |a| {
        assert a[i].id != id;
      } else {
        assert b[i - |a|].id != id;
      }
    }
  }

  /** A kept stream was listed before, is in bounds, and has not been dropped. */
  lemma KeptIsCurrent(h: HubView, e: HubEvent, broken: set<nat>, t: Stream)
    requires Sane(h) && t in Kept(h.streamers, e, broken)
    ensures t.id < h.next && !Listed(h.gone + Dropped(h.streamers, e, broken), t.id)
  {
    KeptFrom(h.streamers, e, broken);
    var i :| 0 <= i < |h.streamers| && h.streamers[i].id == t.id;
    assert !Listed(h.gone, h.streamers[i].id);
    var dropped := Dropped(h.streamers, e, broken);
    forall j | 0 <= j < |dropped| ensures dropped[j].id != t.id {
      assert dropped[j] in dropped;
    }
    ListedConcat(h.gone, dropped, t.id);
  }

  lemma StepSane(h: HubView, step: HubStep)
    requires Sane(h)
    ensures Sane(h.Step(step))
  {
    match step
    case Subscribe(_) =>
    case Deliver(e, broken) =>
      DeliverSane(h, e, broken);
  }

  lemma DeliverSane(h: HubView, e: HubEvent, broken: set<nat>)
    requires Sane(h)
    ensures Sane(h.Step(Deliver(e, broken)))
  {
    var kept, dropped := Kept(h.streamers, e, broken), Dropped(h.streamers, e, broken);
    KeptDistinct(h.streamers, e, broken);
    forall i | 0 <= i < |kept| ensures kept[i].id < h.next && !Listed(h.gone + dropped, kept[i].id) {
      KeptIsCurrent(h, e, broken, kept[i]);
    }
    KeptFrom(h.streamers, e, broken);
    forall i | 0 <= i < |h.gone + dropped| ensures (h.gone + dropped)[i].id < h.next {
      if i >= |h.gone| {
        assert dropped[i - |h.gone|] in dropped;
      }
    }
  }

  /** A fifth subscriber is not admitted. */
  lemma FifthIsRefused(h: HubView, started: bool)
    requires |h.streamers| == 4
    ensures h.Step(Subscribe(started)) == h
  {
  }

  /** A stream is dropped iff its write fails; channel parameters are written to nobody. */
  lemma OfferOutcome(h: HubView, e: HubEvent, broken: set<nat>, s: Stream)
    requires Sane(h) && s in h.streamers
    ensures var t, next := s.(offered := s.offered + [e]), h.Step(Deliver(e, broken));
            && (t in next.streamers <==> s.id !in broken || (e.State? && e.update.UpdateChannelParams?))
            && (t in next.streamers || t in next.gone)
  {
    KeptMembers(h.streamers, e, broken, s);
    KeptFrom(h.streamers, e, broken);
  }

  lemma {:induction false} GoneStays(h: HubView, steps: seq<HubStep>, i: nat, s: Stream)
    requires i <= |steps| && s in h.gone
    ensures s in HubAfter(h, steps, i).gone
    decreases |steps| - i
  {
    if i < |steps| {
      GoneStays(h.Step(steps[i]), steps, i + 1, s);
    }
  }

  lemma {:induction false} SaneAfter(h: HubView, steps: seq<HubStep>, i: nat)
    requires Sane(h) && i <= |steps|
    ensures Sane(HubAfter(h, steps, i)) && |HubAfter(h, steps, i).streamers| <= 4
    decreases |steps| - i
  {
    if i < |steps| {
      StepSane(h, steps[i]);
      SaneAfter(h.Step(steps[i]), steps, i + 1);
    }
  }

  /**
   Whatever happens to the hub, a current subscriber ends up having been offered exactly the
   events up to its first failed write, each once and in order, and is dropped iff one failed.
   */
  lemma {:induction false} SubscriberDelivery(h: HubView, steps: seq<HubStep>, i: nat, s: Stream)
    requires i <= |steps| && s in h.streamers
    ensures var t := Stream(s.id, s.offered + Due(steps, i, s.id));
            var end := HubAfter(h, steps, i);
            if Survives(steps, i, s.id) then t in end.streamers else t in end.gone
    decreases |steps| - i
  {
    if i == |steps| {
      assert s.offered + [] == s.offered;
    } else {
      match steps[i]
      case Subscribe(_) =>
        SubscriberDelivery(h.Step(steps[i]), steps, i + 1, s);
      case Deliver(e, broken) =>
        KeptMembers(h.streamers, e, broken, s);
        var t := s.(offered := s.offered + [e]);
        if Accepted(s.id, e, broken) {
          SubscriberDelivery(h.Step(steps[i]), steps, i + 1, t);
          assert s.offered + ([e] + Due(steps, i + 1, s.id)) == t.offered + Due(steps, i + 1, s.id);
        } else {
          GoneStays(h.Step(steps[i]), steps, i + 1, t);
          assert Due(steps, i, s.id) == [e];
        }
    }
  }

  /** A subscriber admitted to a running hub gets exactly the events from then on. */
  lemma NewSubscriberDelivery(h: HubView, steps: seq<HubStep>)
    requires Sane(h) && steps != [] && steps[0] == Subscribe(true) && |h.streamers| < 4
    ensures var id, end := h.next, HubAfter(h, steps, 0);
            var t := Stream(id, Due(steps, 1, id));
            && Sane(end)
            && (if Survives(steps, 1, id) then t in end.streamers else t in end.gone)
            && forall u :: u in end.streamers && u.id == id ==> u == t
  {
    var q := h.Step(steps[0]);
    var s := Stream(h.next, []);
    assert s in q.streamers by { assert q.streamers[|h.streamers|] == s; }
    SaneAfter(h, steps, 0);
    SubscriberDelivery(q, steps, 1, s);
    assert [] + Due(steps, 1, h.next) == Due(steps, 1, h.next);
    UniqueStream(HubAfter(h, steps, 0), Stream(h.next, Due(steps, 1, h.next)));
  }

  /** A stream that is listed, or dropped, is the only listed one with its identity. */
  lemma UniqueStream(h: HubView, t: Stream)
    requires Sane(h) && (t in h.streamers || t in h.gone)
    ensures forall u :: u in h.streamers && u.id == t.id ==> u == t
  {
    if t in h.gone {
      var j :| 0 <= j < |h.gone| && h.gone[j] == t;
      assert Listed(h.gone, t.id);
    }
    forall i | 0 <= i < |h.streamers| && h.streamers[i].id == t.id ensures h.streamers[i] == t {
    }
  }

  function Reverse(streams: seq<Stream>): seq<Stream> {
    if streams == [] then [] else [streams[|streams| - 1]] + Reverse(streams[..|streams| - 1])
  }

  /** Every delivery that nobody fails turns the list round. */
  lemma {:induction false} DeliveryReverses(streams: seq<Stream>, e: HubEvent, broken: set<nat>)
    requires forall s :: s in streams ==> Accepted(s.id, e, broken)
    ensures Kept(streams, e, broken)
         == Reverse(seq(|streams|, i requires 0 <= i < |streams| =>
                          streams[i].(offered := streams[i].offered + [e])))
  {
    var all := seq(|streams|, i requires 0 <= i < |streams| =>
                     streams[i].(offered := streams[i].offered + [e]));
    if streams == [] {
    } else {
      var n := |streams| - 1;
      DeliveryReverses(streams[..n], e, broken);
      assert all[..n] == seq(n, i requires 0 <= i < n =>
                               streams[..n][i].(offered := streams[..n][i].offered + [e]));
    }
  }
}
