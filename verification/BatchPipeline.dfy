/** `_scan_many`: the batch worker hands frames to the consuming generator through a
    queue of one place.  The capture adapter starts a frame only after a non-stopping
    acknowledgement and may fail at any point; the consumer may stop or abandon the
    batch at any point. */
module BatchPipeline {
  import opened Sublists
  import opened Wrappers

  type Slot = int

  datatype Ack = Stop | Eject | ContinueHold | Continue

  datatype Marker = Complete | Stopped | Failed

  datatype Item = FrameItem(slot: Slot) | Terminal(marker: Marker)

  /** The frame at index `i` of the requested slots, or the end of the session. */
  datatype Worker =
    | Capturing(i: nat)
    | Putting(i: nat)          // finalised; reporting progress, then waiting for room in the queue
    | Acking(i: nat)
    | Ending(marker: Marker)   // about to put the terminal marker
    | Done

  datatype Consumer = Waiting | Parked | Draining | Ended

  /** What the batch was called with. */
  datatype Request = Request(slots: seq<Slot>, ejectAfter: bool, held: bool)

  /** `finalised`, `yielded`, `discarded`, `dropped`, `acks`, `markers`, `sent`, `seen` and
      `stopMark` are history: `dropped` is the frame whose progress callback raised, `sent` the
      last terminal marker put, `seen` the one the consumer ended with, `stopMark` how many
      acknowledgements and finalised frames preceded the stop. */
  datatype State = State(
    worker: Worker,
    queue: Option<Item>,
    consumer: Consumer,
    stop: bool,
    finalised: seq<Slot>,
    yielded: seq<Slot>,
    discarded: seq<Slot>,
    dropped: seq<Slot>,
    acks: seq<Ack>,
    markers: nat,
    sent: Option<Marker>,
    seen: Option<Marker>,
    stopMark: (nat, nat))

  predicate Valid(q: Request) {
    && |q.slots| > 0
    && forall i, j | 0 <= i < j < |q.slots| :: q.slots[i] < q.slots[j]
  }

  const INITIAL := State(Capturing(0), None, Waiting, false, [], [], [], [], [], 0, None, None, (0, 0))

  /** `terminal_action`. */
  function TerminalAction(q: Request, stop: bool, slot: Slot): Ack
    requires Valid(q)
  {
    if stop then Stop
    else if slot == q.slots[|q.slots| - 1] && q.ejectAfter then Eject
    else if slot == q.slots[|q.slots| - 1] && q.held then ContinueHold
    else Continue
  }

  datatype Action =
    | FinaliseFrame
    | SkipFrame
    | WorkerPuts
    | WorkerAcks
    | ProgressRaises
    | AdapterFails
    | ConsumerGets
    | ConsumerAsks        // the client calls next again
    | ConsumerAbandons    // GeneratorExit
    | RequestStop

  predicate WorkerOk(q: Request, s: State) {
    match s.worker
    case Capturing(i) => i < |q.slots|
    case Putting(i) => i < |q.slots|
    case Acking(i) => i < |q.slots|
    case _ => true
  }

  predicate Enabled(q: Request, s: State, a: Action) {
    WorkerOk(q, s) &&
    match a
    case FinaliseFrame => s.worker.Capturing?
    case SkipFrame => s.worker.Capturing?
    case WorkerPuts => (s.worker.Putting? || s.worker.Ending?) && s.queue.None?
    case WorkerAcks => s.worker.Acking?
    case ProgressRaises => s.worker.Putting?
    // Also after the last acknowledgement, in an eject that fails for one.
    case AdapterFails => s.worker.Capturing? || s.worker.Acking? || (s.worker.Ending? && !s.worker.marker.Failed?)
    case ConsumerGets => (s.consumer.Waiting? || s.consumer.Draining?) && s.queue.Some?
    case ConsumerAsks => s.consumer.Parked?
    case ConsumerAbandons => s.consumer.Parked?
    case RequestStop => true
  }

  function Halt(s: State): State {
    if s.stop then s else s.(stop := true, stopMark := (|s.acks|, |s.finalised|))
  }

  function Acknowledge(q: Request, s: State, i: nat): State
    requires Valid(q) && i < |q.slots|
  {
    var ack := TerminalAction(q, s.stop, q.slots[i]);
    s.(acks := s.acks + [ack],
       worker := if ack.Stop? then Ending(Stopped)
                 else if i + 1 < |q.slots| then Capturing(i + 1)
                 else Ending(Complete))
  }

  function Apply(q: Request, s: State, a: Action): State
    requires Valid(q) && Enabled(q, s, a)
  {
    match a
    case FinaliseFrame =>
      s.(finalised := s.finalised + [q.slots[s.worker.i]], worker := Putting(s.worker.i))
    case SkipFrame => s.(worker := Acking(s.worker.i))
    case WorkerPuts =>
      (match s.worker
       case Putting(i) => s.(queue := Some(FrameItem(q.slots[i])), worker := Acking(i))
       case Ending(marker) => s.(queue := Some(Terminal(marker)), markers := s.markers + 1, sent := Some(marker), worker := Done)
       case _ => s)
    case WorkerAcks => Acknowledge(q, s, s.worker.i)
    case ProgressRaises => s.(dropped := [q.slots[s.worker.i]], worker := Ending(Failed))
    case AdapterFails => s.(worker := Ending(Failed))
    case ConsumerGets =>
      (match s.queue.value
       case FrameItem(slot) =>
         if s.consumer.Waiting? then s.(queue := None, yielded := s.yielded + [slot], consumer := Parked)
         else s.(queue := None, discarded := s.discarded + [slot])
       case Terminal(marker) => s.(queue := None, seen := Some(marker), consumer := Ended))
    case ConsumerAsks => s.(consumer := Waiting)
    case ConsumerAbandons => Halt(s).(consumer := Draining)
    case RequestStop => Halt(s)
  }

  // -- the invariant --------------------------------------------------------------

  function Queued(s: State): seq<Slot> {
    if s.queue.Some? && s.queue.value.FrameItem? then [s.queue.value.slot] else []
  }

  function InHand(q: Request, s: State): seq<Slot>
    requires WorkerOk(q, s)
  {
    if s.worker.Putting? then [q.slots[s.worker.i]] else []
  }

  /** How many requested slots the worker is done with. */
  function Passed(q: Request, s: State): nat
    requires WorkerOk(q, s)
  {
    match s.worker
    case Capturing(i) => i
    case Putting(i) => i + 1
    case Acking(i) => i + 1
    case _ => |q.slots|
  }

  ghost predicate Inv(q: Request, s: State)
    requires Valid(q)
  {
    && WorkerOk(q, s)
    && s.finalised == s.yielded + s.discarded + Queued(s) + InHand(q, s) + s.dropped
    && |s.dropped| <= 1
    && (s.dropped != [] ==> s.worker.Ending? || s.worker.Done?)
    && Sublist(s.finalised, q.slots[..Passed(q, s)])
    && (s.discarded != [] ==> s.consumer in {Draining, Ended})
    && (s.consumer.Draining? ==> s.stop)
    && s.markers == (if s.worker.Done? then 1 else 0)
    && (s.queue.Some? && s.queue.value.Terminal? ==> s.worker.Done? && !s.consumer.Ended?)
    && (s.worker.Done? && !s.consumer.Ended? ==> s.queue.Some? && s.queue.value.Terminal?)
    && (s.consumer.Ended? ==> s.worker.Done? && s.queue.None?)
    && (s.stop ==>
          && s.stopMark.0 <= |s.acks| && s.stopMark.1 <= |s.finalised|
          && (forall n | s.stopMark.0 <= n < |s.acks| :: s.acks[n] == Stop)
          && |s.finalised| <= s.stopMark.1 + (if s.worker.Capturing? then 0 else 1)
          && (|s.acks| > s.stopMark.0 ==> s.worker.Ending? || s.worker.Done?))
  }

  lemma FinaliseKeepsInv(q: Request, s: State, a: Action)
    requires Valid(q) && Inv(q, s) && Enabled(q, s, a) && a.FinaliseFrame?
    ensures Inv(q, Apply(q, s, a))
  {
    var n := Passed(q, s);
    SublistSnoc(s.finalised, q.slots[..n], q.slots[n]);
    assert q.slots[..n] + [q.slots[n]] == q.slots[..n + 1];
  }

  lemma WorkerKeepsInv(q: Request, s: State, a: Action)
    requires Valid(q) && Inv(q, s) && Enabled(q, s, a) && !a.FinaliseFrame?
    requires !a.ConsumerGets? && !a.ConsumerAsks? && !a.ConsumerAbandons? && !a.RequestStop?
    ensures Inv(q, Apply(q, s, a))
  {
    SublistGrows(s.finalised, q.slots, Passed(q, s), Passed(q, Apply(q, s, a)));
  }

  lemma TakeQueued(yielded: seq<Slot>, discarded: seq<Slot>, slot: Slot, hand: seq<Slot>, dropped: seq<Slot>)
    ensures yielded + discarded + [slot] + hand + dropped == yielded + (discarded + [slot]) + [] + hand + dropped
    ensures discarded == [] ==>
      yielded + discarded + [slot] + hand + dropped == (yielded + [slot]) + discarded + [] + hand + dropped
  {
  }

  lemma GetKeepsInv(q: Request, s: State, a: Action)
    requires Valid(q) && Inv(q, s) && Enabled(q, s, a) && a.ConsumerGets?
    ensures Inv(q, Apply(q, s, a))
  {
    if s.queue.value.FrameItem? {
      TakeQueued(s.yielded, s.discarded, s.queue.value.slot, InHand(q, s), s.dropped);
    }
  }

  lemma ConsumerKeepsInv(q: Request, s: State, a: Action)
    requires Valid(q) && Inv(q, s) && Enabled(q, s, a)
    requires a.ConsumerAsks? || a.ConsumerAbandons? || a.RequestStop?
    ensures Inv(q, Apply(q, s, a))
  {
  }

  lemma StepKeepsInv(q: Request, s: State, a: Action)
    requires Valid(q) && Inv(q, s) && Enabled(q, s, a)
    ensures Inv(q, Apply(q, s, a))
  {
    if a.FinaliseFrame? {
      FinaliseKeepsInv(q, s, a);
    } else if a.ConsumerGets? {
      GetKeepsInv(q, s, a);
    } else if a.ConsumerAsks? || a.ConsumerAbandons? || a.RequestStop? {
      ConsumerKeepsInv(q, s, a);
    } else {
      WorkerKeepsInv(q, s, a);
    }
  }

  // -- whole batches ----------------------------------------------------------------

  ghost predicate Run(q: Request, states: seq<State>, actions: seq<Action>)
    requires Valid(q)
  {
    && |states| == |actions| + 1
    && states[0] == INITIAL
    && forall i | 0 <= i < |actions| ::
         Enabled(q, states[i], actions[i]) && states[i + 1] == Apply(q, states[i], actions[i])
  }

  lemma {:induction false} RunInv(q: Request, states: seq<State>, actions: seq<Action>, k: nat)
    requires Valid(q) && Run(q, states, actions) && k <= |actions|
    ensures Inv(q, states[k])
  {
    if k == 0 {
      assert q.slots[..0] == [];
    } else {
      RunInv(q, states, actions, k - 1);
      assert states[k - 1 + 1] == Apply(q, states[k - 1], actions[k - 1]);
      StepKeepsInv(q, states[k - 1], actions[k - 1]);
    }
  }

  /** Frames reach the client in requested order and none is skipped over: what was
      yielded is a prefix of what was finalised, at most two frames are ahead of the
      consumer, and exactly one terminal marker follows the last frame. */
  lemma FramesArriveInOrder(q: Request, states: seq<State>, actions: seq<Action>, k: nat)
    requires Valid(q) && Run(q, states, actions) && k <= |actions|
    ensures var s := states[k];
      && s.yielded <= s.finalised
      && Sublist(s.finalised, q.slots)
      && |s.finalised| - |s.yielded + s.discarded| <= 2
      && |s.dropped| <= 1
      && s.markers <= 1
      && (s.markers == 1 <==> s.worker.Done?)
      && (s.consumer.Ended? ==> s.markers == 1 && s.finalised == s.yielded + s.discarded + s.dropped)
  {
    RunInv(q, states, actions, k);
    var s := states[k];
    SublistGrows(s.finalised, q.slots, Passed(q, s), |q.slots|);
    assert q.slots[..|q.slots|] == q.slots;
  }

  /** Until the client abandons the batch nothing it finalised is thrown away. */
  lemma NothingDiscardedUnlessAbandoned(q: Request, states: seq<State>, actions: seq<Action>, k: nat)
    requires Valid(q) && Run(q, states, actions) && k <= |actions|
    requires states[k].consumer in {Waiting, Parked}
    ensures states[k].discarded == []
    ensures |states[k].finalised| - |states[k].yielded| <= 2
  {
    RunInv(q, states, actions, k);
  }

  /** Once a stop is requested every later acknowledgement is STOP, so no EJECT and no
      CONTINUE_HOLD is chosen, and at most one further frame is finalised. */
  lemma StopTakesEffect(q: Request, states: seq<State>, actions: seq<Action>, i: nat, j: nat)
    requires Valid(q) && Run(q, states, actions) && i <= j <= |actions|
    requires states[i].stop
    ensures states[j].stop && states[j].stopMark == states[i].stopMark
    ensures states[i].acks <= states[j].acks
    ensures forall n | |states[i].acks| <= n < |states[j].acks| :: states[j].acks[n] == Stop
    ensures |states[j].finalised| <= |states[i].finalised| + 1
  {
    StopLasts(q, states, actions, i, j);
    RunInv(q, states, actions, i);
    RunInv(q, states, actions, j);
  }

  lemma {:induction false} StopLasts(q: Request, states: seq<State>, actions: seq<Action>, i: nat, j: nat)
    requires Valid(q) && Run(q, states, actions) && i <= j <= |actions|
    requires states[i].stop
    ensures states[j].stop && states[j].stopMark == states[i].stopMark
    ensures states[i].acks <= states[j].acks && states[i].finalised <= states[j].finalised
    decreases j
  {
    if i < j {
      StopLasts(q, states, actions, i, j - 1);
      var s, a := states[j - 1], actions[j - 1];
      assert states[j - 1 + 1] == Apply(q, s, a);
      assert Apply(q, s, a).stop;
    }
  }

  // -- acknowledgements -----------------------------------------------------------------

  predicate InFlight(w: Worker) {
    w.Capturing? || w.Putting? || w.Acking?
  }

  /** One acknowledgement per slot the worker is done with; a stop is the last of them. */
  ghost predicate AcksOk(q: Request, s: State)
    requires Valid(q)
  {
    && |s.acks| <= |q.slots|
    && (InFlight(s.worker) ==> |s.acks| == s.worker.i)
    && (forall n | 0 <= n < |s.acks| && s.acks[n] == Stop ::
          n == |s.acks| - 1 && s.stop && !InFlight(s.worker))
    && (forall n | 0 <= n < |s.acks| && s.acks[n] != Stop :: s.acks[n] == TerminalAction(q, false, q.slots[n]))
  }

  lemma StepKeepsAcks(q: Request, s: State, a: Action)
    requires Valid(q) && Enabled(q, s, a) && AcksOk(q, s)
    ensures AcksOk(q, Apply(q, s, a))
  {
  }

  lemma {:induction false} RunAcks(q: Request, states: seq<State>, actions: seq<Action>, k: nat)
    requires Valid(q) && Run(q, states, actions) && k <= |actions|
    ensures AcksOk(q, states[k])
  {
    if k > 0 {
      RunAcks(q, states, actions, k - 1);
      assert states[k - 1 + 1] == Apply(q, states[k - 1], actions[k - 1]);
      StepKeepsAcks(q, states[k - 1], actions[k - 1]);
    }
  }

  /** Every slot is acknowledged at most once and in order.  Unless a stop cuts the batch
      off, only the last slot ejects or holds: it ejects if asked to, else holds if the
      batch resumed a held child; a stop is acknowledged once and ends the batch. */
  lemma AcknowledgementsFollowTheRequest(q: Request, states: seq<State>, actions: seq<Action>, k: nat, n: nat)
    requires Valid(q) && Run(q, states, actions) && k <= |actions| && n < |states[k].acks|
    ensures var s := states[k]; var last := n == |q.slots| - 1;
      && |s.acks| <= |q.slots|
      && (s.acks[n] == Stop ==> n == |s.acks| - 1 && s.stop && !InFlight(s.worker))
      && (s.acks[n] == Eject ==> last && q.ejectAfter)
      && (s.acks[n] == ContinueHold ==> last && q.held && !q.ejectAfter)
      && (s.acks[n] == Continue ==> !last || (!q.ejectAfter && !q.held))
  {
    RunAcks(q, states, actions, k);
  }

  // -- how the batch ends ------------------------------------------------------------------

  predicate Fails(a: Action) {
    a.AdapterFails? || a.ProgressRaises?
  }

  ghost predicate HasFailed(actions: seq<Action>, k: nat)
    requires k <= |actions|
  {
    exists i | 0 <= i < k :: Fails(actions[i])
  }

  /** The marker is right for a batch that has or has not failed. */
  predicate Fitting(q: Request, s: State, marker: Marker, failed: bool) {
    match marker
    case Failed => failed
    case Stopped => !failed && s.acks != [] && s.acks[|s.acks| - 1] == Stop
    case Complete => !failed && |s.acks| == |q.slots| && Stop !in s.acks
  }

  /** The ending in hand, the one on its way and the one that arrived. */
  predicate EndsOk(q: Request, s: State, failed: bool) {
    && (InFlight(s.worker) ==> !failed && Stop !in s.acks && |s.acks| == s.worker.i && s.worker.i < |q.slots|)
    && (s.worker.Ending? ==> Fitting(q, s, s.worker.marker, failed))
    && (s.worker.Done? <==> s.sent.Some?)
    && (s.sent.Some? ==> Fitting(q, s, s.sent.value, failed))
    && (s.queue.Some? && s.queue.value.Terminal? ==> s.sent == Some(s.queue.value.marker))
    && (s.seen.Some? ==> s.seen == s.sent)
    && (s.consumer.Ended? <==> s.seen.Some?)
  }

  lemma StepKeepsEnds(q: Request, s: State, a: Action, failed: bool)
    requires Valid(q) && Enabled(q, s, a) && EndsOk(q, s, failed)
    requires s.consumer.Ended? ==> s.worker.Done? && s.queue.None?
    ensures EndsOk(q, Apply(q, s, a), failed || Fails(a))
  {
  }

  lemma {:induction false} RunEnds(q: Request, states: seq<State>, actions: seq<Action>, k: nat)
    requires Valid(q) && Run(q, states, actions) && k <= |actions|
    ensures |states| == |actions| + 1 && EndsOk(q, states[k], HasFailed(actions, k))
  {
    if k > 0 {
      RunEnds(q, states, actions, k - 1);
      RunInv(q, states, actions, k - 1);
      assert states[k - 1 + 1] == Apply(q, states[k - 1], actions[k - 1]);
      StepKeepsEnds(q, states[k - 1], actions[k - 1], HasFailed(actions, k - 1));
      assert HasFailed(actions, k) <==> HasFailed(actions, k - 1) || Fails(actions[k - 1]);
    }
  }

  /** Once the worker is done, the marker it sent says how the batch ended: failed exactly
      when the adapter or a progress callback failed, else stopped exactly when the last
      acknowledgement was STOP, else complete, every slot acknowledged; and that marker
      is the one the consumer ends with. */
  lemma MarkerTellsTheEnd(q: Request, states: seq<State>, actions: seq<Action>, k: nat)
    requires Valid(q) && Run(q, states, actions) && k <= |actions|
    ensures var s := states[k];
      && (s.worker.Done? <==> s.sent.Some?)
      && (s.worker.Done? ==>
            var failed := exists i | 0 <= i < k :: actions[i].AdapterFails? || actions[i].ProgressRaises?;
            var stopped := s.acks != [] && s.acks[|s.acks| - 1] == Stop;
            && (s.sent.value.Failed? <==> failed)
            && (s.sent.value.Stopped? <==> !failed && stopped)
            && (s.sent.value.Complete? <==> !failed && !stopped)
            && (s.sent.value.Complete? ==> |s.acks| == |q.slots| && Stop !in s.acks))
      && (s.consumer.Ended? <==> s.seen.Some?)
      && (s.consumer.Ended? ==> s.seen == s.sent)
  {
    RunEnds(q, states, actions, k);
    assert HasFailed(actions, k) <==> exists i | 0 <= i < k :: actions[i].AdapterFails? || actions[i].ProgressRaises?;
  }

  // -- the abandonment drain ----------------------------------------------------------

  /** Worker and consumer steps an abandoned batch can still take. */
  function Remaining(q: Request, s: State): nat
    requires WorkerOk(q, s)
  {
    (match s.worker
     case Capturing(i) => 6 + 5 * (|q.slots| - i)
     case Putting(i) => 5 + 5 * (|q.slots| - i)
     case Acking(i) => 3 + 5 * (|q.slots| - i)
     case Ending(marker) => if marker.Failed? then 2 else 3
     case Done => 0)
    + (if s.queue.Some? then 1 else 0)
  }

  /** While the drain runs, worker or consumer can always take a step: the producer is
      never left blocked on the full queue. */
  lemma DrainNeverBlocks(q: Request, s: State)
    requires Valid(q) && Inv(q, s) && s.consumer.Draining?
    ensures exists a | a != RequestStop :: Enabled(q, s, a)
  {
    if s.queue.Some? { assert Enabled(q, s, ConsumerGets); }
    else if s.worker.Putting? || s.worker.Ending? { assert Enabled(q, s, WorkerPuts); }
    else if s.worker.Capturing? { assert Enabled(q, s, FinaliseFrame); }
    else { assert Enabled(q, s, WorkerAcks); }
  }

  /** And every such step brings the end nearer. */
  lemma DrainStep(q: Request, s: State, a: Action)
    requires Valid(q) && Inv(q, s) && s.consumer.Draining?
    requires a != RequestStop && Enabled(q, s, a)
    ensures var s' := Apply(q, s, a);
      && Inv(q, s')
      && Remaining(q, s') < Remaining(q, s)
      && s'.consumer in {Draining, Ended}
  {
    StepKeepsInv(q, s, a);
  }

  /** So every run of an abandoned batch that goes on long enough ends with the worker
      done and the queue empty. */
  lemma {:induction false} DrainEnds(q: Request, s: State, trace: seq<Action>) returns (s': State)
    requires Valid(q) && Inv(q, s) && s.consumer.Draining?
    requires Schedule(q, s, trace) && |trace| >= Remaining(q, s)
    ensures s'.consumer.Ended? && s'.worker.Done? && s'.queue.None? && Inv(q, s')
    decreases |trace|
  {
    if trace == [] {
      assert false;
    } else {
      DrainStep(q, s, trace[0]);
      var s1 := Apply(q, s, trace[0]);
      if s1.consumer.Ended? { s' := s1; } else { s' := DrainEnds(q, s1, trace[1..]); }
    }
  }

  /** A schedule of worker and consumer steps, cut off when the consumer has ended. */
  ghost predicate Schedule(q: Request, s: State, trace: seq<Action>)
    requires Valid(q)
    decreases |trace|
  {
    trace != [] && !s.consumer.Ended? ==>
      && trace[0] != RequestStop
      && Enabled(q, s, trace[0])
      && Schedule(q, Apply(q, s, trace[0]), trace[1..])
  }
}
