/** The held capture child as a token.

    A child parked at its hold boundary is passed between `_held_session`,
    `_pending_held_session`, the public call that is using it and the batch worker.
    One client thread calls the public methods one after the other; only the batch
    worker runs beside it, and `release` and `eject` read and write `_held_session` in two
    steps it may come between.  What the capture adapter answers is part of the action.
    `HeldLoss` shows that the side conditions on `next` and `release` are exact. */
module HeldToken {
  import opened Wrappers

  type Token = int

  /** How a token's life ended. */
  datatype Fate = Released | TornDown | Ejected | Dispatched | Replaced | Lost | Dead

  /** Why `_held_session` is read and then written None: by `release`, by `eject`, by a
      superseding preview or by the last part of `Roll.close`. */
  datatype Purpose = Releasing | Ejecting | Superseding | ClosingRoll

  datatype Client =
    | Idle
    | Previewing                        // before it reads the old reservation
    | PreviewReading                    // begin_held_preview is running
    | PreviewChecking(got: Option<Token>)
    | Borrowing(child: Token, metering: bool)   // film_present or solve_exposure is using it
    | Clearing(read: Option<Token>, why: Purpose)   // has read `_held_session`, not yet written it
    | Ending(child: Token, why: Purpose)            // the adapter is ending the child
    | Consuming                         // inside next
    | Draining                          // inside the iterator's close
    | Finishing                         // inside _batch_finished

  datatype Batch = Batch(reserved: Option<Token>, started: bool, ended: bool, uncertain: bool)

  /** `Starting` has not run its first block; `Running` owns what it resumed. */
  datatype Worker = NoWorker | Starting | Running(child: Option<Token>) | Reporting | Exited

  datatype State = State(
    held: Option<Token>,
    pending: Option<Token>,
    client: Client,
    batch: Option<Batch>,
    worker: Worker,
    stop: bool,
    closing: bool,
    closed: bool,
    minted: set<Token>,
    fates: map<Token, Fate>)

  const INITIAL := State(None, None, Idle, None, NoWorker, false, false, false, {}, map[])

  predicate WorkerAlive(s: State) {
    !s.worker.NoWorker? && !s.worker.Exited?
  }

  /** The worker may still store a child in `_held_session`. */
  predicate Storing(s: State) {
    s.worker.Starting? || s.worker.Running?
  }

  // -- actions ------------------------------------------------------------------

  datatype Action =
    // preview
    | CallPreview
    | PreviewRefused
    | PreviewSupersedes
    | PreviewRaises
    | PreviewStarted(child: Option<Token>)
    | PreviewAccepted
    | PreviewRejected
    // film_present and solve_exposure
    | CallBorrow(metering: bool)
    | BorrowReplaced(again: Option<Token>)
    | BorrowRestored
    | BorrowLost
    // release and eject; neither reads nor writes under the lock
    | CallRelease
    | CallEject
    | ClearHeld(usable: bool)           // for every purpose
    | EndDone
    // scan_many and its iterator
    | CallScanMany
    | CallNext
    | CallNextFails                     // the generator raises before it starts its worker
    | CallIteratorClose
    | CallSafeStop
    | FrameYielded
    | WorkerJoined
    | JoinTimedOut
    | FinishTeardown(exited: bool)
    | FinishPlain
    // Roll.close
    | CallRollClose
    | RollCloseReleases
    // the worker
    | WorkerDispatches(usable: bool)
    | WorkerFails
    | WorkerReturns(again: Option<Token>)
    | WorkerExits

  predicate Fresh(s: State, o: Option<Token>) {
    o.Some? ==> o.value !in s.minted
  }

  predicate Enabled(s: State, a: Action) {
    var idle := s.client.Idle? && !s.closed && !s.closing;
    match a
    case CallPreview => idle && s.batch.None?
    case PreviewRefused => s.client.Previewing?
    case PreviewSupersedes => s.client.Previewing?
    case PreviewRaises => s.client.PreviewReading?
    case PreviewStarted(child) => s.client.PreviewReading? && Fresh(s, child)
    case PreviewAccepted => s.client.PreviewChecking?
    case PreviewRejected => s.client.PreviewChecking?
    case CallBorrow(metering) => idle && s.batch.None? && s.held.Some? && (metering ==> !s.stop)
    case BorrowReplaced(again) => s.client.Borrowing? && Fresh(s, again)
    case BorrowRestored => s.client.Borrowing?
    case BorrowLost => s.client.Borrowing?
    case CallRelease => idle
    // Without a usable child eject raises before it writes.
    case CallEject => idle && s.held.Some?
    case ClearHeld(usable) => s.client.Clearing? && (s.client.why.Ejecting? ==> usable)
    case EndDone => s.client.Ending?
    case CallScanMany => idle && s.batch.None?
    // One worker that may still store a child at a time; `NextIsAlwaysEnabled`.
    case CallNext =>
      && idle && s.batch.Some?
      && (s.batch.value.started || s.batch.value.ended || s.stop || !Storing(s))
    case CallNextFails => idle && s.batch.Some? && !s.batch.value.started && !s.batch.value.ended && !s.stop
    case CallIteratorClose => idle && s.batch.Some?
    case CallSafeStop => true
    case FrameYielded => s.client.Consuming?
    // The generator ends only behind a join of its worker.
    case WorkerJoined => (s.client.Consuming? || s.client.Draining?) && s.worker.Exited?
    case JoinTimedOut => (s.client.Consuming? || s.client.Draining?) && WorkerAlive(s)
    case FinishTeardown(_) => s.client.Finishing? && s.pending.Some?
    case FinishPlain => s.client.Finishing?
    case CallRollClose => idle
    case RollCloseReleases => s.client.Idle? && s.closing && s.batch.None?
    case WorkerDispatches(_) => s.worker.Starting?
    case WorkerFails => s.worker.Running?
    case WorkerReturns(again) => s.worker.Running? && Fresh(s, again)
    case WorkerExits => s.worker.Reporting?
  }

  function Mint(s: State, o: Option<Token>): State {
    if o.Some? then s.(minted := s.minted + {o.value}) else s
  }

  function Settle(s: State, o: Option<Token>, fate: Fate): State {
    if o.Some? then s.(fates := s.fates[o.value := fate]) else s
  }

  function FateOf(why: Purpose): Fate {
    if why.Ejecting? then Ejected else Released
  }

  /** Where the client goes on once the old child is dealt with. */
  function Continue(s: State, why: Purpose): State {
    match why
    case Superseding => s.(client := PreviewReading)
    case ClosingRoll => s.(client := Idle, closed := true, closing := false)
    case _ => s.(client := Idle)
  }

  /** `_held_session` is written None whatever it holds by now; the child that was read
      is ended, unless it has exited already. */
  function Clear(s: State, read: Option<Token>, why: Purpose, usable: bool): State {
    var s1 := s.(held := None);
    if read.None? then Continue(s1, why)
    else if usable then s1.(client := Ending(read.value, why))
    else Continue(Settle(s1, read, Dead), why)
  }

  /** A `DeviceBusy` out of the iterator: the batch stays, and so does a closing Roll. */
  function Unconfirmed(s: State): State {
    if s.batch.Some? then
      s.(batch := Some(s.batch.value.(uncertain := true)), client := Idle, closing := false)
    else s
  }

  /** Entering the iterator's `close`. */
  function StartClose(s: State): State {
    if s.batch.None? then s
    else
      var b := s.batch.value;
      if b.uncertain then s.(client := Idle, closing := false)
      else if !b.started || b.ended then
        s.(stop := true, batch := Some(b.(ended := true)), client := Finishing)
      else s.(stop := true, client := Draining)
  }

  function StartNext(s: State): State {
    if s.batch.None? then s
    else
      var b := s.batch.value;
      if b.ended then s.(client := Finishing)                       // StopIteration
      else if b.started then s.(client := Consuming)
      else if s.stop then s.(batch := Some(b.(ended := true)), client := Finishing)
      else s.(batch := Some(b.(started := true)), worker := Starting, client := Consuming)
  }

  function Apply(s: State, a: Action): State
    requires Enabled(s, a)
  {
    match a
    case CallPreview => s.(client := Previewing)
    case PreviewRefused => s.(client := Idle)
    case PreviewSupersedes => s.(client := Clearing(s.held, Superseding))
    case PreviewRaises => s.(client := Idle)
    // An unusable child has exited and is not stored.
    case PreviewStarted(child) =>
      Mint(s, child).(held := if child.Some? then child else s.held, client := PreviewChecking(child))
    case PreviewAccepted => s.(client := Idle)
    case PreviewRejected =>
      var got := s.client.got;
      Settle(s, got, TornDown).(held := if s.held == got then None else s.held, client := Idle)
    case CallBorrow(metering) => s.(held := None, client := Borrowing(s.held.value, metering))
    case BorrowReplaced(again) =>
      var s1 := Settle(Mint(s, again), Some(s.client.child), Replaced);
      if s.stop && s.client.metering then Settle(s1, again, Released).(client := Idle)
      else s1.(held := again, client := Idle)
    case BorrowRestored => s.(held := Some(s.client.child), client := Idle)
    case BorrowLost => Settle(s, Some(s.client.child), Lost).(client := Idle)
    case CallRelease => s.(client := Clearing(s.held, Releasing))
    case CallEject => s.(client := Clearing(s.held, Ejecting))
    case ClearHeld(usable) => Clear(s, s.client.read, s.client.why, usable)
    case EndDone => Continue(Settle(s, Some(s.client.child), FateOf(s.client.why)), s.client.why)
    case CallScanMany =>
      s.(batch := Some(Batch(s.held, false, false, false)), pending := s.held, held := None, stop := false)
    case CallNext => StartNext(s)
    case CallNextFails => s.(batch := Some(s.batch.value.(ended := true)), client := Finishing)
    case CallIteratorClose => StartClose(s)
    case CallSafeStop => s.(stop := true)
    case FrameYielded => s.(client := Idle)
    case WorkerJoined =>
      if s.batch.None? then s
      else s.(batch := Some(s.batch.value.(ended := true)), client := Finishing)
    case JoinTimedOut =>
      if s.batch.None? then s
      else Unconfirmed(s.(batch := Some(s.batch.value.(ended := true))))
    case FinishTeardown(exited) =>
      if exited then
        Settle(s, s.pending, TornDown).(pending := None, batch := None, client := Idle)
      else Unconfirmed(s)
    // No pending child, or one that is no longer usable.
    case FinishPlain =>
      Settle(s, s.pending, Dead).(pending := None, batch := None, client := Idle)
    case CallRollClose => if s.batch.Some? then StartClose(s.(closing := true, stop := true))
                          else s.(closing := true, stop := true)
    case RollCloseReleases => s.(client := Clearing(s.held, ClosingRoll))
    // A child that is no longer usable is dropped and a fresh session started instead.
    case WorkerDispatches(usable) =>
      (if usable || s.pending.None? then s.(pending := None, worker := Running(s.pending))
       else Settle(s, s.pending, Dead).(pending := None, worker := Running(None)))
    case WorkerFails => Settle(s, s.worker.child, Dispatched).(worker := Reporting)
    case WorkerReturns(again) =>
      var s1 := Settle(Mint(s, again), s.worker.child, Dispatched).(worker := Reporting);
      if again.Some? then s1.(held := again) else s1
    case WorkerExits => s.(worker := Exited)
  }

  // -- conservation -------------------------------------------------------------

  function Count(o: Option<Token>, k: Token): nat {
    if o == Some(k) then 1 else 0
  }

  function ClientChild(c: Client): Option<Token> {
    match c
    case Borrowing(k, _) => Some(k)
    case Ending(k, _) => Some(k)
    case _ => None
  }

  function WorkerChild(w: Worker): Option<Token> {
    if w.Running? then w.child else None
  }

  /** In how many places a token is owned. */
  function Owners(s: State, k: Token): nat {
    Count(s.held, k) + Count(s.pending, k) + Count(ClientChild(s.client), k) + Count(WorkerChild(s.worker), k)
  }

  function Size(o: Option<Token>): nat {
    if o.Some? then 1 else 0
  }

  /** How many children are alive in all places together. */
  function Alive(s: State): nat {
    Size(s.held) + Size(s.pending) + Size(ClientChild(s.client)) + Size(WorkerChild(s.worker))
  }

  predicate Kept(s: State, k: Token) {
    Owners(s, k) + (if k in s.fates then 1 else 0) == (if k in s.minted then 1 else 0)
  }

  /** Every token handed out has exactly one owner or exactly one fate. */
  ghost predicate Linear(s: State) {
    forall k :: Kept(s, k)
  }

  predicate BatchClient(c: Client) {
    c.Consuming? || c.Draining? || c.Finishing?
  }

  predicate PreviewClient(c: Client) {
    c.Previewing? || c.PreviewReading? || c.PreviewChecking? || c.Borrowing?
    || (c.Clearing? && (c.why.Superseding? || c.why.ClosingRoll?))
    || (c.Ending? && (c.why.Superseding? || c.why.ClosingRoll?))
  }

  /** What holds while `_held_session` is read, written and its child ended. */
  predicate EndingOrdered(s: State) {
    && (s.client.Clearing? ==> s.held == s.client.read && (s.client.why.Ejecting? ==> s.held.Some?))
    && (s.client.Clearing? && s.held.Some? ==> s.pending.None? && !Storing(s))
    && (s.client.Ending? ==> s.held.None? && s.pending.None? && !Storing(s))
    && (s.client.Clearing? || s.client.Ending? ==> (s.closing <==> s.client.why.ClosingRoll?))
  }

  /** The shape of reachable states. */
  predicate Ordered(s: State) {
    && (s.pending.Some? ==> s.batch.Some? && s.batch.value.reserved == s.pending)
    && (BatchClient(s.client) ==> s.batch.Some?)
    && (PreviewClient(s.client) ==> s.batch.None?)
    && (s.client.PreviewReading? || s.client.Borrowing? ==> s.held.None?)
    && (s.client.PreviewChecking? ==> s.held == s.client.got)
    && EndingOrdered(s)
    && (Storing(s) ==> s.batch.Some? && s.batch.value.started && s.held.None?)
    && (s.client.Finishing? ==> !Storing(s) && s.batch.value.ended)
    && (s.client.Consuming? || s.client.Draining? ==>
          s.batch.value.started && !s.batch.value.ended && (WorkerAlive(s) || s.worker.Exited?))
    && (s.batch.Some? && s.batch.value.ended && Storing(s) ==> s.batch.value.uncertain)
    && (s.batch.Some? && !s.batch.value.started ==> s.held.None?)
    && (s.batch.Some? && s.batch.value.started && !s.worker.Starting? ==> s.pending.None?)
    && (s.batch.Some? && s.batch.value.started ==> !s.worker.NoWorker?)
    && (s.closing ==>
          && !s.closed
          && (s.client.Draining? || s.client.Finishing?
              || (s.batch.None? && (s.client.Idle? || s.client.Clearing? || s.client.Ending?))))
    && (s.closed ==> s.held.None? && s.pending.None? && s.batch.None? && s.client.Idle?)
    && (s.batch.Some? && s.batch.value.reserved.Some? ==> Accounted(s, s.batch.value.reserved.value))
  }

  /** The token a batch was reserved with is still with the batch or has met its end. */
  predicate Accounted(s: State, k: Token) {
    || s.pending == Some(k)
    || WorkerChild(s.worker) == Some(k)
    || (k in s.fates && s.fates[k] in {Dispatched, Dead, TornDown})
  }

  /** A `release` in flight has read None, and the worker may still store a child that
      the release then overwrites. */
  predicate AtRisk(s: State) {
    s.client.Clearing? && s.client.read.None? && Storing(s)
  }

  ghost predicate Inv(s: State) {
    Linear(s) && Ordered(s) && !AtRisk(s)
  }

  /** The calls that break the discipline, both beside a worker that may still store a
      child: `next` on an iterator that has ended without its worker's confirmed death,
      and `release`. */
  predicate Careless(s: State, a: Action) {
    Storing(s) && (a.CallRelease? || (a.CallNext? && s.batch.Some? && s.batch.value.ended))
  }

  predicate OfBatch(a: Action) {
    a.CallScanMany? || a.CallNext? || a.CallNextFails? || a.CallIteratorClose? || a.FrameYielded? || a.WorkerJoined?
    || a.JoinTimedOut? || a.FinishTeardown? || a.FinishPlain? || a.CallRollClose?
  }

  predicate OfWorker(a: Action) {
    a.WorkerDispatches? || a.WorkerFails? || a.WorkerReturns? || a.WorkerExits?
  }

  predicate OfPreview(a: Action) {
    a.CallPreview? || a.PreviewRefused? || a.PreviewSupersedes? || a.PreviewRaises? || a.PreviewStarted?
    || a.PreviewAccepted? || a.PreviewRejected?
  }

  predicate OfBorrow(a: Action) {
    a.CallBorrow? || a.BorrowReplaced? || a.BorrowRestored? || a.BorrowLost?
  }

  lemma ScanManyKeeps(s: State, k: Token)
    requires Kept(s, k) && Enabled(s, CallScanMany) && s.pending.None?
    ensures Kept(Apply(s, CallScanMany), k)
  {
  }

  lemma NextKeeps(s: State, k: Token)
    requires Kept(s, k) && Enabled(s, CallNext) && s.batch.Some?
    requires !s.batch.value.started && !s.batch.value.ended ==> !Storing(s) || s.stop
    ensures Kept(Apply(s, CallNext), k)
  {
  }

  lemma BatchKeeps(s: State, a: Action, k: Token)
    requires Kept(s, k) && Ordered(s) && Enabled(s, a) && OfBatch(a) && !a.CallScanMany? && !a.CallNext?
    ensures Kept(Apply(s, a), k)
  {
  }

  lemma WorkerReturnsKeeps(s: State, a: Action, k: Token)
    requires Kept(s, k) && s.held.None? && Enabled(s, a) && a.WorkerReturns?
    ensures Kept(Apply(s, a), k)
  {
    if a.again == Some(k) {
      assert k !in s.minted && Owners(s, k) == 0;
    }
  }

  lemma WorkerKeeps(s: State, a: Action, k: Token)
    requires Kept(s, k) && Enabled(s, a) && OfWorker(a) && !a.WorkerReturns?
    ensures Kept(Apply(s, a), k)
  {
  }

  lemma PreviewKeeps(s: State, a: Action, k: Token)
    requires Kept(s, k) && Ordered(s) && Enabled(s, a) && OfPreview(a)
    ensures Kept(Apply(s, a), k)
  {
  }

  lemma BorrowKeeps(s: State, a: Action, k: Token)
    requires Kept(s, k) && Ordered(s) && Enabled(s, a) && OfBorrow(a)
    ensures Kept(Apply(s, a), k)
  {
  }

  lemma ContinueOwns(s: State, why: Purpose, k: Token)
    ensures var s' := Continue(s, why); s'.minted == s.minted && s'.fates == s.fates
    ensures Owners(Continue(s, why), k) + Count(ClientChild(s.client), k) == Owners(s, k)
  {
  }

  lemma ClearKeeps(s: State, a: Action, k: Token)
    requires Kept(s, k) && Enabled(s, a) && a.ClearHeld? && s.held == s.client.read
    ensures Kept(Apply(s, a), k)
  {
    hide Continue;
    var s1 := s.(held := None);
    if s.client.read.None? {
      ContinueOwns(s1, s.client.why, k);
    } else if !a.usable {
      ContinueOwns(Settle(s1, s.client.read, Dead), s.client.why, k);
    }
  }

  lemma DoneKeeps(s: State, k: Token)
    requires Kept(s, k) && Enabled(s, EndDone)
    ensures Kept(Apply(s, EndDone), k)
  {
    hide Continue;
    ContinueOwns(Settle(s, Some(s.client.child), FateOf(s.client.why)), s.client.why, k);
  }

  lemma CallsKeep(s: State, a: Action, k: Token)
    requires Kept(s, k) && Enabled(s, a)
    requires a.CallRelease? || a.CallEject? || a.RollCloseReleases? || a.CallSafeStop?
    ensures Kept(Apply(s, a), k)
  {
  }

  /** What the ordering gives the steps above. */
  lemma OrderedMeans(s: State, a: Action)
    requires Ordered(s) && Enabled(s, a)
    ensures a.ClearHeld? ==> s.client.Clearing?
    ensures a.CallScanMany? ==> s.pending.None?
    ensures a.WorkerReturns? ==> s.held.None?
    ensures a.ClearHeld? ==> s.held == s.client.read
    ensures a.CallNext? ==> s.batch.Some?
    ensures a.CallNext? && !s.batch.value.started && !s.batch.value.ended ==> !Storing(s) || s.stop
  {
  }

  lemma StepKeepsLinear(s: State, a: Action)
    requires Inv(s) && Enabled(s, a)
    ensures Linear(Apply(s, a))
  {
    hide Kept, Ordered, Enabled, Apply;
    OrderedMeans(s, a);
    forall k
      ensures Kept(Apply(s, a), k)
    {
      assert Kept(s, k);
      if a.CallScanMany? { ScanManyKeeps(s, k); }
      else if a.CallNext? { NextKeeps(s, k); }
      else if OfBatch(a) { BatchKeeps(s, a, k); }
      else if a.WorkerReturns? { WorkerReturnsKeeps(s, a, k); }
      else if OfWorker(a) { WorkerKeeps(s, a, k); }
      else if OfPreview(a) { PreviewKeeps(s, a, k); }
      else if OfBorrow(a) { BorrowKeeps(s, a, k); }
      else if a.ClearHeld? { ClearKeeps(s, a, k); }
      else if a.EndDone? { DoneKeeps(s, k); }
      else { CallsKeep(s, a, k); }
    }
  }

  lemma BatchOrdered(s: State, a: Action)
    requires Inv(s) && Enabled(s, a) && !Careless(s, a) && OfBatch(a)
    ensures Ordered(Apply(s, a))
  {
  }

  lemma DispatchOrdered(s: State, a: Action)
    requires Ordered(s) && Enabled(s, a) && a.WorkerDispatches?
    ensures Ordered(Apply(s, a))
  {
  }

  lemma ReturnOrdered(s: State, a: Action)
    requires Ordered(s) && !AtRisk(s) && Enabled(s, a) && a.WorkerReturns?
    ensures Ordered(Apply(s, a))
  {
  }

  lemma WorkerOrdered(s: State, a: Action)
    requires Ordered(s) && Enabled(s, a) && (a.WorkerFails? || a.WorkerExits?)
    ensures Ordered(Apply(s, a))
  {
  }

  lemma PreviewOrdered(s: State, a: Action)
    requires Inv(s) && Enabled(s, a) && OfPreview(a)
    ensures Ordered(Apply(s, a))
  {
    if s.client.PreviewChecking? && s.client.got.Some? { assert Kept(s, s.client.got.value); }
  }

  lemma BorrowOrdered(s: State, a: Action)
    requires Inv(s) && Enabled(s, a) && OfBorrow(a)
    ensures Ordered(Apply(s, a))
  {
  }

  lemma ClearOrdered(s: State, a: Action)
    requires Inv(s) && Enabled(s, a) && a.ClearHeld?
    ensures Ordered(Apply(s, a))
  {
    if s.client.read.Some? { assert Kept(s, s.client.read.value); }
  }

  lemma DoneOrdered(s: State, a: Action)
    requires Inv(s) && Enabled(s, a) && a.EndDone?
    ensures Ordered(Apply(s, a))
  {
    assert Kept(s, s.client.child);
  }

  lemma CallsOrdered(s: State, a: Action)
    requires Inv(s) && Enabled(s, a)
    requires a.CallRelease? || a.CallEject? || a.RollCloseReleases? || a.CallSafeStop?
    ensures Ordered(Apply(s, a))
  {
  }

  lemma StepKeepsOrdered(s: State, a: Action)
    requires Inv(s) && Enabled(s, a) && !Careless(s, a)
    ensures Ordered(Apply(s, a))
  {
    hide Ordered, Linear, Enabled, Careless, Apply;
    if OfBatch(a) { BatchOrdered(s, a); }
    else if a.WorkerDispatches? { DispatchOrdered(s, a); }
    else if a.WorkerReturns? { ReturnOrdered(s, a); }
    else if OfWorker(a) { WorkerOrdered(s, a); }
    else if OfPreview(a) { PreviewOrdered(s, a); }
    else if OfBorrow(a) { BorrowOrdered(s, a); }
    else if a.ClearHeld? { ClearOrdered(s, a); }
    else if a.EndDone? { DoneOrdered(s, a); }
    else { CallsOrdered(s, a); }
  }

  lemma StepAvoidsRisk(s: State, a: Action)
    requires Ordered(s) && !AtRisk(s) && Enabled(s, a) && !Careless(s, a)
    ensures !AtRisk(Apply(s, a))
  {
  }

  lemma StepKeepsInv(s: State, a: Action)
    requires Inv(s) && Enabled(s, a) && !Careless(s, a)
    ensures Inv(Apply(s, a))
  {
    hide Ordered, Linear, Enabled, Careless, Apply, AtRisk;
    StepKeepsLinear(s, a);
    StepKeepsOrdered(s, a);
    StepAvoidsRisk(s, a);
  }

  /** The guard against a second storing worker excludes no call that can be made. */
  lemma NextIsAlwaysEnabled(s: State)
    requires Inv(s) && s.client.Idle? && !s.closed && !s.closing && s.batch.Some?
    ensures Enabled(s, CallNext)
  {
  }

  // -- whole runs -----------------------------------------------------------------

  ghost predicate Steps(states: seq<State>, actions: seq<Action>) {
    && |states| == |actions| + 1
    && forall i | 0 <= i < |actions| ::
         Enabled(states[i], actions[i]) && states[i + 1] == Apply(states[i], actions[i])
  }

  ghost predicate Run(states: seq<State>, actions: seq<Action>) {
    Steps(states, actions) && states[0] == INITIAL
  }

  ghost predicate Careful(states: seq<State>, actions: seq<Action>)
    requires |states| == |actions| + 1
  {
    forall i | 0 <= i < |actions| :: !Careless(states[i], actions[i])
  }

  lemma {:induction false} StepsInv(states: seq<State>, actions: seq<Action>, k: nat)
    requires Steps(states, actions) && Careful(states, actions) && k <= |actions| && Inv(states[0])
    ensures Inv(states[k])
  {
    if k > 0 {
      StepsInv(states, actions, k - 1);
      assert states[k - 1 + 1] == Apply(states[k - 1], actions[k - 1]);
      StepKeepsInv(states[k - 1], actions[k - 1]);
    }
  }

  lemma RunInv(states: seq<State>, actions: seq<Action>, k: nat)
    requires Run(states, actions) && Careful(states, actions) && k <= |actions|
    ensures Inv(states[k])
  {
    StepsInv(states, actions, k);
  }

  /** In every careful run at most one child is alive, in exactly one place; none is lost
      without a recorded fate, and a pending child implies an active batch.  A caller is
      careful if, while the batch's worker may still store a child, it calls neither
      `release` nor `next` on an iterator that has ended. */
  lemma HeldChildIsLinear(states: seq<State>, actions: seq<Action>, k: nat)
    requires Run(states, actions) && Careful(states, actions) && k <= |actions|
    ensures var s := states[k];
      && Alive(s) <= 1
      && (forall c :: c in s.minted <==> Owners(s, c) == 1 || c in s.fates)
      && (forall c :: Owners(s, c) <= 1 && (c in s.fates ==> Owners(s, c) == 0))
      && (s.pending.Some? ==> s.batch.Some?)
  {
    RunInv(states, actions, k);
    forall c
      ensures c in states[k].minted <==> Owners(states[k], c) == 1 || c in states[k].fates
      ensures Owners(states[k], c) <= 1 && (c in states[k].fates ==> Owners(states[k], c) == 0)
    {
      assert Kept(states[k], c);
    }
  }

  /** A batch reserved with a child keeps it accounted for, and when the batch ends the
      child was dispatched, torn down, or found dead. */
  lemma BatchAccountsForItsChild(states: seq<State>, actions: seq<Action>, k: nat, c: Token)
    requires Run(states, actions) && Careful(states, actions) && k < |actions|
    requires states[k].batch.Some? && states[k].batch.value.reserved == Some(c)
    ensures Accounted(states[k], c)
    ensures states[k + 1].batch.None? ==>
      c in states[k + 1].fates && states[k + 1].fates[c] in {Dispatched, TornDown, Dead}
  {
    RunInv(states, actions, k);
    ReservedMeetsItsEnd(states[k], actions[k], c);
  }

  lemma ReservedMeetsItsEnd(s: State, a: Action, c: Token)
    requires Inv(s) && Enabled(s, a)
    requires s.batch.Some? && s.batch.value.reserved == Some(c)
    ensures Apply(s, a).batch.None? ==>
      c in Apply(s, a).fates && Apply(s, a).fates[c] in {Dispatched, TornDown, Dead}
  {
  }
}
