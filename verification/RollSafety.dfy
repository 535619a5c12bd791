/** What every interleaving of `RollProtocol` keeps.

    The invariant is local: one predicate per thread, per batch, per roll and one for
    the device.  `Interference` says what a step of one thread may change in the parts
    the others read; `Local` turns it into the whole invariant, so that each critical
    section is checked on its own objects alone. */
module RollSafety {
  import opened Wrappers
  import opened RollCore
  import opened RollProtocol

  // -- who holds what, read off the program counters -----------------------------

  /** The thread is between taking and giving back `_executing_thread` of `b`. */
  predicate Consuming(pc: Pc, b: BatchId) {
    pc.InBatch? && pc.b == b &&
    match pc.stage
    case NextRunning => true
    case NextMarking => true
    case NextRetaining => true
    case NextLeaving => true
    case Finish(path, _) => path.FromNext?
    case _ => false
  }

  /** The thread is between taking and giving back `_closing_thread` of `b`. */
  predicate ShuttingDown(pc: Pc, b: BatchId) {
    pc.InBatch? && pc.b == b &&
    match pc.stage
    case Finish(path, _) => path.FromClose?
    case CloseRunning(_) => true
    case CloseFailing(_) => true
    case _ => false
  }

  function CallerOf(stage: BatchStage): Caller {
    match stage
    case Finish(FromClose(k), _) => k
    case CloseCalled(k) => k
    case CloseWaiting(k) => k
    case CloseTimedOut(k) => k
    case CloseRunning(k) => k
    case CloseFailing(k) => k
    case CloseRetaining(k) => k
    case _ => ToClient
  }

  /** The thread owns the closing flag of `r`. */
  predicate ClosingRoll(pc: Pc, r: RollId) {
    match pc
    case InBatch(_, stage) => CallerOf(stage) == ToRollClose(r)
    case InRoll(x, at) =>
      x == r && (at.Stopping? || at.ReleasingHeld? || at.FreeingRoll? || at.Ending? || at.Abandoning?)
    case _ => false
  }

  /** The thread owns the preview flag of `r`. */
  predicate HoldingRoll(pc: Pc, r: RollId) {
    pc.InRoll? && pc.r == r && (pc.at.HoldClaiming? || pc.at.HoldRunning? || pc.at.HoldLeaving?)
  }

  /** The thread itself holds the device's I/O lock. */
  predicate InIo(pc: Pc) {
    match pc
    case InRoll(_, HoldRunning) => true
    case DeviceRunning => true
    case DeviceClosing => true
    case _ => false
  }

  /** Nothing of the roll is running. */
  predicate Quiet(roll: Roll) {
    roll.activeBatchId.None? && !roll.previewActive
  }

  // -- the invariant ---------------------------------------------------------------

  predicate ThreadOk(s: State, t: ThreadId) {
    var pc := PcOf(s, t);
    && Placed(s, pc)
    && (pc.InBatch? ==>
          var b := pc.b;
          && (Consuming(pc, b) ==> s.batches[b].executing == Some(t))
          && (ShuttingDown(pc, b) ==> s.batches[b].closing == Some(t))
          && (CallerOf(pc.stage).ToRollClose? ==>
                var r := CallerOf(pc.stage).r;
                && s.batches[b].roll == r
                && r in s.closers && s.closers[r] == t
                && (s.rolls[r].activeBatchId == None || s.rolls[r].activeBatchId == Some(b))
                && !s.rolls[r].previewActive)
          && (pc.stage.Finish? ==>
                match pc.stage.at
                case Teardown => s.unlocks[b] == 0
                case Unlocking => s.unlocks[b] == 0
                case Releasing => s.unlocks[b] == 1
                case Closing => s.batches[b].released
                case _ => true))
    && (pc.InRoll? ==>
          var r := pc.r;
          && (ClosingRoll(pc, r) ==> r in s.closers && s.closers[r] == t)
          && (pc.at.ReleasingHeld? || pc.at.FreeingRoll? || pc.at.Ending? ==> Quiet(s.rolls[r]))
          && (HoldingRoll(pc, r) ==> s.rolls[r].previewActive && s.rolls[r].previewThread == Some(t)))
    && (InIo(pc) ==> s.ioOwner == Some(ThreadIo(t)))
  }

  predicate BatchOk(s: State, b: BatchId)
    requires b in s.batches
  {
    var x := s.batches[b];
    && x.roll in s.rolls
    && (x.executing.None? || x.closing.None?)
    && (x.executing.Some? ==> Consuming(PcOf(s, x.executing.value), b))
    && (x.closing.Some? ==> ShuttingDown(PcOf(s, x.closing.value), b))
    && s.unlocks[b] <= 1
    && (s.unlocks[b] == 0 <==> s.rolls[x.roll].activeBatchId == Some(b))
    && (s.unlocks[b] == 0 <==> s.ioOwner == Some(BatchIo(b)))
    && (x.released ==> s.unlocks[b] == 1)
    && (x.closed ==> x.released)
  }

  predicate RollOk(s: State, r: RollId)
    requires r in s.rolls
  {
    var x := s.rolls[r];
    && (x.closing <==> r in s.closers)
    && (r in s.closers ==> ClosingRoll(PcOf(s, s.closers[r]), r))
    && (x.previewActive ==>
          && x.previewThread.Some?
          && HoldingRoll(PcOf(s, x.previewThread.value), r)
          && x.activeBatchId.None?)
    && (x.activeBatchId.Some? <==> x.batchLocked)
    && x.activeBatch == x.activeBatchId
    && (x.uncertainBatch.Some? ==> x.uncertainBatch == x.activeBatchId)
    && (x.activeBatchId.Some? ==>
          && x.activeBatchId.value in s.batches
          && s.batches[x.activeBatchId.value].roll == r)
    && s.rollUnlocks[r] <= 1
    && (s.rollUnlocks[r] == 0 <==> s.rollOwner == Some(r))
    && (s.rollUnlocks[r] == 1 <==>
          x.closed || (r in s.closers && PcOf(s, s.closers[r]) == InRoll(r, Ending)))
    && (x.closed ==> Quiet(x) && !x.closing)
  }

  ghost predicate DeviceOk(s: State) {
    && (s.device.ioLocked <==> s.ioOwner.Some?)
    && (s.ioOwner.Some? ==>
          match s.ioOwner.value
          case BatchIo(b) => b in s.batches
          case ThreadIo(t) => InIo(PcOf(s, t)))
    && (s.device.rollLocked <==> s.rollOwner.Some?)
    && (s.rollOwner.Some? ==> s.rollOwner.value in s.rolls)
    && (s.device.closed ==> !s.device.rollLocked)
    && HistoryOk(s)
  }

  /** History speaks of objects that exist. */
  ghost predicate HistoryOk(s: State) {
    && (forall b | b in s.unlocks :: b in s.batches)
    && (forall r | r in s.rollUnlocks :: r in s.rolls)
    && (forall r | r in s.closers :: r in s.rolls)
  }

  ghost predicate Inv(s: State) {
    && (forall t | t in s.pcs :: ThreadOk(s, t))
    && (forall b | b in s.batches :: BatchOk(s, b))
    && (forall r | r in s.rolls :: RollOk(s, r))
    && DeviceOk(s)
  }

  // -- the same invariant at one site -----------------------------------------------

  predicate PcFits(l: Local, x: Site) {
    match l.pc
    case InBatch(b, stage) =>
      && x.b == Some(b) && l.batch.Some? && x.r == Some(l.batch.value.roll) && l.roll.Some?
      && (Consuming(l.pc, b) ==> l.batch.value.executing == Some(x.t))
      && (ShuttingDown(l.pc, b) ==> l.batch.value.closing == Some(x.t))
      && (CallerOf(stage).ToRollClose? ==>
            && x.r == Some(CallerOf(stage).r)
            && l.closer == Some(x.t)
            && (l.roll.value.activeBatchId == None || l.roll.value.activeBatchId == Some(b))
            && !l.roll.value.previewActive)
      && (stage.Finish? ==>
            match stage.at
            case Teardown => l.unlocks == 0
            case Unlocking => l.unlocks == 0
            case Releasing => l.unlocks == 1
            case Closing => l.batch.value.released
            case _ => true)
    case InRoll(r, at) =>
      && x.r == Some(r) && l.roll.Some?
      && (ClosingRoll(l.pc, r) ==> l.closer == Some(x.t))
      && (at.ReleasingHeld? || at.FreeingRoll? || at.Ending? ==> Quiet(l.roll.value))
      && (HoldingRoll(l.pc, r) ==> l.roll.value.previewActive && l.roll.value.previewThread == Some(x.t))
      && (InIo(l.pc) ==> l.ioOwner == Some(ThreadIo(x.t)))
    case _ => InIo(l.pc) ==> l.ioOwner == Some(ThreadIo(x.t))
  }

  predicate BatchFits(l: Local, x: Site, b: BatchId, batch: Batch) {
    && (batch.executing.None? || batch.closing.None?)
    && (batch.executing == Some(x.t) ==> Consuming(l.pc, b))
    && (batch.closing == Some(x.t) ==> ShuttingDown(l.pc, b))
    && l.unlocks <= 1
    && x.r == Some(batch.roll) && l.roll.Some?
    && (l.unlocks == 0 <==> l.roll.value.activeBatchId == Some(b))
    && (l.unlocks == 0 <==> l.ioOwner == Some(BatchIo(b)))
    && (batch.released ==> l.unlocks == 1)
    && (batch.closed ==> batch.released)
  }

  predicate RollFits(l: Local, x: Site, r: RollId, roll: Roll) {
    && (roll.closing <==> l.closer.Some?)
    && (l.closer == Some(x.t) ==> ClosingRoll(l.pc, r))
    && (roll.previewActive ==> roll.previewThread.Some? && roll.activeBatchId.None?)
    && (roll.previewActive && roll.previewThread == Some(x.t) ==> HoldingRoll(l.pc, r))
    && (roll.activeBatchId.Some? <==> roll.batchLocked)
    && roll.activeBatch == roll.activeBatchId
    && (roll.uncertainBatch.Some? ==> roll.uncertainBatch == roll.activeBatchId)
    && l.rollUnlocks <= 1
    && (l.rollUnlocks == 0 <==> l.rollOwner == Some(r))
    && (roll.closed ==> l.rollUnlocks == 1 && Quiet(roll) && !roll.closing)
    && (l.closer == None ==> (l.rollUnlocks == 1 <==> roll.closed))
    && (l.closer == Some(x.t) ==> (l.rollUnlocks == 1 <==> roll.closed || l.pc == InRoll(r, Ending)))
  }

  predicate DeviceFits(l: Local, x: Site) {
    && (l.device.ioLocked <==> l.ioOwner.Some?)
    && (l.ioOwner == Some(ThreadIo(x.t)) ==> InIo(l.pc))
    && (l.device.rollLocked <==> l.rollOwner.Some?)
    && (l.device.closed ==> !l.device.rollLocked)
  }

  predicate Fits(l: Local, x: Site) {
    && PcFits(l, x)
    && (l.batch.Some? ==> x.b.Some? && BatchFits(l, x, x.b.value, l.batch.value))
    && (l.roll.Some? ==> x.r.Some? && RollFits(l, x, x.r.value, l.roll.value))
    && DeviceFits(l, x)
  }

  // -- what a step may change in the parts the other threads read ---------------------

  predicate BatchInterference(l: Local, l': Local, t: ThreadId) {
    l.batch.Some? ==>
      var x := l.batch.value;
      && l'.batch.Some?
      && var x' := l'.batch.value;
      && x'.roll == x.roll
      && (x'.executing == x.executing
          || (x.executing in {None, Some(t)} && x'.executing in {None, Some(t)}))
      && (x'.closing == x.closing
          || (x.closing in {None, Some(t)} && x'.closing in {None, Some(t)}))
      && (x.released ==> x'.released)
      && (l'.unlocks == l.unlocks || x.executing == Some(t) || x.closing == Some(t))
  }

  predicate RollInterference(l: Local, l': Local, t: ThreadId, ob: Option<BatchId>) {
    l.roll.Some? ==>
      var x := l.roll.value;
      && l'.roll.Some?
      && var x' := l'.roll.value;
      && (l.closer.Some? && l.closer != Some(t) ==>
            && l'.closer == l.closer
            && (x'.activeBatchId == None || x'.activeBatchId == x.activeBatchId)
            && (x'.previewActive ==> x.previewActive)
            && l'.rollUnlocks == l.rollUnlocks && x'.closed == x.closed)
      && (l.closer in {None, Some(t)} ==> l'.closer in {None, Some(t)})
      && (x.previewActive && x.previewThread != Some(t) ==>
            x'.previewActive && x'.previewThread == x.previewThread)
      && (x'.previewActive ==>
            x'.previewThread == Some(t) || (x.previewActive && x'.previewThread == x.previewThread))
      && (x'.activeBatchId == x.activeBatchId
          || (x'.activeBatchId in {None, ob} && x.activeBatchId in {None, ob}))
  }

  predicate IoMine(o: Option<IoOwner>, x: Site) {
    o.None? || o.value == ThreadIo(x.t) || (x.b.Some? && o.value == BatchIo(x.b.value))
  }

  predicate LockInterference(l: Local, l': Local, x: Site) {
    && (l'.ioOwner == l.ioOwner || (IoMine(l.ioOwner, x) && IoMine(l'.ioOwner, x)))
    && (l'.rollOwner == l.rollOwner
        || (l.rollOwner in {None, x.r} && l'.rollOwner in {None, x.r}))
  }

  /** The objects a step may create, and where new claims may point. */
  predicate Creates(l: Local, l': Local, x: Site) {
    && (l'.batch.Some? || l.batch.None?)
    && (l.batch.None? && l'.batch.Some? ==> l'.batch.value == NewBatch(l'.batch.value.roll))
    && (l.roll.None? && l'.roll.Some? ==> l'.roll.value == NEW_ROLL)
    && (x.b.Some? && l'.batch.None? ==> l'.unlocks == l.unlocks)
    && (l'.roll.None? ==> l'.closer == l.closer && l'.rollUnlocks == l.rollUnlocks)
    && (l'.roll.Some? && l'.roll.value.activeBatchId.Some? ==>
          || (l.roll.Some? && l'.roll.value.activeBatchId == l.roll.value.activeBatchId)
          || (l'.roll.value.activeBatchId == x.b && l'.batch.Some?))
    && (l'.ioOwner != l.ioOwner && l'.ioOwner.Some? && l'.ioOwner.value.BatchIo? ==> l'.batch.Some?)
    && (l'.rollOwner != l.rollOwner && l'.rollOwner.Some? ==> l'.roll.Some?)
  }

  predicate Interferes(l: Local, l': Local, x: Site) {
    && BatchInterference(l, l', x.t)
    && RollInterference(l, l', x.t, x.b)
    && LockInterference(l, l', x)
    && Creates(l, l', x)
  }

  /** A step from `l` to `l'` is sound at `x`. */
  predicate Sound(l: Local, l': Local, x: Site) {
    Fits(l', x) && Interferes(l, l', x)
  }

  // -- from one site to the whole state -----------------------------------------------

  lemma FocusFits(s: State, x: Site)
    requires Inv(s)
    requires PcOf(s, x.t).Idle? || x == Own(s, x.t)
    requires x.b.Some? && x.b.value in s.batches ==> x.r == Some(s.batches[x.b.value].roll)
    ensures Fits(Focus(s, x), x)
  {
    if x.t in s.pcs { assert ThreadOk(s, x.t); }
    if x.b.Some? && x.b.value in s.batches { assert BatchOk(s, x.b.value); }
    if x.r.Some? && x.r.value in s.rolls { assert RollOk(s, x.r.value); }
  }

  /** The site covers everything the stepping thread claims. */
  predicate Covers(s: State, x: Site) {
    PcOf(s, x.t).Idle? || x == Own(s, x.t)
  }

  lemma WriteBatchThread(s: State, x: Site, l': Local, u: ThreadId, b: BatchId, stage: BatchStage)
    requires ThreadOk(s, u) && b in s.batches && BatchOk(s, b)
    requires BatchInterference(Focus(s, x), l', x.t) && RollInterference(Focus(s, x), l', x.t, x.b)
    requires u != x.t && PcOf(s, u) == InBatch(b, stage)
    ensures ThreadOk(Write(s, x, l'), u)
  {
    var s' := Write(s, x, l');
    var y := s.batches[b];
    assert PcOf(s', u) == InBatch(b, stage);
    assert b in s'.batches && s'.batches[b].roll == y.roll;
    assert y.executing == Some(u) ==> s'.batches[b].executing == Some(u);
    assert y.closing == Some(u) ==> s'.batches[b].closing == Some(u);
    assert stage.Finish? ==> s'.unlocks[b] == s.unlocks[b];
  }

  lemma WriteRollThread(s: State, x: Site, l': Local, u: ThreadId)
    requires ThreadOk(s, u) && !PcOf(s, u).InBatch?
    requires RollInterference(Focus(s, x), l', x.t, x.b) && LockInterference(Focus(s, x), l', x)
    requires u != x.t
    ensures ThreadOk(Write(s, x, l'), u)
  {
    assert PcOf(Write(s, x, l'), u) == PcOf(s, u);
  }

  lemma WriteOtherBatch(s: State, x: Site, l': Local, b: BatchId)
    requires Covers(s, x) && b in s.batches && BatchOk(s, b) && x.b != Some(b)
    requires RollInterference(Focus(s, x), l', x.t, x.b) && LockInterference(Focus(s, x), l', x)
    ensures b in Write(s, x, l').batches && BatchOk(Write(s, x, l'), b)
  {
  }

  lemma WriteOwnBatch(s: State, x: Site, l': Local, b: BatchId)
    requires Inv(s) && Covers(s, x) && x.b == Some(b) && l'.batch.Some?
    requires Fits(l', x) && BatchInterference(Focus(s, x), l', x.t)
    requires b !in s.batches ==> l'.batch.value == NewBatch(l'.batch.value.roll)
    ensures BatchOk(Write(s, x, l'), b)
  {
    if b in s.batches { assert BatchOk(s, b); }
  }

  lemma WriteOtherRoll(s: State, x: Site, l': Local, r: RollId)
    requires ThreadOk(s, x.t) && Covers(s, x) && r in s.rolls && RollOk(s, r) && x.r != Some(r)
    requires BatchInterference(Focus(s, x), l', x.t) && LockInterference(Focus(s, x), l', x)
    requires l'.batch.Some? || x.b.None? || x.b.value !in s.batches
    ensures r in Write(s, x, l').rolls && RollOk(Write(s, x, l'), r)
  {
  }

  lemma WriteOwnRoll(s: State, x: Site, l': Local, r: RollId)
    requires Inv(s) && Covers(s, x) && x.r == Some(r)
    requires Sound(Focus(s, x), l', x) && l'.roll.Some?
    ensures RollOk(Write(s, x, l'), r)
  {
    var s' := Write(s, x, l');
    if r in s.rolls { assert RollOk(s, r); } else { assert r !in s.closers; }
    var roll := l'.roll.value;
    assert s'.rolls[r] == roll;
    if roll.previewActive {
      var u := roll.previewThread.value;
      assert u != x.t ==> PcOf(s', u) == PcOf(s, u);
    }
    if l'.closer.Some? {
      var u := l'.closer.value;
      assert u != x.t ==> PcOf(s', u) == PcOf(s, u);
    }
    if roll.activeBatchId.Some? {
      var b := roll.activeBatchId.value;
      assert b in s'.batches && s'.batches[b].roll == r;
    }
  }

  lemma WriteHistory(s: State, x: Site, l': Local)
    requires HistoryOk(s)
    requires Sound(Focus(s, x), l', x)
    ensures HistoryOk(Write(s, x, l'))
    ensures forall b | b in s.batches :: b in Write(s, x, l').batches
    ensures forall r | r in s.rolls :: r in Write(s, x, l').rolls
  {
  }

  lemma WriteDevice(s: State, x: Site, l': Local)
    requires DeviceOk(s) && Covers(s, x)
    requires Sound(Focus(s, x), l', x)
    ensures DeviceOk(Write(s, x, l'))
  {
    hide HistoryOk;
    WriteHistory(s, x, l');
    var s' := Write(s, x, l');
    if l'.ioOwner.Some? && l'.ioOwner.value.ThreadIo? {
      var u := l'.ioOwner.value.t;
      assert u != x.t ==> PcOf(s', u) == PcOf(s, u);
    }
  }

  lemma WriteOwnThread(s: State, x: Site, l': Local)
    requires PcFits(l', x)
    requires l'.batch.Some? ==> x.b.Some?
    requires l'.roll.Some? ==> x.r.Some?
    ensures ThreadOk(Write(s, x, l'), x.t)
  {
  }

  lemma WriteKeepsInv(s: State, x: Site, l': Local)
    requires Inv(s) && Covers(s, x)
    requires Sound(Focus(s, x), l', x)
    ensures Inv(Write(s, x, l'))
  {
    var s' := Write(s, x, l');
    WriteOwnThread(s, x, l');
    assert ThreadOk(s, x.t) by { if x.t in s.pcs {} }
    forall u | u in s'.pcs
      ensures ThreadOk(s', u)
    {
      if u != x.t {
        assert ThreadOk(s, u);
        match PcOf(s, u)
        case InBatch(b, stage) =>
          assert BatchOk(s, b);
          WriteBatchThread(s, x, l', u, b, stage);
        case _ => WriteRollThread(s, x, l', u);
      }
    }
    forall b | b in s'.batches
      ensures BatchOk(s', b)
    {
      if x.b == Some(b) { WriteOwnBatch(s, x, l', b); }
      else { assert BatchOk(s, b); WriteOtherBatch(s, x, l', b); }
    }
    forall r | r in s'.rolls
      ensures RollOk(s', r)
    {
      if x.r == Some(r) { WriteOwnRoll(s, x, l', r); }
      else { assert RollOk(s, r); WriteOtherRoll(s, x, l', r); }
    }
    WriteDevice(s, x, l');
  }

  // -- every step is sound at its site -------------------------------------------------

  lemma FinishFits(l: Local, x: Site, b: BatchId, path: Path, at: FinishStage, w: Answer)
    requires Fits(l, x) && l.pc == InBatch(b, Finish(path, at))
    ensures Fits(FinishStep(l, b, path, at, w), x)
  {
    match at
    case Unlocking => UnlockFits(l, x, b, path, w);
    case Closing => DefiniteFits(l, x, b, path, w);
    case Aborting => AbortFits(l, x, b, path, w);
    case _ =>
  }

  lemma UnlockFits(l: Local, x: Site, b: BatchId, path: Path, w: Answer)
    requires Fits(l, x) && l.pc == InBatch(b, Finish(path, Unlocking))
    ensures Fits(FinishStep(l, b, path, Unlocking, w), x)
  {
  }

  lemma DefiniteFits(l: Local, x: Site, b: BatchId, path: Path, w: Answer)
    requires Fits(l, x) && l.pc == InBatch(b, Finish(path, Closing))
    ensures Fits(FinishStep(l, b, path, Closing, w), x)
  {
  }

  lemma AbortFits(l: Local, x: Site, b: BatchId, path: Path, w: Answer)
    requires Fits(l, x) && l.pc == InBatch(b, Finish(path, Aborting))
    ensures Fits(FinishStep(l, b, path, Aborting, w), x)
  {
  }

  lemma FinishInterferes(l: Local, x: Site, b: BatchId, path: Path, at: FinishStage, w: Answer)
    requires Fits(l, x) && l.pc == InBatch(b, Finish(path, at))
    ensures Interferes(l, FinishStep(l, b, path, at, w), x)
  {
  }

  lemma FinishSound(l: Local, x: Site, b: BatchId, path: Path, at: FinishStage, w: Answer)
    requires Fits(l, x) && l.pc == InBatch(b, Finish(path, at))
    ensures Sound(l, FinishStep(l, b, path, at, w), x)
  {
    FinishFits(l, x, b, path, at, w);
    FinishInterferes(l, x, b, path, at, w);
  }

  predicate InNext(stage: BatchStage) {
    stage.NextRunning? || stage.NextMarking? || stage.NextRetaining? || stage.NextLeaving?
  }

  lemma NextFits(l: Local, x: Site, b: BatchId, stage: BatchStage, w: Answer)
    requires Fits(l, x) && l.pc == InBatch(b, stage) && InNext(stage)
    ensures Fits(BatchStep(l, x.t, b, stage, w), x)
  {
  }

  lemma NextSound(l: Local, x: Site, b: BatchId, stage: BatchStage, w: Answer)
    requires Fits(l, x) && l.pc == InBatch(b, stage) && InNext(stage)
    ensures Sound(l, BatchStep(l, x.t, b, stage, w), x)
  {
    NextFits(l, x, b, stage, w);
  }

  /** The stages of the iterator's close outside `_finish_definite_close`. */
  predicate InClose(stage: BatchStage) {
    !stage.Finish? && !InNext(stage)
  }

  predicate Claiming(stage: BatchStage) {
    stage.CloseCalled? || stage.CloseWaiting?
  }

  lemma ClaimFits(l: Local, x: Site, b: BatchId, stage: BatchStage, w: Answer)
    requires Fits(l, x) && l.pc == InBatch(b, stage) && Claiming(stage)
    requires stage.CloseWaiting? ==> !Occupied(l.batch.value)
    ensures Fits(BatchStep(l, x.t, b, stage, w), x)
  {
  }

  lemma CloseFits(l: Local, x: Site, b: BatchId, stage: BatchStage, w: Answer)
    requires Fits(l, x) && l.pc == InBatch(b, stage) && InClose(stage) && !Claiming(stage)
    ensures Fits(BatchStep(l, x.t, b, stage, w), x)
  {
  }

  lemma CloseInterferes(l: Local, x: Site, b: BatchId, stage: BatchStage, w: Answer)
    requires Fits(l, x) && l.pc == InBatch(b, stage) && InClose(stage)
    requires stage.CloseWaiting? ==> !Occupied(l.batch.value)
    ensures Interferes(l, BatchStep(l, x.t, b, stage, w), x)
  {
  }

  lemma CloseSound(l: Local, x: Site, b: BatchId, stage: BatchStage, w: Answer)
    requires Fits(l, x) && l.pc == InBatch(b, stage) && InClose(stage)
    requires stage.CloseWaiting? ==> !Occupied(l.batch.value)
    ensures Sound(l, BatchStep(l, x.t, b, stage, w), x)
  {
    if Claiming(stage) { ClaimFits(l, x, b, stage, w); } else { CloseFits(l, x, b, stage, w); }
    CloseInterferes(l, x, b, stage, w);
  }

  /** The site of a step on a roll includes the roll's active batch. */
  predicate AtActive(l: Local, x: Site, r: RollId) {
    l.roll.Some? && l.roll.value.activeBatchId.Some? ==>
      x.b == l.roll.value.activeBatchId && l.batch.Some? && l.batch.value.roll == r
  }

  lemma RollCloseFits(l: Local, x: Site, r: RollId, reachable: set<BatchId>)
    requires Fits(l, x) && l.roll.Some? && x.r == Some(r) && (l.pc.Idle? || l.pc == InRoll(r, Queued))
    requires AtActive(l, x, r)
    ensures Fits(RollCloseStep(l, x.t, r, reachable), x)
  {
  }

  lemma RollCloseSound(l: Local, x: Site, r: RollId, reachable: set<BatchId>)
    requires Fits(l, x) && l.roll.Some? && x.r == Some(r) && (l.pc.Idle? || l.pc == InRoll(r, Queued))
    requires AtActive(l, x, r)
    ensures Sound(l, RollCloseStep(l, x.t, r, reachable), x)
  {
    RollCloseFits(l, x, r, reachable);
  }

  predicate InHold(at: RollStage) {
    at.HoldClaiming? || at.HoldRunning? || at.HoldLeaving?
  }

  lemma HoldFits(l: Local, x: Site, r: RollId, at: RollStage, reachable: set<BatchId>)
    requires Fits(l, x) && l.pc == InRoll(r, at) && InHold(at)
    ensures Fits(RollStep(l, x.t, r, at, reachable), x)
  {
  }

  lemma RollFitsAfter(l: Local, x: Site, r: RollId, at: RollStage, reachable: set<BatchId>)
    requires Fits(l, x) && l.pc == InRoll(r, at) && !at.Queued? && !InHold(at)
    requires AtActive(l, x, r)
    ensures Fits(RollStep(l, x.t, r, at, reachable), x)
  {
  }

  lemma RollInterferes(l: Local, x: Site, r: RollId, at: RollStage, reachable: set<BatchId>)
    requires Fits(l, x) && l.pc == InRoll(r, at) && !at.Queued?
    ensures Interferes(l, RollStep(l, x.t, r, at, reachable), x)
  {
  }

  lemma RollSound(l: Local, x: Site, r: RollId, at: RollStage, reachable: set<BatchId>)
    requires Fits(l, x) && l.pc == InRoll(r, at)
    requires AtActive(l, x, r)
    ensures Sound(l, RollStep(l, x.t, r, at, reachable), x)
  {
    if at.Queued? {
      RollCloseSound(l, x, r, reachable);
    } else {
      if InHold(at) { HoldFits(l, x, r, at, reachable); } else { RollFitsAfter(l, x, r, at, reachable); }
      RollInterferes(l, x, r, at, reachable);
    }
  }

  lemma CallSound(s: State, a: Action, l: Local, x: Site)
    requires Enabled(s, a) && x == SiteOf(s, a) && l == Focus(s, x) && Fits(l, x)
    requires a.CallOpenRoll? || a.CallScanMany? || a.CallNext? || a.CallClose? || a.Abandon? || a.CallHold?
    requires a.CallNext? || a.CallClose? || a.Abandon? ==> l.roll.Some?
    requires a.CallScanMany? ==> l.unlocks == 0
    requires a.CallOpenRoll? ==> l.rollUnlocks == 0 && l.closer.None?
    ensures Sound(l, Effect(s, a, l), x)
  {
  }

  lemma DeviceSound(s: State, a: Action, l: Local, x: Site)
    requires Enabled(s, a) && x == SiteOf(s, a) && l == Focus(s, x) && Fits(l, x)
    requires a.CallDeviceIo? || a.CallDeviceClose?
    ensures Sound(l, Effect(s, a, l), x)
  {
  }

  lemma ExpireFits(l: Local, x: Site)
    requires Fits(l, x)
    requires l.pc.InBatch? && l.pc.stage.CloseWaiting? ==> Occupied(l.batch.value)
    ensures Fits(ExpireStep(l), x)
  {
  }

  lemma ExpireSound(l: Local, x: Site)
    requires Fits(l, x)
    requires l.pc.InBatch? && l.pc.stage.CloseWaiting? ==> Occupied(l.batch.value)
    ensures Sound(l, ExpireStep(l), x)
  {
    ExpireFits(l, x);
  }

  lemma OwnSite(s: State, t: ThreadId)
    requires Inv(s) && !PcOf(s, t).Idle?
    ensures var x := Own(s, t);
      && (x.b.Some? && x.b.value in s.batches ==> x.r == Some(s.batches[x.b.value].roll))
      && (PcOf(s, t).InRoll? ==> AtActive(Focus(s, x), x, PcOf(s, t).r))
  {
    assert ThreadOk(s, t);
    match PcOf(s, t)
    case InRoll(r, _) => assert RollOk(s, r);
    case _ =>
  }

  lemma ResumeSound(s: State, a: Action)
    requires Inv(s) && Enabled(s, a) && a.Resume?
    ensures var x := Own(s, a.t); Sound(Focus(s, x), ResumeStep(Focus(s, x), a.t, a.answer, Reachable(s)), x)
  {
    var x := Own(s, a.t);
    var l := Focus(s, x);
    OwnSite(s, a.t);
    FocusFits(s, x);
    match l.pc
    case InBatch(b, stage) =>
      if stage.Finish? { FinishSound(l, x, b, stage.path, stage.at, a.answer); }
      else if InNext(stage) { NextSound(l, x, b, stage, a.answer); }
      else { CloseSound(l, x, b, stage, a.answer); }
    case InRoll(r, at) => RollSound(l, x, r, at, Reachable(s));
    case _ =>
  }

  lemma FlagSound(s: State, a: Action, l: Local, x: Site)
    requires Enabled(s, a) && x == SiteOf(s, a) && l == Focus(s, x) && Fits(l, x)
    requires a.CallSafeStop? || a.CleanupFault?
    ensures Sound(l, Effect(s, a, l), x)
  {
  }

  /** What a call finds at its site. */
  lemma CallSite(s: State, a: Action)
    requires Inv(s) && Enabled(s, a) && !a.Resume? && !a.Expire?
    ensures var x := SiteOf(s, a); var l := Focus(s, x);
      && Fits(l, x)
      && (a.CallNext? || a.CallClose? || a.Abandon? || a.CallRollClose? ==> l.roll.Some?)
      && (a.CallScanMany? ==> l.unlocks == 0)
      && (a.CallOpenRoll? ==> l.rollUnlocks == 0 && l.closer.None?)
      && (a.CallRollClose? ==> AtActive(l, x, a.r))
  {
    var x := SiteOf(s, a);
    if x.b.Some? && x.b.value in s.batches { assert BatchOk(s, x.b.value); }
    if x.r.Some? && x.r.value in s.rolls { assert RollOk(s, x.r.value); }
    FocusFits(s, x);
  }

  lemma CallsSound(s: State, a: Action)
    requires Inv(s) && Enabled(s, a) && !a.Resume? && !a.Expire?
    ensures var x := SiteOf(s, a); Sound(Focus(s, x), Effect(s, a, Focus(s, x)), x)
  {
    hide Inv, Sound;
    var x := SiteOf(s, a);
    var l := Focus(s, x);
    CallSite(s, a);
    match a
    case CallRollClose(t, r) => RollCloseSound(l, x, r, Reachable(s));
    case CallDeviceIo(_) => DeviceSound(s, a, l, x);
    case CallDeviceClose(_) => DeviceSound(s, a, l, x);
    case CallSafeStop(_, _) => FlagSound(s, a, l, x);
    case CleanupFault(_, _) => FlagSound(s, a, l, x);
    case _ => CallSound(s, a, l, x);
  }

  lemma StepSound(s: State, a: Action)
    requires Inv(s) && Enabled(s, a)
    ensures var x := SiteOf(s, a); Covers(s, x) && Sound(Focus(s, x), Effect(s, a, Focus(s, x)), x)
  {
    if a.Resume? {
      ResumeSound(s, a);
    } else if a.Expire? {
      OwnSite(s, a.t);
      FocusFits(s, Own(s, a.t));
      ExpireSound(Focus(s, Own(s, a.t)), Own(s, a.t));
    } else {
      CallsSound(s, a);
    }
  }

  lemma StepFits(s: State, a: Action)
    requires Inv(s) && Enabled(s, a)
    ensures Fits(Focus(s, SiteOf(s, a)), SiteOf(s, a))
  {
    var x := SiteOf(s, a);
    if a.Resume? || a.Expire? {
      OwnSite(s, a.t);
    } else {
      if x.b.Some? && x.b.value in s.batches { assert BatchOk(s, x.b.value); }
      if x.r.Some? && x.r.value in s.rolls { assert RollOk(s, x.r.value); }
    }
    FocusFits(s, x);
  }

  /** The invariant survives every action. */
  lemma StepKeepsInv(s: State, a: Action)
    requires Inv(s) && Enabled(s, a)
    ensures Inv(Apply(s, a))
  {
    var x := SiteOf(s, a);
    var l' := Effect(s, a, Focus(s, x));
    StepSound(s, a);
    WriteKeepsInv(s, x, l');
    var s1 := Write(s, x, l');
    var s2 := Apply(s, a);
    AbandonedIrrelevant(s1, s2);
  }

  /** Nothing in the invariant depends on which weak references still resolve. */
  lemma AbandonedIrrelevant(s1: State, s2: State)
    requires Inv(s1) && s2 == s1.(abandoned := s2.abandoned)
    ensures Inv(s2)
  {
    forall t | t in s2.pcs ensures ThreadOk(s2, t) { assert ThreadOk(s1, t); }
    forall b | b in s2.batches ensures BatchOk(s2, b) { assert BatchOk(s1, b); }
    forall r | r in s2.rolls ensures RollOk(s2, r) { assert RollOk(s1, r); }
  }
}
