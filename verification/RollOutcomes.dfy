/** What the calls on device and roll are granted, and what becomes of stops, faults and
    closed iterators over whole runs. */
module RollOutcomes {
  import opened Wrappers
  import opened RollCore
  import opened RollProtocol
  import opened RollSafety
  import opened RollTheorems

  // -- exactly when a claim is granted ---------------------------------------------------------

  /** `Device.roll` opens a roll exactly on an open, healthy device without one. */
  lemma OpensExactly(s: State, t: ThreadId, r: RollId)
    requires Inv(s) && Enabled(s, CallOpenRoll(t, r))
    ensures var s' := Apply(s, CallOpenRoll(t, r)); var d := s.device;
      if !d.closed && d.faultedReason.None? && s.rollOwner.None? then
        && s'.rolls == s.rolls[r := NEW_ROLL] && s'.rollOwner == Some(r)
        && s'.device == d.(rollLocked := true)
      else s'.rolls == s.rolls && s'.rollOwner == s.rollOwner && s'.device == d
  {
    assert Lookup(s.rolls, Some(r)) == None;
    assert s.rolls - {r} == s.rolls;
  }

  /** Nobody uses the roll and no batch of it is left. */
  predicate QuietAndOpen(roll: Roll) {
    !roll.closed && !roll.closing && roll.activeBatchId.None? && !roll.previewActive
  }

  predicate HealthyAndFree(s: State) {
    !s.device.closed && s.device.faultedReason.None? && s.ioOwner.None?
  }

  /** `scan_many` reserves a batch exactly on a quiet open roll of a healthy device whose
      I/O nobody holds.  The batch starts unused, both its locks taken and no stop set. */
  lemma ReservesExactly(s: State, t: ThreadId, r: RollId, b: BatchId)
    requires Inv(s) && Enabled(s, CallScanMany(t, r, b))
    ensures var s' := Apply(s, CallScanMany(t, r, b));
      if QuietAndOpen(s.rolls[r]) && HealthyAndFree(s) then
        && b in s'.batches && s'.batches[b] == Batch(r, None, None, false, false, false)
        && r in s'.rolls && s'.rolls[r] == Roll(false, false, false, true, Some(b), None, Some(b), false, s.rolls[r].previewThread)
        && s'.device == s.device.(ioLocked := true) && s'.ioOwner == Some(BatchIo(b))
      else b !in s'.batches && s'.rolls[r] == s.rolls[r] && s'.device == s.device && s'.ioOwner == s.ioOwner
  {
    assert RollOk(s, r);
  }

  /** A preview, a film query or an exposure solve begins exactly on a quiet open roll, and
      gets the device exactly if it is healthy and free. */
  lemma HoldsExactly(s: State, t: ThreadId, r: RollId)
    requires Inv(s) && Enabled(s, CallHold(t, r))
    ensures var s' := Apply(s, CallHold(t, r));
      if QuietAndOpen(s.rolls[r]) then
        && PcOf(s', t) == InRoll(r, HoldClaiming)
        && r in s'.rolls && s'.rolls[r] == s.rolls[r].(previewActive := true, previewThread := Some(t))
      else PcOf(s', t).Idle? && s'.rolls[r] == s.rolls[r]
  {
  }

  lemma ClaimsExactly(s: State, t: ThreadId, r: RollId, w: Answer)
    requires Inv(s) && PcOf(s, t) == InRoll(r, HoldClaiming)
    ensures Enabled(s, Resume(t, w))
    ensures var s' := Apply(s, Resume(t, w));
      if HealthyAndFree(s) then PcOf(s', t) == InRoll(r, HoldRunning) && s'.ioOwner == Some(ThreadIo(t))
      else PcOf(s', t) == InRoll(r, HoldLeaving) && s'.ioOwner == s.ioOwner && s'.device == s.device
  {
    assert ThreadOk(s, t);
  }

  /** A one-off device call runs exactly on a healthy free device; `Device.close` exactly on
      an open one that is free of I/O and of rolls, healthy or not. */
  lemma DeviceCallsExactly(s: State, t: ThreadId)
    requires Inv(s) && PcOf(s, t).Idle?
    ensures var s' := Apply(s, CallDeviceIo(t));
      if HealthyAndFree(s) then PcOf(s', t).DeviceRunning? && s'.device == s.device.(ioLocked := true)
      else PcOf(s', t).Idle? && s'.device == s.device
    ensures var s' := Apply(s, CallDeviceClose(t));
      if !s.device.closed && s.ioOwner.None? && s.rollOwner.None?
      then PcOf(s', t).DeviceClosing? && s'.device == s.device.(closed := true, ioLocked := true)
      else PcOf(s', t).Idle? && s'.device == s.device
  {
  }

  // -- a fault or a close of the device is final ------------------------------------------------

  predicate Unusable(d: Device) {
    d.closed || d.faultedReason.Some?
  }

  /** Nothing new begins: no roll is opened, no batch reserved, and the I/O lock is taken by
      nothing but `Device.close`. */
  ghost predicate NothingBegins(s: State, a: Action, s': State) {
    && s'.rolls.Keys == s.rolls.Keys && s'.batches.Keys == s.batches.Keys
    && (s'.ioOwner == s.ioOwner || s'.ioOwner.None? || a.CallDeviceClose?)
  }

  /** A step that begins nothing, at its site. */
  predicate Begun(l: Local, l': Local) {
    && l'.device.closed == l.device.closed && l'.device.faultedReason == l.device.faultedReason
    && (l.batch.Some? <==> l'.batch.Some?) && (l.roll.Some? <==> l'.roll.Some?)
    && (l'.ioOwner == l.ioOwner || l'.ioOwner.None?)
  }

  lemma FinishBeginsNothing(l: Local, b: BatchId, path: Path, at: FinishStage, w: Answer)
    requires l.batch.Some? && l.roll.Some?
    ensures Begun(l, FinishStep(l, b, path, at, w))
  {
  }

  lemma BatchBeginsNothing(l: Local, t: ThreadId, b: BatchId, stage: BatchStage, w: Answer)
    requires l.batch.Some? && l.roll.Some? && !stage.Finish?
    ensures Begun(l, BatchStep(l, t, b, stage, w))
  {
  }

  lemma RollBeginsNothing(l: Local, t: ThreadId, r: RollId, at: RollStage, reachable: set<BatchId>)
    requires l.roll.Some? && Unusable(l.device)
    ensures Begun(l, RollStep(l, t, r, at, reachable))
  {
  }

  lemma ResumeKeepsUnusable(l: Local, x: Site, w: Answer, reachable: set<BatchId>)
    requires Unusable(l.device)
    ensures Begun(l, ResumeStep(l, x.t, w, reachable))
  {
    match l.pc
    case InBatch(b, stage) =>
      if l.batch.Some? && l.roll.Some? {
        if stage.Finish? { FinishBeginsNothing(l, b, stage.path, stage.at, w); } else { BatchBeginsNothing(l, x.t, b, stage, w); }
      }
    case InRoll(r, at) => if l.roll.Some? { RollBeginsNothing(l, x.t, r, at, reachable); }
    case _ =>
  }

  lemma CallKeepsUnusable(s: State, a: Action, l: Local)
    requires Enabled(s, a) && l == Focus(s, SiteOf(s, a)) && Unusable(l.device)
    requires !a.Resume?
    ensures var l' := Effect(s, a, l);
      && Unusable(l'.device) && (l.batch.Some? <==> l'.batch.Some?) && (l.roll.Some? <==> l'.roll.Some?)
      && (l'.ioOwner == l.ioOwner || a.CallDeviceClose?)
  {
  }

  lemma KeepsKeys(s: State, x: Site, l: Local)
    requires Focus(s, x).batch.Some? <==> l.batch.Some?
    requires Focus(s, x).roll.Some? <==> l.roll.Some?
    ensures Write(s, x, l).batches.Keys == s.batches.Keys && Write(s, x, l).rolls.Keys == s.rolls.Keys
  {
  }

  lemma StepStaysUnusable(s: State, a: Action)
    requires Inv(s) && Enabled(s, a) && Unusable(s.device)
    ensures Unusable(Apply(s, a).device) && NothingBegins(s, a, Apply(s, a))
  {
    hide Inv;
    var x := SiteOf(s, a);
    var l := Focus(s, x);
    if a.Resume? { ResumeKeepsUnusable(l, x, a.answer, Reachable(s)); } else { CallKeepsUnusable(s, a, l); }
    KeepsKeys(s, x, Effect(s, a, l));
  }

  lemma RunStaysUnusable(states: seq<State>, actions: seq<Action>, k: nat)
    requires RunFrom(states, actions) && k < |actions| && Unusable(states[k].device)
    ensures |states| == |actions| + 1
    ensures Unusable(states[k + 1].device) && NothingBegins(states[k], actions[k], states[k + 1])
  {
    RunInv(states, actions, k);
    assert states[k + 1] == Apply(states[k], actions[k]);
    StepStaysUnusable(states[k], actions[k]);
  }

  lemma {:induction false} StaysUnusable(states: seq<State>, actions: seq<Action>, i: nat, j: nat)
    requires RunFrom(states, actions) && i <= j <= |actions| && |states| == |actions| + 1 && Unusable(states[i].device)
    ensures Unusable(states[j].device)
    ensures states[j].rolls.Keys == states[i].rolls.Keys && states[j].batches.Keys == states[i].batches.Keys
    decreases j
  {
    hide RunFrom, Unusable;
    if i < j {
      StaysUnusable(states, actions, i, j - 1);
      RunStaysUnusable(states, actions, j - 1);
    }
  }

  /** Once the device is faulted or closed it stays so, and from then on nothing begins. */
  lemma FaultIsFinal(states: seq<State>, actions: seq<Action>, i: nat, j: nat)
    requires RunFrom(states, actions) && i <= j <= |actions| && Unusable(states[i].device)
    ensures Unusable(states[j].device)
    ensures states[j].rolls.Keys == states[i].rolls.Keys && states[j].batches.Keys == states[i].batches.Keys
    ensures j < |actions| ==> NothingBegins(states[j], actions[j], states[j + 1])
  {
    StaysUnusable(states, actions, i, j);
    if j < |actions| { RunStaysUnusable(states, actions, j); }
  }

  // -- a stop is somebody's ------------------------------------------------------------------------

  /** A thread outside the batch asks to close a batch that is neither closed nor uncertain. */
  predicate CloseAsks(x: Batch, t: ThreadId) {
    !x.uncertain && !x.closed && x.executing != Some(t) && x.closing != Some(t)
  }

  predicate RollCloseAsks(r: Roll) {
    !r.closing && !r.closed
  }

  /** The steps that ask a roll to stop: `safe_stop`, the iterator's `close` (also called by
      `Roll.close` and by abandonment) and the opening block of `Roll.close`. */
  predicate AsksToStop(s: State, a: Action, r: RollId) {
    match a
    case CallSafeStop(_, q) => q == r
    case CallRollClose(_, q) => q == r && r in s.rolls && RollCloseAsks(s.rolls[r])
    case Resume(t, _) =>
      (match PcOf(s, t)
       case InBatch(b, CloseCalled(_)) => b in s.batches && s.batches[b].roll == r && CloseAsks(s.batches[b], t)
       case InRoll(q, Queued) => q == r && r in s.rolls && RollCloseAsks(s.rolls[r])
       case _ => false)
    case _ => false
  }

  /** At the site: the active batch is stopped exactly if it was before or the step asks for it. */
  predicate StopCaused(l: Local, l': Local, asks: bool) {
    l'.roll.Some? && l'.roll.value.activeBatchId.Some? ==>
      (l'.roll.value.stop <==>
        l.roll.Some? && l.roll.value.activeBatchId == l'.roll.value.activeBatchId && (l.roll.value.stop || asks))
  }

  lemma FinishCausesNoStop(l: Local, b: BatchId, path: Path, at: FinishStage, w: Answer)
    requires l.batch.Some? && l.roll.Some?
    ensures StopCaused(l, FinishStep(l, b, path, at, w), false)
  {
  }

  lemma BatchCausesStop(l: Local, t: ThreadId, b: BatchId, stage: BatchStage, w: Answer)
    requires l.batch.Some? && l.roll.Some? && !stage.Finish?
    ensures StopCaused(l, BatchStep(l, t, b, stage, w), stage.CloseCalled? && CloseAsks(l.batch.value, t))
  {
  }

  lemma RollCausesStop(l: Local, t: ThreadId, r: RollId, at: RollStage, reachable: set<BatchId>)
    requires l.roll.Some?
    ensures StopCaused(l, RollStep(l, t, r, at, reachable), at.Queued? && RollCloseAsks(l.roll.value))
  {
  }

  lemma ResumeCausesStop(s: State, a: Action)
    requires Inv(s) && Enabled(s, a) && a.Resume?
    ensures var x := SiteOf(s, a); var l := Focus(s, x);
      x.r.Some? ==> StopCaused(l, Effect(s, a, l), AsksToStop(s, a, x.r.value))
  {
    assert ThreadOk(s, a.t);
    hide StopCaused, FinishStep, BatchStep, RollStep, ThreadOk, CloseAsks, RollCloseAsks;
    var l := Focus(s, SiteOf(s, a));
    match l.pc
    case InBatch(b, stage) =>
      if stage.Finish? { FinishCausesNoStop(l, b, stage.path, stage.at, a.answer); }
      else { BatchCausesStop(l, a.t, b, stage, a.answer); }
    case InRoll(r, at) => RollCausesStop(l, a.t, r, at, Reachable(s));
    case _ =>
  }

  lemma ScanManyCausesNoStop(l: Local, r: RollId, b: BatchId)
    requires l.roll.Some?
    ensures StopCaused(l, ScanManyStep(l, r, b), false)
  {
  }

  lemma RollCloseCausesStop(l: Local, t: ThreadId, r: RollId, reachable: set<BatchId>)
    requires l.roll.Some?
    ensures StopCaused(l, RollCloseStep(l, t, r, reachable), RollCloseAsks(l.roll.value))
  {
  }

  lemma ExpireCausesNoStop(l: Local)
    ensures StopCaused(l, ExpireStep(l), false)
  {
  }

  lemma OtherCausesStop(s: State, a: Action, l: Local)
    requires Enabled(s, a) && !a.Resume? && !a.Expire? && !a.CallScanMany? && !a.CallRollClose?
    requires l == Focus(s, SiteOf(s, a)) && SiteOf(s, a).r.Some?
    ensures StopCaused(l, Effect(s, a, l), a.CallSafeStop?)
  {
  }

  lemma CallCausesStop(s: State, a: Action)
    requires Inv(s) && Enabled(s, a) && !a.Resume?
    ensures var x := SiteOf(s, a); var l := Focus(s, x);
      x.r.Some? ==> StopCaused(l, Effect(s, a, l), AsksToStop(s, a, x.r.value))
  {
    hide Inv, StopCaused, ScanManyStep, RollCloseStep, ExpireStep, RollCloseAsks;
    var x := SiteOf(s, a);
    var l := Focus(s, x);
    if a.CallScanMany? {
      ScanManyCausesNoStop(l, a.r, a.b);
    } else if a.CallRollClose? {
      RollCloseCausesStop(l, a.t, a.r, Reachable(s));
    } else if a.Expire? {
      ExpireCausesNoStop(l);
    } else if x.r.Some? {
      OtherCausesStop(s, a, l);
    }
  }

  lemma WriteCausesStop(s: State, x: Site, l: Local, r: RollId, asks: bool)
    requires x.r == Some(r) ==> StopCaused(Focus(s, x), l, asks)
    requires x.r != Some(r) ==> !asks
    requires x.r == Some(r) ==> (Focus(s, x).roll.Some? <==> r in s.rolls)
    ensures Caused(s, Write(s, x, l), r, asks)
  {
  }

  predicate Caused(s: State, s': State, r: RollId, asks: bool) {
    r in s'.rolls && s'.rolls[r].activeBatchId.Some? ==>
      (s'.rolls[r].stop <==>
        r in s.rolls && s.rolls[r].activeBatchId == s'.rolls[r].activeBatchId && (s.rolls[r].stop || asks))
  }

  lemma AskedAtItsSite(s: State, a: Action, r: RollId)
    requires Inv(s) && Enabled(s, a) && AsksToStop(s, a, r)
    ensures SiteOf(s, a).r == Some(r)
  {
    hide Inv, Enabled, CloseAsks, RollCloseAsks;
  }

  lemma StepCausesStop(s: State, a: Action, r: RollId)
    requires Inv(s) && Enabled(s, a)
    ensures Caused(s, Apply(s, a), r, AsksToStop(s, a, r))
  {
    hide Inv, StopCaused, Effect, AsksToStop;
    var x := SiteOf(s, a);
    if AsksToStop(s, a, r) { AskedAtItsSite(s, a, r); }
    if a.Resume? { ResumeCausesStop(s, a); } else { CallCausesStop(s, a); }
    WriteCausesStop(s, x, Effect(s, a, Focus(s, x)), r, AsksToStop(s, a, r));
  }

  lemma RunCausesStop(states: seq<State>, actions: seq<Action>, k: nat, r: RollId)
    requires Run(states, actions) && k < |actions|
    ensures |states| == |actions| + 1
    ensures Caused(states[k], states[k + 1], r, AsksToStop(states[k], actions[k], r))
  {
    RunInv(states, actions, k);
    assert states[k + 1] == Apply(states[k], actions[k]);
    StepCausesStop(states[k], actions[k], r);
  }

  predicate ActiveIn(s: State, r: RollId, b: BatchId) {
    r in s.rolls && s.rolls[r].activeBatchId == Some(b)
  }

  ghost predicate ActiveAll(states: seq<State>, i: nat, k: nat, r: RollId, b: BatchId)
    requires k < |states|
  {
    forall j | i <= j <= k :: ActiveIn(states[j], r, b)
  }

  /** Somebody asked the roll to stop at a step at which `b` was already its batch. */
  ghost predicate Asked(states: seq<State>, actions: seq<Action>, k: nat, r: RollId, b: BatchId)
    requires |states| == |actions| + 1 && k <= |actions|
  {
    exists i | 0 <= i < k :: AsksToStop(states[i], actions[i], r) && ActiveAll(states, i, k, r, b)
  }

  lemma AskedGrows(states: seq<State>, actions: seq<Action>, k: nat, r: RollId, b: BatchId)
    requires |states| == |actions| + 1 && k < |actions| && ActiveIn(states[k + 1], r, b)
    ensures Asked(states, actions, k + 1, r, b)
      <==> ActiveIn(states[k], r, b) && (Asked(states, actions, k, r, b) || AsksToStop(states[k], actions[k], r))
  {
    hide AsksToStop;
    if Asked(states, actions, k + 1, r, b) {
      var i :| 0 <= i < k + 1 && AsksToStop(states[i], actions[i], r) && ActiveAll(states, i, k + 1, r, b);
      assert ActiveIn(states[k], r, b);
      if i < k { assert ActiveAll(states, i, k, r, b); }
    }
    if ActiveIn(states[k], r, b) {
      if AsksToStop(states[k], actions[k], r) { assert ActiveAll(states, k, k + 1, r, b); }
      if Asked(states, actions, k, r, b) {
        var i :| 0 <= i < k && AsksToStop(states[i], actions[i], r) && ActiveAll(states, i, k, r, b);
        assert ActiveAll(states, i, k + 1, r, b);
      }
    }
  }

  /** In every run a roll with an active batch is stopped exactly if somebody has asked it
      to stop since that batch was reserved: reserving a batch clears the stop of the one
      before, and nothing clears its own. */
  lemma {:induction false} StoppedExactlyIfAsked(states: seq<State>, actions: seq<Action>, k: nat, r: RollId, b: BatchId)
    requires Run(states, actions) && |states| == |actions| + 1 && k <= |actions| && ActiveIn(states[k], r, b)
    ensures states[k].rolls[r].stop <==> Asked(states, actions, k, r, b)
  {
    hide AsksToStop, Asked;
    if k == 0 {
      NothingAtFirst(states, actions, r);
      assert false;
    } else {
      hide Run;
      RunCausesStop(states, actions, k - 1, r);
      AskedGrows(states, actions, k - 1, r, b);
      if ActiveIn(states[k - 1], r, b) { StoppedExactlyIfAsked(states, actions, k - 1, r, b); }
    }
  }

  lemma NothingAtFirst(states: seq<State>, actions: seq<Action>, r: RollId)
    requires Run(states, actions)
    ensures r !in states[0].rolls
  {
  }

  // -- a closed iterator stays closed ------------------------------------------------------------------

  /** The thread is at a place of the batch's life that ends with its closing. */
  predicate Alive(pc: Pc, b: BatchId) {
    pc.InBatch? && pc.b == b &&
    match pc.stage
    case NextRunning => true
    case NextMarking => true
    case NextRetaining => true
    case CloseRunning(_) => true
    case CloseFailing(_) => true
    case Finish(_, _) => true
    case _ => false
  }

  /** At the site: an open batch only is entered, and a closed one is reopened only by a
      thread that was inside. */
  predicate ClosedStays(l: Local, l': Local, b: BatchId) {
    && (l.batch.Some? && l.batch.value.closed && !Alive(l.pc, b) ==>
          l'.batch.Some? && l'.batch.value.closed && !Alive(l'.pc, b))
    && (l'.batch.Some? && l'.batch.value.closed && !(l.batch.Some? && l.batch.value.closed) ==>
          Alive(l.pc, b) && !Alive(l'.pc, b))
  }

  lemma FinishStaysClosed(l: Local, b: BatchId, path: Path, at: FinishStage, w: Answer)
    requires l.batch.Some? && l.roll.Some? && l.pc == InBatch(b, Finish(path, at))
    ensures ClosedStays(l, FinishStep(l, b, path, at, w), b)
  {
  }

  lemma BatchStaysClosed(l: Local, t: ThreadId, b: BatchId, stage: BatchStage, w: Answer)
    requires l.batch.Some? && l.roll.Some? && l.pc == InBatch(b, stage) && !stage.Finish?
    ensures ClosedStays(l, BatchStep(l, t, b, stage, w), b)
  {
  }

  lemma RollStaysClosed(l: Local, t: ThreadId, r: RollId, at: RollStage, reachable: set<BatchId>, b: BatchId)
    requires l.roll.Some? && l.pc == InRoll(r, at)
    ensures RollStep(l, t, r, at, reachable).batch == l.batch
    ensures !Alive(RollStep(l, t, r, at, reachable).pc, b)
  {
  }

  lemma ResumeStaysClosed(s: State, a: Action, b: BatchId)
    requires Inv(s) && Enabled(s, a) && a.Resume?
    ensures var x := SiteOf(s, a); var l := Focus(s, x); var l' := Effect(s, a, l);
      && (x.b == Some(b) ==> ClosedStays(l, l', b))
      && (x.b != Some(b) ==> !Alive(l'.pc, b))
  {
    hide FinishStep, BatchStep, RollStep, Alive, ClosedStays, Inv;
    var l := Focus(s, SiteOf(s, a));
    var l' := Effect(s, a, l);
    AliveInItsBatch(l'.pc, b);
    UntouchedStays(l, l', b);
    match l.pc
    case InBatch(c, stage) =>
      if stage.Finish? {
        FinishStaysIn(l, c, stage.path, stage.at, a.answer);
        FinishStaysClosed(l, c, stage.path, stage.at, a.answer);
        FinishIsItsStep(l, a.t, c, stage, a.answer);
      } else {
        BatchStaysIn(l, a.t, c, stage, a.answer);
        BatchStaysClosed(l, a.t, c, stage, a.answer);
      }
    case InRoll(r, at) => RollStaysClosed(l, a.t, r, at, Reachable(s), b);
    case _ =>
  }

  lemma FinishIsItsStep(l: Local, t: ThreadId, b: BatchId, stage: BatchStage, w: Answer)
    requires l.batch.Some? && l.roll.Some? && stage.Finish?
    ensures BatchStep(l, t, b, stage, w) == FinishStep(l, b, stage.path, stage.at, w)
  {
  }

  lemma AliveInItsBatch(pc: Pc, b: BatchId)
    ensures Alive(pc, b) ==> pc.InBatch? && pc.b == b
  {
  }

  lemma UntouchedStays(l: Local, l': Local, b: BatchId)
    ensures l'.batch == l.batch && !Alive(l'.pc, b) && !l.pc.InBatch? ==> ClosedStays(l, l', b)
  {
  }

  lemma FinishStaysIn(l: Local, b: BatchId, path: Path, at: FinishStage, w: Answer)
    requires l.batch.Some? && l.roll.Some?
    ensures var pc := FinishStep(l, b, path, at, w).pc; pc.InBatch? ==> pc.b == b
  {
  }

  lemma BatchStaysIn(l: Local, t: ThreadId, b: BatchId, stage: BatchStage, w: Answer)
    requires l.batch.Some? && l.roll.Some? && !stage.Finish?
    ensures var pc := BatchStep(l, t, b, stage, w).pc; pc.InBatch? ==> pc.b == b
  {
  }

  /** What a call or an expired deadline leaves at its site. */
  predicate CallStays(l: Local, l': Local, b: BatchId, x: Site) {
    && (x.b == Some(b) ==> ClosedStays(l, l', b))
    && (x.b != Some(b) ==> !Alive(l'.pc, b))
  }

  lemma NextStaysClosed(s: State, t: ThreadId, c: BatchId, b: BatchId)
    requires Enabled(s, CallNext(t, c))
    ensures var x := SiteOf(s, CallNext(t, c)); var l := Focus(s, x); CallStays(l, NextStep(l, t, c), b, x)
  {
  }

  lemma ScanManyStaysClosed(s: State, t: ThreadId, r: RollId, c: BatchId, b: BatchId)
    requires Enabled(s, CallScanMany(t, r, c))
    ensures var x := SiteOf(s, CallScanMany(t, r, c)); var l := Focus(s, x); CallStays(l, ScanManyStep(l, r, c), b, x)
  {
  }

  lemma ExpireStaysClosed(s: State, t: ThreadId, b: BatchId)
    requires Inv(s) && Enabled(s, Expire(t))
    ensures var x := Own(s, t); var l := Focus(s, x); CallStays(l, ExpireStep(l), b, x)
  {
    assert ThreadOk(s, t);
  }

  lemma OtherStaysClosed(s: State, a: Action, b: BatchId)
    requires Enabled(s, a) && !a.Resume? && !a.Expire? && !a.CallNext? && !a.CallScanMany?
    ensures var x := SiteOf(s, a); var l := Focus(s, x); CallStays(l, Effect(s, a, l), b, x)
  {
  }

  lemma CallStaysClosed(s: State, a: Action, b: BatchId)
    requires Inv(s) && Enabled(s, a) && !a.Resume?
    ensures var x := SiteOf(s, a); var l := Focus(s, x); CallStays(l, Effect(s, a, l), b, x)
  {
    hide CallStays, Inv, NextStep, ScanManyStep, ExpireStep;
    match a
    case CallNext(t, c) => NextStaysClosed(s, t, c, b);
    case CallScanMany(t, r, c) => ScanManyStaysClosed(s, t, r, c, b);
    case Expire(t) => ExpireStaysClosed(s, t, b);
    case _ => OtherStaysClosed(s, a, b);
  }

  lemma ClosedAside(s: State, b: BatchId, gone: set<BatchId>)
    ensures ClosedForGood(s, b) ==> ClosedForGood(s.(abandoned := gone), b)
  {
    assert forall t :: PcOf(s.(abandoned := gone), t) == PcOf(s, t);
  }

  ghost predicate ClosedForGood(s: State, b: BatchId) {
    b in s.batches && s.batches[b].closed ==> forall t :: !Alive(PcOf(s, t), b)
  }

  /** Two threads at such places of one batch are one thread. */
  lemma AliveIsExclusive(s: State, b: BatchId, t: ThreadId, u: ThreadId)
    requires Inv(s) && Alive(PcOf(s, t), b) && Alive(PcOf(s, u), b)
    ensures t == u && b in s.batches
  {
    assert ThreadOk(s, t) && ThreadOk(s, u);
    assert BatchOk(s, b);
  }

  lemma WriteStaysClosed(s: State, x: Site, l: Local, b: BatchId)
    requires ClosedForGood(s, b)
    requires forall t, u | Alive(PcOf(s, t), b) && Alive(PcOf(s, u), b) :: t == u
    requires x.b == Some(b) ==> ClosedStays(Focus(s, x), l, b)
    requires x.b != Some(b) ==> !Alive(l.pc, b)
    ensures var s' := Write(s, x, l);
      && ClosedForGood(s', b)
      && (b in s.batches && s.batches[b].closed ==> b in s'.batches && s'.batches[b].closed)
  {
    var s' := Write(s, x, l);
    forall t
      ensures PcOf(s', t) == if t == x.t then l.pc else PcOf(s, t)
    {
    }
  }

  lemma StepStaysClosed(s: State, a: Action, b: BatchId)
    requires Inv(s) && Enabled(s, a) && ClosedForGood(s, b)
    ensures ClosedForGood(Apply(s, a), b)
    ensures b in s.batches && s.batches[b].closed ==> b in Apply(s, a).batches && Apply(s, a).batches[b].closed
  {
    hide Inv, ClosedStays, Effect, Alive;
    if a.Resume? { ResumeStaysClosed(s, a, b); } else { CallStaysClosed(s, a, b); }
    forall t, u | Alive(PcOf(s, t), b) && Alive(PcOf(s, u), b)
      ensures t == u
    {
      AliveIsExclusive(s, b, t, u);
    }
    var l := Effect(s, a, Focus(s, SiteOf(s, a)));
    WriteStaysClosed(s, SiteOf(s, a), l, b);
    if a.Abandon? { ClosedAside(Write(s, SiteOf(s, a), l), b, s.abandoned + {a.b}); }
  }

  lemma {:induction false} RunStaysClosed(states: seq<State>, actions: seq<Action>, k: nat, b: BatchId)
    requires Run(states, actions) && k <= |actions|
    ensures |states| == |actions| + 1 && ClosedForGood(states[k], b)
    ensures k > 0 && b in states[k - 1].batches && states[k - 1].batches[b].closed
      ==> b in states[k].batches && states[k].batches[b].closed
  {
    if k > 0 {
      RunStaysClosed(states, actions, k - 1, b);
      RunInv(states, actions, k - 1);
      assert states[k - 1 + 1] == Apply(states[k - 1], actions[k - 1]);
      StepStaysClosed(states[k - 1], actions[k - 1], b);
    }
  }

  /** Once an iterator has closed it stays closed, and no thread is ever again inside its
      generator or on the way to release its locks. */
  lemma {:induction false} CloseIsFinal(states: seq<State>, actions: seq<Action>, i: nat, j: nat, b: BatchId)
    requires Run(states, actions) && i <= j <= |actions| && |states| == |actions| + 1
    requires b in states[i].batches && states[i].batches[b].closed
    ensures b in states[j].batches && states[j].batches[b].closed
    ensures forall t :: !InGenerator(PcOf(states[j], t), b) && !MayRelease(PcOf(states[j], t), b)
    decreases j
  {
    hide Run, Alive;
    if i < j { CloseIsFinal(states, actions, i, j - 1, b); }
    RunStaysClosed(states, actions, j, b);
    forall t
      ensures !InGenerator(PcOf(states[j], t), b) && !MayRelease(PcOf(states[j], t), b)
    {
      assert !Alive(PcOf(states[j], t), b);
      InsideIsAlive(PcOf(states[j], t), b);
    }
  }

  lemma InsideIsAlive(pc: Pc, b: BatchId)
    ensures InGenerator(pc, b) || MayRelease(pc, b) ==> Alive(pc, b)
  {
  }
}
