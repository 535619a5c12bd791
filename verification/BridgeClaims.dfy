/** Who may move the film: which requests a session accepts, said on its history alone. */
module BridgeClaims {
  import opened Wrappers
  import opened BridgeCore
  import opened BridgeProtocol
  import opened BridgeSafety
  import opened BridgeTheorems

  /** What a request's acceptance depends on besides the operations in progress. */
  datatype Fact = DeviceIsOpen | FilmIsPreviewed | LaneIsTaken

  predicate Known(f: Fact, s: State) {
    match f
    case DeviceIsOpen => s.session.deviceOpen
    case FilmIsPreviewed => s.session.previewed
    case LaneIsTaken => s.session.lock == Some(External)
  }

  predicate CallOf(s: State, a: Action) {
    a.CallEnds? && a.op < |s.workers| && s.workers[a.op].phase.Calling?
  }

  /** The device was opened; a preview succeeded or frames were placed by hand on an open
      device between operations; another process took the lane. */
  predicate Establishes(f: Fact, s: State, a: Action) {
    match f
    case DeviceIsOpen => a.OpenDevice?
    case FilmIsPreviewed =>
      || (CallOf(s, a) && s.workers[a.op].kind.Preview? && a.outcome.Success?)
      || (a.ManualFrames? && s.session.deviceOpen && !s.session.motionOpActive)
    case LaneIsTaken => a.ExternalTakes?
  }

  /** The device was closed; the film was lost, ejected or given up by a failing solve or
      scan, or the device was closed; the other process let go. */
  predicate Retires(f: Fact, s: State, a: Action) {
    match f
    case DeviceIsOpen => a.CloseReturns?
    case FilmIsPreviewed =>
      || a.CloseReturns? || a.FilmLost?
      || (a.EjectContinues? && s.dispatch == EjectExitingLane(true))
      || (CallOf(s, a) && !s.workers[a.op].kind.Preview? && a.outcome == Failure(true))
    case LaneIsTaken => a.ExternalReleases?
  }

  /** Established at some step before `k`, and never retired since. */
  ghost predicate Since(f: Fact, states: seq<State>, actions: seq<Action>, k: nat)
    requires |states| == |actions| + 1 && k <= |actions|
  {
    exists i | 0 <= i < k :: Establishes(f, states[i], actions[i]) && Stands(f, states, actions, i, k)
  }

  ghost predicate Stands(f: Fact, states: seq<State>, actions: seq<Action>, i: nat, k: nat)
    requires |states| == |actions| + 1 && k <= |actions|
  {
    forall j | i < j < k :: !Retires(f, states[j], actions[j])
  }

  lemma StepKnowsDevice(s: State, a: Action)
    requires Enabled(s, a)
    ensures Known(DeviceIsOpen, Apply(s, a))
      <==> Establishes(DeviceIsOpen, s, a) || (Known(DeviceIsOpen, s) && !Retires(DeviceIsOpen, s, a))
  {
  }

  lemma StepKnowsFilm(s: State, a: Action)
    requires Enabled(s, a) && DispatchOk(s)
    ensures Known(FilmIsPreviewed, Apply(s, a))
      <==> Establishes(FilmIsPreviewed, s, a) || (Known(FilmIsPreviewed, s) && !Retires(FilmIsPreviewed, s, a))
  {
  }

  /** The lane of another process is left only by that process: what the worker and the
      eject let go of is their own. */
  lemma LeavesItsOwnLane(s: State, a: Action)
    requires LaneOk(s) && WorkersOk(s) && Enabled(s, a)
    ensures a.Advance? && s.workers[a.op].phase.ExitingLane? ==> s.session.lock != Some(External)
    ensures a.EjectContinues? && s.dispatch.EjectExitingLane? ==> s.session.lock != Some(External)
  {
  }

  lemma StepKnowsLane(s: State, a: Action)
    requires LaneOk(s) && WorkersOk(s) && Enabled(s, a)
    ensures Known(LaneIsTaken, Apply(s, a))
      <==> Establishes(LaneIsTaken, s, a) || (Known(LaneIsTaken, s) && !Retires(LaneIsTaken, s, a))
  {
    hide LaneOk, WorkersOk;
    LeavesItsOwnLane(s, a);
  }

  lemma StepKnows(f: Fact, s: State, a: Action)
    requires StateOk(s) && Enabled(s, a)
    ensures Known(f, Apply(s, a)) <==> Establishes(f, s, a) || (Known(f, s) && !Retires(f, s, a))
  {
    hide Known, Apply, Establishes, Retires, LaneOk, WorkersOk, DispatchOk;
    match f
    case DeviceIsOpen => StepKnowsDevice(s, a);
    case FilmIsPreviewed => StepKnowsFilm(s, a);
    case LaneIsTaken => StepKnowsLane(s, a);
  }

  lemma NothingKnownYet(f: Fact, states: seq<State>, actions: seq<Action>)
    requires Run(states, actions)
    ensures !Known(f, states[0]) && !Since(f, states, actions, 0)
  {
  }

  lemma RunKnows(f: Fact, states: seq<State>, actions: seq<Action>, k: nat)
    requires Run(states, actions) && k < |actions|
    ensures |states| == |actions| + 1
    ensures var s, a := states[k], actions[k];
      Known(f, states[k + 1]) <==> Establishes(f, s, a) || (Known(f, s) && !Retires(f, s, a))
  {
    RunInv(states, actions, k);
    assert states[k + 1] == Apply(states[k], actions[k]);
    StepKnows(f, states[k], actions[k]);
  }

  /** What the session's fields claim is what its history says. */
  lemma {:induction false} KnownExactlySince(f: Fact, states: seq<State>, actions: seq<Action>, k: nat)
    requires Run(states, actions) && k <= |actions|
    ensures Known(f, states[k]) <==> Since(f, states, actions, k)
  {
    hide Known, Since, Establishes, Retires, Run;
    if k == 0 {
      NothingKnownYet(f, states, actions);
    } else {
      KnownExactlySince(f, states, actions, k - 1);
      RunKnows(f, states, actions, k - 1);
      SinceGrows(f, states, actions, k - 1);
    }
  }

  lemma SinceGrows(f: Fact, states: seq<State>, actions: seq<Action>, k: nat)
    requires |states| == |actions| + 1 && k < |actions|
    ensures Since(f, states, actions, k + 1)
      <==> Establishes(f, states[k], actions[k]) || (Since(f, states, actions, k) && !Retires(f, states[k], actions[k]))
  {
    if Since(f, states, actions, k + 1) {
      var i :| 0 <= i < k + 1 && Establishes(f, states[i], actions[i]) && Stands(f, states, actions, i, k + 1);
      if i < k { assert Stands(f, states, actions, i, k); }
    }
    if Establishes(f, states[k], actions[k]) {
      assert Stands(f, states, actions, k, k + 1);
    } else if Since(f, states, actions, k) && !Retires(f, states[k], actions[k]) {
      var i :| 0 <= i < k && Establishes(f, states[i], actions[i]) && Stands(f, states, actions, i, k);
      assert Stands(f, states, actions, i, k + 1);
    }
  }

  /** Every accepted operation has cleared its gate. */
  predicate AllCleared(s: State) {
    forall op: OpId | op < |s.workers| :: Cleared(s.workers[op].phase)
  }

  lemma ClearedMeansIdle(s: State)
    requires StateOk(s) && s.dispatch.Ready?
    ensures AllCleared(s) <==> !s.session.motionOpActive
    ensures AllCleared(s) ==> (s.session.lock.None? <==> s.session.lock != Some(External)) && !JobRunning(s.session)
  {
    if !s.session.motionOpActive && HasLast(s) { assert Cleared(Last(s).phase); }
    if AllCleared(s) && HasLast(s) { assert Cleared(s.workers[|s.workers| - 1].phase); }
  }

  lemma MotionStarts(s: State, kind: Kind, armed: bool)
    requires StateOk(s) && Enabled(s, RequestMotion(kind, armed))
    ensures var s' := Apply(s, RequestMotion(kind, armed));
      if Known(DeviceIsOpen, s) && (kind.Preview? || Known(FilmIsPreviewed, s)) && armed
         && AllCleared(s) && !Known(LaneIsTaken, s)
      then s'.trace == s.trace + [OpAccepted(|s.workers|, kind)] && s'.workers == s.workers + [Worker(kind, Calling)]
      else s' == s
  {
    ClearedMeansIdle(s);
  }

  /** In every run a motion request is accepted exactly when the device has been opened and
      not closed since, a solve or a scan finds a preview that still stands, the session is
      armed, every earlier operation has cleared its gate, and no other process has the
      lane; otherwise it changes nothing. */
  lemma MotionAcceptedExactly(states: seq<State>, actions: seq<Action>, k: nat)
    requires Run(states, actions) && k < |actions| && actions[k].RequestMotion?
    ensures var s, s', kind := states[k], states[k + 1], actions[k].kind;
      if Since(DeviceIsOpen, states, actions, k) && (kind.Preview? || Since(FilmIsPreviewed, states, actions, k))
         && actions[k].armed && AllCleared(s) && !Since(LaneIsTaken, states, actions, k)
      then s'.trace == s.trace + [OpAccepted(|s.workers|, kind)] && s'.workers == s.workers + [Worker(kind, Calling)]
      else s' == s
  {
    RunInv(states, actions, k);
    KnownExactlySince(DeviceIsOpen, states, actions, k);
    KnownExactlySince(FilmIsPreviewed, states, actions, k);
    KnownExactlySince(LaneIsTaken, states, actions, k);
    MotionStarts(states[k], actions[k].kind, actions[k].armed);
  }

  lemma EjectStarts(s: State, armed: bool)
    requires StateOk(s) && Enabled(s, RequestEject(armed))
    ensures var s' := Apply(s, RequestEject(armed));
      if Known(DeviceIsOpen, s) && armed && AllCleared(s) && !Known(LaneIsTaken, s)
      then s'.trace == s.trace + [EjectAccepted] && s'.dispatch.Ejecting?
      else s' == s
  {
    ClearedMeansIdle(s);
  }

  lemma CloseStarts(s: State)
    requires StateOk(s) && Enabled(s, RequestClose)
    ensures var s' := Apply(s, RequestClose);
      if Known(DeviceIsOpen, s) && AllCleared(s)
      then s'.trace == s.trace + [CloseAccepted] && s'.dispatch.Closing?
      else s' == s
  {
    ClearedMeansIdle(s);
  }

  /** So with an eject, which needs no preview, and with a close, which needs neither
      arming nor the lane. */
  lemma EjectAndCloseAcceptedExactly(states: seq<State>, actions: seq<Action>, k: nat)
    requires Run(states, actions) && k < |actions| && (actions[k].RequestEject? || actions[k].RequestClose?)
    ensures var s, s', a := states[k], states[k + 1], actions[k];
      if Since(DeviceIsOpen, states, actions, k) && AllCleared(s)
         && (a.RequestEject? ==> a.armed && !Since(LaneIsTaken, states, actions, k))
      then s'.trace == s.trace + [if a.RequestEject? then EjectAccepted else CloseAccepted]
           && (if a.RequestEject? then s'.dispatch.Ejecting? else s'.dispatch.Closing?)
      else s' == s
  {
    RunInv(states, actions, k);
    KnownExactlySince(DeviceIsOpen, states, actions, k);
    KnownExactlySince(LaneIsTaken, states, actions, k);
    if actions[k].RequestEject? { EjectStarts(states[k], actions[k].armed); } else { CloseStarts(states[k]); }
  }

  // -- shutdown ---------------------------------------------------------------------------

  /** Past the first join the motion thread is gone; past the second no job is running. */
  predicate ShutdownOk(s: State) {
    && (s.dispatch.JoiningJob? || s.dispatch.ShutdownClosing? || s.dispatch.Exited? ==> ThreadDone(s, s.session.motionOp))
    && (s.dispatch.ShutdownClosing? || s.dispatch.Exited? ==> !JobRunning(s.session))
    && (s.dispatch.Exited? ==> !s.session.deviceOpen)
  }

  lemma AdvanceKeepsShutdown(s: State, a: Action)
    requires Enabled(s, a) && ShutdownOk(s) && a.Advance?
    ensures ShutdownOk(Apply(s, a))
  {
  }

  lemma CallKeepsShutdown(s: State, a: Action)
    requires Enabled(s, a) && ShutdownOk(s) && (a.Callback? || a.CallEnds? || a.Report?)
    ensures ShutdownOk(Apply(s, a))
  {
  }

  lemma StepKeepsShutdown(s: State, a: Action)
    requires Enabled(s, a) && ShutdownOk(s)
    ensures ShutdownOk(Apply(s, a))
  {
    if a.Advance? {
      hide Apply, Enabled, ShutdownOk;
      AdvanceKeepsShutdown(s, a);
    } else if a.Callback? || a.CallEnds? || a.Report? {
      hide Apply, Enabled, ShutdownOk;
      CallKeepsShutdown(s, a);
    }
  }

  lemma {:induction false} RunShutdownOk(states: seq<State>, actions: seq<Action>, k: nat)
    requires Run(states, actions) && k <= |actions|
    ensures |states| == |actions| + 1 && ShutdownOk(states[k])
  {
    hide Enabled, Apply, ShutdownOk;
    if k == 0 {
      NothingShutYet(states[0]);
    } else {
      RunShutdownOk(states, actions, k - 1);
      assert states[k - 1 + 1] == Apply(states[k - 1], actions[k - 1]);
      StepKeepsShutdown(states[k - 1], actions[k - 1]);
    }
  }

  lemma NothingShutYet(s: State)
    requires s.dispatch.Ready?
    ensures ShutdownOk(s)
  {
  }

  /** A session exits only with the device closed, its motion thread gone, its last scan
      job terminal and no worker on the transport. */
  lemma ShutdownWaitsForOwnedWork(states: seq<State>, actions: seq<Action>, k: nat, op: OpId)
    requires Run(states, actions) && k <= |actions|
    ensures |states| == |actions| + 1
    ensures var s := states[k];
      s.dispatch.Exited? ==>
        && !s.session.deviceOpen
        && (s.session.lastJob.Some? ==> s.session.lastJob.value.terminal)
        && (s.session.motionOp.Some? ==>
              s.session.motionOp.value < |s.workers| && s.workers[s.session.motionOp.value].phase.Gone?)
        && (op < |s.workers| ==> !InCall(s.workers[op].phase))
  {
    RunShutdownOk(states, actions, k);
    RunInv(states, actions, k);
    var s := states[k];
    if s.dispatch.Exited? && op < |s.workers| && op + 1 < |s.workers| { assert Cleared(s.workers[op].phase); }
  }

  // -- a fault halts the scan ---------------------------------------------------------------

  /** Retries have run out, and the film has not been ejected for it yet. */
  predicate AwaitsHalt(s: State, op: OpId) {
    op < |s.workers| && (s.workers[op].phase.Faulted? || s.workers[op].phase.Halting?)
  }

  /** The anomaly eject of worker `op` comes back. */
  predicate HaltReturns(s: State, a: Action, op: OpId) {
    a.CallEnds? && a.op == op && op < |s.workers| && s.workers[op].phase.Halting?
  }

  lemma StepHalts(s: State, a: Action, op: OpId)
    requires Enabled(s, a) && AwaitsHalt(s, op)
    ensures AwaitsHalt(Apply(s, a), op) || HaltReturns(s, a, op)
  {
  }

  /** A scan that has run out of retries is over only after its anomaly eject came back. */
  lemma {:induction false} FaultIsHalted(states: seq<State>, actions: seq<Action>, i: nat, k: nat, op: OpId) returns (j: nat)
    requires Run(states, actions) && |states| == |actions| + 1 && i < k <= |actions|
    requires actions[i] == CallEnds(op, RetriesExhausted) && op < |states[i].workers| && states[i].workers[op].phase.Calling?
    requires !AwaitsHalt(states[k], op)
    ensures i < j < k && HaltReturns(states[j], actions[j], op)
    decreases k
  {
    hide Run, Apply, Enabled, AwaitsHalt, HaltReturns;
    RunStep(states, actions, k - 1);
    if k == i + 1 {
      FaultBegins(states[i], op);
      assert false;
    } else if AwaitsHalt(states[k - 1], op) {
      StepHalts(states[k - 1], actions[k - 1], op);
      j := k - 1;
    } else {
      j := FaultIsHalted(states, actions, i, k - 1, op);
    }
  }

  lemma FaultBegins(s: State, op: OpId)
    requires op < |s.workers| && s.workers[op].phase.Calling? && Enabled(s, CallEnds(op, RetriesExhausted))
    ensures AwaitsHalt(Apply(s, CallEnds(op, RetriesExhausted)), op)
  {
  }

  lemma RunStep(states: seq<State>, actions: seq<Action>, k: nat)
    requires Run(states, actions) && k < |actions|
    ensures |states| == |actions| + 1
    ensures Enabled(states[k], actions[k]) && states[k + 1] == Apply(states[k], actions[k])
  {
  }
}
