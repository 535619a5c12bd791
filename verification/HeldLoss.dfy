/** When a held child is lost: exactly which calls can lose one, and how. */
module HeldLoss {
  import opened Wrappers
  import opened HeldToken

  /** A child that was handed out is owned nowhere and has met no recorded end. */
  ghost predicate Lost(s: State) {
    exists k :: Gone(s, k)
  }

  predicate Gone(s: State, k: Token) {
    k in s.minted && k !in s.fates && Owners(s, k) == 0
  }

  /** Some continuation without a careless call loses a child. */
  ghost predicate CanLose(s: State) {
    exists states: seq<State>, actions: seq<Action> ::
      Steps(states, actions) && states[0] == s && Careful(states, actions) && Lost(states[|actions|])
  }

  // -- what keeps the invariant loses nothing ---------------------------------------------

  lemma InvLosesNothing(s: State)
    requires Inv(s)
    ensures !CanLose(s)
  {
    forall states: seq<State>, actions: seq<Action> |
      Steps(states, actions) && states[0] == s && Careful(states, actions)
      ensures !Lost(states[|actions|])
    {
      StepsInv(states, actions, |actions|);
      forall k
        ensures !Gone(states[|actions|], k)
      {
        assert Kept(states[|actions|], k);
      }
    }
  }

  // -- continuations -----------------------------------------------------------------------

  lemma {:induction false} Beyond(tokens: set<Token>) returns (k: Token)
    ensures forall t | t in tokens :: t < k
  {
    if t :| t in tokens {
      var rest := Beyond(tokens - {t});
      k := if rest <= t then t + 1 else rest;
      assert forall u | u in tokens :: u == t || u in tokens - {t};
    } else {
      k := 0;
    }
  }

  /** A child that has not been handed out yet, and is nobody's. */
  lemma NewChild(s: State) returns (k: Token)
    requires Linear(s)
    ensures k !in s.minted && k !in s.fates && Owners(s, k) == 0 && WorkerChild(s.worker) != Some(k)
  {
    k := Beyond(s.minted);
    assert Kept(s, k);
  }

  lemma LostNow(s: State, k: Token)
    requires Gone(s, k)
    ensures CanLose(s)
  {
    var states, actions: seq<Action> := [s], [];
    assert Steps(states, actions) && Careful(states, actions) && Lost(states[|actions|]);
  }

  /** If a child can be lost after a careful step, it can be lost before it. */
  lemma LostLater(s: State, a: Action)
    requires Enabled(s, a) && !Careless(s, a) && CanLose(Apply(s, a))
    ensures CanLose(s)
  {
    var states: seq<State>, actions: seq<Action> :|
      Steps(states, actions) && states[0] == Apply(s, a) && Careful(states, actions) && Lost(states[|actions|]);
    var states', actions' := [s] + states, [a] + actions;
    forall i | 0 <= i < |actions'|
      ensures Enabled(states'[i], actions'[i]) && states'[i + 1] == Apply(states'[i], actions'[i])
      ensures !Careless(states'[i], actions'[i])
    {
      if i > 0 { assert states'[i] == states[i - 1] && actions'[i] == actions[i - 1]; }
    }
    assert states'[|actions'|] == states[|actions|];
    assert Steps(states', actions') && states'[0] == s && Careful(states', actions');
  }

  // -- a release in flight ------------------------------------------------------------------

  /** The worker runs; it parks a new child, and the release writes None over it. */
  lemma RunningRiskLoses(s: State)
    requires Linear(s) && AtRisk(s) && s.worker.Running? && s.pending.None?
    ensures CanLose(s)
  {
    var k := NewChild(s);
    var a := WorkerReturns(Some(k));
    ParkedUnderRelease(s, k);
    LostLater(s, a);
  }

  lemma ParkedUnderRelease(s: State, k: Token)
    requires AtRisk(s) && s.worker.Running? && s.pending.None?
    requires k !in s.minted && k !in s.fates && WorkerChild(s.worker) != Some(k)
    ensures CanLose(Apply(s, WorkerReturns(Some(k))))
  {
    var s1 := Apply(s, WorkerReturns(Some(k)));
    assert s1.client == s.client && s1.held == Some(k) && k in s1.minted && k !in s1.fates;
    assert s1.pending.None? && s1.worker.Reporting?;
    OverwrittenIsGone(s1, k);
    LostLater(s1, ClearHeld(true));
  }

  lemma OverwrittenIsGone(s: State, k: Token)
    requires s.client.Clearing? && s.client.read.None? && k in s.minted && k !in s.fates
    requires s.pending.None? && s.worker.Reporting?
    ensures CanLose(Apply(s, ClearHeld(true)))
  {
    LostNow(Apply(s, ClearHeld(true)), k);
  }

  lemma StartingRunsNext(s: State)
    requires Linear(s) && Ordered(s) && s.worker.Starting?
    ensures var s' := Apply(s, WorkerDispatches(true));
      Linear(s') && s'.worker.Running? && s'.pending.None?
      && s' == s.(pending := None, worker := Running(s.pending))
  {
    var s' := Apply(s, WorkerDispatches(true));
    forall k
      ensures Kept(s', k)
    {
      assert Kept(s, k);
    }
  }

  lemma RiskLoses(s: State)
    requires Linear(s) && Ordered(s) && AtRisk(s)
    ensures CanLose(s)
  {
    if s.worker.Starting? {
      StartingRunsNext(s);
      RunningRiskLoses(Apply(s, WorkerDispatches(true)));
      LostLater(s, WorkerDispatches(true));
    } else {
      RunningRiskLoses(s);
    }
  }

  /** Whatever is in flight, a child can still be lost exactly when a `release` has read
      None beside a worker that may still store one. */
  lemma LostExactlyAtRisk(s: State)
    requires Linear(s) && Ordered(s)
    ensures CanLose(s) <==> AtRisk(s)
  {
    if AtRisk(s) { RiskLoses(s); } else { InvLosesNothing(s); }
  }

  // -- a careless next --------------------------------------------------------------------

  /** The batch is gone while its worker runs on; the client starts a new preview. */
  predicate Orphaned(s: State) {
    && s.worker.Running? && s.batch.None? && s.pending.None? && s.held.None?
    && s.client.Idle? && !s.closed && !s.closing
  }

  /** The preview parks one child, the orphaned worker stores another over it. */
  lemma OrphanedLoses(s: State)
    requires Linear(s) && Orphaned(s)
    ensures CanLose(s)
  {
    var k := NewChild(s);
    var s1 := s.(client := PreviewReading);
    var s2 := Mint(s1, Some(k)).(held := Some(k), client := Idle);
    OvertakenLoses(s2, k);
    LostLater(s2.(client := PreviewChecking(Some(k))), PreviewAccepted);
    assert Apply(s1, PreviewStarted(Some(k))) == s2.(client := PreviewChecking(Some(k)));
    LostLater(s1, PreviewStarted(Some(k)));
    PreviewBegins(s);
  }

  lemma PreviewBegins(s: State)
    requires Orphaned(s) && CanLose(s.(client := PreviewReading))
    ensures CanLose(s)
  {
    var s1 := s.(client := Previewing);
    var s2 := s.(client := Clearing(None, Superseding));
    LostLater(s2, ClearHeld(true));
    LostLater(s1, PreviewSupersedes);
    LostLater(s, CallPreview);
  }

  lemma OvertakenLoses(s: State, k: Token)
    requires s.worker.Running? && s.worker.child != Some(k) && s.pending.None? && s.client.Idle?
    requires s.held == Some(k) && k in s.minted && k !in s.fates
    ensures CanLose(s)
  {
    var n := Beyond(s.minted);
    LostNow(Apply(s, WorkerReturns(Some(n))), k);
    LostLater(s, WorkerReturns(Some(n)));
  }

  /** `next` on an iterator that has ended finishes the batch under its worker. */
  lemma CarelessNextLoses(s: State)
    requires Inv(s) && Enabled(s, CallNext) && Careless(s, CallNext)
    ensures CanLose(Apply(s, CallNext))
  {
    var s1 := Apply(s, CallNext);
    var s2 := Apply(s1, FinishPlain);
    assert Linear(s2) by { forall k ensures Kept(s2, k) { assert Kept(s, k); } }
    if s.worker.Starting? {
      var s3 := Apply(s2, WorkerDispatches(true));
      assert Linear(s3) by { forall k ensures Kept(s3, k) { assert Kept(s2, k); } }
      OrphanedLoses(s3);
      LostLater(s2, WorkerDispatches(true));
    } else {
      OrphanedLoses(s2);
    }
    LostLater(s1, FinishPlain);
  }

  lemma CarelessReleaseLoses(s: State)
    requires Inv(s) && Enabled(s, CallRelease) && Careless(s, CallRelease)
    ensures CanLose(Apply(s, CallRelease))
  {
    var s' := Apply(s, CallRelease);
    assert Linear(s') by { forall k ensures Kept(s', k) { assert Kept(s, k); } }
    RiskLoses(s');
  }

  /** From every state of the invariant, a step opens the way to a loss exactly when it
      is careless: the side conditions are the weakest there are. */
  lemma LostExactlyByCarelessCalls(s: State, a: Action)
    requires Inv(s) && Enabled(s, a)
    ensures CanLose(Apply(s, a)) <==> Careless(s, a)
  {
    if !Careless(s, a) {
      StepKeepsInv(s, a);
      InvLosesNothing(Apply(s, a));
    } else if a.CallNext? {
      CarelessNextLoses(s);
    } else {
      CarelessReleaseLoses(s);
    }
  }

  /** A client that calls `release` only without an active batch, and does not call `next`
      on an iterator that has ended, is never careless. */
  lemma CarefulWithoutBatch(s: State, a: Action)
    requires Inv(s) && Enabled(s, a)
    requires a.CallRelease? ==> s.batch.None?
    requires a.CallNext? ==> s.batch.Some? && !s.batch.value.ended
    ensures !Careless(s, a)
  {
  }

  // -- both kinds of careless call can be reached --------------------------------------------

  /** One more action at the end of a run. */
  lemma Extend(states: seq<State>, actions: seq<Action>, a: Action, s': State)
    returns (states': seq<State>, actions': seq<Action>)
    requires Run(states, actions) && Enabled(states[|actions|], a) && s' == Apply(states[|actions|], a)
    ensures states' == states + [s'] && actions' == actions + [a]
    ensures Run(states', actions')
    ensures Careful(states, actions) && !Careless(states[|actions|], a) ==> Careful(states', actions')
  {
    states', actions' := states + [s'], actions + [a];
  }

  /** A run goes on with the steps of another history. */
  lemma Join(states: seq<State>, actions: seq<Action>, more: seq<State>, steps: seq<Action>)
    returns (states': seq<State>, actions': seq<Action>)
    requires Run(states, actions) && Steps(more, steps) && more[0] == states[|actions|]
    ensures Run(states', actions') && actions' == actions + steps && states <= states'
    ensures states'[|actions'|] == more[|steps|]
  {
    states', actions' := states + more[1..], actions + steps;
    forall i | 0 <= i < |actions'|
      ensures Enabled(states'[i], actions'[i]) && states'[i + 1] == Apply(states'[i], actions'[i])
    {
      if i >= |actions| {
        var j := i - |actions|;
        assert actions'[i] == steps[j] && states'[i] == more[j] && states'[i + 1] == more[j + 1];
      }
    }
  }

  /** A batch with child 1 has yielded its frame, and its worker is still at work. */
  const AT_WORK := State(None, None, Idle, Some(Batch(Some(1), true, false, false)), Running(Some(1)),
                         false, false, false, {1}, map[])

  /** Its iterator was closed, and the worker did not stop in time. */
  const UNCONFIRMED := AT_WORK.(batch := Some(Batch(Some(1), true, true, true)), stop := true)

  lemma ReachPreviewed() returns (states: seq<State>, actions: seq<Action>)
    ensures Run(states, actions) && Careful(states, actions)
    ensures states[|actions|] == INITIAL.(held := Some(1), minted := {1})
  {
    states, actions := [INITIAL], [];
    var s := INITIAL.(client := Previewing);
    states, actions := Extend(states, actions, CallPreview, s);
    s := s.(client := Clearing(None, Superseding));
    states, actions := Extend(states, actions, PreviewSupersedes, s);
    s := s.(client := PreviewReading);
    states, actions := Extend(states, actions, ClearHeld(true), s);
    s := s.(held := Some(1), minted := {1}, client := PreviewChecking(Some(1)));
    states, actions := Extend(states, actions, PreviewStarted(Some(1)), s);
    s := s.(client := Idle);
    states, actions := Extend(states, actions, PreviewAccepted, s);
  }

  lemma ReachAtWork() returns (states: seq<State>, actions: seq<Action>)
    ensures Run(states, actions) && Careful(states, actions) && states[|actions|] == AT_WORK
  {
    states, actions := ReachPreviewed();
    var b := Batch(Some(1), false, false, false);
    var s := INITIAL.(batch := Some(b), pending := Some(1), minted := {1});
    states, actions := Extend(states, actions, CallScanMany, s);
    s := s.(batch := Some(b.(started := true)), worker := Starting, client := Consuming);
    states, actions := Extend(states, actions, CallNext, s);
    s := s.(pending := None, worker := Running(Some(1)));
    states, actions := Extend(states, actions, WorkerDispatches(true), s);
    states, actions := Extend(states, actions, FrameYielded, AT_WORK);
  }

  lemma ReachUnconfirmed() returns (states: seq<State>, actions: seq<Action>)
    ensures Run(states, actions) && Careful(states, actions) && states[|actions|] == UNCONFIRMED
  {
    states, actions := ReachAtWork();
    states, actions := Extend(states, actions, CallIteratorClose, AT_WORK.(stop := true, client := Draining));
    states, actions := Extend(states, actions, JoinTimedOut, UNCONFIRMED);
  }

  /** A `release` beside the batch: it reads None, the worker parks child 2 after its last
      frame, and the release writes None over it. */
  lemma CarelessReleaseLosesAChild() returns (states: seq<State>, actions: seq<Action>, n: nat)
    ensures Run(states, actions) && n < |actions|
    ensures actions[n..] == [CallRelease, WorkerReturns(Some(2)), ClearHeld(true)]
    ensures Careless(states[n], actions[n]) && Careful(states[..n + 1], actions[..n])
    ensures Gone(states[|actions|], 2)
  {
    states, actions := ReachAtWork();
    n := |actions|;
    var before, calls := states, actions;
    var s := AT_WORK.(client := Clearing(None, Releasing));
    states, actions := Extend(states, actions, CallRelease, s);
    s := s.(held := Some(2), minted := {1, 2}, worker := Reporting, fates := map[1 := Dispatched]);
    states, actions := Extend(states, actions, WorkerReturns(Some(2)), s);
    states, actions := Extend(states, actions, ClearHeld(true), s.(held := None, client := Idle));
    assert states[..n + 1] == before && actions[..n] == calls;
  }

  /** A run to a state of the invariant where `next` is careless, continued to the loss. */
  lemma CarelessNextLosesAChild() returns (states: seq<State>, actions: seq<Action>, n: nat, k: Token)
    ensures Run(states, actions) && n < |actions| && actions[n] == CallNext
    ensures Careless(states[n], actions[n]) && Gone(states[|actions|], k)
  {
    states, actions := ReachUnconfirmed();
    n := |actions|;
    var s := UNCONFIRMED;
    assert Linear(s);
    LostExactlyByCarelessCalls(s, CallNext);
    var s' := Apply(s, CallNext);
    states, actions := Extend(states, actions, CallNext, s');
    var more: seq<State>, steps: seq<Action> :|
      Steps(more, steps) && more[0] == s' && Careful(more, steps) && Lost(more[|steps|]);
    k :| Gone(more[|steps|], k);
    states, actions := Join(states, actions, more, steps);
  }
}
