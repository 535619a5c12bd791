/** How held children end, and when a batch is stopped: said on the history of a run. */
module HeldOutcomes {
  import opened Wrappers
  import opened HeldToken

  // -- fates ------------------------------------------------------------------------------

  /** The step at which child `c` meets the end `f`. */
  predicate EndsAs(s: State, a: Action, c: Token, f: Fate) {
    Enabled(s, a) &&
    match f
    case Ejected => a.EndDone? && s.client == Ending(c, Ejecting)
    case Released =>
      || (a.EndDone? && s.client.child == c && !s.client.why.Ejecting?)
      || (a.BorrowReplaced? && a.again == Some(c) && s.client.metering && s.stop)
    case TornDown =>
      (a.PreviewRejected? && s.client.got == Some(c)) || (a == FinishTeardown(true) && s.pending == Some(c))
    case Dispatched => (a.WorkerFails? || a.WorkerReturns?) && s.worker.child == Some(c)
    case Replaced => a.BorrowReplaced? && s.client.child == c
    case Lost => a.BorrowLost? && s.client.child == c
    case Dead =>
      || (a == ClearHeld(false) && s.client.read == Some(c))
      || (a == FinishPlain && s.pending == Some(c))
      || (a == WorkerDispatches(false) && s.pending == Some(c))
  }

  /** The child has met the end `f`. */
  predicate Met(s: State, c: Token, f: Fate) {
    c in s.fates && s.fates[c] == f
  }

  /** The steps that end nobody. */
  predicate EndsNobody(a: Action) {
    && (OfBatch(a) ==> !a.FinishTeardown? && !a.FinishPlain?)
    && (OfWorker(a) ==> a.WorkerExits?)
    && (OfPreview(a) ==> !a.PreviewRejected?)
    && (OfBorrow(a) ==> !a.BorrowReplaced? && !a.BorrowLost?)
    && !a.ClearHeld? && !a.EndDone?
  }

  lemma OthersEndNobody(s: State, a: Action)
    requires Enabled(s, a) && EndsNobody(a)
    ensures Apply(s, a).fates == s.fates
  {
  }

  lemma OthersMeet(s: State, a: Action, c: Token, f: Fate)
    requires Kept(s, c) && Enabled(s, a) && EndsNobody(a)
    ensures Met(Apply(s, a), c, f) <==> Met(s, c, f) || EndsAs(s, a, c, f)
  {
    hide Apply, Enabled;
    OthersEndNobody(s, a);
  }

  lemma SettleMeets(s: State, o: Option<Token>, end: Fate, c: Token, f: Fate)
    ensures Met(Settle(s, o, end), c, f) <==> if o == Some(c) then f == end else Met(s, c, f)
    ensures Mint(s, o).fates == s.fates
  {
  }

  lemma FinishMeets(s: State, a: Action, c: Token, f: Fate)
    requires Kept(s, c) && Enabled(s, a) && (a.FinishTeardown? || a.FinishPlain?)
    ensures Met(Apply(s, a), c, f) <==> Met(s, c, f) || EndsAs(s, a, c, f)
  {
    hide Settle;
    SettleMeets(s, s.pending, TornDown, c, f);
    SettleMeets(s, s.pending, Dead, c, f);
  }

  lemma DispatchMeets(s: State, a: Action, c: Token, f: Fate)
    requires Kept(s, c) && Enabled(s, a) && (a.WorkerDispatches?)
    ensures Met(Apply(s, a), c, f) <==> Met(s, c, f) || EndsAs(s, a, c, f)
  {
    hide Settle;
    SettleMeets(s, s.pending, Dead, c, f);
  }

  lemma WorkerMeets(s: State, a: Action, c: Token, f: Fate)
    requires Kept(s, c) && Enabled(s, a) && (a.WorkerFails? || a.WorkerReturns?)
    ensures Met(Apply(s, a), c, f) <==> Met(s, c, f) || EndsAs(s, a, c, f)
  {
    hide Settle, Mint;
    SettleMeets(s, s.worker.child, Dispatched, c, f);
    if a.WorkerReturns? {
      SettleMeets(s, a.again, Dispatched, c, f);
      SettleMeets(Mint(s, a.again), s.worker.child, Dispatched, c, f);
    }
  }

  lemma RejectMeets(s: State, a: Action, c: Token, f: Fate)
    requires Ordered(s) && Kept(s, c) && Enabled(s, a) && (a.PreviewRejected?)
    ensures Met(Apply(s, a), c, f) <==> Met(s, c, f) || EndsAs(s, a, c, f)
  {
  }

  lemma BorrowMeets(s: State, a: Action, c: Token, f: Fate)
    requires Kept(s, c) && Enabled(s, a) && (a.BorrowReplaced? || a.BorrowLost?)
    ensures Met(Apply(s, a), c, f) <==> Met(s, c, f) || EndsAs(s, a, c, f)
  {
    hide Settle, Mint;
    SettleMeets(s, Some(s.client.child), Lost, c, f);
    if a.BorrowReplaced? {
      var s1 := Mint(s, a.again);
      SettleMeets(s, a.again, Replaced, c, f);
      SettleMeets(s1, Some(s.client.child), Replaced, c, f);
      SettleMeets(Settle(s1, Some(s.client.child), Replaced), a.again, Released, c, f);
    }
  }

  lemma DoneMeets(s: State, a: Action, c: Token, f: Fate)
    requires Kept(s, c) && Enabled(s, a) && (a.EndDone?)
    ensures Met(Apply(s, a), c, f) <==> Met(s, c, f) || EndsAs(s, a, c, f)
  {
    hide Settle, Continue;
    SettleMeets(s, Some(s.client.child), FateOf(s.client.why), c, f);
    ContinueOwns(Settle(s, Some(s.client.child), FateOf(s.client.why)), s.client.why, c);
  }

  lemma ClearMeets(s: State, a: Action, c: Token, f: Fate)
    requires s.client.Clearing? && s.held == s.client.read && Kept(s, c) && Enabled(s, a) && (a.ClearHeld?)
    ensures Met(Apply(s, a), c, f) <==> Met(s, c, f) || EndsAs(s, a, c, f)
  {
    hide Settle, Continue;
    var s1 := s.(held := None);
    SettleMeets(s1, s.client.read, Dead, c, f);
    ContinueOwns(s1, s.client.why, c);
    ContinueOwns(Settle(s1, s.client.read, Dead), s.client.why, c);
  }

  lemma StepMeets(s: State, a: Action, c: Token, f: Fate)
    requires Inv(s) && Enabled(s, a)
    ensures Met(Apply(s, a), c, f) <==> Met(s, c, f) || EndsAs(s, a, c, f)
  {
    hide Ordered, Enabled, Apply, EndsAs, Met, Kept;
    assert Kept(s, c);
    OrderedMeans(s, a);
    match a
    case FinishTeardown(_) => FinishMeets(s, a, c, f);
    case FinishPlain => FinishMeets(s, a, c, f);
    case WorkerDispatches(_) => DispatchMeets(s, a, c, f);
    case WorkerFails => WorkerMeets(s, a, c, f);
    case WorkerReturns(_) => WorkerMeets(s, a, c, f);
    case PreviewRejected => RejectMeets(s, a, c, f);
    case BorrowReplaced(_) => BorrowMeets(s, a, c, f);
    case BorrowLost => BorrowMeets(s, a, c, f);
    case EndDone => DoneMeets(s, a, c, f);
    case ClearHeld(_) => ClearMeets(s, a, c, f);
    case _ => OthersMeet(s, a, c, f);
  }

  ghost predicate EndedAs(states: seq<State>, actions: seq<Action>, k: nat, c: Token, f: Fate)
    requires |states| == |actions| + 1 && k <= |actions|
  {
    exists i | 0 <= i < k :: EndsAs(states[i], actions[i], c, f)
  }

  /** In every careful run a child has met an end exactly if one of the steps so far was
      that end: no end is undone, renamed or recorded without its step. */
  lemma {:induction false} FateTellsItsCause(states: seq<State>, actions: seq<Action>, k: nat, c: Token, f: Fate)
    requires Run(states, actions) && Careful(states, actions) && k <= |actions|
    ensures |states| == |actions| + 1
    ensures Met(states[k], c, f) <==> EndedAs(states, actions, k, c, f)
  {
    hide EndsAs, Apply, Inv;
    if k > 0 {
      FateTellsItsCause(states, actions, k - 1, c, f);
      RunInv(states, actions, k - 1);
      assert states[k - 1 + 1] == Apply(states[k - 1], actions[k - 1]);
      StepMeets(states[k - 1], actions[k - 1], c, f);
    }
  }

  // -- who asked for an end ---------------------------------------------------------------

  /** The call behind each purpose. */
  predicate Asks(a: Action, why: Purpose) {
    match why
    case Releasing => a.CallRelease?
    case Ejecting => a.CallEject?
    case Superseding => a.PreviewSupersedes?
    case ClosingRoll => a.RollCloseReleases?
  }

  predicate IsEnding(c: Client, child: Token, why: Purpose) {
    c == Clearing(Some(child), why) || c == Ending(child, why)
  }

  lemma ClientAlone(s: State, a: Action)
    requires Enabled(s, a) && (OfWorker(a) || a.CallSafeStop?)
    ensures Apply(s, a).client == s.client
  {
    match a
    case WorkerDispatches(_) =>
    case WorkerReturns(_) =>
    case _ =>
  }

  lemma BatchEndsNoChild(s: State, a: Action)
    requires Enabled(s, a) && (OfBatch(a) || OfBorrow(a))
    ensures IsBusyEnding(Apply(s, a).client) ==> Apply(s, a).client == s.client
  {
  }

  predicate IsBusyEnding(c: Client) {
    c.Clearing? || c.Ending?
  }

  lemma EndingBegins(s: State, a: Action, c: Token, why: Purpose)
    requires Enabled(s, a) && IsEnding(Apply(s, a).client, c, why)
    ensures IsEnding(s.client, c, why) || (Asks(a, why) && s.held == Some(c))
  {
    if OfWorker(a) || a.CallSafeStop? {
      hide Apply, Enabled;
      ClientAlone(s, a);
    } else if OfBatch(a) || OfBorrow(a) {
      hide Apply, Enabled;
      BatchEndsNoChild(s, a);
    }
  }

  /** A child that is being ended was the held one when somebody asked for that end, and
      nothing else has happened on the client's thread since. */
  lemma {:induction false} EndingHasACall(states: seq<State>, actions: seq<Action>, k: nat, c: Token, why: Purpose)
    returns (i: nat)
    requires Run(states, actions) && |states| == |actions| + 1 && k <= |actions|
    requires IsEnding(states[k].client, c, why)
    ensures i < k && Asks(actions[i], why) && states[i].held == Some(c)
    ensures forall j | i < j <= k :: IsEnding(states[j].client, c, why)
  {
    hide Apply, Enabled, Asks;
    assert k > 0;
    assert states[k - 1 + 1] == Apply(states[k - 1], actions[k - 1]);
    EndingBegins(states[k - 1], actions[k - 1], c, why);
    if IsEnding(states[k - 1].client, c, why) {
      i := EndingHasACall(states, actions, k - 1, c, why);
    } else {
      i := k - 1;
    }
  }

  /** Only film that somebody asked to eject is ejected. */
  lemma EjectedOnlyOnRequest(states: seq<State>, actions: seq<Action>, k: nat, c: Token) returns (i: nat)
    requires Run(states, actions) && Careful(states, actions) && |states| == |actions| + 1 && k <= |actions|
    requires Met(states[k], c, Ejected)
    ensures i < k && actions[i].CallEject? && states[i].held == Some(c)
  {
    FateTellsItsCause(states, actions, k, c, Ejected);
    var j :| 0 <= j < k && EndsAs(states[j], actions[j], c, Ejected);
    i := EndingHasACall(states, actions, j, c, Ejecting);
  }

  // -- stops ------------------------------------------------------------------------------

  /** `safe_stop`, the iterator's `close` unless the batch's state is uncertain, `Roll.close`. */
  predicate AsksToStop(s: State, a: Action) {
    a.CallSafeStop? || a.CallRollClose? || (a.CallIteratorClose? && s.batch.Some? && !s.batch.value.uncertain)
  }

  lemma PreviewStopsNothing(s: State, a: Action)
    requires Enabled(s, a) && OfPreview(a)
    ensures Apply(s, a).stop == s.stop && Apply(s, a).batch == s.batch
  {
  }

  lemma EndingStopsNothing(s: State, a: Action)
    requires Enabled(s, a) && (a.ClearHeld? || a.EndDone?)
    ensures Apply(s, a).stop == s.stop && Apply(s, a).batch == s.batch
  {
  }

  lemma OthersStopNothing(s: State, a: Action)
    requires Enabled(s, a) && !OfBatch(a) && !a.CallSafeStop?
    ensures Apply(s, a).stop == s.stop && Apply(s, a).batch == s.batch
  {
    if OfPreview(a) {
      hide Apply, Enabled;
      PreviewStopsNothing(s, a);
    } else if a.ClearHeld? || a.EndDone? {
      hide Apply, Enabled;
      EndingStopsNothing(s, a);
    }
  }

  lemma CloseStops(s: State, a: Action)
    requires Enabled(s, a) && (a.CallIteratorClose? || a.CallRollClose?)
    ensures Apply(s, a).stop <==> s.stop || AsksToStop(s, a)
    ensures Apply(s, a).batch.Some? == s.batch.Some?
  {
  }

  lemma StepStops(s: State, a: Action)
    requires Enabled(s, a) && Apply(s, a).batch.Some?
    ensures Apply(s, a).stop <==> s.batch.Some? && (s.stop || AsksToStop(s, a))
  {
    if a.CallIteratorClose? || a.CallRollClose? {
      hide Apply, AsksToStop, Enabled;
      CloseStops(s, a);
    } else if !OfBatch(a) && !a.CallSafeStop? {
      hide Apply, Enabled;
      OthersStopNothing(s, a);
    }
  }

  /** Asked at some step at which the current batch was already reserved. */
  ghost predicate Asked(states: seq<State>, actions: seq<Action>, k: nat)
    requires |states| == |actions| + 1 && k <= |actions|
  {
    exists i | 0 <= i < k :: AsksToStop(states[i], actions[i]) && HasBatch(states, i, k)
  }

  ghost predicate HasBatch(states: seq<State>, i: nat, k: nat)
    requires k < |states|
  {
    forall j | i <= j <= k :: states[j].batch.Some?
  }

  lemma AskedGrows(states: seq<State>, actions: seq<Action>, k: nat)
    requires |states| == |actions| + 1 && k < |actions| && states[k + 1].batch.Some?
    ensures Asked(states, actions, k + 1)
      <==> states[k].batch.Some? && (Asked(states, actions, k) || AsksToStop(states[k], actions[k]))
  {
    hide AsksToStop;
    if Asked(states, actions, k + 1) {
      var i :| 0 <= i < k + 1 && AsksToStop(states[i], actions[i]) && HasBatch(states, i, k + 1);
      if i < k { assert HasBatch(states, i, k); }
    }
    if states[k].batch.Some? {
      if AsksToStop(states[k], actions[k]) { assert HasBatch(states, k, k + 1); }
      if Asked(states, actions, k) {
        var i :| 0 <= i < k && AsksToStop(states[i], actions[i]) && HasBatch(states, i, k);
        assert HasBatch(states, i, k + 1);
      }
    }
  }

  /** A batch is stopped exactly if somebody asked for it since the batch was reserved: the
      stop of an earlier batch or of an exposure solve does not reach it. */
  lemma {:induction false} StoppedExactlyIfAsked(states: seq<State>, actions: seq<Action>, k: nat)
    requires Run(states, actions) && |states| == |actions| + 1 && k <= |actions| && states[k].batch.Some?
    ensures states[k].stop <==> Asked(states, actions, k)
  {
    hide AsksToStop, Apply, Enabled, Asked;
    assert k > 0;
    assert states[k - 1 + 1] == Apply(states[k - 1], actions[k - 1]);
    StepStops(states[k - 1], actions[k - 1]);
    AskedGrows(states, actions, k - 1);
    if states[k - 1].batch.Some? { StoppedExactlyIfAsked(states, actions, k - 1); }
  }

  /** A worker starts exactly at the first `next` of a batch that nobody has asked to stop
      since it was reserved. */
  lemma WorkerStartsExactly(states: seq<State>, actions: seq<Action>, k: nat)
    requires Run(states, actions) && |states| == |actions| + 1 && k < |actions|
    requires actions[k].CallNext?
    ensures var s, s' := states[k], states[k + 1];
      s.batch.Some? &&
      if !s.batch.value.started && !s.batch.value.ended && !Asked(states, actions, k) then
        s'.worker.Starting? && s'.batch == Some(s.batch.value.(started := true)) && s'.client.Consuming?
      else
        s'.worker == s.worker && s'.pending == s.pending && s'.client == if s.batch.value.started && !s.batch.value.ended then Consuming else Finishing
  {
    assert states[k + 1] == Apply(states[k], actions[k]);
    StoppedExactlyIfAsked(states, actions, k);
  }

  // -- exposure solves and closed rolls ---------------------------------------------------

  lemma BorrowerKeepsStop(s: State, a: Action)
    requires Enabled(s, a) && s.client.Borrowing?
    ensures s.stop ==> Apply(s, a).stop
  {
  }

  lemma RunStep(states: seq<State>, actions: seq<Action>, k: nat)
    requires Run(states, actions) && k < |actions|
    ensures |states| == |actions| + 1
    ensures Enabled(states[k], actions[k]) && states[k + 1] == Apply(states[k], actions[k])
  {
  }

  lemma {:induction false} StopLastsWhileMetering(states: seq<State>, actions: seq<Action>, i: nat, k: nat, c: Token)
    requires Run(states, actions) && |states| == |actions| + 1 && i <= k <= |actions|
    requires forall j | i <= j <= k :: states[j].client == Borrowing(c, true)
    requires states[i].stop
    ensures states[k].stop
    decreases k
  {
    hide Apply, Enabled, Run;
    if i < k {
      StopLastsWhileMetering(states, actions, i, k - 1, c);
      RunStep(states, actions, k - 1);
      BorrowerKeepsStop(states[k - 1], actions[k - 1]);
    }
  }

  /** A stop during an exposure solve keeps the child that comes back from being held: it is
      released instead. */
  lemma MeteringEndsUnderStop(states: seq<State>, actions: seq<Action>, i: nat, k: nat, c: Token)
    requires Run(states, actions) && Careful(states, actions) && |states| == |actions| + 1 && i <= k < |actions|
    requires forall j | i <= j <= k :: states[j].client == Borrowing(c, true)
    requires states[i].stop && actions[k].BorrowReplaced?
    ensures states[k + 1].held.None? && Met(states[k + 1], c, Replaced)
    ensures actions[k].again.Some? ==> Met(states[k + 1], actions[k].again.value, Released)
  {
    StopLastsWhileMetering(states, actions, i, k, c);
    RunInv(states, actions, k);
    assert Kept(states[k], c);
    assert states[k + 1] == Apply(states[k], actions[k]);
  }

  /** A closed roll holds no child: every one it was ever given has met its end. */
  lemma ClosedRollHoldsNothing(states: seq<State>, actions: seq<Action>, k: nat, c: Token)
    requires Run(states, actions) && Careful(states, actions) && |states| == |actions| + 1 && k <= |actions|
    requires states[k].closed && c in states[k].minted
    ensures c in states[k].fates && states[k].held.None? && states[k].pending.None? && states[k].batch.None?
  {
    RunInv(states, actions, k);
    assert Kept(states[k], c);
  }
}
