/** Ownership over whole runs: the properties of `RollProtocol` a caller relies on,
    for every interleaving of any number of threads. */
module RollTheorems {
  import opened Wrappers
  import opened RollCore
  import opened RollProtocol
  import opened RollSafety

  /** `actions` executed from a state that keeps the ownership invariant. */
  ghost predicate RunFrom(states: seq<State>, actions: seq<Action>) {
    && |states| == |actions| + 1
    && Inv(states[0])
    && forall i | 0 <= i < |actions| ::
         Enabled(states[i], actions[i]) && states[i + 1] == Apply(states[i], actions[i])
  }

  /** `states` is the history of executing `actions` from the initial state. */
  ghost predicate Run(states: seq<State>, actions: seq<Action>) {
    RunFrom(states, actions) && states[0] == INITIAL
  }

  lemma InitialInv()
    ensures Inv(INITIAL)
  {
    assert INITIAL.pcs == map[] && INITIAL.batches == map[] && INITIAL.rolls == map[];
  }

  lemma {:induction false} RunInv(states: seq<State>, actions: seq<Action>, k: nat)
    requires RunFrom(states, actions) && k <= |actions|
    ensures Inv(states[k])
  {
    if k > 0 {
      RunInv(states, actions, k - 1);
      assert states[k - 1 + 1] == Apply(states[k - 1], actions[k - 1]);
      StepKeepsInv(states[k - 1], actions[k - 1]);
    }
  }

  // -- what every step does to the history of the locks ------------------------------------

  ghost predicate Evolves(s: State, a: Action, s': State) {
    Locks(s, a, s') && Fenced(s, a, s')
  }

  ghost predicate Locks(s: State, a: Action, s': State) {
    && (forall b :: s'.unlocks[b] == s.unlocks[b] || (s.unlocks[b] == 0 && s'.unlocks[b] == 1))
    && (forall b :: s'.unlocks[b] != s.unlocks[b] ==> b in s.batches)
    && (forall r | r in s.rolls :: r in s'.rolls && s'.rollUnlocks[r] >= s.rollUnlocks[r])
    && (forall r | r in s.rolls && s.rolls[r].stop && s.rolls[r].activeBatchId.Some? ::
          r in s'.rolls && s'.rolls[r].stop)
    && (s.rollOwner.Some? && s'.rollOwner != s.rollOwner ==>
          a.Resume? && PcOf(s, a.t) == InRoll(s.rollOwner.value, FreeingRoll))
  }

  /** The thread is inside the iterator and on a way that may still release the batch. */
  predicate MayRelease(pc: Pc, b: BatchId) {
    pc.InBatch? && pc.b == b &&
    match pc.stage
    case NextRunning => true
    case CloseRunning(_) => true
    case Finish(_, at) => at.Testing? || at.Checking? || at.Teardown? || at.Unlocking?
    case _ => false
  }

  predicate CallsNext(a: Action, b: BatchId) {
    a.CallNext? && a.b == b
  }

  /** Uncertainty is never withdrawn, only a thread on its way releases, and while
      ownership is uncertain only `next` sets a thread on its way. */
  ghost predicate Fenced(s: State, a: Action, s': State) {
    && (forall b | b in s.batches && s.batches[b].uncertain :: b in s'.batches && s'.batches[b].uncertain)
    && (forall b :: s'.unlocks[b] != s.unlocks[b] ==> a.Resume? && MayRelease(PcOf(s, a.t), b))
    && (forall b, t | b in s.batches && s.batches[b].uncertain && !CallsNext(a, b) ::
          MayRelease(PcOf(s', t), b) ==> MayRelease(PcOf(s, t), b))
  }

  /** Each lock is given back at most once, by the thread that has come to that point,
      and a stop request outlives the active batch. */
  predicate History(l: Local, l': Local) {
    && (l'.unlocks == l.unlocks || (l.unlocks == 0 && l'.unlocks == 1))
    && l'.rollUnlocks >= l.rollUnlocks
    && (l.rollOwner.Some? && l'.rollOwner != l.rollOwner ==>
          l.pc == InRoll(l.rollOwner.value, FreeingRoll) && l'.rollUnlocks == 1)
    && (l.roll.Some? && l.roll.value.stop && l.roll.value.activeBatchId.Some? ==>
          l'.roll.Some? && l'.roll.value.stop)
  }

  /** `Fenced` at one site. */
  predicate Fences(l: Local, l': Local, x: Site) {
    && (l.batch.Some? && l.batch.value.uncertain ==> l'.batch.Some? && l'.batch.value.uncertain)
    && (l'.unlocks != l.unlocks ==> x.b.Some? && MayRelease(l.pc, x.b.value))
    && (l'.pc.InBatch? && MayRelease(l'.pc, l'.pc.b) && !MayRelease(l.pc, l'.pc.b) ==>
          x.b == Some(l'.pc.b) && l.batch.Some? && !l.batch.value.uncertain)
  }

  lemma FinishHistory(l: Local, x: Site, b: BatchId, path: Path, at: FinishStage, w: Answer)
    requires Fits(l, x) && l.pc == InBatch(b, Finish(path, at))
    ensures History(l, FinishStep(l, b, path, at, w)) && Fences(l, FinishStep(l, b, path, at, w), x)
  {
  }

  lemma BatchHistory(l: Local, x: Site, b: BatchId, stage: BatchStage, w: Answer)
    requires Fits(l, x) && l.pc == InBatch(b, stage) && !stage.Finish?
    ensures History(l, BatchStep(l, x.t, b, stage, w)) && Fences(l, BatchStep(l, x.t, b, stage, w), x)
  {
  }

  lemma RollHistory(l: Local, x: Site, r: RollId, at: RollStage, reachable: set<BatchId>)
    requires Fits(l, x) && l.pc == InRoll(r, at)
    ensures History(l, RollStep(l, x.t, r, at, reachable)) && Fences(l, RollStep(l, x.t, r, at, reachable), x)
  {
  }

  lemma ResumeHistory(l: Local, x: Site, w: Answer, reachable: set<BatchId>)
    requires Fits(l, x)
    ensures History(l, ResumeStep(l, x.t, w, reachable)) && Fences(l, ResumeStep(l, x.t, w, reachable), x)
  {
    match l.pc
    case InBatch(b, stage) =>
      if stage.Finish? { FinishHistory(l, x, b, stage.path, stage.at, w); } else { BatchHistory(l, x, b, stage, w); }
    case InRoll(r, at) => RollHistory(l, x, r, at, reachable);
    case _ =>
  }

  lemma ExpireHistory(l: Local, x: Site)
    requires Fits(l, x)
    ensures History(l, ExpireStep(l)) && Fences(l, ExpireStep(l), x) && ExpireStep(l).unlocks == l.unlocks
    ensures ExpireStep(l).rollOwner == l.rollOwner
  {
  }

  lemma CallHistory(s: State, a: Action, l: Local)
    requires Enabled(s, a) && l == Focus(s, SiteOf(s, a)) && Fits(l, SiteOf(s, a))
    requires !a.Resume? && !a.Expire? && !a.CallNext?
    ensures History(l, Effect(s, a, l)) && Effect(s, a, l).unlocks == l.unlocks
    ensures Fences(l, Effect(s, a, l), SiteOf(s, a))
  {
  }

  lemma NextHistory(s: State, a: Action, l: Local)
    requires Enabled(s, a) && l == Focus(s, SiteOf(s, a)) && Fits(l, SiteOf(s, a)) && a.CallNext?
    ensures History(l, Effect(s, a, l)) && Effect(s, a, l).unlocks == l.unlocks
    ensures l.batch.Some? && Effect(s, a, l).batch.Some?
    ensures Effect(s, a, l).batch.value.uncertain == l.batch.value.uncertain
    ensures Effect(s, a, l).pc in {Idle, InBatch(a.b, NextRunning)}
  {
  }

  lemma WriteLocks(s: State, a: Action, x: Site, l': Local)
    requires History(Focus(s, x), l') && a.t == x.t
    requires x.b.Some? && l'.unlocks != s.unlocks[x.b.value] ==> x.b.value in s.batches
    requires s.rollOwner.Some? && l'.rollOwner != s.rollOwner ==> a.Resume?
    requires x.r.Some? && x.r.value in s.rolls ==> l'.roll.Some?
    ensures Locks(s, a, Write(s, x, l'))
  {
  }

  lemma WriteFenced(s: State, a: Action, x: Site, l': Local)
    requires Fences(Focus(s, x), l', x) && a.t == x.t && (x.b.Some? && l'.unlocks != s.unlocks[x.b.value] ==> a.Resume?)
    ensures Fenced(s, a, Write(s, x, l'))
  {
    var s' := Write(s, x, l');
    forall t
      ensures PcOf(s', t) == if t == x.t then l'.pc else PcOf(s, t)
    {
    }
  }

  lemma WriteNext(s: State, a: Action, l': Local)
    requires Enabled(s, a) && a.CallNext?
    requires var l := Focus(s, SiteOf(s, a));
      && l'.unlocks == l.unlocks && l'.batch.Some? && l.batch.Some?
      && l'.batch.value.uncertain == l.batch.value.uncertain
      && l'.pc in {Idle, InBatch(a.b, NextRunning)}
    ensures Fenced(s, a, Write(s, SiteOf(s, a), l'))
  {
    var s' := Write(s, SiteOf(s, a), l');
    forall t
      ensures PcOf(s', t) == if t == a.t then l'.pc else PcOf(s, t)
    {
    }
  }

  /** What any action does at its site. */
  predicate Steps(s: State, a: Action, x: Site, l: Local, l': Local) {
    && History(l, l')
    && (l'.unlocks != l.unlocks ==> a.Resume? && x.b.Some? && x.b.value in s.batches)
    && (a.CallNext? || Fences(l, l', x))
  }

  lemma UnlockSite(s: State, a: Action, l': Local)
    requires Inv(s) && Enabled(s, a) && a.Resume?
    requires Fences(Focus(s, SiteOf(s, a)), l', SiteOf(s, a))
    ensures var x := SiteOf(s, a);
      l'.unlocks != Focus(s, x).unlocks ==> x.b.Some? && x.b.value in s.batches
  {
    assert ThreadOk(s, a.t);
  }

  lemma StepHistory(s: State, a: Action)
    requires Inv(s) && Enabled(s, a)
    ensures var x := SiteOf(s, a); Steps(s, a, x, Focus(s, x), Effect(s, a, Focus(s, x)))
  {
    hide Inv, History, Fences, Fits, Focus;
    var x := SiteOf(s, a);
    StepFits(s, a);
    match a
    case Resume(_, answer) =>
      ResumeHistory(Focus(s, x), x, answer, Reachable(s));
      UnlockSite(s, a, Effect(s, a, Focus(s, x)));
    case Expire(_) => ExpireHistory(Focus(s, x), x);
    case CallNext(_, _) => NextHistory(s, a, Focus(s, x));
    case _ => CallHistory(s, a, Focus(s, x));
  }

  /** Collecting an abandoned iterator touches no lock and no thread. */
  lemma LeaveAside(s: State, a: Action, s': State, gone: set<BatchId>)
    ensures Locks(s, a, s') ==> Locks(s, a, s'.(abandoned := gone))
    ensures Fenced(s, a, s') ==> Fenced(s, a, s'.(abandoned := gone))
  {
  }

  lemma FocusReads(s: State, x: Site)
    ensures x.b.Some? ==> Focus(s, x).unlocks == s.unlocks[x.b.value]
    ensures Focus(s, x).rollOwner == s.rollOwner
    ensures x.r.Some? && x.r.value in s.rolls ==> Focus(s, x).roll.Some?
  {
  }

  lemma StepLocks(s: State, a: Action)
    requires Inv(s) && Enabled(s, a)
    ensures Locks(s, a, Apply(s, a))
  {
    hide Inv, History, Fences, Locks, Write, Focus, Effect;
    var x := SiteOf(s, a);
    StepHistory(s, a);
    StepSound(s, a);
    StepOwner(s, a);
    var l' := Effect(s, a, Focus(s, x));
    FocusReads(s, x);
    WriteLocks(s, a, x, l');
    if a.Abandon? { LeaveAside(s, a, Write(s, x, l'), s.abandoned + {a.b}); }
  }

  /** Only a resumed thread frees a roll reservation. */
  lemma StepOwner(s: State, a: Action)
    requires Inv(s) && Enabled(s, a)
    ensures s.rollOwner.Some? && Effect(s, a, Focus(s, SiteOf(s, a))).rollOwner != s.rollOwner ==> a.Resume?
  {
    StepHistory(s, a);
  }

  lemma StepFenced(s: State, a: Action)
    requires Inv(s) && Enabled(s, a)
    ensures Fenced(s, a, Apply(s, a))
  {
    hide Inv, History, Fences, Fenced, Write, Focus, Effect;
    var x := SiteOf(s, a);
    var l' := Effect(s, a, Focus(s, x));
    StepHistory(s, a);
    FocusReads(s, x);
    if a.CallNext? {
      StepFits(s, a);
      NextHistory(s, a, Focus(s, x));
      WriteNext(s, a, l');
    } else {
      WriteFenced(s, a, x, l');
    }
    if a.Abandon? { LeaveAside(s, a, Write(s, x, l'), s.abandoned + {a.b}); }
  }

  lemma StepEvolves(s: State, a: Action)
    requires Inv(s) && Enabled(s, a)
    ensures Evolves(s, a, Apply(s, a))
  {
    StepLocks(s, a);
    StepFenced(s, a);
  }

  ghost predicate Chain(states: seq<State>, actions: seq<Action>) {
    && |states| == |actions| + 1
    && forall i | 0 <= i < |actions| :: Evolves(states[i], actions[i], states[i + 1])
  }

  lemma RunIsChain(states: seq<State>, actions: seq<Action>)
    requires RunFrom(states, actions)
    ensures Chain(states, actions)
  {
    forall i | 0 <= i < |actions|
      ensures Evolves(states[i], actions[i], states[i + 1])
    {
      RunInv(states, actions, i);
      StepEvolves(states[i], actions[i]);
    }
  }

  /** An active batch id, the batch lock and the batch's claim on the device's I/O lock
      exist together, and no batch gives its claim back twice. */
  lemma BatchOwnsItsLocks(states: seq<State>, actions: seq<Action>, k: nat, r: RollId)
    requires Run(states, actions) && k <= |actions| && r in states[k].rolls
    ensures var s := states[k]; var roll := s.rolls[r];
      && (roll.activeBatchId.Some? <==> roll.batchLocked)
      && (forall b :: roll.activeBatchId == Some(b) <==>
            b in s.batches && s.batches[b].roll == r && s.unlocks[b] == 0)
      && (forall b :: roll.activeBatchId == Some(b) ==> s.device.ioLocked && s.ioOwner == Some(BatchIo(b)))
      && (forall b | b in s.batches :: s.unlocks[b] <= 1)
      && (forall b | b in s.batches && s.ioOwner == Some(BatchIo(b)) ::
            s.batches[b].roll in s.rolls && s.rolls[s.batches[b].roll].activeBatchId == Some(b))
  {
    RunInv(states, actions, k);
    var s := states[k];
    assert RollOk(s, r);
    forall b | b in s.batches
      ensures BatchOk(s, b)
    {
    }
  }

  /** A batch that unlocks frees the batch lock and its own I/O claim, never another's. */
  lemma UnlockFreesOwnClaim(states: seq<State>, actions: seq<Action>, k: nat, b: BatchId)
    requires Run(states, actions) && k < |actions|
    requires states[k + 1].unlocks[b] != states[k].unlocks[b]
    ensures states[k].ioOwner == Some(BatchIo(b)) && states[k].device.ioLocked
    ensures b in states[k].batches && states[k].batches[b].roll in states[k].rolls
    ensures var roll := states[k].rolls[states[k].batches[b].roll];
      roll.activeBatchId == Some(b) && roll.batchLocked
    ensures states[k].unlocks[b] == 0 && states[k + 1].unlocks[b] == 1
  {
    RunInv(states, actions, k);
    RunInv(states, actions, k + 1);
    var s, s' := states[k], states[k + 1];
    assert b in s'.unlocks || b in s.unlocks;
    StepEvolves(states[k], actions[k]);
    assert s.unlocks[b] == 0 && b in s'.batches;
    assert BatchOk(s, b);
    assert RollOk(s, s.batches[b].roll);
  }

  predicate InGenerator(pc: Pc, b: BatchId) {
    pc.InBatch? && pc.b == b && (pc.stage.NextRunning? || pc.stage.CloseRunning?)
  }

  /** The generator's `next` and `close` never run at the same time, nor twice. */
  lemma GeneratorIsExclusive(states: seq<State>, actions: seq<Action>, k: nat, b: BatchId, t: ThreadId, u: ThreadId)
    requires Run(states, actions) && k <= |actions|
    requires InGenerator(PcOf(states[k], t), b) && InGenerator(PcOf(states[k], u), b)
    ensures t == u
  {
    RunInv(states, actions, k);
    assert ThreadOk(states[k], t) && ThreadOk(states[k], u);
    assert BatchOk(states[k], b);
  }

  /** The roll still holds the device's roll reservation. */
  predicate Open(s: State, r: RollId) {
    r in s.rolls && s.rollUnlocks[r] == 0
  }

  /** Ownership nests: a closed device has no open roll, a roll that is closed or has
      given its reservation back has no batch and no preview, and a closed iterator
      has given everything back. */
  lemma OwnershipNests(states: seq<State>, actions: seq<Action>, k: nat)
    requires Run(states, actions) && k <= |actions|
    ensures var s := states[k];
      && (forall r, q :: Open(s, r) && Open(s, q) ==> r == q)
      && (s.device.closed ==> forall r :: !Open(s, r))
      && (forall r | r in s.rolls :: s.rolls[r].closed ==> !Open(s, r))
      && (forall r | r in s.rolls :: !Open(s, r) ==> Quiet(s.rolls[r]))
      && (forall b | b in s.batches :: !Open(s, s.batches[b].roll) ==> s.unlocks[b] == 1)
      && (forall b | b in s.batches :: s.batches[b].closed ==> s.unlocks[b] == 1)
  {
    RunInv(states, actions, k);
    var s := states[k];
    forall r | r in s.rolls
      ensures RollOk(s, r)
      ensures !Open(s, r) ==> Quiet(s.rolls[r])
    {
      assert RollOk(s, r);
      if r in s.closers && s.closers[r] in s.pcs { assert ThreadOk(s, s.closers[r]); }
    }
    forall b | b in s.batches
      ensures BatchOk(s, b)
    {
      assert BatchOk(s, b);
    }
  }

  /** Freeing the roll reservation carries no token, yet it only ever frees the
      reservation of the roll that closes, and each roll frees it at most once: a
      repeated or concurrent `close` cannot free a newer roll's reservation. */
  lemma CloseFreesOwnReservation(states: seq<State>, actions: seq<Action>, k: nat, r: RollId)
    requires Run(states, actions) && k < |actions|
    requires r in states[k].rolls && states[k].rollOwner == Some(r) && states[k + 1].rollOwner != Some(r)
    ensures actions[k].Resume? && PcOf(states[k], actions[k].t) == InRoll(r, FreeingRoll)
    ensures states[k].rollUnlocks[r] == 0 && states[k + 1].rollUnlocks[r] == 1
    ensures forall j | k < j <= |actions| :: states[j].rollOwner != Some(r)
  {
    RunInv(states, actions, k);
    RunInv(states, actions, k + 1);
    var s, a := states[k], actions[k];
    assert RollOk(s, r);
    StepEvolves(states[k], actions[k]);
    assert r in states[k + 1].rolls && RollOk(states[k + 1], r);
    RunIsChain(states, actions);
    forall j | k < j <= |actions|
      ensures states[j].rollOwner != Some(r)
    {
      RollUnlocksGrow(states, actions, k + 1, j, r);
      RunInv(states, actions, j);
      assert RollOk(states[j], r);
    }
  }

  lemma {:induction false} RollUnlocksGrow(states: seq<State>, actions: seq<Action>, i: nat, j: nat, r: RollId)
    requires Chain(states, actions) && i <= j <= |actions|
    requires r in states[i].rolls
    ensures r in states[j].rolls && states[j].rollUnlocks[r] >= states[i].rollUnlocks[r]
    decreases j
  {
    if i < j {
      RollUnlocksGrow(states, actions, i, j - 1, r);
      assert Evolves(states[j - 1], actions[j - 1], states[j - 1 + 1]);
    }
  }

  /** A stop requested while a batch is active is not forgotten before that batch is
      released. */
  lemma StopOutlivesTheBatch(states: seq<State>, actions: seq<Action>, i: nat, j: nat, r: RollId, b: BatchId)
    requires Run(states, actions) && i <= j <= |actions|
    requires forall n | i <= n <= j :: r in states[n].rolls && states[n].rolls[r].activeBatchId == Some(b)
    requires states[i].rolls[r].stop
    ensures states[j].rolls[r].stop
  {
    RunIsChain(states, actions);
    StopStays(states, actions, i, j, r, b);
  }

  lemma {:induction false} StopStays(states: seq<State>, actions: seq<Action>, i: nat, j: nat,
                                     r: RollId, b: BatchId)
    requires Chain(states, actions) && i <= j <= |actions|
    requires forall n | i <= n <= j :: r in states[n].rolls && states[n].rolls[r].activeBatchId == Some(b)
    requires states[i].rolls[r].stop
    ensures states[j].rolls[r].stop
    decreases j
  {
    if i < j {
      StopStays(states, actions, i, j - 1, r, b);
      assert Evolves(states[j - 1], actions[j - 1], states[j - 1 + 1]);
    }
  }

  // -- fail-closed batches -----------------------------------------------------------

  /** Shutdown of the batch was not confirmed, and its locks are not given back. */
  predicate Uncertain(s: State, b: BatchId) {
    b in s.batches && s.batches[b].uncertain && s.unlocks[b] == 0
  }

  ghost predicate NoNext(actions: seq<Action>, i: nat, j: nat, b: BatchId) {
    forall n | i <= n < j && n < |actions| :: !CallsNext(actions[n], b)
  }

  lemma {:induction false} UncertaintyStays(states: seq<State>, actions: seq<Action>, i: nat, j: nat, b: BatchId)
    requires Chain(states, actions) && i <= j <= |actions|
    requires b in states[i].batches && states[i].batches[b].uncertain
    ensures b in states[j].batches && states[j].batches[b].uncertain
    decreases j
  {
    if i < j {
      UncertaintyStays(states, actions, i, j - 1, b);
      assert Evolves(states[j - 1], actions[j - 1], states[j - 1 + 1]);
    }
  }

  /** A thread on its way to a release was on its way all along. */
  lemma {:induction false} WasOnItsWay(states: seq<State>, actions: seq<Action>, i: nat, j: nat, b: BatchId, t: ThreadId)
    requires Chain(states, actions) && i <= j <= |actions|
    requires b in states[i].batches && states[i].batches[b].uncertain && NoNext(actions, i, j, b)
    requires MayRelease(PcOf(states[j], t), b)
    ensures forall n | i <= n <= j :: MayRelease(PcOf(states[n], t), b)
    decreases j
  {
    if i < j {
      UncertaintyStays(states, actions, i, j - 1, b);
      assert Evolves(states[j - 1], actions[j - 1], states[j - 1 + 1]);
      WasOnItsWay(states, actions, i, j - 1, b, t);
    }
  }

  lemma {:induction false} FirstUnlock(states: seq<State>, actions: seq<Action>, i: nat, j: nat, b: BatchId)
    returns (k: nat)
    requires Chain(states, actions) && i <= j <= |actions|
    requires states[i].unlocks[b] == 0 && states[j].unlocks[b] != 0
    ensures i <= k < j && states[k].unlocks[b] == 0 && states[k + 1].unlocks[b] == 1
    decreases j
  {
    assert i < j && Evolves(states[j - 1], actions[j - 1], states[j - 1 + 1]);
    if states[j - 1].unlocks[b] == 0 { k := j - 1; } else { k := FirstUnlock(states, actions, i, j - 1, b); }
  }

  /** If unconfirmed ownership is released without another `next`, the releasing thread
      was already inside the iterator when it became unconfirmed, and has been ever since. */
  lemma ReleaserWasInside(states: seq<State>, actions: seq<Action>, i: nat, j: nat, b: BatchId)
    returns (k: nat, t: ThreadId)
    requires RunFrom(states, actions) && i <= j <= |actions|
    requires Uncertain(states[i], b) && states[j].unlocks[b] != 0
    requires NoNext(actions, i, j, b)
    ensures i <= k < j && actions[k].Resume? && actions[k].t == t
    ensures states[k].unlocks[b] == 0 && states[k + 1].unlocks[b] == 1
    ensures MayRelease(PcOf(states[i], t), b)
    ensures forall n | i <= n <= k :: MayRelease(PcOf(states[n], t), b)
    ensures forall n | i <= n <= k ::
      && b in states[n].batches
      && (states[n].batches[b].executing == Some(t) || states[n].batches[b].closing == Some(t))
  {
    RunIsChain(states, actions);
    k := FirstUnlock(states, actions, i, j, b);
    assert Evolves(states[k], actions[k], states[k + 1]);
    t := actions[k].t;
    WasOnItsWay(states, actions, i, k, b, t);
    forall n | i <= n <= k
      ensures b in states[n].batches
      ensures states[n].batches[b].executing == Some(t) || states[n].batches[b].closing == Some(t)
    {
      RunInv(states, actions, n);
      assert MayRelease(PcOf(states[n], t), b);
      assert ThreadOk(states[n], t);
    }
  }

  /** So with no thread on its way inside, unconfirmed ownership is kept: no `close`, no
      `Roll.close` and no abandonment gives its locks back, until someone calls `next`. */
  lemma UncertainOwnershipIsRetained(states: seq<State>, actions: seq<Action>, i: nat, j: nat, b: BatchId)
    requires RunFrom(states, actions) && i <= j <= |actions|
    requires Uncertain(states[i], b) && forall t :: !MayRelease(PcOf(states[i], t), b)
    requires NoNext(actions, i, j, b)
    ensures Uncertain(states[j], b) && states[j].device.ioLocked && states[j].ioOwner == Some(BatchIo(b))
    ensures forall t :: !MayRelease(PcOf(states[j], t), b)
  {
    RunIsChain(states, actions);
    UncertaintyStays(states, actions, i, j, b);
    forall t
      ensures !MayRelease(PcOf(states[j], t), b)
    {
      if MayRelease(PcOf(states[j], t), b) { WasOnItsWay(states, actions, i, j, b, t); }
    }
    if states[j].unlocks[b] != 0 {
      var k, t := ReleaserWasInside(states, actions, i, j, b);
    }
    RunInv(states, actions, j);
    assert BatchOk(states[j], b);
  }

  // -- the condition is exact ------------------------------------------------------------

  /** Some continuation from `s` releases the batch without another `next`. */
  ghost predicate Releasable(s: State, b: BatchId) {
    exists states: seq<State>, actions: seq<Action> ::
      RunFrom(states, actions) && states[0] == s && NoNext(actions, 0, |actions|, b)
      && states[|actions|].unlocks[b] != 0
  }

  /** The answer that brings a thread on its way nearer to the release. */
  const ENDS := Answer(Ended, false, true)

  function StepsLeft(pc: Pc): nat {
    match pc
    case InBatch(_, Finish(_, Testing)) => 3
    case InBatch(_, Finish(_, Checking)) => 2
    case InBatch(_, Finish(_, Teardown)) => 2
    case InBatch(_, Finish(_, Unlocking)) => 1
    case _ => 4
  }

  lemma WayLocal(l: Local, x: Site, b: BatchId, reachable: set<BatchId>)
    requires Fits(l, x) && MayRelease(l.pc, b) && l.unlocks == 0
    ensures var l' := ResumeStep(l, x.t, ENDS, reachable);
      l'.unlocks == 1 || (l'.unlocks == 0 && MayRelease(l'.pc, b) && StepsLeft(l'.pc) < StepsLeft(l.pc))
  {
  }

  lemma WriteReads(s: State, x: Site, l: Local)
    ensures PcOf(Write(s, x, l), x.t) == l.pc
    ensures x.b.Some? ==> Write(s, x, l).unlocks[x.b.value] == l.unlocks
  {
  }

  /** One step of a thread on its way: it stays on its way or releases. */
  lemma WayStep(s: State, t: ThreadId, b: BatchId)
    requires Inv(s) && MayRelease(PcOf(s, t), b) && s.unlocks[b] == 0
    ensures var a := Resume(t, ENDS);
      && Enabled(s, a)
      && (Apply(s, a).unlocks[b] == 1
          || (Apply(s, a).unlocks[b] == 0 && MayRelease(PcOf(Apply(s, a), t), b)
              && StepsLeft(PcOf(Apply(s, a), t)) < StepsLeft(PcOf(s, t))))
  {
    assert ThreadOk(s, t);
    var a := Resume(t, ENDS);
    var x := Own(s, t);
    var l := Focus(s, x);
    FocusReads(s, x);
    StepFits(s, a);
    WayLocal(l, x, b, Reachable(s));
    WriteReads(s, x, ResumeStep(l, t, ENDS, Reachable(s)));
  }

  lemma {:induction false} InsiderReleases(s: State, t: ThreadId, b: BatchId) returns (states: seq<State>, actions: seq<Action>)
    requires Inv(s) && MayRelease(PcOf(s, t), b) && s.unlocks[b] == 0
    ensures RunFrom(states, actions) && states[0] == s && NoNext(actions, 0, |actions|, b)
    ensures states[|actions|].unlocks[b] == 1
    decreases StepsLeft(PcOf(s, t))
  {
    hide Apply, Inv, Enabled, MayRelease;
    var a := Resume(t, ENDS);
    WayStep(s, t, b);
    StepKeepsInv(s, a);
    var s' := Apply(s, a);
    if s'.unlocks[b] == 1 {
      states, actions := [s, s'], [a];
    } else {
      var states', actions' := InsiderReleases(s', t, b);
      states, actions := Prepend(s, a, states', actions', b);
    }
  }

  lemma Prepend(s: State, a: Action, states': seq<State>, actions': seq<Action>, b: BatchId)
    returns (states: seq<State>, actions: seq<Action>)
    requires Inv(s) && Enabled(s, a) && !CallsNext(a, b)
    requires RunFrom(states', actions') && states'[0] == Apply(s, a) && NoNext(actions', 0, |actions'|, b)
    ensures states == [s] + states' && actions == [a] + actions'
    ensures RunFrom(states, actions) && NoNext(actions, 0, |actions|, b)
  {
    states, actions := [s] + states', [a] + actions';
    forall i | 0 <= i < |actions|
      ensures Enabled(states[i], actions[i]) && states[i + 1] == Apply(states[i], actions[i])
      ensures !CallsNext(actions[i], b)
    {
      if i > 0 {
        assert states[i] == states'[i - 1] && actions[i] == actions'[i - 1] && states[i + 1] == states'[i];
        assert states'[i - 1 + 1] == Apply(states'[i - 1], actions'[i - 1]);
      }
    }
  }

  /** Unconfirmed ownership can be released without another `next` exactly when some
      thread is inside the iterator and still on its way. */
  lemma ReleasableExactlyFromInside(s: State, b: BatchId)
    requires Inv(s) && Uncertain(s, b)
    ensures Releasable(s, b) <==> exists t :: MayRelease(PcOf(s, t), b)
  {
    if Releasable(s, b) {
      var states: seq<State>, actions: seq<Action> :| RunFrom(states, actions) && states[0] == s && NoNext(actions, 0, |actions|, b)
                             && states[|actions|].unlocks[b] != 0;
      var k, t := ReleaserWasInside(states, actions, 0, |actions|, b);
    }
    if t :| MayRelease(PcOf(s, t), b) {
      var states, actions := InsiderReleases(s, t, b);
      assert RunFrom(states, actions) && states[0] == s;
    }
  }

  /** A further `next` is the other way out: it does not test the flag, so any idle
      client that calls it sets itself on its way. */
  lemma FurtherNextReleases(s: State, t: ThreadId, b: BatchId)
    requires Inv(s) && Uncertain(s, b) && b in Reachable(s) && PcOf(s, t).Idle?
    requires s.batches[b].executing.None? && s.batches[b].closing.None?
    ensures Enabled(s, CallNext(t, b)) && Releasable(Apply(s, CallNext(t, b)), b)
  {
    assert BatchOk(s, b);
    var a := CallNext(t, b);
    var s' := Apply(s, a);
    StepKeepsInv(s, a);
    assert PcOf(s', t) == InBatch(b, NextRunning);
    var states, actions := InsiderReleases(s', t, b);
    assert RunFrom(states, actions) && states[0] == s';
  }

  // -- both ways are reachable --------------------------------------------------------------

  lemma Extend(states: seq<State>, actions: seq<Action>, a: Action) returns (states': seq<State>, actions': seq<Action>)
    requires Run(states, actions) && Enabled(states[|actions|], a)
    ensures Run(states', actions') && states'[|actions'|] == Apply(states[|actions|], a)
  {
    hide Apply, Enabled, Inv;
    states', actions' := states + [Apply(states[|actions|], a)], actions + [a];
  }

  /** A batch without a user, and two idle threads. */
  predicate Unused(s: State) {
    && PcOf(s, 0).Idle? && PcOf(s, 1).Idle? && 0 in s.rolls
    && 0 in Reachable(s) && s.batches[0] == NewBatch(0) && s.unlocks[0] == 0
  }

  /** Thread 0 is inside the iterator and thread 1 has called `close`. */
  predicate Contended(s: State) {
    && MayRelease(PcOf(s, 0), 0) && PcOf(s, 1) == InBatch(0, CloseCalled(ToClient)) && 0 in s.rolls
    && 0 in s.batches && s.batches[0].roll == 0 && s.unlocks[0] == 0 && Occupied(s.batches[0])
    && !s.batches[0].closed && !s.batches[0].uncertain
    && s.batches[0].executing != Some(1) && s.batches[0].closing != Some(1)
  }

  lemma ReachUnused() returns (states: seq<State>, actions: seq<Action>)
    ensures Run(states, actions) && Unused(states[|actions|])
  {
    InitialInv();
    states, actions := [INITIAL], [];
    states, actions := Extend(states, actions, CallOpenRoll(0, 0));
    states, actions := Extend(states, actions, CallScanMany(0, 0, 0));
  }

  /** Thread 0 is inside the iterator, thread 1 idle. */
  predicate Occupying(s: State) {
    && MayRelease(PcOf(s, 0), 0) && PcOf(s, 1).Idle? && 0 in s.rolls
    && 0 in Reachable(s) && s.batches[0].roll == 0 && s.unlocks[0] == 0 && Occupied(s.batches[0])
    && !s.batches[0].closed && !s.batches[0].uncertain
    && s.batches[0].executing != Some(1) && s.batches[0].closing != Some(1)
  }

  lemma StartClose(s: State)
    requires Unused(s)
    ensures var a := CallClose(0, 0);
      && Enabled(s, a)
      && var s' := Apply(s, a);
      && PcOf(s', 0) == InBatch(0, CloseCalled(ToClient)) && PcOf(s', 1).Idle? && 0 in s'.rolls
      && 0 in Reachable(s') && s'.batches[0] == NewBatch(0) && s'.unlocks[0] == 0
  {
  }

  lemma ClaimClose(s: State)
    requires PcOf(s, 0) == InBatch(0, CloseCalled(ToClient)) && PcOf(s, 1).Idle? && 0 in s.rolls
    requires 0 in Reachable(s) && s.batches[0] == NewBatch(0) && s.unlocks[0] == 0
    ensures Enabled(s, Resume(0, ENDS))
    ensures var s' := Apply(s, Resume(0, ENDS)); Occupying(s') && PcOf(s', 0) == InBatch(0, CloseRunning(ToClient))
  {
  }

  lemma SecondCloser(s: State)
    requires Occupying(s)
    ensures Enabled(s, CallClose(1, 0))
    ensures var s' := Apply(s, CallClose(1, 0)); Contended(s') && PcOf(s', 0) == PcOf(s, 0)
  {
  }

  lemma ReachCloseRunning() returns (states: seq<State>, actions: seq<Action>)
    ensures Run(states, actions) && Contended(states[|actions|])
    ensures PcOf(states[|actions|], 0) == InBatch(0, CloseRunning(ToClient))
  {
    states, actions := ReachUnused();
    StartClose(states[|actions|]);
    states, actions := Extend(states, actions, CallClose(0, 0));
    ClaimClose(states[|actions|]);
    states, actions := Extend(states, actions, Resume(0, ENDS));
    SecondCloser(states[|actions|]);
    states, actions := Extend(states, actions, CallClose(1, 0));
  }

  lemma StartNext(s: State)
    requires Unused(s)
    ensures Enabled(s, CallNext(0, 0))
    ensures var s' := Apply(s, CallNext(0, 0)); Occupying(s') && PcOf(s', 0) == InBatch(0, NextRunning)
  {
  }

  lemma ReachNextRunning() returns (states: seq<State>, actions: seq<Action>)
    ensures Run(states, actions) && Contended(states[|actions|])
    ensures PcOf(states[|actions|], 0) == InBatch(0, NextRunning)
  {
    states, actions := ReachUnused();
    StartNext(states[|actions|]);
    states, actions := Extend(states, actions, CallNext(0, 0));
    SecondCloser(states[|actions|]);
    states, actions := Extend(states, actions, CallClose(1, 0));
  }

  /** The second closer waits, and its deadline passes. */
  lemma WaitInVain(s: State) returns (s': State)
    requires Contended(s)
    ensures Enabled(s, Resume(1, ENDS)) && s' == Apply(s, Resume(1, ENDS))
    ensures PcOf(s', 0) == PcOf(s, 0) && PcOf(s', 1) == InBatch(0, CloseWaiting(ToClient))
    ensures 0 in s'.rolls && s'.batches == s.batches && s'.unlocks[0] == 0
  {
    s' := Apply(s, Resume(1, ENDS));
    assert s'.batches[0] == s.batches[0];
  }

  lemma DeadlinePasses(s: State) returns (s': State)
    requires PcOf(s, 1) == InBatch(0, CloseWaiting(ToClient)) && 0 in s.batches && s.batches[0].roll == 0 && 0 in s.rolls
    requires Occupied(s.batches[0]) && s.unlocks[0] == 0
    ensures Enabled(s, Expire(1)) && s' == Apply(s, Expire(1))
    ensures PcOf(s', 0) == PcOf(s, 0) && Uncertain(s', 0)
  {
    s' := Apply(s, Expire(1));
  }

  /** In flight through `close`, or through `next`: a second closer's deadline passes and
      makes ownership uncertain, and still the first thread goes on to release it. */
  lemma DeadlineThenRelease(closing: bool) returns (states: seq<State>, actions: seq<Action>)
    ensures Run(states, actions)
    ensures PcOf(states[|actions|], 0) == InBatch(0, if closing then CloseRunning(ToClient) else NextRunning)
    ensures Uncertain(states[|actions|], 0) && Releasable(states[|actions|], 0)
  {
    if closing { states, actions := ReachCloseRunning(); } else { states, actions := ReachNextRunning(); }
    var s1 := WaitInVain(states[|actions|]);
    states, actions := Extend(states, actions, Resume(1, ENDS));
    var s2 := DeadlinePasses(s1);
    states, actions := Extend(states, actions, Expire(1));
    RunInv(states, actions, |actions|);
    assert MayRelease(PcOf(s2, 0), 0);
    ReleasableExactlyFromInside(s2, 0);
  }
}
