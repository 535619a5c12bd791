/** Who keeps the fence closed: said on which processes have come and gone. */
module FenceHistory {
  import opened Wrappers
  import opened ProcessFence

  /** A process that can have the description of bridge `g` open. */
  predicate OfBridge(g: Generation, p: Process) {
    p == Bridge(g) || p.Capture?
  }

  predicate InUse(s: State, g: Generation, p: Process) {
    g in s.places && p in Holders(s.kernel, s.places[g].d)
  }

  /** The bridge opens the file, or spawns the worker while it owns the fence. */
  predicate Joins(a: Action, g: Generation, p: Process) {
    match p
    case Bridge(b) => b == g && a.Open? && a.g == g
    case Capture(w) => a == Spawn(g, w)
  }

  /** The bridge closes after a failure, closes, or crashes; the worker exits. */
  predicate Leaves(a: Action, g: Generation, p: Process) {
    match p
    case Bridge(b) => b == g && (a == CloseFailed(g) || a == BridgeCloses(g) || a == BridgeCrashes(g))
    case Capture(w) => a == WorkerExits(g, w)
  }

  predicate OwnOnly(s: State, g: Generation) {
    g in s.places ==> forall p | p in Holders(s.kernel, s.places[g].d) :: OfBridge(g, p)
  }

  lemma Known(s: State, g: Generation)
    requires Inv(s) && g in s.places
    ensures s.places[g].d in s.used
    ensures forall h | h in s.places && h != g :: s.places[h].d != s.places[g].d
  {
    assert PlaceOk(s, g);
  }

  lemma OthersStay(s: State, a: Action, g: Generation)
    requires Inv(s) && Enabled(s, a) && g in s.places && a.g != g
    ensures g in Apply(s, a).places && Apply(s, a).places[g] == s.places[g]
    ensures Holders(Apply(s, a).kernel, s.places[g].d) == Holders(s.kernel, s.places[g].d)
  {
    Known(s, g);
    if a.g in s.places { Known(s, a.g); }
  }

  lemma OwnStep(s: State, a: Action, p: Process)
    requires Inv(s) && Enabled(s, a) && OfBridge(a.g, p)
    ensures InUse(Apply(s, a), a.g, p) <==> Joins(a, a.g, p) || (InUse(s, a.g, p) && !Leaves(a, a.g, p))
    ensures OwnOnly(s, a.g) ==> OwnOnly(Apply(s, a), a.g)
  {
  }

  lemma StepUses(s: State, a: Action, g: Generation, p: Process)
    requires Inv(s) && Enabled(s, a) && OfBridge(g, p)
    ensures InUse(Apply(s, a), g, p) <==> Joins(a, g, p) || (InUse(s, g, p) && !Leaves(a, g, p))
    ensures OwnOnly(s, g) ==> OwnOnly(Apply(s, a), g)
  {
    if a.g == g {
      OwnStep(s, a, p);
    } else if g in s.places {
      OthersStay(s, a, g);
    }
  }

  /** Came at some step before `k`, and has not gone since. */
  ghost predicate Here(actions: seq<Action>, k: nat, g: Generation, p: Process)
    requires k <= |actions|
  {
    exists i | 0 <= i < k :: Joins(actions[i], g, p) && Stays(actions, i, k, g, p)
  }

  ghost predicate Stays(actions: seq<Action>, i: nat, k: nat, g: Generation, p: Process)
    requires k <= |actions|
  {
    forall j | i < j < k :: !Leaves(actions[j], g, p)
  }

  lemma HereGrows(actions: seq<Action>, k: nat, g: Generation, p: Process)
    requires k < |actions|
    ensures Here(actions, k + 1, g, p)
      <==> Joins(actions[k], g, p) || (Here(actions, k, g, p) && !Leaves(actions[k], g, p))
  {
    if Here(actions, k + 1, g, p) {
      var i :| 0 <= i < k + 1 && Joins(actions[i], g, p) && Stays(actions, i, k + 1, g, p);
      if i < k { assert Stays(actions, i, k, g, p); }
    }
    if Joins(actions[k], g, p) {
      assert Stays(actions, k, k + 1, g, p);
    } else if Here(actions, k, g, p) && !Leaves(actions[k], g, p) {
      var i :| 0 <= i < k && Joins(actions[i], g, p) && Stays(actions, i, k, g, p);
      assert Stays(actions, i, k + 1, g, p);
    }
  }

  /** In every run a process has the description of a bridge open exactly if it came and has
      not gone since, and nobody else has. */
  lemma {:induction false} UsedExactlyWhileHere(states: seq<State>, actions: seq<Action>, k: nat, g: Generation, p: Process)
    requires Run(states, actions) && k <= |actions| && OfBridge(g, p)
    ensures |states| == |actions| + 1
    ensures InUse(states[k], g, p) <==> Here(actions, k, g, p)
    ensures OwnOnly(states[k], g)
  {
    hide Joins, Leaves, Inv, Apply, Enabled, Here;
    if k == 0 {
      NobodyYet(actions, g, p);
    } else {
      UsedExactlyWhileHere(states, actions, k - 1, g, p);
      RunInv(states, actions, k - 1);
      assert states[k - 1 + 1] == Apply(states[k - 1], actions[k - 1]);
      StepUses(states[k - 1], actions[k - 1], g, p);
      HereGrows(actions, k - 1, g, p);
    }
  }

  lemma NobodyYet(actions: seq<Action>, g: Generation, p: Process)
    ensures !Here(actions, 0, g, p)
  {
  }

  lemma OwnerSteps(s: State, a: Action, g: Generation)
    requires Enabled(s, a)
    ensures g in Apply(s, a).places && Apply(s, a).places[g].Owner?
      <==> a == Record(g, true) || (g in s.places && s.places[g].Owner?)
  {
  }

  lemma {:induction false} OwnsOnceRecorded(states: seq<State>, actions: seq<Action>, k: nat, g: Generation)
    requires Run(states, actions) && k <= |actions|
    ensures |states| == |actions| + 1
    ensures g in states[k].places && states[k].places[g].Owner? <==> Record(g, true) in actions[..k]
  {
    if k > 0 {
      OwnsOnceRecorded(states, actions, k - 1, g);
      assert states[k - 1 + 1] == Apply(states[k - 1], actions[k - 1]);
      OwnerSteps(states[k - 1], actions[k - 1], g);
      assert actions[..k] == actions[..k - 1] + [actions[k - 1]];
    }
  }

  /** In every run a generation holds the fence exactly if its bridge has written its record
      and the bridge or a worker it spawned since is still there: a bridge that closes or
      crashes leaves the fence to its workers, and the last of them takes it along. */
  lemma FenceHeldExactly(states: seq<State>, actions: seq<Action>, k: nat, g: Generation)
    requires Run(states, actions) && k <= |actions|
    ensures |states| == |actions| + 1
    ensures HoldsFence(states[k], g) <==>
      Record(g, true) in actions[..k] && exists p :: OfBridge(g, p) && Here(actions, k, g, p)
  {
    hide Here, OfBridge;
    var s := states[k];
    OwnsOnceRecorded(states, actions, k, g);
    BridgeIsItsOwn(g);
    UsedExactlyWhileHere(states, actions, k, g, Bridge(g));
    if HoldsFence(s, g) {
      var p :| p in Holders(s.kernel, s.places[g].d);
      UsedExactlyWhileHere(states, actions, k, g, p);
    }
    if p :| OfBridge(g, p) && Here(actions, k, g, p) {
      UsedExactlyWhileHere(states, actions, k, g, p);
    }
  }

  lemma BridgeIsItsOwn(g: Generation)
    ensures OfBridge(g, Bridge(g))
  {
  }
}
