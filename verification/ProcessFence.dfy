/** The cross-process fence: an exclusive flock on a file whose open description is
    inherited by every capture worker, so that it outlives the bridge that took it. */
module ProcessFence {
  import opened Wrappers

  type Descriptor = int     // an open file description
  type Generation = int     // one bridge process
  type WorkerId = int

  datatype Process = Bridge(g: Generation) | Capture(w: WorkerId)

  // -- the kernel -----------------------------------------------------------------

  /** Who still has each description open, and which description holds the flock. */
  datatype Kernel = Kernel(holders: map<Descriptor, set<Process>>, lock: Option<Descriptor>)

  function Holders(k: Kernel, d: Descriptor): set<Process> {
    if d in k.holders then k.holders[d] else {}
  }

  function Opened(k: Kernel, d: Descriptor, p: Process): Kernel {
    k.(holders := k.holders[d := {p}])
  }

  /** `flock(LOCK_EX | LOCK_NB)`: refused while another description holds the lock. */
  function TryLock(k: Kernel, d: Descriptor): (Kernel, bool) {
    if k.lock.Some? && k.lock != Some(d) then (k, false) else (k.(lock := Some(d)), true)
  }

  /** Closing the last copy of a description releases its flock. */
  function Closed(k: Kernel, d: Descriptor, p: Process): Kernel {
    var left := Holders(k, d) - {p};
    Kernel(k.holders[d := left], if left == {} && k.lock == Some(d) then None else k.lock)
  }

  function Inherited(k: Kernel, d: Descriptor, p: Process): Kernel {
    k.(holders := k.holders[d := Holders(k, d) + {p}])
  }

  /** `flock(LOCK_UN)`, which the fence must not use. */
  function Unlocked(k: Kernel, d: Descriptor): Kernel {
    if k.lock == Some(d) then k.(lock := None) else k
  }

  // -- acquiring --------------------------------------------------------------------

  datatype Obstacle = NotOurFile | LockBusy | RecordFailed

  /** `acquire` on a fresh description `d`: every failure closes it again. */
  function Acquire(k: Kernel, g: Generation, d: Descriptor, ours: bool, recorded: bool): (Kernel, Option<Obstacle>) {
    var handle := Opened(k, d, Bridge(g));
    if !ours then (Closed(handle, d, Bridge(g)), Some(NotOurFile))
    else
      var (locked, got) := TryLock(handle, d);
      if !got then (Closed(locked, d, Bridge(g)), Some(LockBusy))
      else if !recorded then (Closed(locked, d, Bridge(g)), Some(RecordFailed))
      else (locked, None)
  }

  class LockFile {
    var holders: map<Descriptor, set<Process>>
    var lock: Option<Descriptor>

    function View(): Kernel
      reads this
    {
      Kernel(holders, lock)
    }

    constructor ()
      ensures View() == Kernel(map[], None)
    {
      holders, lock := map[], None;
    }

    method Open(d: Descriptor, p: Process)
      modifies this
      ensures View() == Opened(old(View()), d, p)
    {
      holders := holders[d := {p}];
    }

    method Flock(d: Descriptor) returns (got: bool)
      modifies this
      ensures (View(), got) == TryLock(old(View()), d)
      ensures got <==> old(lock).None? || old(lock) == Some(d)
      ensures lock == (if got then Some(d) else old(lock)) && holders == old(holders)
    {
      if lock.Some? && lock != Some(d) { return false; }
      lock := Some(d);
      return true;
    }

    method Close(d: Descriptor, p: Process)
      modifies this
      ensures View() == Closed(old(View()), d, p)
      ensures p !in Holders(View(), d) && Holders(View(), d) == Holders(old(View()), d) - {p}
      ensures lock == if old(lock) == Some(d) && Holders(View(), d) == {} then None else old(lock)
    {
      var left := (if d in holders then holders[d] else {}) - {p};
      holders := holders[d := left];
      if left == {} && lock == Some(d) {
        lock := None;
      }
    }
  }

  /** One bridge's claim, with the two environment entries its workers read. */
  class BridgeProcessOwnership {
    const generation: Generation
    const token: string
    var fd: Option<Descriptor>
    var envFd: Option<Descriptor>
    var envToken: Option<string>

    constructor (g: Generation, t: string)
      ensures generation == g && token == t && fd == None
    {
      generation, token := g, t;
      fd, envFd, envToken := None, None, None;
    }

    method TakeFence(file: LockFile, d: Descriptor, ours: bool, recorded: bool) returns (e: Option<Obstacle>)
      modifies this, file
      ensures (file.View(), e) == Acquire(old(file.View()), generation, d, ours, recorded)
      ensures e ==
        if !ours then Some(NotOurFile)
        else if old(file.lock).Some? && old(file.lock) != Some(d) then Some(LockBusy)
        else if !recorded then Some(RecordFailed)
        else None
      ensures e.None? ==> file.lock == Some(d) && Holders(file.View(), d) == {Bridge(generation)}
      ensures e.Some? ==> Holders(file.View(), d) == {} && (old(file.lock) != Some(d) ==> file.lock == old(file.lock))
      ensures e.None? ==> fd == Some(d) && envFd == Some(d) && envToken == Some(token)
      ensures e.Some? ==> fd == old(fd) && envFd == old(envFd) && envToken == old(envToken)
    {
      file.Open(d, Bridge(generation));
      if !ours {
        file.Close(d, Bridge(generation));
        return Some(NotOurFile);
      }
      var got := file.Flock(d);
      if !got {
        file.Close(d, Bridge(generation));
        return Some(LockBusy);
      }
      if !recorded {
        file.Close(d, Bridge(generation));
        return Some(RecordFailed);
      }
      fd := Some(d);
      envFd := Some(d);
      envToken := Some(token);
      return None;
    }

    /** Idempotent; closes only this process's copy and never unlocks. */
    method Close(file: LockFile)
      modifies this, file
      ensures fd == None
      ensures file.View() ==
              if old(fd).Some? then Closed(old(file.View()), old(fd).value, Bridge(generation)) else old(file.View())
      ensures old(fd).Some? ==> envFd != old(fd) && envToken != Some(token)
      ensures old(fd).None? ==> envFd == old(envFd) && envToken == old(envToken)
    {
      if fd.None? { return; }
      var d := fd.value;
      fd := None;
      if envFd == Some(d) { envFd := None; }
      if envToken == Some(token) { envToken := None; }
      file.Close(d, Bridge(generation));
    }
  }

  // -- whole histories ----------------------------------------------------------------

  /** How far one bridge has come: its descriptor is open, it holds the flock and writes
      its record, it failed (before or after it had the flock) and is about to close, it
      has acquired the fence, or its attempt is over. */
  datatype Place =
    | Opening(d: Descriptor)
    | Recording(d: Descriptor)
    | Failing(d: Descriptor, locked: bool)
    | Owner(d: Descriptor)
    | Out(d: Descriptor)

  datatype State = State(kernel: Kernel, places: map<Generation, Place>, used: set<Descriptor>)

  const INITIAL := State(Kernel(map[], None), map[], {})

  datatype Action =
    | Open(g: Generation, d: Descriptor)
    | NotOurs(g: Generation)               // the file is not a regular one of this user
    | Flock(g: Generation)
    | Record(g: Generation, ok: bool)      // truncate, write, sync, make inheritable
    | CloseFailed(g: Generation)
    | Spawn(g: Generation, w: WorkerId)
    | BridgeCloses(g: Generation)
    | BridgeCrashes(g: Generation)
    | WorkerExits(g: Generation, w: WorkerId)

  predicate Enabled(s: State, a: Action) {
    match a
    case Open(g, d) => g !in s.places && d !in s.used
    case NotOurs(g) => g in s.places && s.places[g].Opening?
    case Flock(g) => g in s.places && s.places[g].Opening?
    case Record(g, _) => g in s.places && s.places[g].Recording?
    case CloseFailed(g) => g in s.places && s.places[g].Failing?
    case Spawn(g, _) => g in s.places && s.places[g].Owner? && Bridge(g) in Holders(s.kernel, s.places[g].d)
    case BridgeCloses(g) => g in s.places && s.places[g].Owner?
    case BridgeCrashes(g) => g in s.places
    case WorkerExits(g, _) => g in s.places && s.places[g].Owner?
  }

  function Move(s: State, g: Generation, place: Place): State {
    s.(places := s.places[g := place])
  }

  function Leave(s: State, p: Process, d: Descriptor): State {
    s.(kernel := Closed(s.kernel, d, p))
  }

  function Apply(s: State, a: Action): State
    requires Enabled(s, a)
  {
    match a
    case Open(g, d) => State(Opened(s.kernel, d, Bridge(g)), s.places[g := Opening(d)], s.used + {d})
    case NotOurs(g) => Move(s, g, Failing(s.places[g].d, false))
    case Flock(g) =>
      var d := s.places[g].d;
      var (kernel, got) := TryLock(s.kernel, d);
      Move(s.(kernel := kernel), g, if got then Recording(d) else Failing(d, false))
    case Record(g, ok) => Move(s, g, if ok then Owner(s.places[g].d) else Failing(s.places[g].d, true))
    case CloseFailed(g) => Leave(Move(s, g, Out(s.places[g].d)), Bridge(g), s.places[g].d)
    case Spawn(g, w) => s.(kernel := Inherited(s.kernel, s.places[g].d, Capture(w)))
    case BridgeCloses(g) => Leave(s, Bridge(g), s.places[g].d)
    case BridgeCrashes(g) =>
      var d := s.places[g].d;
      Leave(if s.places[g].Owner? then s else Move(s, g, Out(d)), Bridge(g), d)
    case WorkerExits(g, w) => Leave(s, Capture(w), s.places[g].d)
  }

  /** Bridge `g` or a surviving worker of it is alive with the description it acquired. */
  predicate HoldsFence(s: State, g: Generation) {
    g in s.places && s.places[g].Owner? && Holders(s.kernel, s.places[g].d) != {}
  }

  /** What makes another bridge's flock fail: a held fence, or an attempt that has the
      flock and has not yet closed or finished. */
  predicate Blocks(s: State, g: Generation) {
    HoldsFence(s, g)
    || (g in s.places && (s.places[g].Recording? || (s.places[g].Failing? && s.places[g].locked)))
  }

  predicate PlaceOk(s: State, g: Generation)
    requires g in s.places
  {
    var d := s.places[g].d;
    && d in s.used
    && (Blocks(s, g) ==> s.kernel.lock == Some(d))
    && match s.places[g]
       case Owner(_) => true
       case Out(_) => Holders(s.kernel, d) == {}
       case _ => Holders(s.kernel, d) == {Bridge(g)}
  }

  /** The flock is behind whoever blocks, and nothing else holds it. */
  ghost predicate Inv(s: State) {
    && (forall d | d in s.kernel.holders :: d in s.used)
    && (forall g | g in s.places :: PlaceOk(s, g))
    && (forall g, h | g in s.places && h in s.places && s.places[g].d == s.places[h].d :: g == h)
    && (s.kernel.lock.Some? ==> exists g :: Blocks(s, g) && s.places[g].d == s.kernel.lock.value)
  }

  lemma PlaceStaysOk(s: State, a: Action, g: Generation)
    requires Inv(s) && Enabled(s, a) && g in Apply(s, a).places
    ensures PlaceOk(Apply(s, a), g)
  {
    if g in s.places { assert PlaceOk(s, g); }
  }

  lemma StepKeepsPlaces(s: State, a: Action)
    requires Inv(s) && Enabled(s, a)
    ensures var s' := Apply(s, a);
      && (forall d | d in s'.kernel.holders :: d in s'.used)
      && (forall g, h | g in s'.places && h in s'.places && s'.places[g].d == s'.places[h].d :: g == h)
  {
    forall g | g in s.places
      ensures s.places[g].d in s.used
    {
      assert PlaceOk(s, g);
    }
  }

  lemma StepKeepsLock(s: State, a: Action)
    requires Inv(s) && Enabled(s, a) && Apply(s, a).kernel.lock.Some?
    ensures exists g :: Blocks(Apply(s, a), g) && Apply(s, a).places[g].d == Apply(s, a).kernel.lock.value
  {
    var s' := Apply(s, a);
    if s.kernel.lock == s'.kernel.lock {
      var g :| Blocks(s, g) && s.places[g].d == s.kernel.lock.value;
      assert PlaceOk(s, g);
      assert Blocks(s', g) && s'.places[g].d == s.places[g].d;
    } else {
      assert a.Flock? && Blocks(s', a.g);
    }
  }

  lemma StepKeepsInv(s: State, a: Action)
    requires Inv(s) && Enabled(s, a)
    ensures Inv(Apply(s, a))
  {
    StepKeepsPlaces(s, a);
    forall g | g in Apply(s, a).places ensures PlaceOk(Apply(s, a), g) { PlaceStaysOk(s, a, g); }
    if Apply(s, a).kernel.lock.Some? { StepKeepsLock(s, a); }
  }

  ghost predicate Run(states: seq<State>, actions: seq<Action>) {
    && |states| == |actions| + 1
    && states[0] == INITIAL
    && forall i | 0 <= i < |actions| ::
         Enabled(states[i], actions[i]) && states[i + 1] == Apply(states[i], actions[i])
  }

  lemma {:induction false} RunInv(states: seq<State>, actions: seq<Action>, k: nat)
    requires Run(states, actions) && k <= |actions|
    ensures Inv(states[k])
  {
    if k > 0 {
      RunInv(states, actions, k - 1);
      assert states[k - 1 + 1] == Apply(states[k - 1], actions[k - 1]);
      StepKeepsInv(states[k - 1], actions[k - 1]);
    }
  }

  /** At every moment of every run at most one bridge blocks the others, so no two
      generations hold the fence together, nor does one hold it while another attempt
      has the flock; and an attempt that is over has left nothing behind. */
  lemma FenceIsExclusive(states: seq<State>, actions: seq<Action>, k: nat)
    requires Run(states, actions) && k <= |actions|
    ensures var s := states[k];
      && (forall g, h :: Blocks(s, g) && Blocks(s, h) ==> g == h)
      && (forall g, h :: HoldsFence(s, g) && HoldsFence(s, h) ==> g == h)
      && (forall g | g in s.places && s.places[g].Out? ::
            Holders(s.kernel, s.places[g].d) == {} && s.kernel.lock != Some(s.places[g].d))
  {
    RunInv(states, actions, k);
    var s := states[k];
    forall g, h | Blocks(s, g) && Blocks(s, h)
      ensures g == h
    {
      assert PlaceOk(s, g) && PlaceOk(s, h);
    }
    forall g | g in s.places && s.places[g].Out?
      ensures Holders(s.kernel, s.places[g].d) == {} && s.kernel.lock != Some(s.places[g].d)
    {
      assert PlaceOk(s, g);
    }
  }

  /** An attempt's flock succeeds exactly when no generation holds the fence and no other
      attempt in progress has the flock; and a bridge becomes an owner exactly by
      writing its record after that. */
  lemma AcquiresExactlyWhenFree(states: seq<State>, actions: seq<Action>, k: nat, g: Generation)
    requires Run(states, actions) && k < |actions|
    ensures var s, s', a := states[k], states[k + 1], actions[k];
      && (a == Flock(g) ==> (s'.places[g].Recording? <==> forall h :: !Blocks(s, h)))
      && (g in s'.places && s'.places[g].Owner? && !(g in s.places && s.places[g].Owner?) <==>
            a == Record(g, true))
      && (a == Record(g, true) ==> forall h :: Blocks(s, h) ==> h == g)
  {
    RunInv(states, actions, k);
    var s, a := states[k], actions[k];
    assert states[k + 1] == Apply(s, a);
    FenceIsExclusive(states, actions, k);
    if a == Flock(g) {
      FlockFailsOnlyAgainst(s, g);
    }
    if a == Record(g, true) {
      assert Blocks(s, g);
    }
  }

  lemma FlockFailsOnlyAgainst(s: State, g: Generation)
    requires Inv(s) && Enabled(s, Flock(g))
    ensures Apply(s, Flock(g)).places[g].Recording? <==> forall h :: !Blocks(s, h)
  {
    assert PlaceOk(s, g);
    if h :| Blocks(s, h) {
      assert PlaceOk(s, h);
      assert s.places[h].d != s.places[g].d;
    }
  }

  /** One uninterrupted attempt. */
  function Attempt(s: State, g: Generation, d: Descriptor, ours: bool, recorded: bool): State
    requires Enabled(s, Open(g, d))
  {
    var s1 := Apply(s, Open(g, d));
    if !ours then Apply(Apply(s1, NotOurs(g)), CloseFailed(g))
    else
      var s2 := Apply(s1, Flock(g));
      if s2.places[g].Failing? then Apply(s2, CloseFailed(g))
      else
        var s3 := Apply(s2, Record(g, recorded));
        if recorded then s3 else Apply(s3, CloseFailed(g))
  }

  /** It does what `acquire` does in one go. */
  lemma AttemptIsAcquire(s: State, g: Generation, d: Descriptor, ours: bool, recorded: bool)
    requires Inv(s) && Enabled(s, Open(g, d))
    ensures var (kernel, e) := Acquire(s.kernel, g, d, ours, recorded);
      var s' := Attempt(s, g, d, ours, recorded);
      && s'.kernel == kernel && Inv(s')
      && s'.places[g] == (if e.None? then Owner(d) else Out(d))
      && (e.None? <==> ours && recorded && forall h :: !Blocks(s, h))
  {
    var s1 := Apply(s, Open(g, d));
    StepKeepsInv(s, Open(g, d));
    if !ours {
      StepKeepsInv(s1, NotOurs(g));
      StepKeepsInv(Apply(s1, NotOurs(g)), CloseFailed(g));
    } else {
      SameBlockers(s, g, d);
      FlockFailsOnlyAgainst(s1, g);
      var s2 := Apply(s1, Flock(g));
      StepKeepsInv(s1, Flock(g));
      if s2.places[g].Failing? {
        StepKeepsInv(s2, CloseFailed(g));
      } else {
        StepKeepsInv(s2, Record(g, recorded));
        if !recorded { StepKeepsInv(Apply(s2, Record(g, recorded)), CloseFailed(g)); }
      }
    }
  }

  lemma SameBlockers(s: State, g: Generation, d: Descriptor)
    requires Inv(s) && Enabled(s, Open(g, d))
    ensures forall h :: Blocks(Apply(s, Open(g, d)), h) <==> Blocks(s, h)
  {
    forall h | h in s.places
      ensures s.places[h].d != d
    {
      assert PlaceOk(s, h);
    }
  }

  /** Free of any owner is not enough: a bridge that has the flock and then fails to write
      its record makes another one's attempt fail, though nobody ever holds the fence. */
  lemma RefusedByAFailingBridge() returns (states: seq<State>, actions: seq<Action>)
    ensures Run(states, actions)
    ensures |actions| == 4 && actions[3] == Flock(1) && states[4].places[1] == Failing(1, false)
    ensures forall k, g | 0 <= k <= |actions| :: !HoldsFence(states[k], g)
    ensures Enabled(states[4], Record(0, false))
  {
    actions := [Open(0, 0), Flock(0), Open(1, 1), Flock(1)];
    var s1 := Apply(INITIAL, actions[0]);
    var s2 := Apply(s1, actions[1]);
    var s3 := Apply(s2, actions[2]);
    var s4 := Apply(s3, actions[3]);
    states := [INITIAL, s1, s2, s3, s4];
  }

  /** Why `close` must not unlock: with an unlocking close the next bridge gets in
      exactly when it would anyway or a surviving worker is robbed of the fence. */
  lemma UnlockingCloseBreaksTheFence(s: State, g: Generation, h: Generation, d: Descriptor)
    requires Inv(s) && HoldsFence(s, g) && h !in s.places && d !in s.used
    requires Bridge(g) in Holders(s.kernel, s.places[g].d)
    ensures var closed := s.(kernel := Closed(Unlocked(s.kernel, s.places[g].d), s.places[g].d, Bridge(g)));
      && Enabled(closed, Open(h, d))
      && var next := Attempt(closed, h, d, true, true);
      && HoldsFence(next, h)
      && (HoldsFence(next, g) <==> Holders(s.kernel, s.places[g].d) != {Bridge(g)})
  {
    assert PlaceOk(s, g);
    var closed := s.(kernel := Closed(Unlocked(s.kernel, s.places[g].d), s.places[g].d, Bridge(g)));
    var next := Attempt(closed, h, d, true, true);
    assert Holders(next.kernel, d) == {Bridge(h)};
  }
}
