/** Properties of whole bridge runs. */
module BridgeTheorems {
  import opened Wrappers
  import opened BridgeCore
  import opened BridgeProtocol
  import opened BridgeSafety

  ghost predicate Run(states: seq<State>, actions: seq<Action>) {
    && |states| == |actions| + 1
    && states[0] == INITIAL
    && forall i | 0 <= i < |actions| ::
         Enabled(states[i], actions[i]) && states[i + 1] == Apply(states[i], actions[i])
  }

  lemma {:induction false} RunInv(states: seq<State>, actions: seq<Action>, k: nat)
    requires Run(states, actions) && k <= |actions|
    ensures Inv(states[k])
  {
    if k > 0 {
      RunInv(states, actions, k - 1);
      assert states[k - 1 + 1] == Apply(states[k - 1], actions[k - 1]);
      StepKeepsInv(states[k - 1], actions[k - 1]);
    }
  }

  // -- the transport ---------------------------------------------------------------

  /** Every thread that may be inside the transport: workers, and the dispatch thread. */
  datatype Caller = WorkerThread(op: OpId) | DispatchThread

  predicate OnTransport(s: State, c: Caller) {
    match c
    case WorkerThread(op) => op < |s.workers| && InCall(s.workers[op].phase)
    case DispatchThread => s.dispatch.Ejecting? || s.dispatch.Closing? || s.dispatch.ShutdownClosing?
  }

  /** No two of preview, solve_exposure, start_scan, its anomaly eject, eject and
      close_device are ever in flight together, on the shutdown and end-of-input paths
      included; and no worker can start one after the session has exited. */
  lemma TransportIsExclusive(states: seq<State>, actions: seq<Action>, k: nat, c: Caller, d: Caller)
    requires Run(states, actions) && k <= |actions|
    requires OnTransport(states[k], c) && OnTransport(states[k], d)
    ensures c == d
    ensures !states[k].dispatch.Exited?
  {
    RunInv(states, actions, k);
  }

  /** What `device.status` reports as held really is held by this process, and the gate
      is up exactly from a motion request's acceptance until its thread cleared it. */
  lemma FlagsTellTheTruth(states: seq<State>, actions: seq<Action>, k: nat)
    requires Run(states, actions) && k <= |actions|
    ensures var s := states[k];
      && (s.session.laneHeld ==> s.session.lock.Some? && s.session.lock != Some(External))
      && (s.session.motionOpActive <==> exists op: OpId | op < |s.workers| :: !Cleared(s.workers[op].phase))
      && (forall op: OpId, op': OpId | op < |s.workers| && op' < |s.workers| ::
            !Cleared(s.workers[op].phase) && !Cleared(s.workers[op'].phase) ==> op == op')
  {
    RunInv(states, actions, k);
    var s := states[k];
    if s.session.motionOpActive { assert !Cleared(s.workers[|s.workers| - 1].phase); }
  }

  // -- event blocks ------------------------------------------------------------------

  function Key(m: Mode): nat {
    match m
    case Quiet(n) => 2 * n
    case Busy(n) => 2 * n + 1
  }

  lemma {:induction false} FollowPrefix(trace: seq<Obs>, p: nat)
    requires Follow(trace).Some? && p <= |trace|
    ensures Follow(trace[..p]).Some?
    decreases |trace|
  {
    if p == |trace| {
      assert trace[..p] == trace;
    } else {
      FollowPrefix(trace[..|trace| - 1], p);
      assert trace[..|trace| - 1][..p] == trace[..p];
    }
  }

  /** One observation inside a lawful trace. */
  lemma FollowAt(trace: seq<Obs>, p: nat)
    requires Follow(trace).Some? && p < |trace|
    ensures Follow(trace[..p]).Some? && Follow(trace[..p + 1]).Some?
    ensures Observe(Follow(trace[..p]).value, trace[p]) == Follow(trace[..p + 1])
  {
    FollowPrefix(trace, p);
    FollowPrefix(trace, p + 1);
    assert trace[..p + 1] == trace[..p] + [trace[p]];
    FollowSnoc(trace[..p], trace[p]);
  }

  lemma {:induction false} KeyGrows(trace: seq<Obs>, p: nat, q: nat)
    requires Follow(trace).Some? && p <= q <= |trace|
    ensures Follow(trace[..p]).Some? && Follow(trace[..q]).Some?
    ensures Key(Follow(trace[..p]).value) <= Key(Follow(trace[..q]).value)
    decreases q
  {
    FollowPrefix(trace, p);
    FollowPrefix(trace, q);
    if p < q {
      KeyGrows(trace, p, q - 1);
      FollowAt(trace, q - 1);
    }
  }

  lemma BlockInTrace(t: seq<Obs>, p: nat, m: nat, q: nat)
    requires Follow(t).Some? && p <= m < q < |t| && t[p].Emitted? && t[q].Emitted?
    ensures t[p].op <= t[q].op
    ensures t[p].op == t[q].op ==> t[m].Emitted? && t[m].op == t[p].op && !t[m].terminal
  {
    FollowAt(t, p);
    FollowAt(t, m);
    FollowAt(t, q);
    KeyGrows(t, p, m);
    KeyGrows(t, m + 1, q);
  }

  /** Worker events come in acceptance order, and everything between two events of one
      operation is an event of that operation, none of them terminal. */
  lemma EventsFormBlocks(states: seq<State>, actions: seq<Action>, k: nat, p: nat, m: nat, q: nat)
    requires Run(states, actions) && k <= |actions|
    requires p < q < |states[k].trace| && p <= m < q
    requires states[k].trace[p].Emitted? && states[k].trace[q].Emitted?
    ensures var t := states[k].trace;
      && t[p].op <= t[q].op
      && (t[p].op == t[q].op ==> t[m].Emitted? && t[m].op == t[p].op && !t[m].terminal)
  {
    RunInv(states, actions, k);
    BlockInTrace(states[k].trace, p, m, q);
  }

  /** Before the next motion request, eject or `device.close` is accepted, the operation
      in progress has emitted its terminal event, with its lane already free. */
  lemma NothingAcceptedBeforeTheTerminalEvent(states: seq<State>, actions: seq<Action>, k: nat, p: nat, q: nat)
    returns (m: nat)
    requires Run(states, actions) && k <= |actions|
    requires p < q < |states[k].trace|
    requires states[k].trace[p].OpAccepted? && !states[k].trace[q].Emitted?
    ensures p < m < q
    ensures var t := states[k].trace;
      && t[m].Emitted? && t[m].op == t[p].op && t[m].terminal
      && !t[m].laneHeld && t[m].lock != Some(ByOp(t[p].op))
  {
    RunInv(states, actions, k);
    m := TerminalBetween(states[k].trace, p, q);
  }

  lemma TerminalBetween(t: seq<Obs>, p: nat, q: nat) returns (m: nat)
    requires Follow(t).Some? && p < q < |t| && t[p].OpAccepted? && !t[q].Emitted?
    ensures p < m < q && t[m].Emitted? && t[m].op == t[p].op && t[m].terminal
    ensures !t[m].laneHeld && t[m].lock != Some(ByOp(t[p].op))
  {
    FollowAt(t, p);
    FollowAt(t, q);
    KeyGrows(t, p + 1, q);
    m := Crossing(t, p + 1, q, t[p].op);
  }

  /** The observation that ends the block of `op`. */
  lemma {:induction false} Crossing(t: seq<Obs>, p: nat, q: nat, op: OpId) returns (m: nat)
    requires Follow(t).Some? && p <= q <= |t|
    requires Follow(t[..p]) == Some(Busy(op))
    requires Follow(t[..q]).Some? && Key(Follow(t[..q]).value) > Key(Busy(op))
    ensures p <= m < q && t[m].Emitted? && t[m].op == op && t[m].terminal
    ensures !t[m].laneHeld && t[m].lock != Some(ByOp(op))
    decreases q - p
  {
    FollowAt(t, p);
    if Follow(t[..p + 1]) == Some(Busy(op)) {
      m := Crossing(t, p + 1, q, op);
    } else {
      m := p;
    }
  }

  /** Every operation accepted before the current one has exactly one terminal event,
      and so has the current one once its gate is clear. */
  lemma {:induction false} FinishedBlocksAreTerminated(t: seq<Obs>, n: OpId, i: OpId) returns (m: nat)
    requires Follow(t).Some? && Key(Follow(t).value) >= Key(Quiet(n)) && i < n
    ensures m < |t| && t[m].Emitted? && t[m].op == i && t[m].terminal
    ensures forall x | 0 <= x < |t| && t[x].Emitted? && t[x].op == i && t[x].terminal :: x == m
  {
    m := TerminalOf(t, n, i);
    forall x | 0 <= x < |t| && t[x].Emitted? && t[x].op == i && t[x].terminal
      ensures x == m
    {
      FollowAt(t, x);
      FollowAt(t, m);
      if x < m { KeyGrows(t, x + 1, m); }
      if m < x { KeyGrows(t, m + 1, x); }
    }
  }

  lemma {:induction false} TerminalOf(t: seq<Obs>, n: OpId, i: OpId) returns (m: nat)
    requires Follow(t).Some? && Key(Follow(t).value) >= Key(Quiet(n)) && i < n
    ensures m < |t| && t[m].Emitted? && t[m].op == i && t[m].terminal
    decreases |t|
  {
    var last := |t| - 1;
    assert t[..|t|] == t;
    FollowAt(t, last);
    if t[last].Emitted? && t[last].op == i && t[last].terminal {
      m := last;
    } else {
      var before := t[..last];
      assert Key(Follow(before).value) >= Key(Quiet(i + 1));
      m := TerminalOf(before, i + 1, i);
    }
  }

  lemma EveryClearedOperationReported(states: seq<State>, actions: seq<Action>, k: nat, op: OpId)
    returns (m: nat)
    requires Run(states, actions) && k <= |actions|
    requires op < |states[k].workers| && Cleared(states[k].workers[op].phase)
    ensures var t := states[k].trace;
      && m < |t| && t[m].Emitted? && t[m].op == op && t[m].terminal
      && (forall x | 0 <= x < |t| && t[x].Emitted? && t[x].op == op && t[x].terminal :: x == m)
  {
    RunInv(states, actions, k);
    m := FinishedBlocksAreTerminated(states[k].trace, op + 1, op);
  }
}
