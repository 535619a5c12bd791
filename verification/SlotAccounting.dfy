/** Slot bookkeeping of one scan job: which requested slots a failing batch reports as
    completed, skipped and failed, and which one it names. */
module SlotAccounting {
  import opened Sublists
  import opened Wrappers

  type Slot = int

  datatype Callback = Frame(slot: Slot) | Skip(slot: Slot)

  /** `resolved_slots` and `skipped_slots`. */
  datatype Ledger = Ledger(resolved: set<Slot>, skipped: set<Slot>)

  const EMPTY := Ledger({}, {})

  /** A skip that was not allowed, or of a slot already resolved, is refused. */
  predicate SkipRefused(l: Ledger, allowed: seq<Slot>, slot: Slot) {
    slot !in allowed || slot in l.resolved
  }

  function Record(l: Ledger, allowed: seq<Slot>, c: Callback): Ledger {
    match c
    case Frame(slot) => l.(resolved := l.resolved + {slot})
    case Skip(slot) =>
      if SkipRefused(l, allowed, slot) then l
      else Ledger(l.resolved + {slot}, l.skipped + {slot})
  }

  function RecordAll(allowed: seq<Slot>, trace: seq<Callback>): Ledger {
    if trace == [] then EMPTY
    else Record(RecordAll(allowed, trace[..|trace| - 1]), allowed, trace[|trace| - 1])
  }

  datatype Report = AsCompleted | AsFailed | AsSkipped

  /** The three filters of the failing exit. */
  predicate Reported(l: Ledger, how: Report, slot: Slot) {
    match how
    case AsCompleted => slot in l.resolved && slot !in l.skipped
    case AsFailed => slot !in l.resolved
    case AsSkipped => slot in l.skipped
  }

  /** The slots reported in one way, in request order. */
  function Select(l: Ledger, how: Report, slots: seq<Slot>): seq<Slot> {
    if slots == [] then []
    else if Reported(l, how, slots[0]) then [slots[0]] + Select(l, how, slots[1..])
    else Select(l, how, slots[1..])
  }

  /** The ledger a scan worker's callbacks share. */
  class ScanLedger {
    const slots: seq<Slot>
    const allowed: seq<Slot>
    var resolvedSlots: set<Slot>
    var skippedSlots: set<Slot>

    function View(): Ledger
      reads this
    {
      Ledger(resolvedSlots, skippedSlots)
    }

    constructor (s: seq<Slot>, a: seq<Slot>)
      ensures View() == EMPTY && slots == s && allowed == a
    {
      slots, allowed := s, a;
      resolvedSlots, skippedSlots := {}, {};
    }

    method OnFrame(slot: Slot)
      modifies this
      ensures View() == Record(old(View()), allowed, Frame(slot))
    {
      resolvedSlots := resolvedSlots + {slot};
    }

    method OnMeterRefusalSkipped(slot: Slot) returns (accepted: bool)
      modifies this
      ensures accepted == !SkipRefused(old(View()), allowed, slot)
      ensures View() == Record(old(View()), allowed, Skip(slot))
    {
      if slot !in allowed || slot in resolvedSlots { return false; }
      resolvedSlots := resolvedSlots + {slot};
      skippedSlots := skippedSlots + {slot};
      return true;
    }

    /** The earliest slot not yet resolved, and whether others were equally pending. */
    method FirstPendingSlot() returns (slot: Option<Slot>, ambiguous: bool)
      ensures var failed := Select(View(), AsFailed, slots);
        && slot == (if failed == [] then None else Some(failed[0]))
        && ambiguous == (|failed| > 1)
    {
      var pending := [];
      for i := 0 to |slots|
        invariant pending + Select(View(), AsFailed, slots[i..]) == Select(View(), AsFailed, slots)
      {
        if slots[i] !in resolvedSlots {
          pending := pending + [slots[i]];
        }
        assert slots[i..][1..] == slots[i + 1..];
      }
      if pending == [] { return None, false; }
      return Some(pending[0]), |pending| > 1;
    }
  }

  // -- what the report means ----------------------------------------------------------

  lemma {:induction false} SelectIsSublist(l: Ledger, how: Report, slots: seq<Slot>)
    ensures Sublist(Select(l, how, slots), slots)
    ensures forall s :: s in Select(l, how, slots) <==> s in slots && Reported(l, how, s)
  {
    if slots != [] {
      var rest := Select(l, how, slots[1..]);
      SelectIsSublist(l, how, slots[1..]);
      assert ([slots[0]] + rest)[1..] == rest;
      assert slots == [slots[0]] + slots[1..];
    }
  }

  /** The three reports cover every requested position exactly once. */
  lemma {:induction false} ReportsPartition(l: Ledger, slots: seq<Slot>)
    requires l.skipped <= l.resolved
    ensures multiset(Select(l, AsCompleted, slots)) + multiset(Select(l, AsFailed, slots))
         + multiset(Select(l, AsSkipped, slots)) == multiset(slots)
  {
    if slots != [] {
      ReportsPartition(l, slots[1..]);
      assert slots == [slots[0]] + slots[1..];
    }
  }

  /** Which slots count as resolved and as skipped, said on the trace itself: a skip
      counts only if it was allowed and no frame of that slot came before it. */
  predicate SkipFirst(trace: seq<Callback>, slot: Slot) {
    exists i | 0 <= i < |trace| :: trace[i] == Skip(slot) && Frame(slot) !in trace[..i]
  }

  lemma {:induction false} LedgerMeaning(allowed: seq<Slot>, trace: seq<Callback>, slot: Slot)
    ensures var l := RecordAll(allowed, trace);
      && (slot in l.resolved <==> Frame(slot) in trace || (slot in allowed && Skip(slot) in trace))
      && (slot in l.skipped <==> slot in allowed && SkipFirst(trace, slot))
  {
    if trace != [] {
      var n := |trace| - 1;
      var before, c := trace[..n], trace[n];
      LedgerMeaning(allowed, before, slot);
      assert trace == before + [c];
      assert forall i | 0 <= i <= n :: trace[..i] == before[..i];
      if SkipFirst(before, slot) {
        var i :| 0 <= i < n && before[i] == Skip(slot) && Frame(slot) !in before[..i];
        assert trace[i] == Skip(slot) && Frame(slot) !in trace[..i];
      }
    }
  }

  /** Over every trace of callbacks the failing exit reports three disjoint,
      order-preserving sublists that cover exactly the requested slots; the slot it
      names is the first failed one, ambiguous exactly when there are several. */
  lemma ReportCoversTheRequest(slots: seq<Slot>, allowed: seq<Slot>, trace: seq<Callback>)
    ensures var l := RecordAll(allowed, trace);
      var completed := Select(l, AsCompleted, slots);
      var failed := Select(l, AsFailed, slots);
      var skipped := Select(l, AsSkipped, slots);
      && multiset(completed) + multiset(failed) + multiset(skipped) == multiset(slots)
      && Sublist(completed, slots) && Sublist(failed, slots) && Sublist(skipped, slots)
      && (forall s :: s in skipped <==> s in slots && s in allowed && SkipFirst(trace, s))
      && (forall s :: s in failed <==>
            s in slots && Frame(s) !in trace && !(s in allowed && Skip(s) in trace))
      && (forall s :: s in completed <==>
            s in slots && Frame(s) in trace && !(s in allowed && SkipFirst(trace, s)))
  {
    var l := RecordAll(allowed, trace);
    forall s
      ensures s in l.resolved <==> Frame(s) in trace || (s in allowed && Skip(s) in trace)
      ensures s in l.skipped <==> s in allowed && SkipFirst(trace, s)
      ensures SkipFirst(trace, s) ==> Skip(s) in trace
      ensures Skip(s) in trace && Frame(s) !in trace ==> SkipFirst(trace, s)
    {
      LedgerMeaning(allowed, trace, s);
      if Skip(s) in trace && Frame(s) !in trace {
        var i :| 0 <= i < |trace| && trace[i] == Skip(s);
        assert Frame(s) !in trace[..i];
      }
    }
    assert l.skipped <= l.resolved by {
      forall s | s in l.skipped ensures s in l.resolved { LedgerMeaning(allowed, trace, s); }
    }
    SelectIsSublist(l, AsCompleted, slots);
    SelectIsSublist(l, AsFailed, slots);
    SelectIsSublist(l, AsSkipped, slots);
    ReportsPartition(l, slots);
  }
}
