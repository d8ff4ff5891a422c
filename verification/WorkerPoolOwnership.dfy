/** Who owns which slot, in every reachable state of WorkerPool. */
module WorkerPoolOwnership {
  import opened Wrappers
  import opened StatsTable
  import opened WorkerPool

  function WipeRank(f: Field): nat {
    match f
    case UpField => 0
    case DownField => 1
    case DestField => 2
    case PortField => 3
    case PidField => 4
    case StartField => 5
    case ActiveField => 6
  }

  /** What the owner `p` in this phase knows about its slot. */
  predicate HeldOk(p: ProcessId, phase: Phase, x: Slot) {
    x.active &&
    match phase
    case Claiming(_, f) =>
      !f.ActiveField? && x.up == 0 && x.down == 0 && x.pid == (if PidClaimed(f) then p else 0)
    case Running(_) => x.pid == p
    case Adding(_, _, _, step) =>
      x.pid == p && (step.StoreUp? ==> step.seen == x.up) && (step.StoreDown? ==> step.seen == x.down)
    case Releasing(_, f) =>
      var done := WipeRank(f);
      && (done > 0 ==> x.up == 0) && (done > 1 ==> x.down == 0) && (done > 2 ==> x.dest == 0)
      && (done > 3 ==> x.port == 0) && x.pid == (if done > 4 then 0 else p) && (done > 5 ==> x.start == 0)
    case _ => true
  }

  /** A slot nobody holds: all zero, or leaked with its pid and counters zero. */
  predicate UnheldOk(x: Slot) {
    if x.active then x.pid == 0 && x.up == 0 && x.down == 0 else x == EMPTY
  }

  predicate SlotOk(s: State, i: nat)
    requires |s.slots| == |s.holder| == MAX_CLIENTS && i < MAX_CLIENTS
  {
    match s.holder[i]
    case None => UnheldOk(s.slots[i])
    case Some(p) =>
      p in s.workers && Holds(s.workers[p].phase) == Some(i) && HeldOk(p, s.workers[p].phase, s.slots[i])
  }

  /** Bytes the phase has stored in the slot and still has to add to the totals. */
  function InFlightUp(phase: Phase): nat {
    if phase.Adding? && phase.step.TotalUp? then phase.up else 0
  }

  function InFlightDown(phase: Phase): nat {
    if phase.Adding? && phase.step.TotalDown? then phase.down else 0
  }

  predicate OwedOk(w: Worker, slots: seq<Slot>)
    requires Holds(w.phase).Some? ==> Holds(w.phase).value < |slots|
  {
    && (!w.life.Reaped? ==> w.owedUp == InFlightUp(w.phase) && w.owedDown == InFlightDown(w.phase))
    && (match Holds(w.phase)
        case Some(i) => w.owedUp <= slots[i].up && w.owedDown <= slots[i].down
        case None => w.owedUp == 0 && w.owedDown == 0)
  }

  predicate WorkerOk(s: State, p: ProcessId)
    requires |s.slots| == |s.holder| == MAX_CLIENTS && p in s.workers
  {
    var w := s.workers[p];
    && (Holds(w.phase).Some? ==> Holds(w.phase).value < MAX_CLIENTS && s.holder[Holds(w.phase).value] == Some(p))
    && OwedOk(w, s.slots)
    && (w.life.Zombie? ==> !InWindow(w.phase) && (w.phase.Exited? || Holds(w.phase).Some?))
    && (w.life.Reaped? ==> HandlerChild(s.handler) == Some(p))
  }

  function HandlerChild(h: Handler): Option<ProcessId> {
    match h
    case Idle => None
    case Waitpid => None
    case TestActive(p, _) => Some(p)
    case TestPid(p, _) => Some(p)
    case Wiping(p, _) => Some(p)
    case Decrement(p) => Some(p)
  }

  /** The scan for the reaped child has not passed a slot the child still holds. */
  predicate ScanOk(w: Worker, at: nat) {
    && w.life.Reaped? && !InWindow(w.phase) && at < MAX_CLIENTS
    && (w.phase.Exited? || (Holds(w.phase).Some? && at <= Holds(w.phase).value))
  }

  predicate HandlerOk(s: State) {
    match s.handler
    case Idle => true
    case Waitpid => true
    case TestActive(p, at) => p in s.workers && ScanOk(s.workers[p], at)
    case TestPid(p, at) => p in s.workers && ScanOk(s.workers[p], at)
    case Wiping(p, at) =>
      p in s.workers && s.workers[p].life.Reaped? && s.workers[p].phase.Releasing? && s.workers[p].phase.slot == at
    case Decrement(p) => p in s.workers && s.workers[p].life.Reaped? && s.workers[p].phase.Exited?
  }

  predicate Owned(s: State) {
    && |s.slots| == |s.holder| == MAX_CLIENTS
    && (forall i :: 0 <= i < MAX_CLIENTS ==> SlotOk(s, i))
    && (forall p :: p in s.workers ==> WorkerOk(s, p))
    && HandlerOk(s)
  }

  lemma OwnedIsWellFormed(s: State)
    requires Owned(s)
    ensures WellFormed(s)
  {
  }

  lemma InitOwned()
    ensures Owned(Init())
  {
  }

  /** A worker changes its own slot and its own phase and keeps the slot. */
  lemma OwnerTouches(s: State, t: State, p: ProcessId, i: nat)
    requires Owned(s) && p in s.workers && i < MAX_CLIENTS
    requires Holds(s.workers[p].phase) == Some(i)
    requires t.holder == s.holder
    requires |t.slots| == MAX_CLIENTS && t.slots == s.slots[i := t.slots[i]]
    requires t.workers.Keys == s.workers.Keys && t.workers == s.workers[p := t.workers[p]]
    requires Holds(t.workers[p].phase) == Some(i) && t.workers[p].life == s.workers[p].life
    requires HeldOk(p, t.workers[p].phase, t.slots[i]) && OwedOk(t.workers[p], t.slots)
    requires s.workers[p].life.Zombie? ==> !InWindow(t.workers[p].phase)
    requires HandlerOk(t) && HandlerChild(t.handler) == HandlerChild(s.handler)
    ensures Owned(t)
  {
    assert WorkerOk(s, p) && SlotOk(s, i);
    forall j | 0 <= j < MAX_CLIENTS
      ensures SlotOk(t, j)
    {
      assert SlotOk(s, j);
    }
    forall q | q in t.workers
      ensures WorkerOk(t, q)
    {
      assert WorkerOk(s, q);
    }
  }

  /** A worker gives its slot up, leaving it empty or leaked. */
  lemma OwnerLeaves(s: State, t: State, p: ProcessId, i: nat)
    requires Owned(s) && p in s.workers && i < MAX_CLIENTS
    requires Holds(s.workers[p].phase) == Some(i)
    requires t.holder == s.holder[i := None]
    requires |t.slots| == MAX_CLIENTS && t.slots == s.slots[i := t.slots[i]] && UnheldOk(t.slots[i])
    requires t.workers.Keys == s.workers.Keys && t.workers == s.workers[p := t.workers[p]]
    requires t.workers[p].phase.Exited? && t.workers[p].owedUp == 0 && t.workers[p].owedDown == 0
    requires t.workers[p].life.Reaped? ==> s.workers[p].life.Reaped?
    requires HandlerOk(t) && HandlerChild(t.handler) == HandlerChild(s.handler)
    ensures Owned(t)
  {
    assert WorkerOk(s, p);
    forall j | 0 <= j < MAX_CLIENTS
      ensures SlotOk(t, j)
    {
      assert SlotOk(s, j);
    }
    forall q | q in t.workers
      ensures WorkerOk(t, q)
    {
      assert WorkerOk(s, q);
    }
  }

  /** A worker without a slot changes its phase and stays without one. */
  lemma OutsiderMoves(s: State, t: State, p: ProcessId)
    requires Owned(s) && p in t.workers
    requires p in s.workers ==>
      Holds(s.workers[p].phase).None? && (t.workers[p].life.Reaped? ==> s.workers[p].life.Reaped?)
    requires t.slots == s.slots && t.holder == s.holder
    requires t.workers == s.workers[p := t.workers[p]]
    requires Holds(t.workers[p].phase).None? && t.workers[p].owedUp == 0 && t.workers[p].owedDown == 0
    requires !t.workers[p].life.Live? ==> t.workers[p].phase.Exited?
    requires p !in s.workers ==> t.workers[p].life.Live?
    requires HandlerOk(t) && HandlerChild(t.handler) == HandlerChild(s.handler)
    ensures Owned(t)
  {
    forall j | 0 <= j < MAX_CLIENTS
      ensures SlotOk(t, j)
    {
      assert SlotOk(s, j);
    }
    forall q | q in t.workers
      ensures WorkerOk(t, q)
    {
      assert q != p ==> WorkerOk(s, q);
    }
  }

  lemma ScanKeepsOwned(s: State, p: ProcessId, at: nat)
    requires Owned(s) && WellFormed(s) && IsLive(s, p) && s.workers[p].phase == Scanning(at)
    ensures Owned(ScanNext(s, p, at))
  {
    var t := ScanNext(s, p, at);
    assert WorkerOk(s, p);
    if at >= MAX_CLIENTS || s.slots[at].active {
      OutsiderMoves(s, t, p);
    } else {
      assert SlotOk(s, at);
      forall j | 0 <= j < MAX_CLIENTS
        ensures SlotOk(t, j)
      {
        assert SlotOk(s, j);
      }
      forall q | q in t.workers
        ensures WorkerOk(t, q)
      {
        assert WorkerOk(s, q);
      }
    }
  }

  lemma ClaimKeepsOwned(s: State, p: ProcessId, i: nat, f: Field, value: nat)
    requires Owned(s) && WellFormed(s) && IsLive(s, p) && s.workers[p].phase == Claiming(i, f) && i < MAX_CLIENTS
    ensures Owned(ClaimNext(s, p, i, f, value))
  {
    assert WorkerOk(s, p) && SlotOk(s, i);
    OwnerTouches(s, ClaimNext(s, p, i, f, value), p, i);
  }

  lemma AddStoreKeepsOwned(s: State, p: ProcessId, i: nat, up: nat, down: nat, step: AddStep)
    requires Owned(s) && WellFormed(s) && IsLive(s, p) && s.workers[p].phase == Adding(i, up, down, step)
      && i < MAX_CLIENTS
    requires step.StoreUp? || step.StoreDown? || step.TotalUp? || step.TotalDown?
    ensures Owned(AddNext(s, p, i, up, down, step))
  {
    assert WorkerOk(s, p) && SlotOk(s, i);
    OwnerTouches(s, AddNext(s, p, i, up, down, step), p, i);
  }

  lemma AddKeepsOwned(s: State, p: ProcessId, i: nat, up: nat, down: nat, step: AddStep)
    requires Owned(s) && WellFormed(s) && IsLive(s, p) && s.workers[p].phase == Adding(i, up, down, step)
      && i < MAX_CLIENTS
    ensures Owned(AddNext(s, p, i, up, down, step))
  {
    if step.StoreUp? || step.StoreDown? || step.TotalUp? || step.TotalDown? {
      AddStoreKeepsOwned(s, p, i, up, down, step);
    } else {
      assert WorkerOk(s, p) && SlotOk(s, i);
      OwnerTouches(s, AddNext(s, p, i, up, down, step), p, i);
    }
  }

  /** What the owner knows of its slot survives a store of the wipe; the last one empties it. */
  lemma WipeStoreKeepsHeld(p: ProcessId, i: nat, f: Field, x: Slot)
    requires HeldOk(p, Releasing(i, f), x)
    ensures if f.ActiveField? then WipeStore(x, f) == EMPTY
            else HeldOk(p, Releasing(i, NextWipe(f).value), WipeStore(x, f))
  {
  }

  lemma LastWipeKeepsOwned(s: State, p: ProcessId, i: nat, h: Handler)
    requires Owned(s) && WellFormed(s) && p in s.workers && i < MAX_CLIENTS
    requires s.workers[p].phase == Releasing(i, ActiveField) && !s.workers[p].life.Zombie?
    requires HandlerChild(h) == HandlerChild(s.handler) && HandlerOk(WipeNext(s, p, i, ActiveField).(handler := h))
    ensures Owned(WipeNext(s, p, i, ActiveField).(handler := h))
  {
    assert WorkerOk(s, p) && SlotOk(s, i);
    WipeStoreKeepsHeld(p, i, ActiveField, s.slots[i]);
    OwnerLeaves(s, WipeNext(s, p, i, ActiveField).(handler := h), p, i);
  }

  lemma WipeKeepsOwned(s: State, p: ProcessId, i: nat, f: Field, h: Handler)
    requires Owned(s) && WellFormed(s) && p in s.workers && i < MAX_CLIENTS
    requires s.workers[p].phase == Releasing(i, f) && !s.workers[p].life.Zombie?
    requires HandlerChild(h) == HandlerChild(s.handler) && HandlerOk(WipeNext(s, p, i, f).(handler := h))
    ensures Owned(WipeNext(s, p, i, f).(handler := h))
  {
    if f.ActiveField? {
      LastWipeKeepsOwned(s, p, i, h);
    } else {
      assert WorkerOk(s, p) && SlotOk(s, i);
      WipeStoreKeepsHeld(p, i, f, s.slots[i]);
      OwnerTouches(s, WipeNext(s, p, i, f).(handler := h), p, i);
    }
  }

  lemma KillKeepsOwned(s: State, p: ProcessId)
    requires Owned(s) && WellFormed(s) && IsLive(s, p)
    ensures Owned(KillNext(s, p))
  {
    assert WorkerOk(s, p);
    var t, phase := KillNext(s, p), s.workers[p].phase;
    if Holds(phase).None? {
      OutsiderMoves(s, t, p);
    } else {
      var i := Holds(phase).value;
      assert SlotOk(s, i);
      if InWindow(phase) {
        assert t.slots == s.slots[i := t.slots[i]];
        OwnerLeaves(s, t, p, i);
      } else {
        forall j | 0 <= j < MAX_CLIENTS
          ensures SlotOk(t, j)
        {
          assert SlotOk(s, j);
        }
        forall q | q in t.workers
          ensures WorkerOk(t, q)
        {
          assert WorkerOk(s, q);
        }
      }
    }
  }

  /** The handler moves on to the next slot, or to the decrement. */
  lemma HandlerAdvances(s: State, p: ProcessId, at: nat)
    requires Owned(s) && at < MAX_CLIENTS
    requires s.handler == TestActive(p, at) || s.handler == TestPid(p, at)
    requires Holds(s.workers[p].phase) != Some(at)
    ensures Owned(s.(handler := ScanSlot(p, at + 1)))
  {
    var t := s.(handler := ScanSlot(p, at + 1));
    assert WorkerOk(s, p);
    forall j | 0 <= j < MAX_CLIENTS
      ensures SlotOk(t, j)
    {
      assert SlotOk(s, j);
    }
    forall q | q in t.workers
      ensures WorkerOk(t, q)
    {
      assert WorkerOk(s, q);
    }
  }

  lemma TestActiveKeepsOwned(s: State, p: ProcessId, at: nat)
    requires Owned(s) && WellFormed(s) && s.handler == TestActive(p, at)
    ensures Owned(HandlerNext(s))
  {
    assert SlotOk(s, at) && WorkerOk(s, p);
    if s.slots[at].active {
      var t := HandlerNext(s);
      forall j | 0 <= j < MAX_CLIENTS
        ensures SlotOk(t, j)
      {
        assert SlotOk(s, j);
      }
      forall q | q in t.workers
        ensures WorkerOk(t, q)
      {
        assert WorkerOk(s, q);
      }
    } else {
      HandlerAdvances(s, p, at);
    }
  }

  lemma TestPidKeepsOwned(s: State, p: ProcessId, at: nat)
    requires Owned(s) && WellFormed(s) && s.handler == TestPid(p, at)
    ensures Owned(HandlerNext(s))
  {
    assert SlotOk(s, at) && WorkerOk(s, p);
    if s.slots[at].pid == p {
      assert s.holder[at] == Some(p);
      var t := HandlerNext(s);
      assert t.slots == s.slots[at := t.slots[at]];
      OwnerTouches(s, t, p, at);
    } else {
      HandlerAdvances(s, p, at);
    }
  }

  lemma WipingKeepsOwned(s: State, p: ProcessId, at: nat)
    requires Owned(s) && WellFormed(s) && s.handler == Wiping(p, at)
    ensures Owned(HandlerNext(s))
  {
    WipeKeepsOwned(s, p, at, s.workers[p].phase.next, HandlerNext(s).handler);
  }

  lemma DecrementKeepsOwned(s: State, p: ProcessId)
    requires Owned(s) && WellFormed(s) && s.handler == Decrement(p)
    ensures Owned(HandlerNext(s))
  {
    var t := HandlerNext(s);
    forall j | 0 <= j < MAX_CLIENTS
      ensures SlotOk(t, j)
    {
      assert SlotOk(s, j);
    }
    forall q | q in t.workers
      ensures WorkerOk(t, q)
    {
      assert WorkerOk(s, q);
    }
  }

  lemma HandlerKeepsOwned(s: State)
    requires Owned(s) && WellFormed(s) && Enabled(s, HandlerStep)
    ensures Owned(HandlerNext(s))
  {
    match s.handler {
      case TestActive(p, at) => TestActiveKeepsOwned(s, p, at);
      case TestPid(p, at) => TestPidKeepsOwned(s, p, at);
      case Wiping(p, at) => WipingKeepsOwned(s, p, at);
      case Decrement(p) => DecrementKeepsOwned(s, p);
    }
  }

  lemma ReapKeepsOwned(s: State, p: ProcessId)
    requires Owned(s) && WellFormed(s) && Enabled(s, Reap(p))
    ensures Owned(Step(s, Reap(p)))
  {
    var t := Step(s, Reap(p));
    assert WorkerOk(s, p);
    forall j | 0 <= j < MAX_CLIENTS
      ensures SlotOk(t, j)
    {
      assert SlotOk(s, j);
    }
    forall q | q in t.workers
      ensures WorkerOk(t, q)
    {
      assert WorkerOk(s, q);
    }
  }

  lemma WorkerStepKeepsOwned(s: State, p: ProcessId, value: nat)
    requires Owned(s) && WellFormed(s) && Enabled(s, WorkerStep(p, value))
    ensures Owned(WorkerNext(s, p, value))
  {
    assert WorkerOk(s, p);
    match s.workers[p].phase {
      case Starting => OutsiderMoves(s, WorkerNext(s, p, value), p);
      case Scanning(at) => ScanKeepsOwned(s, p, at);
      case Claiming(i, f) => ClaimKeepsOwned(s, p, i, f, value);
      case Running(_) =>
      case Adding(i, up, down, step) => AddKeepsOwned(s, p, i, up, down, step);
      case Releasing(i, f) => WipeKeepsOwned(s, p, i, f, s.handler);
      case Exited => OutsiderMoves(s, WorkerNext(s, p, value), p);
    }
  }

  lemma CallKeepsOwned(s: State, a: Action, p: ProcessId)
    requires Owned(s) && WellFormed(s) && Enabled(s, a)
    requires (a.BeginAdd? || a.BeginRelease?) && p == a.p
    ensures Owned(Step(s, a))
  {
    assert WorkerOk(s, p);
    var t, r := Step(s, a), s.workers[p].phase.result;
    if r < 0 {
      OutsiderMoves(s, t, p);
    } else {
      assert SlotOk(s, r);
      assert t.slots == s.slots[r := t.slots[r]];
      OwnerTouches(s, t, p, r);
    }
  }

  /** Moves of the accept loop and of the signal mask do not touch slots or old workers. */
  lemma ParentKeepsOwned(s: State, t: State)
    requires Owned(s)
    requires t.slots == s.slots && t.holder == s.holder && t.workers == s.workers
    requires HandlerOk(t) && HandlerChild(t.handler) == HandlerChild(s.handler)
    ensures Owned(t)
  {
    forall j | 0 <= j < MAX_CLIENTS
      ensures SlotOk(t, j)
    {
      assert SlotOk(s, j);
    }
    forall q | q in t.workers
      ensures WorkerOk(t, q)
    {
      assert WorkerOk(s, q);
    }
  }

  lemma StepKeepsOwned(s: State, a: Action)
    requires Owned(s) && WellFormed(s) && Enabled(s, a)
    ensures Owned(Step(s, a))
  {
    match a {
      case Reap(p) => ReapKeepsOwned(s, p);
      case HandlerStep => HandlerKeepsOwned(s);
      case WorkerStep(p, value) => WorkerStepKeepsOwned(s, p, value);
      case GiveUp(p) => assert WorkerOk(s, p); OutsiderMoves(s, Step(s, a), p);
      case BeginAdd(p, _, _) => CallKeepsOwned(s, a, p);
      case BeginRelease(p) => CallKeepsOwned(s, a, p);
      case Kill(p) => KillKeepsOwned(s, p);
      case Fork(p) => OutsiderMoves(s, Step(s, a), p);
      case _ => ParentKeepsOwned(s, Step(s, a));
    }
  }
}
