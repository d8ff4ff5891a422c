/** What holds in every run of the worker pool, whatever the interleaving, the
    placement of SIGCHLD and the workers killed. */
module WorkerPoolSafety {
  import opened Wrappers
  import opened StatsTable
  import opened WorkerPool
  import opened WorkerPoolOwnership
  import opened WorkerPoolCounting

  ghost predicate Inv(s: State) {
    Owned(s) && Counted(s) && Conserved(s) && Suffixes(s)
  }

  lemma InitInv()
    ensures Inv(Init())
  {
    InitOwned();
    SumsOfEmpty(Init().slots);
    forall k | 0 <= k <= MAX_CLIENTS
      ensures SuffixOk(Init(), k)
    {
      assert Scanners(Init(), k) == {};
    }
  }

  lemma StepKeepsInv(s: State, a: Action)
    requires Inv(s) && WellFormed(s) && Enabled(s, a)
    ensures Inv(Step(s, a))
  {
    StepKeepsOwned(s, a);
    StepKeepsCounted(s, a);
    StepKeepsConserved(s, a);
    StepKeepsSuffixes(s, a);
  }

  /** Every run from the empty table keeps the invariant; so no enabled step is ever undefined. */
  lemma {:induction false} RunKeepsInv(acts: seq<Action>, s: State)
    requires Run(Init(), acts, s)
    ensures Inv(s) && WellFormed(s)
    decreases |acts|
  {
    if acts == [] {
      InitInv();
    } else {
      var front, a := acts[..|acts| - 1], acts[|acts| - 1];
      var m :| Run(Init(), front, m) && WellFormed(m) && Enabled(m, a) && s == Step(m, a);
      RunKeepsInv(front, m);
      StepKeepsInv(m, a);
    }
    OwnedIsWellFormed(s);
  }

  // ---- leaked slots ----

  /** `a` kills a worker whose slot is active and does not carry its pid: between the swap and
      the store of the pid in a claim, or between the erased pid and the freed slot in a release. */
  predicate KillsInWindow(s: State, a: Action) {
    a.Kill? && IsLive(s, a.p) && InWindow(s.workers[a.p].phase)
  }

  /** The slot of the worker so killed. */
  function LostSlot(s: State, a: Action): set<nat> {
    if KillsInWindow(s, a) then {s.workers[a.p].phase.slot} else {}
  }

  predicate IsLeaked(s: State, i: nat)
    requires |s.slots| == |s.holder| == MAX_CLIENTS && i < MAX_CLIENTS
  {
    s.slots[i].active && s.holder[i].None?
  }

  lemma WorkerKeepsLeaks(s: State, p: ProcessId, value: nat, i: nat)
    requires Owned(s) && WellFormed(s) && IsLive(s, p) && i < MAX_CLIENTS
    ensures var t := WorkerNext(s, p, value);
      |t.slots| == |t.holder| == MAX_CLIENTS && (IsLeaked(t, i) <==> IsLeaked(s, i))
  {
    assert WorkerOk(s, p);
    if Holds(s.workers[p].phase).Some? {
      assert SlotOk(s, Holds(s.workers[p].phase).value);
    }
    assert SlotOk(s, i);
  }

  lemma HandlerKeepsLeaks(s: State, i: nat)
    requires Owned(s) && WellFormed(s) && Enabled(s, HandlerStep) && i < MAX_CLIENTS
    ensures var t := HandlerNext(s);
      |t.slots| == |t.holder| == MAX_CLIENTS && (IsLeaked(t, i) <==> IsLeaked(s, i))
  {
    assert SlotOk(s, i);
    if s.handler.Wiping? {
      assert WorkerOk(s, s.handler.pid);
    }
  }

  lemma KillLeaks(s: State, p: ProcessId, i: nat)
    requires Owned(s) && WellFormed(s) && IsLive(s, p) && i < MAX_CLIENTS
    ensures var t := KillNext(s, p);
      |t.slots| == |t.holder| == MAX_CLIENTS
      && (IsLeaked(t, i) <==> IsLeaked(s, i) || i in LostSlot(s, Kill(p)))
      && (i in LostSlot(s, Kill(p)) ==> !IsLeaked(s, i))
  {
    assert WorkerOk(s, p) && SlotOk(s, i);
  }

  /** A step leaks the slot of a worker killed in a window, which was not leaked before, and no
      other; and no step ever recovers a leaked slot. */
  lemma StepLeaks(s: State, a: Action)
    requires Owned(s) && WellFormed(s) && Enabled(s, a)
    ensures |Step(s, a).slots| == |Step(s, a).holder| == MAX_CLIENTS
    ensures Leaked(Step(s, a)) == Leaked(s) + LostSlot(s, a) && Leaked(s) !! LostSlot(s, a)
  {
    var t := Step(s, a);
    StepKeepsOwned(s, a);
    if KillsInWindow(s, a) {
      assert WorkerOk(s, a.p);
    }
    forall i: nat | i < MAX_CLIENTS
      ensures IsLeaked(t, i) <==> IsLeaked(s, i) || i in LostSlot(s, a)
      ensures i in LostSlot(s, a) ==> !IsLeaked(s, i)
    {
      if a.WorkerStep? {
        WorkerKeepsLeaks(s, a.p, a.value, i);
      } else if a.HandlerStep? {
        HandlerKeepsLeaks(s, i);
      } else if a.Kill? {
        KillLeaks(s, a.p, i);
      }
    }
  }

  /** Where a run has led to. */
  ghost function StateAfter(acts: seq<Action>): Option<State> {
    if acts == [] then Some(Init())
    else
      var front, a := acts[..|acts| - 1], acts[|acts| - 1];
      match StateAfter(front)
      case None => None
      case Some(m) => if WellFormed(m) && Enabled(m, a) then Some(Step(m, a)) else None
  }

  lemma {:induction false} RunEndsThere(acts: seq<Action>, s: State)
    requires Run(Init(), acts, s)
    ensures StateAfter(acts) == Some(s)
    decreases |acts|
  {
    if acts != [] {
      var front, a := acts[..|acts| - 1], acts[|acts| - 1];
      var m :| Run(Init(), front, m) && WellFormed(m) && Enabled(m, a) && s == Step(m, a);
      RunEndsThere(front, m);
    }
  }

  /** How many workers a run has killed in a window. */
  ghost function WindowKills(acts: seq<Action>): nat {
    if acts == [] then 0
    else
      var front, a := acts[..|acts| - 1], acts[|acts| - 1];
      WindowKills(front) + if StateAfter(front).Some? && KillsInWindow(StateAfter(front).value, a) then 1 else 0
  }

  /** In every run the leaked slots are exactly as many as the workers killed in a window. */
  lemma {:induction false} LeaksCountWindowKills(acts: seq<Action>, s: State)
    requires Run(Init(), acts, s)
    ensures |s.slots| == |s.holder| == MAX_CLIENTS
    ensures |Leaked(s)| == WindowKills(acts)
    decreases |acts|
  {
    RunKeepsInv(acts, s);
    if acts == [] {
      assert Leaked(s) == {};
    } else {
      var front, a := acts[..|acts| - 1], acts[|acts| - 1];
      var m :| Run(Init(), front, m) && WellFormed(m) && Enabled(m, a) && s == Step(m, a);
      RunKeepsInv(front, m);
      LeaksCountWindowKills(front, m);
      RunEndsThere(front, m);
      StepLeaks(m, a);
      assert |Leaked(m) + LostSlot(m, a)| == |Leaked(m)| + |LostSlot(m, a)|;
    }
  }

  // ---- the claim scan never misses ----

  /** From any index on, the workers still to scan there are no more than the free slots there
      and the workers killed in a window. */
  lemma {:induction false} SuffixBound(acts: seq<Action>, s: State, k: nat)
    requires Run(Init(), acts, s) && k <= MAX_CLIENTS
    ensures |s.slots| == |s.holder| == MAX_CLIENTS
    ensures |Scanners(s, k)| <= |Free(s, k)| + WindowKills(acts)
  {
    RunKeepsInv(acts, s);
    LeaksCountWindowKills(acts, s);
    assert SuffixOk(s, k);
  }

  /** Workers whose scan has run off the table, for which fp_stats_claim is about to return -1,
      are at no time more than the workers killed in a window before. */
  lemma {:induction false} ClaimNeverMisses(acts: seq<Action>, s: State)
    requires Run(Init(), acts, s)
    ensures |Scanners(s, MAX_CLIENTS)| <= WindowKills(acts)
    ensures forall p: ProcessId ::
      IsLive(s, p) && s.workers[p].phase.Scanning? && s.workers[p].phase.at >= MAX_CLIENTS ==>
      p in Scanners(s, MAX_CLIENTS) && WindowKills(acts) > 0
  {
    SuffixBound(acts, s, MAX_CLIENTS);
    assert Free(s, MAX_CLIENTS) == {};
    forall p: ProcessId | IsLive(s, p) && s.workers[p].phase.Scanning? && s.workers[p].phase.at >= MAX_CLIENTS
      ensures p in Scanners(s, MAX_CLIENTS) && WindowKills(acts) > 0
    {
      assert |Scanners(s, MAX_CLIENTS)| > 0 by { Subset({p}, Scanners(s, MAX_CLIENTS)); }
    }
  }

  /** fp_stats_claim has returned -1 to the worker. */
  predicate Failed(s: State, p: ProcessId) {
    p in s.workers && s.workers[p].phase.Running? && s.workers[p].phase.result < 0
  }

  /** The worker's scan has run off the table. */
  predicate ScannedAll(s: State, p: ProcessId) {
    IsLive(s, p) && s.workers[p].phase.Scanning? && s.workers[p].phase.at >= MAX_CLIENTS
  }

  lemma WorkerFailure(m: State, q: ProcessId, value: nat, p: ProcessId)
    requires WellFormed(m) && Enabled(m, WorkerStep(q, value)) && Failed(WorkerNext(m, q, value), p)
    ensures Failed(m, p) || ScannedAll(m, p)
  {
  }

  lemma HandlerFailure(m: State, p: ProcessId)
    requires WellFormed(m) && Enabled(m, HandlerStep) && Failed(HandlerNext(m), p)
    ensures Failed(m, p)
  {
  }

  lemma CallFailure(m: State, a: Action, p: ProcessId)
    requires WellFormed(m) && Enabled(m, a) && OfOneWorker(a) && Failed(Step(m, a), p)
    ensures Failed(m, p)
  {
    OneWorkerSteps(m, a, Actor(a));
  }

  /** A claim fails only by a scan that has run off the table. */
  lemma FailureFromScan(m: State, a: Action, p: ProcessId)
    requires WellFormed(m) && Enabled(m, a) && Failed(Step(m, a), p)
    ensures Failed(m, p) || ScannedAll(m, p)
  {
    if a.WorkerStep? {
      WorkerFailure(m, a.p, a.value, p);
    } else if a.HandlerStep? {
      HandlerFailure(m, p);
    } else if OfOneWorker(a) {
      CallFailure(m, a, p);
    } else if OfParent(a) {
      ParentSteps(m, a);
    }
  }

  /** A worker whose fp_stats_claim has returned -1 exists only after a kill in a window. */
  lemma {:induction false} FailedClaimNeedsKill(acts: seq<Action>, s: State, p: ProcessId)
    requires Run(Init(), acts, s) && Failed(s, p)
    ensures WindowKills(acts) > 0
    decreases |acts|
  {
    if acts != [] {
      var front, a := acts[..|acts| - 1], acts[|acts| - 1];
      var m :| Run(Init(), front, m) && WellFormed(m) && Enabled(m, a) && s == Step(m, a);
      FailureFromScan(m, a, p);
      if Failed(m, p) {
        FailedClaimNeedsKill(front, m, p);
      } else {
        ClaimNeverMisses(front, m);
      }
    }
  }

  // ---- slot ownership ----

  lemma {:induction false} SlotOwnership(acts: seq<Action>, s: State)
    requires Run(Init(), acts, s)
    ensures |s.slots| == MAX_CLIENTS
    // a pid in a slot names a forked worker that the handler has not finished with
    ensures forall i :: 0 <= i < MAX_CLIENTS && s.slots[i].pid != 0 ==>
      s.slots[i].pid > 1 && s.slots[i].pid in s.workers && Holds(s.workers[s.slots[i].pid].phase) == Some(i)
    // a reaped one is the child that the handler is dealing with
    ensures forall p :: p in s.workers && s.workers[p].life.Reaped? ==> HandlerChild(s.handler) == Some(p)
    // no two workers hold the same slot
    ensures forall p, q :: p in s.workers && q in s.workers && p != q && Holds(s.workers[p].phase).Some? ==>
      Holds(s.workers[p].phase) != Holds(s.workers[q].phase)
    // an inactive slot is all zero, so a new owner inherits nothing
    ensures forall i :: 0 <= i < MAX_CLIENTS && !s.slots[i].active ==> s.slots[i] == EMPTY
  {
    RunKeepsInv(acts, s);
    forall i | 0 <= i < MAX_CLIENTS
      ensures s.slots[i].pid != 0 ==>
        s.slots[i].pid > 1 && s.slots[i].pid in s.workers && Holds(s.workers[s.slots[i].pid].phase) == Some(i)
      ensures !s.slots[i].active ==> s.slots[i] == EMPTY
    {
      assert SlotOk(s, i);
    }
    forall p | p in s.workers && s.workers[p].life.Reaped?
      ensures HandlerChild(s.handler) == Some(p)
    {
      assert WorkerOk(s, p);
    }
    forall p, q | p in s.workers && q in s.workers && p != q && Holds(s.workers[p].phase).Some?
      ensures Holds(s.workers[p].phase) != Holds(s.workers[q].phase)
    {
      assert WorkerOk(s, p) && WorkerOk(s, q);
    }
  }

  /** The guards of fp_stats_add and fp_stats_release never turn a live owner away. */
  lemma {:induction false} OwnerPassesGuards(acts: seq<Action>, s: State, p: ProcessId)
    requires Run(Init(), acts, s) && IsLive(s, p)
    ensures WellFormed(s)
    ensures s.workers[p].phase.Adding? ==>
      s.slots[s.workers[p].phase.slot].active && s.slots[s.workers[p].phase.slot].pid == p
    ensures s.workers[p].phase.Running? && s.workers[p].phase.result >= 0 ==>
      s.slots[s.workers[p].phase.result].active && s.slots[s.workers[p].phase.result].pid == p
  {
    RunKeepsInv(acts, s);
    assert WorkerOk(s, p);
    if Holds(s.workers[p].phase).Some? {
      assert SlotOk(s, Holds(s.workers[p].phase).value);
    }
  }

  /** fp_stats_clear_pid erases only a slot of the dead child just reaped, and when its
      scan is over no slot carries that child's pid. */
  lemma {:induction false} ClearErasesOnlyTheDead(acts: seq<Action>, s: State, i: nat)
    requires Run(Init(), acts, s) && i < MAX_CLIENTS && Enabled(s, HandlerStep)
    ensures WellFormed(s) && HandlerChild(s.handler).Some?
    ensures var child := HandlerChild(s.handler).value;
      && child in s.workers && s.workers[child].life.Reaped?
      && (HandlerNext(s).slots[i] != s.slots[i] ==>
        Holds(s.workers[child].phase) == Some(i) && s.holder[i] == Some(child))
      && (s.handler.Decrement? ==> s.slots[i].pid != child)
  {
    RunKeepsInv(acts, s);
    assert SlotOk(s, i);
    assert WorkerOk(s, HandlerChild(s.handler).value);
  }

  /** The handler returns only when no dead worker is left unreaped. */
  lemma HandlerLeavesNoZombie(s: State, a: Action)
    requires WellFormed(s) && Enabled(s, a) && !s.handler.Idle? && Step(s, a).handler.Idle?
    ensures forall p :: p in Step(s, a).workers ==> !Step(s, a).workers[p].life.Zombie?
  {
  }

  // ---- the client counter ----

  function Unreaped(s: State): set<ProcessId> {
    set p | p in s.workers && !s.workers[p].life.Reaped?
  }

  lemma UnreapedCount(s: State)
    requires Owned(s)
    ensures |Unreaped(s)| == |s.workers| - (if HandlerChild(s.handler).Some? then 1 else 0)
  {
    forall p | p in s.workers && s.workers[p].life.Reaped?
      ensures HandlerChild(s.handler) == Some(p)
    {
      assert WorkerOk(s, p);
    }
    assert |s.workers| == |s.workers.Keys|;
    if HandlerChild(s.handler).Some? {
      assert Unreaped(s) == s.workers.Keys - {HandlerChild(s.handler).value};
    } else {
      assert Unreaped(s) == s.workers.Keys;
    }
  }

  /** The exact count: one high while the handler deals with a child it has reaped, one
      low between the fork and the increment.  So outside those it equals the number of
      forked-but-unreaped workers, and the handler's guard never swallows a decrement. */
  predicate CountsUnreaped(s: State) {
    && s.activeClients == |Unreaped(s)| + (if HandlerChild(s.handler).Some? then 1 else 0)
       - (if s.main.Forked? then 1 else 0)
    && (s.handler.Idle? && !Masked(s.main) ==> s.activeClients == |Unreaped(s)|)
    && |Unreaped(s)| <= MAX_CLIENTS && 0 <= s.activeClients <= MAX_CLIENTS
    && (s.handler.Decrement? ==> s.activeClients > 0)
  }

  lemma CountedIsExact(s: State)
    requires Owned(s) && Counted(s)
    ensures CountsUnreaped(s)
  {
    UnreapedCount(s);
  }

  lemma {:induction false} CounterExact(acts: seq<Action>, s: State)
    requires Run(Init(), acts, s)
    ensures CountsUnreaped(s)
  {
    RunKeepsInv(acts, s);
    CountedIsExact(s);
  }

  // ---- bytes ----

  /** The totals, with what a worker still owes and what deaths cut off, are exactly the
      bytes in the slots and the bytes zeroed out of released and cleared slots. */
  lemma {:induction false} BytesConserved(acts: seq<Action>, s: State)
    requires Run(Init(), acts, s)
    ensures s.totalUp + OwedUp(s.workers, s.workers.Keys) + s.lostUp == SumUp(s.slots) + s.retiredUp
    ensures s.totalDown + OwedDown(s.workers, s.workers.Keys) + s.lostDown == SumDown(s.slots) + s.retiredDown
    // a worker that has not been reaped owes exactly the add it has stored and not yet totalled
    ensures forall p :: p in s.workers && !s.workers[p].life.Reaped? ==>
      s.workers[p].owedUp == InFlightUp(s.workers[p].phase) && s.workers[p].owedDown == InFlightDown(s.workers[p].phase)
  {
    RunKeepsInv(acts, s);
    forall p | p in s.workers && !s.workers[p].life.Reaped?
      ensures s.workers[p].owedUp == InFlightUp(s.workers[p].phase)
        && s.workers[p].owedDown == InFlightDown(s.workers[p].phase)
    {
      assert WorkerOk(s, p);
    }
  }

  /** Nobody has been killed: a worker that is not live has ended by itself, with nothing owed. */
  predicate NobodyKilled(s: State) {
    && s.lostUp == 0 && s.lostDown == 0
    && forall p :: p in s.workers && !s.workers[p].life.Live? ==> s.workers[p].phase.Exited?
  }

  lemma WorkerLosesNothing(s: State, p: ProcessId, value: nat)
    requires Owned(s) && NobodyKilled(s) && WellFormed(s) && Enabled(s, WorkerStep(p, value))
    ensures NobodyKilled(WorkerNext(s, p, value))
  {
    assert WorkerOk(s, p);
  }

  lemma HandlerLosesNothing(s: State)
    requires Owned(s) && NobodyKilled(s) && WellFormed(s) && Enabled(s, HandlerStep)
    ensures NobodyKilled(HandlerNext(s))
  {
    assert WorkerOk(s, HandlerChild(s.handler).value);
    if s.handler.TestPid? {
      assert SlotOk(s, s.handler.at);
    }
  }

  lemma StepLosesNothing(s: State, a: Action)
    requires Owned(s) && NobodyKilled(s) && WellFormed(s) && Enabled(s, a) && !a.Kill?
    ensures NobodyKilled(Step(s, a))
  {
    if a.WorkerStep? {
      WorkerLosesNothing(s, a.p, a.value);
    } else if a.HandlerStep? {
      HandlerLosesNothing(s);
    } else if OfOneWorker(a) {
      OneWorkerSteps(s, a, Actor(a));
    } else if OfParent(a) {
      ParentSteps(s, a);
    }
  }

  /** What deaths keep out of the totals is lost only by kills: without one nothing is. */
  lemma {:induction false} OnlyKillsLose(acts: seq<Action>, s: State)
    requires Run(Init(), acts, s) && forall k :: 0 <= k < |acts| ==> !acts[k].Kill?
    ensures NobodyKilled(s)
    decreases |acts|
  {
    if acts != [] {
      var front, a := acts[..|acts| - 1], acts[|acts| - 1];
      var m :| Run(Init(), front, m) && WellFormed(m) && Enabled(m, a) && s == Step(m, a);
      RunKeepsInv(front, m);
      OnlyKillsLose(front, m);
      StepLosesNothing(m, a);
    }
  }

  lemma StepTotals(s: State, a: Action)
    requires WellFormed(s) && Enabled(s, a)
    ensures s.totalUp <= Step(s, a).totalUp && s.totalDown <= Step(s, a).totalDown
  {
  }

  lemma {:induction false} TotalsNeverDecrease(s: State, acts: seq<Action>, t: State)
    requires Run(s, acts, t)
    ensures s.totalUp <= t.totalUp && s.totalDown <= t.totalDown
    decreases |acts|
  {
    if acts != [] {
      var front, a := acts[..|acts| - 1], acts[|acts| - 1];
      var m :| Run(s, front, m) && WellFormed(m) && Enabled(m, a) && t == Step(m, a);
      TotalsNeverDecrease(s, front, m);
      StepTotals(m, a);
    }
  }

  // ---- a snapshot at rest ----

  /** No call into the table is in progress and every dead worker has been reaped. */
  predicate AtRest(s: State) {
    && s.handler.Idle?
    && forall p :: p in s.workers ==>
      s.workers[p].life.Live? && !s.workers[p].phase.Claiming? && !s.workers[p].phase.Adding?
        && !s.workers[p].phase.Releasing?
  }

  lemma {:induction false} NothingOwed(ws: map<ProcessId, Worker>, ps: set<ProcessId>)
    requires ps <= ws.Keys && forall p :: p in ps ==> ws[p].owedUp == 0 && ws[p].owedDown == 0
    ensures OwedUp(ws, ps) == 0 && OwedDown(ws, ps) == 0
    decreases ps
  {
    if ps != {} {
      var p :| p in ps;
      OwedSplit(ws, ps, p);
      OwedDownSplit(ws, ps, p);
      NothingOwed(ws, ps - {p});
    }
  }

  /** At rest a snapshot lists exactly the slots that running workers own, and shows no
      more bytes than the totals. */
  lemma {:induction false} SnapshotAtRest(acts: seq<Action>, s: State, known: set<int>)
    requires Run(Init(), acts, s) && AtRest(s)
    requires forall p: int :: p in known <==> p > 1 && p in s.workers
    ensures |s.slots| == MAX_CLIENTS
    ensures forall i :: 0 <= i < MAX_CLIENTS ==>
      (Listed(s.slots[i], known) <==>
       s.slots[i].pid > 1 && s.slots[i].pid in s.workers && s.workers[s.slots[i].pid].phase == Running(i))
    ensures forall p, r :: p in s.workers && s.workers[p].phase == Running(r) && r >= 0 ==>
      r < MAX_CLIENTS && Listed(s.slots[r], known) && s.slots[r].pid == p
    ensures RowsUp(Rows(s.slots, known)) <= s.totalUp && RowsDown(Rows(s.slots, known)) <= s.totalDown
  {
    RunKeepsInv(acts, s);
    forall i | 0 <= i < MAX_CLIENTS
      ensures Listed(s.slots[i], known) <==>
        s.slots[i].pid > 1 && s.slots[i].pid in s.workers && s.workers[s.slots[i].pid].phase == Running(i)
    {
      assert SlotOk(s, i);
    }
    forall p, r | p in s.workers && s.workers[p].phase == Running(r) && r >= 0
      ensures r < MAX_CLIENTS && Listed(s.slots[r], known) && s.slots[r].pid == p
    {
      assert WorkerOk(s, p) && SlotOk(s, r);
    }
    forall p | p in s.workers
      ensures s.workers[p].owedUp == 0 && s.workers[p].owedDown == 0
    {
      assert WorkerOk(s, p);
    }
    NothingOwed(s.workers, s.workers.Keys);
    RowsWithinSlots(s.slots, known);
  }

  // ---- a claim and a wipe that are not interrupted ----

  function ClaimPlace(f: Field): nat {
    match f
    case DestField => 6
    case PortField => 5
    case PidField => 4
    case UpField => 3
    case DownField => 2
    case StartField => 1
    case ActiveField => 0
  }

  /** All the stores of a claim from `f` on. */
  function ClaimFrom(x: Slot, f: Field, self: int, dest: nat, port: nat, now: nat): Slot
    decreases ClaimPlace(f)
  {
    var y := ClaimStore(x, f, self, if f.DestField? then dest else if f.PortField? then port else now);
    if NextClaim(f).Some? then ClaimFrom(y, NextClaim(f).value, self, dest, port, now) else y
  }

  /** The stores add up to what StatsMap.Claim leaves in the slot. */
  lemma ClaimAddsUp(x: Slot, self: int, dest: nat, port: nat, now: nat)
    requires x.active
    ensures ClaimFrom(x, DestField, self, dest, port, now) == Slot(true, dest, port, self, 0, 0, now)
  {
  }

  function WipePlace(f: Field): nat {
    match f
    case UpField => 6
    case DownField => 5
    case DestField => 4
    case PortField => 3
    case PidField => 2
    case StartField => 1
    case ActiveField => 0
  }

  /** All the stores of a wipe from `f` on. */
  function WipeFrom(x: Slot, f: Field): Slot
    decreases WipePlace(f)
  {
    var y := WipeStore(x, f);
    if NextWipe(f).Some? then WipeFrom(y, NextWipe(f).value) else y
  }

  /** The stores add up to the empty slot that StatsMap.Release and StatsMap.ClearPid leave. */
  lemma WipeAddsUp(x: Slot)
    ensures WipeFrom(x, UpField) == EMPTY
  {
  }
}
