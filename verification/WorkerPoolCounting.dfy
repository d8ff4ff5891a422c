/** The three counts of WorkerPool: the accept loop's client counter, the byte
    totals, and free slots against scanning workers. */
module WorkerPoolCounting {
  import opened Wrappers
  import opened StatsTable
  import opened WorkerPool
  import opened WorkerPoolOwnership

  // ---- the client counter ----

  predicate Counted(s: State) {
    && s.activeClients == |s.workers| - (if s.main.Forked? then 1 else 0)
    && |s.workers| <= MAX_CLIENTS
    && (s.main.Admitted? || s.main.MaskedToFork? ==> |s.workers| < MAX_CLIENTS)
    && (s.main.Forked? ==> |s.workers| > 0)
    && (!s.handler.Idle? ==> !Masked(s.main))
  }

  /** Worker steps and wipes leave the accept loop, its counter and the set of workers alone. */
  lemma WorkerLeavesParent(s: State, p: ProcessId, value: nat)
    requires WellFormed(s) && p in s.workers
    ensures var t := WorkerNext(s, p, value);
      t.workers.Keys == s.workers.Keys && t.main == s.main && t.handler == s.handler
        && t.activeClients == s.activeClients
  {
  }

  lemma HandlerKeepsCounted(s: State)
    requires Owned(s) && Counted(s) && WellFormed(s) && Enabled(s, HandlerStep)
    ensures Counted(HandlerNext(s))
  {
    var t := HandlerNext(s);
    assert |t.workers| == |t.workers.Keys| && |s.workers| == |s.workers.Keys|;
    if s.handler.Decrement? {
      assert t.workers.Keys == s.workers.Keys - {s.handler.pid};
    } else {
      assert t.workers.Keys == s.workers.Keys;
    }
  }

  lemma ForkKeepsCounted(s: State, p: ProcessId)
    requires Counted(s) && WellFormed(s) && Enabled(s, Fork(p))
    ensures Counted(Step(s, Fork(p)))
  {
    var t := Step(s, Fork(p));
    assert t.workers.Keys == s.workers.Keys + {p};
    assert |t.workers| == |t.workers.Keys| && |s.workers| == |s.workers.Keys|;
  }

  /** A step that touches one worker and neither the accept loop nor its counter. */
  lemma WorkerKeepsCounted(s: State, t: State)
    requires Counted(s) && t.workers.Keys == s.workers.Keys && t.main == s.main && t.activeClients == s.activeClients
    requires t.handler == s.handler || !s.handler.Idle?
    ensures Counted(t)
  {
    assert |t.workers| == |t.workers.Keys| && |s.workers| == |s.workers.Keys|;
  }

  /** The actions of the accept loop and of signal delivery. */
  predicate OfParent(a: Action) {
    a.MainStep? || a.AcceptFails? || a.MaskFails? || a.ForkFails? || a.Signal? || a.NoMoreDead?
  }

  /** The actions that only move one worker to another phase or life. */
  predicate OfOneWorker(a: Action) {
    a.Reap? || a.GiveUp? || a.BeginAdd? || a.BeginRelease? || a.Kill?
  }

  function Actor(a: Action): ProcessId
    requires OfOneWorker(a)
  {
    if a.Reap? then a.child else a.p
  }

  /** What the parent's actions leave alone. */
  predicate ParentMoves(s: State, t: State) {
    t == s.(main := t.main, handler := t.handler, activeClients := t.activeClients)
  }

  lemma ParentSteps(s: State, a: Action)
    requires WellFormed(s) && Enabled(s, a) && OfParent(a)
    ensures ParentMoves(s, Step(s, a))
  {
  }

  lemma ParentKeepsCounted(s: State, a: Action)
    requires Counted(s) && WellFormed(s) && Enabled(s, a) && OfParent(a)
    ensures Counted(Step(s, a))
  {
  }

  /** What the actions on one worker leave alone. */
  predicate WorkerMoves(s: State, t: State, p: ProcessId)
    requires p in s.workers
  {
    && t == s.(workers := t.workers, handler := t.handler, holder := t.holder)
    && t.workers.Keys == s.workers.Keys && t.workers == s.workers[p := t.workers[p]]
    && t.workers[p].owedUp == s.workers[p].owedUp && t.workers[p].owedDown == s.workers[p].owedDown
    && (t.handler == s.handler || !s.handler.Idle?)
  }

  lemma OneWorkerSteps(s: State, a: Action, p: ProcessId)
    requires WellFormed(s) && Enabled(s, a) && OfOneWorker(a) && p == Actor(a)
    ensures p in s.workers && WorkerMoves(s, Step(s, a), p)
  {
    assert s.workers.Keys + {p} == s.workers.Keys;
  }

  lemma StepKeepsCounted(s: State, a: Action)
    requires Owned(s) && Counted(s) && WellFormed(s) && Enabled(s, a)
    ensures Counted(Step(s, a))
  {
    if a.Fork? {
      ForkKeepsCounted(s, a.child);
    } else if a.HandlerStep? {
      HandlerKeepsCounted(s);
    } else if a.WorkerStep? {
      WorkerLeavesParent(s, a.p, a.value);
      WorkerKeepsCounted(s, Step(s, a));
    } else if OfParent(a) {
      ParentKeepsCounted(s, a);
    } else {
      OneWorkerSteps(s, a, Actor(a));
      WorkerKeepsCounted(s, Step(s, a));
    }
  }

  // ---- byte conservation ----

  /** Sum over a set of workers of the bytes owed to the totals. */
  ghost function OwedUp(ws: map<ProcessId, Worker>, ps: set<ProcessId>): nat
    requires ps <= ws.Keys
  {
    if ps == {} then 0 else var p :| p in ps; ws[p].owedUp + OwedUp(ws, ps - {p})
  }

  ghost function OwedDown(ws: map<ProcessId, Worker>, ps: set<ProcessId>): nat
    requires ps <= ws.Keys
  {
    if ps == {} then 0 else var p :| p in ps; ws[p].owedDown + OwedDown(ws, ps - {p})
  }

  lemma {:induction false} OwedSplit(ws: map<ProcessId, Worker>, ps: set<ProcessId>, p: ProcessId)
    requires ps <= ws.Keys && p in ps
    ensures OwedUp(ws, ps) == ws[p].owedUp + OwedUp(ws, ps - {p})
    decreases ps
  {
    var q :| q in ps && OwedUp(ws, ps) == ws[q].owedUp + OwedUp(ws, ps - {q});
    if q != p {
      OwedSplit(ws, ps - {q}, p);
      OwedSplit(ws, ps - {p}, q);
      assert ps - {q} - {p} == ps - {p} - {q};
    }
  }

  lemma {:induction false} OwedDownSplit(ws: map<ProcessId, Worker>, ps: set<ProcessId>, p: ProcessId)
    requires ps <= ws.Keys && p in ps
    ensures OwedDown(ws, ps) == ws[p].owedDown + OwedDown(ws, ps - {p})
    decreases ps
  {
    var q :| q in ps && OwedDown(ws, ps) == ws[q].owedDown + OwedDown(ws, ps - {q});
    if q != p {
      OwedDownSplit(ws, ps - {q}, p);
      OwedDownSplit(ws, ps - {p}, q);
      assert ps - {q} - {p} == ps - {p} - {q};
    }
  }

  lemma {:induction false} OwedAgree(ws: map<ProcessId, Worker>, vs: map<ProcessId, Worker>, ps: set<ProcessId>)
    requires ps <= ws.Keys && ps <= vs.Keys
    requires forall p :: p in ps ==> ws[p].owedUp == vs[p].owedUp && ws[p].owedDown == vs[p].owedDown
    ensures OwedUp(ws, ps) == OwedUp(vs, ps) && OwedDown(ws, ps) == OwedDown(vs, ps)
    decreases ps
  {
    if ps != {} {
      var p :| p in ps;
      OwedSplit(ws, ps, p);
      OwedSplit(vs, ps, p);
      OwedDownSplit(ws, ps, p);
      OwedDownSplit(vs, ps, p);
      OwedAgree(ws, vs, ps - {p});
    }
  }

  /** Changing one worker moves what is owed by exactly that worker's difference. */
  lemma OwedChange(ws: map<ProcessId, Worker>, vs: map<ProcessId, Worker>, p: ProcessId)
    requires p in ws && vs.Keys == ws.Keys && vs == ws[p := vs[p]]
    ensures OwedUp(vs, vs.Keys) + ws[p].owedUp == OwedUp(ws, ws.Keys) + vs[p].owedUp
    ensures OwedDown(vs, vs.Keys) + ws[p].owedDown == OwedDown(ws, ws.Keys) + vs[p].owedDown
  {
    OwedSplit(ws, ws.Keys, p);
    OwedSplit(vs, vs.Keys, p);
    OwedDownSplit(ws, ws.Keys, p);
    OwedDownSplit(vs, vs.Keys, p);
    OwedAgree(ws, vs, ws.Keys - {p});
  }

  /** A worker that owes nothing may enter or leave the table. */
  lemma OwedGrow(ws: map<ProcessId, Worker>, vs: map<ProcessId, Worker>, p: ProcessId)
    requires p !in ws && vs.Keys == ws.Keys + {p} && vs[p].owedUp == 0 && vs[p].owedDown == 0
    requires forall q :: q in ws ==> vs[q] == ws[q]
    ensures OwedUp(vs, vs.Keys) == OwedUp(ws, ws.Keys)
    ensures OwedDown(vs, vs.Keys) == OwedDown(ws, ws.Keys)
  {
    OwedSplit(vs, vs.Keys, p);
    OwedDownSplit(vs, vs.Keys, p);
    assert vs.Keys - {p} == ws.Keys;
    OwedAgree(ws, vs, ws.Keys);
  }

  ghost predicate Conserved(s: State) {
    && s.totalUp + OwedUp(s.workers, s.workers.Keys) + s.lostUp == SumUp(s.slots) + s.retiredUp
    && s.totalDown + OwedDown(s.workers, s.workers.Keys) + s.lostDown == SumDown(s.slots) + s.retiredDown
    && s.lostUp <= s.retiredUp && s.lostDown <= s.retiredDown
  }

  /** A step that changes worker `p`, slot `i` and the books by matching amounts. */
  lemma BooksBalance(s: State, t: State, p: ProcessId, i: nat)
    requires Conserved(s) && p in s.workers && i < |s.slots|
    requires |t.slots| == |s.slots| && t.slots == s.slots[i := t.slots[i]]
    requires t.workers.Keys == s.workers.Keys && t.workers == s.workers[p := t.workers[p]]
    requires t.totalUp - s.totalUp + t.workers[p].owedUp - s.workers[p].owedUp + t.lostUp - s.lostUp
          == t.slots[i].up - s.slots[i].up + t.retiredUp - s.retiredUp
    requires t.totalDown - s.totalDown + t.workers[p].owedDown - s.workers[p].owedDown + t.lostDown - s.lostDown
          == t.slots[i].down - s.slots[i].down + t.retiredDown - s.retiredDown
    requires t.lostUp <= t.retiredUp && t.lostDown <= t.retiredDown
    ensures Conserved(t)
  {
    SumUpdate(s.slots, i, t.slots[i]);
    OwedChange(s.workers, t.workers, p);
  }

  lemma AddKeepsConserved(s: State, p: ProcessId, i: nat, up: nat, down: nat, step: AddStep)
    requires Owned(s) && Conserved(s) && WellFormed(s) && IsLive(s, p) && i < MAX_CLIENTS
    requires s.workers[p].phase == Adding(i, up, down, step)
    ensures Conserved(AddNext(s, p, i, up, down, step))
  {
    assert WorkerOk(s, p) && SlotOk(s, i);
    BooksBalance(s, AddNext(s, p, i, up, down, step), p, i);
  }

  lemma WipeKeepsConserved(s: State, p: ProcessId, i: nat, f: Field, h: Handler)
    requires Owned(s) && Conserved(s) && WellFormed(s) && p in s.workers && i < MAX_CLIENTS
    requires s.workers[p].phase == Releasing(i, f)
    ensures Conserved(WipeNext(s, p, i, f).(handler := h))
  {
    assert WorkerOk(s, p);
    BooksBalance(s, WipeNext(s, p, i, f).(handler := h), p, i);
  }

  /** A claim finds the counters zero and leaves them zero: nothing is inherited. */
  lemma ClaimKeepsConserved(s: State, p: ProcessId, i: nat, f: Field, value: nat)
    requires Owned(s) && Conserved(s) && WellFormed(s) && IsLive(s, p) && i < MAX_CLIENTS
    requires s.workers[p].phase == Claiming(i, f)
    ensures Conserved(ClaimNext(s, p, i, f, value))
  {
    assert WorkerOk(s, p) && SlotOk(s, i);
    BooksBalance(s, ClaimNext(s, p, i, f, value), p, i);
  }

  lemma ScanKeepsConserved(s: State, p: ProcessId, at: nat)
    requires Owned(s) && Conserved(s) && WellFormed(s) && IsLive(s, p)
    requires s.workers[p].phase == Scanning(at)
    ensures Conserved(ScanNext(s, p, at))
  {
    var t := ScanNext(s, p, at);
    if at < MAX_CLIENTS && !s.slots[at].active {
      BooksBalance(s, t, p, at);
    } else {
      OwedChange(s.workers, t.workers, p);
    }
  }

  lemma WorkerKeepsConserved(s: State, p: ProcessId, value: nat)
    requires Owned(s) && Conserved(s) && WellFormed(s) && Enabled(s, WorkerStep(p, value))
    ensures Conserved(WorkerNext(s, p, value))
  {
    assert WorkerOk(s, p);
    match s.workers[p].phase {
      case Starting => OwedChange(s.workers, WorkerNext(s, p, value).workers, p);
      case Scanning(at) => ScanKeepsConserved(s, p, at);
      case Claiming(i, f) => ClaimKeepsConserved(s, p, i, f, value);
      case Running(_) =>
      case Adding(i, up, down, step) => AddKeepsConserved(s, p, i, up, down, step);
      case Releasing(i, f) => WipeKeepsConserved(s, p, i, f, s.handler);
      case Exited => OwedChange(s.workers, WorkerNext(s, p, value).workers, p);
    }
  }

  lemma OneWorkerKeepsConserved(s: State, t: State, p: ProcessId)
    requires Conserved(s) && p in s.workers && WorkerMoves(s, t, p)
    ensures Conserved(t)
  {
    OwedChange(s.workers, t.workers, p);
  }

  lemma ParentKeepsConserved(s: State, t: State)
    requires Conserved(s) && ParentMoves(s, t)
    ensures Conserved(t)
  {
  }

  lemma DecrementKeepsConserved(s: State)
    requires Owned(s) && Conserved(s) && WellFormed(s) && s.handler.Decrement?
    ensures Conserved(HandlerNext(s))
  {
    assert WorkerOk(s, s.handler.pid);
    OwedGrow(HandlerNext(s).workers, s.workers, s.handler.pid);
  }

  lemma HandlerKeepsConserved(s: State)
    requires Owned(s) && Conserved(s) && WellFormed(s) && Enabled(s, HandlerStep)
    ensures Conserved(HandlerNext(s))
  {
    match s.handler {
      case Wiping(p, at) =>
        WipeKeepsConserved(s, p, at, s.workers[p].phase.next, HandlerNext(s).handler);
      case TestPid(p, at) =>
        if s.slots[at].pid == p {
          OneWorkerKeepsConserved(s, HandlerNext(s), p);
        } else {
          ParentKeepsConserved(s, HandlerNext(s));
        }
      case Decrement(_) => DecrementKeepsConserved(s);
      case TestActive(_, _) => ParentKeepsConserved(s, HandlerNext(s));
    }
  }

  lemma ForkKeepsConserved(s: State, p: ProcessId)
    requires Conserved(s) && WellFormed(s) && Enabled(s, Fork(p))
    ensures Conserved(Step(s, Fork(p)))
  {
    OwedGrow(s.workers, Step(s, Fork(p)).workers, p);
  }

  lemma StepKeepsConserved(s: State, a: Action)
    requires Owned(s) && Conserved(s) && WellFormed(s) && Enabled(s, a)
    ensures Conserved(Step(s, a))
  {
    if a.Fork? {
      ForkKeepsConserved(s, a.child);
    } else if a.HandlerStep? {
      HandlerKeepsConserved(s);
    } else if a.WorkerStep? {
      WorkerKeepsConserved(s, a.p, a.value);
    } else if OfParent(a) {
      ParentSteps(s, a);
      ParentKeepsConserved(s, Step(s, a));
    } else {
      OneWorkerSteps(s, a, Actor(a));
      OneWorkerKeepsConserved(s, Step(s, a), Actor(a));
    }
  }

  // ---- free slots against scanning workers ----

  function Free(s: State, k: int): set<nat>
    requires |s.slots| == MAX_CLIENTS
  {
    set i: nat | k <= i < MAX_CLIENTS && !s.slots[i].active
  }

  /** Slots left active by a worker that died in the active-without-pid window. */
  function Leaked(s: State): set<nat>
    requires |s.slots| == |s.holder| == MAX_CLIENTS
  {
    set i: nat | i < MAX_CLIENTS && s.slots[i].active && s.holder[i].None?
  }

  /** Live workers that have not yet passed slot k in their scan. */
  predicate ScansFrom(w: Worker, k: int) {
    w.life.Live? && ((w.phase.Starting? && k <= 0) || (w.phase.Scanning? && k <= w.phase.at))
  }

  function Scanners(s: State, k: int): set<ProcessId> {
    set p | p in s.workers && ScansFrom(s.workers[p], k)
  }

  predicate SuffixOk(s: State, k: int)
    requires |s.slots| == |s.holder| == MAX_CLIENTS
  {
    |Scanners(s, k)| <= |Free(s, k)| + |Leaked(s)|
  }

  ghost predicate Suffixes(s: State)
    requires |s.slots| == |s.holder| == MAX_CLIENTS
  {
    forall k :: 0 <= k <= MAX_CLIENTS ==> SuffixOk(s, k)
  }

  lemma Subset<T>(a: set<T>, b: set<T>)
    requires a <= b
    ensures |a| <= |b|
  {
    assert b == a + (b - a);
  }

  /** Fewer scanners, no fewer free or leaked slots. */
  lemma SuffixMonotone(s: State, t: State)
    requires |s.slots| == |s.holder| == |t.slots| == |t.holder| == MAX_CLIENTS && Suffixes(s)
    requires forall i :: 0 <= i < MAX_CLIENTS && !s.slots[i].active ==> !t.slots[i].active
    requires forall i :: 0 <= i < MAX_CLIENTS && s.slots[i].active && s.holder[i].None? ==>
      t.slots[i].active && t.holder[i].None?
    requires forall p, k :: p in t.workers && ScansFrom(t.workers[p], k) && 0 <= k <= MAX_CLIENTS ==>
      p in s.workers && ScansFrom(s.workers[p], k)
    ensures Suffixes(t)
  {
    forall k | 0 <= k <= MAX_CLIENTS
      ensures SuffixOk(t, k)
    {
      assert SuffixOk(s, k);
      Subset(Free(s, k), Free(t, k));
      Subset(Leaked(s), Leaked(t));
      Subset(Scanners(t, k), Scanners(s, k));
    }
  }

  /** Finding slot `at` active costs no free slot of the rest of the scan. */
  lemma AdvanceKeepsSuffixes(s: State, p: ProcessId, at: nat)
    requires Owned(s) && WellFormed(s) && Suffixes(s) && IsLive(s, p)
    requires s.workers[p].phase == Scanning(at) && at < MAX_CLIENTS && s.slots[at].active
    ensures Suffixes(ScanNext(s, p, at))
  {
    var t := ScanNext(s, p, at);
    forall k | 0 <= k <= MAX_CLIENTS
      ensures SuffixOk(t, k)
    {
      assert SuffixOk(s, k) && SuffixOk(s, at);
      assert Free(t, k) == Free(s, k) && Leaked(t) == Leaked(s);
      if k == at + 1 {
        assert Free(s, k) == Free(s, at);
        assert p in Scanners(s, at);
        Subset(Scanners(t, k), Scanners(s, at));
      } else {
        Subset(Scanners(t, k), Scanners(s, k));
      }
    }
  }

  /** Taking slot `at` costs one free slot and one scanner of the same suffixes. */
  lemma TakeKeepsSuffixes(s: State, p: ProcessId, at: nat)
    requires Owned(s) && WellFormed(s) && Suffixes(s) && IsLive(s, p)
    requires s.workers[p].phase == Scanning(at) && at < MAX_CLIENTS && !s.slots[at].active
    ensures Suffixes(ScanNext(s, p, at))
  {
    var t := ScanNext(s, p, at);
    assert SlotOk(s, at);
    forall k | 0 <= k <= MAX_CLIENTS
      ensures SuffixOk(t, k)
    {
      assert SuffixOk(s, k);
      assert Leaked(t) == Leaked(s);
      assert Scanners(t, k) == Scanners(s, k) - {p};
      assert Free(t, k) == Free(s, k) - {at};
      if k <= at {
        assert p in Scanners(s, k);
      } else {
        assert at !in Free(s, k);
      }
    }
  }

  // ---- a fork adds a scanner of the whole table ----

  /** The numbers below n. */
  function Below(n: nat): (r: set<nat>)
    ensures |r| == n && forall i: nat :: i in r <==> i < n
  {
    if n == 0 then {} else Below(n - 1) + {n - 1}
  }

  /** Slots with distinct holders are no more than the holders. */
  lemma {:induction false} HeldAtMostHolders(holder: seq<Option<ProcessId>>, held: set<nat>, ps: set<ProcessId>)
    requires forall i :: i in held ==> i < |holder| && holder[i].Some? && holder[i].value in ps
    requires forall i, j :: i in held && j in held && holder[i] == holder[j] ==> i == j
    ensures |held| <= |ps|
    decreases held
  {
    if held != {} {
      var i :| i in held;
      var p := holder[i].value;
      HeldAtMostHolders(holder, held - {i}, ps - {p});
      assert |held| == |held - {i}| + 1;
      assert |ps| == |ps - {p}| + 1;
    }
  }

  function Held(s: State): set<nat>
    requires |s.holder| == MAX_CLIENTS
  {
    set i: nat | i < MAX_CLIENTS && s.holder[i].Some?
  }

  lemma HoldersDiffer(s: State)
    requires Owned(s)
    ensures forall i :: i in Held(s) ==> s.holder[i].value in s.workers.Keys - Scanners(s, 0)
    ensures forall i, j :: i in Held(s) && j in Held(s) && s.holder[i] == s.holder[j] ==> i == j
  {
    forall i | i in Held(s)
      ensures s.holder[i].value in s.workers.Keys - Scanners(s, 0)
      ensures Holds(s.workers[s.holder[i].value].phase) == Some(i)
    {
      assert SlotOk(s, i);
    }
  }

  /** Every slot is free, leaked, or held by a worker that has stopped scanning. */
  lemma FreeOrHeld(s: State)
    requires Owned(s)
    ensures MAX_CLIENTS <= |Free(s, 0)| + |Leaked(s)| + |s.workers| - |Scanners(s, 0)|
  {
    var free, leaked, held := Free(s, 0), Leaked(s), Held(s);
    HoldersDiffer(s);
    HeldAtMostHolders(s.holder, held, s.workers.Keys - Scanners(s, 0));
    CoverSize(s);
    Subset(Scanners(s, 0), s.workers.Keys);
    assert |s.workers.Keys - Scanners(s, 0)| == |s.workers.Keys| - |Scanners(s, 0)|;
    assert |s.workers| == |s.workers.Keys|;
  }

  lemma CoverSize(s: State)
    requires Owned(s)
    ensures MAX_CLIENTS <= |Free(s, 0)| + |Leaked(s)| + |Held(s)|
  {
    var all := Free(s, 0) + Leaked(s) + Held(s);
    forall i | i in Below(MAX_CLIENTS)
      ensures i in all
    {
      assert SlotOk(s, i);
    }
    Subset(Below(MAX_CLIENTS), all);
  }

  lemma ForkKeepsSuffix(s: State, p: ProcessId, k: int)
    requires WellFormed(s) && Enabled(s, Fork(p)) && SuffixOk(s, k) && 0 < k
    ensures SuffixOk(Step(s, Fork(p)), k)
  {
    var t := Step(s, Fork(p));
    assert Free(t, k) == Free(s, k) && Leaked(t) == Leaked(s) && Scanners(t, k) == Scanners(s, k);
  }

  lemma ForkFindsRoom(s: State, p: ProcessId)
    requires Owned(s) && Counted(s) && WellFormed(s) && Enabled(s, Fork(p))
    ensures SuffixOk(Step(s, Fork(p)), 0)
  {
    var t := Step(s, Fork(p));
    FreeOrHeld(s);
    assert Free(t, 0) == Free(s, 0) && Leaked(t) == Leaked(s) && Scanners(t, 0) == Scanners(s, 0) + {p};
  }

  lemma ForkKeepsSuffixes(s: State, p: ProcessId)
    requires Owned(s) && Counted(s) && WellFormed(s) && Suffixes(s) && Enabled(s, Fork(p))
    ensures Suffixes(Step(s, Fork(p)))
  {
    ForkFindsRoom(s, p);
    forall k | 0 < k <= MAX_CLIENTS
      ensures SuffixOk(Step(s, Fork(p)), k)
    {
      assert SuffixOk(s, k);
      ForkKeepsSuffix(s, p, k);
    }
  }

  lemma WipeKeepsSuffixes(s: State, p: ProcessId, i: nat, f: Field)
    requires Owned(s) && WellFormed(s) && Suffixes(s) && p in s.workers && i < MAX_CLIENTS
    requires s.workers[p].phase == Releasing(i, f)
    ensures var t := WipeNext(s, p, i, f); |t.slots| == |t.holder| == MAX_CLIENTS && Suffixes(t)
  {
    assert WorkerOk(s, p);
    SuffixMonotone(s, WipeNext(s, p, i, f));
  }

  lemma AddKeepsSuffixes(s: State, p: ProcessId, i: nat, up: nat, down: nat, step: AddStep)
    requires Owned(s) && WellFormed(s) && Suffixes(s) && p in s.workers && i < MAX_CLIENTS
    requires s.workers[p].phase == Adding(i, up, down, step)
    ensures var t := AddNext(s, p, i, up, down, step); |t.slots| == |t.holder| == MAX_CLIENTS && Suffixes(t)
  {
    assert WorkerOk(s, p) && SlotOk(s, i);
    SuffixMonotone(s, AddNext(s, p, i, up, down, step));
  }

  lemma ClaimKeepsSuffixes(s: State, p: ProcessId, i: nat, f: Field, value: nat)
    requires Owned(s) && WellFormed(s) && Suffixes(s) && p in s.workers && i < MAX_CLIENTS
    requires s.workers[p].phase == Claiming(i, f)
    ensures var t := ClaimNext(s, p, i, f, value); |t.slots| == |t.holder| == MAX_CLIENTS && Suffixes(t)
  {
    assert WorkerOk(s, p) && SlotOk(s, i);
    SuffixMonotone(s, ClaimNext(s, p, i, f, value));
  }

  lemma WorkerKeepsSuffixes(s: State, p: ProcessId, value: nat)
    requires Owned(s) && WellFormed(s) && Suffixes(s) && Enabled(s, WorkerStep(p, value))
    ensures var t := WorkerNext(s, p, value); |t.slots| == |t.holder| == MAX_CLIENTS && Suffixes(t)
  {
    assert WorkerOk(s, p);
    match s.workers[p].phase {
      case Scanning(at) =>
        if at >= MAX_CLIENTS {
          SuffixMonotone(s, ScanNext(s, p, at));
        } else if s.slots[at].active {
          AdvanceKeepsSuffixes(s, p, at);
        } else {
          TakeKeepsSuffixes(s, p, at);
        }
      case Releasing(i, f) => WipeKeepsSuffixes(s, p, i, f);
      case Adding(i, up, down, step) => AddKeepsSuffixes(s, p, i, up, down, step);
      case Claiming(i, f) => ClaimKeepsSuffixes(s, p, i, f, value);
      case Starting => SuffixMonotone(s, WorkerNext(s, p, value));
      case Exited => SuffixMonotone(s, WorkerNext(s, p, value));
      case Running(_) =>
    }
  }

  lemma HandlerKeepsSuffixes(s: State)
    requires Owned(s) && WellFormed(s) && Suffixes(s) && Enabled(s, HandlerStep)
    ensures |HandlerNext(s).slots| == |HandlerNext(s).holder| == MAX_CLIENTS && Suffixes(HandlerNext(s))
  {
    if s.handler.Wiping? {
      assert WorkerOk(s, s.handler.pid);
    }
    SuffixMonotone(s, HandlerNext(s));
  }

  lemma ParentKeepsSuffixes(s: State, t: State)
    requires |s.slots| == |s.holder| == MAX_CLIENTS && Suffixes(s) && ParentMoves(s, t)
    ensures |t.slots| == |t.holder| == MAX_CLIENTS && Suffixes(t)
  {
    SuffixMonotone(s, t);
  }

  /** Calls, deaths and reaping make no scanner; a death in a window frees a slot of its holder. */
  lemma OneWorkerKeepsSuffixes(s: State, a: Action)
    requires Owned(s) && WellFormed(s) && Suffixes(s) && Enabled(s, a) && OfOneWorker(a)
    ensures |Step(s, a).slots| == |Step(s, a).holder| == MAX_CLIENTS && Suffixes(Step(s, a))
  {
    OneWorkerSteps(s, a, Actor(a));
    assert WorkerOk(s, Actor(a));
    SuffixMonotone(s, Step(s, a));
  }

  lemma StepKeepsSuffixes(s: State, a: Action)
    requires Owned(s) && Counted(s) && WellFormed(s) && Suffixes(s) && Enabled(s, a)
    ensures |Step(s, a).slots| == |Step(s, a).holder| == MAX_CLIENTS && Suffixes(Step(s, a))
  {
    if a.Fork? {
      ForkKeepsSuffixes(s, a.child);
    } else if a.HandlerStep? {
      HandlerKeepsSuffixes(s);
    } else if a.WorkerStep? {
      WorkerKeepsSuffixes(s, a.p, a.value);
    } else if OfParent(a) {
      ParentSteps(s, a);
      ParentKeepsSuffixes(s, Step(s, a));
    } else {
      OneWorkerKeepsSuffixes(s, a);
    }
  }
}
