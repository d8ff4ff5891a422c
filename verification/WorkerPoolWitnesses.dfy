/** Runs from the empty table that leak a slot, one through each of the two windows, and one in which
    a leaked slot makes a claim fail. */
module WorkerPoolWitnesses {
  import opened Wrappers
  import opened StatsTable
  import opened WorkerPool
  import opened WorkerPoolCounting
  import opened WorkerPoolSafety

  /** A run and the state it leads to. */
  datatype Trail = Trail(acts: seq<Action>, s: State)

  /** It is a run from the empty table with that many kills in a window. */
  ghost predicate Leads(r: Trail, kills: nat) {
    Run(Init(), r.acts, r.s) && WellFormed(r.s) && WindowKills(r.acts) == kills
  }

  function Then(r: Trail, a: Action): Trail
    requires WellFormed(r.s) && Enabled(r.s, a)
  {
    Trail(r.acts + [a], Step(r.s, a))
  }

  lemma {:induction false} GoesOn(r: Trail, a: Action, kills: nat)
    requires Leads(r, kills) && Enabled(r.s, a)
    ensures Leads(Then(r, a), kills + if KillsInWindow(r.s, a) then 1 else 0)
  {
    var t := Then(r, a);
    assert t.acts[..|r.acts|] == r.acts;
    RunEndsThere(r.acts, r.s);
    RunKeepsInv(t.acts, t.s);
  }

  lemma {:induction false} EmptyRun()
    ensures Leads(Trail([], Init()), 0)
  {
  }

  // ---- the two windows ----

  const CHILD: ProcessId := 2

  lemma {:induction false} MainGoesOn(r: Trail, kills: nat) returns (t: Trail)
    requires Leads(r, kills) && r.s.handler.Idle? && !r.s.main.MaskedToFork?
    ensures Leads(t, kills) && t.s == MainNext(r.s)
  {
    GoesOn(r, MainStep, kills);
    t := Then(r, MainStep);
  }

  /** The accept loop takes a client as far as the fork. */
  lemma {:induction false} AcceptRun(r: Trail, kills: nat) returns (t: Trail)
    requires Leads(r, kills) && r.s.main.Waiting? && r.s.handler.Idle? && r.s.activeClients < MAX_CLIENTS
    ensures Leads(t, kills) && t.s == r.s.(main := MaskedToFork)
  {
    t := MainGoesOn(r, kills);
    t := MainGoesOn(t, kills);
    t := MainGoesOn(t, kills);
  }

  /** It forks the worker, counts it, and waits for the next client. */
  lemma {:induction false} ForkRun(r: Trail, p: ProcessId, kills: nat) returns (t: Trail)
    requires Leads(r, kills) && r.s.main.Waiting? && r.s.handler.Idle? && r.s.activeClients < MAX_CLIENTS
    requires p !in r.s.workers
    ensures Leads(t, kills)
    ensures t.s == r.s.(workers := r.s.workers[p := Worker(Live, Starting, 0, 0)],
                        activeClients := r.s.activeClients + 1)
  {
    t := AcceptRun(r, kills);
    GoesOn(t, Fork(p), kills);
    t := Then(t, Fork(p));
    t := MainGoesOn(t, kills);
    t := MainGoesOn(t, kills);
  }

  /** The first worker swaps slot 0. */
  lemma {:induction false} SwapRun() returns (r: Trail)
    ensures Leads(r, 0) && r.s.workers == map[CHILD := Worker(Live, Claiming(0, DestField), 0, 0)]
    ensures r.s.main.Waiting? && r.s.handler.Idle? && r.s.activeClients == 1
    ensures r.s.slots == Init().slots[0 := EMPTY.(active := true)]
  {
    EmptyRun();
    r := ForkRun(Trail([], Init()), CHILD, 0);
    var a := WorkerStep(CHILD, 0);
    GoesOn(r, a, 0);
    r := Then(r, a);
    GoesOn(r, a, 0);
    r := Then(r, a);
  }

  /** A first kill in a window leaks one slot. */
  lemma {:induction false} KillLeaksOne(r: Trail) returns (t: State)
    requires Leads(r, 0) && IsLive(r.s, CHILD) && InWindow(r.s.workers[CHILD].phase)
    ensures Run(Init(), r.acts + [Kill(CHILD)], t) && WindowKills(r.acts + [Kill(CHILD)]) == 1
    ensures |t.slots| == |t.holder| == MAX_CLIENTS && |Leaked(t)| == 1
  {
    t := Step(r.s, Kill(CHILD));
    GoesOn(r, Kill(CHILD), 0);
    LeaksCountWindowKills(r.acts + [Kill(CHILD)], t);
  }

  /** The claim window: the worker is killed right after its swap. */
  lemma {:induction false} ClaimWindowLeaks() returns (r: Trail, t: State)
    ensures Run(Init(), r.acts, r.s) && IsLive(r.s, CHILD) && r.s.workers[CHILD].phase.Claiming?
    ensures Run(Init(), r.acts + [Kill(CHILD)], t) && WindowKills(r.acts + [Kill(CHILD)]) == 1
    ensures |t.slots| == |t.holder| == MAX_CLIENTS && |Leaked(t)| == 1
  {
    r := SwapRun();
    t := KillLeaksOne(r);
  }

  lemma ClaimStep(s: State, p: ProcessId, i: nat, f: Field)
    requires WellFormed(s) && IsLive(s, p) && s.workers[p].phase == Claiming(i, f)
    ensures var t := Step(s, WorkerStep(p, 0));
      IsLive(t, p) && t.workers[p].phase == if NextClaim(f).Some? then Claiming(i, NextClaim(f).value) else Running(i)
  {
  }

  lemma WipeStep(s: State, p: ProcessId, i: nat, f: Field)
    requires WellFormed(s) && IsLive(s, p) && s.workers[p].phase == Releasing(i, f) && NextWipe(f).Some?
    ensures var t := Step(s, WorkerStep(p, 0));
      IsLive(t, p) && t.workers[p].phase == Releasing(i, NextWipe(f).value)
  {
  }

  /** Undisturbed, a claim ends with the slot. */
  lemma {:induction false} ClaimGoesOn(r: Trail, p: ProcessId, i: nat, f: Field) returns (t: Trail)
    requires Leads(r, 0) && IsLive(r.s, p) && r.s.workers[p].phase == Claiming(i, f)
    ensures Leads(t, 0) && IsLive(t.s, p) && t.s.workers[p].phase == Running(i)
    decreases ClaimPlace(f)
  {
    ClaimStep(r.s, p, i, f);
    GoesOn(r, WorkerStep(p, 0), 0);
    t := Then(r, WorkerStep(p, 0));
    if NextClaim(f).Some? {
      t := ClaimGoesOn(t, p, i, NextClaim(f).value);
    }
  }

  /** Undisturbed, a release goes on through the store of the pid. */
  lemma {:induction false} WipeGoesOn(r: Trail, p: ProcessId, i: nat, f: Field) returns (t: Trail)
    requires Leads(r, 0) && IsLive(r.s, p) && r.s.workers[p].phase == Releasing(i, f) && !PidWiped(f)
    ensures Leads(t, 0) && IsLive(t.s, p) && t.s.workers[p].phase == Releasing(i, StartField)
    decreases WipePlace(f)
  {
    WipeStep(r.s, p, i, f);
    GoesOn(r, WorkerStep(p, 0), 0);
    t := Then(r, WorkerStep(p, 0));
    if !f.PidField? {
      t := WipeGoesOn(t, p, i, NextWipe(f).value);
    }
  }

  /** A worker that has its slot begins to release it. */
  lemma {:induction false} ReleaseBegins(r: Trail, p: ProcessId, i: nat) returns (t: Trail)
    requires Leads(r, 0) && IsLive(r.s, p) && r.s.workers[p].phase == Running(i)
    ensures Leads(t, 0) && IsLive(t.s, p) && t.s.workers[p].phase == Releasing(i, UpField)
  {
    OwnerPassesGuards(r.acts, r.s, p);
    GoesOn(r, BeginRelease(p), 0);
    t := Then(r, BeginRelease(p));
  }

  /** The release window: the worker is killed after it has erased its pid. */
  lemma {:induction false} ReleaseWindowLeaks() returns (r: Trail, t: State)
    ensures Run(Init(), r.acts, r.s) && IsLive(r.s, CHILD) && r.s.workers[CHILD].phase.Releasing?
    ensures Run(Init(), r.acts + [Kill(CHILD)], t) && WindowKills(r.acts + [Kill(CHILD)]) == 1
    ensures |t.slots| == |t.holder| == MAX_CLIENTS && |Leaked(t)| == 1
  {
    r := SwapRun();
    r := ClaimGoesOn(r, CHILD, 0, DestField);
    r := ReleaseBegins(r, CHILD, 0);
    r := WipeGoesOn(r, CHILD, 0, UpField);
    t := KillLeaksOne(r);
  }

  // ---- a leaked slot makes a claim fail ----

  /** The handler passes over a slot that is not the child's. */
  lemma {:induction false} HandlerPassesOne(r: Trail, p: ProcessId, at: nat, kills: nat) returns (t: Trail)
    requires Leads(r, kills) && r.s.handler == TestActive(p, at) && r.s.slots[at].pid != p
    ensures Leads(t, kills) && t.s == r.s.(handler := ScanSlot(p, at + 1))
  {
    GoesOn(r, HandlerStep, kills);
    t := Then(r, HandlerStep);
    if r.s.slots[at].active {
      GoesOn(t, HandlerStep, kills);
      t := Then(t, HandlerStep);
    }
  }

  /** Its scan passes over them all. */
  lemma {:induction false} HandlerPasses(r: Trail, p: ProcessId, at: nat, kills: nat) returns (t: Trail)
    requires Leads(r, kills) && r.s.handler == TestActive(p, at)
    requires forall j :: 0 <= j < MAX_CLIENTS ==> r.s.slots[j].pid != p
    ensures Leads(t, kills) && t.s == r.s.(handler := Decrement(p))
    decreases MAX_CLIENTS - at
  {
    t := HandlerPassesOne(r, p, at, kills);
    if at + 1 < MAX_CLIENTS {
      t := HandlerPasses(t, p, at + 1, kills);
    }
  }

  /** The one worker is dead, no slot carries its pid, and the accept loop waits. */
  ghost predicate OneDead(s: State) {
    && s.workers.Keys == {CHILD} && s.workers[CHILD].life.Zombie?
    && s.main.Waiting? && s.handler.Idle? && s.activeClients == 1 && |s.slots| == MAX_CLIENTS
    && (forall j :: 0 <= j < MAX_CLIENTS ==> s.slots[j].pid != CHILD)
  }

  /** The handler finds it and begins its scan. */
  lemma {:induction false} SignalRun(r: Trail, kills: nat) returns (t: Trail)
    requires Leads(r, kills) && OneDead(r.s)
    ensures Leads(t, kills) && t.s.workers.Keys == {CHILD}
    ensures t.s == r.s.(handler := TestActive(CHILD, 0), workers := t.s.workers)
  {
    GoesOn(r, Signal, kills);
    t := Then(r, Signal);
    GoesOn(t, Reap(CHILD), kills);
    t := Then(t, Reap(CHILD));
  }

  /** It finishes with it and finds no other. */
  lemma {:induction false} ReapRun(r: Trail, kills: nat) returns (t: Trail)
    requires Leads(r, kills) && OneDead(r.s)
    ensures Leads(t, kills) && t.s == r.s.(workers := map[], activeClients := 0)
  {
    t := SignalRun(r, kills);
    t := HandlerPasses(t, CHILD, 0, kills);
    GoesOn(t, HandlerStep, kills);
    t := Then(t, HandlerStep);
    assert t.s.workers == map[];
    GoesOn(t, NoMoreDead, kills);
    t := Then(t, NoMoreDead);
  }

  /** The k-th worker after the first. */
  function Later(k: nat): ProcessId {
    CHILD + 1 + k
  }

  /** Slot 0 is leaked, `k` workers hold the next `k` slots, and the rest is free. */
  ghost predicate Crowded(s: State, k: nat) {
    && WellFormed(s) && s.main.Waiting? && s.handler.Idle? && s.activeClients == k
    && (forall j :: 0 <= j < MAX_CLIENTS ==> (s.slots[j].active <==> j <= k))
    && (forall p :: p in s.workers ==> p < Later(k))
  }

  /** One leaked slot and nothing else. */
  lemma {:induction false} LeakRun() returns (r: Trail)
    ensures Leads(r, 1) && Crowded(r.s, 0)
  {
    r := SwapRun();
    GoesOn(r, Kill(CHILD), 0);
    r := Then(r, Kill(CHILD));
    r := ReapRun(r, 1);
  }

  /** A scan passes over active slots. */
  lemma {:induction false} ScanPasses(r: Trail, p: ProcessId, at: nat, to: nat) returns (t: Trail)
    requires Leads(r, 1) && IsLive(r.s, p) && r.s.workers[p] == Worker(Live, Scanning(at), 0, 0)
      && at <= to <= MAX_CLIENTS
    requires forall j :: at <= j < to ==> r.s.slots[j].active
    ensures Leads(t, 1) && t.s == r.s.(workers := r.s.workers[p := Worker(Live, Scanning(to), 0, 0)])
    decreases MAX_CLIENTS - at
  {
    t := r;
    if at < to {
      GoesOn(r, WorkerStep(p, 0), 1);
      t := ScanPasses(Then(r, WorkerStep(p, 0)), p, at + 1, to);
    }
  }

  lemma Overwritten(workers: map<ProcessId, Worker>, p: ProcessId, w: Worker, v: Worker)
    ensures workers[p := w][p := v] == workers[p := v]
  {
  }

  /** The next worker begins its claim. */
  lemma {:induction false} NextBegins(r: Trail, p: ProcessId) returns (t: Trail)
    requires Leads(r, 1) && r.s.main.Waiting? && r.s.handler.Idle? && r.s.activeClients < MAX_CLIENTS
    requires p !in r.s.workers
    ensures Leads(t, 1)
    ensures t.s == r.s.(workers := r.s.workers[p := Worker(Live, Scanning(0), 0, 0)],
                        activeClients := r.s.activeClients + 1)
  {
    t := ForkRun(r, p, 1);
    GoesOn(t, WorkerStep(p, 0), 1);
    t := Then(t, WorkerStep(p, 0));
    Overwritten(r.s.workers, p, Worker(Live, Starting, 0, 0), Worker(Live, Scanning(0), 0, 0));
  }

  /** When the first slots are taken, the next worker scans over them. */
  lemma {:induction false} NextScans(r: Trail, p: ProcessId, taken: nat) returns (t: Trail)
    requires Leads(r, 1) && r.s.main.Waiting? && r.s.handler.Idle? && r.s.activeClients < MAX_CLIENTS
    requires p !in r.s.workers && taken <= MAX_CLIENTS && forall j :: 0 <= j < taken ==> r.s.slots[j].active
    ensures Leads(t, 1)
    ensures t.s == r.s.(workers := r.s.workers[p := Worker(Live, Scanning(taken), 0, 0)],
                        activeClients := r.s.activeClients + 1)
  {
    var begun := NextBegins(r, p);
    Overwritten(r.s.workers, p, Worker(Live, Scanning(0), 0, 0), Worker(Live, Scanning(taken), 0, 0));
    t := ScanPasses(begun, p, 0, taken);
  }

  /** Worker after worker takes the first free slot, until none is left. */
  lemma {:induction false} CrowdRun(r: Trail, k: nat) returns (t: Trail)
    requires Leads(r, 1) && Crowded(r.s, k) && k < MAX_CLIENTS
    ensures Leads(t, 1) && Crowded(t.s, MAX_CLIENTS - 1)
    decreases MAX_CLIENTS - k
  {
    t := r;
    if k + 1 < MAX_CLIENTS {
      t := NextScans(r, Later(k), k + 1);
      GoesOn(t, WorkerStep(Later(k), 0), 1);
      t := CrowdRun(Then(t, WorkerStep(Later(k), 0)), k + 1);
    }
  }

  /** After one kill in a window, the 128th of the workers that live at the same time finds no slot. */
  lemma {:induction false} FailedClaimHappens() returns (r: Trail, p: ProcessId)
    ensures Run(Init(), r.acts, r.s) && WindowKills(r.acts) == 1
    ensures Failed(r.s, p) && IsLive(r.s, p) && r.s.activeClients == 128
  {
    p := Later(MAX_CLIENTS - 1);
    r := LeakRun();
    r := CrowdRun(r, 0);
    r := NextScans(r, p, MAX_CLIENTS);
    GoesOn(r, WorkerStep(p, 0), 1);
    r := Then(r, WorkerStep(p, 0));
  }
}
