/** What becomes of the bytes that workers report to fp_stats_add, whatever else runs meanwhile. */
module WorkerPoolAdds {
  import opened Wrappers
  import opened StatsTable
  import opened WorkerPool
  import opened WorkerPoolOwnership
  import opened WorkerPoolCounting
  import opened WorkerPoolSafety

  // ---- one call, from its start to its return ----

  /** The action is the worker's own and starts another call, or kills it. */
  predicate Disturbs(a: Action, p: ProcessId) {
    (a.BeginAdd? || a.BeginRelease? || a.Kill?) && a.p == p
  }

  /** The counters of a slot have grown by what the call has stored at this point of it. */
  predicate StoredSo(x: Slot, was: Slot, up: nat, down: nat, phase: Phase) {
    && x == was.(up := x.up, down := x.down)
    && match phase
       case Adding(_, u, d, step) =>
         && u == up && d == down
         && x.up == was.up + (if step.CheckActive? || step.CheckPid? || step.LoadUp? || step.StoreUp? then 0 else up)
         && x.down == was.down + if step.TotalDown? then down else 0
       case _ => x.up == was.up + up && x.down == was.down + down
  }

  /** Worker `p` is inside the call on slot `i`, or back from it. */
  predicate InCall(s: State, p: ProcessId, i: nat, was: Slot, up: nat, down: nat) {
    && WellFormed(s) && i < MAX_CLIENTS && IsLive(s, p)
    && (s.workers[p].phase == Running(i) || (s.workers[p].phase.Adding? && s.workers[p].phase.slot == i))
    && StoredSo(s.slots[i], was, up, down, s.workers[p].phase)
  }

  lemma CallStep(s: State, p: ProcessId, i: nat, was: Slot, up: nat, down: nat, value: nat)
    requires Owned(s) && InCall(s, p, i, was, up, down) && Enabled(s, WorkerStep(p, value))
    ensures InCall(WorkerNext(s, p, value), p, i, was, up, down)
  {
    assert WorkerOk(s, p) && SlotOk(s, i);
    StepKeepsOwned(s, WorkerStep(p, value));
  }

  /** Worker `p` holds slot `i` and is not about to give it up. */
  predicate Keeps(s: State, p: ProcessId, i: nat) {
    && Owned(s) && WellFormed(s) && IsLive(s, p) && i < MAX_CLIENTS && Holds(s.workers[p].phase) == Some(i)
    && (s.workers[p].phase.Running? || s.workers[p].phase.Adding?)
  }

  predicate LeftAlone(s: State, t: State, p: ProcessId, i: nat)
    requires p in s.workers && i < |s.slots|
  {
    p in t.workers && t.workers[p] == s.workers[p] && |t.slots| == |s.slots| && t.slots[i] == s.slots[i]
  }

  lemma WorkerLeavesSlot(s: State, q: ProcessId, value: nat, p: ProcessId, i: nat)
    requires Keeps(s, p, i) && Enabled(s, WorkerStep(q, value)) && q != p
    ensures LeftAlone(s, WorkerNext(s, q, value), p, i)
  {
    assert WorkerOk(s, p) && WorkerOk(s, q) && SlotOk(s, i);
  }

  lemma HandlerLeavesSlot(s: State, p: ProcessId, i: nat)
    requires Keeps(s, p, i) && Enabled(s, HandlerStep)
    ensures LeftAlone(s, HandlerNext(s), p, i)
  {
    assert WorkerOk(s, p) && WorkerOk(s, HandlerChild(s.handler).value) && SlotOk(s, i);
  }

  /** Nobody else touches the slot or the worker. */
  lemma OthersLeaveSlot(s: State, a: Action, p: ProcessId, i: nat)
    requires Owned(s) && WellFormed(s) && Enabled(s, a) && IsLive(s, p) && i < MAX_CLIENTS
    requires Holds(s.workers[p].phase) == Some(i) && !Disturbs(a, p) && !(a.WorkerStep? && a.p == p)
    requires s.workers[p].phase.Running? || s.workers[p].phase.Adding?
    ensures var t := Step(s, a); p in t.workers && t.workers[p] == s.workers[p] && t.slots[i] == s.slots[i]
  {
    if a.WorkerStep? {
      WorkerLeavesSlot(s, a.p, a.value, p, i);
    } else if a.HandlerStep? {
      HandlerLeavesSlot(s, p, i);
    } else if OfOneWorker(a) {
      OneWorkerSteps(s, a, Actor(a));
    } else if OfParent(a) {
      ParentSteps(s, a);
    }
  }

  lemma CallGoesOn(s: State, a: Action, p: ProcessId, i: nat, was: Slot, up: nat, down: nat)
    requires Owned(s) && InCall(s, p, i, was, up, down) && Enabled(s, a) && !Disturbs(a, p)
    ensures InCall(Step(s, a), p, i, was, up, down)
  {
    if a.WorkerStep? && a.p == p {
      CallStep(s, p, i, was, up, down, a.value);
    } else {
      OthersLeaveSlot(s, a, p, i);
      StepKeepsOwned(s, a);
    }
  }

  lemma CallBegins(s: State, p: ProcessId, i: nat, up: nat, down: nat)
    requires Owned(s) && WellFormed(s) && IsLive(s, p) && s.workers[p].phase == Running(i)
    ensures i < MAX_CLIENTS && InCall(Step(s, BeginAdd(p, up, down)), p, i, s.slots[i], up, down)
  {
    assert WorkerOk(s, p) && SlotOk(s, i);
    StepKeepsOwned(s, BeginAdd(p, up, down));
  }

  lemma {:induction false} RunKeepsOwned(s: State, acts: seq<Action>, t: State)
    requires Owned(s) && Run(s, acts, t)
    ensures Owned(t)
    decreases |acts|
  {
    if acts != [] {
      var front, a := acts[..|acts| - 1], acts[|acts| - 1];
      var m :| Run(s, front, m) && WellFormed(m) && Enabled(m, a) && t == Step(m, a);
      RunKeepsOwned(s, front, m);
      StepKeepsOwned(m, a);
    }
  }

  lemma {:induction false} CallRuns(s: State, acts: seq<Action>, t: State,
                                    p: ProcessId, i: nat, was: Slot, up: nat, down: nat)
    requires Owned(s) && Run(s, acts, t) && InCall(s, p, i, was, up, down)
    requires forall k :: 0 <= k < |acts| ==> !Disturbs(acts[k], p)
    ensures InCall(t, p, i, was, up, down)
    decreases |acts|
  {
    if acts != [] {
      var front, a := acts[..|acts| - 1], acts[|acts| - 1];
      var m :| Run(s, front, m) && WellFormed(m) && Enabled(m, a) && t == Step(m, a);
      assert forall k :: 0 <= k < |front| ==> front[k] == acts[k];
      CallRuns(s, front, m, p, i, was, up, down);
      RunKeepsOwned(s, front, m);
      CallGoesOn(m, a, p, i, was, up, down);
    }
  }

  /** In every run: from a call of fp_stats_add by a worker that holds slot `i` to its return,
      whatever the other workers, the accept loop and the handler do meanwhile, the slot gains
      exactly the bytes reported, and nothing else in it changes. */
  lemma {:induction false} AddsExactly(acts: seq<Action>, s: State, p: ProcessId, i: nat, up: nat, down: nat,
                                       rest: seq<Action>, t: State)
    requires Run(Init(), acts, s) && WellFormed(s) && IsLive(s, p) && s.workers[p].phase == Running(i)
    requires Run(Step(s, BeginAdd(p, up, down)), rest, t)
    requires forall k :: 0 <= k < |rest| ==> !Disturbs(rest[k], p)
    ensures |s.slots| == |t.slots| == MAX_CLIENTS && i < MAX_CLIENTS && IsLive(t, p)
    ensures t.workers[p].phase.Running? ==>
      t.slots[i] == s.slots[i].(up := s.slots[i].up + up, down := s.slots[i].down + down)
  {
    RunKeepsInv(acts, s);
    CallBegins(s, p, i, up, down);
    StepKeepsOwned(s, BeginAdd(p, up, down));
    CallRuns(Step(s, BeginAdd(p, up, down)), rest, t, p, i, s.slots[i], up, down);
  }

  // ---- one call by itself ----

  function AddRank(phase: Phase): nat {
    if !phase.Adding? then 0
    else
      match phase.step
      case CheckActive => 8
      case CheckPid => 7
      case LoadUp => 6
      case StoreUp(_) => 5
      case TotalUp => 4
      case LoadDown => 3
      case StoreDown(_) => 2
      case TotalDown => 1
  }

  /** The bytes of a call that the totals have at this point of it. */
  predicate TotalledSo(s: State, t: State, p: ProcessId, up: nat, down: nat)
    requires p in t.workers
  {
    match t.workers[p].phase
    case Adding(_, _, _, step) =>
      && t.totalUp == s.totalUp + (if step.LoadDown? || step.StoreDown? || step.TotalDown? then up else 0)
      && t.totalDown == s.totalDown
    case _ => t.totalUp == s.totalUp + up && t.totalDown == s.totalDown + down
  }

  /** Only the worker, its slot and the totals have changed. */
  predicate OnlyCalled(s: State, t: State, p: ProcessId, i: nat)
    requires p in t.workers && |s.slots| == |t.slots| == MAX_CLIENTS && i < MAX_CLIENTS
  {
    t == s.(workers := s.workers[p := t.workers[p]], slots := s.slots[i := t.slots[i]],
            totalUp := t.totalUp, totalDown := t.totalDown)
  }

  /** Where a call stands that nobody interrupts. */
  predicate Alone(s: State, t: State, p: ProcessId, i: nat, up: nat, down: nat) {
    && |s.slots| == MAX_CLIENTS && i < MAX_CLIENTS && InCall(t, p, i, s.slots[i], up, down)
    && TotalledSo(s, t, p, up, down) && OnlyCalled(s, t, p, i)
  }

  lemma AloneTotals(s: State, t: State, p: ProcessId, i: nat, up: nat, down: nat)
    requires Owned(t) && Alone(s, t, p, i, up, down) && t.workers[p].phase.Adding?
    ensures var u := WorkerNext(t, p, 0);
      p in u.workers && TotalledSo(s, u, p, up, down) && AddRank(u.workers[p].phase) < AddRank(t.workers[p].phase)
  {
    assert WorkerOk(t, p) && SlotOk(t, i);
  }

  lemma AloneChanges(s: State, t: State, p: ProcessId, i: nat, up: nat, down: nat)
    requires Alone(s, t, p, i, up, down) && t.workers[p].phase.Adding?
    ensures var u := WorkerNext(t, p, 0);
      p in u.workers && |u.slots| == MAX_CLIENTS && OnlyCalled(s, u, p, i)
  {
  }

  lemma AloneStep(s: State, t: State, p: ProcessId, i: nat, up: nat, down: nat)
    requires Owned(t) && Alone(s, t, p, i, up, down) && t.workers[p].phase.Adding?
    ensures Enabled(t, WorkerStep(p, 0))
    ensures var u := Step(t, WorkerStep(p, 0));
      Alone(s, u, p, i, up, down) && AddRank(u.workers[p].phase) < AddRank(t.workers[p].phase)
  {
    AloneTotals(s, t, p, i, up, down);
    AloneChanges(s, t, p, i, up, down);
    CallStep(t, p, i, s.slots[i], up, down, 0);
  }

  lemma {:induction false} OneMore(s: State, acts: seq<Action>, t: State, a: Action)
    requires Run(s, acts, t) && WellFormed(t) && Enabled(t, a)
    ensures Run(s, acts + [a], Step(t, a))
  {
    assert (acts + [a])[..|acts|] == acts;
  }

  lemma {:induction false} AloneRuns(s: State, front: seq<Action>, m: State, p: ProcessId, i: nat, up: nat, down: nat)
    returns (acts: seq<Action>, t: State)
    requires Owned(m) && Run(s, front, m) && Alone(s, m, p, i, up, down)
    ensures Run(s, acts, t) && Owned(t) && Alone(s, t, p, i, up, down) && t.workers[p].phase == Running(i)
    decreases AddRank(m.workers[p].phase)
  {
    acts, t := front, m;
    if m.workers[p].phase.Adding? {
      var a := WorkerStep(p, 0);
      AloneStep(s, m, p, i, up, down);
      StepKeepsOwned(m, a);
      OneMore(s, front, m, a);
      acts, t := AloneRuns(s, front + [a], Step(m, a), p, i, up, down);
    }
  }

  lemma AloneBegins(s: State, p: ProcessId, i: nat, up: nat, down: nat)
    requires Owned(s) && WellFormed(s) && IsLive(s, p) && s.workers[p].phase == Running(i)
    ensures Alone(s, Step(s, BeginAdd(p, up, down)), p, i, up, down)
  {
    CallBegins(s, p, i, up, down);
  }

  /** What StatsMap.Add promises. */
  predicate Added(s: State, t: State, i: nat, up: nat, down: nat) {
    && |s.slots| == MAX_CLIENTS && i < MAX_CLIENTS
    && t == s.(slots := s.slots[i := s.slots[i].(up := s.slots[i].up + up, down := s.slots[i].down + down)],
               totalUp := s.totalUp + up, totalDown := s.totalDown + down)
  }

  lemma AloneEnds(s: State, t: State, p: ProcessId, i: nat, up: nat, down: nat)
    requires Owned(s) && Owned(t) && Alone(s, t, p, i, up, down) && t.workers[p].phase == Running(i)
    requires IsLive(s, p) && s.workers[p].phase == Running(i)
    ensures Added(s, t, i, up, down)
  {
    assert WorkerOk(s, p) && WorkerOk(t, p);
    assert t.workers[p] == s.workers[p];
    assert s.workers[p := s.workers[p]] == s.workers;
  }

  /** A call that nobody interrupts comes to its end and leaves what StatsMap.Add promises: the
      slot and the totals have the bytes, and nothing else has changed. */
  lemma {:induction false} AddAlone(s: State, p: ProcessId, i: nat, up: nat, down: nat)
    returns (acts: seq<Action>, t: State)
    requires Owned(s) && WellFormed(s) && IsLive(s, p) && s.workers[p].phase == Running(i)
    ensures Run(s, acts, t) && Added(s, t, i, up, down)
  {
    AloneBegins(s, p, i, up, down);
    StepKeepsOwned(s, BeginAdd(p, up, down));
    OneMore(s, [], s, BeginAdd(p, up, down));
    acts, t := AloneRuns(s, [] + [BeginAdd(p, up, down)], Step(s, BeginAdd(p, up, down)), p, i, up, down);
    AloneEnds(s, t, p, i, up, down);
  }

  // ---- the totals over a whole run ----

  /** Bytes that a live worker has reported and not yet added to the total. */
  function StillUp(w: Worker): nat {
    if w.life.Live? && w.phase.Adding?
      && (w.phase.step.CheckActive? || w.phase.step.CheckPid? || w.phase.step.LoadUp? || w.phase.step.StoreUp?
          || w.phase.step.TotalUp?)
    then w.phase.up else 0
  }

  function StillDown(w: Worker): nat {
    if w.life.Live? && w.phase.Adding? then w.phase.down else 0
  }

  ghost function Sum(ws: map<ProcessId, Worker>, ps: set<ProcessId>, f: Worker -> nat): nat
    requires ps <= ws.Keys
  {
    if ps == {} then 0 else var p :| p in ps; f(ws[p]) + Sum(ws, ps - {p}, f)
  }

  lemma {:induction false} SumSplit(ws: map<ProcessId, Worker>, ps: set<ProcessId>, f: Worker -> nat, p: ProcessId)
    requires ps <= ws.Keys && p in ps
    ensures Sum(ws, ps, f) == f(ws[p]) + Sum(ws, ps - {p}, f)
    decreases ps
  {
    var q :| q in ps && Sum(ws, ps, f) == f(ws[q]) + Sum(ws, ps - {q}, f);
    if q != p {
      SumSplit(ws, ps - {q}, f, p);
      SumSplit(ws, ps - {p}, f, q);
      assert ps - {q} - {p} == ps - {p} - {q};
    }
  }

  lemma {:induction false} SumAgree(ws: map<ProcessId, Worker>, vs: map<ProcessId, Worker>, ps: set<ProcessId>,
                                    f: Worker -> nat)
    requires ps <= ws.Keys && ps <= vs.Keys && forall p :: p in ps ==> f(ws[p]) == f(vs[p])
    ensures Sum(ws, ps, f) == Sum(vs, ps, f)
    decreases ps
  {
    if ps != {} {
      var p :| p in ps;
      SumSplit(ws, ps, f, p);
      SumSplit(vs, ps, f, p);
      SumAgree(ws, vs, ps - {p}, f);
    }
  }

  /** One worker changes. */
  lemma SumChange(ws: map<ProcessId, Worker>, vs: map<ProcessId, Worker>, f: Worker -> nat, p: ProcessId)
    requires p in ws && vs.Keys == ws.Keys && forall q :: q in ws && q != p ==> vs[q] == ws[q]
    ensures Sum(vs, vs.Keys, f) + f(ws[p]) == Sum(ws, ws.Keys, f) + f(vs[p])
  {
    SumSplit(ws, ws.Keys, f, p);
    SumSplit(vs, vs.Keys, f, p);
    SumAgree(ws, vs, ws.Keys - {p}, f);
  }

  /** A worker comes or goes. */
  lemma SumGrow(ws: map<ProcessId, Worker>, vs: map<ProcessId, Worker>, f: Worker -> nat, p: ProcessId)
    requires p !in ws && vs.Keys == ws.Keys + {p} && forall q :: q in ws ==> vs[q] == ws[q]
    ensures Sum(vs, vs.Keys, f) == Sum(ws, ws.Keys, f) + f(vs[p])
  {
    SumSplit(vs, vs.Keys, f, p);
    assert vs.Keys - {p} == ws.Keys;
    SumAgree(ws, vs, ws.Keys, f);
  }

  /** The call reports bytes: its worker's claim has not failed. */
  predicate Reports(s: State, a: Action) {
    a.BeginAdd? && IsLive(s, a.p) && s.workers[a.p].phase.Running? && s.workers[a.p].phase.result >= 0
  }

  function ReportedUp(s: State, a: Action): nat {
    if Reports(s, a) then a.up else 0
  }

  function ReportedDown(s: State, a: Action): nat {
    if Reports(s, a) then a.down else 0
  }

  /** What a kill keeps out of the totals. */
  function CutUp(s: State, a: Action): nat {
    if a.Kill? && IsLive(s, a.p) then StillUp(s.workers[a.p]) else 0
  }

  function CutDown(s: State, a: Action): nat {
    if a.Kill? && IsLive(s, a.p) then StillDown(s.workers[a.p]) else 0
  }

  /** The books of one step. */
  ghost predicate Booked(s: State, t: State, a: Action) {
    && t.totalUp + Sum(t.workers, t.workers.Keys, StillUp) + CutUp(s, a)
       == s.totalUp + Sum(s.workers, s.workers.Keys, StillUp) + ReportedUp(s, a)
    && t.totalDown + Sum(t.workers, t.workers.Keys, StillDown) + CutDown(s, a)
       == s.totalDown + Sum(s.workers, s.workers.Keys, StillDown) + ReportedDown(s, a)
  }

  /** What a step does to the totals and to one worker balances. */
  predicate BalancedAt(s: State, t: State, a: Action, p: ProcessId)
    requires p in s.workers && p in t.workers
  {
    && t.totalUp + StillUp(t.workers[p]) + CutUp(s, a) == s.totalUp + StillUp(s.workers[p]) + ReportedUp(s, a)
    && t.totalDown + StillDown(t.workers[p]) + CutDown(s, a)
       == s.totalDown + StillDown(s.workers[p]) + ReportedDown(s, a)
  }

  lemma BooksChange(s: State, t: State, a: Action, p: ProcessId)
    requires p in s.workers && t.workers.Keys == s.workers.Keys
    requires forall q :: q in s.workers && q != p ==> t.workers[q] == s.workers[q]
    requires BalancedAt(s, t, a, p)
    ensures Booked(s, t, a)
  {
    SumChange(s.workers, t.workers, StillUp, p);
    SumChange(s.workers, t.workers, StillDown, p);
  }

  lemma WorkerChangesOnlyItself(s: State, p: ProcessId, value: nat)
    requires WellFormed(s) && p in s.workers
    ensures var t := WorkerNext(s, p, value);
      t.workers.Keys == s.workers.Keys && forall q :: q in s.workers && q != p ==> t.workers[q] == s.workers[q]
  {
  }

  lemma AddBalances(s: State, p: ProcessId, value: nat)
    requires Owned(s) && WellFormed(s) && IsLive(s, p) && s.workers[p].phase.Adding?
    ensures BalancedAt(s, WorkerNext(s, p, value), WorkerStep(p, value), p)
  {
    assert WorkerOk(s, p) && SlotOk(s, s.workers[p].phase.slot);
  }

  lemma OtherPhasesBalance(s: State, p: ProcessId, value: nat)
    requires WellFormed(s) && IsLive(s, p) && !s.workers[p].phase.Adding?
    ensures BalancedAt(s, WorkerNext(s, p, value), WorkerStep(p, value), p)
  {
  }

  lemma WorkerStepBooked(s: State, p: ProcessId, value: nat)
    requires Owned(s) && WellFormed(s) && Enabled(s, WorkerStep(p, value))
    ensures Booked(s, WorkerNext(s, p, value), WorkerStep(p, value))
  {
    if s.workers[p].phase.Adding? {
      AddBalances(s, p, value);
    } else {
      OtherPhasesBalance(s, p, value);
    }
    WorkerChangesOnlyItself(s, p, value);
    BooksChange(s, WorkerNext(s, p, value), WorkerStep(p, value), p);
  }

  lemma OneWorkerBooked(s: State, a: Action)
    requires Owned(s) && WellFormed(s) && Enabled(s, a) && OfOneWorker(a)
    ensures Booked(s, Step(s, a), a)
  {
    var p := Actor(a);
    OneWorkerSteps(s, a, p);
    assert Step(s, a).workers == s.workers[p := Step(s, a).workers[p]];
    BooksChange(s, Step(s, a), a, p);
  }

  lemma HandlerBooked(s: State)
    requires Owned(s) && WellFormed(s) && Enabled(s, HandlerStep)
    ensures Booked(s, HandlerNext(s), HandlerStep)
  {
    var p, t := HandlerChild(s.handler).value, HandlerNext(s);
    assert WorkerOk(s, p) && s.workers[p].life.Reaped?;
    if s.handler.Decrement? {
      SumGrow(t.workers, s.workers, StillUp, p);
      SumGrow(t.workers, s.workers, StillDown, p);
    } else {
      BooksChange(s, t, HandlerStep, p);
    }
  }

  lemma ForkBooked(s: State, p: ProcessId)
    requires WellFormed(s) && Enabled(s, Fork(p))
    ensures Booked(s, Step(s, Fork(p)), Fork(p))
  {
    SumGrow(s.workers, Step(s, Fork(p)).workers, StillUp, p);
    SumGrow(s.workers, Step(s, Fork(p)).workers, StillDown, p);
  }

  lemma StepBooked(s: State, a: Action)
    requires Owned(s) && WellFormed(s) && Enabled(s, a)
    ensures Booked(s, Step(s, a), a)
  {
    if a.Fork? {
      ForkBooked(s, a.child);
    } else if a.HandlerStep? {
      HandlerBooked(s);
    } else if a.WorkerStep? {
      WorkerStepBooked(s, a.p, a.value);
    } else if OfParent(a) {
      ParentSteps(s, a);
    } else {
      OneWorkerBooked(s, a);
    }
  }

  /** What a run reports to fp_stats_add, and what its kills cut off, in both directions. */
  datatype Tally = Tally(reportedUp: nat, reportedDown: nat, cutUp: nat, cutDown: nat)

  ghost function TallyOf(acts: seq<Action>): Tally {
    if acts == [] then Tally(0, 0, 0, 0)
    else
      var front, a := acts[..|acts| - 1], acts[|acts| - 1];
      var before := TallyOf(front);
      match StateAfter(front)
      case None => before
      case Some(s) =>
        Tally(before.reportedUp + ReportedUp(s, a), before.reportedDown + ReportedDown(s, a),
              before.cutUp + CutUp(s, a), before.cutDown + CutDown(s, a))
  }

  /** In every run the totals are exactly the bytes reported to fp_stats_add, less those of calls
      still on the way and those of calls that a kill cut off. */
  lemma {:induction false} TotalsAreReported(acts: seq<Action>, s: State)
    requires Run(Init(), acts, s)
    ensures s.totalUp + Sum(s.workers, s.workers.Keys, StillUp) + TallyOf(acts).cutUp == TallyOf(acts).reportedUp
    ensures s.totalDown + Sum(s.workers, s.workers.Keys, StillDown) + TallyOf(acts).cutDown
         == TallyOf(acts).reportedDown
    decreases |acts|
  {
    if acts != [] {
      var front, a := acts[..|acts| - 1], acts[|acts| - 1];
      var m :| Run(Init(), front, m) && WellFormed(m) && Enabled(m, a) && s == Step(m, a);
      TotalsAreReported(front, m);
      RunKeepsInv(front, m);
      RunEndsThere(front, m);
      StepBooked(m, a);
    }
  }
}
