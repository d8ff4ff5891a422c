/** The forwarder's worker pool as a step system: the accept loop and SIGCHLD
    handler of src/proxy.c and the workers' calls into src/stats.c, under
    sequential consistency.  Every load that guards a branch, every
    compare-and-swap, every store and every scan advance is one step. */
module WorkerPool {
  import opened Wrappers
  import opened StatsTable

  type ProcessId = p: int | p > 1 witness 2

  /** The fields of a slot, for naming the next store of a claim or a wipe. */
  datatype Field = DestField | PortField | PidField | UpField | DownField | StartField | ActiveField

  /** Where a worker is inside fp_stats_add.  `seen` is the loaded counter of a += in progress. */
  datatype AddStep =
    | CheckActive | CheckPid
    | LoadUp | StoreUp(seen: nat) | TotalUp
    | LoadDown | StoreDown(seen: nat) | TotalDown

  datatype Phase =
    | Starting                                  // forked, before fp_stats_claim
    | Scanning(at: nat)                         // about to compare-and-swap slot `at`
    | Claiming(slot: nat, next: Field)          // swap succeeded, about to store `next`
    | Running(result: int)                      // claim returned; relaying
    | Adding(slot: nat, up: nat, down: nat, step: AddStep)
    | Releasing(slot: nat, next: Field)         // pid guard passed, about to wipe `next`
    | Exited

  /** A reaped worker stays in the table until the handler has finished with it. */
  datatype Life = Live | Zombie | Reaped

  /** `owedUp` and `owedDown` record bytes stored in the slot and not yet in the totals. */
  datatype Worker = Worker(life: Life, phase: Phase, owedUp: nat, owedDown: nat)

  /** The accept loop.  SIGCHLD is blocked in MaskedToFork, Forked and MaskedDone. */
  datatype Main = Waiting | Accepted | Admitted | MaskedToFork | Forked | MaskedDone

  /** The SIGCHLD handler with the scan of fp_stats_clear_pid. */
  datatype Handler =
    | Idle
    | Waitpid
    | TestActive(pid: ProcessId, at: nat)
    | TestPid(pid: ProcessId, at: nat)
    | Wiping(pid: ProcessId, at: nat)
    | Decrement(pid: ProcessId)

  /** `holder`, `retired*` and `lost*` are history: the worker a slot belongs to, the bytes
      zeroed out of slots, and those of them that a death kept out of the totals. */
  datatype State = State(
    slots: seq<Slot>, totalUp: nat, totalDown: nat,
    workers: map<ProcessId, Worker>,
    activeClients: int, main: Main, handler: Handler,
    holder: seq<Option<ProcessId>>,
    retiredUp: nat, retiredDown: nat, lostUp: nat, lostDown: nat)

  function Init(): State {
    State(seq(MAX_CLIENTS, _ => EMPTY), 0, 0, map[], 0, Waiting, Idle,
          seq(MAX_CLIENTS, _ => None), 0, 0, 0, 0)
  }

  datatype Action =
    | MainStep                                  // the next statement of the accept loop
    | AcceptFails | MaskFails | ForkFails
    | Fork(child: ProcessId)
    | Signal                                    // SIGCHLD is delivered
    | Reap(child: ProcessId)                    // waitpid returns a dead child
    | NoMoreDead                                // waitpid returns no child
    | HandlerStep
    | WorkerStep(p: ProcessId, value: nat)      // `value` is what a claim stores, when it stores a fresh value
    | GiveUp(p: ProcessId)                      // a worker ends before it claims
    | BeginAdd(p: ProcessId, up: nat, down: nat)
    | BeginRelease(p: ProcessId)
    | Kill(p: ProcessId)

  // ---- order of the stores ----

  function NextClaim(f: Field): Option<Field> {
    match f
    case DestField => Some(PortField)
    case PortField => Some(PidField)
    case PidField => Some(UpField)
    case UpField => Some(DownField)
    case DownField => Some(StartField)
    case _ => None
  }

  function NextWipe(f: Field): Option<Field> {
    match f
    case UpField => Some(DownField)
    case DownField => Some(DestField)
    case DestField => Some(PortField)
    case PortField => Some(PidField)
    case PidField => Some(StartField)
    case StartField => Some(ActiveField)
    case ActiveField => None
  }

  function ClaimStore(x: Slot, f: Field, self: int, value: nat): Slot {
    match f
    case DestField => x.(dest := value)
    case PortField => x.(port := value)
    case PidField => x.(pid := self)
    case UpField => x.(up := 0)
    case DownField => x.(down := 0)
    case StartField => x.(start := value)
    case ActiveField => x
  }

  function WipeStore(x: Slot, f: Field): Slot {
    match f
    case UpField => x.(up := 0)
    case DownField => x.(down := 0)
    case DestField => x.(dest := 0)
    case PortField => x.(port := 0)
    case PidField => x.(pid := 0)
    case StartField => x.(start := 0)
    case ActiveField => x.(active := false)
  }

  /** The claim has stored our pid already when `f` is its next store. */
  predicate PidClaimed(f: Field) {
    f.UpField? || f.DownField? || f.StartField?
  }

  /** The wipe has erased the pid already when `f` is its next store. */
  predicate PidWiped(f: Field) {
    f.StartField? || f.ActiveField?
  }

  /** A worker holds a slot that is active and does not carry its pid. */
  predicate InWindow(phase: Phase) {
    (phase.Claiming? && !PidClaimed(phase.next)) || (phase.Releasing? && PidWiped(phase.next))
  }

  /** The slot a worker in this phase holds. */
  function Holds(phase: Phase): Option<nat> {
    match phase
    case Claiming(i, _) => Some(i)
    case Running(r) => if r >= 0 then Some(r) else None
    case Adding(i, _, _, _) => Some(i)
    case Releasing(i, _) => Some(i)
    case _ => None
  }

  // ---- steps ----

  /** Indices are in range and the handler's child is in the worker table. */
  predicate WellFormed(s: State) {
    && |s.slots| == MAX_CLIENTS && |s.holder| == MAX_CLIENTS
    && (forall p :: p in s.workers && Holds(s.workers[p].phase).Some? ==> Holds(s.workers[p].phase).value < MAX_CLIENTS)
    && match s.handler
       case TestActive(p, at) => p in s.workers && at < MAX_CLIENTS
       case TestPid(p, at) => p in s.workers && at < MAX_CLIENTS
       case Wiping(p, at) => p in s.workers && s.workers[p].phase.Releasing? && s.workers[p].phase.slot == at
       case Decrement(p) => p in s.workers
       case _ => true
  }

  predicate Masked(main: Main) {
    main.MaskedToFork? || main.Forked? || main.MaskedDone?
  }

  predicate IsLive(s: State, p: ProcessId) {
    p in s.workers && s.workers[p].life.Live?
  }

  predicate Enabled(s: State, a: Action) {
    match a
    case MainStep => s.handler.Idle? && !s.main.MaskedToFork?
    case AcceptFails => s.handler.Idle? && s.main.Waiting?
    case MaskFails => s.handler.Idle? && s.main.Admitted?
    case ForkFails => s.handler.Idle? && s.main.MaskedToFork?
    case Fork(p) => s.handler.Idle? && s.main.MaskedToFork? && p !in s.workers
    case Signal => s.handler.Idle? && !Masked(s.main)
    case Reap(p) => s.handler.Waitpid? && p in s.workers && s.workers[p].life.Zombie?
    case NoMoreDead => s.handler.Waitpid? && forall p :: p in s.workers ==> !s.workers[p].life.Zombie?
    case HandlerStep => !s.handler.Idle? && !s.handler.Waitpid?
    case WorkerStep(p, _) => IsLive(s, p) && !s.workers[p].phase.Running?
    case GiveUp(p) => IsLive(s, p) && s.workers[p].phase.Starting?
    case BeginAdd(p, _, _) => IsLive(s, p) && s.workers[p].phase.Running?
    case BeginRelease(p) => IsLive(s, p) && s.workers[p].phase.Running?
    case Kill(p) => IsLive(s, p)
  }

  function SetPhase(s: State, p: ProcessId, phase: Phase): State
    requires p in s.workers
  {
    s.(workers := s.workers[p := s.workers[p].(phase := phase)])
  }

  function MainNext(s: State): State {
    match s.main
    case Waiting => s.(main := Accepted)
    case Accepted => s.(main := if s.activeClients >= MAX_CLIENTS then Waiting else Admitted)
    case Admitted => s.(main := MaskedToFork)
    case MaskedToFork => s
    case Forked => s.(main := MaskedDone, activeClients := s.activeClients + 1)
    case MaskedDone => s.(main := Waiting)
  }

  /** One compare-and-swap of the claim scan; past the last slot the claim returns -1. */
  function ScanNext(s: State, p: ProcessId, at: nat): State
    requires WellFormed(s) && p in s.workers
  {
    if at >= MAX_CLIENTS then SetPhase(s, p, Running(-1))
    else if s.slots[at].active then SetPhase(s, p, Scanning(at + 1))
    else
      SetPhase(s, p, Claiming(at, DestField)).(
        slots := s.slots[at := s.slots[at].(active := true)],
        holder := s.holder[at := Some(p)])
  }

  function ClaimNext(s: State, p: ProcessId, i: nat, f: Field, value: nat): State
    requires WellFormed(s) && p in s.workers && i < MAX_CLIENTS
  {
    SetPhase(s, p, if NextClaim(f).Some? then Claiming(i, NextClaim(f).value) else Running(i)).(
      slots := s.slots[i := ClaimStore(s.slots[i], f, p, value)])
  }

  /** The step that follows the part of fp_stats_add concerned with `up`. */
  function AddDownStep(down: nat): Option<AddStep> {
    if down > 0 then Some(LoadDown) else None
  }

  function AddPhase(i: nat, up: nat, down: nat, step: Option<AddStep>): Phase {
    if step.Some? then Adding(i, up, down, step.value) else Running(i)
  }

  function AddNext(s: State, p: ProcessId, i: nat, up: nat, down: nat, step: AddStep): State
    requires WellFormed(s) && p in s.workers && i < MAX_CLIENTS
  {
    var w := s.workers[p];
    var x := s.slots[i];
    match step
    case CheckActive =>
      SetPhase(s, p, if x.active then Adding(i, up, down, CheckPid) else Running(i))
    case CheckPid =>
      SetPhase(s, p, if x.pid != p then Running(i)
                     else if up > 0 then Adding(i, up, down, LoadUp)
                     else AddPhase(i, up, down, AddDownStep(down)))
    case LoadUp =>
      SetPhase(s, p, Adding(i, up, down, StoreUp(x.up)))
    case StoreUp(seen) =>
      s.(slots := s.slots[i := x.(up := seen + up)],
         workers := s.workers[p := w.(phase := Adding(i, up, down, TotalUp), owedUp := up)])
    case TotalUp =>
      s.(totalUp := s.totalUp + up,
         workers := s.workers[p := w.(phase := AddPhase(i, up, down, AddDownStep(down)), owedUp := 0)])
    case LoadDown =>
      SetPhase(s, p, Adding(i, up, down, StoreDown(x.down)))
    case StoreDown(seen) =>
      s.(slots := s.slots[i := x.(down := seen + down)],
         workers := s.workers[p := w.(phase := Adding(i, up, down, TotalDown), owedDown := down)])
    case TotalDown =>
      s.(totalDown := s.totalDown + down,
         workers := s.workers[p := w.(phase := Running(i), owedDown := 0)])
  }

  /** One store of a wipe, by the slot's owner or by the handler for the dead owner `p`. */
  function WipeNext(s: State, p: ProcessId, i: nat, f: Field): State
    requires WellFormed(s) && p in s.workers && i < MAX_CLIENTS
  {
    var w := s.workers[p];
    var phase := if NextWipe(f).Some? then Releasing(i, NextWipe(f).value) else Exited;
    var s1 := s.(slots := s.slots[i := WipeStore(s.slots[i], f)],
                 holder := if f.ActiveField? then s.holder[i := None] else s.holder);
    if f.UpField? then
      s1.(workers := s.workers[p := w.(phase := phase, owedUp := 0)],
          retiredUp := s.retiredUp + s.slots[i].up, lostUp := s.lostUp + w.owedUp)
    else if f.DownField? then
      s1.(workers := s.workers[p := w.(phase := phase, owedDown := 0)],
          retiredDown := s.retiredDown + s.slots[i].down, lostDown := s.lostDown + w.owedDown)
    else
      s1.(workers := s.workers[p := w.(phase := phase)])
  }

  function WorkerNext(s: State, p: ProcessId, value: nat): State
    requires WellFormed(s) && p in s.workers
  {
    match s.workers[p].phase
    case Starting => SetPhase(s, p, Scanning(0))
    case Scanning(at) => ScanNext(s, p, at)
    case Claiming(i, f) => ClaimNext(s, p, i, f, value)
    case Running(_) => s
    case Adding(i, up, down, step) => AddNext(s, p, i, up, down, step)
    case Releasing(i, f) => WipeNext(s, p, i, f)
    case Exited => s.(workers := s.workers[p := s.workers[p].(life := Zombie)])
  }

  /** The bound test of the handler's scan. */
  function ScanSlot(p: ProcessId, at: nat): Handler {
    if at < MAX_CLIENTS then TestActive(p, at) else Decrement(p)
  }

  function HandlerNext(s: State): State
    requires WellFormed(s)
  {
    match s.handler
    case TestActive(p, at) =>
      s.(handler := if s.slots[at].active then TestPid(p, at) else ScanSlot(p, at + 1))
    case TestPid(p, at) =>
      if s.slots[at].pid == p then SetPhase(s, p, Releasing(at, UpField)).(handler := Wiping(p, at))
      else s.(handler := ScanSlot(p, at + 1))
    case Wiping(p, at) =>
      var f := s.workers[p].phase.next;
      WipeNext(s, p, at, f).(handler := if f.ActiveField? then ScanSlot(p, at + 1) else s.handler)
    case Decrement(p) =>
      s.(handler := Waitpid, workers := s.workers - {p},
         activeClients := if s.activeClients > 0 then s.activeClients - 1 else s.activeClients)
    case _ => s
  }

  /** A dead worker keeps its phase only while that phase says which slot carries its pid. */
  function PhaseAfterDeath(phase: Phase): Phase {
    if Holds(phase).Some? && !InWindow(phase) then phase else Exited
  }

  function KillNext(s: State, p: ProcessId): State
    requires WellFormed(s) && p in s.workers
  {
    var w := s.workers[p];
    s.(workers := s.workers[p := w.(life := Zombie, phase := PhaseAfterDeath(w.phase))],
       holder := if InWindow(w.phase) then s.holder[w.phase.slot := None] else s.holder)
  }

  function Step(s: State, a: Action): State
    requires WellFormed(s) && Enabled(s, a)
  {
    match a
    case MainStep => MainNext(s)
    case AcceptFails => s
    case MaskFails => s.(main := Waiting)
    case ForkFails => s.(main := MaskedDone)
    case Fork(p) => s.(main := Forked, workers := s.workers[p := Worker(Live, Starting, 0, 0)])
    case Signal => s.(handler := Waitpid)
    case Reap(p) =>
      s.(handler := TestActive(p, 0), workers := s.workers[p := s.workers[p].(life := Reaped)])
    case NoMoreDead => s.(handler := Idle)
    case HandlerStep => HandlerNext(s)
    case WorkerStep(p, value) => WorkerNext(s, p, value)
    case GiveUp(p) => SetPhase(s, p, Exited)
    case BeginAdd(p, up, down) =>
      // fp_stats_add returns at once when the claim failed
      if s.workers[p].phase.result < 0 then s
      else SetPhase(s, p, Adding(s.workers[p].phase.result, up, down, CheckActive))
    case BeginRelease(p) =>
      var r := s.workers[p].phase.result;
      SetPhase(s, p, if 0 <= r && s.slots[r].pid == p then Releasing(r, UpField) else Exited)
    case Kill(p) => KillNext(s, p)
  }

  /** `acts` leads from `s` to `t`. */
  ghost predicate Run(s: State, acts: seq<Action>, t: State)
    decreases |acts|
  {
    if acts == [] then s == t
    else
      var front, a := acts[..|acts| - 1], acts[|acts| - 1];
      exists m :: Run(s, front, m) && WellFormed(m) && Enabled(m, a) && t == Step(m, a)
  }
}
