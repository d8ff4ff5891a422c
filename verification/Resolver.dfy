/** The hand-off between resolve_ipv4 and its resolver thread in src/test.c, as a step system:
    every mutex operation and every access to the shared job is one step, and the two threads
    interleave freely.  It starts when the thread has been created. */
module Resolver {
  datatype Mutex = Unlocked | HeldByWaiter | HeldByResolver

  datatype ResolverAt =
    | LookingUp             // getaddrinfo, reading the job's host and service
    | Locking
    | TestAbandoned         // holding the mutex
    | UnlockAbandoned
    | FreeList              // freeaddrinfo of its own result, if any
    | DestroyJob
    | StoreResult           // holding the mutex: result, status
    | StoreDone
    | Signal
    | UnlockDone
    | ResolverGone

  datatype WaiterAt =
    | FirstLock
    | LoopTest              // holding the mutex
    | Waiting               // in pthread_cond_timedwait, mutex released
    | Relocking
    | Decide                // holding the mutex, loop left
    | UnlockAbandoning      // `abandoned` is set
    | Detach
    | TakeResult            // holding the mutex, `done` was seen
    | UnlockTaken
    | Join
    | DestroyAfterJoin
    | Conclude
    | Returned(success: bool)

  /** The job's fields, the two threads' places and locals, and as history how often the list was
      freed, how often the job was destroyed, and whether a thread has touched it since.  `made`
      says that getaddrinfo produced a list, which the resolver, the job or the waiter holds. */
  datatype State = State(
    resolver: ResolverAt, waiter: WaiterAt, mutex: Mutex,
    done: bool, abandoned: bool, jobHasList: bool, jobStatusOk: bool,
    made: bool, lookupOk: bool,
    waitError: bool, hasList: bool, statusOk: bool,
    frees: nat, destroyed: nat, touchedLate: bool)

  function Init(): State {
    State(LookingUp, FirstLock, Unlocked, false, false, false, false, false, false, false, false, false, 0, 0, false)
  }

  /** `found` and `ok` are what getaddrinfo gives; `cancel` is the cancellation flag and `fails`
      a failing clock or wait, where a step looks at one. */
  datatype Action = ResolverStep(found: bool, ok: bool) | WaiterStep(cancel: bool, fails: bool)

  predicate Enabled(s: State, a: Action) {
    match a
    case ResolverStep(_, _) => !s.resolver.ResolverGone? && (s.resolver.Locking? ==> s.mutex.Unlocked?)
    case WaiterStep(_, _) =>
      && !s.waiter.Returned?
      && (s.waiter.FirstLock? || s.waiter.Relocking? ==> s.mutex.Unlocked?)
      && (s.waiter.Join? ==> s.resolver.ResolverGone?)
  }

  /** The step reads, writes, locks, unlocks, signals or destroys the job. */
  predicate Touches(s: State, a: Action) {
    match a
    case ResolverStep(_, _) => !s.resolver.FreeList?
    case WaiterStep(_, _) => !s.waiter.Detach? && !s.waiter.Join? && !s.waiter.Conclude?
  }

  function ResolverNext(s: State, found: bool, ok: bool): State {
    match s.resolver
    case LookingUp => s.(resolver := Locking, made := found, lookupOk := ok)
    case Locking => s.(resolver := TestAbandoned, mutex := HeldByResolver)
    case TestAbandoned => s.(resolver := if s.abandoned then UnlockAbandoned else StoreResult)
    case UnlockAbandoned => s.(resolver := FreeList, mutex := Unlocked)
    case FreeList => s.(resolver := DestroyJob, frees := s.frees + if s.made then 1 else 0)
    case DestroyJob => s.(resolver := ResolverGone, destroyed := s.destroyed + 1)
    case StoreResult => s.(resolver := StoreDone, jobHasList := s.made, jobStatusOk := s.lookupOk)
    case StoreDone => s.(resolver := Signal, done := true)
    case Signal => s.(resolver := UnlockDone)
    case UnlockDone => s.(resolver := ResolverGone, mutex := Unlocked)
    case ResolverGone => s
  }

  function WaiterNext(s: State, cancel: bool, fails: bool): State {
    match s.waiter
    case FirstLock => s.(waiter := LoopTest, mutex := HeldByWaiter)
    case LoopTest =>
      if s.done || cancel || s.waitError then s.(waiter := Decide)
      else if fails then s.(waiter := Decide, waitError := true)
      else s.(waiter := Waiting, mutex := Unlocked)
    case Waiting => s.(waiter := Relocking, waitError := fails)
    case Relocking => s.(waiter := LoopTest, mutex := HeldByWaiter)
    case Decide =>
      if s.done then s.(waiter := TakeResult) else s.(waiter := UnlockAbandoning, abandoned := true)
    case UnlockAbandoning => s.(waiter := Detach, mutex := Unlocked)
    case Detach => s.(waiter := Returned(false))
    case TakeResult => s.(waiter := UnlockTaken, hasList := s.jobHasList, statusOk := s.jobStatusOk)
    case UnlockTaken => s.(waiter := Join, mutex := Unlocked)
    case Join => s.(waiter := DestroyAfterJoin)
    case DestroyAfterJoin => s.(waiter := Conclude, destroyed := s.destroyed + 1)
    case Conclude =>
      if (cancel || !s.statusOk) && s.hasList then
        s.(waiter := Returned(false), hasList := false, frees := s.frees + 1)
      else s.(waiter := Returned(!cancel && s.statusOk && s.hasList))
    case Returned(_) => s
  }

  function Step(s: State, a: Action): State
    requires Enabled(s, a)
  {
    var t := match a
      case ResolverStep(found, ok) => ResolverNext(s, found, ok)
      case WaiterStep(cancel, fails) => WaiterNext(s, cancel, fails);
    t.(touchedLate := s.touchedLate || (Touches(s, a) && s.destroyed > 0))
  }

  /** `acts` leads from the start to `s`. */
  ghost predicate Run(acts: seq<Action>, s: State)
    decreases |acts|
  {
    if acts == [] then s == Init()
    else
      var front, a := acts[..|acts| - 1], acts[|acts| - 1];
      exists m :: Run(front, m) && Enabled(m, a) && s == Step(m, a)
  }

  // ---- the invariant ----

  predicate ResolverHolds(at: ResolverAt) {
    at.TestAbandoned? || at.UnlockAbandoned? || at.StoreResult? || at.StoreDone? || at.Signal? || at.UnlockDone?
  }

  predicate WaiterHolds(at: WaiterAt) {
    at.LoopTest? || at.Decide? || at.UnlockAbandoning? || at.TakeResult? || at.UnlockTaken?
  }

  /** The mutex is held by the thread whose place says so. */
  predicate MutexOk(s: State) {
    && (s.mutex.HeldByResolver? <==> ResolverHolds(s.resolver))
    && (s.mutex.HeldByWaiter? <==> WaiterHolds(s.waiter))
  }

  predicate WaiterEarly(at: WaiterAt) {
    at.FirstLock? || at.LoopTest? || at.Waiting? || at.Relocking? || at.Decide?
  }

  /** Neither flag is set: both threads are on the way to the mutex or inside. */
  predicate Undecided(s: State) {
    && !s.done && !s.abandoned && s.destroyed == 0 && s.frees == 0 && WaiterEarly(s.waiter)
    && match s.resolver
       case LookingUp => !s.made
       case Locking => true
       case TestAbandoned => true
       case StoreResult => true
       case StoreDone => s.jobHasList == s.made
       case _ => false
  }

  /** The waiter left first: the resolver will free the list and the job. */
  predicate GivenUp(s: State) {
    && !s.done && s.abandoned
    && (s.waiter.UnlockAbandoning? || s.waiter.Detach? || s.waiter == Returned(false))
    && (s.waiter.UnlockAbandoning? ==> s.resolver.LookingUp? || s.resolver.Locking?)
    && s.destroyed == (if s.resolver.ResolverGone? then 1 else 0)
    && match s.resolver
       case LookingUp => !s.made && s.frees == 0
       case Locking => s.frees == 0
       case TestAbandoned => s.frees == 0
       case UnlockAbandoned => s.frees == 0
       case FreeList => s.frees == 0
       case DestroyJob => s.frees == if s.made then 1 else 0
       case ResolverGone => s.frees == if s.made then 1 else 0
       case _ => false
  }

  /** The resolver delivered first: the waiter will take the list and destroy the job. */
  predicate HandedOver(s: State) {
    && s.done && !s.abandoned && s.jobHasList == s.made
    && (s.resolver.Signal? || s.resolver.UnlockDone? || s.resolver.ResolverGone?)
    && s.destroyed == (if s.waiter.Conclude? || s.waiter.Returned? then 1 else 0)
    && match s.waiter
       case UnlockAbandoning => false
       case Detach => false
       case UnlockTaken => s.hasList == s.made && s.frees == 0
       case Join => s.hasList == s.made && s.frees == 0
       case DestroyAfterJoin => s.hasList == s.made && s.frees == 0 && s.resolver.ResolverGone?
       case Conclude => s.hasList == s.made && s.frees == 0 && s.resolver.ResolverGone?
       case Returned(success) =>
         s.resolver.ResolverGone? && (success ==> s.made) && s.frees == if s.made && !success then 1 else 0
       case _ => s.frees == 0
  }

  /** The mutex is where the places say, and no thread has touched a destroyed job. */
  predicate Safe(s: State) {
    MutexOk(s) && !s.touchedLate
  }

  predicate Inv(s: State) {
    Safe(s) && (Undecided(s) || GivenUp(s) || HandedOver(s))
  }

  lemma ResolverArrives(s: State, a: Action)
    requires Safe(s) && Undecided(s) && Enabled(s, a)
    requires a.ResolverStep? && (s.resolver.LookingUp? || s.resolver.Locking? || s.resolver.TestAbandoned?)
    ensures var t := Step(s, a); Safe(t) && Undecided(t)
  {
  }

  lemma ResolverDelivers(s: State, a: Action)
    requires Safe(s) && Undecided(s) && Enabled(s, a)
    requires a.ResolverStep? && (s.resolver.StoreResult? || s.resolver.StoreDone?)
    ensures var t := Step(s, a); Safe(t) && (if s.resolver.StoreDone? then HandedOver(t) else Undecided(t))
  {
  }

  lemma WaiterLocks(s: State, a: Action)
    requires Safe(s) && Undecided(s) && Enabled(s, a)
    requires a.WaiterStep? && (s.waiter.FirstLock? || s.waiter.Relocking?)
    ensures var t := Step(s, a); Safe(t) && Undecided(t)
  {
  }

  lemma WaiterWakes(s: State, a: Action)
    requires Safe(s) && Undecided(s) && Enabled(s, a)
    requires a.WaiterStep? && s.waiter.Waiting?
    ensures var t := Step(s, a); Safe(t) && Undecided(t)
  {
  }

  lemma WaiterLeavesLoop(s: State, a: Action)
    requires Safe(s) && Undecided(s) && Enabled(s, a)
    requires a.WaiterStep? && s.waiter.LoopTest? && (a.cancel || s.waitError || a.fails)
    ensures var t := Step(s, a); Safe(t) && Undecided(t)
  {
  }

  lemma WaiterWaits(s: State, a: Action)
    requires Safe(s) && Undecided(s) && Enabled(s, a)
    requires a.WaiterStep? && s.waiter.LoopTest? && !a.cancel && !s.waitError && !a.fails
    ensures var t := Step(s, a); Safe(t) && Undecided(t)
  {
  }

  lemma WaiterGivesUp(s: State, a: Action)
    requires Safe(s) && Undecided(s) && Enabled(s, a)
    requires a.WaiterStep? && (s.waiter.Decide?)
    ensures var t := Step(s, a); Safe(t) && GivenUp(t)
  {
  }

  lemma ResolverFindsAbandoned(s: State, a: Action)
    requires Safe(s) && GivenUp(s) && Enabled(s, a)
    requires a.ResolverStep?
    requires s.resolver.LookingUp? || s.resolver.Locking? || s.resolver.TestAbandoned? || s.resolver.UnlockAbandoned?
    ensures var t := Step(s, a); Safe(t) && GivenUp(t)
  {
  }

  lemma ResolverCleansUp(s: State, a: Action)
    requires Safe(s) && GivenUp(s) && Enabled(s, a)
    requires a.ResolverStep? && (s.resolver.FreeList? || s.resolver.DestroyJob?)
    ensures var t := Step(s, a); Safe(t) && GivenUp(t)
  {
  }

  lemma WaiterUnlocks(s: State, a: Action)
    requires Safe(s) && GivenUp(s) && Enabled(s, a)
    requires a.WaiterStep? && s.waiter.UnlockAbandoning?
    ensures var t := Step(s, a); Safe(t) && GivenUp(t)
  {
    assert Step(s, a) == s.(waiter := Detach, mutex := Unlocked);
  }

  lemma WaiterDetaches(s: State, a: Action)
    requires Safe(s) && GivenUp(s) && Enabled(s, a)
    requires a.WaiterStep? && s.waiter.Detach?
    ensures var t := Step(s, a); Safe(t) && GivenUp(t)
  {
  }

  lemma ResolverSignals(s: State, a: Action)
    requires Safe(s) && HandedOver(s) && Enabled(s, a)
    requires a.ResolverStep? && s.resolver.Signal?
    ensures var t := Step(s, a); Safe(t) && HandedOver(t)
  {
    assert Step(s, a) == s.(resolver := UnlockDone);
  }

  lemma ResolverLeaves(s: State, a: Action)
    requires Safe(s) && HandedOver(s) && Enabled(s, a)
    requires a.ResolverStep? && s.resolver.UnlockDone?
    ensures var t := Step(s, a); Safe(t) && HandedOver(t)
  {
    assert Step(s, a) == s.(resolver := ResolverGone, mutex := Unlocked);
  }

  lemma WaiterNotices(s: State, a: Action)
    requires Safe(s) && HandedOver(s) && Enabled(s, a)
    requires a.WaiterStep?
    requires s.waiter.FirstLock? || s.waiter.LoopTest? || s.waiter.Waiting? || s.waiter.Relocking? || s.waiter.Decide?
    ensures var t := Step(s, a); Safe(t) && HandedOver(t)
  {
  }

  lemma WaiterTakesOver(s: State, a: Action)
    requires Safe(s) && HandedOver(s) && Enabled(s, a)
    requires a.WaiterStep? && (s.waiter.TakeResult? || s.waiter.UnlockTaken? || s.waiter.Join?)
    ensures var t := Step(s, a); Safe(t) && HandedOver(t)
  {
  }

  lemma WaiterCleansUp(s: State, a: Action)
    requires Safe(s) && HandedOver(s) && Enabled(s, a)
    requires a.WaiterStep? && (s.waiter.DestroyAfterJoin? || s.waiter.Conclude?)
    ensures var t := Step(s, a); Safe(t) && HandedOver(t)
  {
  }

  lemma StepKeepsInv(s: State, a: Action)
    requires Inv(s) && Enabled(s, a)
    ensures Inv(Step(s, a))
  {
    var early := s.resolver.LookingUp? || s.resolver.Locking? || s.resolver.TestAbandoned?;
    if Undecided(s) {
      if a.WaiterStep? {
        if s.waiter.Decide? {
          WaiterGivesUp(s, a);
        } else if s.waiter.FirstLock? || s.waiter.Relocking? {
          WaiterLocks(s, a);
        } else if s.waiter.Waiting? {
          WaiterWakes(s, a);
        } else if a.cancel || s.waitError || a.fails {
          WaiterLeavesLoop(s, a);
        } else {
          WaiterWaits(s, a);
        }
      } else {
        if early {
          ResolverArrives(s, a);
        } else {
          ResolverDelivers(s, a);
        }
      }
    } else if GivenUp(s) {
      if a.WaiterStep? {
        if s.waiter.Detach? {
          WaiterDetaches(s, a);
        } else {
          WaiterUnlocks(s, a);
        }
      } else {
        if early || s.resolver.UnlockAbandoned? {
          ResolverFindsAbandoned(s, a);
        } else {
          ResolverCleansUp(s, a);
        }
      }
    } else {
      if a.ResolverStep? {
        if s.resolver.Signal? {
          ResolverSignals(s, a);
        } else {
          ResolverLeaves(s, a);
        }
      } else if WaiterEarly(s.waiter) {
        WaiterNotices(s, a);
      } else {
        if s.waiter.DestroyAfterJoin? || s.waiter.Conclude? {
          WaiterCleansUp(s, a);
        } else {
          WaiterTakesOver(s, a);
        }
      }
    }
  }

  lemma {:induction false} RunKeepsInv(acts: seq<Action>, s: State)
    requires Run(acts, s)
    ensures Inv(s)
    decreases |acts|
  {
    if acts != [] {
      var front, a := acts[..|acts| - 1], acts[|acts| - 1];
      var m :| Run(front, m) && Enabled(m, a) && s == Step(m, a);
      RunKeepsInv(front, m);
      StepKeepsInv(m, a);
    }
  }

  // ---- the hand-off ----

  predicate Over(s: State) {
    s.resolver.ResolverGone? && s.waiter.Returned?
  }

  /** In every interleaving: the two flags are never both set, the job is destroyed at most once
      and not touched afterwards, and the list is freed at most once and never after or before
      being handed to the caller. */
  lemma {:induction false} HandOffIsSafe(acts: seq<Action>, s: State)
    requires Run(acts, s)
    ensures !(s.done && s.abandoned)
    ensures s.destroyed <= 1 && !s.touchedLate
    ensures s.frees <= 1 && (s.waiter.Returned? && s.waiter.success ==> s.made && s.frees == 0)
  {
    RunKeepsInv(acts, s);
  }

  /** When both threads are through, nothing is left over: the job was destroyed exactly once, and a
      list that was made was freed exactly once or is the caller's. */
  lemma {:induction false} HandOffIsComplete(acts: seq<Action>, s: State)
    requires Run(acts, s) && Over(s)
    ensures s.destroyed == 1
    ensures s.made ==> s.frees == if s.waiter.success then 0 else 1
    ensures !s.made ==> s.frees == 0 && !s.waiter.success
    ensures s.mutex.Unlocked?
  {
    RunKeepsInv(acts, s);
  }

  /** One of the threads can go on. */
  predicate CanGoOn(s: State) {
    Enabled(s, ResolverStep(false, false)) || Enabled(s, WaiterStep(false, false))
  }

  lemma UndecidedGoesOn(s: State)
    requires Safe(s) && Undecided(s)
    ensures CanGoOn(s)
  {
  }

  lemma GivenUpGoesOn(s: State)
    requires Safe(s) && GivenUp(s) && !Over(s)
    ensures CanGoOn(s)
  {
  }

  lemma HandedOverGoesOn(s: State)
    requires Safe(s) && HandedOver(s) && !Over(s)
    ensures CanGoOn(s)
  {
  }

  /** No interleaving gets stuck: until both threads are through, one of them can go on. */
  lemma {:induction false} HandOffNeverSticks(acts: seq<Action>, s: State)
    requires Run(acts, s) && !Over(s)
    ensures Enabled(s, ResolverStep(false, false)) || Enabled(s, WaiterStep(false, false))
  {
    RunKeepsInv(acts, s);
    if Undecided(s) {
      UndecidedGoesOn(s);
    } else if GivenUp(s) {
      GivenUpGoesOn(s);
    } else {
      HandedOverGoesOn(s);
    }
  }

  // ---- when the caller gets the list ----

  /** What getaddrinfo gave, by the actions: the resolver's first step. */
  datatype Lookup = Unknown | Answer(found: bool, ok: bool)

  function LookupOf(acts: seq<Action>): Lookup {
    if acts == [] then Unknown
    else
      var before, a := LookupOf(acts[..|acts| - 1]), acts[|acts| - 1];
      if before.Unknown? && a.ResolverStep? then Answer(a.found, a.ok) else before
  }

  /** The cancellation flag as the waiter read it last. */
  function LastLook(acts: seq<Action>): bool {
    if acts == [] then false
    else
      var a := acts[|acts| - 1];
      if a.WaiterStep? then a.cancel else LastLook(acts[..|acts| - 1])
  }

  /** The lookup gave a list and status 0. */
  predicate Good(l: Lookup) {
    l.Answer? && l.found && l.ok
  }

  /** The resolver's own result is what getaddrinfo gave. */
  predicate LookedUp(s: State, l: Lookup) {
    if s.resolver.LookingUp? then l.Unknown? else l == Answer(s.made, s.lookupOk)
  }

  /** Once the result is handed over, the job has it. */
  predicate InJob(s: State) {
    s.resolver.StoreDone? || s.done ==> s.jobHasList == s.made && s.jobStatusOk == s.lookupOk
  }

  /** The waiter is past taking the result. */
  predicate HasTaken(at: WaiterAt) {
    at.UnlockTaken? || at.Join? || at.DestroyAfterJoin? || at.Conclude?
  }

  /** Then the waiter has it, and the verdict is that of the result. */
  predicate Told(s: State, l: Lookup, cancel: bool) {
    && (HasTaken(s.waiter) ==> s.hasList == s.made && s.statusOk == s.lookupOk)
    && (s.waiter.Returned? ==> (s.waiter.success <==> s.done && Good(l) && !cancel))
  }

  /** Who can be where, of all that the invariant says. */
  predicate Places(s: State) {
    && (s.done ==> s.resolver.Signal? || s.resolver.UnlockDone? || s.resolver.ResolverGone?)
    && (s.resolver.StoreDone? ==> WaiterEarly(s.waiter))
    && (s.waiter.TakeResult? || HasTaken(s.waiter) ==> s.done)
    && (s.waiter.Detach? ==> !s.done)
    && (s.resolver.ResolverGone? && s.waiter.LoopTest? ==> s.done)
  }

  lemma InvPlaces(s: State)
    requires Inv(s)
    ensures Places(s)
  {
  }

  /** A step, apart from the record of late touches. */
  lemma StepIs(s: State, a: Action)
    requires Enabled(s, a)
    ensures var t := Step(s, a);
      t == (match a
            case ResolverStep(found, ok) => ResolverNext(s, found, ok)
            case WaiterStep(cancel, fails) => WaiterNext(s, cancel, fails)).(touchedLate := t.touchedLate)
  {
  }

  /** The steps a thread still has to make at most, apart from going round the waiting loop. */
  function ResolverRank(at: ResolverAt): nat {
    match at
    case LookingUp => 7
    case Locking => 6
    case TestAbandoned => 5
    case StoreResult => 4
    case StoreDone => 3
    case Signal => 2
    case UnlockDone => 1
    case UnlockAbandoned => 3
    case FreeList => 2
    case DestroyJob => 1
    case ResolverGone => 0
  }

  function WaiterRank(at: WaiterAt): nat {
    match at
    case Waiting => 10
    case FirstLock => 9
    case Relocking => 9
    case LoopTest => 8
    case Decide => 7
    case TakeResult => 6
    case UnlockTaken => 5
    case Join => 4
    case DestroyAfterJoin => 3
    case Conclude => 1
    case UnlockAbandoning => 2
    case Detach => 1
    case Returned(_) => 0
  }

  /** What is known of a state, given the lookup and the last look at the flag. */
  predicate Known(s: State, l: Lookup, cancel: bool) {
    Places(s) && LookedUp(s, l) && InJob(s) && Told(s, l, cancel)
  }

  /** The waiter has not given up and is not about to. */
  predicate Staying(s: State) {
    && !s.waitError && !s.abandoned
    && (s.waiter.Decide? || !WaiterEarly(s.waiter) ==> s.done)
  }

  /** Neither waiting nor through with success. */
  predicate NotWaiting(at: WaiterAt) {
    !at.Waiting? && !at.Relocking? && at != Returned(true)
  }

  /** The resolver's steps leave the waiter alone and never take `done` back. */
  predicate ResolverMoved(s: State, t: State, l: Lookup, cancel: bool) {
    && LookedUp(t, l) && InJob(t) && Told(t, l, cancel)
    && t.waiter == s.waiter && t.waitError == s.waitError && t.abandoned == s.abandoned && (s.done ==> t.done)
    && ResolverRank(t.resolver) < ResolverRank(s.resolver)
  }

  /** The waiter's steps end with the verdict, never give up undisturbed, and never wait when
      cancelled. */
  predicate WaiterMoved(s: State, t: State, cancel: bool, fails: bool, l: Lookup) {
    && LookedUp(t, l) && InJob(t) && Told(t, l, cancel)
    && (Staying(s) && !cancel && !fails ==> Staying(t))
    && (cancel && NotWaiting(s.waiter) ==> NotWaiting(t.waiter))
    && t.resolver == s.resolver
    && (WaiterRank(t.waiter) < WaiterRank(s.waiter) || (s.waiter.LoopTest? && !s.done && t.mutex.Unlocked?))
  }

  lemma ResolverArrivesKnown(s: State, found: bool, ok: bool, l: Lookup, cancel: bool)
    requires Known(s, l, cancel) && (s.resolver.LookingUp? || s.resolver.Locking? || s.resolver.TestAbandoned?)
    ensures ResolverMoved(s, ResolverNext(s, found, ok), if l.Unknown? then Answer(found, ok) else l, cancel)
  {
    match s.resolver
    case LookingUp =>
    case Locking =>
    case TestAbandoned =>
  }

  lemma ResolverCleansUpKnown(s: State, found: bool, ok: bool, l: Lookup, cancel: bool)
    requires Known(s, l, cancel) && (s.resolver.UnlockAbandoned? || s.resolver.FreeList? || s.resolver.DestroyJob?)
    ensures ResolverMoved(s, ResolverNext(s, found, ok), if l.Unknown? then Answer(found, ok) else l, cancel)
  {
    match s.resolver
    case UnlockAbandoned =>
    case FreeList =>
    case DestroyJob =>
  }

  lemma ResolverStoresKnown(s: State, found: bool, ok: bool, l: Lookup, cancel: bool)
    requires Known(s, l, cancel) && (s.resolver.StoreResult? || s.resolver.StoreDone?)
    ensures ResolverMoved(s, ResolverNext(s, found, ok), if l.Unknown? then Answer(found, ok) else l, cancel)
  {
    match s.resolver
    case StoreResult =>
    case StoreDone =>
  }

  lemma ResolverLeavesKnown(s: State, found: bool, ok: bool, l: Lookup, cancel: bool)
    requires Known(s, l, cancel) && (s.resolver.Signal? || s.resolver.UnlockDone?)
    ensures ResolverMoved(s, ResolverNext(s, found, ok), if l.Unknown? then Answer(found, ok) else l, cancel)
  {
    match s.resolver
    case Signal =>
    case UnlockDone =>
  }

  lemma ResolverTells(s: State, found: bool, ok: bool, l: Lookup, cancel: bool)
    requires Known(s, l, cancel) && !s.resolver.ResolverGone?
    ensures ResolverMoved(s, ResolverNext(s, found, ok), if l.Unknown? then Answer(found, ok) else l, cancel)
  {
    if s.resolver.LookingUp? || s.resolver.Locking? || s.resolver.TestAbandoned? {
      ResolverArrivesKnown(s, found, ok, l, cancel);
    } else if s.resolver.UnlockAbandoned? || s.resolver.FreeList? || s.resolver.DestroyJob? {
      ResolverCleansUpKnown(s, found, ok, l, cancel);
    } else if s.resolver.StoreResult? || s.resolver.StoreDone? {
      ResolverStoresKnown(s, found, ok, l, cancel);
    } else {
      ResolverLeavesKnown(s, found, ok, l, cancel);
    }
  }

  lemma WaiterLocksKnown(s: State, cancel: bool, fails: bool, l: Lookup, before: bool)
    requires Known(s, l, before) && (s.waiter.FirstLock? || s.waiter.Relocking?)
    ensures WaiterMoved(s, WaiterNext(s, cancel, fails), cancel, fails, l)
  {
    match s.waiter
    case FirstLock =>
    case Relocking =>
  }

  lemma WaiterComesKnown(s: State, cancel: bool, fails: bool, l: Lookup, before: bool)
    requires Known(s, l, before) && (s.waiter.Waiting? || s.waiter.Decide?)
    ensures WaiterMoved(s, WaiterNext(s, cancel, fails), cancel, fails, l)
  {
    match s.waiter
    case Waiting =>
    case Decide =>
  }

  lemma LoopTestKnown(s: State, cancel: bool, fails: bool, l: Lookup, before: bool)
    requires Known(s, l, before) && (s.waiter.LoopTest?)
    ensures WaiterMoved(s, WaiterNext(s, cancel, fails), cancel, fails, l)
  {
  }

  lemma WaiterChoosesKnown(s: State, cancel: bool, fails: bool, l: Lookup, before: bool)
    requires Known(s, l, before) && (s.waiter.UnlockAbandoning? || s.waiter.Detach? || s.waiter.TakeResult?)
    ensures WaiterMoved(s, WaiterNext(s, cancel, fails), cancel, fails, l)
  {
    match s.waiter
    case UnlockAbandoning =>
    case Detach =>
    case TakeResult =>
  }

  lemma WaiterJoinsKnown(s: State, cancel: bool, fails: bool, l: Lookup, before: bool)
    requires Known(s, l, before) && (s.waiter.UnlockTaken? || s.waiter.Join? || s.waiter.DestroyAfterJoin?)
    ensures WaiterMoved(s, WaiterNext(s, cancel, fails), cancel, fails, l)
  {
    match s.waiter
    case UnlockTaken =>
    case Join =>
    case DestroyAfterJoin =>
  }

  lemma LastLookKnown(s: State, cancel: bool, fails: bool, l: Lookup, before: bool)
    requires Known(s, l, before) && (s.waiter.Conclude?)
    ensures WaiterMoved(s, WaiterNext(s, cancel, fails), cancel, fails, l)
  {
  }

  lemma WaiterTells(s: State, cancel: bool, fails: bool, l: Lookup, before: bool)
    requires Known(s, l, before) && !s.waiter.Returned?
    ensures WaiterMoved(s, WaiterNext(s, cancel, fails), cancel, fails, l)
  {
    if s.waiter.LoopTest? {
      LoopTestKnown(s, cancel, fails, l, before);
    } else if s.waiter.FirstLock? || s.waiter.Relocking? {
      WaiterLocksKnown(s, cancel, fails, l, before);
    } else if s.waiter.Waiting? || s.waiter.Decide? {
      WaiterComesKnown(s, cancel, fails, l, before);
    } else if s.waiter.Conclude? {
      LastLookKnown(s, cancel, fails, l, before);
    } else if s.waiter.UnlockTaken? || s.waiter.Join? || s.waiter.DestroyAfterJoin? {
      WaiterJoinsKnown(s, cancel, fails, l, before);
    } else {
      WaiterChoosesKnown(s, cancel, fails, l, before);
    }
  }

  /** Late touches are no part of what is known. */
  lemma LateTouch(s: State, t: State, l: Lookup, cancel: bool, late: bool)
    requires ResolverMoved(s, t, l, cancel)
    ensures ResolverMoved(s, t.(touchedLate := late), l, cancel)
  {
  }

  lemma ResolverStepTells(s: State, a: Action, l: Lookup, cancel: bool)
    requires a.ResolverStep? && Enabled(s, a) && Known(s, l, cancel)
    ensures ResolverMoved(s, Step(s, a), if l.Unknown? then Answer(a.found, a.ok) else l, cancel)
  {
    StepIs(s, a);
    ResolverTells(s, a.found, a.ok, l, cancel);
    LateTouch(s, ResolverNext(s, a.found, a.ok), if l.Unknown? then Answer(a.found, a.ok) else l, cancel,
              Step(s, a).touchedLate);
  }

  lemma WaiterStepTells(s: State, a: Action, l: Lookup, cancel: bool)
    requires a.WaiterStep? && Enabled(s, a) && Known(s, l, cancel)
    ensures WaiterMoved(s, Step(s, a), a.cancel, a.fails, l)
  {
    StepIs(s, a);
    WaiterTells(s, a.cancel, a.fails, l, cancel);
  }

  /** How a step goes on from what is known. */
  lemma StepTells(s: State, a: Action, l: Lookup, cancel: bool)
    requires Enabled(s, a) && Known(s, l, cancel)
    ensures a.ResolverStep? ==>
      ResolverMoved(s, Step(s, a), if l.Unknown? then Answer(a.found, a.ok) else l, cancel)
    ensures a.WaiterStep? ==> WaiterMoved(s, Step(s, a), a.cancel, a.fails, l)
  {
    if a.ResolverStep? {
      ResolverStepTells(s, a, l, cancel);
    } else {
      WaiterStepTells(s, a, l, cancel);
    }
  }

  lemma {:induction false} RunTells(acts: seq<Action>, s: State)
    requires Run(acts, s)
    ensures Known(s, LookupOf(acts), LastLook(acts))
    decreases |acts|
  {
    RunKeepsInv(acts, s);
    InvPlaces(s);
    if acts != [] {
      var front, a := acts[..|acts| - 1], acts[|acts| - 1];
      var m :| Run(front, m) && Enabled(m, a) && s == Step(m, a);
      RunTells(front, m);
      StepTells(m, a, LookupOf(front), LastLook(front));
    }
  }

  /** The verdict, in every interleaving: resolve_ipv4 returns 0 exactly when the result was handed
      over before it gave up, getaddrinfo gave a list with status 0, and its last look at the
      cancellation flag read false; the list is then the caller's and has not been freed. */
  lemma {:induction false} SucceedsExactly(acts: seq<Action>, s: State)
    requires Run(acts, s) && s.waiter.Returned?
    ensures s.waiter.success <==> s.done && Good(LookupOf(acts)) && !LastLook(acts)
    ensures s.waiter.success ==> s.made && s.frees == 0
    ensures !s.waiter.success && s.done ==> s.frees == if s.made then 1 else 0
  {
    RunKeepsInv(acts, s);
    RunTells(acts, s);
  }

  /** No look at the flag reads true, and no clock or wait fails. */
  predicate Undisturbed(acts: seq<Action>) {
    forall k :: 0 <= k < |acts| && acts[k].WaiterStep? ==> !acts[k].cancel && !acts[k].fails
  }

  lemma {:induction false} RunStaysOn(acts: seq<Action>, s: State)
    requires Run(acts, s) && Undisturbed(acts)
    ensures Staying(s)
    decreases |acts|
  {
    if acts != [] {
      var front, a := acts[..|acts| - 1], acts[|acts| - 1];
      var m :| Run(front, m) && Enabled(m, a) && s == Step(m, a);
      assert Undisturbed(front) by {
        assert forall k :: 0 <= k < |front| ==> front[k] == acts[k];
      }
      RunTells(front, m);
      RunStaysOn(front, m);
      StepTells(m, a, LookupOf(front), LastLook(front));
    }
  }

  /** Without cancellation and failing waits, the waiter waits however long the lookup takes, and
      returns 0 exactly when getaddrinfo gave a list with status 0. */
  lemma {:induction false} UndisturbedSucceeds(acts: seq<Action>, s: State)
    requires Run(acts, s) && Undisturbed(acts) && s.waiter.Returned?
    ensures s.waiter.success <==> Good(LookupOf(acts))
  {
    RunStaysOn(acts, s);
    SucceedsExactly(acts, s);
    LastOfUndisturbed(acts);
  }

  lemma {:induction false} LastOfUndisturbed(acts: seq<Action>)
    requires Undisturbed(acts)
    ensures !LastLook(acts)
  {
    if acts != [] {
      var front := acts[..|acts| - 1];
      assert Undisturbed(front) by {
        assert forall k :: 0 <= k < |front| ==> front[k] == acts[k];
      }
      LastOfUndisturbed(front);
    }
  }

  /** Every look at the flag reads true. */
  predicate Cancelled(acts: seq<Action>) {
    forall k :: 0 <= k < |acts| && acts[k].WaiterStep? ==> acts[k].cancel
  }

  /** A lookup that is cancelled from the start never waits, and does not succeed. */
  lemma {:induction false} CancelledNeverWaits(acts: seq<Action>, s: State)
    requires Run(acts, s) && Cancelled(acts)
    ensures NotWaiting(s.waiter)
    decreases |acts|
  {
    if acts != [] {
      var front, a := acts[..|acts| - 1], acts[|acts| - 1];
      var m :| Run(front, m) && Enabled(m, a) && s == Step(m, a);
      assert Cancelled(front) by {
        assert forall k :: 0 <= k < |front| ==> front[k] == acts[k];
      }
      CancelledNeverWaits(front, m);
      RunTells(front, m);
      StepTells(m, a, LookupOf(front), LastLook(front));
    }
  }

  // ---- every run can be finished ----

  lemma {:induction false} GoesOn(acts: seq<Action>, s: State, a: Action, t: State)
    requires Run(acts, s) && Enabled(s, a) && t == Step(s, a)
    ensures Run(acts + [a], t)
  {
    var more := acts + [a];
    assert more[..|more| - 1] == acts && more[|more| - 1] == a;
  }

  /** The resolver goes on where it can; where it waits for the mutex, the waiter does. */
  predicate ResolverCan(s: State) {
    !s.resolver.ResolverGone? && (s.resolver.Locking? ==> s.mutex.Unlocked?)
  }

  lemma WaiterCan(s: State)
    requires Inv(s) && !Over(s) && !ResolverCan(s)
    ensures Enabled(s, WaiterStep(false, false))
    ensures !s.resolver.ResolverGone? ==> s.mutex.HeldByWaiter?
  {
  }

  /** How far the waiter is from letting the resolver go on, or from its own end. */
  function Distance(s: State): nat {
    if s.resolver.ResolverGone? then WaiterRank(s.waiter)
    else if s.mutex.HeldByWaiter? then WaiterRank(s.waiter) + 1
    else 0
  }

  lemma WaiterGetsOn(s: State, t: State, cancel: bool, fails: bool, l: Lookup)
    requires Places(s) && WaiterMoved(s, t, cancel, fails, l)
    requires s.resolver.ResolverGone? || s.mutex.HeldByWaiter?
    ensures t.resolver == s.resolver && Distance(t) < Distance(s)
  {
  }

  /** The next step of the thread whose turn it is. */
  function NextStep(s: State, cancel: bool): Action {
    if ResolverCan(s) then ResolverStep(true, true) else WaiterStep(cancel, false)
  }

  /** It brings the end nearer. */
  predicate Nearer(s: State, t: State) {
    || ResolverRank(t.resolver) < ResolverRank(s.resolver)
    || (t.resolver == s.resolver && Distance(t) < Distance(s))
  }

  lemma NextStepGetsOn(s: State, l: Lookup, look: bool, cancel: bool)
    requires Inv(s) && Known(s, l, look) && !Over(s)
    ensures Enabled(s, NextStep(s, cancel)) && Nearer(s, Step(s, NextStep(s, cancel)))
  {
    var a := NextStep(s, cancel);
    if ResolverCan(s) {
      ResolverStepTells(s, a, l, look);
    } else {
      WaiterCan(s);
      WaiterStepTells(s, a, l, look);
      WaiterGetsOn(s, Step(s, a), cancel, false, l);
    }
  }

  lemma {:induction false} RunGetsOn(acts: seq<Action>, s: State, cancel: bool) returns (a: Action, t: State)
    requires Run(acts, s) && !Over(s)
    ensures a in {ResolverStep(true, true), WaiterStep(cancel, false)} && Run(acts + [a], t) && Nearer(s, t)
  {
    RunKeepsInv(acts, s);
    RunTells(acts, s);
    NextStepGetsOn(s, LookupOf(acts), LastLook(acts), cancel);
    a := NextStep(s, cancel);
    t := Step(s, a);
    GoesOn(acts, s, a, t);
  }

  /** Whatever has happened so far, both threads can come to their end: nobody is stuck, and no wait
      goes on for ever.  The steps that lead there are those of a good lookup, with the flag reading
      `cancel` and no failing wait. */
  lemma {:induction false} HandOffCanFinish(acts: seq<Action>, s: State, cancel: bool)
    returns (all: seq<Action>, t: State)
    requires Run(acts, s)
    ensures acts <= all && Run(all, t) && Over(t)
    ensures forall k :: |acts| <= k < |all| ==> all[k] in {ResolverStep(true, true), WaiterStep(cancel, false)}
    decreases ResolverRank(s.resolver), Distance(s)
  {
    if Over(s) {
      return acts, s;
    }
    var a, m := RunGetsOn(acts, s, cancel);
    all, t := HandOffCanFinish(acts + [a], m, cancel);
    assert all[|acts|] == a;
  }

  lemma {:induction false} AnsweredWell(acts: seq<Action>)
    requires forall k :: 0 <= k < |acts| && acts[k].ResolverStep? ==> acts[k] == ResolverStep(true, true)
    ensures LookupOf(acts).Unknown? || LookupOf(acts) == Answer(true, true)
  {
    if acts != [] {
      AnsweredWell(acts[..|acts| - 1]);
    }
  }

  /** Both verdicts happen: a run that nothing disturbs and whose lookup is good hands the list
      over, and one that is cancelled frees it. */
  lemma {:induction false} BothVerdictsHappen(cancel: bool) returns (acts: seq<Action>, s: State)
    ensures Run(acts, s) && Over(s) && s.waiter == Returned(!cancel) && s.made
    ensures s.frees == if cancel then 1 else 0
  {
    acts, s := HandOffCanFinish([], Init(), cancel);
    RunTells(acts, s);
    AnsweredWell(acts);
    HandOffIsComplete(acts, s);
    if cancel {
      CancelledNeverWaits(acts, s);
    } else {
      UndisturbedSucceeds(acts, s);
    }
  }
}
