/** Exactly when a command of src/operations.c loses the transaction invariant, in terms of the
    branches it takes, as long as the clean-ups of the firewall work. */
module TransactionFaults {
  import opened Wrappers
  import opened BypassLanguage
  import opened ConfigFile
  import opened Firewall
  import opened Operations
  import opened Transactions

  // ---- replacing the bypass list ----

  /** The new list was saved, the firewall could not be rebuilt, the old list could not be saved
      back, and the old chain was put back into effect. */
  predicate BypassLost(s: Sys, previous: Conf, c: Conf) {
    var saved := Save(s, c);
    var applied := EnableOn(saved.s, c);
    && c != previous && s.record.Some? && saved.ok && !applied.ok
    && !Flip(applied.s).ok && EnableOn(SaveBack(applied.s, previous), previous).ok
  }

  /** With the chain of `previous` or none in effect, a list on disk is guarded exactly when it is
      that of `previous` or nothing is in effect. */
  lemma GuardedExactly(s: Sys, previous: Conf, disk: Conf)
    requires s.record.Some? && s.record.value.proxy == ProxyOf(previous) == ProxyOf(disk)
    requires ValidConf(previous) && ValidConf(disk)
    requires InEffect(s.m.table) ==> s.m.table.chain == Some(Compile(previous))
    ensures Guarded(s, Some(disk)) <==> !(disk != previous && InEffect(s.m.table))
  {
    if Compile(disk) == Compile(previous) {
      CompileTells(disk, previous);
    }
  }

  /** Saving back leaves the old configuration on disk, or what was there. */
  lemma SaveBackLeaves(s: Sys, previous: Conf, c: Conf)
    requires ValidConf(previous) && LoadDisk(s) == Some(c)
    ensures LoadDisk(SaveBack(s, previous)) == Some(if Flip(s).ok then previous else c)
    ensures OnlyDiskChanges(s, SaveBack(s, previous))
  {
    SaveLoadRoundTrip(previous);
  }

  /** The roll-back of fp_set_bypass with a daemon on record and the new list on disk. */
  lemma RollBackLosesExactly(s: Sys, previous: Conf, c: Conf)
    requires s.record.Some? && s.record.value.proxy == ProxyOf(previous) && LoadDisk(s) == Some(c)
    requires ValidConf(previous) && ValidConf(c) && ProxyOf(c) == ProxyOf(previous)
    ensures var r := EnableOn(SaveBack(s, previous), previous);
      r.s.m.stuck || (Consistent(r.s) <==> !(c != previous && !Flip(s).ok && r.ok))
  {
    SaveBackLeaves(s, previous, c);
    EnableOnEffect(SaveBack(s, previous), previous);
    var t := EnableOn(SaveBack(s, previous), previous).s;
    if !t.m.stuck {
      GuardedExactly(t, previous, if Flip(s).ok then previous else c);
    }
  }

  lemma ReplaceBypassLosesExactly(s: Sys, previous: Conf, c: Conf)
    requires Guarded(s, Some(previous)) && LoadDisk(s) == Some(previous)
    requires ValidConf(previous) && ValidConf(c) && ProxyOf(c) == ProxyOf(previous)
    requires !ReplaceBypass(s, previous, c).s.m.stuck
    ensures Consistent(ReplaceBypass(s, previous, c).s) <==> !BypassLost(s, previous, c)
  {
    SaveEffect(s, c);
    var saved := Save(s, c);
    if s.record.Some? && saved.ok {
      EnableOnEffect(saved.s, c);
      var applied := EnableOn(saved.s, c);
      if !applied.ok {
        RollBackLosesExactly(applied.s, previous, c);
      }
    } else if !saved.ok {
      SaveBackEffect(saved.s, previous);
      EnableOnEffect(SaveBack(saved.s, previous), previous);
    }
  }

  // ---- enabling a proxy ----

  /** fp_stop_daemon fails without an orderly end of the daemon, so the record stays. */
  predicate StaysOnRecord(s: Sys) {
    s.record.Some? && !StopDaemon(s).ok && !Flip(s).ok
  }

  /** activate_proxy_locked finds nothing to do. */
  predicate AlreadyActive(s: Sys, c: Conf) {
    ServedBy(s, c) && IsEnabled(s.m.table, c)
  }

  /** The new proxy was saved, the old daemon could not be stopped, the old configuration could
      not be saved back, and the old daemon was then found active or again could not be stopped. */
  predicate EnableLost(s: Sys, p: Endpoint) {
    var c := WithProxy(LoadDisk(s), p);
    var saved := Save(s, c);
    var stopped := StopDaemon(saved.s).s;
    match LoadDisk(s)
    case None => false
    case Some(previous) =>
      && c != previous && saved.ok && StaysOnRecord(saved.s) && !Flip(stopped).ok
      && var back := SaveBack(stopped, previous);
         AlreadyActive(back, previous) || StaysOnRecord(back)
  }

  lemma StopThatStays(s: Sys, c: Conf)
    requires StaysOnRecord(s) && !AlreadyActive(s, c)
    ensures Activate(s, c) == StopDaemon(s)
    ensures StopDaemon(s).s.record.Some? && StopDaemon(s).s.record.value.proxy == s.record.value.proxy
    ensures StopDaemon(s).s.m.table == s.m.table && StopDaemon(s).s.disk == s.disk
      && StopDaemon(s).s.m.stuck == s.m.stuck
  {
  }

  /** An activation that gets past the old daemon ends consistently, whatever it was asked for. */
  lemma ActivateServesDisk(s: Sys, c: Conf)
    requires !AlreadyActive(s, c) && !StaysOnRecord(s)
    ensures var r := Activate(s, c);
      r.s.m.stuck || (if r.ok then LoadDisk(s).Some? && Running(r.s, LoadDisk(s).value)
                      else r.s.record.None? && !InEffect(r.s.m.table))
  {
    var stopped := if s.record.Some? then StopDaemon(s) else Result(s, true);
    StopKeepsDisk(s);
    CleanUpQuiets(Flip(Flip(Flip(s).s).s).s.m);
    if stopped.ok {
      var disabled := Disable(stopped.s.m);
      DisableQuiets(stopped.s.m);
      var s1 := stopped.s.(m := disabled.m);
      StartEffect(s1, c);
      CleanUpQuiets((if disabled.ok then StartDaemon(s1, c) else Result(s1, false)).s.m);
    }
  }

  lemma ActivateEndsConsistent(s: Sys, c: Conf)
    requires !AlreadyActive(s, c) && !StaysOnRecord(s) && !Activate(s, c).s.m.stuck
    ensures Consistent(Activate(s, c).s)
    ensures !Activate(s, c).ok ==> Activate(s, c).s.record.None? && !InEffect(Activate(s, c).s.m.table)
  {
    ActivateServesDisk(s, c);
    ActivateKeepsDisk(s, c);
    if Activate(s, c).ok {
      RunningIsGuarded(Activate(s, c).s, LoadDisk(s).value);
    }
  }

  /** No record and nothing in effect is consistent with any disk. */
  lemma NothingRunsIsConsistent(s: Sys)
    requires s.record.None? && !InEffect(s.m.table)
    ensures Consistent(s)
  {
  }

  /** The roll-back of fp_enable_proxy after an activation that got rid of the old daemon. */
  lemma RollBackFromNothing(s: Sys, previous: Conf)
    requires s.record.None? && !InEffect(s.m.table)
    ensures var back := SaveBack(s, previous);
      Consistent(back) && (Activate(back, previous).s.m.stuck || Consistent(Activate(back, previous).s))
  {
    var back := SaveBack(s, previous);
    NothingRunsIsConsistent(back);
    if !Activate(back, previous).s.m.stuck {
      ActivateEndsConsistent(back, previous);
    }
  }

  /** The roll-back of fp_enable_proxy while the old daemon is still on record. */
  lemma RollBackBesideOldDaemon(s: Sys, previous: Conf, c: Conf)
    requires Guarded(s, Some(previous)) && s.record.Some? && LoadDisk(s) == Some(c)
    requires ValidConf(previous) && ProxyOf(c) != ProxyOf(previous)
    requires !Activate(SaveBack(s, previous), previous).s.m.stuck
    ensures var back := SaveBack(s, previous);
      Consistent(Activate(back, previous).s) <==>
        !(!Flip(s).ok && (AlreadyActive(back, previous) || StaysOnRecord(back)))
  {
    var back := SaveBack(s, previous);
    SaveBackLeaves(s, previous, c);
    if Flip(s).ok {
      ActivateDisk(back, previous);
    } else if AlreadyActive(back, previous) {
      assert Activate(back, previous).s == back;
    } else if StaysOnRecord(back) {
      StopThatStays(back, previous);
      SameDisk(back, StopDaemon(back).s);
    } else {
      ActivateEndsConsistent(back, previous);
    }
  }

  lemma SameDisk(s: Sys, t: Sys)
    requires t.disk == s.disk
    ensures LoadDisk(t) == LoadDisk(s)
  {
  }

  /** fp_enable_proxy with the new configuration saved, the old daemon not stopped. */
  lemma EnableBesideOldDaemon(s: Sys, p: Endpoint, previous: Conf)
    requires Guarded(s, Some(previous)) && LoadDisk(s) == Some(previous) && 1 <= p.port <= 65535 && ValidConf(previous)
    requires var c := WithProxy(Some(previous), p);
      c != previous && Save(s, c).ok && StaysOnRecord(Save(s, c).s)
    requires !EnableEndpoint(s, p).s.m.stuck
    ensures Consistent(EnableEndpoint(s, p).s) <==> !EnableLost(s, p)
  {
    var c := WithProxy(Some(previous), p);
    SaveEffect(s, c);
    var saved := Save(s, c);
    StopThatStays(saved.s, c);
    var stopped := StopDaemon(saved.s).s;
    SameDisk(saved.s, stopped);
    RollBackBesideOldDaemon(stopped, previous, c);
  }

  /** fp_enable_proxy in every other case: it ends consistently. */
  lemma EnableOtherwise(s: Sys, p: Endpoint)
    requires Consistent(s) && 1 <= p.port <= 65535
    requires var c := WithProxy(LoadDisk(s), p);
      Save(s, c).ok && !AlreadyActive(Save(s, c).s, c) && !StaysOnRecord(Save(s, c).s)
    requires !EnableEndpoint(s, p).s.m.stuck
    ensures Consistent(EnableEndpoint(s, p).s)
  {
    var previous, c := LoadDisk(s), WithProxy(LoadDisk(s), p);
    var active := Activate(Save(s, c).s, c);
    if !active.s.m.stuck {
      ActivateEndsConsistent(Save(s, c).s, c);
    }
    if !active.ok && previous.Some? {
      ActivateKeepsDisk(SaveBack(active.s, previous.value), previous.value);
      RollBackFromNothing(active.s, previous.value);
    }
  }

  /** The old proxy again: the list is kept, so the configuration is unchanged and every branch
      keeps the invariant. */
  lemma EnableSameProxy(s: Sys, p: Endpoint)
    requires Consistent(s) && 1 <= p.port <= 65535 && LoadDisk(s) == Some(WithProxy(LoadDisk(s), p))
    requires !EnableEndpoint(s, p).s.m.stuck
    ensures Consistent(EnableEndpoint(s, p).s)
  {
    var c := WithProxy(LoadDisk(s), p);
    DiskIsValid(s);
    SaveEffect(s, c);
    var saved := Save(s, c);
    if saved.ok {
      ActivateKeepsDisk(saved.s, c);
      ActivateDisk(saved.s, c);
      var active := Activate(saved.s, c);
      if !active.ok {
        SameDisk(saved.s, active.s);
        SaveBackLeaves(active.s, c, c);
        ActivateKeepsDisk(SaveBack(active.s, c), c);
        ActivateDisk(SaveBack(active.s, c), c);
      }
    }
  }

  lemma EnableLosesExactly(s: Sys, p: Endpoint)
    requires Consistent(s) && 1 <= p.port <= 65535 && !EnableEndpoint(s, p).s.m.stuck
    ensures Consistent(EnableEndpoint(s, p).s) <==> !EnableLost(s, p)
  {
    var c := WithProxy(LoadDisk(s), p);
    DiskIsValid(s);
    SaveEffect(s, c);
    var saved := Save(s, c);
    if LoadDisk(s) == Some(c) {
      EnableSameProxy(s, p);
    } else if saved.ok {
      if StaysOnRecord(saved.s) {
        EnableBesideOldDaemon(s, p, LoadDisk(s).value);
      } else {
        assert !AlreadyActive(saved.s, c);
        EnableOtherwise(s, p);
      }
    }
  }

  // ---- commands and runs ----

  /** The command loses the invariant. */
  predicate Loses(s: Sys, e: Event) {
    match e
    case DoEnable(text) => Flip(s).ok && ParseProxy(text).Some? && EnableLost(Flip(s).s, ParseProxy(text).value)
    case DoSetBypass(text) =>
      && Flip(s).ok && LoadDisk(s).Some? && ParseList(text).Some?
      && BypassLost(Flip(s).s, LoadDisk(s).value, LoadDisk(s).value.(bypass := ParseList(text).value))
    case DoEnableSaved => false
    case DoDisable => false
    case DaemonCrash => false
    case DaemonQuit => false
  }

  lemma EnableProxyLosesExactly(s: Sys, text: string)
    requires Consistent(s) && !EnableProxy(s, text).s.m.stuck
    ensures Consistent(EnableProxy(s, text).s) <==> !Loses(s, DoEnable(text))
  {
    SameDisk(s, Flip(s).s);
    if Flip(s).ok && ParseProxy(text).Some? {
      EnableLosesExactly(Flip(s).s, ParseProxy(text).value);
    }
  }

  /** Past lock, load and parsing. */
  lemma SetBypassIsReplace(s: Sys, text: string, previous: Conf, c: Conf)
    requires Flip(s).ok && LoadDisk(s) == Some(previous) && ParseList(text) == Some(c.bypass)
    requires c == previous.(bypass := c.bypass)
    ensures SetBypass(s, text) == ReplaceBypass(Flip(s).s, previous, c)
    ensures Loses(s, DoSetBypass(text)) <==> BypassLost(Flip(s).s, previous, c)
  {
    SameDisk(s, Flip(s).s);
  }

  lemma SetBypassLosesExactly(s: Sys, text: string)
    requires Consistent(s) && !SetBypass(s, text).s.m.stuck
    ensures Consistent(SetBypass(s, text).s) <==> !Loses(s, DoSetBypass(text))
  {
    SameDisk(s, Flip(s).s);
    DiskIsValid(s);
    ListCanonical(text);
    if Flip(s).ok && LoadDisk(s).Some? && ParseList(text).Some? {
      var previous, c := LoadDisk(s).value, LoadDisk(s).value.(bypass := ParseList(text).value);
      SetBypassIsReplace(s, text, previous, c);
      ReplaceBypassLosesExactly(Flip(s).s, previous, c);
    }
  }

  /** As long as the clean-ups of the firewall work, an event takes a consistent state to an
      inconsistent one exactly when it is one of the two commands on its losing branch. */
  lemma PerformLosesExactly(s: Sys, e: Event)
    requires Consistent(s) && !Perform(s, e).s.m.stuck
    ensures Consistent(Perform(s, e).s) <==> !Loses(s, e)
  {
    match e
    case DoEnable(text) => EnableProxyLosesExactly(s, text);
    case DoEnableSaved => EnableSavedEffect(s);
    case DoSetBypass(text) => SetBypassLosesExactly(s, text);
    case DoDisable => DisableProxyEffect(s);
    case DaemonCrash => DaemonEndsEffect(s);
    case DaemonQuit => DaemonEndsEffect(s);
  }

  /** No event of the run is on its losing branch. */
  predicate NothingLost(s: Sys, events: seq<Event>)
    decreases |events|
  {
    events == [] || (!Loses(s, events[0]) && NothingLost(Perform(s, events[0]).s, events[1..]))
  }

  lemma {:induction false} StuckStays(s: Sys, events: seq<Event>)
    requires s.m.stuck
    ensures PerformAll(s, events).m.stuck
    decreases |events|
  {
    if events != [] {
      PerformKeepsFaults(s, events[0]);
      StuckStays(Perform(s, events[0]).s, events[1..]);
    }
  }

  /** Over all runs in which the clean-ups of the firewall work: while no command is on a losing
      branch, every rest point is consistent. */
  lemma {:induction false} RunsWithoutLoss(s: Sys, events: seq<Event>)
    requires Consistent(s) && NothingLost(s, events) && !PerformAll(s, events).m.stuck
    ensures Consistent(PerformAll(s, events))
    decreases |events|
  {
    if events != [] {
      var t := Perform(s, events[0]).s;
      if t.m.stuck {
        StuckStays(t, events[1..]);
      } else {
        PerformLosesExactly(s, events[0]);
        RunsWithoutLoss(t, events[1..]);
      }
    }
  }
}
