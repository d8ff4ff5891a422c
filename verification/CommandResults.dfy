/** What the commands of src/operations.c come to for their caller: what success means for a
    connection, and what a command that fails or has nothing to do leaves as it was. */
module CommandResults {
  import opened Wrappers
  import opened Text
  import opened Address
  import opened BypassLanguage
  import opened ConfigFile
  import opened Firewall
  import opened FirewallRuns
  import opened Operations
  import opened Transactions

  // ---- success ----

  /** fp_set_bypass returning 0: with a daemon on record exactly the connections are redirected that
      are not to the proxy, not to loopback and matched by no token of the text; without one, none. */
  lemma SetBypassSucceeds(s: Sys, text: string, d: Ipv4)
    requires Consistent(s) && SetBypass(s, text).ok
    ensures LoadDisk(s).Some? && ParseList(text).Some?
    ensures Redirects(SetBypass(s, text).s.m.table, d) <==>
      && s.record.Some? && d != LoadDisk(s).value.addr && d / 0x100_0000 != 127
      && !(exists t :: t in Split(text, ',') && Matches(t, d))
    ensures var t := SetBypass(s, text).s;
      t.record == s.record && LoadDisk(t) == Some(LoadDisk(s).value.(bypass := ParseList(text).value))
  {
    SetBypassEffect(s, text);
    var previous, locked := LoadDisk(s).value, Flip(s).s;
    var c := previous.(bypass := ParseList(text).value);
    DiskIsValid(s);
    ListCanonical(text);
    ReplaceBypassEffect(locked, previous, c);
    ListMeaning(text, d);
    CompiledMeaning(c, d);
    LoopbackBlock(d);
    if s.record.None? && Redirects(SetBypass(s, text).s.m.table, d) {
      RedirectsInEffect(s.m.table, d);
    }
  }

  /** fp_disable_proxy returning 0: no daemon is on record, nothing is redirected, and the
      configuration and the other rules are as before. */
  lemma DisableSucceeds(s: Sys, d: Ipv4)
    requires DisableProxy(s).ok
    ensures var t := DisableProxy(s).s;
      && t.record.None? && !Redirects(t.m.table, d) && t.m.table.chain.None? && Jump !in t.m.table.output
      && t.disk == s.disk && Others(t.m.table.output) == Others(s.m.table.output)
  {
    var locked := Flip(s).s;
    var stopped := StopDaemon(locked).s;
    StopKeepsDisk(locked);
    StopKeepsOthers(locked);
    DisableEffect(stopped.m, _ => true);
    JumpIsThere(DisableProxy(s).s.m.table.output);
  }

  lemma StopKeepsOthers(s: Sys)
    ensures Others(StopDaemon(s).s.m.table.output) == Others(s.m.table.output)
  {
    CleanUpEffect(Flip(Flip(Flip(s).s).s).s.m);
  }

  // ---- nothing to do ----

  /** Only the outcomes to come are others. */
  predicate Untouched(s: Sys, t: Sys) {
    t == s.(m := s.m.(luck := t.m.luck))
  }

  /** A command that does not get the lock, whose text does not parse, or that finds no
      configuration where it needs one, fails and changes nothing. */
  predicate Refused(s: Sys, e: Event) {
    match e
    case DoEnable(text) => !Flip(s).ok || ParseProxy(text).None?
    case DoEnableSaved => !Flip(s).ok || LoadDisk(s).None?
    case DoSetBypass(text) => !Flip(s).ok || LoadDisk(s).None? || ParseList(text).None?
    case DoDisable => !Flip(s).ok
    case DaemonCrash => false
    case DaemonQuit => false
  }

  lemma RefusedChangesNothing(s: Sys, e: Event)
    requires Refused(s, e)
    ensures !Perform(s, e).ok && Untouched(s, Perform(s, e).s)
  {
    assert LoadDisk(Flip(s).s) == LoadDisk(s);
  }

  /** What runs already is left alone: the daemon is not restarted and no iptables command changes
      the table. */
  lemma EnablingTwiceChangesNothing(s: Sys, c: Conf)
    requires Running(s, c) && LoadDisk(s) == Some(c) && Flip(s).ok
    ensures EnableSaved(s).ok && Untouched(s, EnableSaved(s).s)
  {
    CompiledIsEnabled(s.m.table, c);
    assert LoadDisk(Flip(s).s) == LoadDisk(s);
  }

  // ---- failure ----

  /** A new daemon is started only when the old one is stopped and the firewall is disabled. */
  lemma ActivateStartsClean(s: Sys, c: Conf)
    requires !(ServedBy(s, c) && AllPresent(s.m.table, c))
    ensures var stopped := if s.record.Some? then StopDaemon(s) else Result(s, true);
      !stopped.ok || !Disable(stopped.s.m).ok ==>
        !Activate(s, c).ok && (stopped.ok ==> Activate(s, c).s.record.None?)
  {
    EnabledExactly(s.m.table, c);
    StopKeepsDisk(s);
  }

  /** Neither record nor jump nor chain. */
  predicate Gone(s: Sys) {
    s.record.None? && Jump !in s.m.table.output && s.m.table.chain.None?
  }

  lemma DisableGoes(s: Sys, m: Machine, stuck: bool)
    requires (m.table.chain.None? && !HasJump(m.table.output)) || Disable(m).ok
    ensures Gone(s.(record := None, m := Disable(m).m.(stuck := stuck)))
  {
    DisableEffect(m, _ => true);
    JumpIsThere(Disable(m).m.table.output);
  }

  /** A daemon that fails to start leaves nothing behind if any one of its clean-ups works: the one
      of fp_proxy_run when the record or the firewall has failed, and the one of main in any case. */
  lemma FailedStartIsUndone(s: Sys, c: Conf)
    requires LoadDisk(s) == Some(c)
    ensures var t, listening := DaemonStarts(s).s, Flip(s);
      var recorded := Flip(listening.s);
      var enabled := Enable(recorded.s.m, c);
      var ready := Flip(recorded.s.(m := enabled.m));
      && (!listening.ok && Disable(Flip(listening.s).s.m).ok ==> Gone(t))
      && (listening.ok && !recorded.ok && Disable(recorded.s.m).ok ==> Gone(t))
      && (listening.ok && recorded.ok && !enabled.ok && Disable(enabled.m).ok ==> Gone(t))
      && (listening.ok && recorded.ok && enabled.ok && !ready.ok && Disable(ready.s.m).ok ==> Gone(t))
  {
    var run := ProxyRuns(s, c);
    var waited := Flip(run.s).s;
    var recorded := Flip(Flip(s).s);
    DisableEffect(recorded.s.m, _ => true);
    DisableEffect(Enable(recorded.s.m, c).m, _ => true);
    if (waited.m.table.chain.None? && !HasJump(waited.m.table.output)) || Disable(waited.m).ok {
      DisableGoes(waited, waited.m, s.m.stuck);
    }
  }

  /** When nothing was running, a failed fp_enable_proxy starts nothing. */
  lemma FailedEnableStaysStopped(s: Sys, text: string)
    requires s.record.None? && !EnableProxy(s, text).ok
    ensures EnableProxy(s, text).s.record.None?
  {
    var locked := Flip(s).s;
    if Flip(s).ok && ParseProxy(text).Some? {
      var c := WithProxy(LoadDisk(locked), ParseProxy(text).value);
      ActivateFailsStopped(Save(locked, c).s, c);
    }
  }

  lemma ActivateFailsStopped(s: Sys, c: Conf)
    requires s.record.None?
    ensures !Activate(s, c).ok ==> Activate(s, c).s.record.None?
  {
    var disabled := Disable(s.m);
    StartEffect(s.(m := disabled.m), c);
  }

  /** When nothing was running, fp_set_bypass leaves the table alone, whether it fails or not. */
  lemma StoppedSetBypassLeavesTable(s: Sys, text: string)
    requires s.record.None?
    ensures SetBypass(s, text).s.m.table == s.m.table && SetBypass(s, text).s.m.history == s.m.history
    ensures SetBypass(s, text).s.record.None?
  {
  }
}
