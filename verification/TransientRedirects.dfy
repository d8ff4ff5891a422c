/** No command of src/operations.c redirects, at any table on its way and whatever fails, a
    destination that the configurations before and after it both exclude. */
module TransientRedirects {
  import opened Wrappers
  import opened Address
  import opened BypassLanguage
  import opened ConfigFile
  import opened Firewall
  import opened FirewallRuns
  import opened Operations
  import opened Transactions

  /** From `m` on every table spares `d`, the last one included. */
  ghost predicate SparedSince(m: Machine, n: Machine, d: Ipv4) {
    Since(m, n, SparingChains(d)) && Spares(n.table.chain, d)
  }

  lemma SparedJoins(m: Machine, n: Machine, o: Machine, d: Ipv4)
    requires SparedSince(m, n, d) && SparedSince(n, o, d)
    ensures SparedSince(m, o, d)
  {
    SinceJoins(m, n, o, SparingChains(d));
  }

  // ---- the firewall and the daemon ----

  lemma DisableSpares(m: Machine, d: Ipv4)
    requires Spares(m.table.chain, d)
    ensures SparedSince(m, Disable(m).m, d) && SparedSince(m, CleanUp(m), d)
  {
    DisableEffect(m, SparingChains(d));
  }

  lemma EnableOnSpares(s: Sys, c: Conf, d: Ipv4)
    requires Spares(s.m.table.chain, d) && Excluded(c, d)
    ensures SparedSince(s.m, EnableOn(s, c).s.m, d)
  {
    EnableSpares(s.m, c, d);
  }

  lemma StopSpares(s: Sys, d: Ipv4)
    requires Spares(s.m.table.chain, d)
    ensures SparedSince(s.m, StopDaemon(s).s.m, d)
  {
    var stopped := Flip(Flip(Flip(s).s).s).s;
    DisableSpares(stopped.m, d);
  }

  /** The configuration on disk, if there is one, excludes `d`. */
  ghost predicate DiskSpares(s: Sys, d: Ipv4) {
    LoadDisk(s).Some? ==> Excluded(LoadDisk(s).value, d)
  }

  lemma ProxyRunsSpares(s: Sys, c: Conf, d: Ipv4)
    requires Spares(s.m.table.chain, d) && Excluded(c, d)
    ensures SparedSince(s.m, ProxyRuns(s, c).s.m, d)
  {
    var recorded := Flip(Flip(s).s);
    EnableSpares(recorded.s.m, c, d);
    var enabled := if recorded.ok then Enable(recorded.s.m, c) else Outcome(recorded.s.m, false);
    DisableSpares(enabled.m, d);
    SparedJoins(s.m, enabled.m, Disable(enabled.m).m, d);
  }

  lemma DaemonStartsSpares(s: Sys, d: Ipv4)
    requires Spares(s.m.table.chain, d) && DiskSpares(s, d)
    ensures SparedSince(s.m, DaemonStarts(s).s.m, d)
  {
    if LoadDisk(s).Some? {
      ProxyRunsSpares(s, LoadDisk(s).value, d);
      var waited := Flip(ProxyRuns(s, LoadDisk(s).value).s).s;
      DisableSpares(waited.m, d);
      SparedJoins(s.m, waited.m, Disable(waited.m).m, d);
    }
  }

  lemma StartSpares(s: Sys, c: Conf, d: Ipv4)
    requires Spares(s.m.table.chain, d) && DiskSpares(s, d)
    ensures SparedSince(s.m, StartDaemon(s, c).s.m, d)
  {
    StopSpares(s, d);
    StopKeepsDisk(s);
    var cleared := StopDaemon(s);
    var spawned := Flip(cleared.s).s;
    if cleared.ok {
      assert LoadDisk(spawned) == LoadDisk(s);
      DaemonStartsSpares(spawned, d);
      SparedJoins(s.m, spawned.m, DaemonStarts(spawned).s.m, d);
    }
  }

  // ---- activate ----

  /** Disable, start and clean up. */
  lemma RestartSpares(s: Sys, c: Conf, d: Ipv4)
    requires Spares(s.m.table.chain, d) && DiskSpares(s, d)
    ensures var disabled := Disable(s.m);
      var s1 := s.(m := disabled.m);
      var started := if disabled.ok then StartDaemon(s1, c) else Result(s1, false);
      SparedSince(s.m, started.s.m, d) && SparedSince(s.m, CleanUp(started.s.m), d)
  {
    DisableSpares(s.m, d);
    var disabled := Disable(s.m);
    var s1 := s.(m := disabled.m);
    if disabled.ok {
      assert LoadDisk(s1) == LoadDisk(s);
      StartSpares(s1, c, d);
      SparedJoins(s.m, s1.m, StartDaemon(s1, c).s.m, d);
    }
    var started := if disabled.ok then StartDaemon(s1, c) else Result(s1, false);
    DisableSpares(started.s.m, d);
    SparedJoins(s.m, started.s.m, CleanUp(started.s.m), d);
  }

  lemma ActivateSpares(s: Sys, c: Conf, d: Ipv4)
    requires Spares(s.m.table.chain, d) && DiskSpares(s, d)
    ensures SparedSince(s.m, Activate(s, c).s.m, d)
  {
    var stopped := if s.record.Some? then StopDaemon(s) else Result(s, true);
    StopSpares(s, d);
    StopKeepsDisk(s);
    assert LoadDisk(stopped.s) == LoadDisk(s);
    RestartSpares(stopped.s, c, d);
    if stopped.ok && !(ServedBy(s, c) && IsEnabled(s.m.table, c)) {
      SparedJoins(s.m, stopped.s.m, Activate(s, c).s.m, d);
    }
  }

  // ---- the commands ----

  lemma EnableEndpointSpares(s: Sys, p: Endpoint, d: Ipv4)
    requires Spares(s.m.table.chain, d) && DiskSpares(s, d) && 1 <= p.port <= 65535
    requires Flip(s).ok ==> Excluded(WithProxy(LoadDisk(s), p), d)
    ensures SparedSince(s.m, EnableEndpoint(s, p).s.m, d) && DiskSpares(EnableEndpoint(s, p).s, d)
  {
    var previous, c := LoadDisk(s), WithProxy(LoadDisk(s), p);
    DiskIsValid(s);
    SaveEffect(s, c);
    var saved := Save(s, c);
    if saved.ok {
      ActivateSpares(saved.s, c, d);
      ActivateKeepsDisk(saved.s, c);
      var active := Activate(saved.s, c);
      assert LoadDisk(active.s) == Some(c);
      if !active.ok && previous.Some? {
        SaveBackEffect(active.s, previous.value);
        var back := SaveBack(active.s, previous.value);
        ActivateKeepsDisk(back, previous.value);
        BackSpares(active.s, previous.value, c, d);
        SparedJoins(s.m, back.m, Activate(back, previous.value).s.m, d);
      }
    }
  }

  lemma BackSpares(s: Sys, previous: Conf, c: Conf, d: Ipv4)
    requires Spares(s.m.table.chain, d) && Excluded(previous, d) && Excluded(c, d)
    requires LoadDisk(s) == Some(c) && ValidConf(previous)
    ensures var back := SaveBack(s, previous);
      back.m.history == s.m.history && back.m.table == s.m.table && SparedSince(back.m, Activate(back, previous).s.m, d)
  {
    var back := SaveBack(s, previous);
    SaveBackEffect(s, previous);
    assert DiskSpares(back, d) by {
      assert back.disk == s.disk ==> LoadDisk(back) == LoadDisk(s);
    }
    ActivateSpares(back, previous, d);
  }

  lemma ReplaceBypassSpares(s: Sys, previous: Conf, c: Conf, d: Ipv4)
    requires Spares(s.m.table.chain, d) && Excluded(previous, d) && (Flip(s).ok ==> Excluded(c, d))
    ensures SparedSince(s.m, ReplaceBypass(s, previous, c).s.m, d)
  {
    var saved := Save(s, c);
    var applied := if saved.ok && s.record.Some? then EnableOn(saved.s, c) else saved;
    if saved.ok {
      EnableOnSpares(saved.s, c, d);
    }
    if !applied.ok && s.record.Some? {
      ChainBackSpares(applied.s, previous, d);
      SparedJoins(s.m, applied.s.m, EnableOn(SaveBack(applied.s, previous), previous).s.m, d);
    }
  }

  lemma ChainBackSpares(s: Sys, previous: Conf, d: Ipv4)
    requires Spares(s.m.table.chain, d) && Excluded(previous, d)
    ensures SparedSince(s.m, EnableOn(SaveBack(s, previous), previous).s.m, d)
  {
    EnableOnSpares(SaveBack(s, previous), previous, d);
  }

  lemma ReplaceBypassDisk(s: Sys, previous: Conf, c: Conf, d: Ipv4)
    requires DiskSpares(s, d) && Excluded(previous, d) && (Flip(s).ok ==> Excluded(c, d))
    requires ValidConf(previous) && ValidConf(c)
    ensures DiskSpares(ReplaceBypass(s, previous, c).s, d)
  {
    var saved := Save(s, c);
    var applied := if saved.ok && s.record.Some? then EnableOn(saved.s, c) else saved;
    SaveEffect(s, c);
    assert DiskSpares(applied.s, d) by {
      assert applied.s.disk == saved.s.disk;
    }
    SaveBackEffect(applied.s, previous);
    assert DiskSpares(SaveBack(applied.s, previous), d);
  }

  /** The configuration that a command puts on disk, if it comes to that. */
  function SavedBy(s: Sys, e: Event): Option<Conf> {
    if !Flip(s).ok || !Flip(Flip(s).s).ok then None
    else
      match e
      case DoEnable(text) =>
        if ParseProxy(text).Some? then Some(WithProxy(LoadDisk(s), ParseProxy(text).value)) else None
      case DoSetBypass(text) =>
        if LoadDisk(s).Some? && ParseList(text).Some? then Some(LoadDisk(s).value.(bypass := ParseList(text).value))
        else None
      case _ => None
  }

  /** If the command puts a configuration on disk, that one excludes `d`. */
  ghost predicate CommandSpares(s: Sys, e: Event, d: Ipv4) {
    SavedBy(s, e).Some? ==> Excluded(SavedBy(s, e).value, d)
  }

  lemma SetBypassSpares(s: Sys, text: string, d: Ipv4)
    requires Spares(s.m.table.chain, d) && DiskSpares(s, d) && CommandSpares(s, DoSetBypass(text), d)
    ensures SparedSince(s.m, SetBypass(s, text).s.m, d) && DiskSpares(SetBypass(s, text).s, d)
  {
    var locked := Flip(s).s;
    assert LoadDisk(locked) == LoadDisk(s);
    if Flip(s).ok && LoadDisk(s).Some? && ParseList(text).Some? {
      var previous, c := LoadDisk(s).value, LoadDisk(s).value.(bypass := ParseList(text).value);
      assert Flip(locked).ok ==> SavedBy(s, DoSetBypass(text)) == Some(c);
      ReplaceBypassSpares(locked, previous, c, d);
      DiskIsValid(s);
      ListCanonical(text);
      ReplaceBypassDisk(locked, previous, c, d);
    }
  }

  lemma DisableProxySpares(s: Sys, d: Ipv4)
    requires Spares(s.m.table.chain, d) && DiskSpares(s, d)
    ensures SparedSince(s.m, DisableProxy(s).s.m, d) && DiskSpares(DisableProxy(s).s, d)
  {
    var locked := Flip(s).s;
    StopSpares(locked, d);
    StopKeepsDisk(locked);
    var stopped := StopDaemon(locked).s;
    DisableSpares(stopped.m, d);
    SparedJoins(s.m, stopped.m, CleanUp(stopped.m), d);
  }

  lemma PerformSpares(s: Sys, e: Event, d: Ipv4)
    requires Spares(s.m.table.chain, d) && DiskSpares(s, d) && CommandSpares(s, e, d)
    ensures SparedSince(s.m, Perform(s, e).s.m, d) && DiskSpares(Perform(s, e).s, d)
  {
    var locked := Flip(s).s;
    assert LoadDisk(locked) == LoadDisk(s);
    match e
    case DoEnable(text) =>
      if Flip(s).ok && ParseProxy(text).Some? {
        EnableEndpointSpares(locked, ParseProxy(text).value, d);
      }
    case DoEnableSaved =>
      if LoadDisk(s).Some? {
        ActivateSpares(locked, LoadDisk(s).value, d);
        ActivateKeepsDisk(locked, LoadDisk(s).value);
      }
    case DoSetBypass(text) =>
      SetBypassSpares(s, text, d);
    case DoDisable =>
      DisableProxySpares(s, d);
    case DaemonCrash =>
    case DaemonQuit => DisableSpares(s.m, d);
  }

  /** Every configuration that a run puts on disk excludes `d`. */
  ghost predicate RunSpares(s: Sys, events: seq<Event>, d: Ipv4)
    decreases |events|
  {
    events == [] || (CommandSpares(s, events[0], d) && RunSpares(Perform(s, events[0]).s, events[1..], d))
  }

  lemma {:induction false} PerformAllSpares(s: Sys, events: seq<Event>, d: Ipv4)
    requires Spares(s.m.table.chain, d) && DiskSpares(s, d) && RunSpares(s, events, d)
    ensures SparedSince(s.m, PerformAll(s, events).m, d)
    decreases |events|
  {
    if events != [] {
      var t := Perform(s, events[0]).s;
      PerformSpares(s, events[0], d);
      PerformAllSpares(t, events[1..], d);
      SparedJoins(s.m, t.m, PerformAll(t, events[1..]).m, d);
    }
  }

  /** No table of any run of commands and daemon deaths, whatever fails on the way, redirects a
      destination that the configuration on disk at the start and every one put there later exclude,
      provided that the chain at the start is that configuration's or there is none. */
  lemma NoTransientWrongRedirectInRun(s: Sys, events: seq<Event>, d: Ipv4, i: nat)
    requires s.m.table.chain.Some? ==> LoadDisk(s).Some? && s.m.table.chain == Some(Compile(LoadDisk(s).value))
    requires DiskSpares(s, d) && RunSpares(s, events, d)
    ensures var t := PerformAll(s, events);
      !Redirects(t.m.table, d) && (|s.m.history| <= i < |t.m.history| ==> !Redirects(t.m.history[i], d))
  {
    if LoadDisk(s).Some? {
      CompiledMeaning(LoadDisk(s).value, d);
    }
    PerformAllSpares(s, events, d);
    var t := PerformAll(s, events);
    if |s.m.history| <= i < |t.m.history| {
      assert SparingChains(d)(t.m.history[i].chain);
    }
  }

  /** From the chain of the configuration on disk: during any command, with its restarts and
      roll-backs, no table redirects a destination that the configuration before and the one the
      command puts on disk both exclude. */
  lemma NoTransientWrongRedirectInCommand(s: Sys, previous: Conf, e: Event, d: Ipv4, i: nat)
    requires LoadDisk(s) == Some(previous) && s.m.table.chain == Some(Compile(previous))
    requires Excluded(previous, d) && CommandSpares(s, e, d)
    ensures |s.m.history| <= i < |Perform(s, e).s.m.history| ==> !Redirects(Perform(s, e).s.m.history[i], d)
  {
    CompiledMeaning(previous, d);
    PerformSpares(s, e, d);
    if |s.m.history| <= i < |Perform(s, e).s.m.history| {
      assert SparingChains(d)(Perform(s, e).s.m.history[i].chain);
    }
  }

  /** fp_set_bypass with its roll-back, whatever fails: no table on the way redirects a destination
      that the old and the new list both exclude. */
  lemma NoTransientWrongRedirectInSetBypass(s: Sys, previous: Conf, text: string, d: Ipv4, i: nat)
    requires LoadDisk(s) == Some(previous) && s.m.table.chain == Some(Compile(previous))
    requires ParseList(text).Some? && Excluded(previous, d) && Excluded(previous.(bypass := ParseList(text).value), d)
    ensures |s.m.history| <= i < |SetBypass(s, text).s.m.history| ==> !Redirects(SetBypass(s, text).s.m.history[i], d)
  {
    NoTransientWrongRedirectInCommand(s, previous, DoSetBypass(text), d, i);
  }

  /** fp_enable_proxy with its stop, its restart and its roll-back, whatever fails: no table on the
      way redirects a destination that is excluded with the old proxy and with the new one. */
  lemma NoTransientWrongRedirectInEnableProxy(s: Sys, previous: Conf, text: string, d: Ipv4, i: nat)
    requires LoadDisk(s) == Some(previous) && s.m.table.chain == Some(Compile(previous))
    requires ParseProxy(text).Some?
    requires Excluded(previous, d) && Excluded(WithProxy(Some(previous), ParseProxy(text).value), d)
    ensures |s.m.history| <= i < |EnableProxy(s, text).s.m.history| ==>
      !Redirects(EnableProxy(s, text).s.m.history[i], d)
  {
    NoTransientWrongRedirectInCommand(s, previous, DoEnable(text), d, i);
  }
}
