/** The transaction invariant of src/operations.c: whenever redirection is in effect at a
    rest point, the chain is the one compiled from the configuration on disk. */
module Transactions {
  import opened Wrappers
  import opened Address
  import opened BypassLanguage
  import opened ConfigFile
  import opened Firewall
  import opened FirewallRuns
  import opened Operations

  // ---- redirection in effect ----

  /** Some rule of the chain redirects. */
  predicate Armed(chain: seq<Rule>) {
    chain != [] && (chain[0].target.Redirect? || Armed(chain[1..]))
  }

  /** Redirection is in effect. */
  predicate InEffect(t: Table) {
    HasJump(t.output) && t.chain.Some? && Armed(t.chain.value)
  }

  lemma {:induction false} ArmedByRule(chain: seq<Rule>, rule: Rule)
    requires rule in chain && rule.target.Redirect?
    ensures Armed(chain)
  {
    if chain[0] != rule {
      assert rule in chain[1..];
      ArmedByRule(chain[1..], rule);
    }
  }

  lemma {:induction false} UnarmedReturns(chain: seq<Rule>, d: Ipv4)
    requires !Armed(chain)
    ensures Decide(chain, d) != Redirect(LISTEN_PORT)
  {
    if chain != [] {
      UnarmedReturns(chain[1..], d);
    }
  }

  /** A table that redirects any connection is in effect. */
  lemma RedirectsInEffect(t: Table, d: Ipv4)
    requires Redirects(t, d)
    ensures InEffect(t)
  {
    if !Armed(t.chain.value) {
      UnarmedReturns(t.chain.value, d);
    }
  }

  lemma CompiledIsArmed(c: Conf)
    ensures Armed(Compile(c))
  {
    assert Compile(c)[|Compile(c)| - 1] == REDIRECT_ALL;
    ArmedByRule(Compile(c), REDIRECT_ALL);
  }

  /** A table that passes fp_firewall_is_enabled is in effect. */
  lemma EnabledInEffect(t: Table, c: Conf)
    requires IsEnabled(t, c)
    ensures InEffect(t)
  {
    ArmedByRule(t.chain.value, REDIRECT_ALL);
  }

  // ---- the invariant ----

  /** At rest a pid record names the proxy of the configuration, and redirection in effect
      means that there is a record and that the chain is compiled from the configuration. */
  predicate Guarded(s: Sys, conf: Option<Conf>) {
    && (s.record.Some? ==> conf.Some? && s.record.value.proxy == ProxyOf(conf.value))
    && (InEffect(s.m.table) ==> s.record.Some? && s.m.table.chain == Some(Compile(conf.value)))
  }

  /** The transaction invariant. */
  predicate Consistent(s: Sys) {
    Guarded(s, LoadDisk(s))
  }

  /** No clean-up of the firewall and no roll-back of the disk has failed. */
  predicate Sound(s: Sys) {
    !s.m.stuck && !s.unsaved
  }

  /** The daemon for `c` runs and redirection for `c` is in effect. */
  predicate Running(s: Sys, c: Conf) {
    ServedBy(s, c) && s.m.table.chain == Some(Compile(c)) && HasJump(s.m.table.output)
  }

  lemma RunningIsGuarded(s: Sys, c: Conf)
    requires Running(s, c)
    ensures Guarded(s, Some(c)) && InEffect(s.m.table)
  {
    CompiledIsArmed(c);
  }

  /** `t` came from `s` without touching the disk; what went wrong stays on record. */
  predicate DiskKept(s: Sys, t: Sys) {
    t.disk == s.disk && t.unsaved == s.unsaved && (s.m.stuck ==> t.m.stuck)
  }

  /** What went wrong stays on record. */
  predicate FaultsKept(s: Sys, t: Sys) {
    (s.unsaved ==> t.unsaved) && (s.m.stuck ==> t.m.stuck)
  }

  // ---- the firewall ----

  lemma DisableQuiets(m: Machine)
    ensures var r := Disable(m);
      && r.m.stuck == m.stuck
      && (r.ok ==> !InEffect(r.m.table))
      && (r.m.table.chain == m.table.chain || !InEffect(r.m.table))
      && (InEffect(r.m.table) ==> InEffect(m.table))
  {
    DisableEffect(m, _ => true);
  }

  lemma CleanUpQuiets(m: Machine)
    ensures var n := CleanUp(m);
      && (m.stuck ==> n.stuck)
      && (!n.stuck ==> !InEffect(n.table))
      && (n.table.chain == m.table.chain || !InEffect(n.table))
      && (InEffect(n.table) ==> InEffect(m.table))
  {
    DisableQuiets(m);
  }

  // ---- the daemon ----

  lemma StopKeepsDisk(s: Sys)
    ensures DiskKept(s, StopDaemon(s).s) && (StopDaemon(s).ok ==> StopDaemon(s).s.record.None?)
    ensures s.record.None? ==> StopDaemon(s).s.record.None?
  {
    CleanUpQuiets(Flip(Flip(Flip(s).s).s).s.m);
  }

  lemma StopKeepsGuard(s: Sys, conf: Option<Conf>)
    requires Guarded(s, conf) && !StopDaemon(s).ok && !StopDaemon(s).s.m.stuck
    ensures Guarded(StopDaemon(s).s, conf)
  {
    var stopped := Flip(Flip(Flip(s).s).s);
    CleanUpQuiets(stopped.s.m);
  }

  lemma ProxyRunsEffect(s: Sys, c: Conf)
    ensures var r := ProxyRuns(s, c); DiskKept(s, r.s) && (r.ok ==> Running(r.s, c))
  {
    var recorded := Flip(Flip(s).s);
    EnableEffect(recorded.s.m, c);
    DisableEffect(if recorded.ok then Enable(recorded.s.m, c).m else recorded.s.m, _ => true);
  }

  lemma DaemonStartsKeepsDisk(s: Sys)
    ensures DiskKept(s, DaemonStarts(s).s)
    ensures !DaemonStarts(s).ok ==> DaemonStarts(s).s.record.None? || DaemonStarts(s).s.record == s.record
  {
    if LoadDisk(s).Some? {
      ProxyRunsEffect(s, LoadDisk(s).value);
    }
  }

  /** A daemon that reports ready serves the proxy on disk behind the chain compiled from disk. */
  lemma ReadyDaemonServesDisk(s: Sys)
    requires DaemonStarts(s).ok
    ensures LoadDisk(s).Some? && Running(DaemonStarts(s).s, LoadDisk(s).value)
  {
    ProxyRunsEffect(s, LoadDisk(s).value);
  }

  lemma StartKeepsDisk(s: Sys, c: Conf)
    ensures DiskKept(s, StartDaemon(s, c).s)
  {
    StopKeepsDisk(s);
    var spawned := Flip(StopDaemon(s).s);
    DaemonStartsKeepsDisk(spawned.s);
  }

  /** Whatever configuration it is called with, a started daemon serves the one on disk. */
  lemma StartEffect(s: Sys, c: Conf)
    requires s.record.None?
    ensures var r := StartDaemon(s, c);
      if r.ok then LoadDisk(s).Some? && Running(r.s, LoadDisk(s).value) else r.s.record.None?
  {
    StopKeepsDisk(s);
    var spawned := Flip(StopDaemon(s).s);
    DaemonStartsKeepsDisk(spawned.s);
    if spawned.ok && DaemonStarts(spawned.s).ok {
      ReadyDaemonServesDisk(spawned.s);
    }
  }

  // ---- activate ----

  lemma ActivateKeepsDisk(s: Sys, c: Conf)
    ensures DiskKept(s, Activate(s, c).s)
  {
    StopKeepsDisk(s);
    var stopped := if s.record.Some? then StopDaemon(s) else Result(s, true);
    var disabled := Disable(stopped.s.m);
    DisableQuiets(stopped.s.m);
    var s1 := stopped.s.(m := disabled.m);
    StartKeepsDisk(s1, c);
    CleanUpQuiets((if disabled.ok then StartDaemon(s1, c) else Result(s1, false)).s.m);
  }

  /** activate_proxy_locked for the configuration on disk, coming from a table guarded by the
      configuration that was there before. */
  lemma ActivateEffect(s: Sys, c: Conf, conf: Option<Conf>)
    requires LoadDisk(s) == Some(c) && Guarded(s, conf)
    requires conf.Some? && ProxyOf(conf.value) == ProxyOf(c) ==> conf.value == c
    ensures var r := Activate(s, c);
      if r.ok then Running(r.s, c) else r.s.m.stuck || Guarded(r.s, conf)
  {
    if ServedBy(s, c) && IsEnabled(s.m.table, c) {
      EnabledInEffect(s.m.table, c);
    } else {
      var stopped := if s.record.Some? then StopDaemon(s) else Result(s, true);
      StopKeepsDisk(s);
      if stopped.ok {
        var disabled := Disable(stopped.s.m);
        DisableQuiets(stopped.s.m);
        var s1 := stopped.s.(m := disabled.m);
        StartEffect(s1, c);
        CleanUpQuiets((if disabled.ok then StartDaemon(s1, c) else Result(s1, false)).s.m);
      } else if !stopped.s.m.stuck {
        StopKeepsGuard(s, conf);
      }
    }
  }

  /** The same, with the outcome judged by the disk. */
  lemma ActivateDisk(s: Sys, c: Conf)
    requires LoadDisk(s) == Some(c) && Guarded(s, Some(c))
    ensures var r := Activate(s, c);
      DiskKept(s, r.s) && (r.ok ==> Running(r.s, c)) && (r.s.m.stuck || Consistent(r.s))
  {
    ActivateKeepsDisk(s, c);
    ActivateEffect(s, c, Some(c));
    if Activate(s, c).ok {
      RunningIsGuarded(Activate(s, c).s, c);
    }
  }

  // ---- saving ----

  lemma DiskIsValid(s: Sys)
    ensures LoadDisk(s).Some? ==> ValidConf(LoadDisk(s).value)
  {
    if s.disk.Some? {
      LoadedIsValid(s.disk.value);
    }
  }

  /** Only the disk and the luck change. */
  predicate OnlyDiskChanges(s: Sys, t: Sys) {
    t.record == s.record && t.m.table == s.m.table && t.m.stuck == s.m.stuck
  }

  lemma SaveEffect(s: Sys, c: Conf)
    requires ValidConf(c)
    ensures var r := Save(s, c);
      && OnlyDiskChanges(s, r.s) && r.s.unsaved == s.unsaved
      && (if r.ok then LoadDisk(r.s) == Some(c) else r.s.disk == s.disk)
  {
    SaveLoadRoundTrip(c);
  }

  lemma SaveBackEffect(s: Sys, c: Conf)
    requires ValidConf(c)
    ensures var t := SaveBack(s, c);
      && OnlyDiskChanges(s, t)
      && (t.unsaved <==> s.unsaved || LoadDisk(t) != Some(c))
      && (t.disk == s.disk || LoadDisk(t) == Some(c))
  {
    SaveEffect(s, c);
  }

  // ---- enabling ----

  /** The invariant holds unless something went wrong that the program ignores. */
  predicate Settled(t: Sys) {
    Sound(t) ==> Consistent(t)
  }

  /** The disk names the proxy, with the bypass list that was there before, or none. */
  predicate Renamed(s: Sys, t: Sys, p: Endpoint) {
    match LoadDisk(s)
    case Some(previous) => LoadDisk(t) == Some(Conf(p.addr, p.port, previous.bypass))
    case None => LoadDisk(t) == Some(Conf(p.addr, p.port, []))
  }

  /** The proxy has been changed: it is on disk with the old list, and what is on disk runs. */
  predicate Switched(s: Sys, t: Sys, p: Endpoint) {
    Renamed(s, t, p) && t.record == Some(Record(p, true)) && Running(t, LoadDisk(t).value)
  }

  lemma EnableEndpointEffect(s: Sys, p: Endpoint)
    requires Consistent(s) && 1 <= p.port <= 65535
    ensures var r := EnableEndpoint(s, p);
      && Settled(r.s)
      && (r.ok ==> Switched(s, r.s, p))
      && (r.ok ==> LoadDisk(r.s) == Some(WithProxy(LoadDisk(s), p)) && Running(r.s, WithProxy(LoadDisk(s), p)))
  {
    var previous, c := LoadDisk(s), WithProxy(LoadDisk(s), p);
    DiskIsValid(s);
    SaveEffect(s, c);
    var saved := Save(s, c);
    if saved.ok {
      ActivateKeepsDisk(saved.s, c);
      ActivateEffect(saved.s, c, previous);
      var active := Activate(saved.s, c);
      if active.ok {
        RunningIsGuarded(active.s, c);
      } else if previous.Some? {
        SaveBackEffect(active.s, previous.value);
        var back := SaveBack(active.s, previous.value);
        ActivateKeepsDisk(back, previous.value);
        if Sound(back) {
          ActivateDisk(back, previous.value);
        }
      }
    }
  }

  lemma EnableProxyEffect(s: Sys, text: string)
    requires Consistent(s)
    ensures var r := EnableProxy(s, text);
      && Settled(r.s)
      && (r.ok ==> ParseProxy(text).Some? && Switched(s, r.s, ParseProxy(text).value))
      && (r.ok ==> Running(r.s, WithProxy(LoadDisk(s), ParseProxy(text).value)))
      && (r.ok ==> LoadDisk(r.s) == Some(WithProxy(LoadDisk(s), ParseProxy(text).value)))
  {
    var locked := Flip(s);
    if locked.ok && ParseProxy(text).Some? {
      EnableEndpointEffect(locked.s, ParseProxy(text).value);
    }
  }

  lemma EnableSavedEffect(s: Sys)
    requires Consistent(s)
    ensures var r := EnableSaved(s);
      && (r.s.m.stuck || Consistent(r.s)) && r.s.disk == s.disk
      && (r.ok ==> LoadDisk(s).Some? && Running(r.s, LoadDisk(s).value))
  {
    var locked := Flip(s);
    if locked.ok && LoadDisk(s).Some? {
      ActivateDisk(locked.s, LoadDisk(s).value);
    }
  }

  // ---- replacing the bypass list ----

  lemma EnableOnEffect(s: Sys, c: Conf)
    ensures var r := EnableOn(s, c);
      && DiskKept(s, r.s) && r.s.record == s.record
      && (r.ok ==> r.s.m.table.chain == Some(Compile(c)) && r.s.m.stuck == s.m.stuck && InEffect(r.s.m.table))
      && (!r.ok ==> r.s.m.stuck || !InEffect(r.s.m.table))
  {
    EnableEffect(s.m, c);
    CompiledIsArmed(c);
  }

  lemma ReplaceBypassEffect(s: Sys, previous: Conf, c: Conf)
    requires Guarded(s, Some(previous)) && LoadDisk(s) == Some(previous)
    requires ValidConf(previous) && ValidConf(c) && ProxyOf(c) == ProxyOf(previous)
    ensures var r := ReplaceBypass(s, previous, c);
      && Settled(r.s)
      && (r.ok ==> LoadDisk(r.s) == Some(c) && r.s.record == s.record)
      && (r.ok && s.record.Some? ==> InEffect(r.s.m.table) && r.s.m.table.chain == Some(Compile(c)))
      && (!r.ok && Sound(r.s) ==> LoadDisk(r.s) == Some(previous))
  {
    SaveEffect(s, c);
    var saved := Save(s, c);
    EnableOnEffect(saved.s, c);
    var applied := if saved.ok && s.record.Some? then EnableOn(saved.s, c) else saved;
    if !applied.ok {
      SaveBackEffect(applied.s, previous);
      EnableOnEffect(SaveBack(applied.s, previous), previous);
    }
  }

  lemma SetBypassEffect(s: Sys, text: string)
    requires Consistent(s)
    ensures var r := SetBypass(s, text);
      && Settled(r.s)
      && (r.ok ==> ParseList(text).Some? && LoadDisk(s).Some? && r.s.record == s.record)
      && (r.ok ==> LoadDisk(r.s) == Some(LoadDisk(s).value.(bypass := ParseList(text).value)))
  {
    var locked := Flip(s);
    DiskIsValid(s);
    if locked.ok && LoadDisk(s).Some? && ParseList(text).Some? {
      var previous := LoadDisk(s).value;
      ListCanonical(text);
      ReplaceBypassEffect(locked.s, previous, previous.(bypass := ParseList(text).value));
    }
  }

  // ---- disabling ----

  lemma DisableProxyEffect(s: Sys)
    requires Consistent(s)
    ensures var r := DisableProxy(s);
      && (r.s.m.stuck || Consistent(r.s)) && r.s.disk == s.disk
      && (r.ok ==> r.s.record.None? && !InEffect(r.s.m.table))
  {
    var locked := Flip(s);
    var stopped := StopDaemon(locked.s);
    StopKeepsDisk(locked.s);
    DisableQuiets(stopped.s.m);
    CleanUpQuiets(stopped.s.m);
    if !stopped.ok && !stopped.s.m.stuck {
      StopKeepsGuard(locked.s, LoadDisk(s));
    }
  }

  lemma DaemonEndsEffect(s: Sys)
    requires Consistent(s)
    ensures Consistent(DaemonDies(s)) && (DaemonExits(s).m.stuck || Consistent(DaemonExits(s)))
  {
    CleanUpQuiets(s.m);
  }

  // ---- every run ----

  lemma PerformEffect(s: Sys, e: Event)
    requires Consistent(s)
    ensures Settled(Perform(s, e).s)
  {
    match e
    case DoEnable(text) => EnableProxyEffect(s, text);
    case DoEnableSaved => EnableSavedEffect(s);
    case DoSetBypass(text) => SetBypassEffect(s, text);
    case DoDisable => DisableProxyEffect(s);
    case DaemonCrash => DaemonEndsEffect(s);
    case DaemonQuit => DaemonEndsEffect(s);
  }

  lemma EnableEndpointKeepsFaults(s: Sys, p: Endpoint)
    ensures FaultsKept(s, EnableEndpoint(s, p).s)
  {
    var c := WithProxy(LoadDisk(s), p);
    var active := Activate(Save(s, c).s, c);
    ActivateKeepsDisk(Save(s, c).s, c);
    if LoadDisk(s).Some? {
      ActivateKeepsDisk(SaveBack(active.s, LoadDisk(s).value), LoadDisk(s).value);
    }
  }

  lemma ReplaceBypassKeepsFaults(s: Sys, previous: Conf, c: Conf)
    ensures FaultsKept(s, ReplaceBypass(s, previous, c).s)
  {
    var saved := Save(s, c);
    EnableOnEffect(saved.s, c);
    var applied := if saved.ok && s.record.Some? then EnableOn(saved.s, c) else saved;
    EnableOnEffect(SaveBack(applied.s, previous), previous);
  }

  lemma PerformKeepsFaults(s: Sys, e: Event)
    ensures FaultsKept(s, Perform(s, e).s)
  {
    var locked := Flip(s).s;
    match e
    case DoEnable(text) =>
      if ParseProxy(text).Some? {
        EnableEndpointKeepsFaults(locked, ParseProxy(text).value);
      }
    case DoEnableSaved =>
      if LoadDisk(locked).Some? {
        ActivateKeepsDisk(locked, LoadDisk(locked).value);
      }
    case DoSetBypass(text) =>
      if LoadDisk(locked).Some? && ParseList(text).Some? {
        var previous := LoadDisk(locked).value;
        ReplaceBypassKeepsFaults(locked, previous, previous.(bypass := ParseList(text).value));
      }
    case DoDisable =>
      StopKeepsDisk(locked);
      CleanUpQuiets(StopDaemon(locked).s.m);
    case DaemonCrash =>
    case DaemonQuit => CleanUpQuiets(s.m);
  }

  lemma {:induction false} FaultsStay(s: Sys, events: seq<Event>)
    requires !Sound(s)
    ensures !Sound(PerformAll(s, events))
    decreases |events|
  {
    if events != [] {
      PerformKeepsFaults(s, events[0]);
      FaultsStay(Perform(s, events[0]).s, events[1..]);
    }
  }

  /** The transaction invariant over all runs: from a consistent state, after any commands and
      daemon deaths and whatever fails, the state is consistent unless a clean-up of the
      firewall or a roll-back of the disk has failed on the way. */
  lemma {:induction false} RunsKeepConsistent(s: Sys, events: seq<Event>)
    requires Consistent(s) && Sound(PerformAll(s, events))
    ensures Consistent(PerformAll(s, events))
    decreases |events|
  {
    if events != [] {
      var t := Perform(s, events[0]).s;
      PerformEffect(s, events[0]);
      if Sound(t) {
        RunsKeepConsistent(t, events[1..]);
      } else {
        FaultsStay(t, events[1..]);
      }
    }
  }

  /** What a user sees after any such run: if any connection at all is redirected, then the
      configuration on disk alone decides which ones are. */
  lemma RedirectionFollowsDisk(s: Sys, events: seq<Event>, some: Ipv4, d: Ipv4)
    requires Consistent(s) && Sound(PerformAll(s, events))
    requires Redirects(PerformAll(s, events).m.table, some)
    ensures var t := PerformAll(s, events);
      LoadDisk(t).Some? && (Redirects(t.m.table, d) <==> !Excluded(LoadDisk(t).value, d))
  {
    var t := PerformAll(s, events);
    RunsKeepConsistent(s, events);
    RedirectsInEffect(t.m.table, some);
    CompiledMeaning(LoadDisk(t).value, d);
  }

  /** fp_enable_proxy returning 0: the daemon for that very proxy runs, the old bypass list is
      kept, and exactly the connections that the two do not exclude are redirected. */
  lemma EnableSucceeds(s: Sys, text: string, d: Ipv4)
    requires Consistent(s)
    ensures EnableProxy(s, text).ok ==> ParseProxy(text).Some?
    ensures EnableProxy(s, text).ok ==>
      var t, p := EnableProxy(s, text).s, ParseProxy(text).value;
      var bypass := if LoadDisk(s).Some? then LoadDisk(s).value.bypass else [];
      && t.record == Some(Record(p, true))
      && LoadDisk(t) == Some(Conf(p.addr, p.port, bypass))
      && (Redirects(t.m.table, d) <==> d != p.addr && d / 0x100_0000 != 127 && !Covered(bypass, d))
  {
    EnableProxyEffect(s, text);
    if EnableProxy(s, text).ok {
      CompiledMeaning(LoadDisk(EnableProxy(s, text).s).value, d);
      LoopbackBlock(d);
    }
  }

  // ---- exactly when a fault does harm ----

  lemma {:induction false} BypassRulesTell(es: seq<Bypass>, fs: seq<Bypass>)
    requires ListOk(es) && ListOk(fs) && BypassRules(es) == BypassRules(fs)
    ensures es == fs
  {
    if es == [] || fs == [] {
    } else {
      assert BypassRules(es)[0] == BypassRules(fs)[0];
      CanonicalUnique(es[0], fs[0]);
      assert BypassRules(es)[1..] == BypassRules(fs)[1..];
      assert ListOk(es[1..]) && ListOk(fs[1..]);
      BypassRulesTell(es[1..], fs[1..]);
    }
  }

  /** Different lists for one proxy compile to different chains. */
  lemma CompileTells(c: Conf, f: Conf)
    requires ValidConf(c) && ValidConf(f) && ProxyOf(c) == ProxyOf(f)
    requires Compile(c) == Compile(f)
    ensures c == f
  {
    var es, fs := BypassRules(c.bypass), BypassRules(f.bypass);
    assert es == Compile(c)[2..|Compile(c)| - 1];
    assert fs == Compile(f)[2..|Compile(f)| - 1];
    BypassRulesTell(c.bypass, f.bypass);
  }

  /** Why the invariant asks for a pid record: redirection left behind without one is not
      updated by a successful fp_set_bypass, so chain and disk agree afterwards exactly when
      the new list is the old one. */
  lemma UntrackedRedirection(s: Sys, previous: Conf, text: string)
    requires s.record.None? && LoadDisk(s) == Some(previous) && s.m.table.chain == Some(Compile(previous))
    requires SetBypass(s, text).ok
    ensures ParseList(text).Some?
    ensures var t := SetBypass(s, text).s;
      && LoadDisk(t).Some? && t.m.table == s.m.table
      && (t.m.table.chain == Some(Compile(LoadDisk(t).value)) <==> ParseList(text).value == previous.bypass)
  {
    var locked := Flip(s).s;
    DiskIsValid(s);
    ListCanonical(text);
    var c := previous.(bypass := ParseList(text).value);
    SaveEffect(locked, c);
    if Compile(c) == Compile(previous) {
      CompileTells(c, previous);
    }
  }
}
