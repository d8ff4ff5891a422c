/** States and outcomes at which fp_enable_proxy and fp_set_bypass lose the transaction
    invariant although every clean-up of the firewall works. */
module TransactionWitnesses {
  import opened Wrappers
  import opened BypassLanguage
  import opened ConfigFile
  import opened Firewall
  import opened FirewallRuns
  import opened Operations
  import opened Transactions
  import opened TransactionFaults
  import opened Progress

  /** The configuration on disk, its daemon running and its chain in effect by one jump. */
  predicate Serves(s: Sys, c: Conf) {
    && ValidConf(c) && LoadDisk(s) == Some(c) && Running(s, c) && s.m.table.output == [Jump] && Sound(s)
  }

  /** Such states exist for every configuration and every luck. */
  function Served(c: Conf, luck: seq<bool>): Sys {
    Sys(Some(SaveText(c)), Some(Record(ProxyOf(c), true)),
        Machine(Table(Some(Compile(c)), [Jump]), luck, [], false), false)
  }

  lemma ServedServes(c: Conf, luck: seq<bool>)
    requires ValidConf(c)
    ensures Serves(Served(c, luck), c) && Served(c, luck).m.luck == luck
  {
    SaveLoadRoundTrip(c);
  }

  lemma ServingIsConsistent(s: Sys, c: Conf)
    requires Serves(s, c)
    ensures Consistent(s) && IsEnabled(s.m.table, c)
  {
    RunningIsGuarded(s, c);
    CompiledIsEnabled(s.m.table, c);
  }

  lemma FlipTakes(s: Sys, b: bool, rest: seq<bool>)
    requires s.m.luck == [b] + rest
    ensures Flip(s) == Result(s.(m := s.m.(luck := rest)), b)
  {
    assert ([b] + rest)[1..] == rest;
  }

  lemma FlipServes(s: Sys, c: Conf)
    requires Serves(s, c)
    ensures Serves(Flip(s).s, c)
  {
    SameDisk(s, Flip(s).s);
  }

  // ---- fp_enable_proxy ----

  /** Lock and save succeed; the old daemon neither ends nor dies nor is stopped; the old
      configuration cannot be saved back. */
  const DAEMON_STAYS: seq<bool> := [true, true, false, false, false, false]

  /** fp_stop_daemon when nothing comes of it. */
  lemma StopFails(s: Sys, rest: seq<bool>)
    requires s.m.luck == [false, false, false] + rest && s.record.Some?
    ensures StopDaemon(s) == Result(s.(m := s.m.(luck := rest)), false) && StaysOnRecord(s)
  {
    assert [false, false, false] + rest == [false] + ([false] + ([false] + rest));
    FlipTakes(s, false, [false] + ([false] + rest));
    FlipTakes(Flip(s).s, false, [false] + rest);
    FlipTakes(Flip(Flip(s).s).s, false, rest);
  }

  lemma SavedOverOldDaemon(s: Sys, previous: Conf, c: Conf)
    requires Serves(s, previous) && ValidConf(c) && s.m.luck == [true] + [false, false, false, false]
    ensures var r := Save(s, c);
      r.ok && LoadDisk(r.s) == Some(c) && Running(r.s, previous)
      && !r.s.m.stuck && r.s.m.luck == [false, false, false] + [false]
  {
    FlipTakes(s, true, [false, false, false, false]);
    SaveEffect(s, c);
  }

  lemma RollBackFindsOldDaemon(s: Sys, previous: Conf, c: Conf)
    requires ValidConf(previous) && LoadDisk(s) == Some(c) && Running(s, previous) && !s.m.stuck
      && s.m.luck == [false] + []
    ensures var back := SaveBack(s, previous);
      LoadDisk(back) == Some(c) && Running(back, previous) && !back.m.stuck
        && Activate(back, previous) == Result(back, true)
  {
    FlipTakes(s, false, []);
    SaveBackLeaves(s, previous, c);
    CompiledIsEnabled(s.m.table, previous);
  }

  lemma EnableLoses(s: Sys, previous: Conf, p: Endpoint)
    requires Serves(s, previous) && s.m.luck == DAEMON_STAYS[1..] && 1 <= p.port <= 65535 && p != ProxyOf(previous)
    ensures var r := EnableEndpoint(s, p);
      !r.ok && !r.s.m.stuck && LoadDisk(r.s) == Some(WithProxy(Some(previous), p)) && Running(r.s, previous)
  {
    var c := WithProxy(Some(previous), p);
    assert s.m.luck == [true] + [false, false, false, false];
    SavedOverOldDaemon(s, previous, c);
    var saved := Save(s, c).s;
    StopFails(saved, [false]);
    StopThatStays(saved, c);
    var stopped := StopDaemon(saved).s;
    SameDisk(saved, stopped);
    RollBackFindsOldDaemon(stopped, previous, c);
  }

  /** fp_enable_proxy fails, the old daemon goes on redirecting for the old proxy, and the disk
      names the new one. */
  lemma EnableProxyCanLose(s: Sys, previous: Conf, text: string)
    requires Serves(s, previous) && s.m.luck == DAEMON_STAYS
    requires ParseProxy(text).Some? && ParseProxy(text).value != ProxyOf(previous)
    ensures var r := EnableProxy(s, text);
      Consistent(s) && !r.ok && !r.s.m.stuck && !Consistent(r.s)
      && LoadDisk(r.s) == Some(WithProxy(Some(previous), ParseProxy(text).value)) && Running(r.s, previous)
  {
    ServingIsConsistent(s, previous);
    FlipTakes(s, true, DAEMON_STAYS[1..]);
    FlipServes(s, previous);
    EnableLoses(Flip(s).s, previous, ParseProxy(text).value);
  }

  // ---- fp_set_bypass ----

  /** Lock and save succeed; the chain cannot be flushed; the firewall is cleaned up; the old list
      cannot be saved back; then everything succeeds. */
  function FlushFails(rest: seq<bool>): seq<bool> {
    [true] + ([true] + ([false] + ([true] + ([true] + ([true] + ([false] + rest))))))
  }

  lemma RunTakes(m: Machine, command: Command, rest: seq<bool>)
    requires m.luck == [true] + rest && Possible(m.table, command)
    ensures Run(m, command).ok && Run(m, command).m.luck == rest
    ensures Run(m, command).m.table == Effect(m.table, command) && Run(m, command).m.stuck == m.stuck
  {
    assert ([true] + rest)[1..] == rest;
  }

  /** fp_firewall_disable with one jump, when nothing fails. */
  lemma DisableWorks(m: Machine, rest: seq<bool>)
    requires m.luck == [true] + ([true] + ([true] + rest)) && m.table.chain.Some? && m.table.output == [Jump]
    ensures var r := Disable(m); r.ok && r.m.luck == rest && r.m.stuck == m.stuck
  {
    RunTakes(m, DeleteJump, [true] + ([true] + rest));
    var m2 := Run(m, DeleteJump).m;
    assert m2.table.output == [];
    RunTakes(m2, Flush, [true] + rest);
    RunTakes(Run(m2, Flush).m, DeleteChain, rest);
    assert Disable(m2) == Run(Run(m2, Flush).m, DeleteChain);
  }

  /** fp_firewall_enable when the chain cannot be flushed and the clean-up works. */
  lemma EnableFailsClean(m: Machine, c: Conf, rest: seq<bool>)
    requires m.luck == [false] + ([true] + ([true] + ([true] + rest)))
    requires m.table.chain.Some? && m.table.output == [Jump] && !m.stuck
    ensures var r := Enable(m, c); !r.ok && !r.m.stuck && r.m.luck == rest
  {
    var later := [true] + ([true] + ([true] + rest));
    assert ([false] + later)[1..] == later;
    assert Run(m, Flush) == Outcome(m.(luck := later), false);
    assert Build(m, c) == Run(m, Flush) && EnsureChain(m) == Outcome(m, true);
    DisableWorks(m.(luck := later), rest);
  }

  lemma BypassLoses(s: Sys, previous: Conf, c: Conf, rest: seq<bool>)
    requires Serves(s, previous) && [true] + s.m.luck == FlushFails(rest) && Lucky(rest, EnableSteps(previous))
    requires ValidConf(c) && c != previous && ProxyOf(c) == ProxyOf(previous)
    ensures var r := ReplaceBypass(s, previous, c);
      !r.ok && !r.s.m.stuck && LoadDisk(r.s) == Some(c) && Running(r.s, previous)
  {
    var later := [false] + ([true] + ([true] + ([true] + ([false] + rest))));
    assert s.m.luck == ([true] + s.m.luck)[1..] == FlushFails(rest)[1..] == [true] + later;
    FlipTakes(s, true, later);
    SaveEffect(s, c);
    var saved := Save(s, c).s;
    EnableFailsClean(saved.m, c, [false] + rest);
    var applied := EnableOn(saved, c).s;
    FlipTakes(applied, false, rest);
    SameDisk(saved, applied);
    SaveBackLeaves(applied, previous, c);
    var back := SaveBack(applied, previous);
    LuckyEnable(back.m, previous, 0);
    EnableEffect(back.m, previous);
    SameDisk(back, EnableOn(back, previous).s);
  }

  /** A chain in effect that was compiled from another list than the one on disk. */
  lemma OldChainIsInconsistent(t: Sys, previous: Conf, c: Conf)
    requires LoadDisk(t) == Some(c) && Running(t, previous) && ProxyOf(c) == ProxyOf(previous) && c != previous
    requires ValidConf(previous) && ValidConf(c)
    ensures !Consistent(t)
  {
    if Compile(c) == Compile(previous) {
      CompileTells(c, previous);
    }
    RunningIsGuarded(t, previous);
  }

  /** fp_set_bypass fails, the old chain is back in effect, and the disk holds the new list. */
  lemma SetBypassCanLose(s: Sys, previous: Conf, text: string, rest: seq<bool>)
    requires Serves(s, previous) && s.m.luck == FlushFails(rest) && Lucky(rest, EnableSteps(previous))
    requires ParseList(text).Some? && ParseList(text).value != previous.bypass
    ensures var r := SetBypass(s, text);
      Consistent(s) && !r.ok && !r.s.m.stuck && !Consistent(r.s)
      && LoadDisk(r.s) == Some(previous.(bypass := ParseList(text).value)) && Running(r.s, previous)
  {
    var c := previous.(bypass := ParseList(text).value);
    ServingIsConsistent(s, previous);
    ListCanonical(text);
    var later := FlushFails(rest)[1..];
    assert FlushFails(rest) == [true] + later;
    FlipTakes(s, true, later);
    FlipServes(s, previous);
    BypassLoses(Flip(s).s, previous, c, rest);
    OldChainIsInconsistent(ReplaceBypass(Flip(s).s, previous, c).s, previous, c);
    assert SetBypass(s, text) == ReplaceBypass(Flip(s).s, previous, c);
  }

  // ---- redirection left behind without a record ----

  /** The daemon quits and removes its record but cannot remove the jump; after that lock and save
      succeed. */
  const JUMP_STAYS: seq<bool> := [false, true, true]

  /** A daemon that quits without getting rid of the firewall leaves redirection without a record;
      fp_set_bypass then succeeds without touching the chain. */
  lemma QuitLeavesUntracked(s: Sys, previous: Conf)
    requires Serves(s, previous) && s.m.luck == JUMP_STAYS
    ensures var t := Perform(s, DaemonQuit).s;
      && t.record.None? && LoadDisk(t) == Some(previous) && t.m.table == s.m.table && InEffect(t.m.table)
      && t.m.luck == [true, true]
  {
    var t := Perform(s, DaemonQuit).s;
    SameDisk(s, t);
    assert JUMP_STAYS[1..] == [true, true];
    assert Run(s.m, DeleteJump) == Outcome(s.m.(luck := [true, true]), false);
    RunningIsGuarded(s, previous);
  }

  lemma UntrackedSetBypassSucceeds(s: Sys, previous: Conf, text: string)
    requires s.record.None? && LoadDisk(s) == Some(previous) && s.m.luck == [true, true] && ParseList(text).Some?
    ensures SetBypass(s, text).ok
  {
    assert s.m.luck == [true] + [true] && [true] == [true] + [];
    FlipTakes(s, true, [true]);
    FlipTakes(Flip(s).s, true, []);
    SameDisk(s, Flip(s).s);
  }

  lemma TwoEvents(s: Sys, a: Event, b: Event)
    ensures PerformAll(s, [a, b]) == Perform(Perform(s, a).s, b).s
  {
    assert [a, b][1..] == [b] && [b][1..] == [];
    assert PerformAll(Perform(s, a).s, [b]) == Perform(Perform(s, a).s, b).s;
  }

  /** Redirection is in effect by a chain that is not the one of the configuration on disk. */
  predicate Outdated(t: Sys) {
    InEffect(t.m.table) && LoadDisk(t).Some? && t.m.table.chain != Some(Compile(LoadDisk(t).value))
  }

  /** So after the daemon has quit, a successful replacement of the list leaves an outdated chain. */
  lemma UntrackedRedirectionHappens(s: Sys, previous: Conf, text: string)
    requires Serves(s, previous) && s.m.luck == JUMP_STAYS
    requires ParseList(text).Some? && ParseList(text).value != previous.bypass
    ensures Consistent(s)
    ensures SetBypass(Perform(s, DaemonQuit).s, text).ok
    ensures Outdated(PerformAll(s, [DaemonQuit, DoSetBypass(text)]))
  {
    ServingIsConsistent(s, previous);
    QuitLeavesUntracked(s, previous);
    var quit := Perform(s, DaemonQuit).s;
    UntrackedSetBypassSucceeds(quit, previous, text);
    UntrackedRedirection(quit, previous, text);
    TwoEvents(s, DaemonQuit, DoSetBypass(text));
  }

  // ---- such states and such luck exist ----

  function Trues(n: nat): (r: seq<bool>)
    ensures |r| == n && AllTrue(r)
  {
    if n == 0 then [] else [true] + Trues(n - 1)
  }

  /** For every configuration there are consistent states at which the commands lose. */
  lemma LosingStatesExist(previous: Conf, proxy: string, list: string)
    requires ValidConf(previous)
    requires ParseProxy(proxy).Some? && ParseProxy(proxy).value != ProxyOf(previous)
    requires ParseList(list).Some? && ParseList(list).value != previous.bypass
    ensures exists s :: Consistent(s) && !EnableProxy(s, proxy).s.m.stuck && !Consistent(EnableProxy(s, proxy).s)
    ensures exists s :: Consistent(s) && !SetBypass(s, list).s.m.stuck && !Consistent(SetBypass(s, list).s)
    ensures exists s :: Consistent(s) && Outdated(PerformAll(s, [DaemonQuit, DoSetBypass(list)]))
  {
    ServedServes(previous, JUMP_STAYS);
    UntrackedRedirectionHappens(Served(previous, JUMP_STAYS), previous, list);
    var rest := Trues(EnableSteps(previous));
    ServedServes(previous, DAEMON_STAYS);
    ServedServes(previous, FlushFails(rest));
    EnableProxyCanLose(Served(previous, DAEMON_STAYS), previous, proxy);
    SetBypassCanLose(Served(previous, FlushFails(rest)), previous, list, rest);
  }
}
