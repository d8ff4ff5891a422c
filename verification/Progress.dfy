/** When nothing outside the program fails, its commands succeed; and when things fail only
    up to the point where a command rolls back, the roll-back restores the old state. */
module Progress {
  import opened Wrappers
  import opened BypassLanguage
  import opened ConfigFile
  import opened Firewall
  import opened FirewallRuns
  import opened Operations
  import opened Transactions

  predicate AllTrue(luck: seq<bool>) {
    luck == [] || (luck[0] && AllTrue(luck[1..]))
  }

  /** The next `n` outcomes outside the program are good, and so are all that are fixed. */
  predicate Lucky(luck: seq<bool>, n: nat) {
    n <= |luck| && AllTrue(luck)
  }

  // ---- the firewall ----

  lemma LuckyRun(m: Machine, command: Command, n: nat)
    requires Lucky(m.luck, n + 1) && Possible(m.table, command)
    ensures Run(m, command).ok && Lucky(Run(m, command).m.luck, n)
    ensures Run(m, command).m.table == Effect(m.table, command)
  {
  }

  function DisableSteps(t: Table): nat {
    Jumps(t.output) + 2
  }

  lemma {:induction false} LuckyDisable(m: Machine, n: nat)
    requires Lucky(m.luck, DisableSteps(m.table) + n)
    ensures Disable(m).ok && Lucky(Disable(m).m.luck, n)
    decreases Jumps(m.table.output)
  {
    if HasJump(m.table.output) {
      RemovingCounts(m.table.output);
      LuckyRun(m, DeleteJump, DisableSteps(m.table) + n - 1);
      LuckyDisable(Run(m, DeleteJump).m, n);
    } else if m.table.chain.Some? {
      WithoutJumps(m.table.output);
      LuckyRun(m, Flush, n + 1);
      LuckyRun(Run(m, Flush).m, DeleteChain, n);
    }
  }

  lemma {:induction false} LuckyAppend(m: Machine, rules: seq<Rule>, n: nat)
    requires Lucky(m.luck, |rules| + n) && m.table.chain.Some?
    ensures AppendRules(m, rules).ok && Lucky(AppendRules(m, rules).m.luck, n)
    ensures AppendRules(m, rules).m.table.chain.Some?
    decreases |rules|
  {
    if rules != [] {
      LuckyRun(m, AppendRule(rules[0]), |rules| - 1 + n);
      LuckyAppend(Run(m, AppendRule(rules[0])).m, rules[1..], n);
    }
  }

  function EnableSteps(c: Conf): nat {
    |Compile(c)| + 3
  }

  /** fp_firewall_enable succeeds when no command fails. */
  lemma LuckyEnable(m: Machine, c: Conf, n: nat)
    requires Lucky(m.luck, EnableSteps(c) + n)
    ensures Enable(m, c).ok && Lucky(Enable(m, c).m.luck, n)
  {
    if m.table.chain.None? {
      LuckyRun(m, NewChain, |Compile(c)| + 2 + n);
    }
    var created := EnsureChain(m).m;
    LuckyRun(created, Flush, |Compile(c)| + 1 + n);
    var flushed := Run(created, Flush).m;
    LuckyAppend(flushed, Compile(c), 1 + n);
    var filled := AppendRules(flushed, Compile(c)).m;
    if !HasJump(filled.table.output) {
      LuckyRun(filled, InsertJump, n);
    }
  }

  // ---- the daemon ----

  lemma LuckyFlip(s: Sys, n: nat)
    requires Lucky(s.m.luck, n + 1)
    ensures Flip(s).ok && Lucky(Flip(s).s.m.luck, n)
    ensures Flip(s).s == s.(m := s.m.(luck := Flip(s).s.m.luck))
  {
  }

  predicate Clean(t: Table) {
    t.chain.None? && Jumps(t.output) == 0
  }

  lemma LuckyDisableCleans(m: Machine, n: nat)
    requires Lucky(m.luck, DisableSteps(m.table) + n)
    ensures Disable(m).ok && Clean(Disable(m).m.table) && Lucky(Disable(m).m.luck, n) && CleanUp(m) == Disable(m).m
  {
    LuckyDisable(m, n);
    DisableEffect(m, _ => true);
    WithoutJumps(Disable(m).m.table.output);
  }

  lemma LuckyStop(s: Sys, n: nat)
    requires Lucky(s.m.luck, 3 + DisableSteps(s.m.table) + n)
    ensures var r := StopDaemon(s);
      r.ok && r.s.record.None? && r.s.disk == s.disk && Clean(r.s.m.table) && Lucky(r.s.m.luck, n)
  {
    var k := DisableSteps(s.m.table) + n;
    LuckyFlip(s, 2 + k);
    LuckyFlip(Flip(s).s, 1 + k);
    LuckyFlip(Flip(Flip(s).s).s, k);
    LuckyDisableCleans(Flip(Flip(Flip(s).s).s).s.m, n);
  }

  lemma LuckyDaemonStarts(s: Sys, c: Conf, n: nat)
    requires LoadDisk(s) == Some(c) && Lucky(s.m.luck, 3 + EnableSteps(c) + n)
    ensures DaemonStarts(s).ok && Lucky(DaemonStarts(s).s.m.luck, n)
  {
    LuckyFlip(s, 2 + EnableSteps(c) + n);
    LuckyFlip(Flip(s).s, 1 + EnableSteps(c) + n);
    LuckyEnable(Flip(Flip(s).s).s.m, c, 1 + n);
    LuckyFlip(ProxyRuns(s, c).s, n);
  }

  function StartSteps(c: Conf): nat {
    9 + EnableSteps(c)
  }

  lemma LuckyStart(s: Sys, c: Conf, n: nat)
    requires s.record.None? && LoadDisk(s) == Some(c) && Clean(s.m.table)
    requires Lucky(s.m.luck, StartSteps(c) + n)
    ensures StartDaemon(s, c).ok && Lucky(StartDaemon(s, c).s.m.luck, n)
  {
    LuckyStop(s, 4 + EnableSteps(c) + n);
    var cleared := StopDaemon(s).s;
    LuckyFlip(cleared, 3 + EnableSteps(c) + n);
    LuckyDaemonStarts(Flip(cleared).s, c, n);
  }

  function ActivateSteps(t: Table, c: Conf): nat {
    3 + DisableSteps(t) + 2 + StartSteps(c)
  }

  lemma LuckyActivate(s: Sys, c: Conf, n: nat)
    requires LoadDisk(s) == Some(c) && Lucky(s.m.luck, ActivateSteps(s.m.table, c) + n)
    ensures Activate(s, c).ok && Lucky(Activate(s, c).s.m.luck, n)
  {
    if !(ServedBy(s, c) && IsEnabled(s.m.table, c)) {
      var rest := StartSteps(c) + n;
      var stopped := if s.record.Some? then StopDaemon(s) else Result(s, true);
      if s.record.Some? {
        LuckyStop(s, 2 + rest);
      }
      LuckyDisableCleans(stopped.s.m, rest);
      LuckyStart(stopped.s.(m := Disable(stopped.s.m).m), c, n);
    }
  }

  // ---- the commands succeed ----

  function EnableBudget(s: Sys, c: Conf): nat {
    2 + ActivateSteps(s.m.table, c)
  }

  lemma LuckySave(s: Sys, c: Conf, n: nat)
    requires ValidConf(c) && Lucky(s.m.luck, n + 1)
    ensures Save(s, c).ok && Lucky(Save(s, c).s.m.luck, n)
    ensures LoadDisk(Save(s, c).s) == Some(c) && OnlyDiskChanges(s, Save(s, c).s)
  {
    LuckyFlip(s, n);
    SaveEffect(s, c);
  }

  /** When nothing fails, fp_enable_proxy succeeds exactly on the texts that name a proxy. */
  lemma LuckyEnableProxy(s: Sys, text: string)
    requires ParseProxy(text).Some? ==> Lucky(s.m.luck, EnableBudget(s, WithProxy(LoadDisk(s), ParseProxy(text).value)))
    ensures EnableProxy(s, text).ok <==> ParseProxy(text).Some?
  {
    if ParseProxy(text).Some? {
      var c := WithProxy(LoadDisk(s), ParseProxy(text).value);
      DiskIsValid(s);
      LuckyFlip(s, 1 + ActivateSteps(s.m.table, c));
      LuckySave(Flip(s).s, c, ActivateSteps(s.m.table, c));
      LuckyActivate(Save(Flip(s).s, c).s, c, 0);
    }
  }

  lemma LuckyEnableSaved(s: Sys)
    requires LoadDisk(s).Some? ==> Lucky(s.m.luck, EnableBudget(s, LoadDisk(s).value))
    ensures EnableSaved(s).ok <==> LoadDisk(s).Some?
  {
    if LoadDisk(s).Some? {
      LuckyFlip(s, 1 + ActivateSteps(s.m.table, LoadDisk(s).value));
      LuckyActivate(Flip(s).s, LoadDisk(s).value, 1);
    }
  }

  /** When nothing fails, fp_set_bypass succeeds exactly when a configuration can be loaded and
      the text is a list. */
  lemma LuckySetBypass(s: Sys, text: string)
    requires LoadDisk(s).Some? && ParseList(text).Some? ==>
      Lucky(s.m.luck, 2 + EnableSteps(LoadDisk(s).value.(bypass := ParseList(text).value)))
    ensures SetBypass(s, text).ok <==> LoadDisk(s).Some? && ParseList(text).Some?
  {
    if LoadDisk(s).Some? && ParseList(text).Some? {
      var c := LoadDisk(s).value.(bypass := ParseList(text).value);
      DiskIsValid(s);
      ListCanonical(text);
      LuckyFlip(s, 1 + EnableSteps(c));
      LuckySave(Flip(s).s, c, EnableSteps(c));
      LuckyEnable(Save(Flip(s).s, c).s.m, c, 0);
    }
  }

  lemma LuckyDisableProxy(s: Sys)
    requires Lucky(s.m.luck, 6 + DisableSteps(s.m.table))
    ensures DisableProxy(s).ok
  {
    LuckyFlip(s, 5 + DisableSteps(s.m.table));
    LuckyStop(Flip(s).s, 2);
    LuckyDisableCleans(StopDaemon(Flip(s).s).s.m, 0);
  }

  // ---- the roll-backs restore ----

  /** fp_enable_proxy with a daemon on record, when the new proxy was saved and could not be
      activated: if nothing fails from there on, the old configuration is on disk and runs. */
  lemma FailedEnableIsUndone(s: Sys, p: Endpoint, previous: Conf)
    requires Consistent(s) && LoadDisk(s) == Some(previous) && s.record.Some? && 1 <= p.port <= 65535
    ensures var c := WithProxy(Some(previous), p);
      var active := Activate(Save(s, c).s, c);
      && Save(s, c).ok && !active.ok && !active.s.m.stuck
      && Lucky(active.s.m.luck, 1 + ActivateSteps(active.s.m.table, previous)) ==>
      var r := EnableEndpoint(s, p);
      !r.ok && LoadDisk(r.s) == Some(previous) && Running(r.s, previous)
  {
    var c := WithProxy(Some(previous), p);
    DiskIsValid(s);
    SaveEffect(s, c);
    var saved := Save(s, c);
    var active := Activate(saved.s, c);
    var steps := ActivateSteps(active.s.m.table, previous);
    if saved.ok && !active.ok && !active.s.m.stuck && Lucky(active.s.m.luck, 1 + steps) {
      ActivateEffect(saved.s, c, Some(previous));
      SaveBackEffect(active.s, previous);
      LuckySave(active.s, previous, steps);
      var back := SaveBack(active.s, previous);
      LuckyActivate(back, previous, 0);
      ActivateDisk(back, previous);
    }
  }

  /** fp_set_bypass with a daemon on record, when the new list was saved and the firewall could
      not be rebuilt: if nothing fails from there on, the old list is on disk and in effect. */
  lemma FailedBypassIsUndone(s: Sys, previous: Conf, c: Conf)
    requires LoadDisk(s) == Some(previous) && ValidConf(previous) && s.record.Some?
    ensures var applied := EnableOn(Save(s, c).s, c);
      Save(s, c).ok && !applied.ok && Lucky(applied.s.m.luck, 1 + EnableSteps(previous)) ==>
      var r := ReplaceBypass(s, previous, c);
      && !r.ok && LoadDisk(r.s) == Some(previous)
      && r.s.m.table.chain == Some(Compile(previous)) && InEffect(r.s.m.table)
  {
    var applied := EnableOn(Save(s, c).s, c);
    if Save(s, c).ok && !applied.ok && Lucky(applied.s.m.luck, 1 + EnableSteps(previous)) {
      SaveBackEffect(applied.s, previous);
      LuckySave(applied.s, previous, EnableSteps(previous));
      var back := SaveBack(applied.s, previous);
      LuckyEnable(back.m, previous, 0);
      EnableOnEffect(back, previous);
    }
  }
}
