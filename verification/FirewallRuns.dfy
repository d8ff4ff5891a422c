/** What fp_firewall_enable and fp_firewall_disable do to the table, at every step and
    whatever commands fail. */
module FirewallRuns {
  import opened Wrappers
  import opened Text
  import opened Address
  import opened BypassLanguage
  import opened ConfigFile
  import opened Firewall

  /** `n` continues the history of `m`, and every table since satisfies the chain test. */
  ghost predicate Since(m: Machine, n: Machine, good: Option<seq<Rule>> -> bool) {
    && |m.history| <= |n.history| && n.history[..|m.history|] == m.history
    && (forall i :: |m.history| <= i < |n.history| ==> good(n.history[i].chain))
  }

  lemma SinceJoins(m: Machine, n: Machine, o: Machine, good: Option<seq<Rule>> -> bool)
    requires Since(m, n, good) && Since(n, o, good)
    ensures Since(m, o, good)
  {
  }

  lemma RunSince(m: Machine, command: Command, good: Option<seq<Rule>> -> bool)
    requires Run(m, command).ok ==> good(Run(m, command).m.table.chain)
    ensures Since(m, Run(m, command).m, good)
    ensures Run(m, command).m.stuck == m.stuck
    ensures !Run(m, command).ok ==> Run(m, command).m.table == m.table
  {
  }

  // ---- disable ----

  /** fp_firewall_disable, from any table and whatever fails: it keeps the other OUTPUT rules in
      order, never touches the chain except to empty and delete it, and succeeds only when
      neither jump nor chain is left. */
  lemma {:induction false} DisableEffect(m: Machine, good: Option<seq<Rule>> -> bool)
    requires good(m.table.chain) && good(Some([])) && good(None)
    ensures var r := Disable(m);
      && Since(m, r.m, good)
      && r.m.stuck == m.stuck
      && Others(r.m.table.output) == Others(m.table.output)
      && good(r.m.table.chain)
      && (r.m.table.chain == m.table.chain || (r.m.table.chain in {None, Some([])} && !HasJump(r.m.table.output)))
      && (r.ok <==> r.m.table.chain.None? && !HasJump(r.m.table.output))
    decreases Jumps(m.table.output)
  {
    if HasJump(m.table.output) {
      var r := Run(m, DeleteJump);
      RunSince(m, DeleteJump, good);
      if r.ok {
        RunDeleteJumpCounts(m);
        RemovingKeepsOthers(m.table.output);
        DisableEffect(r.m, good);
        SinceJoins(m, r.m, Disable(r.m).m, good);
      }
    } else if m.table.chain.Some? {
      var r := Run(m, Flush);
      RunSince(m, Flush, good);
      if r.ok {
        RunSince(r.m, DeleteChain, good);
        SinceJoins(m, r.m, Run(r.m, DeleteChain).m, good);
      }
    }
  }

  /** A clean-up is on record as failed exactly when a jump or the chain is left. */
  lemma CleanUpEffect(m: Machine)
    ensures var n := CleanUp(m);
      && (n.stuck <==> m.stuck || Jump in n.table.output || n.table.chain.Some?)
      && Others(n.table.output) == Others(m.table.output)
  {
    DisableEffect(m, _ => true);
    JumpIsThere(CleanUp(m).table.output);
  }

  // ---- enable ----

  /** A chain that a run of fp_firewall_enable for `c` can have once it has flushed. */
  predicate Growing(c: Conf, chain: Option<seq<Rule>>) {
    chain.None? || chain.value <= Compile(c)
  }

  function GrowingChains(c: Conf): Option<seq<Rule>> -> bool {
    chain => Growing(c, chain)
  }

  lemma {:induction false} AppendRulesEffect(m: Machine, c: Conf, k: nat)
    requires k <= |Compile(c)| && m.table.chain == Some(Compile(c)[..k])
    ensures var r := AppendRules(m, Compile(c)[k..]);
      && Since(m, r.m, GrowingChains(c))
      && r.m.stuck == m.stuck && r.m.table.output == m.table.output
      && Growing(c, r.m.table.chain)
      && (r.ok ==> r.m.table.chain == Some(Compile(c)))
    decreases |Compile(c)| - k
  {
    var rules := Compile(c);
    if k == |rules| {
      assert rules[k..] == [] && rules[..k] == rules;
    } else {
      var command := AppendRule(rules[k]);
      TakeOneMore(rules, k);
      RunSince(m, command, GrowingChains(c));
      assert rules[k..][0] == rules[k] && rules[k..][1..] == rules[k + 1..];
      if Run(m, command).ok {
        AppendRulesEffect(Run(m, command).m, c, k + 1);
        SinceJoins(m, Run(m, command).m, AppendRules(m, rules[k..]).m, GrowingChains(c));
      }
    }
  }

  /** What Build leaves behind. */
  lemma BuildEffect(m: Machine, c: Conf)
    ensures var r := Build(m, c);
      && Since(m, r.m, GrowingChains(c))
      && r.m.stuck == m.stuck
      && (if Run(m, Flush).ok then Growing(c, r.m.table.chain) else r.m.table == m.table)
      && (r.m.table.output == m.table.output
          || (r.ok && r.m.table.output == [Jump] + m.table.output && !HasJump(m.table.output)))
      && (r.ok ==> r.m.table.chain == Some(Compile(c)) && HasJump(r.m.table.output))
      && (r.ok && HasJump(m.table.output) ==> r.m.table.output == m.table.output)
  {
    var good := GrowingChains(c);
    var flushed := Run(m, Flush);
    RunSince(m, Flush, good);
    if flushed.ok {
      assert Compile(c)[..0] == [] && Compile(c)[0..] == Compile(c);
      AppendRulesEffect(flushed.m, c, 0);
      var filled := AppendRules(flushed.m, Compile(c));
      SinceJoins(m, flushed.m, filled.m, good);
      if filled.ok {
        if !HasJump(filled.m.table.output) {
          RunSince(filled.m, InsertJump, good);
        }
        SinceJoins(m, filled.m, EnsureJump(filled.m).m, good);
      }
    }
  }

  /** The chains that any table has during a run of fp_firewall_enable. */
  predicate OldOrGrowing(was: Option<seq<Rule>>, c: Conf, chain: Option<seq<Rule>>) {
    chain == was || Growing(c, chain)
  }

  function KnownChains(was: Option<seq<Rule>>, c: Conf): Option<seq<Rule>> -> bool {
    chain => OldOrGrowing(was, c, chain)
  }

  lemma SinceWeaker(m: Machine, n: Machine, was: Option<seq<Rule>>, c: Conf)
    requires Since(m, n, GrowingChains(c))
    ensures Since(m, n, KnownChains(was, c))
  {
  }

  /** Everything a run of fp_firewall_enable guarantees, whatever fails. */
  lemma EnableEffect(m: Machine, c: Conf)
    ensures var r, was := Enable(m, c), m.table.chain;
      && Since(m, r.m, KnownChains(was, c))
      && OldOrGrowing(was, c, r.m.table.chain)
      && Others(r.m.table.output) == Others(m.table.output)
      && (r.ok ==> r.m.table.chain == Some(Compile(c)) && HasJump(r.m.table.output) && r.m.stuck == m.stuck)
      && (r.ok ==> r.m.table.output == if HasJump(m.table.output) then m.table.output else [Jump] + m.table.output)
      && (!r.ok && !r.m.stuck ==>
          r.m.table.chain.None? && (!HasJump(r.m.table.output) || r.m.table == m.table))
      && (m.stuck ==> r.m.stuck)
  {
    var was := m.table.chain;
    var good := KnownChains(was, c);
    var created := EnsureChain(m);
    if was.None? {
      RunSince(m, NewChain, good);
    }
    assert Since(m, created.m, good);
    if created.ok {
      BuildEffect(created.m, c);
      var built := Build(created.m, c);
      SinceWeaker(created.m, built.m, was, c);
      SinceJoins(m, created.m, built.m, good);
      OthersOfJump(created.m.table.output);
      if !built.ok {
        DisableEffect(built.m, good);
        SinceJoins(m, built.m, Disable(built.m).m, good);
        assert Since(m, CleanUp(built.m), good);
      }
    }
  }

  lemma OthersOfJump(output: seq<OutputRule>)
    ensures Others([Jump] + output) == Others(output)
  {
  }

  // ---- what connections see ----

  /** While a table with a growing chain redirects anything, the chain is complete. */
  lemma GrowingRedirects(t: Table, c: Conf, d: Ipv4)
    requires Growing(c, t.chain) && Redirects(t, d)
    ensures t.chain == Some(Compile(c)) && !Excluded(c, d)
  {
    if t.chain.value != Compile(c) {
      PartialChainRedirectsNothing(c, t.chain.value, d);
    }
    CompiledMeaning(c, d);
  }

  /** After a successful fp_firewall_enable a destination is redirected exactly when the
      configuration does not exclude it. */
  lemma EnabledMeaning(m: Machine, c: Conf, d: Ipv4)
    requires Enable(m, c).ok
    ensures Redirects(Enable(m, c).m.table, d) <==> !Excluded(c, d)
  {
    EnableEffect(m, c);
    CompiledMeaning(c, d);
  }

  /** At every table during fp_firewall_enable, clean-up included: a redirection is the new
      configuration's, with the chain complete, or the old chain's; and the old chain
      redirects again only if it could not be flushed. */
  lemma RedirectsWhileEnabling(m: Machine, c: Conf, d: Ipv4, i: nat)
    requires |m.history| <= i < |Enable(m, c).m.history|
    requires Redirects(Enable(m, c).m.history[i], d)
    ensures var t := Enable(m, c).m.history[i];
      || (t.chain == Some(Compile(c)) && !Excluded(c, d))
      || (t.chain == m.table.chain && !Run(EnsureChain(m).m, Flush).ok)
  {
    EnableEffect(m, c);
    var t := Enable(m, c).m.history[i];
    assert KnownChains(m.table.chain, c)(t.chain);
    if Growing(c, t.chain) {
      GrowingRedirects(t, c, d);
    } else if Run(EnsureChain(m).m, Flush).ok {
      FlushForgets(m, c, i);
    }
  }

  /** Once flushed, the old chain never comes back. */
  lemma FlushForgets(m: Machine, c: Conf, i: nat)
    requires Run(EnsureChain(m).m, Flush).ok
    requires |m.history| <= i < |Enable(m, c).m.history|
    ensures Growing(c, Enable(m, c).m.history[i].chain)
  {
    var created := EnsureChain(m);
    var built := Build(created.m, c);
    BuildEffect(created.m, c);
    assert Since(m, created.m, GrowingChains(c));
    SinceJoins(m, created.m, built.m, GrowingChains(c));
    if !built.ok {
      DisableEffect(built.m, GrowingChains(c));
      SinceJoins(m, built.m, Disable(built.m).m, GrowingChains(c));
    }
    assert GrowingChains(c)(Enable(m, c).m.history[i].chain);
  }

  /** No transient wrong redirect: starting from the chain of one configuration, no table
      on the way to another redirects a destination that both exclude. */
  lemma NoTransientWrongRedirect(m: Machine, before: Conf, c: Conf, d: Ipv4, i: nat)
    requires m.table.chain == Some(Compile(before)) && Excluded(before, d) && Excluded(c, d)
    requires |m.history| <= i < |Enable(m, c).m.history|
    ensures !Redirects(Enable(m, c).m.history[i], d)
  {
    if Redirects(Enable(m, c).m.history[i], d) {
      RedirectsWhileEnabling(m, c, d, i);
      CompiledMeaning(before, d);
    }
  }

  /** The chain, if there is one, does not redirect `d`. */
  predicate Spares(chain: Option<seq<Rule>>, d: Ipv4) {
    chain.None? || Decide(chain.value, d) != Redirect(LISTEN_PORT)
  }

  function SparingChains(d: Ipv4): Option<seq<Rule>> -> bool {
    chain => Spares(chain, d)
  }

  lemma KnownChainsSpare(was: Option<seq<Rule>>, c: Conf, d: Ipv4, chain: Option<seq<Rule>>)
    requires Spares(was, d) && Excluded(c, d) && OldOrGrowing(was, c, chain)
    ensures Spares(chain, d)
  {
    if Growing(c, chain) && chain.Some? {
      if chain.value == Compile(c) {
        CompiledMeaning(c, d);
      } else {
        PartialChainRedirectsNothing(c, chain.value, d);
      }
    }
  }

  /** Enabling a configuration that excludes `d`, from a chain that spares it, spares it at every
      table on the way and at the end. */
  lemma EnableSpares(m: Machine, c: Conf, d: Ipv4)
    requires Spares(m.table.chain, d) && Excluded(c, d)
    ensures Since(m, Enable(m, c).m, SparingChains(d)) && Spares(Enable(m, c).m.table.chain, d)
  {
    EnableEffect(m, c);
    var n := Enable(m, c).m;
    forall i | |m.history| <= i < |n.history|
      ensures SparingChains(d)(n.history[i].chain)
    {
      assert KnownChains(m.table.chain, c)(n.history[i].chain);
      KnownChainsSpare(m.table.chain, c, d, n.history[i].chain);
    }
    KnownChainsSpare(m.table.chain, c, d, n.table.chain);
  }

  lemma {:induction false} ListedRules(chain: seq<Rule>, rules: seq<Rule>)
    requires forall i :: 0 <= i < |rules| ==> rules[i] in chain
    ensures HasAll(chain, rules)
  {
    if rules != [] {
      assert forall i :: 0 <= i < |rules[1..]| ==> rules[1..][i] == rules[i + 1];
      ListedRules(chain, rules[1..]);
    }
  }

  /** fp_firewall_is_enabled holds of the compiled chain with a jump to it. */
  lemma CompiledIsEnabled(t: Table, c: Conf)
    requires t.chain == Some(Compile(c)) && HasJump(t.output)
    ensures IsEnabled(t, c)
  {
    var chain, rules := Compile(c), BypassRules(c.bypass);
    forall i | 0 <= i < |rules|
      ensures rules[i] in chain
    {
      assert chain[i + 2] == rules[i];
    }
    ListedRules(chain, rules);
    assert chain[0] == ReturnFor(c.addr, 32) && chain[1] == ReturnFor(LOOPBACK, 8);
    assert chain[|chain| - 1] == REDIRECT_ALL;
  }

  /** fp_firewall_is_enabled holds after a successful fp_firewall_enable. */
  lemma EnabledIsEnabled(m: Machine, c: Conf)
    requires Enable(m, c).ok
    ensures IsEnabled(Enable(m, c).m.table, c)
  {
    EnableEffect(m, c);
    CompiledIsEnabled(Enable(m, c).m.table, c);
  }

  /** Enabling and then disabling gives back a table that had nothing of ours. */
  lemma EnableDisableRestores(m: Machine, c: Conf)
    requires m.table.chain.None? && !HasJump(m.table.output)
    requires Enable(m, c).ok && Disable(Enable(m, c).m).ok
    ensures Disable(Enable(m, c).m).m.table == m.table
  {
    EnableEffect(m, c);
    DisableEffect(Enable(m, c).m, _ => true);
    WithoutJumps(m.table.output);
    WithoutJumps(Disable(Enable(m, c).m).m.table.output);
  }

  // ---- end to end ----

  /** 127.0.0.0/8 is the addresses whose first octet is 127. */
  lemma LoopbackBlock(d: Ipv4)
    ensures Covers(LOOPBACK, 8, d) <==> d / 0x100_0000 == 127
  {
    ThreeBytes();
    LoopbackIsNetwork();
    CoversIsSameBlock(LOOPBACK, d, 8);
  }

  lemma LoopbackIsNetwork()
    ensures Network(LOOPBACK, 8) == LOOPBACK
  {
    ThreeBytes();
    ClearLowIs(LOOPBACK, 24);
  }

  lemma ThreeBytes()
    ensures Power(24) == 0x100_0000
  {
    assert Power(8) == 0x100 by { assert Power(4) == 0x10; }
    assert Power(16) == 0x1_0000 by { assert Power(12) == 0x1000; }
    assert Power(24) == 0x100_0000 by { assert Power(20) == 0x10_0000; }
  }

  /** From the text that the user typed to the fate of a connection: after enabling the
      configuration that stores the parsed text, a TCP destination is redirected exactly
      when it is not the proxy, not in 127.0.0.0/8, and matched by no token of the text. */
  lemma EndToEnd(m: Machine, c: Conf, text: string, d: Ipv4)
    requires ParseList(text) == Some(c.bypass) && Enable(m, c).ok
    ensures Redirects(Enable(m, c).m.table, d) <==>
      d != c.addr && d / 0x100_0000 != 127 && !(exists t :: t in Split(text, ',') && Matches(t, d))
    ensures Others(Enable(m, c).m.table.output) == Others(m.table.output)
  {
    EnableEffect(m, c);
    EnabledMeaning(m, c, d);
    ListMeaning(text, d);
    LoopbackBlock(d);
  }

  /** A token as it is typed: four octets, a slash and a length. */
  predicate Typed(token: string, a: nat, b: nat, c: nat, e: nat, prefix: nat) {
    && a < 0x100 && b < 0x100 && c < 0x100 && e < 0x100 && prefix <= 32
    && token == Decimal(a) + "." + Decimal(b) + "." + Decimal(c) + "." + Decimal(e) + "/" + Decimal(prefix)
  }

  lemma TypedNames(token: string, a: nat, b: nat, c: nat, e: nat, prefix: nat, n: Ipv4)
    requires Typed(token, a, b, c, e, prefix) && n == ((a * 0x100 + b) * 0x100 + c) * 0x100 + e
    ensures Names(token, n, prefix)
  {
    var quad, t := Decimal(a) + "." + Decimal(b) + "." + Decimal(c) + "." + Decimal(e), Decimal(prefix);
    QuadOfOctets(a, b, c, e, n);
    QuadMeaning(quad, n);
    PrintIsDotted(n);
    QuadText(n);
    DecimalIsDigits(prefix);
    TrimKeeps(token);
    StrtolOfDecimal(prefix);
    StrtolMeaning(t, prefix);
    assert IsBlock(token, n, prefix, quad, t);
  }

  /** After the typed block a.b.c.e/prefix is enabled, no connection is redirected whose address has
      the same first `prefix` bits as a.b.c.e. */
  lemma TypedBlockIsSpared(m: Machine, conf: Conf, text: string, token: string,
                           a: nat, b: nat, c: nat, e: nat, prefix: nat, n: Ipv4, d: Ipv4)
    requires ParseList(text) == Some(conf.bypass) && Enable(m, conf).ok && token in Split(text, ',')
    requires Typed(token, a, b, c, e, prefix) && n == ((a * 0x100 + b) * 0x100 + c) * 0x100 + e
    requires d / Power(32 - prefix) == n / Power(32 - prefix)
    ensures !Redirects(Enable(m, conf).m.table, d)
  {
    TypedNames(token, a, b, c, e, prefix, n);
    assert SameBlock(n, d, prefix) && Matches(token, d);
    EndToEnd(m, conf, text, d);
  }
}
