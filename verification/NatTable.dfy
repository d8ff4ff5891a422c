/** The commands of src/firewall.c as they run, one after the other, on the NAT table. */
module NatTable {
  import opened Wrappers
  import opened BypassLanguage
  import opened ConfigFile
  import opened Firewall

  /** The kernel's table.  `luck` says which of the commands to come succeed. */
  class Nat {
    var chain: Option<seq<Rule>>
    var output: seq<OutputRule>
    var luck: seq<bool>
    ghost var history: seq<Table>
    ghost var stuck: bool

    ghost function State(): Machine
      reads this
    {
      Machine(Table(chain, output), luck, history, stuck)
    }

    /** A mutating iptables command. */
    method Execute(command: Command) returns (ok: bool)
      modifies this
      ensures Outcome(State(), ok) == Run(old(State()), command)
    {
      var t := Table(chain, output);
      ok := luck != [] && luck[0] && Possible(t, command);
      luck := if luck == [] then [] else luck[1..];
      if ok {
        var after := Effect(t, command);
        chain, output := after.chain, after.output;
        history := history + [after];
      }
    }

    /** iptables -S of the chain. */
    method ChainExists() returns (yes: bool)
      ensures yes == chain.Some?
    {
      yes := chain.Some?;
    }

    /** iptables -C of the jump. */
    method OutputJumpExists() returns (yes: bool)
      ensures yes == HasJump(output)
    {
      yes := HasJump(output);
    }

    /** iptables -C of a rule of the chain. */
    method RuleExists(rule: Rule) returns (yes: bool)
      ensures yes == (chain.Some? && rule in chain.value)
    {
      yes := chain.Some? && rule in chain.value;
    }

    /** fp_firewall_disable. */
    method DisableFirewall() returns (ok: bool)
      modifies this
      ensures Outcome(State(), ok) == Disable(old(State()))
    {
      ghost var start := State();
      var jump := OutputJumpExists();
      while jump
        invariant jump == HasJump(output)
        invariant Disable(State()) == Disable(start)
        decreases Jumps(output)
      {
        ghost var before := State();
        var removed := Execute(DeleteJump);
        if !removed {
          return false;
        }
        RunDeleteJumpCounts(before);
        jump := OutputJumpExists();
      }
      var found := ChainExists();
      if !found {
        return true;
      }
      var flushed := Execute(Flush);
      if !flushed {
        return false;
      }
      ok := Execute(DeleteChain);
    }

    /** The clean-up on a failure path of fp_firewall_enable. */
    method CleanUpAfterFailure()
      modifies this
      ensures State() == CleanUp(old(State()))
    {
      var disabled := DisableFirewall();
      stuck := stuck || !disabled;
    }

    /** The loop of fp_firewall_enable over the bypass entries. */
    method AppendBypassRules(es: seq<Bypass>) returns (ok: bool)
      modifies this
      ensures Outcome(State(), ok) == AppendRules(old(State()), BypassRules(es))
    {
      ghost var goal := AppendRules(State(), BypassRules(es));
      var index := 0;
      while index < |es|
        invariant 0 <= index <= |es|
        invariant AppendRules(State(), BypassRules(es[index..])) == goal
      {
        var e := es[index];
        assert es[index..][1..] == es[index + 1..];
        AppendRulesFirst(State(), ReturnFor(e.network, e.prefix), BypassRules(es[index + 1..]));
        ok := Execute(AppendRule(ReturnFor(e.network, e.prefix)));
        if !ok {
          return;
        }
        index := index + 1;
      }
      return true;
    }

    /** The appends of fp_firewall_enable: proxy, loopback, each bypass entry, redirect. */
    method AppendChain(c: Conf) returns (ok: bool)
      modifies this
      ensures Outcome(State(), ok) == AppendRules(old(State()), Compile(c))
    {
      ghost var bypass := BypassRules(c.bypass);
      assert Compile(c) == [ReturnFor(c.addr, 32)] + ([ReturnFor(LOOPBACK, 8)] + (bypass + [REDIRECT_ALL]));
      AppendRulesFirst(State(), ReturnFor(c.addr, 32), [ReturnFor(LOOPBACK, 8)] + (bypass + [REDIRECT_ALL]));
      ok := Execute(AppendRule(ReturnFor(c.addr, 32)));
      if !ok {
        return;
      }
      AppendRulesFirst(State(), ReturnFor(LOOPBACK, 8), bypass + [REDIRECT_ALL]);
      ok := Execute(AppendRule(ReturnFor(LOOPBACK, 8)));
      if !ok {
        return;
      }
      AppendRulesJoin(State(), bypass, [REDIRECT_ALL]);
      ok := AppendBypassRules(c.bypass);
      if !ok {
        return;
      }
      ok := Execute(AppendRule(REDIRECT_ALL));
    }

    /** The part of fp_firewall_enable that is cleaned up when it fails. */
    method BuildChain(c: Conf) returns (ok: bool)
      modifies this
      ensures Outcome(State(), ok) == Build(old(State()), c)
    {
      ok := Execute(Flush);
      if !ok {
        return;
      }
      ok := AppendChain(c);
      if !ok {
        return;
      }
      var jump := OutputJumpExists();
      if !jump {
        ok := Execute(InsertJump);
      }
    }

    /** fp_firewall_enable. */
    method EnableFirewall(c: Conf) returns (ok: bool)
      modifies this
      ensures Outcome(State(), ok) == Enable(old(State()), c)
    {
      var found := ChainExists();
      if !found {
        var created := Execute(NewChain);
        if !created {
          return false;
        }
      }
      ok := BuildChain(c);
      if !ok {
        CleanUpAfterFailure();
      }
    }

    /** fp_firewall_is_enabled. */
    method IsFirewallEnabled(c: Conf) returns (yes: bool)
      ensures yes == IsEnabled(Table(chain, output), c)
      ensures yes <==> AllPresent(Table(chain, output), c)
    {
      EnabledExactly(Table(chain, output), c);
      var found := ChainExists();
      var jump := OutputJumpExists();
      var proxy := RuleExists(ReturnFor(c.addr, 32));
      var loopback := RuleExists(ReturnFor(LOOPBACK, 8));
      var redirect := RuleExists(REDIRECT_ALL);
      if !found || !jump || !proxy || !loopback || !redirect {
        return false;
      }
      var index := 0;
      while index < |c.bypass|
        invariant 0 <= index <= |c.bypass|
        invariant HasAll(chain.value, BypassRules(c.bypass)) == HasAll(chain.value, BypassRules(c.bypass[index..]))
      {
        var e := c.bypass[index];
        assert BypassRules(c.bypass[index..])[1..] == BypassRules(c.bypass[index + 1..]) by {
          assert c.bypass[index..][1..] == c.bypass[index + 1..];
        }
        var present := RuleExists(ReturnFor(e.network, e.prefix));
        if !present {
          return false;
        }
        index := index + 1;
      }
      return true;
    }
  }

  lemma AppendRulesFirst(m: Machine, rule: Rule, rules: seq<Rule>)
    ensures AppendRules(m, [rule] + rules) ==
      var r := Run(m, AppendRule(rule)); if r.ok then AppendRules(r.m, rules) else r
  {
  }

  lemma {:induction false} AppendRulesJoin(m: Machine, rules: seq<Rule>, more: seq<Rule>)
    ensures AppendRules(m, rules + more) ==
      var r := AppendRules(m, rules); if r.ok then AppendRules(r.m, more) else r
    decreases |rules|
  {
    if rules == [] {
      assert rules + more == more;
    } else {
      assert (rules + more)[1..] == rules[1..] + more;
      AppendRulesJoin(Run(m, AppendRule(rules[0])).m, rules[1..], more);
    }
  }
}
