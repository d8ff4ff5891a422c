/** The NAT table as src/firewall.c sees it, the iptables commands it runs, and the
    sequences it makes of them.  Which commands fail for reasons outside the table is
    decided by `luck`; a command that fails has no effect. */
module Firewall {
  import opened Wrappers
  import opened Address
  import opened BypassLanguage
  import opened ConfigFile

  const LISTEN_PORT: nat := 12345
  const LOOPBACK: Ipv4 := 0x7F00_0000

  datatype Target = Return | Redirect(port: nat) | OtherTarget(id: nat)

  /** The destination match of a rule; every packet considered is TCP. */
  datatype Match = AnyDestination | Destination(network: Ipv4, prefix: nat)

  datatype Rule = Rule(destination: Match, target: Target)

  /** A rule of the OUTPUT chain: our jump, or somebody else's rule. */
  datatype OutputRule = Jump | Foreign(id: nat)

  /** The chain FPROXY_OUT, if it exists, and the OUTPUT chain. */
  datatype Table = Table(chain: Option<seq<Rule>>, output: seq<OutputRule>)

  // ---- what a table does to a connection ----

  predicate Hits(m: Match, d: Ipv4) {
    match m
    case AnyDestination => true
    case Destination(network, prefix) => prefix <= 32 && Covers(network, prefix, d)
  }

  /** First match wins; past the last rule the chain returns. */
  function Decide(chain: seq<Rule>, d: Ipv4): Target {
    if chain == [] then Return
    else if Hits(chain[0].destination, d) then chain[0].target
    else Decide(chain[1..], d)
  }

  predicate HasJump(output: seq<OutputRule>) {
    output != [] && (output[0].Jump? || HasJump(output[1..]))
  }

  /** A TCP connection to `d` is sent to the forwarder. */
  predicate Redirects(t: Table, d: Ipv4) {
    HasJump(t.output) && t.chain.Some? && Decide(t.chain.value, d) == Redirect(LISTEN_PORT)
  }

  // ---- commands ----

  datatype Command =
    | NewChain | Flush | AppendRule(rule: Rule) | InsertJump | DeleteJump | DeleteChain

  /** iptables can carry the command out on this table. */
  predicate Possible(t: Table, command: Command) {
    match command
    case NewChain => t.chain.None?
    case Flush => t.chain.Some?
    case AppendRule(_) => t.chain.Some?
    case InsertJump => t.chain.Some?
    case DeleteJump => HasJump(t.output)
    case DeleteChain => t.chain == Some([]) && !HasJump(t.output)
  }

  function RemoveFirstJump(output: seq<OutputRule>): seq<OutputRule> {
    if output == [] then []
    else if output[0].Jump? then output[1..]
    else [output[0]] + RemoveFirstJump(output[1..])
  }

  function Effect(t: Table, command: Command): Table
    requires Possible(t, command)
  {
    match command
    case NewChain => t.(chain := Some([]))
    case Flush => t.(chain := Some([]))
    case AppendRule(rule) => t.(chain := Some(t.chain.value + [rule]))
    case InsertJump => t.(output := [Jump] + t.output)
    case DeleteJump => t.(output := RemoveFirstJump(t.output))
    case DeleteChain => t.(chain := None)
  }

  /** The table, the fate of the commands to come, and as history every table there has
      been and whether a clean-up by fp_firewall_disable has failed. */
  datatype Machine = Machine(table: Table, luck: seq<bool>, history: seq<Table>, stuck: bool)

  datatype Outcome = Outcome(m: Machine, ok: bool)

  function Run(m: Machine, command: Command): Outcome {
    var lucky := m.luck != [] && m.luck[0];
    var later := if m.luck == [] then [] else m.luck[1..];
    if lucky && Possible(m.table, command) then
      var t := Effect(m.table, command);
      Outcome(m.(table := t, luck := later, history := m.history + [t]), true)
    else Outcome(m.(luck := later), false)
  }

  // ---- the firewall operations ----

  function Jumps(output: seq<OutputRule>): nat {
    if output == [] then 0 else (if output[0].Jump? then 1 else 0) + Jumps(output[1..])
  }

  lemma {:induction false} RemovingCounts(output: seq<OutputRule>)
    requires HasJump(output)
    ensures Jumps(RemoveFirstJump(output)) + 1 == Jumps(output)
  {
    if !output[0].Jump? {
      RemovingCounts(output[1..]);
    }
  }

  lemma RunDeleteJumpCounts(m: Machine)
    requires Run(m, DeleteJump).ok
    ensures Jumps(Run(m, DeleteJump).m.table.output) < Jumps(m.table.output)
  {
    RemovingCounts(m.table.output);
  }

  /** fp_firewall_disable. */
  function Disable(m: Machine): Outcome
    decreases Jumps(m.table.output)
  {
    if HasJump(m.table.output) then
      var r := Run(m, DeleteJump);
      if r.ok then RunDeleteJumpCounts(m); Disable(r.m) else r
    else if m.table.chain.None? then Outcome(m, true)
    else
      var r := Run(m, Flush);
      if r.ok then Run(r.m, DeleteChain) else r
  }

  function AppendRules(m: Machine, rules: seq<Rule>): Outcome
    decreases |rules|
  {
    if rules == [] then Outcome(m, true)
    else
      var r := Run(m, AppendRule(rules[0]));
      if r.ok then AppendRules(r.m, rules[1..]) else r
  }

  function ReturnFor(network: Ipv4, prefix: nat): Rule {
    Rule(Destination(network, prefix), Return)
  }

  function BypassRules(es: seq<Bypass>): seq<Rule> {
    if es == [] then [] else [ReturnFor(es[0].network, es[0].prefix)] + BypassRules(es[1..])
  }

  const REDIRECT_ALL := Rule(AnyDestination, Redirect(LISTEN_PORT))

  /** The chain that fp_firewall_enable builds for a configuration. */
  function Compile(c: Conf): seq<Rule> {
    [ReturnFor(c.addr, 32), ReturnFor(LOOPBACK, 8)] + BypassRules(c.bypass) + [REDIRECT_ALL]
  }

  /** The last step of fp_firewall_enable: the jump, unless there is one. */
  function EnsureJump(m: Machine): Outcome {
    if HasJump(m.table.output) then Outcome(m, true) else Run(m, InsertJump)
  }

  /** The commands of fp_firewall_enable once the chain exists, up to the first failure. */
  function Build(m: Machine, c: Conf): Outcome {
    var flushed := Run(m, Flush);
    if !flushed.ok then flushed
    else
      var filled := AppendRules(flushed.m, Compile(c));
      if filled.ok then EnsureJump(filled.m) else filled
  }

  /** A clean-up whose result the caller ignores. */
  function CleanUp(m: Machine): Machine {
    var r := Disable(m);
    r.m.(stuck := r.m.stuck || !r.ok)
  }

  function EnsureChain(m: Machine): Outcome {
    if m.table.chain.Some? then Outcome(m, true) else Run(m, NewChain)
  }

  /** fp_firewall_enable. */
  function Enable(m: Machine, c: Conf): Outcome {
    var created := EnsureChain(m);
    if !created.ok then created
    else
      var built := Build(created.m, c);
      if built.ok then built else Outcome(CleanUp(built.m), false)
  }

  predicate HasAll(chain: seq<Rule>, rules: seq<Rule>) {
    rules == [] || (rules[0] in chain && HasAll(chain, rules[1..]))
  }

  /** fp_firewall_is_enabled: every rule is present, in whatever order. */
  predicate IsEnabled(t: Table, c: Conf) {
    t.chain.Some? && HasJump(t.output)
    && ReturnFor(c.addr, 32) in t.chain.value && ReturnFor(LOOPBACK, 8) in t.chain.value
    && REDIRECT_ALL in t.chain.value && HasAll(t.chain.value, BypassRules(c.bypass))
  }

  lemma {:induction false} JumpIsThere(output: seq<OutputRule>)
    ensures HasJump(output) <==> Jump in output
  {
    if output != [] && !output[0].Jump? {
      JumpIsThere(output[1..]);
      assert output == [output[0]] + output[1..];
    }
  }

  lemma {:induction false} HasAllBypass(chain: seq<Rule>, es: seq<Bypass>)
    ensures HasAll(chain, BypassRules(es))
       <==> forall e :: e in es ==> Rule(Destination(e.network, e.prefix), Return) in chain
  {
    if es != [] {
      HasAllBypass(chain, es[1..]);
      assert BypassRules(es)[1..] == BypassRules(es[1..]);
      assert forall e :: e in es <==> e == es[0] || e in es[1..];
    }
  }

  /** What fp_firewall_is_enabled asks for: the jump, and in the chain the rules that spare the
      proxy, loopback and every bypass entry, and the rule that redirects. */
  ghost predicate AllPresent(t: Table, c: Conf) {
    && Jump in t.output && t.chain.Some?
    && Rule(Destination(c.addr, 32), Return) in t.chain.value
    && Rule(Destination(0x7F00_0000, 8), Return) in t.chain.value
    && Rule(AnyDestination, Redirect(12345)) in t.chain.value
    && forall e :: e in c.bypass ==> Rule(Destination(e.network, e.prefix), Return) in t.chain.value
  }

  /** It answers exactly whether all of them are present. */
  lemma EnabledExactly(t: Table, c: Conf)
    ensures IsEnabled(t, c) <==> AllPresent(t, c)
  {
    JumpIsThere(t.output);
    if t.chain.Some? {
      HasAllBypass(t.chain.value, c.bypass);
    }
  }

  lemma {:induction false} BypassRuleOf(es: seq<Bypass>, i: nat)
    requires i < |es|
    ensures |BypassRules(es)| == |es|
    ensures BypassRules(es)[i] == Rule(Destination(es[i].network, es[i].prefix), Return)
  {
    if i > 0 {
      BypassRuleOf(es[1..], i - 1);
    } else if |es| > 1 {
      BypassRuleOf(es[1..], 0);
    }
  }

  lemma {:induction false} BypassRuleCount(es: seq<Bypass>)
    ensures |BypassRules(es)| == |es|
  {
    if es != [] {
      BypassRuleCount(es[1..]);
    }
  }

  /** The chain rule by rule: the proxy, loopback, the bypass entries in order, the redirect. */
  lemma CompiledRules(c: Conf)
    ensures |Compile(c)| == |c.bypass| + 3
    ensures Compile(c)[0] == Rule(Destination(c.addr, 32), Return)
    ensures Compile(c)[1] == Rule(Destination(0x7F00_0000, 8), Return)
    ensures forall i :: 0 <= i < |c.bypass| ==>
      Compile(c)[i + 2] == Rule(Destination(c.bypass[i].network, c.bypass[i].prefix), Return)
    ensures Compile(c)[|c.bypass| + 2] == Rule(AnyDestination, Redirect(12345))
  {
    BypassRuleCount(c.bypass);
    forall i | 0 <= i < |c.bypass|
      ensures Compile(c)[i + 2] == Rule(Destination(c.bypass[i].network, c.bypass[i].prefix), Return)
    {
      BypassRuleOf(c.bypass, i);
    }
  }

  // ---- the compiled chain means the configuration ----

  /** Not to be redirected: the proxy itself, loopback, and what a bypass entry covers. */
  ghost predicate Excluded(c: Conf, d: Ipv4) {
    d == c.addr || Covers(LOOPBACK, 8, d) || Covered(c.bypass, d)
  }

  lemma {:induction false} DecideBypass(es: seq<Bypass>, rest: seq<Rule>, d: Ipv4)
    ensures Decide(BypassRules(es) + rest, d) == if Covered(es, d) then Return else Decide(rest, d)
  {
    if es == [] {
      assert BypassRules(es) + rest == rest;
    } else {
      var e, tail := es[0], es[1..];
      assert BypassRules(es) + rest == [ReturnFor(e.network, e.prefix)] + (BypassRules(tail) + rest);
      DecideBypass(tail, rest, d);
      CoveredCons(e, tail, d);
      assert es == [e] + tail;
    }
  }

  lemma CoveredCons(e: Bypass, es: seq<Bypass>, d: Ipv4)
    ensures Covered([e] + es, d) <==> Hits(Destination(e.network, e.prefix), d) || Covered(es, d)
  {
  }

  lemma DecideFirst(rule: Rule, rest: seq<Rule>, d: Ipv4)
    ensures Decide([rule] + rest, d) == if Hits(rule.destination, d) then rule.target else Decide(rest, d)
  {
  }

  /** The chain sends a destination to the forwarder exactly when the configuration does
      not exclude it. */
  lemma CompiledMeaning(c: Conf, d: Ipv4)
    ensures Decide(Compile(c), d) == if Excluded(c, d) then Return else Redirect(LISTEN_PORT)
  {
    var tail := BypassRules(c.bypass) + [REDIRECT_ALL];
    assert Compile(c) == [ReturnFor(c.addr, 32)] + ([ReturnFor(LOOPBACK, 8)] + tail);
    DecideFirst(ReturnFor(c.addr, 32), [ReturnFor(LOOPBACK, 8)] + tail, d);
    DecideFirst(ReturnFor(LOOPBACK, 8), tail, d);
    DecideBypass(c.bypass, [REDIRECT_ALL], d);
  }

  predicate OnlyReturns(rules: seq<Rule>) {
    rules == [] || (rules[0].target.Return? && OnlyReturns(rules[1..]))
  }

  lemma {:induction false} ReturnsReturn(rules: seq<Rule>, d: Ipv4)
    requires OnlyReturns(rules)
    ensures Decide(rules, d) == Return
  {
    if rules != [] {
      ReturnsReturn(rules[1..], d);
    }
  }

  lemma {:induction false} PrefixOnlyReturns(rules: seq<Rule>, k: nat)
    requires OnlyReturns(rules) && k <= |rules|
    ensures OnlyReturns(rules[..k])
  {
    if k > 0 {
      assert rules[..k][1..] == rules[1..][..k - 1];
      PrefixOnlyReturns(rules[1..], k - 1);
    }
  }

  lemma {:induction false} BypassOnlyReturns(es: seq<Bypass>)
    ensures OnlyReturns(BypassRules(es))
  {
    if es != [] {
      BypassOnlyReturns(es[1..]);
      assert BypassRules(es)[1..] == BypassRules(es[1..]);
    }
  }

  lemma PartialOnlyReturns(c: Conf, partial: seq<Rule>)
    requires partial <= Compile(c) && partial != Compile(c)
    ensures OnlyReturns(partial)
  {
    var body := [ReturnFor(c.addr, 32), ReturnFor(LOOPBACK, 8)] + BypassRules(c.bypass);
    assert OnlyReturns(body) by {
      BypassOnlyReturns(c.bypass);
      assert body[1..] == [ReturnFor(LOOPBACK, 8)] + BypassRules(c.bypass);
      assert body[1..][1..] == BypassRules(c.bypass);
    }
    assert partial == body[..|partial|];
    PrefixOnlyReturns(body, |partial|);
  }

  /** A chain that is not yet complete redirects nothing. */
  lemma PartialChainRedirectsNothing(c: Conf, partial: seq<Rule>, d: Ipv4)
    requires partial <= Compile(c) && partial != Compile(c)
    ensures Decide(partial, d) == Return
  {
    PartialOnlyReturns(c, partial);
    ReturnsReturn(partial, d);
  }

  // ---- the other rules ----

  /** The rules of OUTPUT that are not ours, in order. */
  function Others(output: seq<OutputRule>): seq<OutputRule> {
    if output == [] then [] else (if output[0].Jump? then [] else [output[0]]) + Others(output[1..])
  }

  lemma {:induction false} RemovingKeepsOthers(output: seq<OutputRule>)
    ensures Others(RemoveFirstJump(output)) == Others(output)
  {
    if output != [] && !output[0].Jump? {
      RemovingKeepsOthers(output[1..]);
      assert ([output[0]] + RemoveFirstJump(output[1..]))[1..] == RemoveFirstJump(output[1..]);
    }
  }

  lemma {:induction false} WithoutJumps(output: seq<OutputRule>)
    requires !HasJump(output)
    ensures Others(output) == output && Jumps(output) == 0
  {
    if output != [] {
      WithoutJumps(output[1..]);
    }
  }
}
