/** The bypass language of src/config.c: tokens, canonical entries and lists. */
module BypassLanguage {
  import opened Wrappers
  import opened Text
  import opened Address

  const MAX_BYPASS: nat := 32
  const TOKEN_SIZE: nat := 20      // INET_ADDRSTRLEN + 4
  const ADDRESS_SIZE: nat := 16    // INET_ADDRSTRLEN

  datatype Bypass = Bypass(network: Ipv4, prefix: nat, text: string)

  predicate Blank(c: char) {
    c == ' ' || c == '\t'
  }

  function TrimLeft(s: string): string {
    if s != "" && Blank(s[0]) then TrimLeft(s[1..]) else s
  }

  function TrimRight(s: string): string {
    if s != "" && Blank(s[|s| - 1]) then TrimRight(s[..|s| - 1]) else s
  }

  function Trim(s: string): string {
    TrimRight(TrimLeft(s))
  }

  /** The text of an entry: the address alone for a single host. */
  function Render(network: Ipv4, prefix: nat): string {
    if prefix == 32 then PrintQuad(network) else PrintQuad(network) + "/" + Decimal(prefix)
  }

  function Entry(a: Ipv4, prefix: nat): Bypass
    requires prefix <= 32
  {
    Bypass(Network(a, prefix), prefix, Render(Network(a, prefix), prefix))
  }

  /** What the code makes of a trimmed token. */
  function EntryOf(token: string): (r: Option<Bypass>)
    ensures r.Some? ==> r.value.prefix <= 32
  {
    var k := Find(token, '/');
    var rest := if k < |token| then token[k + 1..] else "";
    var n := Strtol(rest);
    if k < |token| && (rest == "" || n.used < |rest| || n.value < 0 || n.value > 32) then None
    else
      var prefix := if k < |token| then n.value else 32;
      match ParseQuad(token[..k])
      case None => None
      case Some(a) => Some(Entry(a, prefix))
  }

  /** The tests of append_bypass on the token itself: its length without blanks, then its form. */
  function Check(value: string): (r: Option<Bypass>)
    ensures r.Some? ==> r.value.prefix <= 32
  {
    var token := Trim(value);
    if |token| == 0 || |token| >= TOKEN_SIZE then None else EntryOf(token)
  }

  /** Storing an entry: a full list refuses even an entry it already holds. */
  function Insert(entries: seq<Bypass>, e: Bypass): Option<seq<Bypass>> {
    if |entries| >= MAX_BYPASS then None
    else if exists i :: 0 <= i < |entries| && entries[i].network == e.network && entries[i].prefix == e.prefix
    then Some(entries) else Some(entries + [e])
  }

  /** append_bypass. */
  function Append(entries: seq<Bypass>, check: Option<Bypass>): Option<seq<Bypass>> {
    match check
    case None => None
    case Some(e) => Insert(entries, e)
  }

  function AppendAll(entries: seq<Bypass>, checks: seq<Option<Bypass>>): Option<seq<Bypass>>
    decreases |checks|
  {
    if checks == [] then Some(entries)
    else
      match Append(entries, checks[0])
      case None => None
      case Some(es) => AppendAll(es, checks[1..])
  }

  function Checks(tokens: seq<string>): seq<Option<Bypass>> {
    seq(|tokens|, i requires 0 <= i < |tokens| => Check(tokens[i]))
  }

  /** fp_parse_bypass_list. */
  function ParseList(value: string): Option<seq<Bypass>> {
    if value == "" then Some([]) else AppendAll([], Checks(Split(value, ',')))
  }

  // ---- what a token means, without the parser ----

  /** An address, a slash and a number. */
  ghost predicate IsBlock(s: string, a: Ipv4, prefix: nat, quad: string, t: string) {
    s == quad + "/" + t && Dotted(quad, a) && IsNumber(t, prefix)
  }

  /** The text is the address `a` alone, or `a`, a slash and a number. */
  ghost predicate IsName(s: string, a: Ipv4, prefix: nat) {
    || (prefix == 32 && Dotted(s, a))
    || (prefix <= 32 && exists quad, t :: IsBlock(s, a, prefix, quad, t))
  }

  /** The token, blanks aside, names the block of `a` with this prefix length. */
  ghost predicate Names(token: string, a: Ipv4, prefix: nat) {
    IsName(Trim(token), a, prefix)
  }

  /** A destination is in the block that the token names. */
  ghost predicate Matches(token: string, d: Ipv4) {
    exists a, prefix :: prefix <= 32 && Names(token, a, prefix) && SameBlock(a, d, prefix)
  }

  /** A text that names a block parses to the canonical entry of that block. */
  lemma AddressParses(a: Ipv4)
    ensures EntryOf(PrintQuad(a)) == Some(Entry(a, 32))
  {
    var q := PrintQuad(a);
    QuadRoundTrip(a);
    QuadText(a);
    FindAbsent(q, '/');
    assert q[..|q|] == q;
  }

  lemma BlockParses(a: Ipv4, t: string, prefix: nat)
    requires t != "" && Strtol(t) == Scan(prefix, |t|) && prefix <= 32
    ensures EntryOf(PrintQuad(a) + "/" + t) == Some(Entry(a, prefix))
  {
    QuadRoundTrip(a);
    QuadText(a);
    FindAfter(PrintQuad(a), '/', t);
  }

  lemma NamesParses(token: string, a: Ipv4, prefix: nat)
    requires Names(token, a, prefix)
    ensures prefix <= 32 && EntryOf(Trim(token)) == Some(Entry(a, prefix))
  {
    var s := Trim(token);
    PrintIsDotted(a);
    if prefix == 32 && Dotted(s, a) {
      AddressParses(a);
    } else {
      var quad, t :| IsBlock(s, a, prefix, quad, t);
      StrtolMeaning(t, prefix);
      BlockParses(a, t, prefix);
    }
  }

  lemma SlashForm(s: string, k: nat)
    requires k == Find(s, '/') && k < |s| && EntryOf(s).Some?
    ensures ParseQuad(s[..k]).Some? && Strtol(s[k + 1..]) == Scan(EntryOf(s).value.prefix, |s[k + 1..]|)
    ensures s[k + 1..] != "" && EntryOf(s) == Some(Entry(ParseQuad(s[..k]).value, EntryOf(s).value.prefix))
  {
  }

  lemma PlainForm(s: string)
    requires Find(s, '/') == |s| && EntryOf(s).Some?
    ensures ParseQuad(s).Some? && EntryOf(s) == Some(Entry(ParseQuad(s).value, 32))
  {
    assert s[..|s|] == s;
  }

  lemma SlashIsName(s: string, quad: string, t: string, prefix: nat)
    requires s == quad + "/" + t && ParseQuad(quad).Some? && t != "" && Strtol(t) == Scan(prefix, |t|) && prefix <= 32
    ensures IsName(s, ParseQuad(quad).value, prefix)
  {
    QuadMeaning(quad, ParseQuad(quad).value);
    StrtolMeaning(t, prefix);
    assert IsBlock(s, ParseQuad(quad).value, prefix, quad, t);
  }

  lemma PlainIsName(s: string)
    requires ParseQuad(s).Some?
    ensures IsName(s, ParseQuad(s).value, 32)
  {
    QuadMeaning(s, ParseQuad(s).value);
  }

  /** A text that parses has the form of a name. */
  lemma ParsesForm(s: string) returns (a: Ipv4, prefix: nat)
    requires EntryOf(s).Some?
    ensures prefix <= 32 && EntryOf(s) == Some(Entry(a, prefix)) && IsName(s, a, prefix)
  {
    var k := Find(s, '/');
    if k < |s| {
      SlashForm(s, k);
      a, prefix := ParseQuad(s[..k]).value, EntryOf(s).value.prefix;
      SlashIsName(s, s[..k], s[k + 1..], prefix);
    } else {
      PlainForm(s);
      a, prefix := ParseQuad(s).value, 32;
      PlainIsName(s);
    }
  }

  /** The stored entry covers exactly the destinations that the token matches. */
  lemma TokenMeaning(token: string, d: Ipv4)
    ensures EntryOf(Trim(token)).Some? <==> exists a, prefix :: Names(token, a, prefix)
    ensures EntryOf(Trim(token)).Some? ==>
      var e := EntryOf(Trim(token)).value; (Covers(e.network, e.prefix, d) <==> Matches(token, d))
  {
    if EntryOf(Trim(token)).Some? {
      var a, prefix := ParsesForm(Trim(token));
      assert Names(token, a, prefix);
      CoversIsSameBlock(a, d, prefix);
      forall b, q | q <= 32 && Names(token, b, q) && SameBlock(b, d, q)
        ensures Covers(Network(a, prefix), prefix, d)
      {
        NamesParses(token, b, q);
        CoversIsSameBlock(b, d, q);
      }
    }
    forall a, prefix | Names(token, a, prefix)
      ensures EntryOf(Trim(token)).Some?
    {
      NamesParses(token, a, prefix);
    }
  }

  // ---- which tokens are stored, and how ----

  predicate AllBlank(s: string) {
    forall i :: 0 <= i < |s| ==> s[i] == ' ' || s[i] == '\t'
  }

  /** The text between the blanks around it. */
  predicate TrimmedTo(s: string, left: string, t: string, right: string) {
    && s == left + t + right && AllBlank(left) && AllBlank(right)
    && (t == "" || (t[0] !in " \t" && t[|t| - 1] !in " \t"))
  }

  lemma {:induction false} TrimLeftDrops(left: string, s: string)
    requires AllBlank(left) && (s == "" || !Blank(s[0]))
    ensures TrimLeft(left + s) == s
  {
    if left == "" {
      assert left + s == s;
    } else {
      assert (left + s)[1..] == left[1..] + s;
      TrimLeftDrops(left[1..], s);
    }
  }

  lemma {:induction false} TrimRightDrops(s: string, right: string)
    requires AllBlank(right) && (s == "" || !Blank(s[|s| - 1]))
    ensures TrimRight(s + right) == s
  {
    if right == "" {
      assert s + right == s;
    } else {
      assert (s + right)[..|s + right| - 1] == s + right[..|right| - 1];
      TrimRightDrops(s, right[..|right| - 1]);
    }
  }

  lemma {:induction false} TrimLeftSplits(s: string) returns (left: string)
    ensures s == left + TrimLeft(s) && AllBlank(left) && (TrimLeft(s) == "" || !Blank(TrimLeft(s)[0]))
  {
    left := "";
    if s != "" && Blank(s[0]) {
      left := TrimLeftSplits(s[1..]);
      left := [s[0]] + left;
    }
  }

  lemma {:induction false} TrimRightSplits(s: string) returns (right: string)
    ensures s == TrimRight(s) + right && AllBlank(right)
    ensures TrimRight(s) == "" || !Blank(TrimRight(s)[|TrimRight(s)| - 1])
  {
    right := "";
    if s != "" && Blank(s[|s| - 1]) {
      right := TrimRightSplits(s[..|s| - 1]);
      right := right + [s[|s| - 1]];
    }
  }

  lemma TrimmedIs(s: string, left: string, t: string, right: string)
    requires TrimmedTo(s, left, t, right)
    ensures Trim(s) == t
  {
    if t == "" {
      assert AllBlank(s) && s + "" == s;
      TrimLeftDrops(s, "");
    } else {
      assert !Blank(t[0]) && !Blank(t[|t| - 1]);
      assert s == left + (t + right) && (t + right)[0] == t[0];
      TrimLeftDrops(left, t + right);
      TrimRightDrops(t, right);
    }
  }

  lemma TrimSplits(s: string) returns (left: string, right: string)
    ensures TrimmedTo(s, left, Trim(s), right)
  {
    left := TrimLeftSplits(s);
    right := TrimRightSplits(TrimLeft(s));
    assert s == left + (Trim(s) + right) == left + Trim(s) + right;
    assert Trim(s) != "" ==> Trim(s)[0] == TrimLeft(s)[0];
  }

  /** Trimming takes exactly the blanks on both sides away. */
  lemma TrimMeaning(s: string, t: string)
    ensures Trim(s) == t <==> exists left, right :: TrimmedTo(s, left, t, right)
  {
    if Trim(s) == t {
      var left, right := TrimSplits(s);
    }
    if left, right :| TrimmedTo(s, left, t, right) {
      TrimmedIs(s, left, t, right);
    }
  }

  /** How an entry is shown: its network, and its length unless that is 32. */
  ghost predicate ShownAs(text: string, network: Ipv4, prefix: nat) {
    if prefix == 32 then Dotted(text, network)
    else exists quad :: Dotted(quad, network) && text == quad + "/" + Decimal(prefix)
  }

  lemma RenderShows(network: Ipv4, prefix: nat)
    ensures ShownAs(Render(network, prefix), network, prefix)
  {
    PrintIsDotted(network);
    assert Dotted(PrintQuad(network), network);
  }

  /** The entry of the block of `a`: the host bits are cleared. */
  ghost predicate EntryFor(e: Bypass, a: Ipv4, prefix: nat) {
    && prefix <= 32 && e.prefix == prefix && e.network == a / Power(32 - prefix) * Power(32 - prefix)
    && ShownAs(e.text, e.network, prefix)
  }

  lemma EntryIs(a: Ipv4, prefix: nat)
    requires prefix <= 32
    ensures EntryFor(Entry(a, prefix), a, prefix)
  {
    ClearLowIs(a, 32 - prefix);
    RenderShows(Network(a, prefix), prefix);
  }

  /** A token passes its tests exactly when it has 1 to 19 characters without the blanks around
      it and names a block; its entry is then that of the block. */
  lemma CheckExactly(value: string)
    ensures Check(value).Some? <==> 1 <= |Trim(value)| <= 19 && exists a, prefix :: Names(value, a, prefix)
    ensures Check(value).Some? ==>
      exists a, prefix :: Names(value, a, prefix) && EntryFor(Check(value).value, a, prefix)
  {
    TokenMeaning(value, 0);
    if Check(value).Some? {
      var a, prefix := ParsesForm(Trim(value));
      EntryIs(a, prefix);
      assert Names(value, a, prefix) && EntryFor(Check(value).value, a, prefix);
    }
  }

  // ---- canonical lists ----

  predicate Canonical(e: Bypass) {
    e.prefix <= 32 && Network(e.network, e.prefix) == e.network && e.text == Render(e.network, e.prefix)
  }

  /** Canonical entries, pairwise distinct, at most 32. */
  predicate ListOk(entries: seq<Bypass>) {
    && |entries| <= MAX_BYPASS
    && (forall i :: 0 <= i < |entries| ==> Canonical(entries[i]))
    && (forall i, j :: 0 <= i < j < |entries| ==> entries[i] != entries[j])
  }

  /** Canonical entries are determined by network and prefix. */
  lemma CanonicalUnique(e: Bypass, f: Bypass)
    requires Canonical(e) && Canonical(f) && e.network == f.network && e.prefix == f.prefix
    ensures e == f
  {
  }

  lemma EntryIsCanonical(a: Ipv4, prefix: nat)
    requires prefix <= 32
    ensures Canonical(Entry(a, prefix))
  {
    NetworkIdempotent(a, prefix);
  }

  lemma EntryOfIsCanonical(token: string)
    ensures EntryOf(token).Some? ==> Canonical(EntryOf(token).value)
  {
    if EntryOf(token).Some? {
      var k := Find(token, '/');
      EntryIsCanonical(ParseQuad(token[..k]).value, EntryOf(token).value.prefix);
    }
  }

  lemma CheckIsCanonical(value: string)
    ensures Check(value).Some? ==> Canonical(Check(value).value)
  {
    EntryOfIsCanonical(Trim(value));
  }

  /** On a canonical list the code's search compares whole entries. */
  lemma InsertIs(entries: seq<Bypass>, e: Bypass)
    requires ListOk(entries) && Canonical(e)
    ensures Insert(entries, e) ==
      if |entries| >= MAX_BYPASS then None else if e in entries then Some(entries) else Some(entries + [e])
    ensures Insert(entries, e).Some? ==> ListOk(Insert(entries, e).value)
  {
  }

  /** Each entry at its first occurrence. */
  function FirstOccurrences(entries: seq<Bypass>): (r: seq<Bypass>)
    ensures forall e :: e in r <==> e in entries
  {
    if entries == [] then []
    else
      var n := |entries| - 1;
      var r := FirstOccurrences(entries[..n]);
      assert entries == entries[..n] + [entries[n]];
      if entries[n] in r then r else r + [entries[n]]
  }

  predicate AllSome(checks: seq<Option<Bypass>>) {
    forall i :: 0 <= i < |checks| ==> checks[i].Some?
  }

  function Values(checks: seq<Option<Bypass>>): seq<Bypass>
    requires AllSome(checks)
  {
    seq(|checks|, i requires 0 <= i < |checks| => checks[i].value)
  }

  lemma {:induction false} AppendAllSnoc(entries: seq<Bypass>, checks: seq<Option<Bypass>>, last: Option<Bypass>)
    ensures AppendAll(entries, checks + [last]) ==
      match AppendAll(entries, checks) case None => None case Some(es) => Append(es, last)
    decreases |checks|
  {
    if checks == [] {
      assert (checks + [last])[1..] == [];
    } else {
      assert (checks + [last])[1..] == checks[1..] + [last];
      if Append(entries, checks[0]).Some? {
        AppendAllSnoc(Append(entries, checks[0]).value, checks[1..], last);
      }
    }
  }

  /** Token k is taken: it and those before it pass their tests, and those before it
      name fewer than 32 different blocks. */
  predicate Taken(checks: seq<Option<Bypass>>, k: nat)
    requires k < |checks|
  {
    AllSome(checks[..k + 1]) && AllSome(checks[..k]) && |FirstOccurrences(Values(checks[..k]))| < 32
  }

  predicate AllTaken(checks: seq<Option<Bypass>>) {
    forall k :: 0 <= k < |checks| ==> Taken(checks, k)
  }

  lemma AllTakenSnoc(checks: seq<Option<Bypass>>)
    requires |checks| > 0
    ensures AllTaken(checks) <==> AllTaken(checks[..|checks| - 1]) && Taken(checks, |checks| - 1)
  {
    var front := checks[..|checks| - 1];
    forall k | 0 <= k < |front|
      ensures Taken(checks, k) <==> Taken(front, k)
    {
      assert checks[..k] == front[..k] && checks[..k + 1] == front[..k + 1];
    }
  }

  /** A list is accepted exactly when every token is taken; the result is then the
      canonical entries of the tokens at their first occurrence. */
  lemma {:induction false} AppendAllIs(checks: seq<Option<Bypass>>)
    requires forall i :: 0 <= i < |checks| && checks[i].Some? ==> Canonical(checks[i].value)
    ensures AppendAll([], checks).Some? <==> AllTaken(checks)
    ensures AppendAll([], checks).Some? ==> AllSome(checks)
    ensures AppendAll([], checks).Some? ==> AppendAll([], checks).value == FirstOccurrences(Values(checks))
    ensures AppendAll([], checks).Some? ==> ListOk(AppendAll([], checks).value)
    decreases |checks|
  {
    if checks != [] {
      var n := |checks| - 1;
      var front, last := checks[..n], checks[n];
      assert checks == front + [last];
      AppendAllIs(front);
      AppendAllSnoc([], front, last);
      AllTakenSnoc(checks);
      if AppendAll([], front).Some? {
        LastTaken(checks, AppendAll([], front).value);
      }
    }
  }

  /** The step for the last token. */
  lemma LastTaken(checks: seq<Option<Bypass>>, es: seq<Bypass>)
    requires |checks| > 0 && AllSome(checks[..|checks| - 1])
    requires es == FirstOccurrences(Values(checks[..|checks| - 1])) && ListOk(es)
    requires checks[|checks| - 1].Some? ==> Canonical(checks[|checks| - 1].value)
    ensures Append(es, checks[|checks| - 1]).Some? <==> Taken(checks, |checks| - 1)
    ensures Append(es, checks[|checks| - 1]).Some? ==> AllSome(checks)
    ensures Append(es, checks[|checks| - 1]).Some? ==>
      Append(es, checks[|checks| - 1]).value == FirstOccurrences(Values(checks))
    ensures Append(es, checks[|checks| - 1]).Some? ==> ListOk(Append(es, checks[|checks| - 1]).value)
  {
    var n := |checks| - 1;
    assert checks[..n + 1] == checks;
    if checks[n].Some? {
      InsertIs(es, checks[n].value);
      assert AllSome(checks);
      LastOccurrence(checks);
    }
  }

  lemma LastOccurrence(checks: seq<Option<Bypass>>)
    requires |checks| > 0 && AllSome(checks) && AllSome(checks[..|checks| - 1])
    ensures var before, e := FirstOccurrences(Values(checks[..|checks| - 1])), checks[|checks| - 1].value;
      FirstOccurrences(Values(checks)) == if e in before then before else before + [e]
  {
    assert Values(checks)[..|checks| - 1] == Values(checks[..|checks| - 1]);
  }

  lemma ChecksAreCanonical(tokens: seq<string>)
    ensures forall i :: 0 <= i < |tokens| && Checks(tokens)[i].Some? ==> Canonical(Checks(tokens)[i].value)
  {
    forall i | 0 <= i < |tokens| && Checks(tokens)[i].Some?
      ensures Canonical(Checks(tokens)[i].value)
    {
      CheckIsCanonical(tokens[i]);
    }
  }

  /** fp_parse_bypass_list accepts the empty text and exactly the texts all of whose
      tokens are taken; what it stores is canonical, distinct and in first-occurrence order. */
  lemma ListCanonical(value: string)
    ensures var checks := Checks(Split(value, ','));
      && (ParseList(value).Some? <==> value == "" || AllTaken(checks))
      && (ParseList(value).Some? ==> ListOk(ParseList(value).value))
      && (ParseList(value).Some? && value != "" ==>
          AllSome(checks) && ParseList(value).value == FirstOccurrences(Values(checks)))
  {
    var checks := Checks(Split(value, ','));
    if value == "" {
      assert ParseList(value) == Some([]);
    } else {
      ChecksAreCanonical(Split(value, ','));
      AppendAllIs(checks);
      assert ParseList(value) == AppendAll([], checks);
    }
  }

  ghost predicate Covered(entries: seq<Bypass>, d: Ipv4) {
    exists e :: e in entries && e.prefix <= 32 && Covers(e.network, e.prefix, d)
  }

  /** The entry of a token that passes its tests covers what the token matches. */
  lemma CheckMeaning(token: string, d: Ipv4)
    requires Check(token).Some?
    ensures Covers(Check(token).value.network, Check(token).value.prefix, d) <==> Matches(token, d)
  {
    TokenMeaning(token, d);
  }

  /** A token's entry, if the token is among those of an accepted text. */
  lemma TokenStored(value: string, i: nat) returns (e: Bypass)
    requires ParseList(value).Some? && value != "" && i < |Split(value, ',')|
    ensures Check(Split(value, ',')[i]) == Some(e) && e in ParseList(value).value
  {
    ListCanonical(value);
    var checks := Checks(Split(value, ','));
    e := checks[i].value;
    assert Values(checks)[i] == e;
  }

  lemma StoredFromToken(value: string, e: Bypass) returns (i: nat)
    requires ParseList(value).Some? && value != "" && e in ParseList(value).value
    ensures i < |Split(value, ',')| && Check(Split(value, ',')[i]) == Some(e)
  {
    ListCanonical(value);
    var checks := Checks(Split(value, ','));
    i :| 0 <= i < |checks| && Values(checks)[i] == e;
  }

  /** The stored entries together cover exactly what the tokens of the text match. */
  lemma ListMeaning(value: string, d: Ipv4)
    requires ParseList(value).Some?
    ensures Covered(ParseList(value).value, d) <==> exists t :: t in Split(value, ',') && Matches(t, d)
  {
    if value == "" {
      EmptyMatchesNothing(d);
    } else {
      CoveredIsMatched(value, d);
      MatchedIsCovered(value, d);
    }
  }

  lemma MatchedIsCovered(value: string, d: Ipv4)
    requires ParseList(value).Some? && value != ""
    ensures (exists t :: t in Split(value, ',') && Matches(t, d)) ==> Covered(ParseList(value).value, d)
  {
    if t :| t in Split(value, ',') && Matches(t, d) {
      var i :| 0 <= i < |Split(value, ',')| && Split(value, ',')[i] == t;
      var e := TokenStored(value, i);
      CheckMeaning(t, d);
    }
  }

  lemma CoveredIsMatched(value: string, d: Ipv4)
    requires ParseList(value).Some? && value != ""
    ensures Covered(ParseList(value).value, d) ==> exists t :: t in Split(value, ',') && Matches(t, d)
  {
    if e :| e in ParseList(value).value && e.prefix <= 32 && Covers(e.network, e.prefix, d) {
      var i := StoredFromToken(value, e);
      CheckMeaning(Split(value, ',')[i], d);
      assert Split(value, ',')[i] in Split(value, ',');
    }
  }

  lemma EmptyMatchesNothing(d: Ipv4)
    ensures !Matches("", d)
  {
  }
}
