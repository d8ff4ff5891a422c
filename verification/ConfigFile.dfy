/** The configuration file of src/config.c: what is printed and what is read back. */
module ConfigFile {
  import opened Wrappers
  import opened Text
  import opened Address
  import opened BypassLanguage

  const LINE_SIZE: nat := 128

  datatype Conf = Conf(addr: Ipv4, port: nat, bypass: seq<Bypass>)

  /** Every configuration that the parsers produce. */
  predicate ValidConf(c: Conf) {
    1 <= c.port <= 65535 && ListOk(c.bypass)
  }

  datatype Endpoint = Endpoint(addr: Ipv4, port: nat)

  /** The tests on the number and then on the address. */
  function ParseEndpoint(address: string, number: string): (r: Option<Endpoint>)
    ensures r.Some? ==> 1 <= r.value.port <= 65535
  {
    var n := Strtol(number);
    if n.used < |number| || n.value < 1 || n.value > 65535 then None
    else
      match ParseQuad(address)
      case None => None
      case Some(a) => Some(Endpoint(a, n.value))
  }

  /** fp_parse_proxy. */
  function ParseProxy(value: string): (r: Option<Endpoint>)
    ensures r.Some? ==> 1 <= r.value.port <= 65535
  {
    match FindLast(value, ':')
    case None => None
    case Some(separator) =>
      if separator == 0 || separator >= ADDRESS_SIZE then None
      else ParseEndpoint(value[..separator], value[separator + 1..])
  }

  // ---- printing ----

  function ProxyLine(c: Conf): string {
    "proxy=" + PrintQuad(c.addr) + ":" + Decimal(c.port)
  }

  function BypassLine(e: Bypass): string {
    "bypass=" + e.text
  }

  function BypassLines(es: seq<Bypass>): string {
    if es == [] then "" else BypassLine(es[0]) + "\n" + BypassLines(es[1..])
  }

  /** The file that fp_config_save writes. */
  function SaveText(c: Conf): string {
    ProxyLine(c) + "\n" + BypassLines(c.bypass)
  }

  // ---- reading ----

  /** The loop state of fp_config_load. */
  datatype Loading = Loading(conf: Conf, result: int, invalid: bool)

  /** fgets: up to 127 characters, through the first newline. */
  function Chunk(rest: string): (n: nat)
    requires rest != ""
    ensures 1 <= n <= |rest| && n < LINE_SIZE
  {
    var newline := Find(rest, '\n');
    var n := if newline < |rest| then newline + 1 else |rest|;
    if n < LINE_SIZE then n else LINE_SIZE - 1
  }

  /** The line up to its first carriage return, newline or NUL. */
  function Content(line: string): string {
    if line == "" || line[0] == '\r' || line[0] == '\n' || line[0] == '\0' then "" else [line[0]] + Content(line[1..])
  }

  function LoadLine(l: Loading, line: string): Loading {
    if "proxy=" <= line then
      match ParseProxy(line[6..])
      case None => l.(result := -1, invalid := true)
      case Some(p) => l.(conf := l.conf.(addr := p.addr, port := p.port), result := 0)
    else if "bypass=" <= line then
      match Append(l.conf.bypass, Check(line[7..]))
      case None => l.(invalid := true)
      case Some(es) => l.(conf := l.conf.(bypass := es))
    else l
  }

  function LoadFrom(l: Loading, rest: string): Loading
    decreases |rest|
  {
    if rest == "" then l
    else
      var n := Chunk(rest);
      LoadFrom(LoadLine(l, Content(rest[..n])), rest[n..])
  }

  const START := Loading(Conf(0, 0, []), -1, false)

  /** fp_config_load on a readable file. */
  function LoadText(file: string): Option<Conf> {
    var l := LoadFrom(START, file);
    if l.result == 0 && !l.invalid then Some(l.conf) else None
  }

  // ---- whatever is loaded is valid ----

  predicate LoadingOk(l: Loading) {
    ListOk(l.conf.bypass) && (l.result == 0 ==> 1 <= l.conf.port <= 65535)
  }

  lemma LoadLineOk(l: Loading, line: string)
    requires LoadingOk(l)
    ensures LoadingOk(LoadLine(l, line))
  {
    if !("proxy=" <= line) && "bypass=" <= line {
      CheckIsCanonical(line[7..]);
      if Check(line[7..]).Some? {
        InsertIs(l.conf.bypass, Check(line[7..]).value);
      }
    }
  }

  lemma {:induction false} LoadFromOk(l: Loading, rest: string)
    requires LoadingOk(l)
    ensures LoadingOk(LoadFrom(l, rest))
    decreases |rest|
  {
    if rest != "" {
      var n := Chunk(rest);
      LoadLineOk(l, Content(rest[..n]));
      LoadFromOk(LoadLine(l, Content(rest[..n])), rest[n..]);
    }
  }

  lemma LoadedIsValid(file: string)
    ensures LoadText(file).Some? ==> ValidConf(LoadText(file).value)
  {
    LoadFromOk(START, file);
  }

  // ---- canonical text parses back ----

  lemma TrimKeeps(s: string)
    requires s != "" && !Blank(s[0]) && !Blank(s[|s| - 1])
    ensures Trim(s) == s
  {
  }

  /** Text of an entry: 7 to 18 characters, none of which is a blank, a comma or a line end. */
  lemma RenderText(network: Ipv4, prefix: nat)
    requires prefix <= 32
    ensures 7 <= |Render(network, prefix)| <= 18 && AddressText(Render(network, prefix))
  {
    QuadText(network);
    assert PowerOfTen(2) == 100 by { assert PowerOfTen(1) == 10; }
    DecimalLength(prefix, 2);
    DecimalIsDigits(prefix);
    AddressTextConcat(PrintQuad(network), "/");
    AddressTextConcat(PrintQuad(network) + "/", Decimal(prefix));
  }

  lemma RenderParses(network: Ipv4, prefix: nat)
    requires prefix <= 32
    ensures EntryOf(Render(network, prefix)) == Some(Entry(network, prefix))
  {
    if prefix == 32 {
      AddressParses(network);
    } else {
      StrtolOfDecimal(prefix);
      DecimalIsDigits(prefix);
      BlockParses(network, Decimal(prefix), prefix);
    }
  }

  lemma AddressTextChecks(s: string)
    requires AddressText(s) && 7 <= |s| <= 18
    ensures Trim(s) == s && Check(s) == EntryOf(s)
  {
  }

  lemma CanonicalText(e: Bypass)
    requires Canonical(e)
    ensures 7 <= |e.text| <= 18 && AddressText(e.text)
  {
    RenderText(e.network, e.prefix);
  }

  /** The text of a canonical entry is read back as that entry. */
  lemma CanonicalChecks(e: Bypass)
    requires Canonical(e)
    ensures Check(e.text) == Some(e)
  {
    RenderText(e.network, e.prefix);
    AddressTextChecks(e.text);
    RenderParses(e.network, e.prefix);
  }

  lemma EndpointRoundTrip(addr: Ipv4, port: nat)
    requires 1 <= port <= 65535
    ensures ParseEndpoint(PrintQuad(addr), Decimal(port)) == Some(Endpoint(addr, port))
  {
    QuadRoundTrip(addr);
    StrtolOfDecimal(port);
  }

  lemma ProxyParts(quad: string, number: string)
    requires 1 <= |quad| < ADDRESS_SIZE && AllDigits(number)
    ensures ParseProxy(quad + ":" + number) == ParseEndpoint(quad, number)
  {
    DigitsAreNot(number, ':');
    FindLastAfter(quad, ':', number);
  }

  lemma ProxyRoundTrip(addr: Ipv4, port: nat)
    requires 1 <= port <= 65535
    ensures ParseProxy(PrintQuad(addr) + ":" + Decimal(port)) == Some(Endpoint(addr, port))
  {
    QuadText(addr);
    DecimalIsDigits(port);
    ProxyParts(PrintQuad(addr), Decimal(port));
    EndpointRoundTrip(addr, port);
  }

  // ---- which endpoints are accepted ----

  /** An address, a colon and a number that is a port. */
  ghost predicate IsEndpoint(value: string, p: Endpoint, address: string, number: string) {
    && value == address + ":" + number && Dotted(address, p.addr)
    && IsNumber(number, p.port) && 1 <= p.port <= 65535
  }

  lemma NumberHasNoColon(t: string, n: int)
    requires IsNumber(t, n)
    ensures Without(t, ':')
  {
    var i: nat, k: nat :| NumberAt(t, n, i, k);
  }

  lemma PartsParse(address: string, number: string, p: Endpoint)
    requires Dotted(address, p.addr) && IsNumber(number, p.port) && 1 <= p.port <= 65535
    ensures ParseEndpoint(address, number) == Some(p)
  {
    QuadMeaning(address, p.addr);
    StrtolMeaning(number, p.port);
  }

  lemma EndpointParses(value: string, p: Endpoint, address: string, number: string)
    requires IsEndpoint(value, p, address, number)
    ensures ParseProxy(value) == Some(p)
  {
    PrintIsDotted(p.addr);
    QuadText(p.addr);
    NumberHasNoColon(number, p.port);
    FindLastAfter(address, ':', number);
    PartsParse(address, number, p);
  }

  lemma PartsParsed(address: string, number: string, p: Endpoint)
    requires ParseEndpoint(address, number) == Some(p)
    ensures Dotted(address, p.addr) && IsNumber(number, p.port) && 1 <= p.port <= 65535
  {
    QuadMeaning(address, p.addr);
    StrtolMeaning(number, p.port);
  }

  lemma ParsedIsEndpoint(value: string, p: Endpoint) returns (address: string, number: string)
    requires ParseProxy(value) == Some(p)
    ensures IsEndpoint(value, p, address, number)
  {
    var k := FindLast(value, ':').value;
    AroundIndex(value, k);
    address, number := value[..k], value[k + 1..];
    PartsParsed(address, number, p);
  }

  /** fp_parse_proxy accepts exactly the texts that write an address and a port. */
  lemma EndpointMeaning(value: string, p: Endpoint)
    ensures ParseProxy(value) == Some(p) <==> exists address, number :: IsEndpoint(value, p, address, number)
  {
    if ParseProxy(value) == Some(p) {
      var address, number := ParsedIsEndpoint(value, p);
    }
    if address, number :| IsEndpoint(value, p, address, number) {
      EndpointParses(value, p, address, number);
    }
  }

  // ---- which files are accepted ----

  /** What the loop of fp_config_load looks at, one after the other. */
  function Pieces(rest: string): seq<string>
    decreases |rest|
  {
    if rest == "" then [] else [Content(rest[..Chunk(rest)])] + Pieces(rest[Chunk(rest)..])
  }

  /** fgets stops behind the first newline, at 127 characters, or at the end. */
  lemma ChunkMeaning(rest: string)
    requires rest != ""
    ensures var n := Chunk(rest);
      n <= 127 && Without(rest[..n - 1], '\n') && (rest[n - 1] == '\n' || n == 127 || n == |rest|)
  {
    NoneBefore(rest, '\n');
    var n, k := Chunk(rest), Find(rest, '\n');
    assert forall i :: 0 <= i < n - 1 ==> rest[..k][i] == rest[i];
  }

  predicate EndsLine(c: char) {
    c == '\r' || c == '\n' || c == '\0'
  }

  lemma {:induction false} ContentMeaning(line: string)
    ensures Content(line) <= line
    ensures forall i :: 0 <= i < |Content(line)| ==> !EndsLine(Content(line)[i])
    ensures |Content(line)| < |line| ==> EndsLine(line[|Content(line)|])
  {
    if line != "" && !EndsLine(line[0]) {
      ContentMeaning(line[1..]);
    }
  }

  /** What follows the tag on the lines that begin with it, in order. */
  function Tagged(lines: seq<string>, tag: string): seq<string> {
    if lines == [] then []
    else
      var line := lines[|lines| - 1];
      Tagged(lines[..|lines| - 1], tag) + (if tag <= line then [line[|tag|..]] else [])
  }

  function LoadPieces(pieces: seq<string>): Loading {
    if pieces == [] then START else LoadLine(LoadPieces(pieces[..|pieces| - 1]), pieces[|pieces| - 1])
  }

  lemma OnePieceMore(done: seq<string>, line: string)
    ensures LoadPieces(done + [line]) == LoadLine(LoadPieces(done), line)
  {
    assert (done + [line])[..|done|] == done;
  }

  lemma PiecesJoin(done: seq<string>, line: string, later: seq<string>)
    ensures (done + [line]) + later == done + ([line] + later)
  {
  }

  lemma {:induction false} LoadsPieces(done: seq<string>, rest: string)
    ensures LoadFrom(LoadPieces(done), rest) == LoadPieces(done + Pieces(rest))
    decreases |rest|
  {
    if rest == "" {
      assert done + [] == done;
    } else {
      var line, later := Content(rest[..Chunk(rest)]), rest[Chunk(rest)..];
      OnePieceMore(done, line);
      LoadsPieces(done + [line], later);
      PiecesJoin(done, line, Pieces(later));
    }
  }

  predicate AllEndpoints(texts: seq<string>) {
    forall i :: 0 <= i < |texts| ==> ParseProxy(texts[i]).Some?
  }

  /** The last of the proxies, and the entries of the bypass texts. */
  predicate Holds(l: Loading, proxies: seq<string>, texts: seq<string>) {
    && AppendAll([], Checks(texts)) == Some(l.conf.bypass)
    && l.result == (if proxies == [] then -1 else 0)
    && (proxies != [] ==> ParseProxy(proxies[|proxies| - 1]) == Some(Endpoint(l.conf.addr, l.conf.port)))
  }

  /** Where the loop stands after some lines: it has met a bad one, or it holds what the lines say. */
  predicate LoadedSo(l: Loading, proxies: seq<string>, texts: seq<string>) {
    if AllEndpoints(proxies) && AppendAll([], Checks(texts)).Some? then !l.invalid && Holds(l, proxies, texts)
    else l.invalid
  }

  lemma ProxyLineLoads(l: Loading, proxies: seq<string>, texts: seq<string>, line: string)
    requires LoadedSo(l, proxies, texts) && "proxy=" <= line
    ensures LoadedSo(LoadLine(l, line), proxies + [line[6..]], texts)
  {
    var more := proxies + [line[6..]];
    assert AllEndpoints(more) <==> AllEndpoints(proxies) && ParseProxy(line[6..]).Some? by {
      assert forall i :: 0 <= i < |proxies| ==> more[i] == proxies[i];
      assert more[|proxies|] == line[6..];
    }
  }

  lemma BypassLineLoads(l: Loading, proxies: seq<string>, texts: seq<string>, line: string)
    requires LoadedSo(l, proxies, texts) && "bypass=" <= line && !("proxy=" <= line)
    ensures LoadedSo(LoadLine(l, line), proxies, texts + [line[7..]])
  {
    assert Checks(texts + [line[7..]]) == Checks(texts) + [Check(line[7..])];
    AppendAllSnoc([], Checks(texts), Check(line[7..]));
  }

  function OneMoreTagged(texts: seq<string>, line: string, tag: string): seq<string> {
    if tag <= line then texts + [line[|tag|..]] else texts
  }

  lemma TaggedMore(lines: seq<string>, tag: string)
    requires lines != []
    ensures Tagged(lines, tag) == OneMoreTagged(Tagged(lines[..|lines| - 1], tag), lines[|lines| - 1], tag)
  {
    assert Tagged(lines[..|lines| - 1], tag) + [] == Tagged(lines[..|lines| - 1], tag);
  }

  lemma TagSizes(proxies: seq<string>, texts: seq<string>, line: string)
    ensures OneMoreTagged(proxies, line, "proxy=") == if "proxy=" <= line then proxies + [line[6..]] else proxies
    ensures OneMoreTagged(texts, line, "bypass=") == if "bypass=" <= line then texts + [line[7..]] else texts
  {
  }

  lemma OtherLineLoads(l: Loading, line: string)
    requires !("proxy=" <= line) && !("bypass=" <= line)
    ensures LoadLine(l, line) == l
  {
  }

  lemma LineLoads(l: Loading, proxies: seq<string>, texts: seq<string>, line: string)
    requires LoadedSo(l, proxies, texts)
    ensures LoadedSo(LoadLine(l, line), OneMoreTagged(proxies, line, "proxy="), OneMoreTagged(texts, line, "bypass="))
  {
    OneTagOnly(line);
    TagSizes(proxies, texts, line);
    if "proxy=" <= line {
      ProxyLineLoads(l, proxies, texts, line);
    } else if "bypass=" <= line {
      BypassLineLoads(l, proxies, texts, line);
    } else {
      OtherLineLoads(l, line);
    }
  }

  lemma {:induction false} LoadedSoFar(lines: seq<string>)
    ensures LoadedSo(LoadPieces(lines), Tagged(lines, "proxy="), Tagged(lines, "bypass="))
  {
    if lines != [] {
      var front, line := lines[..|lines| - 1], lines[|lines| - 1];
      LoadedSoFar(front);
      TaggedMore(lines, "proxy=");
      TaggedMore(lines, "bypass=");
      LineLoads(LoadPieces(front), Tagged(front, "proxy="), Tagged(front, "bypass="), line);
    }
  }

  lemma OneTagOnly(line: string)
    ensures !("proxy=" <= line && "bypass=" <= line)
  {
    assert "proxy="[0] != "bypass="[0];
  }

  /** fp_config_load accepts exactly the files with a proxy line in which every proxy line writes an
      endpoint and every bypass line is taken; the last proxy line counts, the bypass entries are
      those of the bypass lines at their first occurrence, and other lines are ignored. */
  lemma LoadMeaning(file: string)
    ensures var proxies, checks := Tagged(Pieces(file), "proxy="), Checks(Tagged(Pieces(file), "bypass="));
      && (LoadText(file).Some? <==> proxies != [] && AllEndpoints(proxies) && AllTaken(checks))
      && (LoadText(file).Some? ==>
            var p := ParseProxy(proxies[|proxies| - 1]).value;
            AllSome(checks) && LoadText(file).value == Conf(p.addr, p.port, FirstOccurrences(Values(checks))))
  {
    var pieces := Pieces(file);
    LoadsPieces([], file);
    assert [] + pieces == pieces;
    LoadedSoFar(pieces);
    ChecksAreCanonical(Tagged(pieces, "bypass="));
    AppendAllIs(Checks(Tagged(pieces, "bypass=")));
  }

  // ---- the round trip ----

  predicate PlainLine(line: string) {
    |line| + 1 < LINE_SIZE && Without(line, '\r') && Without(line, '\n') && Without(line, '\0')
  }

  lemma {:induction false} ContentOfPlain(line: string)
    requires Without(line, '\r') && Without(line, '\n') && Without(line, '\0')
    ensures Content(line + "\n") == line
  {
    if line != "" {
      assert (line + "\n")[1..] == line[1..] + "\n";
      ContentOfPlain(line[1..]);
    }
  }

  /** A printed line that fits the line buffer is read in one piece. */
  lemma ReadsLine(l: Loading, line: string, rest: string)
    requires PlainLine(line)
    ensures LoadFrom(l, line + "\n" + rest) == LoadFrom(LoadLine(l, line), rest)
  {
    var s := line + "\n" + rest;
    FindAfter(line, '\n', rest);
    assert s[..|line| + 1] == line + "\n";
    ContentOfPlain(line);
  }

  lemma PlainConcat(head: string, tail: string)
    requires PlainLine(head) && PlainLine(tail) && |head| + |tail| + 1 < LINE_SIZE
    ensures PlainLine(head + tail)
  {
  }

  lemma AddressTextIsPlain(s: string)
    requires AddressText(s) && |s| <= 18
    ensures PlainLine(s)
  {
  }

  lemma ProxyLineFits(c: Conf)
    requires c.port <= 65535
    ensures PlainLine(ProxyLine(c))
  {
    QuadText(c.addr);
    assert PowerOfTen(5) == 100000 by { assert PowerOfTen(3) == 1000; }
    DecimalLength(c.port, 5);
    DecimalIsDigits(c.port);
    AddressTextIsPlain(PrintQuad(c.addr));
    AddressTextIsPlain(Decimal(c.port));
    PlainConcat("proxy=", PrintQuad(c.addr));
    PlainConcat("proxy=" + PrintQuad(c.addr), ":");
    PlainConcat("proxy=" + PrintQuad(c.addr) + ":", Decimal(c.port));
  }

  lemma TextLineFits(text: string)
    requires AddressText(text) && |text| <= 18
    ensures PlainLine("bypass=" + text)
  {
  }

  lemma BypassLineFits(e: Bypass)
    requires Canonical(e)
    ensures PlainLine(BypassLine(e))
  {
    CanonicalText(e);
    TextLineFits(e.text);
  }

  /** No printed line overruns the line buffer of the reader. */
  lemma PrintedLinesFit(c: Conf)
    requires ValidConf(c)
    ensures PlainLine(ProxyLine(c))
    ensures forall i :: 0 <= i < |c.bypass| ==> PlainLine(BypassLine(c.bypass[i]))
  {
    ProxyLineFits(c);
    forall i | 0 <= i < |c.bypass|
      ensures PlainLine(BypassLine(c.bypass[i]))
    {
      BypassLineFits(c.bypass[i]);
    }
  }

  lemma LoadsText(l: Loading, text: string)
    ensures LoadLine(l, "bypass=" + text) ==
      match Append(l.conf.bypass, Check(text))
      case None => l.(invalid := true)
      case Some(es) => l.(conf := l.conf.(bypass := es))
  {
    var line := "bypass=" + text;
    assert line[0] == 'b' && "proxy="[0] == 'p';
    assert line[7..] == text && line[..7] == "bypass=";
  }

  lemma LoadsBypassLine(l: Loading, e: Bypass)
    requires Canonical(e) && ListOk(l.conf.bypass) && |l.conf.bypass| < MAX_BYPASS && e !in l.conf.bypass
    ensures LoadLine(l, BypassLine(e)) == l.(conf := l.conf.(bypass := l.conf.bypass + [e]))
  {
    LoadsText(l, e.text);
    CanonicalChecks(e);
    InsertIs(l.conf.bypass, e);
  }

  /** The parts of a valid list. */
  lemma ListParts(done: seq<Bypass>, e: Bypass, es: seq<Bypass>)
    requires ListOk(done + [e] + es)
    ensures ListOk(done) && Canonical(e) && e !in done && |done| < MAX_BYPASS
  {
    var all := done + [e] + es;
    assert e == all[|done|];
    forall i | 0 <= i < |done|
      ensures done[i] == all[i] && Canonical(done[i]) && done[i] != e
    {
    }
  }

  lemma {:induction false} LoadsBypassLines(l: Loading, done: seq<Bypass>, es: seq<Bypass>)
    requires ListOk(done + es) && l.conf.bypass == done
    ensures LoadFrom(l, BypassLines(es)) == l.(conf := l.conf.(bypass := done + es))
    decreases |es|
  {
    if es == [] {
      assert done + es == done;
    } else {
      assert done + es == done + [es[0]] + es[1..];
      ListParts(done, es[0], es[1..]);
      BypassLineFits(es[0]);
      ReadsLine(l, BypassLine(es[0]), BypassLines(es[1..]));
      LoadsBypassLine(l, es[0]);
      LoadsBypassLines(LoadLine(l, BypassLine(es[0])), done + [es[0]], es[1..]);
    }
  }

  function TaggedTexts(es: seq<Bypass>): seq<string> {
    seq(|es|, i requires 0 <= i < |es| => "bypass=" + es[i].text)
  }

  lemma FirstTagged(es: seq<Bypass>)
    requires es != []
    ensures TaggedTexts(es) == [BypassLine(es[0])] + TaggedTexts(es[1..])
  {
  }

  lemma {:induction false} PiecesOfBypassLines(es: seq<Bypass>)
    requires forall i :: 0 <= i < |es| ==> Canonical(es[i])
    ensures Pieces(BypassLines(es)) == TaggedTexts(es)
  {
    if es != [] {
      BypassLineFits(es[0]);
      PieceOfLine(BypassLine(es[0]), BypassLines(es[1..]));
      FirstTagged(es);
      PiecesOfBypassLines(es[1..]);
    }
  }

  lemma PieceOfLine(line: string, rest: string)
    requires PlainLine(line)
    ensures Pieces(line + "\n" + rest) == [line] + Pieces(rest)
  {
    var s := line + "\n" + rest;
    FindAfter(line, '\n', rest);
    assert s[..|line| + 1] == line + "\n";
    ContentOfPlain(line);
  }

  /** What fp_config_save prints, line by line. */
  lemma SavedLines(c: Conf)
    requires ValidConf(c)
    ensures Pieces(SaveText(c)) ==
      ["proxy=" + PrintQuad(c.addr) + ":" + Decimal(c.port)] + TaggedTexts(c.bypass)
    ensures Dotted(PrintQuad(c.addr), c.addr)
  {
    ProxyLineFits(c);
    PieceOfLine(ProxyLine(c), BypassLines(c.bypass));
    PiecesOfBypassLines(c.bypass);
    PrintIsDotted(c.addr);
  }

  lemma LoadsProxyLine(c: Conf)
    requires 1 <= c.port <= 65535
    ensures LoadLine(START, ProxyLine(c)) == Loading(Conf(c.addr, c.port, []), 0, false)
  {
    var line := ProxyLine(c);
    assert line[..6] == "proxy=" && line[6..] == PrintQuad(c.addr) + ":" + Decimal(c.port);
    ProxyRoundTrip(c.addr, c.port);
  }

  /** fp_config_load after fp_config_save returns the configuration unchanged: the
      address, the port, and the entries with their order and text. */
  lemma SaveLoadRoundTrip(c: Conf)
    requires ValidConf(c)
    ensures LoadText(SaveText(c)) == Some(c)
  {
    ProxyLineFits(c);
    ReadsLine(START, ProxyLine(c), BypassLines(c.bypass));
    LoadsProxyLine(c);
    assert [] + c.bypass == c.bypass;
    LoadsBypassLines(LoadLine(START, ProxyLine(c)), [], c.bypass);
  }
}
