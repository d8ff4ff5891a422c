/** IPv4 addresses, their dotted-quad text, and CIDR blocks. */
module Address {
  import opened Wrappers
  import opened Text

  type Ipv4 = a: nat | a < 0x1_0000_0000 witness 0

  // ---- dotted quads: inet_ntop and inet_pton ----

  /** How many numbers n octets can write. */
  function Range(n: nat): nat {
    if n == 0 then 1 else 0x100 * Range(n - 1)
  }

  /** The n lowest octets, highest first, as text. */
  function OctetTexts(a: nat, n: nat): (parts: seq<string>)
    ensures |parts| == n
  {
    if n == 0 then [] else OctetTexts(a / 0x100, n - 1) + [Decimal(a % 0x100)]
  }

  /** One octet as inet_pton takes it: at most 255, no superfluous leading zero. */
  function ParseOctet(s: string): (r: Option<nat>)
    ensures r.Some? ==> r.value < 0x100
  {
    if s != "" && Digits(s) == |s| && (|s| > 1 ==> s[0] != '0') && 0 <= DigitsValue(s) < 0x100
    then Some(DigitsValue(s)) else None
  }

  /** The number that the octets write. */
  function ParseOctets(parts: seq<string>): (r: Option<nat>)
    ensures r.Some? ==> r.value < Range(|parts|)
  {
    if parts == [] then Some(0)
    else
      match ParseOctets(parts[..|parts| - 1])
      case None => None
      case Some(high) =>
        match ParseOctet(parts[|parts| - 1])
        case None => None
        case Some(low) => Some(0x100 * high + low)
  }

  /** inet_ntop. */
  function PrintQuad(a: Ipv4): string {
    Join(OctetTexts(a, 4), '.')
  }

  lemma FourOctets()
    ensures Range(4) == 0x1_0000_0000
  {
  }

  /** inet_pton. */
  function ParseQuad(s: string): Option<Ipv4> {
    FourOctets();
    var parts := Split(s, '.');
    if |parts| == 4 then ParseOctets(parts) else None
  }

  lemma OctetRoundTrip(n: nat)
    requires n < 0x100
    ensures ParseOctet(Decimal(n)) == Some(n)
    ensures 1 <= |Decimal(n)| <= 3 && AllDigits(Decimal(n))
  {
    DecimalIsDigits(n);
    ValueOfDecimal(n);
    assert PowerOfTen(3) == 1000;
    DecimalLength(n, 3);
  }

  lemma {:induction false} OctetTextsRoundTrip(a: nat, n: nat)
    requires a < Range(n)
    ensures ParseOctets(OctetTexts(a, n)) == Some(a)
  {
    if n > 0 {
      OctetTextsRoundTrip(a / 0x100, n - 1);
      OctetRoundTrip(a % 0x100);
      assert OctetTexts(a, n)[..n - 1] == OctetTexts(a / 0x100, n - 1);
    }
  }

  lemma {:induction false} OctetTextsShape(a: nat, n: nat)
    ensures forall i :: 0 <= i < n ==> 1 <= |OctetTexts(a, n)[i]| <= 3 && AllDigits(OctetTexts(a, n)[i])
  {
    if n > 0 {
      OctetTextsShape(a / 0x100, n - 1);
      OctetRoundTrip(a % 0x100);
    }
  }

  lemma OctetUnique(s: string)
    ensures ParseOctet(s).Some? ==> Decimal(ParseOctet(s).value) == s
  {
    if ParseOctet(s).Some? {
      AllAreDigits(s);
      DecimalOfValue(s);
    }
  }

  lemma {:induction false} OctetTextsUnique(parts: seq<string>)
    requires ParseOctets(parts).Some?
    ensures OctetTexts(ParseOctets(parts).value, |parts|) == parts
  {
    if parts != [] {
      var front, last := parts[..|parts| - 1], parts[|parts| - 1];
      OctetTextsUnique(front);
      OctetUnique(last);
      var high, low := ParseOctets(front).value, ParseOctet(last).value;
      assert (0x100 * high + low) / 0x100 == high && (0x100 * high + low) % 0x100 == low;
      assert front + [last] == parts;
    }
  }

  lemma QuadRoundTrip(a: Ipv4)
    ensures ParseQuad(PrintQuad(a)) == Some(a)
  {
    FourOctets();
    OctetTextsRoundTrip(a, 4);
    OctetTextsShape(a, 4);
    forall i | 0 <= i < 4
      ensures Without(OctetTexts(a, 4)[i], '.')
    {
      DigitsAreNot(OctetTexts(a, 4)[i], '.');
    }
    SplitOfJoin(OctetTexts(a, 4), '.');
  }

  /** inet_pton accepts nothing but what inet_ntop prints. */
  lemma QuadUnique(s: string)
    ensures ParseQuad(s).Some? ==> s == PrintQuad(ParseQuad(s).value)
  {
    if ParseQuad(s).Some? {
      JoinOfSplit(s, '.');
      OctetTextsUnique(Split(s, '.'));
    }
  }

  /** The four octets, from the high one down, in decimal and with dots between them. */
  predicate Dotted(s: string, a: Ipv4) {
    s == Decimal(a / 0x100_0000) + "." + Decimal(a / 0x1_0000 % 0x100)
       + "." + Decimal(a / 0x100 % 0x100) + "." + Decimal(a % 0x100)
  }

  lemma JoinFour(p: string, q: string, r: string, t: string)
    ensures Join([p, q, r, t], '.') == p + "." + q + "." + r + "." + t
  {
    assert [p, q, r, t][1..] == [q, r, t] && [q, r, t][1..] == [r, t] && [r, t][1..] == [t];
    assert Join([r, t], '.') == r + "." + t;
    assert Join([q, r, t], '.') == q + "." + (r + "." + t);
  }

  lemma HighOctets(a: Ipv4)
    ensures a / 0x100 / 0x100 == a / 0x1_0000 && a / 0x1_0000 / 0x100 == a / 0x100_0000 < 0x100
  {
  }

  lemma OneOctetMore(a: nat, n: nat, parts: seq<string>)
    requires OctetTexts(a / 0x100, n) == parts
    ensures OctetTexts(a, n + 1) == parts + [Decimal(a % 0x100)]
  {
  }

  lemma FourOctetTexts(a: nat, b: nat, c: nat, e: nat)
    requires b == a / 0x100 && c == b / 0x100 && e == c / 0x100 && e < 0x100
    ensures OctetTexts(a, 4) == [Decimal(e), Decimal(c % 0x100), Decimal(b % 0x100), Decimal(a % 0x100)]
  {
    assert e % 0x100 == e;
    OneOctetMore(e, 0, []);
    OneOctetMore(c, 1, [Decimal(e)]);
    OneOctetMore(b, 2, [Decimal(e), Decimal(c % 0x100)]);
    OneOctetMore(a, 3, [Decimal(e), Decimal(c % 0x100), Decimal(b % 0x100)]);
  }

  lemma OctetsOf(a: Ipv4)
    ensures OctetTexts(a, 4)
         == [Decimal(a / 0x100_0000), Decimal(a / 0x1_0000 % 0x100), Decimal(a / 0x100 % 0x100), Decimal(a % 0x100)]
  {
    HighOctets(a);
    FourOctetTexts(a, a / 0x100, a / 0x1_0000, a / 0x100_0000);
  }

  lemma PrintIsDotted(a: Ipv4)
    ensures Dotted(PrintQuad(a), a)
  {
    OctetsOf(a);
    JoinFour(Decimal(a / 0x100_0000), Decimal(a / 0x1_0000 % 0x100), Decimal(a / 0x100 % 0x100), Decimal(a % 0x100));
  }

  /** inet_pton accepts exactly the dotted quads, and the first number is the high octet. */
  lemma QuadMeaning(s: string, a: Ipv4)
    ensures ParseQuad(s) == Some(a) <==> Dotted(s, a)
  {
    PrintIsDotted(a);
    QuadRoundTrip(a);
    QuadUnique(s);
  }

  lemma OctetsJoin(a: nat, b: nat, c: nat, e: nat, n: nat)
    requires a < 0x100 && b < 0x100 && c < 0x100 && e < 0x100
    requires n == ((a * 0x100 + b) * 0x100 + c) * 0x100 + e
    ensures n < 0x1_0000_0000
    ensures n / 0x100_0000 == a && n / 0x1_0000 % 0x100 == b && n / 0x100 % 0x100 == c && n % 0x100 == e
  {
    assert n / 0x100 == (a * 0x100 + b) * 0x100 + c;
    assert n / 0x1_0000 == a * 0x100 + b;
  }

  /** Four octets as they are written make the address in network byte order. */
  lemma QuadOfOctets(a: nat, b: nat, c: nat, e: nat, n: Ipv4)
    requires a < 0x100 && b < 0x100 && c < 0x100 && e < 0x100
    requires n == ((a * 0x100 + b) * 0x100 + c) * 0x100 + e
    ensures ParseQuad(Decimal(a) + "." + Decimal(b) + "." + Decimal(c) + "." + Decimal(e)) == Some(n)
  {
    OctetsJoin(a, b, c, e, n);
    QuadMeaning(Decimal(a) + "." + Decimal(b) + "." + Decimal(c) + "." + Decimal(e), n);
  }

  /** Digits, dots and slashes only. */
  predicate AddressText(s: string) {
    forall i :: 0 <= i < |s| ==> IsDigit(s[i]) || s[i] == '.' || s[i] == '/'
  }

  lemma AddressTextConcat(s: string, t: string)
    requires AddressText(s) && AddressText(t)
    ensures AddressText(s + t)
  {
  }

  /** A dotted quad has no slash in it. */
  lemma {:induction false} DottedText(parts: seq<string>)
    requires |parts| >= 1 && forall i :: 0 <= i < |parts| ==> 1 <= |parts[i]| <= 3 && AllDigits(parts[i])
    ensures 2 * |parts| - 1 <= |Join(parts, '.')| <= 4 * |parts| - 1
    ensures AddressText(Join(parts, '.')) && Without(Join(parts, '.'), '/')
  {
    if |parts| > 1 {
      DottedText(parts[1..]);
    }
  }

  /** A quad is 7 to 15 characters, digits and dots only. */
  lemma QuadText(a: Ipv4)
    ensures 7 <= |PrintQuad(a)| <= 15
    ensures AddressText(PrintQuad(a)) && Without(PrintQuad(a), '/')
  {
    OctetTextsShape(a, 4);
    DottedText(OctetTexts(a, 4));
  }

  // ---- CIDR blocks ----

  /** a with its k lowest bits cleared: a & (UINT32_MAX << k). */
  function ClearLow(a: nat, k: nat): (r: nat)
    ensures r <= a
    decreases k
  {
    if k == 0 then a else 2 * ClearLow(a / 2, k - 1)
  }

  function Power(k: nat): (n: nat)
    ensures n > 0
  {
    if k == 0 then 1 else 2 * Power(k - 1)
  }

  /** The address with the host bits of this prefix length cleared. */
  function Network(a: Ipv4, prefix: nat): Ipv4
    requires prefix <= 32
  {
    ClearLow(a, 32 - prefix)
  }

  /** iptables -d network/prefix matches a destination whose masked address is the network. */
  predicate Covers(network: Ipv4, prefix: nat, d: Ipv4)
    requires prefix <= 32
  {
    Network(d, prefix) == network
  }

  /** Two addresses lie in the same block: they agree above their last 32 - `prefix` bits. */
  predicate SameBlock(a: Ipv4, d: Ipv4, prefix: nat)
    requires prefix <= 32
  {
    a / Power(32 - prefix) == d / Power(32 - prefix)
  }

  lemma HalfThenDivide(a: nat, p: nat)
    requires p > 0
    ensures a / 2 / p == a / (2 * p)
  {
    var q := a / 2 / p;
    assert q * p <= a / 2 < (q + 1) * p;
    assert q * (2 * p) <= a < (q + 1) * (2 * p);
    QuotientIs(a, 2 * p, q);
  }

  /** Clearing the low bits leaves the multiple of the power below. */
  lemma {:induction false} ClearLowIs(a: nat, k: nat)
    ensures ClearLow(a, k) == a / Power(k) * Power(k)
    decreases k
  {
    if k > 0 {
      ClearLowIs(a / 2, k - 1);
      HalfThenDivide(a, Power(k - 1));
    }
  }

  lemma {:induction false} ClearLowTwice(a: nat, k: nat)
    ensures ClearLow(ClearLow(a, k), k) == ClearLow(a, k)
    decreases k
  {
    if k > 0 {
      ClearLowTwice(a / 2, k - 1);
      assert ClearLow(a, k) / 2 == ClearLow(a / 2, k - 1);
    }
  }

  lemma SameMultiple(q: nat, r: nat, p: nat)
    requires p > 0
    ensures q * p == r * p <==> q == r
  {
  }

  /** Masking and comparing tests exactly whether two addresses share a block. */
  lemma CoversIsSameBlock(a: Ipv4, d: Ipv4, prefix: nat)
    requires prefix <= 32
    ensures Covers(Network(a, prefix), prefix, d) <==> SameBlock(a, d, prefix)
  {
    ClearLowIs(a, 32 - prefix);
    ClearLowIs(d, 32 - prefix);
    SameMultiple(a / Power(32 - prefix), d / Power(32 - prefix), Power(32 - prefix));
  }

  lemma NetworkIdempotent(a: Ipv4, prefix: nat)
    requires prefix <= 32
    ensures Network(Network(a, prefix), prefix) == Network(a, prefix)
  {
    ClearLowTwice(a, 32 - prefix);
  }
}
