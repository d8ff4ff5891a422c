/** The C string functions that the configuration code relies on.  A string is
    the characters before the terminating NUL. */
module Text {
  import opened Wrappers

  // ---- searching, splitting, joining ----

  /** strchr: the first index of `c`, or the length when `c` does not occur. */
  function Find(s: string, c: char): (k: nat)
    ensures k <= |s| && (k < |s| ==> s[k] == c)
  {
    if s == "" then 0 else if s[0] == c then 0 else Find(s[1..], c) + 1
  }

  /** strrchr: the last index of `c`. */
  function FindLast(s: string, c: char): (r: Option<nat>)
    ensures r.Some? ==> r.value < |s| && s[r.value] == c
  {
    if s == "" then None
    else if s[|s| - 1] == c then Some(|s| - 1)
    else FindLast(s[..|s| - 1], c)
  }

  /** `c` does not occur. */
  predicate Without(s: string, c: char) {
    forall i :: 0 <= i < |s| ==> s[i] != c
  }

  lemma {:induction false} FindAbsent(s: string, c: char)
    requires Without(s, c)
    ensures Find(s, c) == |s|
  {
  }

  /** In `head`, `c`, `tail` the first occurrence is the one between them. */
  lemma {:induction false} FindAfter(head: string, c: char, tail: string)
    requires Without(head, c)
    ensures Find(head + [c] + tail, c) == |head|
    ensures (head + [c] + tail)[..|head|] == head && (head + [c] + tail)[|head| + 1..] == tail
  {
    if head != "" {
      assert (head + [c] + tail)[1..] == head[1..] + [c] + tail;
      FindAfter(head[1..], c, tail);
    }
  }

  lemma {:induction false} FindLastAfter(head: string, c: char, tail: string)
    requires Without(tail, c)
    ensures FindLast(head + [c] + tail, c) == Some(|head|)
    ensures (head + [c] + tail)[..|head|] == head && (head + [c] + tail)[|head| + 1..] == tail
  {
    var n := |tail| - 1;
    if tail != "" {
      assert (head + [c] + tail)[..|head| + 1 + n] == head + [c] + tail[..n];
      FindLastAfter(head, c, tail[..n]);
    }
  }

  /** Taking one more element. */
  lemma TakeOneMore<T>(s: seq<T>, k: nat)
    requires k < |s|
    ensures s[..k + 1] == s[..k] + [s[k]]
  {
  }

  lemma SliceOneMore(s: string, i: nat, j: nat)
    requires i <= j < |s|
    ensures s[i..j + 1] == s[i..j] + [s[j]]
  {
  }

  lemma SliceToEnd(s: string, i: nat)
    requires i <= |s|
    ensures s[i..|s|] == s[i..]
  {
  }

  lemma CutAt(s: string, i: nat, j: nat)
    requires i <= j < |s|
    ensures s[i..] == s[i..j] + [s[j]] + s[j + 1..]
  {
  }

  function Split(s: string, c: char): (r: seq<string>)
    ensures |r| >= 1
    decreases |s|
  {
    var k := Find(s, c);
    if k == |s| then [s] else [s[..k]] + Split(s[k + 1..], c)
  }

  function Join(parts: seq<string>, c: char): string
    requires |parts| >= 1
  {
    if |parts| == 1 then parts[0] else parts[0] + [c] + Join(parts[1..], c)
  }

  lemma SplitAfter(head: string, c: char, tail: string)
    requires Without(head, c)
    ensures Split(head + [c] + tail, c) == [head] + Split(tail, c)
  {
    FindAfter(head, c, tail);
  }

  lemma {:induction false} SplitOfJoin(parts: seq<string>, c: char)
    requires |parts| >= 1 && forall i :: 0 <= i < |parts| ==> Without(parts[i], c)
    ensures Split(Join(parts, c), c) == parts
  {
    if |parts| == 1 {
      FindAbsent(parts[0], c);
    } else {
      var rest := parts[1..];
      SplitOfJoin(rest, c);
      assert Join(parts, c) == parts[0] + [c] + Join(rest, c);
      SplitAfter(parts[0], c, Join(rest, c));
      assert parts == [parts[0]] + rest;
    }
  }

  lemma JoinCons(head: string, parts: seq<string>, c: char)
    requires |parts| >= 1
    ensures Join([head] + parts, c) == head + [c] + Join(parts, c)
  {
  }

  lemma AroundIndex(s: string, k: nat)
    requires k < |s|
    ensures s[..k] + [s[k]] + s[k + 1..] == s
  {
  }

  lemma {:induction false} JoinOfSplit(s: string, c: char)
    ensures Join(Split(s, c), c) == s
    decreases |s|
  {
    var k := Find(s, c);
    if k < |s| {
      JoinOfSplit(s[k + 1..], c);
      JoinCons(s[..k], Split(s[k + 1..], c), c);
      AroundIndex(s, k);
    }
  }

  // ---- decimal numbers ----

  predicate IsDigit(c: char) {
    '0' <= c <= '9'
  }

  predicate AllDigits(s: string) {
    forall i :: 0 <= i < |s| ==> IsDigit(s[i])
  }

  lemma DigitsAreNot(s: string, c: char)
    requires AllDigits(s) && !IsDigit(c)
    ensures Without(s, c)
  {
  }

  function Digit(n: nat): (c: char)
    requires n < 10
    ensures IsDigit(c)
  {
    ('0' as int + n) as char
  }

  function DigitValue(c: char): int {
    c as int - '0' as int
  }

  /** printf's %u and %ld of a non-negative number. */
  function Decimal(n: nat): string {
    if n < 10 then [Digit(n)] else Decimal(n / 10) + [Digit(n % 10)]
  }

  /** The value of a string of digits. */
  function DigitsValue(s: string): int {
    if s == "" then 0 else 10 * DigitsValue(s[..|s| - 1]) + DigitValue(s[|s| - 1])
  }

  /** The number of digits at the front. */
  function Digits(s: string): (k: nat)
    ensures k <= |s|
  {
    if s == "" || !IsDigit(s[0]) then 0 else Digits(s[1..]) + 1
  }

  lemma {:induction false} AllAreDigits(s: string)
    ensures Digits(s) == |s| <==> AllDigits(s)
  {
    if s != "" {
      AllAreDigits(s[1..]);
      assert AllDigits(s) <==> IsDigit(s[0]) && AllDigits(s[1..]) by {
        assert forall i :: 1 <= i < |s| ==> s[i] == s[1..][i - 1];
      }
    }
  }

  lemma {:induction false} DecimalIsDigits(n: nat)
    ensures |Decimal(n)| >= 1 && AllDigits(Decimal(n)) && Digits(Decimal(n)) == |Decimal(n)|
    ensures (n == 0) == (Decimal(n)[0] == '0')
  {
    if n >= 10 {
      DecimalIsDigits(n / 10);
    }
    AllAreDigits(Decimal(n));
  }

  lemma {:induction false} ValueOfDecimal(n: nat)
    ensures DigitsValue(Decimal(n)) == n
  {
    if n < 10 {
      assert Decimal(n)[..0] == "";
    } else {
      ValueOfDecimal(n / 10);
      assert Decimal(n)[..|Decimal(n)| - 1] == Decimal(n / 10);
    }
  }

  /** A digit string without a leading zero is the decimal form of its value. */
  lemma {:induction false} DecimalOfValue(s: string)
    requires s != "" && AllDigits(s) && (|s| > 1 ==> s[0] != '0')
    ensures DigitsValue(s) >= 0 && Decimal(DigitsValue(s)) == s
    ensures |s| > 1 ==> DigitsValue(s) >= 10
    ensures s[0] != '0' ==> DigitsValue(s) >= 1
  {
    var front, last := s[..|s| - 1], s[|s| - 1];
    assert s == front + [last] && IsDigit(last);
    if |s| == 1 {
      assert front == "";
    } else {
      DecimalOfValue(front);
    }
  }

  function PowerOfTen(k: nat): (p: nat)
    ensures p > 0
  {
    if k == 0 then 1 else 10 * PowerOfTen(k - 1)
  }

  lemma {:induction false} DecimalLength(n: nat, k: nat)
    requires 1 <= k && n < PowerOfTen(k)
    ensures |Decimal(n)| <= k
  {
    if n >= 10 {
      DecimalLength(n / 10, k - 1);
    }
  }

  // ---- strtol ----

  predicate IsSpace(c: char) {
    c == ' ' || c == '\t' || c == '\n' || c == '\r' || c as int == 11 || c as int == 12
  }

  function Spaces(s: string): (k: nat)
    ensures k <= |s|
  {
    if s == "" || !IsSpace(s[0]) then 0 else Spaces(s[1..]) + 1
  }

  /** strtol in base ten: the value and how many characters it used.  A number too
      large for a long is left unbounded; every caller rejects it by its range test. */
  datatype Scan = Scan(value: int, used: nat)

  function Strtol(s: string): (r: Scan)
    ensures r.used <= |s|
  {
    var blanks := Spaces(s);
    var sign := if blanks < |s| && (s[blanks] == '-' || s[blanks] == '+') then 1 else 0;
    var count := Digits(s[blanks + sign..]);
    if count == 0 then Scan(0, 0)
    else
      var value := DigitsValue(s[blanks + sign..][..count]);
      Scan(if sign == 1 && s[blanks] == '-' then -value else value, blanks + sign + count)
  }

  lemma StrtolOfDecimal(n: nat)
    ensures Strtol(Decimal(n)) == Scan(n, |Decimal(n)|)
  {
    var s := Decimal(n);
    DecimalIsDigits(n);
    ValueOfDecimal(n);
    assert IsDigit(s[0]) && Spaces(s) == 0;
    assert s[0..] == s && s[..|s|] == s;
  }

  // ---- what the numbers mean, place by place ----

  /** Dividing by ten and then by p. */
  lemma TenthThenDivide(n: nat, p: nat)
    requires p > 0
    ensures n / 10 / p == n / (10 * p)
  {
    var q := n / 10 / p;
    assert q * p <= n / 10 < (q + 1) * p;
    assert q * (10 * p) <= n < (q + 1) * (10 * p);
    QuotientIs(n, 10 * p, q);
  }

  lemma AtLeastOnce(k: nat, p: nat)
    requires k > 0
    ensures k * p >= p
  {
  }

  lemma QuotientIs(n: nat, p: nat, q: nat)
    requires p > 0 && q * p <= n < (q + 1) * p
    ensures n / p == q
  {
    var r := n / p;
    assert r * p <= n < (r + 1) * p;
    if r < q {
      AtLeastOnce(q - r, p);
    } else if q < r {
      AtLeastOnce(r - q, p);
    }
  }

  /** The digit of a decimal number that counts the i-th power of ten. */
  lemma {:induction false} DecimalPlaces(n: nat, i: nat)
    requires i < |Decimal(n)|
    ensures Decimal(n)[|Decimal(n)| - 1 - i] as int - '0' as int == n / PowerOfTen(i) % 10
    decreases i
  {
    if i > 0 {
      DecimalPlaces(n / 10, i - 1);
      TenthThenDivide(n, PowerOfTen(i - 1));
    }
  }

  lemma LastPlace(n: nat, d: int)
    requires 0 <= d < 10
    ensures (10 * n + d) / 10 == n && (10 * n + d) % 10 == d
  {
  }

  /** The value of digits, likewise. */
  lemma {:induction false} DigitsPlaces(s: string, i: nat)
    requires AllDigits(s) && i < |s|
    ensures 0 <= DigitsValue(s) < PowerOfTen(|s|)
    ensures DigitsValue(s) / PowerOfTen(i) % 10 == s[|s| - 1 - i] as int - '0' as int
  {
    var front, last := s[..|s| - 1], DigitValue(s[|s| - 1]);
    assert IsDigit(s[|s| - 1]);
    DigitsBounded(s);
    DigitsBounded(front);
    LastPlace(DigitsValue(front), last);
    if i > 0 {
      assert front[|front| - 1 - (i - 1)] == s[|s| - 1 - i];
      DigitsPlaces(front, i - 1);
      TenthThenDivide(DigitsValue(s), PowerOfTen(i - 1));
    }
  }

  lemma {:induction false} DigitsBounded(s: string)
    requires AllDigits(s)
    ensures 0 <= DigitsValue(s) < PowerOfTen(|s|)
  {
    if s != "" {
      assert IsDigit(s[|s| - 1]);
      DigitsBounded(s[..|s| - 1]);
    }
  }

  /** Blanks up to i, an optional sign up to k, and then digits that write n. */
  predicate NumberAt(t: string, n: int, i: nat, k: nat) {
    && i <= k < |t| && (forall j :: 0 <= j < i ==> t[j] in [' ', '\t', '\n', '\r', 11 as char, 12 as char])
    && (forall j :: k <= j < |t| ==> '0' <= t[j] <= '9')
    && (k == i || (k == i + 1 && t[i] in "+-"))
    && n == if k > i && t[i] == '-' then -DigitsValue(t[k..]) else DigitsValue(t[k..])
  }

  /** The whole text is a number as strtol reads it. */
  ghost predicate IsNumber(t: string, n: int) {
    exists i, k :: NumberAt(t, n, i, k)
  }

  lemma {:induction false} SpacesAre(s: string, i: nat)
    requires i < |s| && !IsSpace(s[i]) && forall j :: 0 <= j < i ==> IsSpace(s[j])
    ensures Spaces(s) == i
  {
    if i > 0 {
      assert forall j :: 0 <= j < i - 1 ==> s[1..][j] == s[j + 1];
      SpacesAre(s[1..], i - 1);
    }
  }

  lemma {:induction false} OnlySpacesBefore(s: string)
    ensures forall j :: 0 <= j < Spaces(s) ==> IsSpace(s[j])
    ensures Spaces(s) < |s| ==> !IsSpace(s[Spaces(s)])
  {
    if s != "" && IsSpace(s[0]) {
      OnlySpacesBefore(s[1..]);
      assert forall j :: 1 <= j < |s| ==> s[j] == s[1..][j - 1];
    }
  }

  lemma NumberScans(t: string, n: int, i: nat, k: nat)
    requires NumberAt(t, n, i, k)
    ensures Strtol(t) == Scan(n, |t|)
  {
    assert forall j :: 0 <= j < |t[k..]| ==> t[k..][j] == t[k + j];
    SpacesAre(t, i);
    AllAreDigits(t[k..]);
    assert t[k..][..|t[k..]|] == t[k..];
    assert IsDigit(t[k..][0]);
  }

  lemma ScanIsNumber(t: string, n: int)
    requires t != "" && Strtol(t) == Scan(n, |t|)
    ensures IsNumber(t, n)
  {
    OnlySpacesBefore(t);
    var i := Spaces(t);
    var k := i + if i < |t| && (t[i] == '-' || t[i] == '+') then 1 else 0;
    AllAreDigits(t[k..]);
    assert t[k..][..|t[k..]|] == t[k..];
    assert forall j :: k <= j < |t| ==> t[j] == t[k..][j - k];
    assert NumberAt(t, n, i, k);
  }

  /** strtol takes a whole text exactly when it is a number, and gives that number. */
  lemma StrtolMeaning(t: string, n: int)
    ensures t != "" && Strtol(t) == Scan(n, |t|) <==> IsNumber(t, n)
  {
    if t != "" && Strtol(t) == Scan(n, |t|) {
      ScanIsNumber(t, n);
    }
    if i, k :| NumberAt(t, n, i, k) {
      NumberScans(t, n, i, k);
    }
  }

  /** The parts of a text are those between the separators. */
  lemma {:induction false} PartsHaveNone(s: string, c: char)
    ensures forall i :: 0 <= i < |Split(s, c)| ==> Without(Split(s, c)[i], c)
    decreases |s|
  {
    var k := Find(s, c);
    NoneBefore(s, c);
    if k < |s| {
      PartsHaveNone(s[k + 1..], c);
    }
  }

  lemma {:induction false} NoneBefore(s: string, c: char)
    ensures Without(s[..Find(s, c)], c)
  {
    if s != "" && s[0] != c {
      NoneBefore(s[1..], c);
      assert s[..Find(s, c)][1..] == s[1..][..Find(s[1..], c)];
      assert forall i :: 1 <= i < Find(s, c) ==> s[i] == s[1..][i - 1];
    }
  }

  /** Splitting at c gives exactly the parts without c that join to the text. */
  lemma SplitMeaning(s: string, c: char, parts: seq<string>)
    ensures parts == Split(s, c) <==>
      |parts| >= 1 && (forall i :: 0 <= i < |parts| ==> Without(parts[i], c)) && Join(parts, c) == s
  {
    PartsHaveNone(s, c);
    JoinOfSplit(s, c);
    if |parts| >= 1 && (forall i :: 0 <= i < |parts| ==> Without(parts[i], c)) && Join(parts, c) == s {
      SplitOfJoin(parts, c);
    }
  }
}
