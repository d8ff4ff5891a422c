/** The HTTP part of the speed test in src/test.c: finding the end of the response header in
    whatever pieces it arrives, judging the status line, and counting the body. */
module HttpHeaders {
  import opened Wrappers
  import opened Sockets

  const CR: Byte := 13
  const LF: Byte := 10
  const SPACE: Byte := 32
  const DIGIT_0: Byte := 48
  const HTTP: seq<Byte> := [72, 84, 84, 80, 47]
  const BLANK_LINE: seq<Byte> := [CR, LF, CR, LF]

  // ---- the status line ----

  predicate IsDigit(b: Byte) {
    DIGIT_0 <= b <= 57
  }

  /** The first blank or carriage return from `i` on, or the end. */
  function VersionEnd(h: seq<Byte>, i: nat): (k: nat)
    requires i <= |h|
    ensures i <= k <= |h|
    decreases |h| - i
  {
    if i < |h| && h[i] != SPACE && h[i] != CR then VersionEnd(h, i + 1) else i
  }

  function Digit(b: Byte): int {
    b as int - 48
  }

  /** A three-digit status of the 2xx class follows at `k`. */
  predicate StatusAt(h: seq<Byte>, k: nat) {
    && k + 3 < |h| && h[k] == SPACE && IsDigit(h[k + 1]) && IsDigit(h[k + 2]) && IsDigit(h[k + 3])
    && 200 <= Digit(h[k + 1]) * 100 + Digit(h[k + 2]) * 10 + Digit(h[k + 3]) < 300
  }

  predicate Success(h: seq<Byte>) {
    |h| >= 12 && h[..5] == HTTP && StatusAt(h, VersionEnd(h, 5))
  }

  /** http_response_success. */
  method ResponseSuccess(buffer: array<Byte>, length: nat) returns (yes: bool)
    requires length <= buffer.Length
    ensures yes == Success(buffer[..length])
  {
    ghost var h := buffer[..length];
    if length < 12 || buffer[..5] != HTTP {
      assert length >= 12 ==> h[..5] == buffer[..5];
      return false;
    }
    assert h[..5] == buffer[..5];
    var index := 5;
    while index < length && buffer[index] != SPACE && buffer[index] != CR
      invariant 5 <= index <= length
      invariant VersionEnd(h, 5) == VersionEnd(h, index)
    {
      index := index + 1;
    }
    if index + 3 >= length || buffer[index] != SPACE
      || !IsDigit(buffer[index + 1]) || !IsDigit(buffer[index + 2]) || !IsDigit(buffer[index + 3]) {
      return false;
    }
    var status := Digit(buffer[index + 1]) * 100 + Digit(buffer[index + 2]) * 10 + Digit(buffer[index + 3]);
    return 200 <= status < 300;
  }

  predicate Token(v: seq<Byte>) {
    forall i :: 0 <= i < |v| ==> v[i] != SPACE && v[i] != CR
  }

  /** The status lines that count as success: a version token, a blank, a 2 and two digits. */
  predicate StatusLine(h: seq<Byte>, version: seq<Byte>, d1: Byte, d2: Byte, rest: seq<Byte>) {
    Token(version) && IsDigit(d1) && IsDigit(d2) && h == HTTP + version + [SPACE, DIGIT_0 + 2, d1, d2] + rest
  }

  lemma {:induction false} VersionEndIs(h: seq<Byte>, i: nat, k: nat)
    requires i <= k < |h| && (h[k] == SPACE || h[k] == CR)
    requires forall j :: i <= j < k ==> h[j] != SPACE && h[j] != CR
    ensures VersionEnd(h, i) == k
    decreases k - i
  {
    if i < k {
      VersionEndIs(h, i + 1, k);
    }
  }

  lemma {:induction false} BeforeVersionEnd(h: seq<Byte>, i: nat, j: nat)
    requires i <= |h| && i <= j < VersionEnd(h, i)
    ensures h[j] != SPACE && h[j] != CR
    decreases j - i
  {
    if i < j {
      BeforeVersionEnd(h, i + 1, j);
    }
  }

  lemma FourParts(h: seq<Byte>, k: nat)
    requires 5 <= k && k + 4 <= |h|
    ensures h == h[..5] + h[5..k] + h[k..k + 4] + h[k + 4..]
    ensures h[k..k + 4] == [h[k], h[k + 1], h[k + 2], h[k + 3]]
  {
  }

  lemma SuccessHasStatusLine(h: seq<Byte>)
    requires Success(h)
    ensures var k := VersionEnd(h, 5);
      k + 3 < |h| && StatusLine(h, h[5..k], h[k + 2], h[k + 3], h[k + 4..])
  {
    var k := VersionEnd(h, 5);
    VersionIsToken(h, k);
    FourParts(h, k);
    assert h[k + 1] == DIGIT_0 + 2;
  }

  lemma VersionIsToken(h: seq<Byte>, k: nat)
    requires 5 <= |h| && k == VersionEnd(h, 5)
    ensures Token(h[5..k])
  {
    forall j | 0 <= j < |h[5..k]|
      ensures h[5..k][j] != SPACE && h[5..k][j] != CR
    {
      BeforeVersionEnd(h, 5, j + 5);
    }
  }

  lemma StatusLineSucceeds(h: seq<Byte>, version: seq<Byte>, d1: Byte, d2: Byte, rest: seq<Byte>)
    requires |h| >= 12 && StatusLine(h, version, d1, d2, rest)
    ensures Success(h)
  {
    var k := 5 + |version|;
    assert h[..5] == HTTP && h[k..k + 4] == [SPACE, DIGIT_0 + 2, d1, d2];
    assert forall j :: 5 <= j < k ==> h[j] == version[j - 5];
    VersionEndIs(h, 5, k);
  }

  /** http_response_success accepts exactly the headers of 12 bytes and more that begin with such a
      status line. */
  lemma SuccessIsStatusLine(h: seq<Byte>)
    ensures Success(h) <==> |h| >= 12 && exists version, d1, d2, rest :: StatusLine(h, version, d1, d2, rest)
  {
    if Success(h) {
      SuccessHasStatusLine(h);
    }
    if version, d1, d2, rest :| |h| >= 12 && StatusLine(h, version, d1, d2, rest) {
      StatusLineSucceeds(h, version, d1, d2, rest);
    }
  }

  // ---- the end of the header ----

  predicate BlankAt(s: seq<Byte>, i: nat) {
    i + 3 < |s| && s[i] == CR && s[i + 1] == LF && s[i + 2] == CR && s[i + 3] == LF
  }

  /** The offset behind the first CR LF CR LF that starts at `i` or later. */
  function HeaderEnd(s: seq<Byte>, i: nat): (r: Option<nat>)
    ensures r.Some? ==> i + 4 <= r.value <= |s| && BlankAt(s, r.value - 4)
    decreases |s| - i
  {
    if i + 3 >= |s| then None else if BlankAt(s, i) then Some(i + 4) else HeaderEnd(s, i + 1)
  }

  /** The bytes 13 10 13 10 from `i` on. */
  predicate EmptyLineAt(s: seq<Byte>, i: nat) {
    i + 4 <= |s| && s[i..i + 4] == [13, 10, 13, 10]
  }

  /** The end is behind the first of them. */
  lemma {:induction false} HeaderEndIsFirst(s: seq<Byte>, i: nat, k: nat)
    ensures HeaderEnd(s, i) == Some(k + 4) <==>
      i <= k && EmptyLineAt(s, k) && forall j :: i <= j < k ==> !EmptyLineAt(s, j)
    ensures HeaderEnd(s, i).Some? ==> HeaderEnd(s, i).value >= 4
    decreases |s| - i
  {
    assert EmptyLineAt(s, i) <==> BlankAt(s, i) by {
      if i + 4 <= |s| {
        assert s[i..i + 4] == [s[i], s[i + 1], s[i + 2], s[i + 3]];
      }
    }
    if i + 3 < |s| && !BlankAt(s, i) {
      HeaderEndIsFirst(s, i + 1, k);
    }
  }

  /** More bytes do not move an end that was found. */
  lemma {:induction false} EndStays(s: seq<Byte>, more: seq<Byte>, i: nat)
    ensures HeaderEnd(s, i).Some? ==> HeaderEnd(s + more, i) == HeaderEnd(s, i)
    decreases |s| - i
  {
    if i + 3 < |s| && !BlankAt(s, i) {
      EndStays(s, more, i + 1);
    }
  }

  /** Without an end so far, an end found later uses bytes that came later. */
  lemma {:induction false} EndComesLater(s: seq<Byte>, more: seq<Byte>, i: nat)
    requires HeaderEnd(s, i).None?
    ensures HeaderEnd(s + more, i).Some? ==> HeaderEnd(s + more, i).value > |s|
    decreases |s| - i
  {
    if i + 3 < |s| {
      EndComesLater(s, more, i + 1);
    }
  }

  // ---- skip_http_headers ----

  datatype Skipped = Skipped(bodyOffset: nat, buffered: nat)

  /** A run of skip_http_headers: its result, and the arrivals that it leaves. */
  datatype SkipRun = SkipRun(r: Option<Skipped>, left: seq<Arrival>)

  function Judge(seen: seq<Byte>, end: nat): Option<Skipped>
    requires end <= |seen|
  {
    if Success(seen[..end]) then Some(Skipped(end, |seen|)) else None
  }

  function PieceSize(bytes: Chunk, space: nat): (n: nat)
    requires space > 0
    ensures 0 < n <= |bytes| && n <= space
  {
    if |bytes| <= space then |bytes| else space
  }

  /** skip_http_headers with `seen` in the buffer: it looks for the end after every recv and
      gives up when less than two bytes of the buffer are free. */
  function Skip(seen: seq<Byte>, pending: seq<Arrival>, capacity: nat): SkipRun
    decreases capacity - |seen|, |pending|
  {
    if |seen| + 1 >= capacity || pending == [] then SkipRun(None, pending)
    else
      match pending[0]
      case Interrupted => Skip(seen, pending[1..], capacity)
      case TimedOut => SkipRun(None, pending[1..])
      case Broken => SkipRun(None, pending[1..])
      case Data(bytes) =>
        var n := PieceSize(bytes, capacity - |seen|);
        var now := seen + bytes[..n];
        var end := HeaderEnd(now, 0);
        if end.Some? then SkipRun(Judge(now, end.value), Take(pending, n)) else Skip(now, Take(pending, n), capacity)
  }

  /** Some recv returns with exactly `target` bytes in the buffer. */
  predicate Boundary(used: nat, pending: seq<Arrival>, capacity: nat, target: nat)
    decreases capacity - used, |pending|
  {
    used == target ||
    (used < capacity && pending != [] &&
      match pending[0]
      case Interrupted => Boundary(used, pending[1..], capacity, target)
      case TimedOut => false
      case Broken => false
      case Data(bytes) =>
        var n := PieceSize(bytes, capacity - used);
        Boundary(used + n, Take(pending, n), capacity, target))
  }

  /** The verdict and the body offset, whatever the cuts: success exactly when the first blank
      line ends within the buffer and closes a 2xx header, except that an end at the very last
      byte of the buffer is missed when a recv stops one byte short of it. */
  predicate ByStream(all: seq<Byte>, capacity: nat, stopsShort: bool, r: Option<Skipped>) {
    var end := HeaderEnd(all, 0);
    && (r.Some? <==>
          && end.Some? && end.value <= capacity && Success(all[..end.value])
          && (end.value == capacity ==> !stopsShort))
    && (r.Some? ==> r.value.bodyOffset == end.value <= r.value.buffered <= capacity && r.value.buffered <= |all|)
  }

  lemma JudgedNow(now: seq<Byte>, rest: seq<Byte>, capacity: nat, stopsShort: bool)
    requires HeaderEnd(now, 0).Some? && |now| <= capacity && (|now| == capacity ==> !stopsShort)
    ensures ByStream(now + rest, capacity, stopsShort, Judge(now, HeaderEnd(now, 0).value))
  {
    EndStays(now, rest, 0);
    var end := HeaderEnd(now, 0).value;
    assert (now + rest)[..end] == now[..end];
  }

  lemma {:induction false} SkipByStream(seen: seq<Byte>, pending: seq<Arrival>, capacity: nat)
    requires HeaderEnd(seen, 0).None? && |seen| < capacity
    ensures ByStream(seen + Stream(pending), capacity, Boundary(|seen|, pending, capacity, capacity - 1),
                     Skip(seen, pending, capacity).r)
    decreases capacity - |seen|, |pending|
  {
    EndComesLater(seen, Stream(pending), 0);
    if |seen| + 1 >= capacity {
    } else if pending == [] {
      assert seen + Stream(pending) == seen;
    } else {
      match pending[0] {
        case Interrupted => SkipByStream(seen, pending[1..], capacity);
        case TimedOut => assert seen + Stream(pending) == seen;
        case Broken => assert seen + Stream(pending) == seen;
        case Data(bytes) =>
          var n := PieceSize(bytes, capacity - |seen|);
          var now, rest := seen + bytes[..n], Take(pending, n);
          if HeaderEnd(now, 0).Some? {
            SkipJudges(seen, pending, capacity, now, rest);
          } else if |now| == capacity {
            SkipFills(seen, pending, capacity, now, rest);
          } else {
            SkipByStream(now, rest, capacity);
            SkipGoesOn(seen, pending, capacity, now, rest);
          }
      }
    }
  }

  lemma BoundaryStep(used: nat, pending: seq<Arrival>, capacity: nat)
    requires used + 1 < capacity && pending != [] && pending[0].Data?
    ensures var n := PieceSize(pending[0].bytes, capacity - used);
      && Boundary(used, pending, capacity, capacity - 1) == Boundary(used + n, Take(pending, n), capacity, capacity - 1)
      && (used + n == capacity ==> !Boundary(used, pending, capacity, capacity - 1))
  {
  }

  lemma NoEndInBuffer(now: seq<Byte>, rest: seq<Byte>, capacity: nat, stopsShort: bool)
    requires HeaderEnd(now, 0).None? && |now| == capacity
    ensures ByStream(now + rest, capacity, stopsShort, None)
  {
    EndComesLater(now, rest, 0);
  }

  /** What a recv of data leaves for the rest of the loop. */
  predicate AfterPiece(seen: seq<Byte>, pending: seq<Arrival>, capacity: nat, now: seq<Byte>, rest: seq<Arrival>) {
    && |seen| + 1 < capacity && pending != [] && pending[0].Data?
    && var n := PieceSize(pending[0].bytes, capacity - |seen|);
       now == seen + pending[0].bytes[..n] && rest == Take(pending, n)
  }

  lemma SkipJudges(seen: seq<Byte>, pending: seq<Arrival>, capacity: nat, now: seq<Byte>, rest: seq<Arrival>)
    requires AfterPiece(seen, pending, capacity, now, rest) && HeaderEnd(now, 0).Some?
    ensures ByStream(seen + Stream(pending), capacity, Boundary(|seen|, pending, capacity, capacity - 1),
                     Skip(seen, pending, capacity).r)
  {
    StepOfSkip(seen, pending, capacity);
    BoundaryStep(|seen|, pending, capacity);
    JudgedNow(now, Stream(rest), capacity, Boundary(|seen|, pending, capacity, capacity - 1));
  }

  lemma SkipFills(seen: seq<Byte>, pending: seq<Arrival>, capacity: nat, now: seq<Byte>, rest: seq<Arrival>)
    requires AfterPiece(seen, pending, capacity, now, rest) && HeaderEnd(now, 0).None? && |now| == capacity
    ensures ByStream(seen + Stream(pending), capacity, Boundary(|seen|, pending, capacity, capacity - 1),
                     Skip(seen, pending, capacity).r)
  {
    StepOfSkip(seen, pending, capacity);
    NoEndInBuffer(now, Stream(rest), capacity, Boundary(|seen|, pending, capacity, capacity - 1));
  }

  lemma SkipGoesOn(seen: seq<Byte>, pending: seq<Arrival>, capacity: nat, now: seq<Byte>, rest: seq<Arrival>)
    requires AfterPiece(seen, pending, capacity, now, rest) && HeaderEnd(now, 0).None?
    requires ByStream(now + Stream(rest), capacity, Boundary(|now|, rest, capacity, capacity - 1),
                      Skip(now, rest, capacity).r)
    ensures ByStream(seen + Stream(pending), capacity, Boundary(|seen|, pending, capacity, capacity - 1),
                     Skip(seen, pending, capacity).r)
  {
    StepOfSkip(seen, pending, capacity);
    BoundaryStep(|seen|, pending, capacity);
  }

  lemma StepOfSkip(seen: seq<Byte>, pending: seq<Arrival>, capacity: nat)
    requires |seen| + 1 < capacity && pending != [] && pending[0].Data?
    ensures var n := PieceSize(pending[0].bytes, capacity - |seen|);
      var now, rest := seen + pending[0].bytes[..n], Take(pending, n);
      var end := HeaderEnd(now, 0);
      && |now| == |seen| + n
      && seen + Stream(pending) == now + Stream(rest)
      && Skip(seen, pending, capacity) ==
           (if end.Some? then SkipRun(Judge(now, end.value), rest) else Skip(now, rest, capacity))
      && (|now| == capacity ==> Skip(now, rest, capacity).r == None)
  {
  }

  /** Two ways to cut the same bytes give the same body offset when both succeed, and they
      disagree on success exactly when the header fills the buffer to its last byte, is good, and
      only one of the two has a recv that stops one byte short of it. */
  lemma CutsMatterOnlyAtTheLastByte(p: seq<Arrival>, q: seq<Arrival>, capacity: nat)
    requires 0 < capacity && Stream(p) == Stream(q)
    ensures var all, a, b := Stream(p), Skip([], p, capacity).r, Skip([], q, capacity).r;
      && (a.Some? && b.Some? ==> a.value.bodyOffset == b.value.bodyOffset)
      && (a.Some? != b.Some? <==>
            && HeaderEnd(all, 0) == Some(capacity) && Success(all[..capacity])
            && Boundary(0, p, capacity, capacity - 1) != Boundary(0, q, capacity, capacity - 1))
  {
    assert [] + Stream(p) == Stream(p);
    SkipByStream([], p, capacity);
    SkipByStream([], q, capacity);
  }

  // ---- two cuts of one header ----

  lemma {:induction false} EndAt(s: seq<Byte>, i: nat, k: nat)
    requires i <= k && BlankAt(s, k) && forall j :: i <= j < k ==> s[j] != CR
    ensures HeaderEnd(s, i) == Some(k + 4)
    decreases k - i
  {
    if i < k {
      EndAt(s, i + 1, k);
    }
  }

  function Filler(n: nat): (r: seq<Byte>)
    ensures |r| == n && forall i :: 0 <= i < n ==> r[i] == 97
  {
    if n == 0 then [] else Filler(n - 1) + [97]
  }

  const OK_LINE: seq<Byte> := HTTP + [49, 46, 49] + [SPACE, DIGIT_0 + 2, 48, 48]

  /** "HTTP/1.1 200", padded so that the blank line ends at the last byte of the buffer. */
  function FullHeader(capacity: nat): (h: seq<Byte>)
    requires capacity >= 16
    ensures |h| == capacity
  {
    OK_LINE + Filler(capacity - 16) + BLANK_LINE
  }

  lemma FullHeaderIsGood(capacity: nat)
    requires capacity >= 16
    ensures HeaderEnd(FullHeader(capacity), 0) == Some(capacity) && Success(FullHeader(capacity))
  {
    var h, k := FullHeader(capacity), capacity - 4;
    forall j | 0 <= j < k
      ensures h[j] != CR
    {
      assert h[j] == if j < 12 then OK_LINE[j] else Filler(capacity - 16)[j - 12];
    }
    assert h[k..] == BLANK_LINE;
    assert BlankAt(h, k) by {
      assert h[k] == h[k..][0] && h[k + 1] == h[k..][1] && h[k + 2] == h[k..][2] && h[k + 3] == h[k..][3];
    }
    EndAt(h, 0, k);
    StatusLineSucceeds(h, [49, 46, 49], 48, 48, Filler(capacity - 16) + BLANK_LINE);
  }

  lemma OnePieceRun(h: seq<Byte>, capacity: nat)
    requires capacity >= 2 && |h| == capacity && HeaderEnd(h, 0) == Some(capacity)
    ensures Skip([], [Data(h)], capacity) == SkipRun(Judge(h, capacity), [])
  {
    var n := PieceSize(h, capacity);
    assert n == capacity && [] + h[..n] == h;
    assert Take([Data(h)], n) == [];
  }

  /** A good header that fills the buffer is accepted when it arrives in one piece. */
  lemma OnePieceSucceeds(h: seq<Byte>, capacity: nat)
    requires capacity >= 2 && |h| == capacity && HeaderEnd(h, 0) == Some(capacity) && Success(h)
    ensures Stream([Data(h)]) == h && Skip([], [Data(h)], capacity).r.Some?
  {
    assert h[..capacity] == h && [Data(h)][1..] == [];
    OnePieceRun(h, capacity);
  }

  lemma NoEndBeforeLastByte(h: seq<Byte>, capacity: nat)
    requires capacity >= 2 && |h| == capacity && HeaderEnd(h, 0) == Some(capacity)
    ensures HeaderEnd(h[..capacity - 1], 0).None?
  {
    EndStays(h[..capacity - 1], h[capacity - 1..], 0);
    assert h[..capacity - 1] + h[capacity - 1..] == h;
  }

  lemma TwoPiecesStream(a: Chunk, b: Chunk)
    ensures Stream([Data(a), Data(b)]) == a + b
  {
    assert [Data(a), Data(b)][1..] == [Data(b)] && [Data(b)][1..] == [];
    assert Stream([Data(b)]) == b;
  }

  /** A first piece that leaves one byte of the buffer free and has no end ends the search. */
  lemma ShortPieceFails(a: Chunk, b: Chunk, capacity: nat)
    requires |a| + 1 == capacity && HeaderEnd(a, 0).None?
    ensures Skip([], [Data(a), Data(b)], capacity).r.None?
  {
    assert PieceSize(a, capacity) == |a| && [] + a[..|a|] == a;
  }

  /** It is refused when its last byte comes by itself. */
  lemma LastByteAloneFails(h: seq<Byte>, capacity: nat)
    requires capacity >= 2 && |h| == capacity && HeaderEnd(h, 0) == Some(capacity)
    ensures var q := [Data(h[..capacity - 1]), Data(h[capacity - 1..])];
      Stream(q) == h && Skip([], q, capacity).r.None?
  {
    var a, b: Chunk := h[..capacity - 1], h[capacity - 1..];
    assert a + b == h;
    NoEndBeforeLastByte(h, capacity);
    TwoPiecesStream(a, b);
    ShortPieceFails(a, b, capacity);
  }

  /** So for every buffer size there are two cuts of the same bytes on which
      skip_http_headers disagrees. */
  lemma CutsDisagree(capacity: nat)
    requires capacity >= 16
    ensures var h := FullHeader(capacity);
      var p, q := [Data(h)], [Data(h[..capacity - 1]), Data(h[capacity - 1..])];
      Stream(p) == Stream(q) && Skip([], p, capacity).r.Some? && Skip([], q, capacity).r.None?
  {
    FullHeaderIsGood(capacity);
    OnePieceSucceeds(FullHeader(capacity), capacity);
    LastByteAloneFails(FullHeader(capacity), capacity);
  }

  /** The search of skip_http_headers through the bytes received so far. */
  method FindHeaderEnd(buffer: array<Byte>, used: nat) returns (end: Option<nat>)
    requires used <= buffer.Length
    ensures end == HeaderEnd(buffer[..][..used], 0)
  {
    ghost var seen := buffer[..][..used];
    var index := 0;
    while index + 3 < used
      invariant 0 <= index && HeaderEnd(seen, 0) == HeaderEnd(seen, index)
    {
      if buffer[index] == CR && buffer[index + 1] == LF && buffer[index + 2] == CR && buffer[index + 3] == LF {
        return Some(index + 4);
      }
      index := index + 1;
    }
    return None;
  }

  method LookForEnd(buffer: array<Byte>, used: nat) returns (found: bool, r: Option<Skipped>)
    requires used <= buffer.Length
    ensures var seen := buffer[..][..used]; var end := HeaderEnd(seen, 0);
      found == end.Some? && (found ==> r == Judge(seen, end.value))
  {
    var end := FindHeaderEnd(buffer, used);
    if end.None? {
      return false, None;
    }
    assert buffer[..][..used][..end.value] == buffer[..end.value];
    var success := ResponseSuccess(buffer, end.value);
    return true, if success then Some(Skipped(end.value, used)) else None;
  }

  /** Where the loop of skip_http_headers stands. */
  datatype Skipping = Skipping(seen: seq<Byte>, buffer: seq<Byte>, pending: seq<Arrival>)

  predicate OnTheWay(start: Skipping, now: Skipping) {
    && start.seen == [] && |now.seen| <= |start.buffer| && now.buffer == Overwrite(start.buffer, 0, now.seen)
    && Stream(start.pending) == now.seen + Stream(now.pending)
    && Skip([], start.pending, |start.buffer|) == Skip(now.seen, now.pending, |start.buffer|)
  }

  lemma OverwriteNext(start: seq<Byte>, seen: seq<Byte>, got: seq<Byte>)
    requires |seen| + |got| <= |start|
    ensures Overwrite(Overwrite(start, 0, seen), |seen|, got) == Overwrite(start, 0, seen + got)
    ensures Overwrite(start, 0, seen + got)[..|seen| + |got|] == seen + got
  {
  }

  lemma StreamNext(all: seq<Byte>, seen: seq<Byte>, got: seq<Byte>, rest: seq<Byte>)
    requires all == seen + (got + rest)
    ensures all == (seen + got) + rest
    ensures |seen + got| <= |all| && all[|seen + got|..] == rest
  {
  }

  lemma SkipReceives(start: Skipping, now: Skipping, next: Skipping, r: RecvResult, got: seq<Byte>)
    requires OnTheWay(start, now) && |now.seen| + 1 < |start.buffer|
    requires r.Bytes? && Meets(now.pending, |start.buffer| - |now.seen|, r, got, next.pending)
    requires next.seen == now.seen + got && next.buffer == Overwrite(now.buffer, |now.seen|, got)
    ensures |next.seen| == |now.seen| + r.count <= |start.buffer| && next.buffer[..|next.seen|] == next.seen
    ensures |next.seen| <= |Stream(start.pending)| && Stream(next.pending) == Stream(start.pending)[|next.seen|..]
    ensures var end := HeaderEnd(next.seen, 0);
      if end.Some? then Skip([], start.pending, |start.buffer|) == SkipRun(Judge(next.seen, end.value), next.pending)
      else OnTheWay(start, next)
  {
    OverwriteNext(start.buffer, now.seen, got);
    TakeKeepsStream(now.pending, r.count);
    StreamNext(Stream(start.pending), now.seen, got, Stream(next.pending));
  }

  lemma SkipStops(start: Skipping, now: Skipping, r: RecvResult, after: seq<Arrival>)
    requires OnTheWay(start, now) && |now.seen| + 1 < |start.buffer|
    requires !r.Bytes? && Meets(now.pending, |start.buffer| - |now.seen|, r, [], after)
    ensures if r.Eintr? then OnTheWay(start, now.(pending := after))
            else Skip([], start.pending, |start.buffer|) == SkipRun(None, after)
  {
  }

  ghost function Position(s: Socket, buffer: array<Byte>, seen: seq<Byte>): Skipping
    reads s, buffer
  {
    Skipping(seen, buffer[..], s.pending)
  }

  /** What one recv of the loop leads to. */
  datatype SkipTurn = Again | More(count: nat) | Finished(r: Option<Skipped>)

  method ReceiveHeader(s: Socket, buffer: array<Byte>, used: nat, ghost start: Skipping, ghost seen: seq<Byte>)
    returns (t: SkipTurn, ghost got: seq<Byte>)
    requires used == |seen| && used + 1 < buffer.Length == |start.buffer| && OnTheWay(start, Position(s, buffer, seen))
    modifies s`pending, s.trace, buffer
    ensures t.Again? ==> got == [] && |s.pending| < |old(s.pending)|
    ensures t.More? ==> 0 < t.count == |got|
    ensures !t.Finished? ==> OnTheWay(start, Position(s, buffer, seen + got))
    ensures t.Finished? ==> SkipRun(t.r, s.pending) == Skip([], start.pending, buffer.Length)
    ensures t.Finished? && t.r.Some? ==>
      && t.r.value.buffered == used + |got| <= |Stream(start.pending)|
      && Stream(s.pending) == Stream(start.pending)[t.r.value.buffered..]
    ensures |Received(s.trace.events, s.side)| == |old(Received(s.trace.events, s.side))| + |got|
  {
    ghost var now, events := Position(s, buffer, seen), s.trace.events;
    var received;
    received, got := s.Recv(buffer, used, buffer.Length - used);
    if !received.Bytes? {
      got := [];
      SkipStops(start, now, received, s.pending);
      assert seen + [] == seen;
      return if received.Eintr? then Again else Finished(None), got;
    }
    TraceGrows(events, Got(s.side, got), s.side);
    SkipReceives(start, now, Position(s, buffer, seen + got), received, got);
    var found, r := LookForEnd(buffer, used + received.count);
    return if found then Finished(r) else More(received.count), got;
  }

  /** skip_http_headers, without cancellation. */
  method SkipHeaders(s: Socket, buffer: array<Byte>) returns (r: Option<Skipped>)
    modifies s`pending, s.trace, buffer
    ensures SkipRun(r, s.pending) == Skip([], old(s.pending), buffer.Length)
    ensures r.Some? ==>
      r.value.buffered <= |Stream(old(s.pending))| && Stream(s.pending) == Stream(old(s.pending))[r.value.buffered..]
    ensures r.Some? ==> |Received(s.trace.events, s.side)| == |old(Received(s.trace.events, s.side))| + r.value.buffered
  {
    ghost var before, start := |Received(s.trace.events, s.side)|, Position(s, buffer, []);
    ghost var seen: seq<Byte> := [];
    var used := 0;
    while used + 1 < buffer.Length
      invariant used == |seen| <= buffer.Length
      invariant OnTheWay(start, Position(s, buffer, seen))
      invariant |Received(s.trace.events, s.side)| == before + used
      decreases buffer.Length - used, |s.pending|
    {
      var t, got := ReceiveHeader(s, buffer, used, start, seen);
      if t.Finished? {
        return t.r;
      }
      seen := seen + got;
      used := used + if t.More? then t.count else 0;
    }
    return None;
  }

  // ---- measure_speed ----

  const MAX_BYTES: nat := 10 * 1024 * 1024
  const BUFFER_SIZE: nat := 16384

  /** What measure_speed would count of a stream, given time. */
  function Countable(stream: seq<Byte>, offset: nat): nat
    requires offset <= |stream|
  {
    if |stream| - offset <= MAX_BYTES then |stream| - offset else MAX_BYTES
  }

  /** What one recv of the download asks for. */
  function Want(downloaded: nat): (n: nat)
    requires downloaded < MAX_BYTES
    ensures 0 < n <= BUFFER_SIZE && downloaded + n <= MAX_BYTES
  {
    if MAX_BYTES - downloaded > BUFFER_SIZE then BUFFER_SIZE else MAX_BYTES - downloaded
  }

  /** The receiving loop of measure_speed: a look at the clock before every recv, `late` saying
      which looks are past the deadline, until 10 MiB are there or the stream ends. */
  function Counted(downloaded: nat, pending: seq<Arrival>, late: seq<bool>): nat
    decreases MAX_BYTES - downloaded, |pending|
  {
    if downloaded >= MAX_BYTES || (late != [] && late[0]) || pending == [] then downloaded
    else
      var later := if late == [] then [] else late[1..];
      match pending[0]
      case Interrupted => Counted(downloaded, pending[1..], later)
      case TimedOut => downloaded
      case Broken => downloaded
      case Data(bytes) =>
        var n := PieceSize(bytes, Want(downloaded));
        Counted(downloaded + n, Take(pending, n), later)
  }

  predicate NeverLate(late: seq<bool>) {
    late == [] || (!late[0] && NeverLate(late[1..]))
  }

  /** The count never exceeds what came or 10 MiB; and if no look at the clock is late, all that
      came is counted, up to 10 MiB. */
  lemma {:induction false} CountedOfStream(downloaded: nat, pending: seq<Arrival>, late: seq<bool>)
    requires downloaded <= MAX_BYTES
    ensures downloaded <= Counted(downloaded, pending, late) <= MAX_BYTES
    ensures Counted(downloaded, pending, late) <= downloaded + |Stream(pending)|
    ensures NeverLate(late) ==>
      Counted(downloaded, pending, late) ==
        if downloaded + |Stream(pending)| <= 10485760 then downloaded + |Stream(pending)| else 10485760
    decreases MAX_BYTES - downloaded, |pending|
  {
    if downloaded < MAX_BYTES && pending != [] {
      var later := if late == [] then [] else late[1..];
      match pending[0] {
        case Interrupted => CountedOfStream(downloaded, pending[1..], later);
        case TimedOut =>
        case Broken =>
        case Data(bytes) =>
          var n := PieceSize(bytes, Want(downloaded));
          TakeKeepsStream(pending, n);
          CountedOfStream(downloaded + n, Take(pending, n), later);
      }
    }
  }

  /** The look number k is late: at most k receives have happened, of at most 16 KiB each. */
  lemma {:induction false} LateLookStops(downloaded: nat, pending: seq<Arrival>, late: seq<bool>, k: nat)
    requires k < |late| && late[k]
    ensures Counted(downloaded, pending, late) <= downloaded + k * BUFFER_SIZE
    decreases k
  {
    if downloaded < MAX_BYTES && !late[0] && pending != [] {
      assert k * BUFFER_SIZE == (k - 1) * BUFFER_SIZE + BUFFER_SIZE;
      match pending[0] {
        case Interrupted => LateLookStops(downloaded, pending[1..], late[1..], k - 1);
        case TimedOut =>
        case Broken =>
        case Data(bytes) =>
          var n := PieceSize(bytes, Want(downloaded));
          LateLookStops(downloaded + n, Take(pending, n), late[1..], k - 1);
      }
    }
  }

  /** No arrival is larger than the buffer. */
  predicate SmallPieces(pending: seq<Arrival>) {
    forall i :: 0 <= i < |pending| && pending[i].Data? ==> |pending[i].bytes| <= BUFFER_SIZE
  }

  lemma FirstArrivals(first: Arrival, rest: seq<Arrival>, k: nat)
    requires k <= |rest|
    ensures Stream(([first] + rest)[..k + 1]) ==
      match first
      case Data(bytes) => bytes + Stream(rest[..k])
      case Interrupted => Stream(rest[..k])
      case TimedOut => []
      case Broken => []
  {
    assert ([first] + rest)[..k + 1] == [first] + rest[..k];
    assert ([first] + rest[..k])[1..] == rest[..k];
  }

  /** And when look number k is the first that is late, exactly the first k arrivals are counted, if
      none is larger than the buffer and 10 MiB are not exceeded. */
  lemma {:induction false} CountedUntilLate(downloaded: nat, pending: seq<Arrival>, late: seq<bool>, k: nat)
    requires k < |late| && k <= |pending| && late[k] && forall i :: 0 <= i < k ==> !late[i]
    requires SmallPieces(pending) && downloaded + |Stream(pending[..k])| <= MAX_BYTES
    ensures Counted(downloaded, pending, late) == downloaded + |Stream(pending[..k])|
    decreases k
  {
    if k > 0 && downloaded < MAX_BYTES {
      FirstArrivals(pending[0], pending[1..], k - 1);
      assert [pending[0]] + pending[1..] == pending;
      assert SmallPieces(pending[1..]) by {
        assert forall i :: 0 <= i < |pending| - 1 ==> pending[1..][i] == pending[i + 1];
      }
      match pending[0] {
        case Interrupted => CountedUntilLate(downloaded, pending[1..], late[1..], k - 1);
        case TimedOut =>
        case Broken =>
        case Data(bytes) =>
          assert PieceSize(bytes, Want(downloaded)) == |bytes|;
          CountedUntilLate(downloaded + |bytes|, pending[1..], late[1..], k - 1);
      }
    }
  }

  /** The receiving loop of measure_speed, `already` bytes of the body having come with the header. */
  method CountRest(s: Socket, buffer: array<Byte>, already: nat, late: seq<bool>) returns (downloaded: nat)
    requires already <= MAX_BYTES && buffer.Length == BUFFER_SIZE
    modifies s`pending, s.trace, buffer
    ensures downloaded == Counted(already, old(s.pending), late)
    ensures already <= downloaded
    ensures |Received(s.trace.events, s.side)| == |old(Received(s.trace.events, s.side))| + downloaded - already
  {
    ghost var before, goal := |Received(s.trace.events, s.side)|, Counted(already, s.pending, late);
    downloaded := already;
    var looks := 0;
    while downloaded < MAX_BYTES
      invariant already <= downloaded <= MAX_BYTES && 0 <= looks
      invariant Counted(downloaded, s.pending, if looks <= |late| then late[looks..] else []) == goal
      invariant |Received(s.trace.events, s.side)| == before + downloaded - already
      decreases MAX_BYTES - downloaded, |s.pending|
    {
      if looks < |late| && late[looks] {
        return;
      }
      ghost var events, rest := s.trace.events, if looks <= |late| then late[looks..] else [];
      looks := looks + 1;
      assert rest != [] ==> rest[1..] == late[looks..];
      var received, got := s.Recv(buffer, 0, Want(downloaded));
      if received.Eintr? {
        continue;
      }
      if !received.Bytes? {
        return;
      }
      TraceGrows(events, Got(s.side, got), s.side);
      downloaded := downloaded + received.count;
    }
  }

  lemma HeaderWithinStream(pending: seq<Arrival>, capacity: nat)
    requires 0 < capacity
    ensures var r := Skip([], pending, capacity).r;
      r.Some? ==> r.value.bodyOffset <= r.value.buffered <= capacity && r.value.buffered <= |Stream(pending)|
  {
    assert [] + Stream(pending) == Stream(pending);
    SkipByStream([], pending, capacity);
  }

  /** The part of measure_speed after the request was sent, without cancellation: nothing is
      counted without a good header; otherwise what follows it, which is all of it, up to 10 MiB,
      unless a look at the clock is late. */
  method CountBody(s: Socket, late: seq<bool>) returns (downloaded: nat)
    modifies s`pending, s.trace
    ensures var run := Skip([], old(s.pending), BUFFER_SIZE);
      match run.r
      case None => downloaded == 0
      case Some(header) =>
        && header.bodyOffset <= header.buffered
        && downloaded == Counted(header.buffered - header.bodyOffset, run.left, late) <= MAX_BYTES
        && header.bodyOffset + downloaded <= |Stream(old(s.pending))|
        && (NeverLate(late) ==> downloaded == Countable(Stream(old(s.pending)), header.bodyOffset))
        && |Received(s.trace.events, s.side)|
           == |old(Received(s.trace.events, s.side))| + header.bodyOffset + downloaded
  {
    var buffer := new Byte[BUFFER_SIZE];
    HeaderWithinStream(s.pending, BUFFER_SIZE);
    var skipped := SkipHeaders(s, buffer);
    if skipped.None? {
      return 0;
    }
    var already := skipped.value.buffered - skipped.value.bodyOffset;
    CountedOfStream(already, s.pending, late);
    downloaded := CountRest(s, buffer, already, late);
  }
}
