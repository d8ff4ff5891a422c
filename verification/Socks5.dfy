/** The SOCKS5 client of src/proxy.c and src/socks5.c, and its diagnostic twin of src/test.c,
    against the message formats of RFC 1928. */
module Socks5 {
  import opened Wrappers
  import opened Sockets

  // ---- the messages of RFC 1928 ----

  /** BND.ADDR with its ATYP, section 5. */
  datatype Address = V4(octets: seq<Byte>) | Domain(name: seq<Byte>) | V6(octets: seq<Byte>)

  predicate ProperAddress(a: Address) {
    match a
    case V4(octets) => |octets| == 4
    case Domain(name) => |name| <= 255
    case V6(octets) => |octets| == 16
  }

  function EncodeAddress(a: Address): seq<Byte>
    requires ProperAddress(a)
  {
    match a
    case V4(octets) => [1] + octets
    case Domain(name) => [3, |name|] + name
    case V6(octets) => [4] + octets
  }

  const SELECTION: seq<Byte> := [5, 0]

  /** A success reply, section 6. */
  function EncodeReply(a: Address, port: seq<Byte>): seq<Byte>
    requires ProperAddress(a) && |port| == 2
  {
    [5, 0, 0] + EncodeAddress(a) + port
  }

  const GREETING: seq<Byte> := [5, 1, 0]

  type Octets = s: seq<Byte> | |s| == 4 witness [0, 0, 0, 0]
  type PortBytes = s: seq<Byte> | |s| == 2 witness [0, 0]

  /** CONNECT to an IPv4 destination in network byte order, section 4. */
  function Request(addr: Octets, port: PortBytes): seq<Byte> {
    [5, 1, 0, 1] + addr + port
  }

  /** The request byte by byte: version 5, CONNECT, reserved, IPv4, then address and port. */
  lemma RequestBytes(addr: Octets, port: PortBytes)
    ensures Request(addr, port) == [5, 1, 0, 1, addr[0], addr[1], addr[2], addr[3], port[0], port[1]]
  {
  }

  // ---- what the client makes of a byte stream ----

  function Drop(stream: seq<Byte>, n: nat): Option<seq<Byte>> {
    if n <= |stream| then Some(stream[n..]) else None
  }

  /** Both the method selection and the head of the reply: 05 00. */
  function AfterStatus(stream: seq<Byte>): Option<seq<Byte>> {
    if |stream| >= 2 && stream[0] == 5 && stream[1] == 0 then Some(stream[2..]) else None
  }

  /** The bound address and port, given their type. */
  function AfterAddress(kind: Byte, stream: seq<Byte>): Option<seq<Byte>> {
    if kind == 1 then Drop(stream, 6)
    else if kind == 4 then Drop(stream, 18)
    else if kind == 3 && stream != [] then Drop(stream[1..], stream[0] as int + 2)
    else None
  }

  function AfterBind(stream: seq<Byte>): Option<seq<Byte>> {
    if |stream| < 2 || stream[0] != 0 then None else AfterAddress(stream[1], stream[2..])
  }

  /** What a stream leaves for the payload once the client has accepted it. */
  function AfterHandshake(stream: seq<Byte>): Option<seq<Byte>> {
    var selected := AfterStatus(stream);
    if selected.None? then None
    else
      var replied := AfterStatus(selected.value);
      if replied.None? then None else AfterBind(replied.value)
  }

  // ---- exactly RFC 1928 ----

  lemma BindOfEncoded(a: Address, port: seq<Byte>, rest: seq<Byte>)
    requires ProperAddress(a) && |port| == 2
    ensures AfterBind([0] + EncodeAddress(a) + port + rest) == Some(rest)
  {
  }

  lemma BindParts(stream: seq<Byte>) returns (a: Address, port: seq<Byte>)
    requires AfterBind(stream).Some?
    ensures ProperAddress(a) && |port| == 2
    ensures stream == [0] + EncodeAddress(a) + port + AfterBind(stream).value
  {
    var rest := AfterBind(stream).value;
    if stream[1] == 1 {
      a, port := V4(stream[2..6]), stream[6..8];
      assert stream == [0] + ([1] + stream[2..6]) + stream[6..8] + stream[8..];
    } else if stream[1] == 4 {
      a, port := V6(stream[2..18]), stream[18..20];
      assert stream == [0] + ([4] + stream[2..18]) + stream[18..20] + stream[20..];
    } else {
      var n := stream[2] as int + 3;
      a, port := Domain(stream[3..n]), stream[n..n + 2];
      assert stream == [0] + ([3, stream[2]] + stream[3..n]) + stream[n..n + 2] + stream[n + 2..];
    }
  }

  predicate Conforms(stream: seq<Byte>, a: Address, port: seq<Byte>, rest: seq<Byte>) {
    ProperAddress(a) && |port| == 2 && stream == SELECTION + EncodeReply(a, port) + rest
  }

  lemma TwoStatuses(tail: seq<Byte>)
    ensures AfterHandshake([5, 0, 5, 0] + tail) == AfterBind(tail)
  {
  }

  lemma ReplyShape(body: seq<Byte>, port: seq<Byte>, rest: seq<Byte>)
    ensures SELECTION + ([5, 0, 0] + body + port) + rest == [5, 0, 5, 0] + ([0] + body + port + rest)
  {
  }

  lemma ConformingIsAccepted(stream: seq<Byte>, a: Address, port: seq<Byte>, rest: seq<Byte>)
    requires Conforms(stream, a, port, rest)
    ensures AfterHandshake(stream) == Some(rest)
  {
  }

  lemma AcceptedConforms(stream: seq<Byte>) returns (a: Address, port: seq<Byte>)
    requires AfterHandshake(stream).Some?
    ensures Conforms(stream, a, port, AfterHandshake(stream).value)
  {
    assert stream == [5, 0, 5, 0] + stream[4..];
    TwoStatuses(stream[4..]);
    a, port := BindParts(stream[4..]);
    ReplyShape(EncodeAddress(a), port, AfterHandshake(stream).value);
  }

  /** The streams that the client accepts are the method selection, one success reply with RSV 0
      and ATYP 1, 3 or 4, and then the payload, of which it takes nothing. */
  lemma HandshakeIsRfc1928(stream: seq<Byte>, rest: seq<Byte>)
    ensures AfterHandshake(stream) == Some(rest) <==> exists a, port :: Conforms(stream, a, port, rest)
  {
    if AfterHandshake(stream) == Some(rest) {
      var a, port := AcceptedConforms(stream);
    }
    if a, port :| Conforms(stream, a, port, rest) {
      ConformingIsAccepted(stream, a, port, rest);
    }
  }

  // ---- the client ----

  /** fp_socks5_drain_bind: reads into a buffer of 257 bytes that it never overruns. */
  method DrainBind(s: Socket) returns (ok: bool)
    modifies s`pending, s.trace
    ensures ok <==> AfterBind(Stream(old(s.pending))).Some?
    ensures ok ==> AfterBind(Stream(old(s.pending))) == Some(Stream(s.pending))
    ensures Sent(s.trace.events, s.side) == old(Sent(s.trace.events, s.side))
  {
    var header := new Byte[2];
    ghost var stream := Stream(s.pending);
    ok := s.ReadAll(header, 2);
    if !ok {
      return;
    }
    assert header[..][..2][0] == stream[..2][0] && header[..][..2][1] == stream[..2][1];
    if header[0] != 0 {
      return false;
    }
    ok := DrainAddress(s, header[1]);
  }

  method DrainAddress(s: Socket, kind: Byte) returns (ok: bool)
    modifies s`pending, s.trace
    ensures ok <==> AfterAddress(kind, Stream(old(s.pending))).Some?
    ensures ok ==> AfterAddress(kind, Stream(old(s.pending))) == Some(Stream(s.pending))
    ensures Sent(s.trace.events, s.side) == old(Sent(s.trace.events, s.side))
  {
    var discard := new Byte[257];
    var remaining: nat;
    if kind == 1 {
      remaining := 6;
    } else if kind == 4 {
      remaining := 18;
    } else if kind == 3 {
      ghost var stream := Stream(s.pending);
      ok := s.ReadAll(discard, 1);
      if !ok {
        return;
      }
      assert discard[..][..1][0] == stream[..1][0];
      remaining := discard[0] as int + 2;
    } else {
      return false;
    }
    ok := s.ReadAll(discard, remaining);
  }

  lemma SentStep(events: seq<Io>, side: Side, bytes: seq<Byte>, a: seq<Byte>, b: seq<Byte>)
    requires Sent(events, side) == a + b
    ensures Sent(events + [Put(side, bytes)], side) == a + (b + bytes)
  {
  }

  lemma {:induction false} PutsSent(events: seq<Io>, side: Side, pieces: seq<seq<Byte>>)
    ensures Sent(events + Puts(side, pieces), side) == Sent(events, side) + Concat(pieces)
    decreases |pieces|, 0
  {
    if pieces == [] {
      assert events + Puts(side, pieces) == events;
    } else {
      PutsSentStep(events, side, pieces[..|pieces| - 1], pieces[|pieces| - 1]);
      assert pieces[..|pieces| - 1] + [pieces[|pieces| - 1]] == pieces;
    }
  }

  lemma PutsSentStep(events: seq<Io>, side: Side, pieces: seq<seq<Byte>>, last: seq<Byte>)
    ensures Sent(events + Puts(side, pieces + [last]), side) == Sent(events, side) + Concat(pieces + [last])
    decreases |pieces|, 1
  {
    PutsSent(events, side, pieces);
    SentStep(events + Puts(side, pieces), side, last, Sent(events, side), Concat(pieces));
    assert (pieces + [last])[..|pieces|] == pieces;
    assert events + (Puts(side, pieces) + [Put(side, last)]) == (events + Puts(side, pieces)) + [Put(side, last)];
  }

  /** Sends a fixed message and reads a status of two bytes. */
  method Exchange(s: Socket, message: array<Byte>) returns (written: bool, status: Option<(Byte, Byte)>)
    modifies s`pending, s`room, s.trace
    ensures written <==> message.Length <= Capacity(old(s.room))
    ensures status.Some? <==> written && |Stream(old(s.pending))| >= 2
    ensures status.Some? ==>
      && status.value == (Stream(old(s.pending))[0], Stream(old(s.pending))[1])
      && Stream(s.pending) == Stream(old(s.pending))[2..]
      && Capacity(s.room) + message.Length == Capacity(old(s.room))
    ensures !written ==> s.pending == old(s.pending)
    ensures Sent(s.trace.events, s.side) <= old(Sent(s.trace.events, s.side)) + message[..]
    ensures written ==> Sent(s.trace.events, s.side) == old(Sent(s.trace.events, s.side)) + message[..]
  {
    ghost var start, stream := s.trace.events, Stream(s.pending);
    ghost var pieces;
    written, pieces := s.WriteAll(message, message.Length);
    PutsSent(start, s.side, pieces);
    assert message[..][..message.Length] == message[..];
    if !written {
      return false, None;
    }
    var response := new Byte[2];
    var ok := s.ReadAll(response, 2);
    if !ok {
      return true, None;
    }
    assert response[..][..2][0] == stream[..2][0] && response[..][..2][1] == stream[..2][1];
    status := Some((response[0], response[1]));
  }

  /** open_socks, on a connected socket. */
  method OpenSocks(s: Socket) returns (ok: bool)
    modifies s`pending, s`room, s.trace
    ensures ok <==> Capacity(old(s.room)) >= 3 && AfterStatus(Stream(old(s.pending))).Some?
    ensures ok ==> AfterStatus(Stream(old(s.pending))) == Some(Stream(s.pending))
    ensures ok ==> Capacity(s.room) + 3 == Capacity(old(s.room))
    ensures Sent(s.trace.events, s.side) <= old(Sent(s.trace.events, s.side)) + GREETING
    ensures ok ==> Sent(s.trace.events, s.side) == old(Sent(s.trace.events, s.side)) + [5, 1, 0]
  {
    var greeting := new Byte[] [5, 1, 0];
    assert greeting[..] == GREETING;
    var written, response := Exchange(s, greeting);
    ok := response.Some? && response.value.0 == 5 && response.value.1 == 0;
  }

  method MakeRequest(addr: Octets, port: PortBytes) returns (request: array<Byte>)
    ensures fresh(request) && request[..] == Request(addr, port) && request.Length == 10
  {
    request := new Byte[10](i => if i == 0 then 5 else if i == 1 || i == 3 then 1 else 0);
    forall i | 0 <= i < 4 {
      request[4 + i] := addr[i];
    }
    forall i | 0 <= i < 2 {
      request[8 + i] := port[i];
    }
  }

  /** connect_socks: succeeds exactly on the streams that HandshakeIsRfc1928 describes, whatever
      the pieces, and leaves the stream at the first payload byte. */
  method ConnectSocks(s: Socket, addr: Octets, port: PortBytes) returns (ok: bool)
    modifies s`pending, s`room, s.trace
    ensures ok <==> Capacity(old(s.room)) >= 13 && AfterHandshake(Stream(old(s.pending))).Some?
    ensures ok ==> AfterHandshake(Stream(old(s.pending))) == Some(Stream(s.pending))
    ensures Sent(s.trace.events, s.side) <= old(Sent(s.trace.events, s.side)) + GREETING + Request(addr, port)
    ensures ok ==> Sent(s.trace.events, s.side) == old(Sent(s.trace.events, s.side)) + GREETING + Request(addr, port)
    ensures ok ==>
      Sent(s.trace.events, s.side)
        == old(Sent(s.trace.events, s.side)) + [5, 1, 0]
           + [5, 1, 0, 1, addr[0], addr[1], addr[2], addr[3], port[0], port[1]]
  {
    RequestBytes(addr, port);
    ok := OpenSocks(s);
    if !ok {
      return;
    }
    var request := MakeRequest(addr, port);
    var written, response := Exchange(s, request);
    if response.None? || response.value.0 != 5 || response.value.1 != 0 {
      return false;
    }
    ok := DrainBind(s);
  }

  // ---- the diagnosis ----

  /** Why diagnostic_socks_connect gives up, with the byte it reports. */
  datatype Reason =
    | NoError | SocksIo
    | SocksVersion(detail: Byte) | SocksAuth(detail: Byte) | ConnectRejected(detail: Byte)

  function DiagnoseReply(stream: seq<Byte>, room: int): Reason {
    if room < 10 || |stream| < 2 then SocksIo
    else if stream[0] != 5 then SocksVersion(stream[0])
    else if stream[1] != 0 then ConnectRejected(stream[1])
    else if AfterBind(stream[2..]).None? then SocksIo
    else NoError
  }

  function DiagnoseSelection(stream: seq<Byte>, room: int): Reason {
    if room < 3 || |stream| < 2 then SocksIo
    else if stream[0] != 5 then SocksVersion(stream[0])
    else if stream[1] != 0 then SocksAuth(stream[1])
    else NoError
  }

  /** The diagnosis as a function of the byte stream and of how much can be sent. */
  function Diagnose(stream: seq<Byte>, room: nat): Reason {
    var selection := DiagnoseSelection(stream, room);
    if selection.NoError? then DiagnoseReply(stream[2..], room - 3) else selection
  }

  /** diagnostic_socks_handshake. */
  method DiagnosticHandshake(s: Socket) returns (r: Reason)
    modifies s`pending, s`room, s.trace
    ensures r == DiagnoseSelection(Stream(old(s.pending)), Capacity(old(s.room)))
    ensures r.NoError? ==>
      Stream(s.pending) == Stream(old(s.pending))[2..] && Capacity(s.room) + 3 == Capacity(old(s.room))
    ensures r.NoError? ==> Sent(s.trace.events, s.side) == old(Sent(s.trace.events, s.side)) + [5, 1, 0]
  {
    var greeting := new Byte[] [5, 1, 0];
    var written, response := Exchange(s, greeting);
    if response.None? {
      return SocksIo;
    }
    if response.value.0 != 5 {
      return SocksVersion(response.value.0);
    }
    if response.value.1 != 0 {
      return SocksAuth(response.value.1);
    }
    return NoError;
  }

  /** diagnostic_socks_connect, on a connected socket and without cancellation. */
  method DiagnosticConnect(s: Socket, addr: Octets, port: PortBytes) returns (r: Reason)
    modifies s`pending, s`room, s.trace
    ensures r == Diagnose(Stream(old(s.pending)), Capacity(old(s.room)))
    ensures r.NoError? ==>
      Sent(s.trace.events, s.side)
        == old(Sent(s.trace.events, s.side)) + [5, 1, 0]
           + [5, 1, 0, 1, addr[0], addr[1], addr[2], addr[3], port[0], port[1]]
  {
    r := DiagnosticHandshake(s);
    if !r.NoError? {
      return;
    }
    RequestBytes(addr, port);
    var request := MakeRequest(addr, port);
    var written, response := Exchange(s, request);
    if response.None? {
      return SocksIo;
    }
    if response.value.0 != 5 {
      return SocksVersion(response.value.0);
    }
    if response.value.1 != 0 {
      return ConnectRejected(response.value.1);
    }
    var drained := DrainBind(s);
    if !drained {
      return SocksIo;
    }
    return NoError;
  }

  /** The diagnosis agrees with the forwarder: it finds no error exactly when ConnectSocks
      succeeds on the same stream. */
  lemma DiagnosisAgrees(stream: seq<Byte>, room: nat)
    ensures Diagnose(stream, room).NoError? <==> room >= 13 && AfterHandshake(stream).Some?
  {
  }

  /** The bytes that both status replies must have. */
  const EXPECTED: seq<Byte> := [5, 0, 5, 0]

  /** Byte k is the first that deviates, and the client gets to look at it: its message was
      sent and both bytes of the status arrived. */
  predicate FirstViolated(stream: seq<Byte>, room: nat, k: nat) {
    && k < 4 && |stream| >= (if k < 2 then 2 else 4) && room >= (if k < 2 then 3 else 13)
    && stream[..k] == EXPECTED[..k] && stream[k] != EXPECTED[k]
  }

  function ReasonAt(k: nat, b: Byte): Reason
    requires k < 4
  {
    if k == 1 then SocksAuth(b) else if k == 3 then ConnectRejected(b) else SocksVersion(b)
  }

  lemma DiagnosisNamesViolation(stream: seq<Byte>, room: nat, k: nat)
    requires FirstViolated(stream, room, k)
    ensures Diagnose(stream, room) == ReasonAt(k, stream[k])
  {
  }

  /** Any other failure is an I/O end or a refusal to drain, both reported as SocksIo. */
  lemma OtherwiseNothingNamed(stream: seq<Byte>, room: nat)
    requires forall k :: 0 <= k < 4 ==> !FirstViolated(stream, room, k)
    ensures Diagnose(stream, room) in {NoError, SocksIo}
  {
    assert !FirstViolated(stream, room, 0) && !FirstViolated(stream, room, 1);
    assert !FirstViolated(stream, room, 2) && !FirstViolated(stream, room, 3);
  }

  /** A reserved byte that is not zero stops the drain, and the diagnosis calls it an I/O error. */
  lemma BadReservedByteIsSocksIo(b: Byte, rest: seq<Byte>, room: nat)
    requires b != 0
    ensures Diagnose([5, 0, 5, 0, b] + rest, room) == SocksIo
    ensures AfterHandshake([5, 0, 5, 0, b] + rest).None?
  {
    var stream := [5, 0, 5, 0, b] + rest;
    assert stream == [5, 0, 5, 0] + ([b] + rest);
    TwoStatuses([b] + rest);
    DiagnosisAgrees(stream, room);
    assert forall k :: 0 <= k < 4 ==> stream[k] == EXPECTED[k];
    OtherwiseNothingNamed(stream, room);
  }

  /** So does an address type that RFC 1928 does not know. */
  lemma BadAddressTypeIsSocksIo(kind: Byte, rest: seq<Byte>, room: nat)
    requires kind != 1 && kind != 3 && kind != 4
    ensures Diagnose([5, 0, 5, 0, 0, kind] + rest, room) == SocksIo
    ensures AfterHandshake([5, 0, 5, 0, 0, kind] + rest).None?
  {
    var stream := [5, 0, 5, 0, 0, kind] + rest;
    assert stream == [5, 0, 5, 0] + ([0, kind] + rest);
    TwoStatuses([0, kind] + rest);
    DiagnosisAgrees(stream, room);
    assert forall k :: 0 <= k < 4 ==> stream[k] == EXPECTED[k];
    OtherwiseNothingNamed(stream, room);
  }
}
