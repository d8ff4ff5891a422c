/** Connected stream sockets as recv and send present them: bytes arrive and leave in pieces
    of any size, and calls are interrupted, time out and fail at any point.  Every byte in
    and out and every half-close is recorded in a trace that sockets can share. */
module Sockets {
  type Byte = b: int | 0 <= b < 256

  type Chunk = s: seq<Byte> | |s| > 0 witness [0]

  /** What a recv meets; past the last arrival it meets the end of the stream. */
  datatype Arrival = Data(bytes: Chunk) | Interrupted | TimedOut | Broken

  /** What a send meets: room for some bytes, EINTR, or an error; past the last, an error. */
  datatype Departure = Room(bytes: nat) | SendInterrupted | SendBroken

  datatype Side = Client | Upstream

  /** One entry of the trace. */
  datatype Io = Got(side: Side, bytes: seq<Byte>) | Put(side: Side, bytes: seq<Byte>) | Shut(side: Side)

  function Peer(side: Side): Side {
    if side.Client? then Upstream else Client
  }

  // ---- what a script of arrivals and departures amounts to ----

  /** The bytes that arrive before the end, a timeout or an error. */
  function Stream(pending: seq<Arrival>): seq<Byte> {
    if pending == [] then []
    else
      match pending[0]
      case Data(bytes) => bytes + Stream(pending[1..])
      case Interrupted => Stream(pending[1..])
      case TimedOut => []
      case Broken => []
  }

  /** The bytes that arrive before the end or an error, for a reader that retries timeouts. */
  function Patient(pending: seq<Arrival>): seq<Byte> {
    if pending == [] then []
    else
      match pending[0]
      case Data(bytes) => bytes + Patient(pending[1..])
      case Interrupted => Patient(pending[1..])
      case TimedOut => Patient(pending[1..])
      case Broken => []
  }

  /** What is left of the script when a recv takes `n` bytes of its first arrival. */
  function Take(pending: seq<Arrival>, n: nat): seq<Arrival>
    requires pending != [] && pending[0].Data? && n <= |pending[0].bytes|
  {
    if n == |pending[0].bytes| then pending[1..] else [Data(pending[0].bytes[n..])] + pending[1..]
  }

  lemma TakeKeepsStream(pending: seq<Arrival>, n: nat)
    requires pending != [] && pending[0].Data? && n <= |pending[0].bytes|
    ensures Stream(pending) == pending[0].bytes[..n] + Stream(Take(pending, n))
    ensures Patient(pending) == pending[0].bytes[..n] + Patient(Take(pending, n))
  {
  }

  /** The bytes that can be sent before the first error. */
  function Capacity(room: seq<Departure>): nat {
    if room == [] then 0
    else
      match room[0]
      case Room(n) => if n == 0 then 0 else n + Capacity(room[1..])
      case SendInterrupted => Capacity(room[1..])
      case SendBroken => 0
  }

  // ---- what a trace says ----

  /** All bytes received from a side. */
  function Received(events: seq<Io>, side: Side): seq<Byte> {
    if events == [] then []
    else
      var e := events[|events| - 1];
      Received(events[..|events| - 1], side) + if e.Got? && e.side == side then e.bytes else []
  }

  /** All bytes sent to a side. */
  function Sent(events: seq<Io>, side: Side): seq<Byte> {
    if events == [] then []
    else
      var e := events[|events| - 1];
      Sent(events[..|events| - 1], side) + if e.Put? && e.side == side then e.bytes else []
  }

  /** The side has been half-closed. */
  predicate IsShut(events: seq<Io>, side: Side) {
    events != [] && (events[|events| - 1] == Shut(side) || IsShut(events[..|events| - 1], side))
  }

  lemma TraceGrows(events: seq<Io>, e: Io, side: Side)
    ensures Received(events + [e], side) == Received(events, side) + if e.Got? && e.side == side then e.bytes else []
    ensures Sent(events + [e], side) == Sent(events, side) + if e.Put? && e.side == side then e.bytes else []
    ensures IsShut(events + [e], side) <==> e == Shut(side) || IsShut(events, side)
  {
  }

  /** The trace of sending pieces one after the other. */
  function Puts(side: Side, pieces: seq<seq<Byte>>): seq<Io> {
    if pieces == [] then [] else Puts(side, pieces[..|pieces| - 1]) + [Put(side, pieces[|pieces| - 1])]
  }

  function Concat(pieces: seq<seq<Byte>>): seq<Byte> {
    if pieces == [] then [] else Concat(pieces[..|pieces| - 1]) + pieces[|pieces| - 1]
  }

  lemma PutsSnoc(events: seq<Io>, side: Side, pieces: seq<seq<Byte>>, last: seq<Byte>)
    ensures events + Puts(side, pieces + [last]) == (events + Puts(side, pieces)) + [Put(side, last)]
    ensures Concat(pieces + [last]) == Concat(pieces) + last
  {
  }

  lemma OnePieceMore(side: Side, start: seq<Io>, pieces: seq<seq<Byte>>, content: seq<Byte>, i: nat, j: nat)
    requires i <= j <= |content| && Concat(pieces) == content[..i]
    ensures start + Puts(side, pieces + [content[i..j]]) == (start + Puts(side, pieces)) + [Put(side, content[i..j])]
    ensures Concat(pieces + [content[i..j]]) == content[..j]
  {
  }

  /** `was` with `bytes` written over it from `offset` on. */
  function Overwrite(was: seq<Byte>, offset: nat, bytes: seq<Byte>): (r: seq<Byte>)
    requires offset + |bytes| <= |was|
    ensures |r| == |was|
  {
    was[..offset] + bytes + was[offset + |bytes|..]
  }

  /** How far a read into `was` has come when it has taken `taken`: what the buffer holds, what
      is still to come of the stream and what the side has delivered in all. */
  datatype Reading = Reading(buffer: seq<Byte>, coming: seq<Byte>, delivered: seq<Byte>)

  predicate Taken(start: Reading, now: Reading, taken: seq<Byte>) {
    && |taken| <= |start.buffer| && now.buffer == Overwrite(start.buffer, 0, taken)
    && start.coming == taken + now.coming
    && now.delivered == start.delivered + taken
  }

  lemma TakenNothing(start: Reading)
    ensures Taken(start, start, [])
  {
  }

  lemma TakenMore(start: Reading, now: Reading, next: Reading, taken: seq<Byte>, got: seq<Byte>)
    requires Taken(start, now, taken) && |taken| + |got| <= |start.buffer|
    requires next.buffer == Overwrite(now.buffer, |taken|, got)
    requires now.coming == got + next.coming && next.delivered == now.delivered + got
    ensures Taken(start, next, taken + got)
  {
  }

  lemma TakenShort(start: Reading, now: Reading, taken: seq<Byte>, length: nat)
    requires Taken(start, now, taken) && now.coming == [] && |taken| < length <= |start.buffer|
    ensures |start.coming| < length && now.buffer[length..] == start.buffer[length..]
  {
  }

  lemma TakenAll(start: Reading, now: Reading, taken: seq<Byte>)
    requires Taken(start, now, taken)
    ensures |taken| <= |start.coming| && taken == start.coming[..|taken|] && now.coming == start.coming[|taken|..]
    ensures now.buffer[..|taken|] == taken && now.buffer[|taken|..] == start.buffer[|taken|..]
  {
  }

  class Trace {
    ghost var events: seq<Io>

    constructor ()
      ensures events == []
    {
      events := [];
    }
  }

  datatype RecvResult = Bytes(count: nat) | Eof | Eintr | Eagain | Error

  datatype SendResult = Accepted(count: nat) | Retry | Failed

  /** A recv consumes exactly what the script has next. */
  predicate Meets(pending: seq<Arrival>, size: nat, r: RecvResult, got: seq<Byte>, after: seq<Arrival>) {
    if pending == [] then r.Eof? && after == []
    else
      match pending[0]
      case Data(bytes) =>
        r == Bytes(if |bytes| <= size then |bytes| else size) && got == bytes[..r.count]
          && after == Take(pending, r.count)
      case Interrupted => r.Eintr? && after == pending[1..]
      case TimedOut => r.Eagain? && after == pending[1..]
      case Broken => r.Error? && after == pending[1..]
  }

  class Socket {
    var pending: seq<Arrival>
    var room: seq<Departure>
    ghost const side: Side
    ghost const trace: Trace

    constructor (pending: seq<Arrival>, room: seq<Departure>, ghost side: Side, ghost trace: Trace)
      ensures this.pending == pending && this.room == room && this.side == side && this.trace == trace
    {
      this.pending, this.room, this.side, this.trace := pending, room, side, trace;
    }

    /** recv of at most `size` bytes to `buffer` at `offset`. */
    method Recv(buffer: array<Byte>, offset: nat, size: nat) returns (r: RecvResult, ghost got: seq<Byte>)
      requires 0 < size && offset + size <= buffer.Length
      modifies this`pending, buffer, trace
      ensures r.Bytes? ==>
        && 1 <= r.count <= size && |got| == r.count
        && buffer[..] == Overwrite(old(buffer[..]), offset, got)
        && trace.events == old(trace.events) + [Got(side, got)]
        && Stream(old(pending)) == got + Stream(pending)
        && Patient(old(pending)) == got + Patient(pending)
      ensures !r.Bytes? ==> buffer[..] == old(buffer[..]) && trace.events == old(trace.events)
      ensures r.Eintr? ==> Stream(pending) == Stream(old(pending)) && |pending| < |old(pending)|
      ensures r.Eintr? || r.Eagain? ==> Patient(pending) == Patient(old(pending))
      ensures r.Eof? || r.Eagain? || r.Error? ==> Stream(old(pending)) == []
      ensures r.Eof? || r.Error? ==> Patient(old(pending)) == []
      ensures Meets(old(pending), size, r, got, pending)
    {
      got := [];
      if pending == [] {
        return Eof, got;
      }
      match pending[0] {
        case Data(bytes) =>
          var n := if |bytes| <= size then |bytes| else size;
          forall i | 0 <= i < n {
            buffer[offset + i] := bytes[i];
          }
          got := bytes[..n];
          trace.events := trace.events + [Got(side, got)];
          TakeKeepsStream(pending, n);
          pending := Take(pending, n);
          r := Bytes(n);
        case Interrupted => pending := pending[1..]; r := Eintr;
        case TimedOut => pending := pending[1..]; r := Eagain;
        case Broken => pending := pending[1..]; r := Error;
      }
    }

    /** send of the bytes of `buffer` from `offset` up to `end`. */
    method Send(buffer: array<Byte>, offset: nat, end: nat) returns (r: SendResult)
      requires offset < end <= buffer.Length
      modifies this`room, trace
      ensures r.Accepted? ==>
        && r.count <= end - offset
        && trace.events == old(trace.events) + [Put(side, buffer[..][offset..offset + r.count])]
        && (r.count > 0 ==> Capacity(old(room)) == r.count + Capacity(room))
      ensures !r.Accepted? ==> trace.events == old(trace.events)
      ensures r.Retry? ==> Capacity(room) == Capacity(old(room)) && |room| < |old(room)|
      ensures r.Failed? || r == Accepted(0) ==> Capacity(old(room)) == 0
    {
      if room == [] {
        return Failed;
      }
      match room[0] {
        case Room(k) =>
          var n := if k <= end - offset then k else end - offset;
          trace.events := trace.events + [Put(side, buffer[..][offset..offset + n])];
          ghost var rest := room[1..];
          room := if n < k then [Room(k - n)] + room[1..] else room[1..];
          assert n < k ==> room[1..] == rest;
          r := Accepted(n);
        case SendInterrupted => room := room[1..]; r := Retry;
        case SendBroken => room := room[1..]; r := Failed;
      }
    }

    ghost function Progress(buffer: array<Byte>): Reading
      reads this, trace, buffer
    {
      Reading(buffer[..], Stream(pending), Received(trace.events, side))
    }

    /** read_all: fills `buffer` up to `length` or fails. */
    method ReadAll(buffer: array<Byte>, length: nat) returns (ok: bool)
      requires length <= buffer.Length
      modifies this`pending, buffer, trace
      ensures ok <==> length <= |Stream(old(pending))|
      ensures buffer[..][length..] == old(buffer[..])[length..]
      ensures ok ==>
        && buffer[..][..length] == Stream(old(pending))[..length]
        && Stream(pending) == Stream(old(pending))[length..]
        && Received(trace.events, side) == old(Received(trace.events, side)) + Stream(old(pending))[..length]
      ensures Sent(trace.events, side) == old(Sent(trace.events, side))
    {
      ghost var start, sent := Progress(buffer), Sent(trace.events, side);
      ghost var taken: seq<Byte> := [];
      TakenNothing(start);
      var cursor := 0;
      while cursor < length
        invariant cursor == |taken| <= length
        invariant Taken(start, Progress(buffer), taken)
        invariant Sent(trace.events, side) == sent
        decreases length - cursor, |pending|
      {
        ghost var now, events := Progress(buffer), trace.events;
        var r, got := Recv(buffer, cursor, length - cursor);
        if r.Eintr? {
          continue;
        }
        if !r.Bytes? {
          TakenShort(start, now, taken, length);
          return false;
        }
        TraceGrows(events, Got(side, got), side);
        TakenMore(start, now, Progress(buffer), taken, got);
        taken := taken + got;
        cursor := cursor + r.count;
      }
      TakenAll(start, Progress(buffer), taken);
      return true;
    }

    /** write_all: sends the first `length` bytes of `buffer` or fails; `pieces` are what the
        single sends took. */
    method WriteAll(buffer: array<Byte>, length: nat) returns (ok: bool, ghost pieces: seq<seq<Byte>>)
      requires length <= buffer.Length
      modifies this`room, trace
      ensures ok <==> length <= Capacity(old(room))
      ensures ok ==> Capacity(old(room)) == length + Capacity(room)
      ensures trace.events == old(trace.events) + Puts(side, pieces)
      ensures Concat(pieces) <= buffer[..][..length]
      ensures ok ==> Concat(pieces) == buffer[..][..length]
    {
      ghost var start, content := trace.events, buffer[..];
      var cursor := 0;
      pieces := [];
      while cursor < length
        invariant 0 <= cursor <= length
        invariant buffer[..] == content
        invariant Capacity(old(room)) == cursor + Capacity(room)
        invariant trace.events == start + Puts(side, pieces)
        invariant Concat(pieces) == content[..cursor]
        decreases length - cursor, |room|
      {
        var r := Send(buffer, cursor, length);
        if r.Retry? {
          continue;
        }
        if r.Accepted? {
          OnePieceMore(side, start, pieces, content, cursor, cursor + r.count);
          pieces := pieces + [content[cursor..cursor + r.count]];
        }
        if !r.Accepted? || r.count == 0 {
          assert content[..cursor] <= content[..length];
          return false, pieces;
        }
        cursor := cursor + r.count;
      }
      return true, pieces;
    }

    /** shutdown(SHUT_WR). */
    method Shutdown()
      modifies trace
      ensures trace.events == old(trace.events) + [Shut(side)]
    {
      trace.events := trace.events + [Shut(side)];
    }
  }
}
