/** The byte relay of src/proxy.c between a client and the upstream proxy. */
module Relay {
  import opened Sockets
  import opened StatsTable

  const BUFFER_SIZE: nat := 16384

  /** What an iteration of the loop meets: a stop signal, or a poll that reports descriptors,
      is interrupted, or ends the relay by timing out or failing. */
  datatype Round = Stop | PollEintr | PollEnds | Ready(client: bool, upstream: bool)

  datatype Ending = Stopped | Idle | WriteFailed | BothClosed

  // ---- what the relay must do with the bytes ----

  /** One direction: the bytes received from the source, those sent on to its peer, and
      whether the peer has been half-closed. */
  datatype Way = Way(received: seq<Byte>, sent: seq<Byte>, shut: bool)

  function WayOf(events: seq<Io>, source: Side): Way {
    Way(Received(events, source), Sent(events, Peer(source)), IsShut(events, Peer(source)))
  }

  /** What was sent on is a prefix of what was received, and the peer is half-closed only when
      it has been sent everything. */
  predicate Faithful(w: Way) {
    w.sent <= w.received && (w.shut ==> w.sent == w.received)
  }

  /** Both directions, at every moment. */
  predicate AlwaysFaithful(events: seq<Io>) {
    events == [] ||
    (AlwaysFaithful(events[..|events| - 1]) && Faithful(WayOf(events, Client)) && Faithful(WayOf(events, Upstream)))
  }

  /** AlwaysFaithful speaks of every moment of a run. */
  lemma {:induction false} EveryMoment(events: seq<Io>, k: nat, source: Side)
    requires AlwaysFaithful(events) && k <= |events|
    ensures Faithful(WayOf(events[..k], source))
    decreases |events|
  {
    if k == |events| {
      assert events[..k] == events;
      assert source in {Client, Upstream};
    } else {
      assert events[..|events| - 1][..k] == events[..k];
      EveryMoment(events[..|events| - 1], k, source);
    }
  }

  function Extend(w: Way, source: Side, e: Io): Way {
    match e
    case Got(side, bytes) => if side == source then w.(received := w.received + bytes) else w
    case Put(side, bytes) => if side == Peer(source) then w.(sent := w.sent + bytes) else w
    case Shut(side) => if side == Peer(source) then w.(shut := true) else w
  }

  lemma WayGrows(events: seq<Io>, e: Io, source: Side)
    ensures WayOf(events + [e], source) == Extend(WayOf(events, source), source, e)
  {
    TraceGrows(events, e, source);
    TraceGrows(events, e, Peer(source));
    match e
    case Got(_, _) =>
    case Put(_, _) =>
    case Shut(_) =>
  }

  lemma FaithfulNow(events: seq<Io>, source: Side)
    requires AlwaysFaithful(events)
    ensures Faithful(WayOf(events, source))
  {
  }

  /** One more event of one direction. */
  lemma OneMore(events: seq<Io>, source: Side, e: Io)
    requires AlwaysFaithful(events)
    requires e.side == if e.Got? then source else Peer(source)
    requires Faithful(Extend(WayOf(events, source), source, e))
    ensures AlwaysFaithful(events + [e])
    ensures WayOf(events + [e], source) == Extend(WayOf(events, source), source, e)
    ensures WayOf(events + [e], Peer(source)) == WayOf(events, Peer(source))
  {
    WayGrows(events, e, source);
    WayGrows(events, e, Peer(source));
    FaithfulNow(events, Peer(source));
    assert (events + [e])[..|events|] == events;
  }

  function Resent(w: Way, bytes: seq<Byte>): Way {
    w.(sent := w.sent + bytes)
  }

  /** Sending on received bytes, piece by piece. */
  lemma {:induction false} PiecesAreFaithful(events: seq<Io>, source: Side, pieces: seq<seq<Byte>>)
    requires AlwaysFaithful(events) && !WayOf(events, source).shut
    requires Faithful(Resent(WayOf(events, source), Concat(pieces)))
    ensures var now := events + Puts(Peer(source), pieces);
      && AlwaysFaithful(now)
      && WayOf(now, source) == Resent(WayOf(events, source), Concat(pieces))
      && WayOf(now, Peer(source)) == WayOf(events, Peer(source))
    decreases |pieces|, 0
  {
    if pieces == [] {
      assert events + Puts(Peer(source), pieces) == events;
    } else {
      assert pieces[..|pieces| - 1] + [pieces[|pieces| - 1]] == pieces;
      LastPieceIsFaithful(events, source, pieces[..|pieces| - 1], pieces[|pieces| - 1]);
    }
  }

  lemma LastPieceIsFaithful(events: seq<Io>, source: Side, front: seq<seq<Byte>>, last: seq<Byte>)
    requires AlwaysFaithful(events) && !WayOf(events, source).shut
    requires Faithful(Resent(WayOf(events, source), Concat(front + [last])))
    ensures var now := events + Puts(Peer(source), front + [last]);
      && AlwaysFaithful(now)
      && WayOf(now, source) == Resent(WayOf(events, source), Concat(front + [last]))
      && WayOf(now, Peer(source)) == WayOf(events, Peer(source))
    decreases |front|, 1
  {
    var w := WayOf(events, source);
    PutsSnoc(events, Peer(source), front, last);
    ResentTwice(w, Concat(front), last);
    PiecesAreFaithful(events, source, front);
    OneMore(events + Puts(Peer(source), front), source, Put(Peer(source), last));
  }

  lemma ResentTwice(w: Way, a: seq<Byte>, b: seq<Byte>)
    requires Faithful(Resent(w, a + b)) && !w.shut
    ensures Faithful(Resent(w, a)) && Resent(Resent(w, a), b) == Resent(w, a + b)
  {
  }

  // ---- accounting ----

  predicate Owns(slots: seq<Slot>, slot: int, self: int) {
    0 <= slot < |slots| && slots[slot].active && slots[slot].pid == self
  }

  /** What counting `up` and `down` on a slot makes of the table. */
  function Count(slots: seq<Slot>, slot: int, self: int, up: nat, down: nat): seq<Slot> {
    if Owns(slots, slot, self)
    then slots[slot := slots[slot].(up := slots[slot].up + up, down := slots[slot].down + down)]
    else slots
  }

  lemma CountTwice(slots: seq<Slot>, slot: int, self: int, up: nat, down: nat, up2: nat, down2: nat)
    ensures Count(Count(slots, slot, self, up, down), slot, self, up2, down2)
         == Count(slots, slot, self, up + up2, down + down2)
    ensures Owns(Count(slots, slot, self, up, down), slot, self) == Owns(slots, slot, self)
  {
  }

  // ---- the relay ----

  /** What one turn of a descriptor did. */
  datatype Turn = Nothing | Moved(count: nat) | Closed | Broke

  lemma ReceivedThenWritten(run: seq<Io>, source: Side, got: seq<Byte>, pieces: seq<seq<Byte>>)
    requires AlwaysFaithful(run) && Open(WayOf(run, source)) && Concat(pieces) <= got
    ensures var now := run + [Got(source, got)] + Puts(Peer(source), pieces);
      var w := WayOf(run, source);
      && AlwaysFaithful(now)
      && WayOf(now, source) == Way(w.received + got, w.sent + Concat(pieces), false)
      && WayOf(now, Peer(source)) == WayOf(run, Peer(source))
  {
    OneMore(run, source, Got(source, got));
    PiecesAreFaithful(run + [Got(source, got)], source, pieces);
  }

  /** The direction is up to date and its target open. */
  predicate Open(w: Way) {
    w.sent == w.received && !w.shut
  }

  /** What a turn does to its direction, given what was still to come before and after. */
  predicate TurnTaken(w: Way, coming: seq<Byte>, t: Turn, v: Way, left: seq<Byte>) {
    match t
    case Nothing => v == w && left == coming
    case Moved(n) => Open(v) && v.received + left == w.received + coming && |v.sent| == |w.sent| + n
    case Closed => v == w.(shut := true) && coming == []
    case Broke =>
      && v.received + left == w.received + coming && !v.shut && v.sent <= v.received
      && |w.sent| <= |v.sent| && |v.received| <= |w.received| + BUFFER_SIZE
  }

  lemma WrittenTurn(run: seq<Io>, source: Side, coming: seq<Byte>, left: seq<Byte>,
                    got: seq<Byte>, pieces: seq<seq<Byte>>, ok: bool)
    requires AlwaysFaithful(run) && Open(WayOf(run, source))
    requires coming == got + left && |got| <= BUFFER_SIZE && Concat(pieces) <= got && (ok ==> Concat(pieces) == got)
    ensures var now := run + [Got(source, got)] + Puts(Peer(source), pieces);
      && AlwaysFaithful(now) && WayOf(now, Peer(source)) == WayOf(run, Peer(source))
      && TurnTaken(WayOf(run, source), coming, if ok then Moved(|got|) else Broke, WayOf(now, source), left)
  {
    ReceivedThenWritten(run, source, got, pieces);
    WrittenWay(WayOf(run, source), coming, left, got, Concat(pieces), ok);
  }

  lemma WrittenWay(w: Way, coming: seq<Byte>, left: seq<Byte>, got: seq<Byte>, put: seq<Byte>, ok: bool)
    requires Open(w) && coming == got + left && |got| <= BUFFER_SIZE && put <= got && (ok ==> put == got)
    ensures TurnTaken(w, coming, if ok then Moved(|got|) else Broke, Way(w.received + got, w.sent + put, false), left)
  {
  }

  lemma TraceJoins(start: seq<Io>, run: seq<Io>, e: Io, more: seq<Io>)
    ensures ((start + run) + [e]) + more == start + ((run + [e]) + more)
  {
  }

  lemma TraceJoinsOne(start: seq<Io>, run: seq<Io>, e: Io)
    ensures (start + run) + [e] == start + (run + [e])
  {
  }

  lemma OverwriteStart(was: seq<Byte>, bytes: seq<Byte>)
    requires |bytes| <= |was|
    ensures Overwrite(was, 0, bytes)[..|bytes|] == bytes
  {
  }

  // ---- how a direction gets on ----

  /** A bound on the turns that a source can still take before it meets its end. */
  function Work(pending: seq<Arrival>): nat {
    if pending == [] then 0
    else (if pending[0].Data? then |pending[0].bytes| else 1) + Work(pending[1..])
  }

  /** The bytes that the target can still take, over those that the source has to deliver. */
  ghost function Slack(source: Socket, target: Socket): int
    reads source`pending, target`room
  {
    Capacity(target.room) - |Patient(source.pending)|
  }

  /** A turn that does not end its direction gets on and keeps the slack; a write fails only when
      there is less room than bytes to come. */
  predicate Paced(t: Turn, work: nat, slack: int, workAfter: nat, slackAfter: int) {
    match t
    case Nothing => workAfter < work && slackAfter == slack
    case Moved(_) => workAfter < work && slackAfter == slack
    case Closed => true
    case Broke => slack < 0
  }

  lemma WorkDrops(pending: seq<Arrival>, size: nat, r: RecvResult, got: seq<Byte>, after: seq<Arrival>)
    requires 0 < size && Meets(pending, size, r, got, after) && !r.Eof? && !r.Error?
    ensures Work(after) < Work(pending)
  {
    if r.Bytes? && r.count < |pending[0].bytes| {
      assert after[1..] == pending[1..];
    }
  }

  /** The write_all of a turn that has just received the first `count` bytes of the buffer. */
  method PassOn(target: Socket, buffer: array<Byte>, count: nat,
                ghost start: seq<Io>, ghost run: seq<Io>,
                ghost got: seq<Byte>, ghost coming: seq<Byte>, ghost left: seq<Byte>)
    returns (t: Turn, ghost now: seq<Io>)
    requires count <= buffer.Length == BUFFER_SIZE && buffer[..][..count] == got && coming == got + left
    requires AlwaysFaithful(run) && Open(WayOf(run, Peer(target.side)))
    requires target.trace.events == (start + run) + [Got(Peer(target.side), got)]
    modifies target`room, target.trace
    ensures target.trace.events == start + now && AlwaysFaithful(now)
    ensures WayOf(now, target.side) == WayOf(run, target.side)
    ensures TurnTaken(WayOf(run, Peer(target.side)), coming, t, WayOf(now, Peer(target.side)), left)
    ensures if t.Broke? then Capacity(old(target.room)) < count
            else t == Moved(count) && Capacity(old(target.room)) == count + Capacity(target.room)
  {
    var ok, pieces := target.WriteAll(buffer, count);
    TraceJoins(start, run, Got(Peer(target.side), got), Puts(target.side, pieces));
    WrittenTurn(run, Peer(target.side), coming, left, got, pieces, ok);
    now := run + [Got(Peer(target.side), got)] + Puts(target.side, pieces);
    t := if ok then Moved(count) else Broke;
  }

  lemma ClosedRun(start: seq<Io>, run: seq<Io>, side: Side) returns (now: seq<Io>)
    requires AlwaysFaithful(run) && Open(WayOf(run, Peer(side)))
    ensures (start + run) + [Shut(side)] == start + now && AlwaysFaithful(now)
    ensures WayOf(now, side) == WayOf(run, side)
    ensures WayOf(now, Peer(side)) == WayOf(run, Peer(side)).(shut := true)
  {
    now := run + [Shut(side)];
    TraceJoinsOne(start, run, Shut(side));
    OneMore(run, Peer(side), Shut(side));
  }

  /** The shutdown of a turn that has met the end of the source. */
  method HalfClose(target: Socket, ghost start: seq<Io>, ghost run: seq<Io>) returns (ghost now: seq<Io>)
    requires AlwaysFaithful(run) && Open(WayOf(run, Peer(target.side)))
    requires target.trace.events == start + run
    modifies target.trace
    ensures target.trace.events == start + now && AlwaysFaithful(now)
    ensures WayOf(now, target.side) == WayOf(run, target.side)
    ensures WayOf(now, Peer(target.side)) == WayOf(run, Peer(target.side)).(shut := true)
  {
    target.Shutdown();
    now := ClosedRun(start, run, target.side);
  }

  /** One turn of one descriptor: recv, then write_all to the other side or half-close it. */
  method Forward(source: Socket, target: Socket, buffer: array<Byte>, ghost start: seq<Io>, ghost run: seq<Io>)
    returns (t: Turn, ghost now: seq<Io>)
    requires source.trace == target.trace && source.side == Peer(target.side)
    requires buffer.Length == BUFFER_SIZE && source.trace.events == start + run
    requires AlwaysFaithful(run) && Open(WayOf(run, source.side))
    modifies source`pending, target`room, source.trace, buffer
    ensures source.trace.events == start + now && AlwaysFaithful(now)
    ensures WayOf(now, target.side) == WayOf(run, target.side)
    ensures TurnTaken(WayOf(run, source.side), Patient(old(source.pending)), t,
                      WayOf(now, source.side), Patient(source.pending))
    ensures Paced(t, Work(old(source.pending)), old(Slack(source, target)), Work(source.pending), Slack(source, target))
  {
    ghost var was, pending, coming := buffer[..], source.pending, Patient(source.pending);
    var r, got := source.Recv(buffer, 0, BUFFER_SIZE);
    if !r.Eof? && !r.Error? {
      WorkDrops(pending, BUFFER_SIZE, r, got, source.pending);
    }
    if r.Eintr? || r.Eagain? {
      return Nothing, run;
    }
    if !r.Bytes? {
      now := HalfClose(target, start, run);
      return Closed, now;
    }
    OverwriteStart(was, got);
    t, now := PassOn(target, buffer, r.count, start, run, got, coming, Patient(source.pending));
  }

  /** What holds of one direction between turns: it is up to date, its descriptor is open until
      the end of the source was met, nothing was skipped, and `counted` bytes were sent on. */
  predicate Flowing(w: Way, open: bool, all: seq<Byte>, left: seq<Byte>, counted: nat) {
    && w.sent == w.received && open == !w.shut && counted == |w.sent|
    && (if open then w.received + left == all else w.received == all)
  }

  /** The statistics table at the start of a relay. */
  datatype Books = Books(slots: seq<Slot>, totalUp: nat, totalDown: nat)

  /** Bytes were counted on the slot and on the totals, if the slot is ours, and nothing else. */
  ghost predicate Booked(stats: StatsMap, books: Books, slot: int, self: int, up: nat, down: nat)
    reads stats, stats.slots
  {
    && stats.Valid() && stats.slots[..] == Count(books.slots, slot, self, up, down)
    && (if Owns(books.slots, slot, self)
        then stats.totalUp == books.totalUp + up && stats.totalDown == books.totalDown + down
        else stats.totalUp == books.totalUp && stats.totalDown == books.totalDown)
  }

  method Book(stats: StatsMap, slot: int, self: int, up: nat, down: nat,
              ghost books: Books, ghost upBefore: nat, ghost downBefore: nat)
    requires |books.slots| == MAX_CLIENTS && Booked(stats, books, slot, self, upBefore, downBefore)
    modifies stats`totalUp, stats`totalDown, stats.slots
    ensures Booked(stats, books, slot, self, upBefore + up, downBefore + down)
  {
    CountTwice(books.slots, slot, self, upBefore, downBefore, up, down);
    ghost var before := stats.slots[..];
    stats.Add(self, slot, up, down);
    assert stats.slots[..] == Count(before, slot, self, up, down);
  }

  /** How far a relay has come: what it did, which descriptors it still polls, what it counted. */
  datatype Progress = Progress(run: seq<Io>, clientOpen: bool, upstreamOpen: bool, up: nat, down: nat)

  /** What the two sources have to deliver. */
  datatype Load = Load(fromClient: seq<Byte>, fromUpstream: seq<Byte>)

  predicate Relaying(p: Progress, all: Load, left: Load) {
    && AlwaysFaithful(p.run)
    && Flowing(WayOf(p.run, Client), p.clientOpen, all.fromClient, left.fromClient, p.up)
    && Flowing(WayOf(p.run, Upstream), p.upstreamOpen, all.fromUpstream, left.fromUpstream, p.down)
  }

  /** One direction when the relay ends.  Half-closed, it has delivered all that its source had;
      open, what it has not received is still to come.  It counted what it sent on, except that
      a write that failed may have sent part of the last buffer without counting it. */
  predicate WayEnded(w: Way, all: seq<Byte>, left: seq<Byte>, counted: nat, failed: bool) {
    && w.sent <= w.received && counted <= |w.sent| && |w.received| <= counted + BUFFER_SIZE
    && (!failed ==> w.sent == w.received && counted == |w.received|)
    && (if w.shut then w.sent == w.received == all else w.received + left == all)
  }

  /** What holds when a relay ends, whatever ended it: at most one direction failed. */
  predicate Ended(why: Ending, p: Progress, all: Load, left: Load) {
    && AlwaysFaithful(p.run)
    && (why.BothClosed? ==> IsShut(p.run, Client) && IsShut(p.run, Upstream))
    && var c, u := WayOf(p.run, Client), WayOf(p.run, Upstream);
       || (WayEnded(c, all.fromClient, left.fromClient, p.up, false)
           && WayEnded(u, all.fromUpstream, left.fromUpstream, p.down, why.WriteFailed?))
       || (WayEnded(c, all.fromClient, left.fromClient, p.up, why.WriteFailed?)
           && WayEnded(u, all.fromUpstream, left.fromUpstream, p.down, false))
  }

  /** The progress after a turn of one side. */
  function After(p: Progress, side: Side, t: Turn, now: seq<Io>): Progress {
    var n := if t.Moved? then t.count else 0;
    match side
    case Client => Progress(now, p.clientOpen && !t.Closed?, p.upstreamOpen, p.up + n, p.down)
    case Upstream => Progress(now, p.clientOpen, p.upstreamOpen && !t.Closed?, p.up, p.down + n)
  }

  lemma ClientTurn(p: Progress, all: Load, left: Load, t: Turn, now: seq<Io>, leftNow: seq<Byte>)
    requires Relaying(p, all, left) && p.clientOpen && AlwaysFaithful(now)
    requires TurnTaken(WayOf(p.run, Client), left.fromClient, t, WayOf(now, Client), leftNow)
    requires WayOf(now, Upstream) == WayOf(p.run, Upstream)
    ensures !t.Broke? ==> Relaying(After(p, Client, t, now), all, left.(fromClient := leftNow))
    ensures t.Broke? ==> Ended(WriteFailed, After(p, Client, t, now), all, left.(fromClient := leftNow))
  {
  }

  lemma UpstreamTurn(p: Progress, all: Load, left: Load, t: Turn, now: seq<Io>, leftNow: seq<Byte>)
    requires Relaying(p, all, left) && p.upstreamOpen && AlwaysFaithful(now)
    requires TurnTaken(WayOf(p.run, Upstream), left.fromUpstream, t, WayOf(now, Upstream), leftNow)
    requires WayOf(now, Client) == WayOf(p.run, Client)
    ensures !t.Broke? ==> Relaying(After(p, Upstream, t, now), all, left.(fromUpstream := leftNow))
    ensures t.Broke? ==> Ended(WriteFailed, After(p, Upstream, t, now), all, left.(fromUpstream := leftNow))
  {
  }

  lemma RelayBegins(all: Load)
    ensures Relaying(Progress([], true, true, 0, 0), all, all)
  {
  }

  /** The two ends of one relay. */
  ghost predicate Joined(client: Socket, upstream: Socket) {
    client.trace == upstream.trace && client.side == Client && upstream.side == Upstream
  }

  ghost function Left(client: Socket, upstream: Socket): Load
    reads client, upstream
  {
    Load(Patient(client.pending), Patient(upstream.pending))
  }

  /** The bookkeeping of a turn; a write that failed is not booked. */
  method BookTurn(stats: StatsMap, slot: int, self: int, side: Side, t: Turn,
                  ghost books: Books, ghost p: Progress, ghost now: seq<Io>)
    requires |books.slots| == MAX_CLIENTS && Booked(stats, books, slot, self, p.up, p.down)
    modifies stats`totalUp, stats`totalDown, stats.slots
    ensures var q := After(p, side, t, now); Booked(stats, books, slot, self, q.up, q.down)
  {
    if t.Moved? {
      if side.Client? {
        Book(stats, slot, self, t.count, 0, books, p.up, p.down);
      } else {
        Book(stats, slot, self, 0, t.count, books, p.up, p.down);
      }
    }
  }

  /** A turn of the client's descriptor and its bookkeeping. */
  method TakeClientTurn(client: Socket, upstream: Socket, buffer: array<Byte>, stats: StatsMap, slot: int, self: int,
                        ghost start: seq<Io>, ghost p: Progress, ghost all: Load, ghost books: Books)
    returns (t: Turn, ghost q: Progress)
    requires Joined(client, upstream)
    requires buffer.Length == BUFFER_SIZE && client.trace.events == start + p.run
    requires Relaying(p, all, Left(client, upstream)) && p.clientOpen
    requires |books.slots| == MAX_CLIENTS && Booked(stats, books, slot, self, p.up, p.down)
    modifies client`pending, upstream`room, client.trace, buffer, stats`totalUp, stats`totalDown, stats.slots
    ensures client.trace.events == start + q.run && q == After(p, Client, t, q.run)
    ensures if t.Broke? then Ended(WriteFailed, q, all, Left(client, upstream))
      else Relaying(q, all, Left(client, upstream))
    ensures Paced(t, Work(old(client.pending)), old(Slack(client, upstream)),
                  Work(client.pending), Slack(client, upstream))
    ensures Booked(stats, books, slot, self, q.up, q.down)
  {
    ghost var left := Left(client, upstream);
    ghost var now;
    t, now := Forward(client, upstream, buffer, start, p.run);
    ClientTurn(p, all, left, t, now, Patient(client.pending));
    q := After(p, Client, t, now);
    BookTurn(stats, slot, self, Client, t, books, p, now);
  }

  /** A turn of the upstream descriptor and its bookkeeping. */
  method TakeUpstreamTurn(client: Socket, upstream: Socket, buffer: array<Byte>, stats: StatsMap, slot: int, self: int,
                          ghost start: seq<Io>, ghost p: Progress, ghost all: Load, ghost books: Books)
    returns (t: Turn, ghost q: Progress)
    requires Joined(client, upstream)
    requires buffer.Length == BUFFER_SIZE && client.trace.events == start + p.run
    requires Relaying(p, all, Left(client, upstream)) && p.upstreamOpen
    requires |books.slots| == MAX_CLIENTS && Booked(stats, books, slot, self, p.up, p.down)
    modifies upstream`pending, client`room, client.trace, buffer, stats`totalUp, stats`totalDown, stats.slots
    ensures client.trace.events == start + q.run && q == After(p, Upstream, t, q.run)
    ensures if t.Broke? then Ended(WriteFailed, q, all, Left(client, upstream))
      else Relaying(q, all, Left(client, upstream))
    ensures Paced(t, Work(old(upstream.pending)), old(Slack(upstream, client)),
                  Work(upstream.pending), Slack(upstream, client))
    ensures Booked(stats, books, slot, self, q.up, q.down)
  {
    ghost var left := Left(client, upstream);
    ghost var now;
    t, now := Forward(upstream, client, buffer, start, p.run);
    UpstreamTurn(p, all, left, t, now, Patient(upstream.pending));
    q := After(p, Upstream, t, now);
    BookTurn(stats, slot, self, Upstream, t, books, p, now);
  }

  /** How much a direction still has to do, and its slack. */
  datatype Pace = Pace(work: nat, slack: int)

  ghost function PaceOf(source: Socket, target: Socket): Pace
    reads source`pending, target`room
  {
    Pace(Work(source.pending), Slack(source, target))
  }

  /** A direction that was not closed keeps its slack and gets on if it had a turn. */
  predicate Advanced(ready: bool, closed: bool, before: Pace, after: Pace) {
    !closed ==> after.slack == before.slack && after.work + (if ready then 1 else 0) <= before.work
  }

  /** The turns of one iteration, the client's first. */
  method TakeTurns(client: Socket, upstream: Socket, buffer: array<Byte>, stats: StatsMap, slot: int, self: int,
                   clientReady: bool, upstreamReady: bool,
                   ghost start: seq<Io>, ghost p: Progress, ghost all: Load, ghost books: Books)
    returns (broke: bool, clientClosed: bool, upstreamClosed: bool, ghost q: Progress)
    requires Joined(client, upstream) && buffer.Length == BUFFER_SIZE && client.trace.events == start + p.run
    requires Relaying(p, all, Left(client, upstream))
    requires clientReady ==> p.clientOpen
    requires upstreamReady ==> p.upstreamOpen
    requires |books.slots| == MAX_CLIENTS && Booked(stats, books, slot, self, p.up, p.down)
    modifies client`pending, client`room, upstream`pending, upstream`room, client.trace
    modifies buffer, stats`totalUp, stats`totalDown, stats.slots
    ensures client.trace.events == start + q.run
    ensures if broke then Ended(WriteFailed, q, all, Left(client, upstream))
      else Relaying(q, all, Left(client, upstream))
    ensures !broke ==>
      q.clientOpen == (p.clientOpen && !clientClosed) && q.upstreamOpen == (p.upstreamOpen && !upstreamClosed)
    ensures broke ==>
      (clientReady && old(Slack(client, upstream)) < 0) || (upstreamReady && old(Slack(upstream, client)) < 0)
    ensures !broke ==> Advanced(clientReady, clientClosed, old(PaceOf(client, upstream)), PaceOf(client, upstream))
    ensures !broke ==> Advanced(upstreamReady, upstreamClosed, old(PaceOf(upstream, client)), PaceOf(upstream, client))
    ensures Booked(stats, books, slot, self, q.up, q.down)
  {
    q, broke, clientClosed, upstreamClosed := p, false, false, false;
    if clientReady {
      var t;
      t, q := TakeClientTurn(client, upstream, buffer, stats, slot, self, start, q, all, books);
      broke, clientClosed := t.Broke?, t.Closed?;
    }
    if upstreamReady && !broke {
      var t;
      t, q := TakeUpstreamTurn(client, upstream, buffer, stats, slot, self, start, q, all, books);
      broke, upstreamClosed := t.Broke?, t.Closed?;
    }
  }

  /** How many rounds report a descriptor. */
  function ReadyRounds(rounds: seq<Round>, side: Side): nat {
    if rounds == [] then 0
    else
      var r := rounds[|rounds| - 1];
      ReadyRounds(rounds[..|rounds| - 1], side)
      + if r.Ready? && (if side.Client? then r.client else r.upstream) then 1 else 0
  }

  /** No round ends the relay from outside. */
  predicate Uninterrupted(rounds: seq<Round>) {
    rounds == [] ||
    (Uninterrupted(rounds[..|rounds| - 1]) && rounds[|rounds| - 1] != Stop && rounds[|rounds| - 1] != PollEnds)
  }

  /** What the first rounds amount to. */
  datatype Polls = Polls(uninterrupted: bool, client: nat, upstream: nat)

  function PollsOf(rounds: seq<Round>): Polls {
    Polls(Uninterrupted(rounds), ReadyRounds(rounds, Client), ReadyRounds(rounds, Upstream))
  }

  function MorePolls(polls: Polls, r: Round): Polls {
    Polls(polls.uninterrupted && r != Stop && r != PollEnds,
          polls.client + (if r.Ready? && r.client then 1 else 0),
          polls.upstream + if r.Ready? && r.upstream then 1 else 0)
  }

  lemma OneRoundMore(rounds: seq<Round>, i: nat)
    requires i < |rounds|
    ensures PollsOf(rounds[..i + 1]) == MorePolls(PollsOf(rounds[..i]), rounds[i])
  {
    assert rounds[..i + 1][..i] == rounds[..i];
  }

  lemma {:induction false} UninterruptedBefore(rounds: seq<Round>, k: nat)
    requires Uninterrupted(rounds) && k < |rounds|
    ensures rounds[k] != Stop && rounds[k] != PollEnds
    decreases |rounds|
  {
    if k < |rounds| - 1 {
      UninterruptedBefore(rounds[..|rounds| - 1], k);
    }
  }

  /** Why a relay that took `taken` rounds ended. */
  predicate EndedFor(why: Ending, rounds: seq<Round>, taken: nat) {
    && taken <= |rounds| && Uninterrupted(rounds[..taken])
    && match why
       case Stopped => taken < |rounds| && rounds[taken] == Stop
       case Idle => taken == |rounds| || rounds[taken] == PollEnds
       case WriteFailed => taken < |rounds| && rounds[taken].Ready?
       case BothClosed => true
  }

  /** A side that is still open keeps its slack and has got on by every round that reported it. */
  predicate GotOn(open: bool, now: Pace, ready: nat, start: Pace) {
    open ==> now.work + ready <= start.work && now.slack == start.slack
  }

  lemma KeepsGettingOn(open: bool, ready: bool, closed: bool, before: Pace, after: Pace,
                       rounds: nat, more: nat, start: Pace)
    requires GotOn(open, before, rounds, start) && Advanced(open && ready, closed, before, after)
    requires more == rounds + if ready then 1 else 0
    ensures GotOn(open && !closed, after, more, start)
  {
  }

  /** An iteration in which poll reported descriptors. */
  method RelayRound(client: Socket, upstream: Socket, buffer: array<Byte>, stats: StatsMap, slot: int, self: int,
                    clientWasOpen: bool, upstreamWasOpen: bool, round: Round,
                    ghost start: seq<Io>, ghost p: Progress, ghost all: Load, ghost books: Books,
                    ghost polls: Polls, ghost clientPace: Pace, ghost upstreamPace: Pace)
    returns (broke: bool, clientOpen: bool, upstreamOpen: bool, ghost q: Progress)
    requires Joined(client, upstream) && buffer.Length == BUFFER_SIZE && round.Ready?
    requires client.trace.events == start + p.run && Relaying(p, all, Left(client, upstream))
    requires p.clientOpen == clientWasOpen && p.upstreamOpen == upstreamWasOpen
    requires |books.slots| == MAX_CLIENTS && Booked(stats, books, slot, self, p.up, p.down)
    requires GotOn(clientWasOpen, PaceOf(client, upstream), polls.client, clientPace)
    requires GotOn(upstreamWasOpen, PaceOf(upstream, client), polls.upstream, upstreamPace)
    modifies client`pending, client`room, upstream`pending, upstream`room, client.trace
    modifies buffer, stats`totalUp, stats`totalDown, stats.slots
    ensures client.trace.events == start + q.run
    ensures Booked(stats, books, slot, self, q.up, q.down)
    ensures broke ==>
      Ended(WriteFailed, q, all, Left(client, upstream)) && (clientPace.slack < 0 || upstreamPace.slack < 0)
    ensures !broke ==>
      && Relaying(q, all, Left(client, upstream)) && q.clientOpen == clientOpen && q.upstreamOpen == upstreamOpen
      && GotOn(clientOpen, PaceOf(client, upstream), MorePolls(polls, round).client, clientPace)
      && GotOn(upstreamOpen, PaceOf(upstream, client), MorePolls(polls, round).upstream, upstreamPace)
  {
    ghost var c, u := PaceOf(client, upstream), PaceOf(upstream, client);
    var clientClosed, upstreamClosed;
    broke, clientClosed, upstreamClosed, q := TakeTurns(client, upstream, buffer, stats, slot, self,
      clientWasOpen && round.client, upstreamWasOpen && round.upstream, start, p, all, books);
    clientOpen, upstreamOpen := clientWasOpen && !clientClosed, upstreamWasOpen && !upstreamClosed;
    if !broke {
      KeepsGettingOn(clientWasOpen, round.client, clientClosed, c, PaceOf(client, upstream),
                     polls.client, MorePolls(polls, round).client, clientPace);
      KeepsGettingOn(upstreamWasOpen, round.upstream, upstreamClosed, u, PaceOf(upstream, client),
                     polls.upstream, MorePolls(polls, round).upstream, upstreamPace);
    }
  }

  /** The end of a relay: why it ended, after how many rounds, and how far each side got.  Only a
      lack of room makes a write fail, and a relay that ends otherwise before both sides are
      closed was told to or has run out of rounds. */
  predicate Outcome(why: Ending, run: seq<Io>, rounds: seq<Round>, taken: nat,
                    client: Pace, clientNow: Pace, upstream: Pace, upstreamNow: Pace) {
    && EndedFor(why, rounds, taken)
    && (if why.WriteFailed? then client.slack < 0 || upstream.slack < 0
        else
          && GotOn(!IsShut(run, Upstream), clientNow, ReadyRounds(rounds[..taken], Client), client)
          && GotOn(!IsShut(run, Client), upstreamNow, ReadyRounds(rounds[..taken], Upstream), upstream)
          && (why.BothClosed? <==> IsShut(run, Client) && IsShut(run, Upstream)))
  }

  /** A relay whose last write did not fail ends like this. */
  lemma RelayEnds(why: Ending, p: Progress, all: Load, left: Load, rounds: seq<Round>, taken: nat,
                  client: Pace, clientNow: Pace, upstream: Pace, upstreamNow: Pace)
    requires Relaying(p, all, left) && !why.WriteFailed? && EndedFor(why, rounds, taken)
    requires GotOn(p.clientOpen, clientNow, ReadyRounds(rounds[..taken], Client), client)
    requires GotOn(p.upstreamOpen, upstreamNow, ReadyRounds(rounds[..taken], Upstream), upstream)
    requires why.BothClosed? <==> !p.clientOpen && !p.upstreamOpen
    ensures Ended(why, p, all, left)
    ensures Outcome(why, p.run, rounds, taken, client, clientNow, upstream, upstreamNow)
  {
  }

  /** A relay closes both sides, and so delivers everything, if nothing stops it, each side is
      reported more often than it has turns to take, in whatever order and with whatever
      interruptions, and each side can take what is to come. */
  lemma SmoothRelayCloses(why: Ending, run: seq<Io>, rounds: seq<Round>, taken: nat,
                          client: Pace, clientNow: Pace, upstream: Pace, upstreamNow: Pace)
    requires Outcome(why, run, rounds, taken, client, clientNow, upstream, upstreamNow)
    requires Uninterrupted(rounds) && client.slack >= 0 && upstream.slack >= 0
    requires ReadyRounds(rounds, Client) > client.work && ReadyRounds(rounds, Upstream) > upstream.work
    ensures why.BothClosed?
  {
    assert taken == |rounds| ==> rounds[..taken] == rounds;
    if taken < |rounds| {
      UninterruptedBefore(rounds, taken);
    }
  }

  /** The relay loop.  `p` is what it did, in order, and what it counted; `taken` is how many
      rounds it went through. */
  method RunRelay(client: Socket, upstream: Socket, stats: StatsMap, slot: int, self: int, rounds: seq<Round>)
    returns (why: Ending, ghost p: Progress, taken: nat)
    requires Joined(client, upstream) && stats.Valid()
    modifies client`pending, client`room, upstream`pending, upstream`room, client.trace
    modifies stats`totalUp, stats`totalDown, stats.slots
    ensures client.trace.events == old(client.trace.events) + p.run
    ensures Ended(why, p, old(Left(client, upstream)), Left(client, upstream))
    ensures Outcome(why, p.run, rounds, taken, old(PaceOf(client, upstream)), PaceOf(client, upstream),
                    old(PaceOf(upstream, client)), PaceOf(upstream, client))
    ensures Booked(stats, Books(old(stats.slots[..]), old(stats.totalUp), old(stats.totalDown)),
                   slot, self, p.up, p.down)
  {
    ghost var start, books := client.trace.events, Books(stats.slots[..], stats.totalUp, stats.totalDown);
    ghost var all := Left(client, upstream);
    ghost var clientPace, upstreamPace := PaceOf(client, upstream), PaceOf(upstream, client);
    var buffer := new Byte[BUFFER_SIZE];
    var clientOpen, upstreamOpen := true, true;
    p, taken := Progress([], true, true, 0, 0), 0;
    RelayBegins(all);
    ghost var polls := PollsOf(rounds[..0]);
    while taken < |rounds| && rounds[taken] != Stop && rounds[taken] != PollEnds && (clientOpen || upstreamOpen)
      invariant taken <= |rounds| && polls == PollsOf(rounds[..taken]) && polls.uninterrupted
      invariant p.clientOpen == clientOpen && p.upstreamOpen == upstreamOpen
      invariant client.trace.events == start + p.run && Relaying(p, all, Left(client, upstream))
      invariant Booked(stats, books, slot, self, p.up, p.down)
      invariant GotOn(clientOpen, PaceOf(client, upstream), polls.client, clientPace)
      invariant GotOn(upstreamOpen, PaceOf(upstream, client), polls.upstream, upstreamPace)
    {
      OneRoundMore(rounds, taken);
      if rounds[taken].Ready? {
        var broke;
        broke, clientOpen, upstreamOpen, p := RelayRound(client, upstream, buffer, stats, slot, self,
          clientOpen, upstreamOpen, rounds[taken], start, p, all, books, polls, clientPace, upstreamPace);
        if broke {
          return WriteFailed, p, taken;
        }
      }
      polls, taken := MorePolls(polls, rounds[taken]), taken + 1;
    }
    why := if !clientOpen && !upstreamOpen then BothClosed
           else if taken < |rounds| && rounds[taken] == Stop then Stopped else Idle;
    RelayEnds(why, p, all, Left(client, upstream), rounds, taken,
              clientPace, PaceOf(client, upstream), upstreamPace, PaceOf(upstream, client));
  }
}
