/** `outputLoop` and `NewServerOutput` over real buffers: the loop reads every chunk into one array, so a queued
    frame is right only if its payload is a copy (internal/session/manager.go, internal/websocket/protocol.go). */
module OutputPath {
  import opened Prelude
  import opened Protocol
  import opened Results
  import Utf8
  import M = Machine

  /** What the console will deliver. */
  function Bytes(chunks: seq<M.Chunk>): seq<byte> {
    if chunks == [] then [] else chunks[0].data + Bytes(chunks[1..])
  }

  /** One return of a read into a buffer of the given size: the octets, the error, and what is left to deliver. */
  datatype OneRead = OneRead(data: seq<byte>, err: Option<M.ConsoleError>, rest: seq<M.Chunk>)

  /** At most a buffer's worth of the next chunk; its error comes with its last octet. When nothing is left, the
      console is at its end. */
  function ReadOf(chunks: seq<M.Chunk>, size: nat): OneRead {
    if chunks == [] then OneRead([], Some(M.Eof), [])
    else if |chunks[0].data| <= size then OneRead(chunks[0].data, chunks[0].err, chunks[1..])
    else OneRead(chunks[0].data[..size], None, [M.Chunk(chunks[0].data[size..], chunks[0].err)] + chunks[1..])
  }

  /** A bound on the reads it takes to deliver the chunks. */
  function Size(chunks: seq<M.Chunk>): nat {
    if chunks == [] then 0 else |chunks[0].data| + 1 + Size(chunks[1..])
  }

  lemma ReadShrinks(chunks: seq<M.Chunk>, size: nat)
    requires size > 0
    ensures ReadOf(chunks, size).err.None? ==> Size(ReadOf(chunks, size).rest) < Size(chunks)
    ensures Bytes(chunks) == ReadOf(chunks, size).data + Bytes(ReadOf(chunks, size).rest)
  {
    if chunks != [] && |chunks[0].data| > size {
      var rest := ReadOf(chunks, size).rest;
      assert rest[1..] == chunks[1..];
      assert chunks[0].data == chunks[0].data[..size] + chunks[0].data[size..];
    }
  }

  /** What the reads bring one after another, up to the one that brings an error. */
  datatype Stream = Stream(pieces: seq<seq<byte>>, error: M.ConsoleError, rest: seq<M.Chunk>)

  /** Nothing is queued for an empty read. */
  function Piece(data: seq<byte>): seq<seq<byte>> {
    if data == [] then [] else [data]
  }

  function Reads(chunks: seq<M.Chunk>): Stream
    decreases Size(chunks)
  {
    var r := ReadOf(chunks, M.READ_BUFFER);
    var piece := Piece(r.data);
    if r.err.Some? then Stream(piece, r.err.value, r.rest)
    else
      ReadShrinks(chunks, M.READ_BUFFER);
      var later := Reads(r.rest);
      later.(pieces := piece + later.pieces)
  }

  /** How many chunks there are up to the first one with an error. */
  function Stop(chunks: seq<M.Chunk>): (n: nat)
    ensures n <= |chunks|
    ensures forall i :: 0 <= i < n - 1 ==> chunks[i].err.None?
    ensures n < |chunks| ==> n > 0 && chunks[n - 1].err.Some?
  {
    if chunks == [] then 0 else if chunks[0].err.Some? then 1 else Stop(chunks[1..]) + 1
  }

  /** The reads deliver the chunks up to the first error: all their octets, that error, or the end if there is none. */
  ghost predicate Delivers(s: Stream, chunks: seq<M.Chunk>) {
    var n := Stop(chunks);
    && Flatten(s.pieces) == Bytes(chunks[..n])
    && s.rest == chunks[n..]
    && s.error == (if n > 0 && chunks[n - 1].err.Some? then chunks[n - 1].err.value else M.Eof)
    && forall i :: 0 <= i < |s.pieces| ==> 0 < |s.pieces[i]| <= 4096
  }

  /** A read brings as much of a chunk as 4096 octets can hold. */
  lemma ReadsAreGreedy(chunks: seq<M.Chunk>)
    requires chunks != [] && chunks[0].data != []
    ensures Reads(chunks).pieces != []
    ensures Reads(chunks).pieces[0] == if |chunks[0].data| <= 4096 then chunks[0].data else chunks[0].data[..4096]
  {
  }

  /** A read that leaves part of a chunk, and one that takes it all. */
  lemma ReadFirst(chunks: seq<M.Chunk>)
    requires chunks != []
    ensures var r, n, first := ReadOf(chunks, M.READ_BUFFER), Stop(chunks), chunks[0];
            && (r.err.None? ==> Bytes(chunks[..n]) == r.data + Bytes(r.rest[..Stop(r.rest)]))
            && (r.err.Some? ==> Bytes(chunks[..n]) == r.data)
  {
    var r, n, first := ReadOf(chunks, M.READ_BUFFER), Stop(chunks), chunks[0];
    if |first.data| <= M.READ_BUFFER {
      assert chunks[..n][1..] == chunks[1..][..n - 1];
    } else {
      var cut := r.rest;
      assert cut[1..] == chunks[1..] && Stop(cut) == n;
      assert cut[..n][1..] == chunks[..n][1..];
      assert first.data == r.data + cut[0].data;
      assert r.data + (cut[0].data + Bytes(cut[..n][1..])) == first.data + Bytes(chunks[..n][1..]);
    }
  }

  lemma StopAfterRead(chunks: seq<M.Chunk>)
    requires chunks != [] && ReadOf(chunks, M.READ_BUFFER).err.None?
    ensures var rest := ReadOf(chunks, M.READ_BUFFER).rest;
            var n, m := Stop(chunks), Stop(rest);
            && rest[m..] == chunks[n..]
            && n > 0 && (chunks[n - 1].err.Some? <==> m > 0 && rest[m - 1].err.Some?)
            && (chunks[n - 1].err.Some? ==> rest[m - 1].err == chunks[n - 1].err)
  {
    var rest := ReadOf(chunks, M.READ_BUFFER).rest;
    if |chunks[0].data| > M.READ_BUFFER {
      assert rest[1..] == chunks[1..];
    }
  }

  lemma {:induction false} ReadsDeliver(chunks: seq<M.Chunk>)
    ensures Delivers(Reads(chunks), chunks)
    decreases Size(chunks)
  {
    hide ReadOf, Bytes, Flatten, Piece, Reads, Size;
    var r := ReadOf(chunks, M.READ_BUFFER);
    ReadsStep(chunks);
    FlattenPiece(r.data);
    PieceIsShort(chunks);
    if chunks != [] {
      ReadFirst(chunks);
    }
    if r.err.None? {
      ReadsDeliver(r.rest);
      StopAfterRead(chunks);
      FlattenCons(Piece(r.data), Reads(r.rest).pieces);
    } else if chunks != [] {
      LastRead(chunks);
    }
  }

  lemma PieceIsShort(chunks: seq<M.Chunk>)
    ensures var piece := Piece(ReadOf(chunks, M.READ_BUFFER).data);
            forall i :: 0 <= i < |piece| ==> 0 < |piece[i]| <= M.READ_BUFFER
    ensures chunks == [] ==> ReadOf(chunks, M.READ_BUFFER) == OneRead([], Some(M.Eof), []) && Bytes(chunks) == []
  {
  }

  lemma LastRead(chunks: seq<M.Chunk>)
    requires chunks != [] && ReadOf(chunks, M.READ_BUFFER).err.Some?
    ensures var r, n := ReadOf(chunks, M.READ_BUFFER), Stop(chunks);
            n == 1 && r.rest == chunks[n..] && r.err == chunks[n - 1].err
  {
  }

  lemma FlattenPiece(data: seq<byte>)
    ensures Flatten(Piece(data)) == data
  {
    assert data != [] ==> [data][..0] == [];
  }

  lemma Regroup(a: seq<byte>, b: seq<byte>, c: seq<byte>)
    ensures a + (b + c) == a + b + c
  {
  }

  lemma {:induction false} FlattenCons(a: seq<seq<byte>>, b: seq<seq<byte>>)
    ensures Flatten(a + b) == Flatten(a) + Flatten(b)
    decreases |b|
  {
    if b == [] {
      assert a + b == a;
    } else {
      FlattenCons(a, b[..|b| - 1]);
      assert (a + b)[..|a + b| - 1] == a + b[..|b| - 1];
    }
  }

  /** One step of the reads. */
  lemma ReadsStep(chunks: seq<M.Chunk>)
    ensures var r := ReadOf(chunks, M.READ_BUFFER);
            var piece := Piece(r.data);
            if r.err.Some? then Reads(chunks) == Stream(piece, r.err.value, r.rest)
            else Size(r.rest) < Size(chunks) && Reads(chunks) == Reads(r.rest).(pieces := piece + Reads(r.rest).pieces)
  {
    hide ReadOf;
    ReadShrinks(chunks, M.READ_BUFFER);
  }

  /** A piece moves from what is unread to what is queued. */
  lemma PieceMoves(queued: seq<seq<byte>>, chunks: seq<M.Chunk>)
    ensures var r := ReadOf(chunks, M.READ_BUFFER);
            Flatten(queued) + Bytes(chunks) == Flatten(queued + Piece(r.data)) + Bytes(r.rest)
  {
    hide ReadOf, Flatten, Bytes, Piece;
    var r := ReadOf(chunks, M.READ_BUFFER);
    ReadShrinks(chunks, M.READ_BUFFER);
    FlattenCons(queued, Piece(r.data));
    FlattenPiece(r.data);
    Regroup(Flatten(queued), r.data, Bytes(r.rest));
  }

  /** The read side of the console. */
  class Pipe {
    var chunks: seq<M.Chunk>

    constructor (chunks: seq<M.Chunk>)
      ensures this.chunks == chunks
    {
      this.chunks := chunks;
    }

    method Read(buffer: array<byte>) returns (count: nat, err: Option<M.ConsoleError>)
      requires buffer.Length > 0
      modifies this, buffer
      ensures count <= buffer.Length
      ensures OneRead(buffer[..count], err, chunks) == ReadOf(old(chunks), buffer.Length)
    {
      if chunks == [] {
        return 0, Some(M.Eof);
      }
      var data := chunks[0].data;
      count := if |data| <= buffer.Length then |data| else buffer.Length;
      for i := 0 to count
        invariant forall k :: 0 <= k < i ==> buffer[k] == data[k]
        invariant chunks == old(chunks)
      {
        buffer[i] := data[i];
      }
      assert buffer[..count] == data[..count];
      if count == |data| {
        err := chunks[0].err;
        chunks := chunks[1..];
        assert data[..count] == data;
      } else {
        err := None;
        chunks := [M.Chunk(data[count..], chunks[0].err)] + chunks[1..];
      }
    }
  }

  /** A queued output frame: `data` are the octets the browser will find in it, which for a text frame are the
      octets of the JSON string's text. */
  class Packet {
    const text: bool
    const data: array<byte>

    constructor (text: bool, payload: seq<byte>)
      ensures this.text == text && fresh(data) && data[..] == payload
    {
      this.text := text;
      data := new byte[|payload|](i requires 0 <= i < |payload| => payload[i]);
      new;
      assert data[..] == payload;
    }
  }

  /** Whichever form it takes, the frame's payload is a copy of the octets. */
  method NewServerOutput(buffer: array<byte>, count: nat) returns (p: Packet)
    requires count <= buffer.Length
    ensures fresh(p) && fresh(p.data) && p.data[..] == buffer[..count]
    ensures p.text <==> Utf8.Valid(buffer[..count])
  {
    var data := buffer[..count];
    if Utf8.Valid(data) {
      Utf8.TextIsLosslessIffValid(data);
      p := new Packet(true, Utf8.Encode(Utf8.Decode(data)));
    } else {
      p := new Packet(false, data);
    }
  }

  function Flatten(payloads: seq<seq<byte>>): seq<byte> {
    if payloads == [] then [] else Flatten(payloads[..|payloads| - 1]) + payloads[|payloads| - 1]
  }

  /** The queue of a session whose browser is not reading: frames only accumulate. `payloads` remembers what each
      frame held when it was queued. */
  class Outbox {
    const depth: nat
    var queue: seq<Packet>
    ghost var payloads: seq<seq<byte>>

    constructor (depth: nat)
      ensures this.depth == depth && queue == [] && payloads == []
    {
      this.depth, queue, payloads := depth, [], [];
    }

    /** Every queued frame still holds what it held, in the form that calls for, and shares no array with
        `buffer`. */
    ghost predicate Sound(buffer: array<byte>)
      reads this, set p | p in queue :: p.data
    {
      && |payloads| == |queue| <= depth
      && forall i :: 0 <= i < |queue| ==>
           && queue[i].data != buffer && queue[i].data[..] == payloads[i]
           && 0 < |payloads[i]| <= M.READ_BUFFER
           && (queue[i].text <==> Utf8.Valid(payloads[i]))
    }

    method Enqueue(p: Packet) returns (ok: bool)
      modifies this
      ensures ok <==> |old(queue)| < depth
      ensures queue == old(queue) + (if ok then [p] else [])
      ensures payloads == old(payloads) + (if ok then [p.data[..]] else [])
    {
      ok := |queue| < depth;
      if ok {
        queue := queue + [p];
        payloads := payloads + [p.data[..]];
      }
    }
  }

  /** One read, and the queueing of what it brought, if the queue has room for it. */
  method Turn(pipe: Pipe, box: Outbox, buffer: array<byte>)
    returns (ok: bool, err: Option<M.ConsoleError>, ghost data: seq<byte>)
    requires buffer.Length == M.READ_BUFFER && box.Sound(buffer)
    modifies pipe, box, buffer
    ensures box.Sound(buffer)
    ensures OneRead(data, err, pipe.chunks) == ReadOf(old(pipe.chunks), M.READ_BUFFER)
    ensures ok <==> data == [] || |old(box.queue)| < box.depth
    ensures box.payloads == old(box.payloads) + (if ok && data != [] then [data] else [])
  {
    hide Utf8.Valid, ReadOf;
    var count;
    ok := true;
    count, err := pipe.Read(buffer);
    data := buffer[..count];
    if count > 0 {
      var p := NewServerOutput(buffer, count);
      ok := box.Enqueue(p);
    }
  }

  /** However often the one read buffer is overwritten, and wherever the reads cut the stream (also inside a
      character), the queued frames hold what the reads brought, in order. If they all fit the queue, the loop stops at
      the first error or at the end, and returns it; if not, exactly the first ones are queued, as many as fit, the
      next one is lost, and the loop returns as a slow client's. By `ReadsDeliver`, what the reads bring are all octets
      up to the first error. */
  method OutputLoop(pipe: Pipe, box: Outbox) returns (result: LoopResult)
    requires box.queue == [] && box.payloads == []
    modifies pipe, box
    ensures |box.payloads| == |box.queue|
    ensures forall i :: 0 <= i < |box.queue| ==>
              box.queue[i].data[..] == box.payloads[i] && (box.queue[i].text <==> Utf8.Valid(box.payloads[i]))
    ensures var s := Reads(old(pipe.chunks));
            if |s.pieces| <= box.depth then
              && box.payloads == s.pieces && pipe.chunks == s.rest
              && ReportOf(result) ==
                 match s.error
                 case Eof => Report(ConsoleClosed, 1000, "console_closed", [CloseNotice("console_closed")])
                 case IoError(text) =>
                   Report(SSHError, 1011, "ssh_read_failed",
                          [Failed("ssh_read_failed", text), CloseNotice("ssh_error")])
            else
              && box.payloads == s.pieces[..box.depth]
              && ReportOf(result) == Report(SlowClient, 1008, "outbound_queue_exhausted", [])
              && Bytes(old(pipe.chunks)) == Flatten(s.pieces[..box.depth + 1]) + Bytes(pipe.chunks)
  {
    hide OverflowResult, M.ConsoleErrorResult, ReportOf, Utf8.Valid, ReadOf, Reads, Size, Flatten, Bytes;
    var buffer := new byte[M.READ_BUFFER];
    ghost var s, all := Reads(pipe.chunks), Bytes(pipe.chunks);
    FlattenPiece([]);
    while true
      invariant fresh(buffer) && buffer.Length == M.READ_BUFFER && box.Sound(buffer)
      invariant s == Reads(pipe.chunks).(pieces := box.payloads + Reads(pipe.chunks).pieces)
      invariant all == Flatten(box.payloads) + Bytes(pipe.chunks)
      decreases Size(pipe.chunks)
    {
      ReadsStep(pipe.chunks);
      PieceMoves(box.payloads, pipe.chunks);
      var ok, err;
      ghost var data;
      ok, err, data := Turn(pipe, box, buffer);
      if !ok {
        assert s.pieces[..box.depth + 1] == box.payloads + [data];
        OverflowReport();
        return OverflowResult();
      }
      if err.Some? {
        M.ConsoleErrorReport(err.value);
        return M.ConsoleErrorResult(err.value);
      }
    }
  }
}
