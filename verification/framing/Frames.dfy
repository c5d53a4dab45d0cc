/**
 The wire format: payloads separated by newlines, and the byte stream a reader draws
 from, cut into reads in any way.
 */
module Frames {

  type Byte = x: int | 0 <= x < 256

  const NEWLINE: Byte := 10

  /** Where the first newline is, or the length if there is none. */
  function Find(b: seq<Byte>): (p: nat)
    ensures p <= |b|
    ensures NEWLINE !in b[..p]
    ensures p < |b| ==> b[p] == NEWLINE
  {
    if b == [] || b[0] == NEWLINE then 0
    else
      var q := Find(b[1..]);
      assert b[..q + 1] == [b[0]] + b[1..][..q];
      1 + q
  }

  lemma FindUnique(b: seq<Byte>, p: nat)
    requires p <= |b| && NEWLINE !in b[..p] && (p < |b| ==> b[p] == NEWLINE)
    ensures Find(b) == p
  {
    assert forall i | 0 <= i < p :: b[i] == b[..p][i];
    assert forall i | 0 <= i < Find(b) :: b[i] == b[..Find(b)][i];
  }

  lemma FindAppend(a: seq<Byte>, b: seq<Byte>)
    ensures Find(a + b) == if Find(a) < |a| then Find(a) else |a| + Find(b)
  {
    var p := if Find(a) < |a| then Find(a) else |a| + Find(b);
    if Find(a) < |a| {
      assert (a + b)[..p] == a[..p];
    } else {
      assert a[..|a|] == a;
      assert (a + b)[..p] == a + b[..Find(b)];
    }
    FindUnique(a + b, p);
  }

  /** The newline-terminated payloads of a byte stream. */
  function Split(b: seq<Byte>): seq<seq<Byte>>
    decreases |b|
  {
    var p := Find(b);
    if p == |b| then [] else [b[..p]] + Split(b[p + 1..])
  }

  /** What a writer sends for a list of messages. */
  function Wire<T>(encode: T -> seq<Byte>, msgs: seq<T>): seq<Byte> {
    if msgs == [] then [] else encode(msgs[0]) + [NEWLINE] + Wire(encode, msgs[1..])
  }

  lemma {:induction false} WireAppend<T>(encode: T -> seq<Byte>, msgs: seq<T>, m: T)
    ensures Wire(encode, msgs + [m]) == Wire(encode, msgs) + encode(m) + [NEWLINE]
  {
    if msgs == [] {
      assert [m][1..] == [];
      assert Wire(encode, [m]) == encode(m) + [NEWLINE];
    } else {
      WireAppend(encode, msgs[1..], m);
      assert (msgs + [m])[1..] == msgs[1..] + [m];
    }
  }

  lemma WireHead<T>(encode: T -> seq<Byte>, msgs: seq<T>)
    requires msgs != [] && NEWLINE !in encode(msgs[0])
    ensures var w, p := Wire(encode, msgs), |encode(msgs[0])|;
      Find(w) == p < |w| && w[..p] == encode(msgs[0]) && w[p + 1..] == Wire(encode, msgs[1..])
  {
    var w, p := Wire(encode, msgs), |encode(msgs[0])|;
    assert w == encode(msgs[0]) + ([NEWLINE] + Wire(encode, msgs[1..]));
    assert w[..p] == encode(msgs[0]);
    FindUnique(w, p);
  }

  /** Splitting undoes writing. */
  lemma {:induction false} SplitWire<T>(encode: T -> seq<Byte>, msgs: seq<T>)
    requires forall m | m in msgs :: NEWLINE !in encode(m)
    ensures |Split(Wire(encode, msgs))| == |msgs|
    ensures forall i | 0 <= i < |msgs| :: Split(Wire(encode, msgs))[i] == encode(msgs[i])
  {
    if msgs != [] {
      WireHead(encode, msgs);
      SplitWire(encode, msgs[1..]);
    }
  }

  predicate Closed(b: seq<Byte>) {
    b == [] || b[|b| - 1] == NEWLINE
  }

  lemma SplitStep(b: seq<Byte>)
    requires Find(b) < |b|
    ensures Split(b) == [b[..Find(b)]] + Split(b[Find(b) + 1..])
  {
  }

  lemma SplitLine(payload: seq<Byte>)
    requires NEWLINE !in payload
    ensures Split(payload + [NEWLINE]) == [payload]
  {
    var line := payload + [NEWLINE];
    assert line[..|payload|] == payload;
    FindUnique(line, |payload|);
    assert line[|payload| + 1..] == [];
    assert Split(line) == [payload] + Split([]);
  }

  lemma ClosedHasNewline(b: seq<Byte>)
    requires Closed(b) && b != []
    ensures Find(b) < |b|
  {
    assert b[..|b|] == b && b[|b| - 1] in b;
  }

  /** One more line at the end is one more payload at the end. */
  lemma {:induction false} SplitAppend(b: seq<Byte>, payload: seq<Byte>)
    requires Closed(b) && NEWLINE !in payload
    ensures Closed(b + payload + [NEWLINE])
    ensures Split(b + payload + [NEWLINE]) == Split(b) + [payload]
    decreases |b|
  {
    hide Find, Split;
    var line := payload + [NEWLINE];
    assert b + payload + [NEWLINE] == b + line;
    if b == [] {
      SplitLine(payload);
      assert Split([]) == [] by { SplitEmpty(); }
      assert [] + line == line;
    } else {
      var p := Find(b);
      ClosedHasNewline(b);
      FindAppend(b, line);
      SplitStep(b);
      SplitStep(b + line);
      assert (b + line)[..p] == b[..p];
      assert (b + line)[p + 1..] == b[p + 1..] + payload + [NEWLINE];
      SplitAppend(b[p + 1..], payload);
      assert [b[..p]] + (Split(b[p + 1..]) + [payload]) == ([b[..p]] + Split(b[p + 1..])) + [payload];
    }
  }

  lemma SplitEmpty()
    ensures Split([]) == []
  {
  }

  // ---- the stream ---------------------------------------------------------------------

  /** What one read meets: some bytes (none at all: end of stream), or an error such as `WouldBlock`. */
  datatype Event = Chunk(bytes: seq<Byte>) | Block

  /** All the bytes a script holds.  An exhausted script is the end of the stream. */
  function Flat(script: seq<Event>): seq<Byte> {
    if script == [] then []
    else (if script[0].Chunk? then script[0].bytes else []) + Flat(script[1..])
  }

  /** The events that make a read return no bytes. */
  function Interruptions(script: seq<Event>): nat {
    if script == [] then 0
    else (if script[0].Block? || script[0].bytes == [] then 1 else 0) + Interruptions(script[1..])
  }

  /** The reads that fail. */
  function Blocks(script: seq<Event>): nat {
    if script == [] then 0 else (if script[0].Block? then 1 else 0) + Blocks(script[1..])
  }

  /** The reads that return no bytes although the script goes on. */
  function EmptyReads(script: seq<Event>): nat {
    if script == [] then 0 else (if script[0] == Chunk([]) then 1 else 0) + EmptyReads(script[1..])
  }

  /** A measure that every read makes smaller. */
  function Work(script: seq<Event>): nat {
    if script == [] then 0
    else 1 + (if script[0].Chunk? then |script[0].bytes| else 0) + Work(script[1..])
  }

  datatype Read = Bytes(bytes: seq<Byte>) | Failed

  /** What a read into `room` bytes returns. */
  function ReadResult(script: seq<Event>, room: nat): Read {
    if script == [] then Bytes([])
    else match script[0]
      case Block => Failed
      case Chunk(c) => Bytes(if |c| <= room then c else c[..room])
  }

  /** What it leaves of the script. */
  function ReadRest(script: seq<Event>, room: nat): seq<Event> {
    if script == [] then []
    else if script[0].Chunk? && |script[0].bytes| > room then [Chunk(script[0].bytes[room..])] + script[1..]
    else script[1..]
  }

  lemma ConsFacts(e: Event, rest: seq<Event>)
    ensures var all := [e] + rest;
      && Flat(all) == (if e.Chunk? then e.bytes else []) + Flat(rest)
      && Work(all) == 1 + (if e.Chunk? then |e.bytes| else 0) + Work(rest)
      && Interruptions(all) == (if e.Block? || e.bytes == [] then 1 else 0) + Interruptions(rest)
  {
    assert ([e] + rest)[1..] == rest;
  }

  lemma ConsCounts(e: Event, rest: seq<Event>)
    ensures Blocks([e] + rest) == (if e.Block? then 1 else 0) + Blocks(rest)
    ensures EmptyReads([e] + rest) == (if e == Chunk([]) then 1 else 0) + EmptyReads(rest)
  {
    assert ([e] + rest)[1..] == rest;
  }

  /** A read uses up one failure, one empty read, or neither. */
  lemma ReadCounts(script: seq<Event>, room: nat)
    requires room > 0
    ensures var r, rest := ReadResult(script, room), ReadRest(script, room);
      && Blocks(script) == Blocks(rest) + (if r.Failed? then 1 else 0)
      && EmptyReads(script) == EmptyReads(rest) + (if script != [] && r == Bytes([]) then 1 else 0)
  {
    if script != [] {
      var e, tail := script[0], script[1..];
      assert script == [e] + tail;
      ConsCounts(e, tail);
      hide Blocks, EmptyReads;
      if e.Chunk? && |e.bytes| > room {
        ConsCounts(Chunk(e.bytes[room..]), tail);
      }
    }
  }

  lemma ReadConserves(script: seq<Event>, room: nat)
    requires room > 0
    ensures var r, rest := ReadResult(script, room), ReadRest(script, room);
      && Flat(script) == (if r.Bytes? then r.bytes else []) + Flat(rest)
      && (script != [] ==> Work(rest) < Work(script))
      && Interruptions(script) ==
           Interruptions(rest) + (if script != [] && (r.Failed? || r.bytes == []) then 1 else 0)
  {
    if script != [] {
      var e, tail := script[0], script[1..];
      assert script == [e] + tail;
      ConsFacts(e, tail);
      hide Flat, Work, Interruptions;
      if e.Chunk? && |e.bytes| > room {
        ConsFacts(Chunk(e.bytes[room..]), tail);
        assert e.bytes == e.bytes[..room] + e.bytes[room..];
        assert e.bytes[..room] + (e.bytes[room..] + Flat(tail)) == e.bytes + Flat(tail);
      }
    }
  }

  /** A stream that follows a script. */
  class Stream {
    var script: seq<Event>

    constructor (events: seq<Event>)
      ensures script == events
    {
      script := events;
    }

    /** Reads into `buffer[from..]`, which must not be empty: only then does zero bytes mean the end. */
    method ReadInto(buffer: array<Byte>, from: nat) returns (r: Read)
      requires from < buffer.Length
      modifies this, buffer
      ensures r == old(ReadResult(script, buffer.Length - from))
      ensures script == old(ReadRest(script, buffer.Length - from))
      ensures r.Bytes? ==>
        from + |r.bytes| <= buffer.Length && buffer[..from + |r.bytes|] == old(buffer[..from]) + r.bytes
      ensures r.Failed? ==> buffer[..] == old(buffer[..])
    {
      var room := buffer.Length - from;
      r := ReadResult(script, room);
      script := ReadRest(script, room);
      if r.Bytes? {
        forall i | 0 <= i < |r.bytes| {
          buffer[from + i] := r.bytes[i];
        }
      }
    }
  }
}
