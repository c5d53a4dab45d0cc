/**
 The message reader and writer: a fixed buffer filled by partial reads, against plain
 splitting of the byte stream at newlines.
 */
module Framing {
  import opened Options
  import opened Frames

  const MAX_MESSAGE_SIZE: nat := 256

  datatype Outcome<+T> =
    | Received(msg: T)
    | BadMessage          // the payload does not decode
    | TooLarge
    | ReadFailed          // `WouldBlock`, or another error of the stream
    | Ended

  /** What a reader has between two calls: unread bytes, and the stream behind them. */
  datatype Link = Link(held: seq<Byte>, script: seq<Event>)

  function AllOf(link: Link): seq<Byte> {
    link.held + Flat(link.script)
  }

  type Decoder<T> = seq<Byte> -> Option<T>

  /** The stream after one more read into the free part of the buffer. */
  function Filled(link: Link): Link {
    var room := if |link.held| < 4 * MAX_MESSAGE_SIZE then 4 * MAX_MESSAGE_SIZE - |link.held| else 1;
    var r := ReadResult(link.script, room);
    Link(link.held + (if r.Bytes? then r.bytes else []), ReadRest(link.script, room))
  }

  predicate ReadFails(link: Link) {
    link.script != [] && link.script[0].Block?
  }

  predicate ReadEnds(link: Link) {
    link.script == [] || link.script[0] == Chunk([])
  }

  lemma FilledFacts(link: Link)
    ensures AllOf(Filled(link)) == AllOf(link)
    ensures link.script != [] || !ReadEnds(link) ==> Work(Filled(link).script) < Work(link.script)
    ensures Interruptions(link.script) ==
      Interruptions(Filled(link).script) + (if link.script != [] && (ReadFails(link) || ReadEnds(link)) then 1 else 0)
    ensures ReadFails(link) || ReadEnds(link) ==> Filled(link).held == link.held
    ensures link.script == [] ==> Filled(link) == link && Interruptions(link.script) == 0
  {
    var room := if |link.held| < 4 * MAX_MESSAGE_SIZE then 4 * MAX_MESSAGE_SIZE - |link.held| else 1;
    ReadConserves(link.script, room);
    var r, rest := ReadResult(link.script, room), ReadRest(link.script, room);
    var got := if r.Bytes? then r.bytes else [];
    assert link.held + (got + Flat(rest)) == (link.held + got) + Flat(rest);
  }

  // ---- one call ------------------------------------------------------------------------

  /** What `recv` returns, and what it leaves. */
  function Recv<T>(decode: Decoder<T>, link: Link): (Outcome<T>, Link)
    decreases Work(link.script)
  {
    var p := Find(link.held);
    if p < |link.held| then
      match decode(link.held[..p])
      case None => (BadMessage, link)
      case Some(m) => (Received(m), link.(held := link.held[p + 1..]))
    else if |link.held| >= MAX_MESSAGE_SIZE then (TooLarge, link)
    else if ReadFails(link) then (ReadFailed, Filled(link))
    else if ReadEnds(link) then (Ended, Filled(link))
    else
      FilledFacts(link);
      Recv(decode, Filled(link))
  }

  /** One call against the whole stream: it takes the first line, or nothing. */
  ghost predicate TakesLine<T>(decode: Decoder<T>, all: seq<Byte>, o: Outcome<T>, all': seq<Byte>) {
    var p := Find(all);
    if o.Received? then p < |all| && decode(all[..p]) == Some(o.msg) && all' == all[p + 1..]
    else
      && all' == all
      && (o.BadMessage? ==> p < |all| && decode(all[..p]) == None)
      && (o.TooLarge? ==> p >= MAX_MESSAGE_SIZE)
  }

  /** One call against the script: only interruptions cost a call. */
  ghost predicate UsesScript<T>(o: Outcome<T>, script: seq<Event>, link': Link) {
    if (o.ReadFailed? || o.Ended?) && Interruptions(script) > 0 then
      Interruptions(link'.script) == Interruptions(script) - 1
    else
      && Interruptions(link'.script) == Interruptions(script)
      && !o.ReadFailed?
      && (o.Ended? ==> link'.script == [] && Find(link'.held) == |link'.held|)
  }

  lemma LineInHeld<T>(decode: Decoder<T>, link: Link)
    requires Find(link.held) < |link.held|
    ensures var (o, link') := Recv(decode, link);
      && TakesLine(decode, AllOf(link), o, AllOf(link')) && UsesScript(o, link.script, link') && |link'.held| <= |link.held|
  {
    var p := Find(link.held);
    FindAppend(link.held, Flat(link.script));
    assert AllOf(link)[..p] == link.held[..p];
    assert AllOf(link)[p + 1..] == link.held[p + 1..] + Flat(link.script);
  }

  lemma HeldIsPrefix(link: Link)
    requires Find(link.held) == |link.held|
    ensures Find(AllOf(link)) >= |link.held|
  {
    FindAppend(link.held, Flat(link.script));
  }

  /**
   One call agrees with taking the first line off the stream, whatever the reads.  Since
   `AllOf` of what is left is the rest, the bytes read so far are always the frames
   delivered followed by the bytes held.
   */
  lemma {:induction false} RecvTakesLine<T>(decode: Decoder<T>, link: Link)
    ensures var (o, link') := Recv(decode, link);
      TakesLine(decode, AllOf(link), o, AllOf(link')) && UsesScript(o, link.script, link')
    decreases Work(link.script)
  {
    hide Find, Filled, Flat, Work, Interruptions;
    FilledFacts(link);
    if Find(link.held) < |link.held| {
      LineInHeld(decode, link);
    } else {
      FindBound(link.held);
      HeldIsPrefix(link);
      if |link.held| < MAX_MESSAGE_SIZE && !ReadFails(link) && !ReadEnds(link) {
        RecvTakesLine(decode, Filled(link));
      }
    }
  }

  lemma FindBound(b: seq<Byte>)
    ensures Find(b) <= |b|
  {
  }

  /**
   What one call uses of the stream.  A failed read is reported by the call that met it, an
   end by the call that met an empty read or the exhausted script, and only when no line
   and no oversized payload is held; any other result uses up neither.
   */
  ghost predicate Accounts<T>(o: Outcome<T>, script: seq<Event>, link': Link) {
    var failed := if o.ReadFailed? then 1 else 0;
    && Blocks(script) == Blocks(link'.script) + failed
    && (o.ReadFailed? || o.Ended? ==> NEWLINE !in link'.held && |link'.held| < MAX_MESSAGE_SIZE)
    && (if o.Ended? then EmptyReads(script) == EmptyReads(link'.script) + 1
                      || (EmptyReads(script) == EmptyReads(link'.script) && link'.script == [])
        else EmptyReads(script) == EmptyReads(link'.script))
  }

  lemma FilledCounts(link: Link)
    ensures Blocks(link.script) == Blocks(Filled(link).script) + (if ReadFails(link) then 1 else 0)
    ensures EmptyReads(link.script) ==
      EmptyReads(Filled(link).script) + (if link.script != [] && ReadEnds(link) then 1 else 0)
    ensures ReadFails(link) || ReadEnds(link) ==> Filled(link).held == link.held
    ensures link.script == [] ==> Filled(link).script == []
  {
    var room := if |link.held| < 4 * MAX_MESSAGE_SIZE then 4 * MAX_MESSAGE_SIZE - |link.held| else 1;
    ReadCounts(link.script, room);
  }

  lemma NoLineHeld(b: seq<Byte>)
    requires Find(b) == |b|
    ensures NEWLINE !in b
  {
    assert b[..|b|] == b;
  }

  lemma {:induction false} RecvAccounts<T>(decode: Decoder<T>, link: Link)
    ensures var (o, link') := Recv(decode, link); Accounts(o, link.script, link')
    decreases Work(link.script)
  {
    hide Find, Filled, Blocks, EmptyReads, Work, Interruptions;
    FilledFacts(link);
    FilledCounts(link);
    FindBound(link.held);
    if Find(link.held) == |link.held| {
      NoLineHeld(link.held);
      if |link.held| < MAX_MESSAGE_SIZE && !ReadFails(link) && !ReadEnds(link) {
        RecvAccounts(decode, Filled(link));
      }
    }
  }

  /** The buffer is never overrun. */
  lemma {:induction false} HeldFits<T>(decode: Decoder<T>, link: Link)
    requires |link.held| <= 4 * MAX_MESSAGE_SIZE
    ensures |Recv(decode, link).1.held| <= 4 * MAX_MESSAGE_SIZE
    decreases Work(link.script)
  {
    if Find(link.held) == |link.held| < MAX_MESSAGE_SIZE && !ReadFails(link) && !ReadEnds(link) {
      FilledFacts(link);
      HeldFits(decode, Filled(link));
    }
  }

  /** A payload that does not decode, or is too large, is never taken off the buffer: every later call fails alike. */
  lemma {:induction false} Poisoned<T>(decode: Decoder<T>, link: Link)
    ensures var (o, link') := Recv(decode, link);
      o.BadMessage? || o.TooLarge? ==> Recv(decode, link') == (o, link')
    decreases Work(link.script)
  {
    if Find(link.held) == |link.held| < MAX_MESSAGE_SIZE && !ReadFails(link) && !ReadEnds(link) {
      FilledFacts(link);
      Poisoned(decode, Filled(link));
    }
  }

  // ---- many calls -----------------------------------------------------------------------

  function Calls<T>(decode: Decoder<T>, link: Link, n: nat): seq<Outcome<T>>
    decreases n
  {
    if n == 0 then [] else var (o, link') := Recv(decode, link); [o] + Calls(decode, link', n - 1)
  }

  /** No payload was refused as undecodable or too large. */
  predicate NoRefusal<T>(outs: seq<Outcome<T>>) {
    forall i | 0 <= i < |outs| :: !outs[i].BadMessage? && !outs[i].TooLarge?
  }

  lemma NoCalls<T>(decode: Decoder<T>, link: Link)
    ensures Messages(Calls(decode, link, 0)) == [] && NoRefusal(Calls(decode, link, 0))
  {
    hide Recv;
  }

  lemma CallsStep<T>(decode: Decoder<T>, link: Link, n: nat)
    requires n > 0
    ensures var (o, link') := Recv(decode, link); var rest := Calls(decode, link', n - 1);
      && Calls(decode, link, n) == [o] + rest
      && Messages(Calls(decode, link, n)) == (if o.Received? then [o.msg] else []) + Messages(rest)
  {
    hide Recv;
    var (o, link') := Recv(decode, link);
    MessagesCons(o, Calls(decode, link', n - 1));
  }

  function AfterCalls<T>(decode: Decoder<T>, link: Link, n: nat): Link
    decreases n
  {
    if n == 0 then link else AfterCalls(decode, Recv(decode, link).1, n - 1)
  }

  /** The messages among the results. */
  function Messages<T>(outs: seq<Outcome<T>>): seq<T> {
    if outs == [] then [] else (if outs[0].Received? then [outs[0].msg] else []) + Messages(outs[1..])
  }

  lemma MessagesCons<T>(o: Outcome<T>, outs: seq<Outcome<T>>)
    ensures Messages([o] + outs) == (if o.Received? then [o.msg] else []) + Messages(outs)
  {
    assert ([o] + outs)[1..] == outs;
  }

  /** The bytes that carry the first `k` lines. */
  function Lines(b: seq<Byte>, k: nat): seq<Byte>
    requires k <= |Split(b)|
    decreases k
  {
    if k == 0 then [] else b[..Find(b) + 1] + Lines(b[Find(b) + 1..], k - 1)
  }

  lemma LinesStep(b: seq<Byte>, k: nat, tail: seq<Byte>)
    requires Find(b) < |b| && k <= |Split(b[Find(b) + 1..])|
    requires b[Find(b) + 1..] == Lines(b[Find(b) + 1..], k) + tail
    ensures k + 1 <= |Split(b)| && b == Lines(b, k + 1) + tail
  {
    hide Find;
    FindBound(b);
    var q := Find(b) + 1;
    SplitStep(b);
    assert b == b[..q] + b[q..];
    assert b[..q] + (Lines(b[q..], k) + tail) == (b[..q] + Lines(b[q..], k)) + tail;
  }

  /** The messages are the first lines of the stream, decoded; what is left follows those lines. */
  ghost predicate Agrees<T>(decode: Decoder<T>, all: seq<Byte>, msgs: seq<T>, rest: seq<Byte>) {
    && |msgs| <= |Split(all)|
    && (forall i | 0 <= i < |msgs| :: decode(Split(all)[i]) == Some(msgs[i]))
    && all == Lines(all, |msgs|) + rest
  }

  lemma AgreesNone<T>(decode: Decoder<T>, all: seq<Byte>)
    ensures Agrees(decode, all, [], all)
  {
    hide Find;
  }

  lemma DecodedCons<T>(decode: Decoder<T>, first: seq<Byte>, lines: seq<seq<Byte>>, m: T, msgs: seq<T>)
    requires decode(first) == Some(m) && |msgs| <= |lines|
    requires forall i | 0 <= i < |msgs| :: decode(lines[i]) == Some(msgs[i])
    ensures forall i | 0 <= i < |msgs| + 1 :: decode(([first] + lines)[i]) == Some(([m] + msgs)[i])
  {
  }

  lemma AgreesStep<T>(decode: Decoder<T>, all: seq<Byte>, m: T, msgs: seq<T>, rest: seq<Byte>)
    requires Find(all) < |all| && decode(all[..Find(all)]) == Some(m)
    requires Agrees(decode, all[Find(all) + 1..], msgs, rest)
    ensures Agrees(decode, all, [m] + msgs, rest)
  {
    hide Find, Lines, Split;
    FindBound(all);
    var p := Find(all);
    LinesStep(all, |msgs|, rest);
    SplitStep(all);
    DecodedCons(decode, all[..p], Split(all[p + 1..]), m, msgs);
  }

  /**
   Chunk independence: for every byte stream, cut and interrupted in any way, the messages
   received are the first lines of the stream, decoded, in order, none lost or invented;
   and the stream is exactly those lines, then what is held, then what is still to come.
   */
  lemma {:induction false} CallsAgreeWithSplit<T>(decode: Decoder<T>, link: Link, n: nat)
    ensures Agrees(decode, AllOf(link), Messages(Calls(decode, link, n)), AllOf(AfterCalls(decode, link, n)))
    decreases n
  {
    hide *;
    AfterStep(decode, link, n);
    if n == 0 {
      NoCalls(decode, link);
      AgreesNone(decode, AllOf(link));
    } else {
      var (o, link') := Recv(decode, link);
      TakesNext(decode, link);
      CallsAgreeWithSplit(decode, link', n - 1);
      var ms, rest := Messages(Calls(decode, link', n - 1)), AllOf(AfterCalls(decode, link', n - 1));
      CallsStep(decode, link, n);
      if o.Received? {
        AgreesStep(decode, AllOf(link), o.msg, ms, rest);
      } else {
        assert [] + ms == ms;
      }
    }
  }

  lemma AfterStep<T>(decode: Decoder<T>, link: Link, n: nat)
    ensures AfterCalls(decode, link, n) ==
      if n == 0 then link else AfterCalls(decode, Recv(decode, link).1, n - 1)
  {
    hide Recv;
  }

  lemma TakesNext<T>(decode: Decoder<T>, link: Link)
    ensures var (o, link') := Recv(decode, link); var all := AllOf(link);
      if o.Received? then
        Find(all) < |all| && decode(all[..Find(all)]) == Some(o.msg) && AllOf(link') == all[Find(all) + 1..]
      else AllOf(link') == all
  {
    hide Recv, Find, AllOf;
    RecvTakesLine(decode, link);
  }

  /** How many of the results are reports of failed reads. */
  function Failures<T>(outs: seq<Outcome<T>>): nat {
    if outs == [] then 0 else (if outs[0].ReadFailed? then 1 else 0) + Failures(outs[1..])
  }

  function Ends<T>(outs: seq<Outcome<T>>): nat {
    if outs == [] then 0 else (if outs[0].Ended? then 1 else 0) + Ends(outs[1..])
  }

  lemma CountCons<T>(o: Outcome<T>, outs: seq<Outcome<T>>)
    ensures Failures([o] + outs) == (if o.ReadFailed? then 1 else 0) + Failures(outs)
    ensures Ends([o] + outs) == (if o.Ended? then 1 else 0) + Ends(outs)
  {
    assert ([o] + outs)[1..] == outs;
  }

  /**
   Over any number of calls the failed reads are reported one by one, no more and no fewer
   than were met; and as long as the script is not exhausted, so are the empty reads.
   */
  lemma {:induction false} FailuresReported<T>(decode: Decoder<T>, link: Link, n: nat)
    ensures var outs, link' := Calls(decode, link, n), AfterCalls(decode, link, n);
      && Failures(outs) + Blocks(link'.script) == Blocks(link.script)
      && Ends(outs) + EmptyReads(link'.script) >= EmptyReads(link.script)
      && (link'.script != [] ==> Ends(outs) + EmptyReads(link'.script) == EmptyReads(link.script))
    decreases n
  {
    hide *;
    AfterStep(decode, link, n);
    if n == 0 {
      NothingCounted(decode, link);
    } else {
      var (o, link') := Recv(decode, link);
      OneCallCounts(decode, link, n);
      FailuresReported(decode, link', n - 1);
      CallsStep(decode, link, n);
      CountCons(o, Calls(decode, link', n - 1));
      ExhaustedStays(decode, link', n - 1);
    }
  }

  lemma NothingCounted<T>(decode: Decoder<T>, link: Link)
    ensures Failures(Calls(decode, link, 0)) == 0 && Ends(Calls(decode, link, 0)) == 0
  {
    hide Recv;
  }

  lemma OneCallCounts<T>(decode: Decoder<T>, link: Link, n: nat)
    ensures var (o, link') := Recv(decode, link);
      && Blocks(link.script) == Blocks(link'.script) + (if o.ReadFailed? then 1 else 0)
      && EmptyReads(link.script) <= EmptyReads(link'.script) + (if o.Ended? then 1 else 0)
      && (link'.script != [] ==> EmptyReads(link.script) == EmptyReads(link'.script) + (if o.Ended? then 1 else 0))
  {
    hide Recv, Blocks, EmptyReads;
    RecvAccounts(decode, link);
  }

  /** An exhausted script stays exhausted. */
  lemma {:induction false} ExhaustedStays<T>(decode: Decoder<T>, link: Link, n: nat)
    ensures link.script == [] ==> AfterCalls(decode, link, n).script == []
    decreases n
  {
    if n > 0 && link.script == [] {
      FilledFacts(link);
      assert Recv(decode, link).1.script == [];
      hide Recv;
      ExhaustedStays(decode, Recv(decode, link).1, n - 1);
    }
  }

  // ---- the round trip --------------------------------------------------------------------

  /** The encoder and decoder agree on these messages, and no payload holds a newline. */
  ghost predicate Coded<T>(encode: T -> seq<Byte>, decode: Decoder<T>, msgs: seq<T>) {
    forall m | m in msgs :: NEWLINE !in encode(m) && decode(encode(m)) == Some(m)
  }

  ghost predicate Small<T>(encode: T -> seq<Byte>, msgs: seq<T>) {
    forall m | m in msgs :: |encode(m)| < MAX_MESSAGE_SIZE
  }

  /** One call on a written stream gives the next message, or spends an interruption, or reports the end. */
  lemma NextMessage<T>(encode: T -> seq<Byte>, decode: Decoder<T>, link: Link, msgs: seq<T>)
    requires Coded(encode, decode, msgs) && AllOf(link) == Wire(encode, msgs)
    requires msgs != [] ==> |encode(msgs[0])| < MAX_MESSAGE_SIZE
    ensures var (o, link') := Recv(decode, link);
      if o.Received? then
        && msgs != [] && o.msg == msgs[0] && AllOf(link') == Wire(encode, msgs[1..])
        && Interruptions(link'.script) == Interruptions(link.script)
      else
        && (o.ReadFailed? || o.Ended?) && AllOf(link') == Wire(encode, msgs)
        && (if Interruptions(link.script) > 0 then Interruptions(link'.script) == Interruptions(link.script) - 1
            else msgs == [] && o.Ended? && Interruptions(link'.script) == 0)
  {
    hide Recv, Interruptions, Flat;
    RecvTakesLine(decode, link);
    var (o, link') := Recv(decode, link);
    if msgs == [] {
      assert AllOf(link) == [];
    } else {
      WireHead(encode, msgs);
    }
    if o.Ended? && link'.script == [] {
      NothingBehind(link');
    }
  }

  lemma NothingBehind(link: Link)
    requires link.script == []
    ensures AllOf(link) == link.held
  {
  }

  lemma NoRefusalCons<T>(o: Outcome<T>, outs: seq<Outcome<T>>)
    requires NoRefusal(outs) && !o.BadMessage? && !o.TooLarge?
    ensures NoRefusal([o] + outs)
  {
  }

  lemma TailCoded<T>(encode: T -> seq<Byte>, decode: Decoder<T>, msgs: seq<T>)
    requires msgs != []
    ensures Coded(encode, decode, msgs) ==> Coded(encode, decode, msgs[1..])
    ensures Small(encode, msgs) ==> Small(encode, msgs[1..]) && |encode(msgs[0])| < MAX_MESSAGE_SIZE
  {
    assert forall m | m in msgs[1..] :: m in msgs;
  }

  /**
   Round trip: if every payload fits in 255 bytes, then however the written bytes are cut
   into reads and wherever reads fail, enough calls return exactly the messages sent, in
   order, and nothing else but reports of failed reads and of the end.
   */
  lemma {:induction false} AllDelivered<T>(encode: T -> seq<Byte>, decode: Decoder<T>, link: Link, msgs: seq<T>, n: nat)
    requires Coded(encode, decode, msgs) && Small(encode, msgs) && AllOf(link) == Wire(encode, msgs)
    requires n >= |msgs| + Interruptions(link.script)
    ensures Messages(Calls(decode, link, n)) == msgs
    ensures NoRefusal(Calls(decode, link, n))
    decreases n
  {
    hide *;
    if n == 0 {
      NoCalls(decode, link);
    } else {
      if msgs != [] {
        TailCoded(encode, decode, msgs);
      }
      var (o, link') := Recv(decode, link);
      NextMessage(encode, decode, link, msgs);
      CallsStep(decode, link, n);
      if o.Received? {
        AllDelivered(encode, decode, link', msgs[1..], n - 1);
        assert msgs == [msgs[0]] + msgs[1..];
      } else {
        AllDelivered(encode, decode, link', msgs, n - 1);
        assert [] + msgs == msgs;
      }
      NoRefusalCons(o, Calls(decode, link', n - 1));
    }
  }

  // ---- exactly when every schedule delivers ------------------------------------------------

  /** One byte per read. */
  function Bytewise(b: seq<Byte>): seq<Event> {
    if b == [] then [] else [Chunk([b[0]])] + Bytewise(b[1..])
  }

  lemma {:induction false} BytewiseFlat(b: seq<Byte>)
    ensures Flat(Bytewise(b)) == b && Interruptions(Bytewise(b)) == 0
  {
    if b != [] {
      BytewiseFlat(b[1..]);
      ConsFacts(Chunk([b[0]]), Bytewise(b[1..]));
    }
  }

  lemma BytewiseFilled(held: seq<Byte>, b: seq<Byte>)
    requires b != [] && |held| < MAX_MESSAGE_SIZE
    ensures var link := Link(held, Bytewise(b));
      !ReadFails(link) && !ReadEnds(link) && Filled(link) == Link(held + [b[0]], Bytewise(b[1..]))
  {
    assert ([Chunk([b[0]])] + Bytewise(b[1..]))[1..] == Bytewise(b[1..]);
  }

  /** Byte by byte, a line of at most 255 bytes is received and leaves the buffer empty; a longer one is too large. */
  lemma {:induction false} RecvBytewise<T>(decode: Decoder<T>, held: seq<Byte>, b: seq<Byte>)
    requires Find(held) == |held| <= MAX_MESSAGE_SIZE && Find(b) < |b|
    requires decode((held + b)[..|held| + Find(b)]).Some?
    ensures var (o, link') := Recv(decode, Link(held, Bytewise(b)));
      if |held| + Find(b) < MAX_MESSAGE_SIZE then
        && o == Received(decode((held + b)[..|held| + Find(b)]).value)
        && link' == Link([], Bytewise(b[Find(b) + 1..]))
      else o == TooLarge
    decreases |b|
  {
    hide Filled, ReadFails, ReadEnds, Bytewise, Find;
    if |held| < MAX_MESSAGE_SIZE {
      BytewiseFilled(held, b);
      var more := held + [b[0]];
      FindAppend(held, [b[0]]);
      FindHead(b);
      if b[0] == NEWLINE {
        assert more[..|held|] == (held + b)[..|held| + Find(b)];
        assert more[|held| + 1..] == [];
      } else {
        assert more + b[1..] == held + b;
        RecvBytewise(decode, more, b[1..]);
        assert b[1..][Find(b[1..]) + 1..] == b[Find(b) + 1..];
      }
    }
  }

  lemma FindHead(b: seq<Byte>)
    requires b != []
    ensures Find([b[0]]) == if b[0] == NEWLINE then 0 else 1
    ensures Find(b) == if b[0] == NEWLINE then 0 else 1 + Find(b[1..])
  {
  }

  lemma {:induction false} PoisonedForever<T>(decode: Decoder<T>, link: Link, n: nat)
    requires Recv(decode, link) == (TooLarge, link)
    ensures Messages(Calls(decode, link, n)) == []
    decreases n
  {
    hide Recv;
    if n > 0 {
      PoisonedForever(decode, link, n - 1);
      MessagesCons(TooLarge, Calls(decode, link, n - 1));
    }
  }

  /** The first message whose payload has 256 bytes or more, or the number of messages. */
  function FirstLarge<T>(encode: T -> seq<Byte>, msgs: seq<T>): (k: nat)
    ensures k <= |msgs|
    ensures forall i | 0 <= i < k :: |encode(msgs[i])| < MAX_MESSAGE_SIZE
    ensures k < |msgs| ==> |encode(msgs[k])| >= MAX_MESSAGE_SIZE
  {
    if msgs == [] || |encode(msgs[0])| >= MAX_MESSAGE_SIZE then 0 else 1 + FirstLarge(encode, msgs[1..])
  }

  function Least(a: nat, b: nat): nat {
    if a < b then a else b
  }

  /**
   Byte by byte, each call receives one more message, up to the first payload of 256 bytes
   or more; that one and all behind it are never received.
   */
  lemma {:induction false} BytewiseReceives<T>(encode: T -> seq<Byte>, decode: Decoder<T>, msgs: seq<T>, n: nat)
    requires Coded(encode, decode, msgs)
    ensures Messages(Calls(decode, Link([], Bytewise(Wire(encode, msgs))), n))
         == msgs[..Least(n, FirstLarge(encode, msgs))]
    decreases n
  {
    hide Recv, Bytewise, Find, Wire, Calls, Messages;
    var link := Link([], Bytewise(Wire(encode, msgs)));
    if n == 0 {
      NoCalls(decode, link);
    } else if msgs == [] {
      NothingWritten(encode, decode, n);
    } else {
      var (o, link') := Recv(decode, link);
      BytewiseCall(encode, decode, msgs);
      CallsStep(decode, link, n);
      if |encode(msgs[0])| < MAX_MESSAGE_SIZE {
        BytewiseReceives(encode, decode, msgs[1..], n - 1);
        TakeOneMore(msgs, Least(n - 1, FirstLarge(encode, msgs[1..])));
      } else {
        PoisonedForever(decode, link', n - 1);
      }
    }
  }

  lemma TakeOneMore<T>(msgs: seq<T>, k: nat)
    requires k < |msgs|
    ensures [msgs[0]] + msgs[1..][..k] == msgs[..k + 1]
  {
  }

  lemma NothingWritten<T>(encode: T -> seq<Byte>, decode: Decoder<T>, n: nat)
    ensures Messages(Calls(decode, Link([], Bytewise(Wire<T>(encode, []))), n)) == []
  {
    AllDelivered(encode, decode, Link([], []), [], n);
  }

  lemma BytewiseCall<T>(encode: T -> seq<Byte>, decode: Decoder<T>, msgs: seq<T>)
    requires Coded(encode, decode, msgs) && msgs != []
    ensures var (o, link') := Recv(decode, Link([], Bytewise(Wire(encode, msgs))));
      if |encode(msgs[0])| < MAX_MESSAGE_SIZE then
        o == Received(msgs[0]) && link' == Link([], Bytewise(Wire(encode, msgs[1..])))
      else o == TooLarge && Recv(decode, link') == (TooLarge, link')
    ensures Coded(encode, decode, msgs[1..])
  {
    hide Recv, Bytewise, Find, Wire;
    var w := Wire(encode, msgs);
    WireHead(encode, msgs);
    TailCoded(encode, decode, msgs);
    assert [] + w == w;
    RecvBytewise(decode, [], w);
    Poisoned(decode, Link([], Bytewise(w)));
  }

  /** Enough calls on a stream that follows this script return exactly these messages. */
  ghost predicate Delivers<T(!new)>(decode: Decoder<T>, script: seq<Event>, msgs: seq<T>) {
    exists n: nat :: Messages(Calls(decode, Link([], script), n)) == msgs
  }

  /** Every way of cutting and interrupting the written bytes delivers the messages if and only if each payload has at most 255 bytes. */
  lemma DeliveredIffSmall<T(!new)>(encode: T -> seq<Byte>, decode: Decoder<T>, msgs: seq<T>)
    requires Coded(encode, decode, msgs)
    ensures (forall script | Flat(script) == Wire(encode, msgs) :: Delivers(decode, script, msgs))
       <==> Small(encode, msgs)
  {
    hide Calls, Messages, Coded, Small, Wire, Flat, Bytewise, Interruptions, Delivers;
    if Small(encode, msgs) {
      forall script | Flat(script) == Wire(encode, msgs) ensures Delivers(decode, script, msgs) {
        SmallDelivers(encode, decode, script, msgs);
      }
    } else {
      var script := Bytewise(Wire(encode, msgs));
      BytewiseFlat(Wire(encode, msgs));
      LargeStalls(encode, decode, msgs);
    }
  }

  lemma SmallDelivers<T(!new)>(encode: T -> seq<Byte>, decode: Decoder<T>, script: seq<Event>, msgs: seq<T>)
    requires Coded(encode, decode, msgs) && Small(encode, msgs) && Flat(script) == Wire(encode, msgs)
    ensures Delivers(decode, script, msgs)
  {
    hide Calls, Messages, Coded, Small, Wire, Flat, Interruptions;
    var n := |msgs| + Interruptions(script);
    assert [] + Flat(script) == Flat(script);
    AllDelivered(encode, decode, Link([], script), msgs, n);
  }

  lemma LargeIsThere<T>(encode: T -> seq<Byte>, msgs: seq<T>)
    requires !Small(encode, msgs)
    ensures FirstLarge(encode, msgs) < |msgs|
  {
    assert forall i | 0 <= i < FirstLarge(encode, msgs) :: |encode(msgs[i])| < MAX_MESSAGE_SIZE;
  }

  lemma LargeStalls<T(!new)>(encode: T -> seq<Byte>, decode: Decoder<T>, msgs: seq<T>)
    requires Coded(encode, decode, msgs) && !Small(encode, msgs)
    ensures !Delivers(decode, Bytewise(Wire(encode, msgs)), msgs)
  {
    hide Calls, Messages, Coded, Small, Wire, Bytewise;
    var k := FirstLarge(encode, msgs);
    LargeIsThere(encode, msgs);
    forall n: nat ensures Messages(Calls(decode, Link([], Bytewise(Wire(encode, msgs))), n)) != msgs {
      BytewiseReceives(encode, decode, msgs, n);
      assert |msgs[..Least(n, k)]| < |msgs|;
    }
  }

  /** One large read delivers a lone payload of up to 1023 bytes; no script delivers a longer one. */
  lemma LoneMessageLimit<T(!new)>(encode: T -> seq<Byte>, decode: Decoder<T>, m: T)
    requires Coded(encode, decode, [m])
    ensures (exists script :: Flat(script) == Wire(encode, [m]) && Delivers(decode, script, [m]))
       <==> |encode(m)| < 4 * MAX_MESSAGE_SIZE
  {
    var w := Wire(encode, [m]);
    assert m in [m];
    WireHead(encode, [m]);
    if |encode(m)| < 4 * MAX_MESSAGE_SIZE {
      LoneDelivered(encode, decode, m, w);
    } else {
      forall script | Flat(script) == w ensures !Delivers(decode, script, [m]) {
        LoneTooLong(decode, script, m);
      }
    }
  }

  lemma LoneFilled(w: seq<Byte>)
    requires 0 < |w| <= 4 * MAX_MESSAGE_SIZE
    ensures var link := Link([], [Chunk(w)]);
      Flat(link.script) == w && !ReadFails(link) && !ReadEnds(link) && Filled(link) == Link(w, [])
  {
    ConsFacts(Chunk(w), []);
    assert [Chunk(w)] + [] == [Chunk(w)];
    assert [] + w == w;
  }

  lemma LoneReceived<T>(decode: Decoder<T>, m: T, w: seq<Byte>)
    requires Find(w) < |w| <= 4 * MAX_MESSAGE_SIZE && decode(w[..Find(w)]) == Some(m)
    ensures Recv(decode, Link([], [Chunk(w)])).0 == Received(m)
  {
    hide Find, Filled, ReadFails, ReadEnds;
    LoneFilled(w);
    FindBound([]);
    assert Recv(decode, Link(w, [])).0 == Received(m);
  }

  lemma LoneDelivered<T(!new)>(encode: T -> seq<Byte>, decode: Decoder<T>, m: T, w: seq<Byte>)
    requires Find(w) == |encode(m)| < |w| <= 4 * MAX_MESSAGE_SIZE && decode(w[..Find(w)]) == Some(m)
    ensures Flat([Chunk(w)]) == w && Delivers(decode, [Chunk(w)], [m])
  {
    hide Find, Recv, Flat;
    LoneFilled(w);
    LoneReceived(decode, m, w);
    var link := Link([], [Chunk(w)]);
    var rest := Calls(decode, Recv(decode, link).1, 0);
    assert Calls(decode, link, 1) == [Received(m)] + rest;
    MessagesCons(Received(m), rest);
    assert Messages(Calls(decode, link, 1)) == [m];
  }

  lemma LoneTooLong<T(!new)>(decode: Decoder<T>, script: seq<Event>, m: T)
    requires Find(Flat(script)) >= 4 * MAX_MESSAGE_SIZE
    ensures !Delivers(decode, script, [m])
  {
    hide Find, Flat;
    forall n: nat ensures Messages(Calls(decode, Link([], script), n)) != [m] {
      assert [] + Flat(script) == Flat(script);
      NeverReceives(decode, Link([], script), n);
    }
  }

  /** No call takes a line that does not fit in the buffer. */
  lemma {:induction false} NeverReceives<T>(decode: Decoder<T>, link: Link, n: nat)
    requires Find(AllOf(link)) >= 4 * MAX_MESSAGE_SIZE >= |link.held|
    ensures Messages(Calls(decode, link, n)) == []
    decreases n
  {
    hide Find, Recv, AllOf;
    if n > 0 {
      var (o, link') := Recv(decode, link);
      RecvTakesLine(decode, link);
      HeldFits(decode, link);
      ReceivedFits(decode, link);
      MessagesCons(o, Calls(decode, link', n - 1));
      NeverReceives(decode, link', n - 1);
    }
  }

  lemma {:induction false} ReceivedFits<T>(decode: Decoder<T>, link: Link)
    requires |link.held| <= 4 * MAX_MESSAGE_SIZE
    ensures Recv(decode, link).0.Received? ==> Find(AllOf(link)) < 4 * MAX_MESSAGE_SIZE
    decreases Work(link.script)
  {
    hide Flat, Work, Interruptions;
    FilledFacts(link);
    FindAppend(link.held, Flat(link.script));
    if Find(link.held) == |link.held| < MAX_MESSAGE_SIZE && !ReadFails(link) && !ReadEnds(link) {
      ReceivedFits(decode, Filled(link));
    }
  }

  // ---- the reader and the writer as objects ---------------------------------------------

  class MessageReader<T> {
    const stream: Stream
    const buffer: array<Byte>
    const decode: Decoder<T>
    var loaded: nat

    ghost predicate Valid()
      reads this
    {
      buffer.Length == 4 * MAX_MESSAGE_SIZE && loaded <= buffer.Length
    }

    /** The bytes read and not yet delivered, and the stream behind them. */
    ghost function State(): Link
      requires Valid()
      reads this, buffer, stream
    {
      Link(buffer[..loaded], stream.script)
    }

    constructor (source: Stream, decoder: Decoder<T>)
      ensures Valid() && fresh(buffer) && stream == source && decode == decoder
      ensures State() == Link([], source.script)
    {
      stream := source;
      decode := decoder;
      buffer := new Byte[4 * MAX_MESSAGE_SIZE](_ => 0);
      loaded := 0;
    }

    /** Drops the first `n` bytes. */
    method Shift(n: nat)
      requires Valid() && n <= loaded
      modifies this`loaded, buffer
      ensures Valid() && buffer[..loaded] == old(buffer[n..loaded])
    {
      forall i | 0 <= i < buffer.Length - n {
        buffer[i] := buffer[i + n];
      }
      loaded := loaded - n;
    }

    /** One read into the free part of the buffer. */
    method Fill() returns (r: Read)
      requires Valid() && loaded < MAX_MESSAGE_SIZE
      modifies this`loaded, buffer, stream
      ensures Valid() && State() == old(Filled(State()))
      ensures r.Failed? <==> old(ReadFails(State()))
      ensures r.Bytes? && r.bytes == [] <==> old(ReadEnds(State()))
    {
      r := stream.ReadInto(buffer, loaded);
      match r
      case Failed =>
        assert old(buffer[..loaded]) + [] == buffer[..loaded];
      case Bytes(got) =>
        loaded := loaded + |got|;
    }

    method Receive() returns (o: Outcome<T>)
      requires Valid()
      modifies this`loaded, buffer, stream
      ensures Valid()
      ensures (o, State()) == old(Recv(decode, State()))
    {
      hide Find, Flat, Work, Filled, ReadFails, ReadEnds;
      ghost var start := State();
      while true
        invariant Valid()
        invariant Recv(decode, State()) == Recv(decode, start)
        decreases Work(stream.script)
      {
        FilledFacts(State());
        var position := Find(buffer[..loaded]);
        FindBound(buffer[..loaded]);
        if position < loaded {
          assert State().held[..position] == buffer[..position];
          match decode(buffer[..position])
          case None => return BadMessage;
          case Some(m) =>
            Shift(position + 1);
            return Received(m);
        }
        if loaded >= MAX_MESSAGE_SIZE {
          return TooLarge;
        }
        var r := Fill();
        match r
        case Failed => return ReadFailed;
        case Bytes(got) =>
          if got == [] {
            return Ended;
          }
      }
    }
  }

  /** The encoder could not serialize, or the assertion against newlines failed. */
  datatype SendResult = Sent | NotSerializable | Panicked

  class MessageWriter<T(!new)> {
    const encode: T -> Option<seq<Byte>>
    var sink: seq<Byte>

    /** The sink holds whole lines. */
    ghost predicate Valid()
      reads this
    {
      Closed(sink)
    }

    constructor (encoder: T -> Option<seq<Byte>>)
      ensures Valid() && encode == encoder && sink == []
    {
      encode := encoder;
      sink := [];
    }

    /** Adds one line to the sink, or nothing. */
    method Send(message: T) returns (r: SendResult)
      requires Valid()
      modifies this
      ensures Valid()
      ensures r.NotSerializable? <==> encode(message).None?
      ensures r.Panicked? <==> encode(message).Some? && NEWLINE in encode(message).value
      ensures !r.Sent? ==> sink == old(sink)
      ensures r.Sent? ==> old(sink) <= sink && Split(sink) == old(Split(sink)) + [encode(message).value]
    {
      match encode(message)
      case None => return NotSerializable;
      case Some(bytes) =>
        if NEWLINE in bytes {
          return Panicked;
        }
        SplitAppend(sink, bytes);
        sink := sink + bytes;
        sink := sink + [NEWLINE];
        return Sent;
    }
  }
}
