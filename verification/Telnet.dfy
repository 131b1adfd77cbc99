/** The control channel's Telnet layer (ftp/telnet.go): RFC 854, heading "TELNET
  * COMMAND STRUCTURE".
  *
  * A byte stream is read as tokens; `Wire` writes one token and `ScanToken` reads
  * one. `Chunk` says what one call of Read does to any stream, truncated ones
  * included; class `TelnetConn` is the code, with its loops and queues.
  */
module Telnet {
  import opened Wrappers
  import opened Sequences

  newtype byte = b: int | 0 <= b < 256

  const LF: byte := 10
  const SE: byte := 240
  const SB: byte := 250
  const WILL: byte := 251
  const WONT: byte := 252
  const DO: byte := 253
  const DONT: byte := 254
  const IAC: byte := 255

  // --------------------------------------------------------------- tokens

  /** A piece of a subnegotiation: a plain byte, or IAC and the byte after it. */
  datatype Item = Plain(b: byte) | Pair(b: byte)

  datatype Token =
    | Data(b: byte)
    | Escaped // IAC IAC, the data byte 255
    | Will(opt: byte)
    | Wont(opt: byte)
    | Do(opt: byte)
    | Dont(opt: byte)
    | Subnegotiation(opt: byte, body: seq<Item>)
    | Command(code: byte)

  /** The codes that are followed by an option byte. */
  predicate HasOption(code: byte) {
    code == SB || code == WILL || code == WONT || code == DO || code == DONT
  }

  predicate ValidItem(i: Item) {
    match i
    case Plain(b) => b != IAC
    case Pair(b) => b != SE
  }

  predicate ValidToken(t: Token) {
    match t
    case Data(b) => b != IAC
    case Subnegotiation(_, body) => forall i :: i in body ==> ValidItem(i)
    case Command(c) => c != IAC && !HasOption(c)
    case _ => true
  }

  predicate Valid(ts: seq<Token>) {
    forall t :: t in ts ==> ValidToken(t)
  }

  function WireBody(body: seq<Item>): seq<byte> {
    if body == [] then [IAC, SE]
    else (if body[0].Plain? then [body[0].b] else [IAC, body[0].b]) + WireBody(body[1..])
  }

  function Wire(t: Token): seq<byte> {
    match t
    case Data(b) => [b]
    case Escaped => [IAC, IAC]
    case Will(o) => [IAC, WILL, o]
    case Wont(o) => [IAC, WONT, o]
    case Do(o) => [IAC, DO, o]
    case Dont(o) => [IAC, DONT, o]
    case Subnegotiation(o, body) => [IAC, SB, o] + WireBody(body)
    case Command(c) => [IAC, c]
  }

  function WireAll(ts: seq<Token>): seq<byte> {
    FlatMap(Wire, ts)
  }

  /** The pure decoder: the data bytes of a token stream. */
  function Payload(ts: seq<Token>): seq<byte> {
    FlatMap(DataOf, ts)
  }

  function DataOf(t: Token): seq<byte> {
    match t
    case Data(b) => [b]
    case Escaped => [IAC]
    case _ => []
  }

  /** The options of the WILL (WONT, DO, DONT) tokens, in order. */
  function Options(ts: seq<Token>, verb: byte): seq<byte> {
    FlatMap((t: Token) => OptionOf(t, verb), ts)
  }

  function OptionOf(t: Token, verb: byte): seq<byte> {
    match t
    case Will(o) => if verb == WILL then [o] else []
    case Wont(o) => if verb == WONT then [o] else []
    case Do(o) => if verb == DO then [o] else []
    case Dont(o) => if verb == DONT then [o] else []
    case _ => []
  }

  /** The wire form in bytes, as RFC 854 has it. */
  lemma WireIsLiteral(t: Token)
    ensures match t
            case Data(b) => Wire(t) == [b] && DataOf(t) == [b]
            case Escaped => Wire(t) == [255, 255] && DataOf(t) == [255]
            case Will(o) => Wire(t) == [255, 251, o] && DataOf(t) == []
            case Wont(o) => Wire(t) == [255, 252, o] && DataOf(t) == []
            case Do(o) => Wire(t) == [255, 253, o] && DataOf(t) == []
            case Dont(o) => Wire(t) == [255, 254, o] && DataOf(t) == []
            case Subnegotiation(o, body) =>
              && Wire(t) == [255, 250, o] + WireBody(body) && DataOf(t) == []
              && WireBody([]) == [255, 240]
              && (body != [] ==>
                    WireBody(body) ==
                    (match body[0] case Plain(b) => [b] case Pair(b) => [255, b]) + WireBody(body[1..]))
            case Command(c) => Wire(t) == [255, c] && DataOf(t) == []
    ensures t.Command? && ValidToken(t) ==> t.code < 250
  {
  }

  // ------------------------------------------------------- reading tokens

  /** Where a stream ends too early, as far as Read can tell. */
  datatype Cut = BeforeToken | AfterIac | InToken

  datatype Scanned = Read(token: Token, rest: seq<byte>) | Short(cut: Cut)

  function ScanBody(input: seq<byte>): Option<(seq<Item>, seq<byte>)> {
    if input == [] then None
    else if input[0] != IAC then
      match ScanBody(input[1..])
      case None => None
      case Some(p) => Some(([Plain(input[0])] + p.0, p.1))
    else if |input| == 1 then None
    else if input[1] == SE then Some(([], input[2..]))
    else
      match ScanBody(input[2..])
      case None => None
      case Some(p) => Some(([Pair(input[1])] + p.0, p.1))
  }

  function ScanToken(input: seq<byte>): Scanned {
    if input == [] then Short(BeforeToken)
    else if input[0] != IAC then Read(Data(input[0]), input[1..])
    else if |input| == 1 then Short(AfterIac)
    else if input[1] == IAC then Read(Escaped, input[2..])
    else if !HasOption(input[1]) then Read(Command(input[1]), input[2..])
    else if |input| == 2 then Short(InToken)
    else if input[1] == WILL then Read(Will(input[2]), input[3..])
    else if input[1] == WONT then Read(Wont(input[2]), input[3..])
    else if input[1] == DO then Read(Do(input[2]), input[3..])
    else if input[1] == DONT then Read(Dont(input[2]), input[3..])
    else
      match ScanBody(input[3..])
      case None => Short(InToken)
      case Some(p) => Read(Subnegotiation(input[2], p.0), p.1)
  }

  lemma {:induction false} BodyRoundTrip(body: seq<Item>, rest: seq<byte>)
    requires forall i :: i in body ==> ValidItem(i)
    ensures ScanBody(WireBody(body) + rest) == Some((body, rest))
  {
    var input := WireBody(body) + rest;
    if body == [] {
      assert input[2..] == rest;
    } else {
      BodyRoundTrip(body[1..], rest);
      var width := if body[0].Plain? then 1 else 2;
      assert ValidItem(body[0]);
      assert input[width..] == WireBody(body[1..]) + rest;
      assert [body[0]] + body[1..] == body;
    }
  }

  lemma {:induction false} ScannedBodyIsWire(input: seq<byte>)
    ensures ScanBody(input).Some? ==>
              && (forall i :: i in ScanBody(input).value.0 ==> ValidItem(i))
              && input == WireBody(ScanBody(input).value.0) + ScanBody(input).value.1
              && |ScanBody(input).value.1| < |input|
    decreases |input|
  {
    if ScanBody(input).Some? {
      var (body, rest) := ScanBody(input).value;
      if input[0] != IAC {
        ScannedBodyIsWire(input[1..]);
        assert body[1..] == ScanBody(input[1..]).value.0;
      } else if input[1] != SE {
        ScannedBodyIsWire(input[2..]);
        assert body[1..] == ScanBody(input[2..]).value.0;
      }
    }
  }

  /** Scanning inverts writing, whatever follows. */
  lemma TokenRoundTrip(t: Token, rest: seq<byte>)
    requires ValidToken(t)
    ensures ScanToken(Wire(t) + rest) == Read(t, rest)
  {
    var input := Wire(t) + rest;
    if t.Subnegotiation? {
      BodyRoundTrip(t.body, rest);
      assert input[3..] == WireBody(t.body) + rest;
    } else {
      assert input[|Wire(t)|..] == rest;
    }
  }

  /** And writing inverts scanning. */
  lemma ScannedTokenIsWire(input: seq<byte>)
    ensures ScanToken(input).Read? ==>
              && ValidToken(ScanToken(input).token)
              && input == Wire(ScanToken(input).token) + ScanToken(input).rest
              && |ScanToken(input).rest| < |input|
  {
    if ScanToken(input).Read? && ScanToken(input).token.Subnegotiation? {
      ScannedBodyIsWire(input[3..]);
      assert input == input[..3] + input[3..];
    }
  }

  function ParseTokens(input: seq<byte>): Option<seq<Token>>
    decreases |input|
  {
    ScannedTokenIsWire(input);
    if input == [] then Some([])
    else if ScanToken(input).Short? then None
    else
      match ParseTokens(ScanToken(input).rest)
      case None => None
      case Some(ts) => Some([ScanToken(input).token] + ts)
  }

  /** The complete token streams are exactly the ones that parse. */
  lemma {:induction false} ParseInvertsWire(ts: seq<Token>)
    requires Valid(ts)
    ensures ParseTokens(WireAll(ts)) == Some(ts)
  {
    if ts != [] {
      TokenRoundTrip(ts[0], WireAll(ts[1..]));
      ParseInvertsWire(ts[1..]);
      assert [ts[0]] + ts[1..] == ts;
    }
  }

  lemma {:induction false} WireInvertsParse(input: seq<byte>)
    ensures ParseTokens(input).Some? ==> Valid(ParseTokens(input).value) && WireAll(ParseTokens(input).value) == input
    decreases |input|
  {
    if input != [] && ParseTokens(input).Some? {
      ScannedTokenIsWire(input);
      var rest := ScanToken(input).rest;
      WireInvertsParse(rest);
      assert ParseTokens(input).value[1..] == ParseTokens(rest).value;
    }
  }

  // -------------------------------------------------- one call of Read

  datatype Status = Good | Eof | Fault

  /** The effect of one call: the bytes put into the buffer, whether the call
    * reports them, the options queued, the rest of the stream, and the error. */
  datatype Chunk =
    Chunk(out: seq<byte>, reported: bool, will: seq<byte>, doo: seq<byte>, rest: seq<byte>, status: Status)

  /** `fault` says that the stream ends in an error other than EOF. */
  function ReadChunk(input: seq<byte>, room: nat, fault: bool): Chunk
    decreases |input|
  {
    ScannedTokenIsWire(input);
    if room == 0 then Chunk([], true, [], [], input, Good)
    else
      match ScanToken(input)
      case Short(cut) =>
        Chunk([], cut.InToken? || (cut.BeforeToken? && !fault), [], [], [], if fault then Fault else Eof)
      case Read(t, rest) =>
        if t == Data(LF) then Chunk([LF], true, [], [], rest, Good)
        else Before(t, ReadChunk(rest, room - |DataOf(t)|, fault))
  }

  function Before(t: Token, c: Chunk): Chunk {
    c.(out := DataOf(t) + c.out, will := OptionOf(t, WILL) + c.will, doo := OptionOf(t, DO) + c.doo)
  }

  /** A chunk that goes on from what has been gathered before. */
  function Onto(out: seq<byte>, will: seq<byte>, doo: seq<byte>, c: Chunk): Chunk {
    c.(out := out + c.out, will := will + c.will, doo := doo + c.doo)
  }

  lemma OntoBefore(out: seq<byte>, will: seq<byte>, doo: seq<byte>, t: Token, c: Chunk)
    ensures Onto(out, will, doo, Before(t, c)) ==
            Onto(out + DataOf(t), will + OptionOf(t, WILL), doo + OptionOf(t, DO), c)
  {
    Associative(out, DataOf(t), c.out);
    Associative(will, OptionOf(t, WILL), c.will);
    Associative(doo, OptionOf(t, DO), c.doo);
  }

  /** Read's loop on its way to the chunk `goal`: what it has gathered, and what
    * the rest of the stream will add while it goes on. */
  ghost predicate Building(goal: Chunk, more: bool, got: Chunk, room: nat, fault: bool) {
    goal == if more then Onto(got.out, got.will, got.doo, ReadChunk(got.rest, room, fault)) else got
  }

  /** What one turn of the loop gathers when the scanner says `scanned`. */
  function Gather(got: Chunk, scanned: Scanned, fault: bool): Chunk {
    match scanned
    case Short(cut) =>
      got.(reported := cut.InToken? || (cut.BeforeToken? && !fault), rest := [], status := if fault then Fault else Eof)
    case Read(t, rest) =>
      Chunk(got.out + DataOf(t), true, got.will + OptionOf(t, WILL), got.doo + OptionOf(t, DO), rest, Good)
  }

  predicate GoesOn(scanned: Scanned) {
    scanned.Read? && scanned.token != Data(LF)
  }

  lemma Built(goal: Chunk, more: bool, got: Chunk, room: nat, fault: bool)
    requires Building(goal, more, got, room, fault) && (!more || (room == 0 && got.reported && got.status == Good))
    ensures goal == got
  {
    assert got.out + [] == got.out && got.will + [] == got.will && got.doo + [] == got.doo;
  }

  lemma Turn(goal: Chunk, got: Chunk, room: nat, fault: bool)
    requires room > 0 && Building(goal, true, got, room, fault)
    ensures var scanned := ScanToken(got.rest);
            && (scanned.Read? ==> room >= |DataOf(scanned.token)| && |scanned.rest| < |got.rest|)
            && Building(goal, GoesOn(scanned), Gather(got, scanned, fault),
                        if scanned.Read? then room - |DataOf(scanned.token)| else 0, fault)
  {
    match ScanToken(got.rest)
    case Short(_) =>
    case Read(t, rest) =>
      ScannedTokenIsWire(got.rest);
      ChunkStep(t, rest, room, fault);
      if t != Data(LF) {
        OntoBefore(got.out, got.will, got.doo, t, ReadChunk(rest, room - |DataOf(t)|, fault));
      }
  }

  lemma ChunkStep(t: Token, rest: seq<byte>, room: nat, fault: bool)
    requires ValidToken(t) && room > 0
    ensures ReadChunk(Wire(t) + rest, room, fault) ==
            if t == Data(LF) then Chunk([LF], true, [], [], rest, Good)
            else Before(t, ReadChunk(rest, room - |DataOf(t)|, fault))
  {
    TokenRoundTrip(t, rest);
  }

  // --------------------------------------------- Read on complete streams

  lemma WireAllConcat(a: seq<Token>, b: seq<Token>)
    ensures WireAll(a + b) == WireAll(a) + WireAll(b)
  {
    FlatMapConcat(Wire, a, b);
  }

  lemma PayloadConcat(a: seq<Token>, b: seq<Token>)
    ensures Payload(a + b) == Payload(a) + Payload(b)
  {
    FlatMapConcat(DataOf, a, b);
  }

  lemma OptionsConcat(a: seq<Token>, b: seq<Token>, verb: byte)
    ensures Options(a + b, verb) == Options(a, verb) + Options(b, verb)
  {
    FlatMapConcat((t: Token) => OptionOf(t, verb), a, b);
  }

  lemma OptionsCons(t: Token, ts: seq<Token>, verb: byte)
    ensures Options([t] + ts, verb) == OptionOf(t, verb) + Options(ts, verb)
  {
    FlatMapCons((u: Token) => OptionOf(u, verb), t, ts);
  }

  /** The chunk that decodes the tokens `taken` and leaves the tokens `left`. */
  function Decoded(taken: seq<Token>, left: seq<Token>, status: Status): Chunk {
    Chunk(Payload(taken), true, Options(taken, WILL), Options(taken, DO), WireAll(left), status)
  }

  lemma DecodedCons(t: Token, taken: seq<Token>, left: seq<Token>, status: Status)
    ensures Before(t, Decoded(taken, left, status)) == Decoded([t] + taken, left, status)
  {
    FlatMapCons(DataOf, t, taken);
    OptionsCons(t, taken, WILL);
    OptionsCons(t, taken, DO);
  }

  lemma DecodedNewline(left: seq<Token>)
    ensures Chunk([LF], true, [], [], WireAll(left), Good) == Decoded([Data(LF)], left, Good)
  {
    FlatMapOne(DataOf, Data(LF));
    OptionsCons(Data(LF), [], WILL);
    OptionsCons(Data(LF), [], DO);
  }

  /** One call of Read on a complete stream takes whole tokens from its front: it
    * delivers their data and queues their options, and it reports the end only
    * after the last token. */
  lemma {:induction false} ChunkTakesWholeTokens(ts: seq<Token>, room: nat)
    returns (taken: seq<Token>, left: seq<Token>, status: Status)
    requires Valid(ts)
    ensures ts == taken + left && status != Fault && (status == Eof ==> left == [])
    ensures ReadChunk(WireAll(ts), room, false) == Decoded(taken, left, status)
  {
    if room == 0 || ts == [] {
      taken, left, status := [], ts, if room == 0 then Good else Eof;
    } else {
      ChunkStep(ts[0], WireAll(ts[1..]), room, false);
      if ts[0] == Data(LF) {
        taken, left, status := [ts[0]], ts[1..], Good;
        DecodedNewline(left);
      } else {
        var taken1;
        taken1, left, status := ChunkTakesWholeTokens(ts[1..], room - |DataOf(ts[0])|);
        taken := [ts[0]] + taken1;
        DecodedCons(ts[0], taken1, left, status);
      }
    }
  }

  /** A chunk fits the buffer; without an error it fills it or ends in a newline. */
  predicate Stops(c: Chunk, room: nat) {
    |c.out| <= room && (c.status == Good ==> |c.out| == room || (c.out != [] && c.out[|c.out| - 1] == 10))
  }

  lemma StopsOneMore(t: Token, c: Chunk, room: nat)
    requires room >= |DataOf(t)| && Stops(c, room - |DataOf(t)|)
    ensures Stops(Before(t, c), room)
  {
  }

  lemma {:induction false} EveryChunkStops(input: seq<byte>, room: nat, fault: bool)
    ensures Stops(ReadChunk(input, room, fault), room)
    decreases |input|
  {
    if room > 0 && ScanToken(input).Read? {
      ScannedTokenIsWire(input);
      var t, rest := ScanToken(input).token, ScanToken(input).rest;
      ChunkStep(t, rest, room, fault);
      if t != Data(LF) {
        EveryChunkStops(rest, room - |DataOf(t)|, fault);
        StopsOneMore(t, ReadChunk(rest, room - |DataOf(t)|, fault), room);
      }
    }
  }

  /** A newline ends a chunk, on every stream, complete or not. */
  lemma {:induction false} NewlineOnlyAtTheEnd(input: seq<byte>, room: nat, fault: bool, i: nat)
    requires i + 1 < |ReadChunk(input, room, fault).out|
    ensures ReadChunk(input, room, fault).out[i] != 10
    decreases |input|
  {
    ScannedTokenIsWire(input);
    var t, rest := ScanToken(input).token, ScanToken(input).rest;
    ChunkStep(t, rest, room, fault);
    if i >= |DataOf(t)| {
      NewlineOnlyAtTheEnd(rest, room - |DataOf(t)|, fault, i - |DataOf(t)|);
    }
  }

  /** The end of the stream is reported as what it is: EOF, or the reader's error. */
  lemma {:induction false} EndIsReportedAsItIs(input: seq<byte>, room: nat, fault: bool)
    ensures ReadChunk(input, room, fault).status == Eof ==> !fault
    ensures ReadChunk(input, room, fault).status == Fault ==> fault
    decreases |input|
  {
    ScannedTokenIsWire(input);
    if room > 0 && ScanToken(input).Read? {
      EndIsReportedAsItIs(ScanToken(input).rest, room - |DataOf(ScanToken(input).token)|, fault);
    }
  }

  /** Read on tokens and an unfinished one after them, with room to spare and no
    * newline. At EOF it reports all the data, except that it reports none when the
    * stream ends right after a 255; at any other error it reports the data only when
    * the stream ends further inside a command. */
  lemma {:induction false} EndOfStream(ts: seq<Token>, tail: seq<byte>, room: nat, fault: bool)
    requires Valid(ts) && ScanToken(tail).Short? && room > |Payload(ts)| && 10 !in Payload(ts)
    ensures var c := ReadChunk(WireAll(ts) + tail, room, fault);
            && c.out == Payload(ts) && c.rest == [] && c.status == (if fault then Fault else Eof)
            && (c.reported <==> if |tail| <= 1 then tail == [] && !fault else true)
  {
    if ts == [] {
      assert [] + tail == tail;
      TailEnds(tail, room, fault);
    } else {
      StreamHead(ts, tail);
      DataStep(ts[0], WireAll(ts[1..]) + tail, room, fault);
      EndOfStream(ts[1..], tail, room - |DataOf(ts[0])|, fault);
    }
  }

  /** Every stream is tokens and an unfinished one, which is empty, a 255, or begins
    * with 255 and a code that takes an option. */
  lemma {:induction false} EveryStreamIsTokens(input: seq<byte>) returns (ts: seq<Token>, tail: seq<byte>)
    ensures Valid(ts) && input == WireAll(ts) + tail && ScanToken(tail).Short?
    ensures tail != [] ==> tail[0] == 255 && (|tail| > 1 ==> 250 <= tail[1] <= 254)
    decreases |input|
  {
    if ScanToken(input).Short? {
      ts, tail := [], input;
      assert [] + tail == tail;
    } else {
      ScannedTokenIsWire(input);
      var t, more := ScanToken(input).token, ScanToken(input).rest;
      var rest;
      rest, tail := EveryStreamIsTokens(more);
      ts := [t] + rest;
      PayloadHead(ts);
      assert ts[1..] == rest;
      Associative(Wire(t), WireAll(rest), tail);
    }
  }

  lemma StreamHead(ts: seq<Token>, tail: seq<byte>)
    requires Valid(ts) && ts != []
    ensures ValidToken(ts[0]) && Valid(ts[1..])
    ensures WireAll(ts) + tail == Wire(ts[0]) + (WireAll(ts[1..]) + tail)
    ensures Payload(ts) == DataOf(ts[0]) + Payload(ts[1..])
    ensures 10 !in Payload(ts) ==> 10 !in DataOf(ts[0]) && 10 !in Payload(ts[1..])
  {
    PayloadHead(ts);
    Associative(Wire(ts[0]), WireAll(ts[1..]), tail);
  }

  lemma TailEnds(tail: seq<byte>, room: nat, fault: bool)
    requires ScanToken(tail).Short? && room > 0
    ensures var c := ReadChunk(tail, room, fault);
            && c.out == [] && c.rest == [] && c.status == (if fault then Fault else Eof)
            && (c.reported <==> if |tail| <= 1 then tail == [] && !fault else true)
  {
  }

  lemma DataStep(t: Token, rest: seq<byte>, room: nat, fault: bool)
    requires ValidToken(t) && room > |DataOf(t)| && 10 !in DataOf(t)
    ensures var c, after := ReadChunk(Wire(t) + rest, room, fault), ReadChunk(rest, room - |DataOf(t)|, fault);
            && c.out == DataOf(t) + after.out && c.rest == after.rest
            && c.status == after.status && c.reported == after.reported
  {
    ChunkStep(t, rest, room, fault);
    assert 10 in [LF];
  }

  lemma PayloadHead(ts: seq<Token>)
    requires ts != []
    ensures Payload(ts) == DataOf(ts[0]) + Payload(ts[1..]) && WireAll(ts) == Wire(ts[0]) + WireAll(ts[1..])
  {
  }

  datatype Session = Session(out: seq<byte>, will: seq<byte>, doo: seq<byte>, rest: seq<byte>, ended: bool)

  /** Calls of Read with buffers of the given sizes, until one reports EOF. */
  function ReadAll(input: seq<byte>, sizes: seq<nat>): Session
    decreases |sizes|
  {
    if sizes == [] then Session([], [], [], input, false)
    else
      var c := ReadChunk(input, sizes[0], false);
      if c.status != Good then Session(c.out, c.will, c.doo, c.rest, true)
      else
        var s := ReadAll(c.rest, sizes[1..]);
        Session(c.out + s.out, c.will + s.will, c.doo + s.doo, s.rest, s.ended)
  }

  /** The buffer sizes do not matter: what has been read is always the decoding of
    * a prefix of the tokens, and when the end is reported, of all of them. */
  lemma {:induction false} SizesDoNotMatter(ts: seq<Token>, sizes: seq<nat>)
    returns (taken: seq<Token>, left: seq<Token>)
    requires Valid(ts)
    ensures ts == taken + left
    ensures var s := ReadAll(WireAll(ts), sizes);
            s == Session(Payload(taken), Options(taken, WILL), Options(taken, DO), WireAll(left), s.ended)
            && (s.ended ==> taken == ts && left == [])
    decreases |sizes|
  {
    if sizes == [] {
      taken, left := [], ts;
    } else {
      var status;
      taken, left, status := ChunkTakesWholeTokens(ts, sizes[0]);
      if status == Good {
        var taken1, left1 := SizesDoNotMatter(left, sizes[1..]);
        PayloadConcat(taken, taken1);
        OptionsConcat(taken, taken1, WILL);
        OptionsConcat(taken, taken1, DO);
        Associative(taken, taken1, left1);
        taken, left := taken + taken1, left1;
      }
    }
  }

  /** With positive sizes the end is reported after at most one more call than
    * there are data bytes. */
  lemma {:induction false} EndIsReached(ts: seq<Token>, sizes: seq<nat>)
    requires Valid(ts) && (forall i :: 0 <= i < |sizes| ==> sizes[i] > 0) && |sizes| > |Payload(ts)|
    ensures ReadAll(WireAll(ts), sizes).ended
    decreases |sizes|
  {
    var taken, left, status := ChunkTakesWholeTokens(ts, sizes[0]);
    if status == Good {
      EveryChunkStops(WireAll(ts), sizes[0], false);
      PayloadConcat(taken, left);
      EndIsReached(left, sizes[1..]);
    }
  }

  /** Reading a complete stream with any positive buffer sizes gives exactly the
    * decoder's output and queues exactly the WILL and DO options, in order. */
  lemma ReadIsTheDecoder(input: seq<byte>, sizes: seq<nat>)
    requires ParseTokens(input).Some?
    requires (forall i :: 0 <= i < |sizes| ==> sizes[i] > 0) && |sizes| > |Payload(ParseTokens(input).value)|
    ensures var ts, s := ParseTokens(input).value, ReadAll(input, sizes);
            s.ended && s.out == Payload(ts) && s.will == Options(ts, WILL) && s.doo == Options(ts, DO)
  {
    WireInvertsParse(input);
    var ts := ParseTokens(input).value;
    EndIsReached(ts, sizes);
    var _, _ := SizesDoNotMatter(ts, sizes);
  }

  // -------------------------------------------------------------- writing

  /** The answers to the queued options: all WONTs, then all DONTs. */
  function Refusals(will: seq<byte>, doo: seq<byte>): seq<Token> {
    seq(|will|, i requires 0 <= i < |will| => Wont(will[i])) + seq(|doo|, i requires 0 <= i < |doo| => Dont(doo[i]))
  }

  /** Only the first 255 of a buffer is doubled. */
  function Escape(buf: seq<byte>): seq<byte> {
    if buf == [] then []
    else if buf[0] == IAC then [IAC] + buf
    else [buf[0]] + Escape(buf[1..])
  }

  function CountIac(buf: seq<byte>): nat {
    if buf == [] then 0 else (if buf[0] == IAC then 1 else 0) + CountIac(buf[1..])
  }

  function DataTokens(buf: seq<byte>): seq<Token> {
    seq(|buf|, i requires 0 <= i < |buf| => if buf[i] == IAC then Escaped else Data(buf[i]))
  }

  lemma {:induction false} DataTokensCarry(buf: seq<byte>)
    ensures Valid(DataTokens(buf)) && Payload(DataTokens(buf)) == buf
    ensures Options(DataTokens(buf), WONT) == [] && Options(DataTokens(buf), DONT) == []
  {
    if buf != [] {
      DataTokensCarry(buf[1..]);
      assert DataTokens(buf)[1..] == DataTokens(buf[1..]);
    }
  }

  lemma DataTokensHead(buf: seq<byte>)
    requires buf != []
    ensures WireAll(DataTokens(buf)) == (if buf[0] == IAC then [IAC, IAC] else [buf[0]]) + WireAll(DataTokens(buf[1..]))
  {
    var t := if buf[0] == IAC then Escaped else Data(buf[0]);
    assert DataTokens(buf) == [t] + DataTokens(buf[1..]);
    FlatMapCons(Wire, t, DataTokens(buf[1..]));
  }

  lemma {:induction false} PlainDataWire(buf: seq<byte>)
    requires CountIac(buf) == 0
    ensures WireAll(DataTokens(buf)) == buf
  {
    if buf != [] {
      PlainDataWire(buf[1..]);
      DataTokensHead(buf);
    }
  }

  lemma {:induction false} DataTokensWire(buf: seq<byte>)
    requires CountIac(buf) <= 1
    ensures WireAll(DataTokens(buf)) == Escape(buf)
  {
    if buf != [] {
      DataTokensHead(buf);
      if buf[0] == IAC {
        PlainDataWire(buf[1..]);
        assert [IAC, IAC] + buf[1..] == [IAC] + buf;
      } else {
        DataTokensWire(buf[1..]);
      }
    }
  }

  /** The data is never longer than its encoding, and shorter as soon as the
    * encoding contains a 255. */
  lemma {:induction false} IacCostsSpace(ts: seq<Token>)
    requires Valid(ts)
    ensures |Payload(ts)| <= |WireAll(ts)|
    ensures CountIac(WireAll(ts)) > 0 ==> |Payload(ts)| < |WireAll(ts)|
  {
    if ts != [] {
      IacCostsSpace(ts[1..]);
      assert ValidToken(ts[0]);
      assert |WireAll(ts)| == |Wire(ts[0])| + |WireAll(ts[1..])|;
      if ts[0].Data? {
        assert WireAll(ts)[1..] == WireAll(ts[1..]);
      }
    }
  }

  /** What a reader makes of one escaped buffer. */
  function Received(buf: seq<byte>): Option<seq<byte>> {
    match ParseTokens(Escape(buf))
    case None => None
    case Some(ts) => Some(Payload(ts))
  }

  lemma ParseStep(t: Token, rest: seq<byte>)
    requires ValidToken(t)
    ensures ParseTokens(Wire(t) + rest) ==
              match ParseTokens(rest) case None => None case Some(ts) => Some([t] + ts)
  {
    TokenRoundTrip(t, rest);
  }

  /** One more data byte in front, or the doubled 255 in front. */
  lemma ReceivedStep(buf: seq<byte>)
    requires buf != []
    ensures var rest := if buf[0] == IAC then ParseTokens(buf[1..]) else ParseTokens(Escape(buf[1..]));
            Received(buf) == match rest case None => None case Some(ts) => Some([buf[0]] + Payload(ts))
  {
    var t := if buf[0] == IAC then Escaped else Data(buf[0]);
    var after := if buf[0] == IAC then buf[1..] else Escape(buf[1..]);
    assert Escape(buf) == Wire(t) + after;
    ParseStep(t, after);
    if ParseTokens(after).Some? {
      assert ([t] + ParseTokens(after).value)[1..] == ParseTokens(after).value;
    }
  }

  /** A write survives the round trip exactly when it holds at most one 255. */
  lemma {:induction false} WriteSurvivesExactly(buf: seq<byte>)
    ensures Received(buf) == Some(buf) <==> CountIac(buf) <= 1
  {
    if buf != [] {
      ReceivedStep(buf);
      assert buf == [buf[0]] + buf[1..];
      if buf[0] == IAC {
        UnescapedSurvivesExactly(buf[1..]);
      } else {
        WriteSurvivesExactly(buf[1..]);
      }
    }
  }

  lemma UnescapedSurvivesExactly(buf: seq<byte>)
    ensures ParseTokens(buf).Some? && Payload(ParseTokens(buf).value) == buf <==> CountIac(buf) == 0
  {
    if CountIac(buf) == 0 {
      DataTokensCarry(buf);
      PlainDataWire(buf);
      ParseInvertsWire(DataTokens(buf));
    } else if ParseTokens(buf).Some? {
      WireInvertsParse(buf);
      IacCostsSpace(ParseTokens(buf).value);
    }
  }

  function WontBytes(o: byte): seq<byte> { [255, 252, o] }

  function DontBytes(o: byte): seq<byte> { [255, 254, o] }

  /** The answers in bytes: 255 252 for each WILL, then 255 254 for each DO. */
  lemma {:induction false} RefusalsAreLiteral(will: seq<byte>, doo: seq<byte>)
    ensures WireAll(Refusals(will, doo)) == FlatMap(WontBytes, will) + FlatMap(DontBytes, doo)
    decreases |will| + |doo|
  {
    var ts := Refusals(will, doo);
    if will != [] {
      RefusalsAreLiteral(will[1..], doo);
      assert ts[1..] == Refusals(will[1..], doo);
      PayloadHead(ts);
      Associative(WontBytes(will[0]), FlatMap(WontBytes, will[1..]), FlatMap(DontBytes, doo));
    } else if doo != [] {
      RefusalsAreLiteral(will, doo[1..]);
      assert ts[1..] == Refusals(will, doo[1..]);
      PayloadHead(ts);
    }
  }

  // ------------------------------------------- whole lives of a connection

  datatype Event =
    | Receive(will: seq<byte>, doo: seq<byte>) // a Read has queued these options
    | Write(buf: seq<byte>)
    | Flush

  datatype Life = Life(will: seq<byte>, doo: seq<byte>, written: seq<byte>)

  function WriteOptions(l: Life): Life {
    Life([], [], l.written + WireAll(Refusals(l.will, l.doo)))
  }

  /** What each write puts on the wire: the answers still owed, WONTs before DONTs,
    * and then the payload. */
  lemma WritesAreLiteral(l: Life, e: Event)
    requires !e.Receive?
    ensures Happen(l, e).written ==
            l.written + (FlatMap(WontBytes, l.will) + FlatMap(DontBytes, l.doo))
            + if e.Write? then Escape(e.buf) else []
    ensures Happen(l, e).will == [] && Happen(l, e).doo == []
  {
    RefusalsAreLiteral(l.will, l.doo);
  }

  /** A WILL read from the wire is answered WONT, and a DO is answered DONT. */
  lemma OptionIsRefused(o: byte)
    ensures var c := ReadChunk([255, 251, o], 1, false);
            c.will == [o] && c.doo == [] && WriteOptions(Life(c.will, c.doo, [])).written == [255, 252, o]
    ensures var c := ReadChunk([255, 253, o], 1, false);
            c.will == [] && c.doo == [o] && WriteOptions(Life(c.will, c.doo, [])).written == [255, 254, o]
  {
    assert [255, 251, o] == Wire(Will(o)) + [] && [255, 253, o] == Wire(Do(o)) + [];
    ChunkStep(Will(o), [], 1, false);
    ChunkStep(Do(o), [], 1, false);
    RefusalsAreLiteral([o], []);
    RefusalsAreLiteral([], [o]);
    assert [o][1..] == [];
  }

  function Happen(l: Life, e: Event): Life {
    match e
    case Receive(will, doo) => l.(will := l.will + will, doo := l.doo + doo)
    case Write(buf) => var o := WriteOptions(l); o.(written := o.written + Escape(buf))
    case Flush => WriteOptions(l)
  }

  function Live(l: Life, es: seq<Event>): Life
    decreases |es|
  {
    if es == [] then l else Live(Happen(l, es[0]), es[1..])
  }

  function Payloads(es: seq<Event>): seq<byte> {
    if es == [] then [] else (if es[0].Write? then es[0].buf else []) + Payloads(es[1..])
  }

  function Queued(es: seq<Event>, verb: byte): seq<byte> {
    if es == [] then []
    else
      (if !es[0].Receive? then [] else if verb == WILL then es[0].will else if verb == DO then es[0].doo else [])
      + Queued(es[1..], verb)
  }

  lemma {:induction false} RefusalsCarry(will: seq<byte>, doo: seq<byte>)
    ensures Valid(Refusals(will, doo)) && Payload(Refusals(will, doo)) == []
    ensures Options(Refusals(will, doo), WONT) == will && Options(Refusals(will, doo), DONT) == doo
    decreases |will| + |doo|
  {
    var ts := Refusals(will, doo);
    if will != [] {
      RefusalsCarry(will[1..], doo);
      assert ts[1..] == Refusals(will[1..], doo);
    } else if doo != [] {
      RefusalsCarry(will, doo[1..]);
      assert ts[1..] == Refusals(will, doo[1..]);
    }
  }

  /** The writes that the escaping can carry. */
  predicate Carried(es: seq<Event>) {
    forall e :: e in es && e.Write? ==> CountIac(e.buf) <= 1
  }

  /** The wire as tokens `ts`; its answers and the options still queued are
    * together what has been queued so far. */
  ghost predicate Accounts(l: Life, ts: seq<Token>, data: seq<byte>, will: seq<byte>, doo: seq<byte>) {
    && Valid(ts) && l.written == WireAll(ts) && Payload(ts) == data
    && Options(ts, WONT) + l.will == will && Options(ts, DONT) + l.doo == doo
  }

  lemma OptionsAreAnswered(l: Life, ts: seq<Token>, data: seq<byte>, will: seq<byte>, doo: seq<byte>)
    returns (ts': seq<Token>)
    requires Accounts(l, ts, data, will, doo)
    ensures Accounts(WriteOptions(l), ts', data, will, doo)
  {
    var r := Refusals(l.will, l.doo);
    RefusalsCarry(l.will, l.doo);
    WireAllConcat(ts, r);
    PayloadConcat(ts, r);
    OptionsConcat(ts, r, WONT);
    OptionsConcat(ts, r, DONT);
    ts' := ts + r;
  }

  lemma EventKeepsAccounts(l: Life, e: Event, ts: seq<Token>, data: seq<byte>, will: seq<byte>, doo: seq<byte>)
    returns (ts': seq<Token>)
    requires Accounts(l, ts, data, will, doo) && Carried([e])
    ensures Accounts(Happen(l, e), ts', data + Payloads([e]), will + Queued([e], WILL), doo + Queued([e], DO))
  {
    assert e in [e];
    match e
    case Receive(w, d) =>
      ts' := ts;
      assert Options(ts, WONT) + (l.will + w) == will + w;
      assert Options(ts, DONT) + (l.doo + d) == doo + d;
    case Write(buf) =>
      var ts1 := OptionsAreAnswered(l, ts, data, will, doo);
      DataTokensCarry(buf);
      DataTokensWire(buf);
      WireAllConcat(ts1, DataTokens(buf));
      PayloadConcat(ts1, DataTokens(buf));
      OptionsConcat(ts1, DataTokens(buf), WONT);
      OptionsConcat(ts1, DataTokens(buf), DONT);
      ts' := ts1 + DataTokens(buf);
    case Flush =>
      ts' := OptionsAreAnswered(l, ts, data, will, doo);
  }

  /** After any sequence of writes, flushes and received options the wire decodes
    * to exactly the written payloads, and every option queued so far has been
    * answered once, in order, or is still queued. */
  lemma {:induction false} LifeRoundTrip(
    l: Life, es: seq<Event>, ts: seq<Token>, data: seq<byte>, will: seq<byte>, doo: seq<byte>)
    returns (ts': seq<Token>)
    requires Accounts(l, ts, data, will, doo) && Carried(es)
    ensures Accounts(Live(l, es), ts', data + Payloads(es), will + Queued(es, WILL), doo + Queued(es, DO))
    decreases |es|
  {
    if es == [] {
      ts' := ts;
    } else {
      assert es[0] in es;
      var ts1 := EventKeepsAccounts(l, es[0], ts, data, will, doo);
      assert Carried(es[1..]);
      ts' := LifeRoundTrip(Happen(l, es[0]), es[1..], ts1,
                           data + Payloads([es[0]]), will + Queued([es[0]], WILL), doo + Queued([es[0]], DO));
      OneEvent(es, data, will, doo);
    }
  }

  lemma OneEvent(es: seq<Event>, data: seq<byte>, will: seq<byte>, doo: seq<byte>)
    requires es != []
    ensures data + Payloads([es[0]]) + Payloads(es[1..]) == data + Payloads(es)
    ensures will + Queued([es[0]], WILL) + Queued(es[1..], WILL) == will + Queued(es, WILL)
    ensures doo + Queued([es[0]], DO) + Queued(es[1..], DO) == doo + Queued(es, DO)
  {
    PayloadsHead(es);
    Associative(data, Payloads([es[0]]), Payloads(es[1..]));
    QueuedHead(es, WILL);
    Associative(will, Queued([es[0]], WILL), Queued(es[1..], WILL));
    QueuedHead(es, DO);
    Associative(doo, Queued([es[0]], DO), Queued(es[1..], DO));
  }

  lemma PayloadsHead(es: seq<Event>)
    requires es != []
    ensures Payloads(es) == Payloads([es[0]]) + Payloads(es[1..])
  {
    assert [es[0]][1..] == [];
  }

  lemma QueuedHead(es: seq<Event>, verb: byte)
    requires es != []
    ensures Queued(es, verb) == Queued([es[0]], verb) + Queued(es[1..], verb)
  {
    assert [es[0]][1..] == [];
  }

  /** The same read back with Read: any positive buffer sizes return exactly the
    * payloads of a connection's life. */
  lemma WritesReadBack(es: seq<Event>, sizes: seq<nat>)
    requires Carried(es) && (forall i :: 0 <= i < |sizes| ==> sizes[i] > 0) && |sizes| > |Payloads(es)|
    ensures ReadAll(Live(Life([], [], []), es).written, sizes).out == Payloads(es)
  {
    var ts := LifeRoundTrip(Life([], [], []), es, [], [], [], []);
    ParseInvertsWire(ts);
    ReadIsTheDecoder(WireAll(ts), sizes);
  }

  // ---------------------------------- the same, exactly, without options

  lemma {:induction false} CountConcat(a: seq<byte>, b: seq<byte>)
    ensures CountIac(a + b) == CountIac(a) + CountIac(b)
  {
    if a == [] {
      assert a + b == b;
    } else {
      CountConcat(a[1..], b);
      assert (a + b)[1..] == a[1..] + b;
    }
  }

  /** Reading costs a byte for each byte delivered, and one more for each 255. */
  lemma TokenCost(t: Token)
    requires ValidToken(t)
    ensures |DataOf(t)| + CountIac(DataOf(t)) <= |Wire(t)|
  {
    if t.Data? { assert [t.b][1..] == []; }
    if t.Escaped? { assert [IAC][1..] == []; }
  }

  lemma {:induction false} ChunkCost(input: seq<byte>, room: nat, fault: bool)
    ensures var c := ReadChunk(input, room, fault); |c.out| + CountIac(c.out) + |c.rest| <= |input|
    decreases |input|
  {
    ScannedTokenIsWire(input);
    if room > 0 && ScanToken(input).Read? {
      var t, rest := ScanToken(input).token, ScanToken(input).rest;
      TokenCost(t);
      ChunkStep(t, rest, room, fault);
      if t == Data(LF) {
        assert [LF][1..] == [];
      } else {
        ChunkCost(rest, room - |DataOf(t)|, fault);
        CountConcat(DataOf(t), ReadChunk(rest, room - |DataOf(t)|, fault).out);
      }
    }
  }

  lemma {:induction false} ReadAllCost(input: seq<byte>, sizes: seq<nat>)
    ensures |ReadAll(input, sizes).out| + CountIac(ReadAll(input, sizes).out) <= |input|
    decreases |sizes|
  {
    if sizes != [] {
      var c := ReadChunk(input, sizes[0], false);
      ChunkCost(input, sizes[0], false);
      if c.status == Good {
        ReadAllCost(c.rest, sizes[1..]);
        CountConcat(c.out, ReadAll(c.rest, sizes[1..]).out);
      }
    }
  }

  predicate NoOptions(es: seq<Event>) {
    forall e :: e in es ==> !e.Receive?
  }

  /** How many writes hold a byte 255; each costs one byte more. */
  function Escapes(es: seq<Event>): nat {
    if es == [] then 0 else (if es[0].Write? && CountIac(es[0].buf) > 0 then 1 else 0) + Escapes(es[1..])
  }

  lemma {:induction false} EscapeCost(buf: seq<byte>)
    ensures |Escape(buf)| == |buf| + if CountIac(buf) > 0 then 1 else 0
  {
    if buf != [] && buf[0] != IAC { EscapeCost(buf[1..]); }
  }

  lemma {:induction false} WireCost(l: Life, es: seq<Event>)
    requires NoOptions(es) && l.will == [] && l.doo == []
    ensures |Live(l, es).written| == |l.written| + |Payloads(es)| + Escapes(es)
    decreases |es|
  {
    if es != [] {
      assert es[0] in es && forall e :: e in es[1..] ==> e in es;
      var next := Happen(l, es[0]);
      NothingToRefuse();
      if es[0].Write? { EscapeCost(es[0].buf); }
      WireCost(next, es[1..]);
    }
  }

  lemma NothingToRefuse()
    ensures WireAll(Refusals([], [])) == []
  {
  }

  /** No more writes need an escape than there are bytes 255, and as many only if
    * none holds two. */
  lemma {:induction false} EscapesAreFew(es: seq<Event>)
    ensures Escapes(es) <= CountIac(Payloads(es))
    ensures CountIac(Payloads(es)) <= Escapes(es) ==> Carried(es)
  {
    if es != [] {
      EscapesAreFew(es[1..]);
      CountConcat(if es[0].Write? then es[0].buf else [], Payloads(es[1..]));
    }
  }

  /** Without options in between, what was written reads back, with any positive
    * buffer sizes, if and only if every write holds at most one byte 255. */
  lemma WritesReadBackExactly(es: seq<Event>, sizes: seq<nat>)
    requires NoOptions(es) && (forall i :: 0 <= i < |sizes| ==> sizes[i] > 0) && |sizes| > |Payloads(es)|
    ensures ReadAll(Live(Life([], [], []), es).written, sizes).out == Payloads(es) <==> Carried(es)
  {
    if Carried(es) {
      WritesReadBack(es, sizes);
    } else {
      WireCost(Life([], [], []), es);
      ReadAllCost(Live(Life([], [], []), es).written, sizes);
      EscapesAreFew(es);
    }
  }

  // ------------------------------------------------------------ the code

  class TelnetConn {
    var input: seq<byte> // what the reader r has not yet delivered
    const fault: bool
    var willopt: seq<byte>
    var doopt: seq<byte>
    var written: seq<byte> // all that went to the buffered writer w
    var flushed: nat // how much of it has been flushed

    constructor (input: seq<byte>, fault: bool)
      ensures this.input == input && this.fault == fault
      ensures willopt == doopt == written == [] && flushed == 0
    {
      this.input, this.fault := input, fault;
      willopt, doopt, written, flushed := [], [], [], 0;
    }

    method ReadByte() returns (r: Option<byte>)
      modifies `input
      ensures old(input) == [] ==> r == None && input == []
      ensures old(input) != [] ==> r == Some(old(input)[0]) && input == old(input)[1..]
    {
      if input == [] { return None; }
      r := Some(input[0]);
      input := input[1..];
    }

    method IgnoreSubnegotiation() returns (ok: bool)
      modifies `input
      ensures ok <==> old(input) != [] && ScanBody(old(input)[1..]).Some?
      ensures input == if ok then ScanBody(old(input)[1..]).value.1 else []
      ensures |input| <= |old(input)|
    {
      var opt := ReadByte();
      if opt.None? { return false; }
      ghost var body := input;
      ScannedBodyIsWire(body);
      var foundIac := false;
      while true
        invariant old(input) != [] && body == old(input)[1..]
        invariant var left := if foundIac then [IAC] + input else input;
                  && (ScanBody(body).Some? <==> ScanBody(left).Some?)
                  && (ScanBody(body).Some? ==> ScanBody(body).value.1 == ScanBody(left).value.1)
        decreases |input|
      {
        ghost var left := if foundIac then [IAC] + input else input;
        var code := ReadByte();
        if code.None? { return false; }
        if foundIac {
          assert left[2..] == input;
          if code.value == SE { return true; }
          foundIac := false;
        } else if code.value == IAC {
          foundIac := true;
          assert left == [IAC] + input;
        }
      }
    }

    method ReadWillOption() returns (ok: bool)
      modifies `input, `willopt
      ensures ok <==> old(input) != []
      ensures input == if ok then old(input)[1..] else []
      ensures willopt == if ok then old(willopt) + [old(input)[0]] else old(willopt)
    {
      var opt := ReadByte();
      if opt.None? { return false; }
      willopt := willopt + [opt.value];
      ok := true;
    }

    method ReadDoOption() returns (ok: bool)
      modifies `input, `doopt
      ensures ok <==> old(input) != []
      ensures input == if ok then old(input)[1..] else []
      ensures doopt == if ok then old(doopt) + [old(input)[0]] else old(doopt)
    {
      var opt := ReadByte();
      if opt.None? { return false; }
      doopt := doopt + [opt.value];
      ok := true;
    }

    /** The switch on the byte after an IAC; `literal` says that the token stands
      * for the data byte 255. */
    method ReadCommand() returns (cut: Option<Cut>, literal: bool)
      modifies `input, `willopt, `doopt
      ensures match ScanToken([IAC] + old(input))
              case Short(c) => cut == Some(c) && input == [] && willopt == old(willopt) && doopt == old(doopt)
              case Read(t, rest) =>
                && cut == None && input == rest && literal == t.Escaped? && (literal || DataOf(t) == []) && !t.Data?
                && willopt == old(willopt) + OptionOf(t, WILL) && doopt == old(doopt) + OptionOf(t, DO)
    {
      ghost var whole := [IAC] + input;
      assert whole[1..] == input;
      literal := false;
      var code := ReadByte();
      if code.None? { return Some(AfterIac), false; }
      assert whole[2..] == input;
      var ok := true;
      if code.value == SB {
        assert input != [] ==> whole[3..] == input[1..];
        ok := IgnoreSubnegotiation();
      } else if code.value == WILL {
        assert input != [] ==> whole[3..] == input[1..];
        ok := ReadWillOption();
      } else if code.value == DO {
        assert input != [] ==> whole[3..] == input[1..];
        ok := ReadDoOption();
      } else if code.value == WONT || code.value == DONT {
        assert input != [] ==> whole[3..] == input[1..];
        var opt := ReadByte();
        ok := opt.Some?;
      } else if code.value == IAC {
        literal := true;
      }
      cut := if ok then None else Some(InToken);
    }

    /** One turn of Read's loop: a data byte, or a whole Telnet command. */
    method ReadToken() returns (cut: Option<Cut>, data: Option<byte>)
      modifies `input, `willopt, `doopt
      ensures match ScanToken(old(input))
              case Short(c) => cut == Some(c) && input == [] && willopt == old(willopt) && doopt == old(doopt)
              case Read(t, rest) =>
                && cut == None && input == rest && DataOf(t) == (if data.None? then [] else [data.value])
                && (data == Some(LF) <==> t == Data(LF))
                && willopt == old(willopt) + OptionOf(t, WILL) && doopt == old(doopt) + OptionOf(t, DO)
    {
      ghost var before := input;
      var b := ReadByte();
      if b.None? { return Some(BeforeToken), None; }
      if b.value != IAC { return None, b; }
      assert before == [IAC] + input;
      var literal;
      cut, literal := ReadCommand();
      data := if literal then Some(IAC) else None;
    }

    /** The same turn with its effect on the buffer: `n` is the new fill, and
      * `more` is false when the loop is left. */
    method FillOne(buf: array<byte>, i: nat) returns (more: bool, n: nat, reported: bool, status: Status)
      requires i < buf.Length
      modifies `input, `willopt, `doopt, buf
      ensures n <= buf.Length
      ensures n == i + if ScanToken(old(input)).Read? then |DataOf(ScanToken(old(input)).token)| else 0
      ensures more == GoesOn(ScanToken(old(input)))
      ensures Chunk(buf[..n], reported, willopt, doopt, input, status) ==
              Gather(old(Chunk(buf[..i], true, willopt, doopt, input, Good)), ScanToken(old(input)), fault)
    {
      ghost var out := buf[..i];
      var cut, data := ReadToken();
      if cut.Some? {
        // an end right after IAC, or a failing reader, drops what was read
        return false, i, cut.value.InToken? || (cut.value.BeforeToken? && !fault), if fault then Fault else Eof;
      }
      more, n, reported, status := true, i, true, Good;
      if data.Some? {
        buf[i] := data.value;
        n := i + 1;
        assert buf[..n] == out + [data.value];
        more := data.value != LF;
      }
    }

    /** The same turn, as progress towards the chunk `goal`. */
    method FillNext(buf: array<byte>, i: nat, ghost goal: Chunk)
      returns (more: bool, n: nat, reported: bool, status: Status)
      requires i < buf.Length
      requires Building(goal, true, Chunk(buf[..i], true, willopt, doopt, input, Good), buf.Length - i, fault)
      modifies `input, `willopt, `doopt, buf
      ensures n <= buf.Length && (more ==> reported && status == Good && |input| < |old(input)|)
      ensures Building(goal, more, Chunk(buf[..n], reported, willopt, doopt, input, status), buf.Length - n, fault)
    {
      ghost var got := Chunk(buf[..i], true, willopt, doopt, input, Good);
      Turn(goal, got, buf.Length - i, fault);
      more, n, reported, status := FillOne(buf, i);
    }

    /** Read's loop: what it leaves in the buffer and in the connection. */
    method Fill(buf: array<byte>) returns (i: nat, reported: bool, status: Status)
      modifies `input, `willopt, `doopt, buf
      ensures i <= buf.Length
      ensures Chunk(buf[..i], reported, willopt, doopt, input, status) ==
              Onto([], old(willopt), old(doopt), ReadChunk(old(input), buf.Length, fault))
    {
      ghost var goal := Onto([], willopt, doopt, ReadChunk(input, buf.Length, fault));
      var more := true;
      i, reported, status := 0, true, Good;
      assert buf[..0] == [];
      while i < buf.Length && more
        invariant 0 <= i <= buf.Length && (more ==> reported && status == Good)
        invariant Building(goal, more, Chunk(buf[..i], reported, willopt, doopt, input, status), buf.Length - i, fault)
        decreases more, |input|
      {
        more, i, reported, status := FillNext(buf, i, goal);
      }
      Built(goal, more, Chunk(buf[..i], reported, willopt, doopt, input, status), buf.Length - i, fault);
    }

    method Read(buf: array<byte>) returns (n: nat, status: Status)
      modifies `input, `willopt, `doopt, buf
      ensures var c := ReadChunk(old(input), buf.Length, fault);
              && |c.out| <= buf.Length && buf[..|c.out|] == c.out
              && n == (if c.reported then |c.out| else 0)
              && status == c.status && input == c.rest
              && willopt == old(willopt) + c.will && doopt == old(doopt) + c.doo
    {
      ghost var c := ReadChunk(input, buf.Length, fault);
      var i, reported;
      i, reported, status := Fill(buf);
      assert buf[..i] == [] + c.out;
      assert [] + c.out == c.out;
      n := if reported then i else 0;
    }

    ghost function Progress(): Life
      reads this
    {
      Life(willopt, doopt, written)
    }

    method WriteOption()
      modifies `willopt, `doopt, `written
      ensures Progress() == WriteOptions(old(Progress()))
    {
      ghost var refusals := Refusals(willopt, doopt);
      var i := 0;
      while i < |willopt|
        invariant 0 <= i <= |willopt| && willopt == old(willopt) && doopt == old(doopt)
        invariant written == old(written) + WireAll(refusals[..i])
      {
        written := written + [IAC, WONT, willopt[i]];
        OneMoreToken(refusals, i);
        i := i + 1;
      }
      var j := 0;
      while j < |doopt|
        invariant 0 <= j <= |doopt| && willopt == old(willopt) && doopt == old(doopt) && i == |willopt|
        invariant written == old(written) + WireAll(refusals[..i + j])
      {
        written := written + [IAC, DONT, doopt[j]];
        OneMoreToken(refusals, i + j);
        j := j + 1;
      }
      assert refusals[..i + j] == refusals;
      willopt, doopt := [], [];
    }

    method Write(buf: seq<byte>) returns (m: nat)
      modifies `willopt, `doopt, `written
      ensures m == |buf|
      ensures Progress() == Happen(old(Progress()), Event.Write(buf))
    {
      WriteOption();
      ghost var start := written;
      m := 0;
      var idx := IndexOfIac(buf);
      EscapeAt(buf, idx);
      if idx < |buf| {
        written := written + buf[..idx];
        m := m + idx;
        written := written + [IAC];
        Associative(start, buf[..idx], [IAC]);
        Associative(start, buf[..idx] + [IAC], buf[idx..]);
        written := written + buf[idx..];
        m := m + |buf[idx..]|;
      } else {
        written := written + buf;
        m := m + |buf|;
      }
    }

    method Flush()
      modifies `willopt, `doopt, `written, `flushed
      ensures Progress() == Happen(old(Progress()), Event.Flush) && flushed == |written|
    {
      WriteOption();
      flushed := |written|;
    }
  }

  /** bytes.IndexByte(buf, 255); |buf| when there is none. */
  method IndexOfIac(buf: seq<byte>) returns (idx: nat)
    ensures idx <= |buf| && (forall i :: 0 <= i < idx ==> buf[i] != IAC) && (idx < |buf| ==> buf[idx] == IAC)
  {
    idx := 0;
    while idx < |buf| && buf[idx] != IAC
      invariant idx <= |buf| && forall i :: 0 <= i < idx ==> buf[i] != IAC
    {
      idx := idx + 1;
    }
  }

  lemma {:induction false} EscapeAt(buf: seq<byte>, idx: nat)
    requires idx <= |buf| && (forall i :: 0 <= i < idx ==> buf[i] != IAC) && (idx < |buf| ==> buf[idx] == IAC)
    ensures Escape(buf) == if idx == |buf| then buf else buf[..idx] + [IAC] + buf[idx..]
  {
    if idx > 0 {
      EscapeAt(buf[1..], idx - 1);
    }
  }

  lemma OneMoreToken(ts: seq<Token>, i: nat)
    requires i < |ts|
    ensures WireAll(ts[..i + 1]) == WireAll(ts[..i]) + Wire(ts[i])
  {
    FlatMapSnoc(Wire, ts[..i], ts[i]);
    assert ts[..i + 1] == ts[..i] + [ts[i]];
  }
}
