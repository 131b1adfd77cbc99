/** FTP replies on the control channel (ftp/conn.go, WriteReply and writeReply):
  * the line format of section 4.2 of RFC 959 over the Telnet layer, with any
  * number of goroutines replying at once.
  */
module Reply {
  import opened Wrappers
  import opened Sequences
  import opened Telnet

  const CR: byte := 13
  const SP: byte := 32
  const MINUS: byte := 45

  /** The reply codes that "%03d" writes with three digits. */
  type Code = c: nat | c < 1000

  datatype Message = Message(code: Code, texts: seq<seq<byte>>)

  function Digits(code: Code): seq<byte> {
    [(48 + code / 100) as byte, (48 + code / 10 % 10) as byte, (48 + code % 10) as byte]
  }

  function Line(code: Code, sep: byte, text: seq<byte>): seq<byte> {
    Digits(code) + [sep] + text + [CR, LF]
  }

  /** The writes of one reply, one Fprintf each. */
  function Lines(code: Code, texts: seq<seq<byte>>): seq<seq<byte>> {
    if texts == [] then [Line(code, SP, [])]
    else if |texts| == 1 then [Line(code, SP, texts[0])]
    else [Line(code, MINUS, texts[0])] + Lines(code, texts[1..])
  }

  /** The lines in bytes: three digits, 45 for a line that others follow and 32 for
    * the last one, the text, 13 10. */
  lemma {:induction false} LinesAreLiteral(code: Code, texts: seq<seq<byte>>, i: nat)
    requires i < |texts|
    ensures |Lines(code, texts)| == |texts|
    ensures Lines(code, texts)[i] ==
            [(48 + code / 100) as byte, (48 + code / 10 % 10) as byte, (48 + code % 10) as byte]
            + [if i == |texts| - 1 then 32 else 45] + texts[i] + [13, 10]
  {
    if |texts| > 1 {
      LinesAreLiteral(code, texts[1..], if i == 0 then 0 else i - 1);
    }
  }

  function Same(s: seq<byte>): seq<byte> { s }

  function Text(m: Message): seq<byte> {
    FlatMap(Same, Lines(m.code, m.texts))
  }

  // --------------------------------------------------------------- parsing

  predicate HasCrlf(s: seq<byte>) {
    |s| >= 2 && ((s[0] == CR && s[1] == LF) || HasCrlf(s[1..]))
  }

  /** The text up to the first CRLF, and what follows it. */
  function SplitLine(s: seq<byte>): Option<(seq<byte>, seq<byte>)> {
    if |s| < 2 then None
    else if s[0] == CR && s[1] == LF then Some(([], s[2..]))
    else
      match SplitLine(s[1..])
      case None => None
      case Some(p) => Some(([s[0]] + p.0, p.1))
  }

  predicate IsDigit(b: byte) { 48 <= b <= 57 }

  /** Three digits and a separator. */
  predicate Headed(line: seq<byte>) {
    |line| >= 4 && IsDigit(line[0]) && IsDigit(line[1]) && IsDigit(line[2])
  }

  function CodeOf(line: seq<byte>): Code
    requires Headed(line)
  {
    (line[0] as int - 48) * 100 + (line[1] as int - 48) * 10 + (line[2] as int - 48)
  }

  /** The lines after the first of a multi-line reply: the one that starts with
    * the code and a space is the last. */
  function ParseMore(code: Code, s: seq<byte>): Option<(seq<seq<byte>>, seq<byte>)>
    decreases |s|
  {
    SplitShrinks(s);
    match SplitLine(s)
    case None => None
    case Some((line, rest)) =>
      if Headed(line) && CodeOf(line) == code && line[3] == SP then Some(([line[4..]], rest))
      else
        var text := if Headed(line) && CodeOf(line) == code && line[3] == MINUS then line[4..] else line;
        match ParseMore(code, rest)
        case None => None
        case Some(p) => Some(([text] + p.0, p.1))
  }

  function ParseReply(s: seq<byte>): Option<(Message, seq<byte>)> {
    match SplitLine(s)
    case None => None
    case Some((line, rest)) =>
      if !Headed(line) then None
      else if line[3] == SP then Some((Message(CodeOf(line), [line[4..]]), rest))
      else if line[3] == MINUS then
        match ParseMore(CodeOf(line), rest)
        case None => None
        case Some(p) => Some((Message(CodeOf(line), [line[4..]] + p.0), p.1))
      else None
  }

  lemma {:induction false} SplitShrinks(s: seq<byte>)
    ensures SplitLine(s).Some? ==> |SplitLine(s).value.1| < |s|
  {
    if |s| >= 2 && !(s[0] == CR && s[1] == LF) {
      SplitShrinks(s[1..]);
    }
  }

  lemma {:induction false} MoreShrinks(code: Code, s: seq<byte>)
    ensures ParseMore(code, s).Some? ==> |ParseMore(code, s).value.1| < |s|
    decreases |s|
  {
    SplitShrinks(s);
    if SplitLine(s).Some? {
      MoreShrinks(code, SplitLine(s).value.1);
    }
  }

  function ParseReplies(s: seq<byte>): Option<seq<Message>>
    decreases |s|
  {
    if s == [] then Some([])
    else
      match ParseReply(s)
      case None => None
      case Some((m, rest)) =>
        if |rest| >= |s| then None // never: a reply takes at least one line
        else
          match ParseReplies(rest)
          case None => None
          case Some(ms) => Some([m] + ms)
  }

  // ------------------------------------------------------------ round trip

  /** What a reader sees: a reply without texts is read as one empty text. */
  function Seen(m: Message): Message {
    if m.texts == [] then m.(texts := [[]]) else m
  }

  predicate Plain(m: Message) {
    forall t :: t in m.texts ==> !HasCrlf(t)
  }

  lemma {:induction false} SplitOne(text: seq<byte>, rest: seq<byte>)
    requires !HasCrlf(text)
    ensures SplitLine(text + [CR, LF] + rest) == Some((text, rest))
  {
    var s := text + [CR, LF] + rest;
    if text == [] {
      assert s[2..] == rest;
    } else {
      SplitOne(text[1..], rest);
      assert s[1..] == text[1..] + [CR, LF] + rest;
      assert [text[0]] + text[1..] == text;
    }
  }

  lemma {:induction false} SplitHasNoCrlf(s: seq<byte>)
    ensures SplitLine(s).Some? ==> !HasCrlf(SplitLine(s).value.0)
  {
    if |s| >= 2 && !(s[0] == CR && s[1] == LF) && SplitLine(s[1..]).Some? {
      SplitHasNoCrlf(s[1..]);
      var tail := SplitLine(s[1..]).value.0;
      var line := [s[0]] + tail;
      assert line[1..] == tail;
      assert |tail| > 0 ==> tail[0] == s[1];
    }
  }

  lemma TailHasNoCrlf(line: seq<byte>, k: nat)
    requires !HasCrlf(line) && k <= |line|
    ensures !HasCrlf(line[k..])
  {
    if k > 0 {
      TailHasNoCrlf(line[1..], k - 1);
      assert line[1..][k - 1..] == line[k..];
    } else {
      assert line[k..] == line;
    }
  }

  lemma HeadOfLine(code: Code, sep: byte, text: seq<byte>)
    ensures var line := Digits(code) + [sep] + text;
            Headed(line) && CodeOf(line) == code && line[3] == sep && line[4..] == text
  {
  }

  lemma HeadAddsNoCrlf(code: Code, sep: byte, text: seq<byte>)
    requires !HasCrlf(text) && sep != CR
    ensures !HasCrlf(Digits(code) + [sep] + text)
  {
    var line := Digits(code) + [sep] + text;
    assert line[3..][1..] == text && line[2..][1..] == line[3..] && line[1..][1..] == line[2..];
    assert !HasCrlf(line[3..]);
    assert !HasCrlf(line[2..]);
    assert !HasCrlf(line[1..]);
  }

  /** One written line is read as one line, with its code and separator. */
  lemma LineSplits(code: Code, sep: byte, text: seq<byte>, rest: seq<byte>)
    requires !HasCrlf(text) && sep != CR
    ensures SplitLine(Line(code, sep, text) + rest) == Some((Digits(code) + [sep] + text, rest))
    ensures var line := Digits(code) + [sep] + text;
            Headed(line) && CodeOf(line) == code && line[3] == sep && line[4..] == text
  {
    var line := Digits(code) + [sep] + text;
    HeadOfLine(code, sep, text);
    HeadAddsNoCrlf(code, sep, text);
    SplitOne(line, rest);
    assert Line(code, sep, text) + rest == line + [CR, LF] + rest;
  }

  lemma {:induction false} MoreRoundTrip(code: Code, texts: seq<seq<byte>>, rest: seq<byte>)
    requires texts != [] && forall t :: t in texts ==> !HasCrlf(t)
    ensures ParseMore(code, FlatMap(Same, Lines(code, texts)) + rest) == Some((texts, rest))
  {
    assert texts[0] in texts;
    if |texts| == 1 {
      FlatMapOne(Same, Line(code, SP, texts[0]));
      LineSplits(code, SP, texts[0], rest);
      assert texts == [texts[0]];
    } else {
      var more := FlatMap(Same, Lines(code, texts[1..]));
      FlatMapCons(Same, Line(code, MINUS, texts[0]), Lines(code, texts[1..]));
      Associative(Line(code, MINUS, texts[0]), more, rest);
      LineSplits(code, MINUS, texts[0], more + rest);
      MoreRoundTrip(code, texts[1..], rest);
      assert [texts[0]] + texts[1..] == texts;
    }
  }

  /** A reply is read back whole, with its code and texts, whatever follows. */
  lemma ReplyRoundTrip(m: Message, rest: seq<byte>)
    requires Plain(m)
    ensures ParseReply(Text(m) + rest) == Some((Seen(m), rest))
  {
    if |m.texts| <= 1 {
      var text := if m.texts == [] then [] else m.texts[0];
      FlatMapOne(Same, Line(m.code, SP, text));
      LineSplits(m.code, SP, text, rest);
      assert Seen(m).texts == [text];
    } else {
      assert m.texts[0] in m.texts;
      var more := FlatMap(Same, Lines(m.code, m.texts[1..]));
      FlatMapCons(Same, Line(m.code, MINUS, m.texts[0]), Lines(m.code, m.texts[1..]));
      Associative(Line(m.code, MINUS, m.texts[0]), more, rest);
      LineSplits(m.code, MINUS, m.texts[0], more + rest);
      MoreRoundTrip(m.code, m.texts[1..], rest);
      assert [m.texts[0]] + m.texts[1..] == m.texts;
    }
  }

  lemma {:induction false} MoreIsPlain(code: Code, s: seq<byte>)
    ensures ParseMore(code, s).Some? ==> forall t :: t in ParseMore(code, s).value.0 ==> !HasCrlf(t)
    decreases |s|
  {
    SplitShrinks(s);
    SplitHasNoCrlf(s);
    if SplitLine(s).Some? {
      var (line, rest) := SplitLine(s).value;
      if |line| >= 4 { TailHasNoCrlf(line, 4); }
      MoreIsPlain(code, rest);
    }
  }

  lemma ParsedIsPlain(s: seq<byte>)
    ensures ParseReply(s).Some? ==> Plain(ParseReply(s).value.0)
  {
    SplitHasNoCrlf(s);
    if SplitLine(s).Some? {
      var (line, rest) := SplitLine(s).value;
      if Headed(line) {
        TailHasNoCrlf(line, 4);
        MoreIsPlain(CodeOf(line), rest);
      }
    }
  }

  /** The texts survive exactly when none of them contains CRLF; the code writes
    * them without looking. */
  lemma ReplySurvivesExactly(m: Message)
    ensures ParseReply(Text(m)) == Some((Seen(m), [])) <==> Plain(m)
  {
    assert Text(m) + [] == Text(m);
    if Plain(m) { ReplyRoundTrip(m, []); }
    ParsedIsPlain(Text(m));
    assert Plain(Seen(m)) <==> Plain(m);
  }

  function Texts(ms: seq<Message>): seq<byte> {
    FlatMap(Text, ms)
  }

  function SeenAll(ms: seq<Message>): seq<Message> {
    if ms == [] then [] else [Seen(ms[0])] + SeenAll(ms[1..])
  }

  lemma {:induction false} RepliesRoundTrip(ms: seq<Message>)
    requires forall m :: m in ms ==> Plain(m)
    ensures ParseReplies(Texts(ms)) == Some(SeenAll(ms))
  {
    if ms != [] {
      assert ms[0] in ms;
      TextIsNotEmpty(ms[0]);
      ReplyRoundTrip(ms[0], Texts(ms[1..]));
      RepliesRoundTrip(ms[1..]);
      assert Texts(ms) == Text(ms[0]) + Texts(ms[1..]);
    }
  }

  lemma TextIsNotEmpty(m: Message)
    ensures |Text(m)| > 0
  {
    var lines := Lines(m.code, m.texts);
    assert Text(m) == Same(lines[0]) + FlatMap(Same, lines[1..]);
  }

  // ---------------------------------------------------------- the code

  /** The events on the Telnet layer that one reply makes. */
  function Events(m: Message): seq<Event> {
    Writes(Lines(m.code, m.texts)) + [Flush]
  }

  function Writes(lines: seq<seq<byte>>): seq<Event> {
    seq(|lines|, i requires 0 <= i < |lines| => Event.Write(lines[i]))
  }

  function TotalSize(lines: seq<seq<byte>>): nat {
    if lines == [] then 0 else |lines[0]| + TotalSize(lines[1..])
  }

  lemma {:induction false} LiveConcat(l: Life, a: seq<Event>, b: seq<Event>)
    ensures Live(l, a + b) == Live(Live(l, a), b)
    decreases |a|
  {
    if a == [] {
      assert a + b == b;
    } else {
      assert (a + b)[1..] == a[1..] + b;
      LiveConcat(Happen(l, a[0]), a[1..], b);
    }
  }

  lemma LiveSnoc(l: Life, es: seq<Event>, e: Event)
    ensures Live(l, es + [e]) == Happen(Live(l, es), e)
  {
    LiveConcat(l, es, [e]);
    assert [e][1..] == [];
  }

  /** Conn.WriteReply. */
  method WriteReply(c: TelnetConn, code: Code, texts: seq<seq<byte>>) returns (n: nat)
    modifies c
    ensures c.Progress() == Live(old(c.Progress()), Events(Message(code, texts)))
    ensures c.flushed == |c.written| && n == TotalSize(Lines(code, texts))
  {
    ghost var lines := Lines(code, texts);
    ghost var start := c.Progress();
    if |texts| == 0 {
      n := c.Write(Line(code, SP, []));
      c.Flush();
      OneLine(start, Line(code, SP, []));
      return;
    }
    LinesShape(code, texts);
    n := 0;
    var i := 0;
    while i < |texts| - 1
      invariant 0 <= i <= |texts| - 1
      invariant c.Progress() == Live(start, Writes(lines[..i]))
      invariant n + TotalSize(lines[i..]) == TotalSize(lines)
    {
      var m := c.Write(Line(code, MINUS, texts[i]));
      OneMoreWrite(start, lines, i);
      assert lines[i..][1..] == lines[i + 1..];
      n := n + m;
      i := i + 1;
    }
    var m := c.Write(Line(code, SP, texts[|texts| - 1]));
    OneMoreWrite(start, lines, i);
    assert lines[..i + 1] == lines && lines[i..][1..] == [];
    n := n + m;
    c.Flush();
    LiveSnoc(start, Writes(lines), Flush);
  }

  lemma {:induction false} LinesShape(code: Code, texts: seq<seq<byte>>)
    requires texts != []
    ensures |Lines(code, texts)| == |texts|
    ensures forall i :: 0 <= i < |texts| ==>
              Lines(code, texts)[i] == Line(code, if i == |texts| - 1 then SP else MINUS, texts[i])
  {
    if |texts| > 1 {
      LinesShape(code, texts[1..]);
    }
  }

  lemma OneMoreWrite(l: Life, lines: seq<seq<byte>>, i: nat)
    requires i < |lines|
    ensures Live(l, Writes(lines[..i + 1])) == Happen(Live(l, Writes(lines[..i])), Event.Write(lines[i]))
  {
    assert Writes(lines[..i + 1]) == Writes(lines[..i]) + [Event.Write(lines[i])];
    LiveSnoc(l, Writes(lines[..i]), Event.Write(lines[i]));
  }

  lemma OneLine(l: Life, line: seq<byte>)
    ensures Live(l, Writes([line]) + [Flush]) == Happen(Happen(l, Event.Write(line)), Flush)
    ensures TotalSize([line]) == |line|
  {
    assert Writes([line]) + [Flush] == [Event.Write(line), Flush];
    assert [Event.Write(line), Flush][1..] == [Flush] && [Flush][1..] == [];
    assert [line][1..] == [];
  }

  // -------------------------------------------- many goroutines at once

  /** A goroutine in WriteReply: waiting for the lock, or about to make its
    * `done`-th event under it. */
  datatype Writer = Waiting(m: Message) | Writing(m: Message, done: nat) | Finished

  datatype World = World(
    life: Life,
    flushed: nat, // how much of what was written has left the buffered writer
    lock: Option<nat>,
    writers: map<nat, Writer>,
    history: seq<Event>, // all events of the Telnet layer so far
    replies: seq<Message>) // the replies in the order in which they got the lock

  datatype Action =
    | Enter(w: nat, m: Message)
    | Lock(w: nat)
    | Progress(w: nat) // one Fprintf, or the flush
    | Unlock(w: nat)
    | Queue(will: seq<byte>, doo: seq<byte>) // the reader queues options

  predicate Enabled(x: World, a: Action) {
    match a
    case Enter(w, _) => w !in x.writers
    case Lock(w) => w in x.writers && x.writers[w].Waiting? && x.lock.None?
    case Progress(w) => w in x.writers && x.writers[w].Writing? && x.writers[w].done < |Events(x.writers[w].m)|
    case Unlock(w) => w in x.writers && x.writers[w].Writing? && x.writers[w].done == |Events(x.writers[w].m)|
    case Queue(_, _) => true
  }

  function Do(x: World, e: Event): World {
    var life := Happen(x.life, e);
    x.(life := life, flushed := if e.Flush? then |life.written| else x.flushed, history := x.history + [e])
  }

  function Step(x: World, a: Action): World
    requires Enabled(x, a)
  {
    match a
    case Enter(w, m) => x.(writers := x.writers[w := Waiting(m)])
    case Lock(w) =>
      var m := x.writers[w].m;
      x.(lock := Some(w), writers := x.writers[w := Writing(m, 0)], replies := x.replies + [m])
    case Progress(w) =>
      var m, done := x.writers[w].m, x.writers[w].done;
      Do(x, Events(m)[done]).(writers := x.writers[w := Writing(m, done + 1)])
    case Unlock(w) => x.(lock := None, writers := x.writers[w := Finished])
    case Queue(will, doo) => Do(x, Receive(will, doo))
  }

  const INITIAL := World(Life([], [], []), 0, None, map[], [], [])

  ghost predicate IsRun(x: World, acts: seq<Action>)
    decreases |acts|
  {
    acts == [] || (Enabled(x, acts[0]) && IsRun(Step(x, acts[0]), acts[1..]))
  }

  ghost function After(x: World, acts: seq<Action>): World
    requires IsRun(x, acts)
    decreases |acts|
  {
    if acts == [] then x else After(Step(x, acts[0]), acts[1..])
  }

  /** What the lock holder has written so far. */
  function Partial(m: Message, done: nat): seq<byte> {
    Payloads(Events(m)[..if done <= |Events(m)| then done else |Events(m)|])
  }

  ghost predicate FromReply(ms: seq<Message>, e: Event) {
    exists m :: m in ms && e in Events(m)
  }

  ghost predicate Inv(x: World) {
    && x.life == Live(Life([], [], []), x.history)
    && (forall e :: e in x.history && e.Write? ==> FromReply(x.replies, e))
    && (forall w :: w in x.writers && x.writers[w].Writing? ==> x.lock == Some(w))
    && match x.lock
       case None => Payloads(x.history) == Texts(x.replies)
       case Some(w) =>
         && w in x.writers && x.writers[w].Writing? && x.replies != [] && x.replies[|x.replies| - 1] == x.writers[w].m
         && x.writers[w].done <= |Events(x.writers[w].m)|
         && Payloads(x.history) == Texts(x.replies[..|x.replies| - 1]) + Partial(x.writers[w].m, x.writers[w].done)
  }

  lemma {:induction false} PayloadsConcat(a: seq<Event>, b: seq<Event>)
    ensures Payloads(a + b) == Payloads(a) + Payloads(b)
  {
    if a == [] {
      assert a + b == b;
    } else {
      PayloadsConcat(a[1..], b);
      assert (a + b)[1..] == a[1..] + b;
    }
  }

  lemma {:induction false} WholeReply(m: Message)
    ensures Payloads(Events(m)) == Text(m)
  {
    LinesPayload(Lines(m.code, m.texts));
    PayloadsConcat(Writes(Lines(m.code, m.texts)), [Flush]);
    assert Payloads([Flush]) == [] by { assert [Flush][1..] == []; }
  }

  lemma {:induction false} LinesPayload(lines: seq<seq<byte>>)
    ensures Payloads(Writes(lines)) == FlatMap(Same, lines)
  {
    if lines != [] {
      LinesPayload(lines[1..]);
      assert Writes(lines)[1..] == Writes(lines[1..]);
    }
  }

  lemma LockKeepsInv(x: World, w: nat)
    requires Inv(x) && Enabled(x, Lock(w))
    ensures Inv(Step(x, Lock(w)))
  {
    var x' := Step(x, Lock(w));
    assert x'.replies[..|x.replies|] == x.replies;
    assert Partial(x.writers[w].m, 0) == [];
    forall e | e in x'.history && e.Write? ensures FromReply(x'.replies, e) {
      var m :| m in x.replies && e in Events(m);
      assert m in x'.replies;
    }
  }

  lemma EventKeepsHistory(x: World, e: Event)
    requires x.life == Live(Life([], [], []), x.history)
    ensures Do(x, e).life == Live(Life([], [], []), Do(x, e).history)
    ensures Payloads(Do(x, e).history) == Payloads(x.history) + Payloads([e])
  {
    LiveSnoc(Life([], [], []), x.history, e);
    PayloadsConcat(x.history, [e]);
  }

  lemma PartialGrows(m: Message, done: nat)
    requires done < |Events(m)|
    ensures Partial(m, done + 1) == Partial(m, done) + Payloads([Events(m)[done]])
  {
    PayloadsConcat(Events(m)[..done], [Events(m)[done]]);
    assert Events(m)[..done + 1] == Events(m)[..done] + [Events(m)[done]];
  }

  lemma ProgressKeepsInv(x: World, w: nat)
    requires Inv(x) && Enabled(x, Progress(w))
    ensures Inv(Step(x, Progress(w)))
  {
    var m, done := x.writers[w].m, x.writers[w].done;
    var e := Events(m)[done];
    EventKeepsHistory(x, e);
    PartialGrows(m, done);
    Associative(Texts(x.replies[..|x.replies| - 1]), Partial(m, done), Payloads([e]));
    assert m in x.replies && e in Events(m);
  }

  lemma UnlockKeepsInv(x: World, w: nat)
    requires Inv(x) && Enabled(x, Unlock(w))
    ensures Inv(Step(x, Unlock(w)))
  {
    var m := x.writers[w].m;
    WholeReply(m);
    assert Events(m)[..|Events(m)|] == Events(m);
    FlatMapSnoc(Text, x.replies[..|x.replies| - 1], m);
    assert x.replies[..|x.replies| - 1] + [m] == x.replies;
  }

  lemma QueueKeepsInv(x: World, will: seq<byte>, doo: seq<byte>)
    requires Inv(x)
    ensures Inv(Step(x, Queue(will, doo)))
  {
    var e := Receive(will, doo);
    var x' := Do(x, e);
    EventKeepsHistory(x, e);
    assert Payloads(x'.history) == Payloads(x.history) by {
      assert Payloads([e]) == [] by { assert [e][1..] == []; }
    }
    forall f | f in x'.history && f.Write? ensures FromReply(x'.replies, f) {
      assert f in x.history;
    }
  }

  lemma StepKeepsInv(x: World, a: Action)
    requires Inv(x) && Enabled(x, a)
    ensures Inv(Step(x, a))
  {
    match a
    case Enter(w, m) =>
    case Lock(w) => LockKeepsInv(x, w);
    case Progress(w) => ProgressKeepsInv(x, w);
    case Unlock(w) => UnlockKeepsInv(x, w);
    case Queue(will, doo) => QueueKeepsInv(x, will, doo);
  }

  lemma {:induction false} RunKeepsInv(x: World, acts: seq<Action>)
    requires Inv(x) && IsRun(x, acts)
    ensures Inv(After(x, acts))
    decreases |acts|
  {
    if acts != [] {
      StepKeepsInv(x, acts[0]);
      RunKeepsInv(Step(x, acts[0]), acts[1..]);
    }
  }

  /** Nothing is left in the buffer when the lock is free, or about to be. */
  ghost predicate FlushOk(x: World) {
    && (x.lock.None? ==> x.flushed == |x.life.written|)
    && (forall w :: w in x.writers && x.writers[w].Writing? ==>
          x.lock == Some(w) && (x.writers[w].done == |Events(x.writers[w].m)| ==> x.flushed == |x.life.written|))
  }

  lemma FlushIsLast(m: Message, done: nat)
    requires done < |Events(m)|
    ensures done + 1 == |Events(m)| ==> Events(m)[done] == Flush
  {
  }

  lemma StepKeepsFlush(x: World, a: Action)
    requires FlushOk(x) && Enabled(x, a)
    ensures FlushOk(Step(x, a))
  {
    match a
    case Enter(_, _) =>
    case Lock(_) =>
    case Progress(w) => FlushIsLast(x.writers[w].m, x.writers[w].done);
    case Unlock(_) =>
    case Queue(will, doo) =>
      var x' := Do(x, Receive(will, doo));
      assert x'.life.written == x.life.written && x'.flushed == x.flushed;
  }

  lemma {:induction false} RunKeepsFlush(x: World, acts: seq<Action>)
    requires FlushOk(x) && IsRun(x, acts)
    ensures FlushOk(After(x, acts))
    decreases |acts|
  {
    if acts != [] {
      StepKeepsFlush(x, acts[0]);
      RunKeepsFlush(Step(x, acts[0]), acts[1..]);
    }
  }

  /** The replies that the two layers can carry. */
  predicate Sendable(m: Message) {
    forall t :: t in m.texts ==> !HasCrlf(t) && CountIac(t) <= 1
  }

  lemma {:induction false} CountNone(s: seq<byte>)
    requires IAC !in s
    ensures CountIac(s) == 0
  {
    if s != [] {
      CountNone(s[1..]);
    }
  }

  lemma LineCount(code: Code, sep: byte, text: seq<byte>)
    requires sep != IAC
    ensures CountIac(Line(code, sep, text)) == CountIac(text)
  {
    CountConcat(Digits(code) + [sep] + text, [CR, LF]);
    CountConcat(Digits(code) + [sep], text);
    CountNone(Digits(code) + [sep]);
    CountNone([CR, LF]);
  }

  lemma SendableEvents(m: Message, e: Event)
    requires Sendable(m) && e in Events(m) && e.Write?
    ensures CountIac(e.buf) <= 1
  {
    if m.texts == [] {
      LineCount(m.code, SP, []);
    } else {
      LinesShape(m.code, m.texts);
      var i :| 0 <= i < |Events(m)| && Events(m)[i] == e;
      assert m.texts[i] in m.texts;
      LineCount(m.code, if i == |m.texts| - 1 then SP else MINUS, m.texts[i]);
    }
  }

  /** The messages in the order in which their goroutines took the lock, read off the
    * actions; `waiting` are the ones that have entered. */
  function InLockOrder(waiting: map<nat, Message>, acts: seq<Action>): seq<Message>
    decreases |acts|
  {
    if acts == [] then []
    else
      match acts[0]
      case Enter(w, m) => InLockOrder(waiting[w := m], acts[1..])
      case Lock(w) => (if w in waiting then [waiting[w]] else []) + InLockOrder(waiting, acts[1..])
      case _ => InLockOrder(waiting, acts[1..])
  }

  ghost predicate WaitFor(x: World, waiting: map<nat, Message>) {
    forall w :: w in x.writers && x.writers[w].Waiting? ==> w in waiting && waiting[w] == x.writers[w].m
  }

  /** The replies are the messages with which WriteReply was called, in lock order. */
  lemma {:induction false} RepliesFollowLocks(x: World, waiting: map<nat, Message>, acts: seq<Action>)
    requires IsRun(x, acts) && WaitFor(x, waiting)
    ensures After(x, acts).replies == x.replies + InLockOrder(waiting, acts)
    decreases |acts|
  {
    if acts != [] {
      var next := if acts[0].Enter? then waiting[acts[0].w := acts[0].m] else waiting;
      RepliesFollowLocks(Step(x, acts[0]), next, acts[1..]);
    }
  }

  /** A call of WriteReply that is past waiting has taken the lock. */
  lemma {:induction false} RepliedMeansLocked(x: World, acts: seq<Action>, w: nat)
    requires IsRun(x, acts) && w in After(x, acts).writers && !After(x, acts).writers[w].Waiting?
    ensures Lock(w) in acts || (w in x.writers && !x.writers[w].Waiting?)
    decreases |acts|
  {
    if acts != [] {
      RepliedMeansLocked(Step(x, acts[0]), acts[1..], w);
      assert acts == [acts[0]] + acts[1..];
    }
  }

  /** However the goroutines and the option reader interleave, whenever nobody holds
    * the lock all is flushed, and a client that reads the wire with any positive
    * buffer sizes and parses what it reads gets exactly the messages with which
    * WriteReply was called, whole, in the order in which the calls took the lock;
    * every call that does not still wait has taken it. */
  lemma EveryReplyReadsBack(acts: seq<Action>, sizes: seq<nat>)
    requires IsRun(INITIAL, acts) && After(INITIAL, acts).lock.None?
    requires forall m :: m in InLockOrder(map[], acts) ==> Sendable(m)
    requires (forall i :: 0 <= i < |sizes| ==> sizes[i] > 0) && |sizes| > |Texts(InLockOrder(map[], acts))|
    ensures var x := After(INITIAL, acts);
            && x.flushed == |x.life.written|
            && ParseReplies(ReadAll(x.life.written, sizes).out) == Some(SeenAll(InLockOrder(map[], acts)))
            && (forall w :: w in x.writers && Lock(w) !in acts ==> x.writers[w].Waiting?)
  {
    RunKeepsFlush(INITIAL, acts);
    RunKeepsInv(INITIAL, acts);
    RepliesFollowLocks(INITIAL, map[], acts);
    var x := After(INITIAL, acts);
    assert x.replies == InLockOrder(map[], acts);
    forall e | e in x.history && e.Write? ensures CountIac(e.buf) <= 1 {
      var m :| m in x.replies && e in Events(m);
      SendableEvents(m, e);
    }
    WritesReadBack(x.history, sizes);
    RepliesRoundTrip(x.replies);
    forall w | w in x.writers && Lock(w) !in acts ensures x.writers[w].Waiting? {
      if !x.writers[w].Waiting? { RepliedMeansLocked(INITIAL, acts, w); }
    }
  }
}
