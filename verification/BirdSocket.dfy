/** Framing on the BIRD control socket: lines of a reply are cut out of whatever pieces `recv`
    delivers, until a terminating status line. Bytes are modelled as characters. */
module BirdSocket {
  import opened Wrappers

  /** `_is_code_line`. */
  predicate IsCodeLine(line: string) {
    |line| >= 4 && IsDigit(line[0]) && IsDigit(line[1]) && IsDigit(line[2]) && IsDigit(line[3])
  }

  function DigitValue(c: char): nat
    requires IsDigit(c)
  {
    (c - '0') as nat
  }

  function CodeOf(line: string): nat
    requires IsCodeLine(line)
  {
    1000 * DigitValue(line[0]) + 100 * DigitValue(line[1]) + 10 * DigitValue(line[2]) + DigitValue(line[3])
  }

  /** `_strip_code`. */
  function StripCode(line: string): string {
    if IsCodeLine(line) then (if |line| > 5 then line[5..] else "")
    else if line != "" && line[0] == ' ' then line[1..]
    else line
  }

  /** A reply ends with a `0xxx` line whose separator is a space, or with any `8xxx` or `9xxx` line;
      a line of just four digits counts as separated by a space. */
  predicate Terminates(line: string) {
    IsCodeLine(line) &&
    var sep := if |line| > 4 then line[4] else ' ';
    (CodeOf(line) < 1000 && sep == ' ') || CodeOf(line) >= 8000
  }

  datatype Reply = Reply(lines: seq<string>, code: Option<nat>, error: Option<string>, eof: bool)

  function Ending(lines: seq<string>, line: string): Reply
    requires Terminates(line)
  {
    Reply(lines, Some(CodeOf(line)), if CodeOf(line) >= 8000 then Some(StripCode(line)) else None, false)
  }

  class ReplyReader {
    var lines: seq<string>
    var code: Option<nat>
    var error: Option<string>
    var done: bool
    var eof: bool

    constructor ()
      ensures lines == [] && code == None && error == None && !done && !eof
    {
      lines, code, error, done, eof := [], None, None, false, false;
    }

    function Outcome(): Reply
      reads this
    {
      Reply(lines, code, error, eof)
    }

    method FeedLine(line: string)
      requires !done && !eof && code == None && error == None
      modifies this
      ensures done <==> Terminates(line)
      ensures Outcome() ==
        if Terminates(line) then Ending(old(lines), line) else Reply(old(lines) + [StripCode(line)], None, None, false)
    {
      if IsCodeLine(line) {
        var value := CodeOf(line);
        var sep := if |line| > 4 then line[4] else ' ';
        if (value < 1000 && sep == ' ') || value >= 8000 {
          code := Some(value);
          if value >= 8000 {
            error := Some(StripCode(line));
          }
          done := true;
          return;
        }
      }
      lines := lines + [StripCode(line)];
    }
  }

  // ----- what a byte stream says, with no regard to chunks -----

  function NewlineAt(s: string): (k: nat)
    requires '\n' in s
    ensures k < |s| && s[k] == '\n' && '\n' !in s[..k]
  {
    if s[0] == '\n' then 0 else 1 + NewlineAt(s[1..])
  }

  /** The reply at the front of a stream, given the lines already collected, and what follows it. */
  function ReadStream(stream: string, lines: seq<string>): (Reply, string)
    decreases |stream|
  {
    if '\n' !in stream then (Reply(lines, None, None, true), stream)
    else
      var k := NewlineAt(stream);
      var line, rest := stream[..k], stream[k + 1..];
      if Terminates(line) then (Ending(lines, line), rest)
      else ReadStream(rest, lines + [StripCode(line)])
  }

  lemma {:induction false} FirstNewline(head: string, tail: string)
    requires '\n' !in head
    ensures NewlineAt(head + "\n" + tail) == |head|
  {
    var s := head + "\n" + tail;
    assert s[|head|] == '\n';
    var k := NewlineAt(s);
    assert forall j :: 0 <= j < k ==> s[..k][j] == s[j];
    assert forall j :: 0 <= j < |head| ==> s[j] == head[j];
  }

  /** One line off the front. */
  lemma ReadLine(line: string, rest: string, lines: seq<string>)
    requires '\n' !in line
    ensures ReadStream(line + "\n" + rest, lines) ==
      if Terminates(line) then (Ending(lines, line), rest) else ReadStream(rest, lines + [StripCode(line)])
  {
    var s := line + "\n" + rest;
    FirstNewline(line, rest);
    assert s[|line|] == '\n';
    assert s[..|line|] == line && s[|line| + 1..] == rest;
  }

  function Flatten(chunks: seq<string>): string {
    if chunks == [] then "" else chunks[0] + Flatten(chunks[1..])
  }

  /** A connected socket, by what `recv` will still deliver; an empty result means the peer closed. */
  class Socket {
    var chunks: seq<string>

    constructor (chunks: seq<string>)
      ensures this.chunks == chunks
    {
      this.chunks := chunks;
    }

    ghost predicate Valid()
      reads this
    {
      forall k :: 0 <= k < |chunks| ==> chunks[k] != ""
    }

    method Recv() returns (chunk: string)
      requires Valid()
      modifies this
      ensures Valid()
      ensures chunk == "" <==> old(chunks) == []
      ensures old(Flatten(chunks)) == chunk + Flatten(chunks)
    {
      if chunks == [] {
        return "";
      }
      chunk := chunks[0];
      chunks := chunks[1..];
    }
  }

  class Framing {
    const sock: Socket
    var buf: string

    constructor (sock: Socket)
      ensures this.sock == sock && buf == ""
    {
      this.sock := sock;
      buf := "";
    }

    /** Everything received or still to come that no reply has consumed. */
    function Pending(): string
      reads this, sock
    {
      buf + Flatten(sock.chunks)
    }

    /** `read_reply`: the reply, and the bytes left for the next one, depend on the pending bytes
        alone and not on how they are cut into chunks. */
    method ReadReply() returns (reader: ReplyReader)
      requires sock.Valid()
      modifies this, sock
      ensures sock.Valid() && fresh(reader) && reader.done
      ensures (reader.Outcome(), Pending()) == ReadStream(old(Pending()), [])
    {
      reader := new ReplyReader();
      ghost var whole := ReadStream(Pending(), []);
      while !reader.done
        invariant sock.Valid() && fresh(reader)
        invariant !reader.done ==> reader.Outcome() == Reply(reader.lines, None, None, false)
        invariant if reader.done then (reader.Outcome(), Pending()) == whole else ReadStream(Pending(), reader.lines) == whole
        decreases !reader.done, |Flatten(sock.chunks)|
      {
        DrainBuffer(reader, whole);
        if reader.done {
          break;
        }
        ghost var unread := Flatten(sock.chunks);
        var chunk := sock.Recv();
        if chunk == "" {
          reader.eof := true;
          reader.done := true;
          assert Pending() == buf;
          break;
        }
        assert buf + unread == (buf + chunk) + Flatten(sock.chunks);
        buf := buf + chunk;
      }
    }

    /** The next line that is complete in the buffer. */
    method FeedNext(reader: ReplyReader)
      requires sock.Valid() && !reader.done && '\n' in buf
      requires reader.Outcome() == Reply(reader.lines, None, None, false)
      modifies this`buf, reader
      ensures |buf| < |old(buf)|
      ensures !reader.done ==> reader.Outcome() == Reply(reader.lines, None, None, false)
      ensures if reader.done then (reader.Outcome(), Pending()) == ReadStream(old(Pending()), old(reader.lines))
              else ReadStream(Pending(), reader.lines) == ReadStream(old(Pending()), old(reader.lines))
    {
      hide ReadStream, Terminates, StripCode, Ending, NewlineAt;
      var k := NewlineAt(buf);
      var line, rest := buf[..k], buf[k + 1..];
      assert buf == line + "\n" + rest;
      ghost var tail := Flatten(sock.chunks);
      assert Pending() == line + "\n" + (rest + tail);
      ReadLine(line, rest + tail, reader.lines);
      hide Flatten;
      buf := rest;
      reader.FeedLine(line);
    }

    /** The inner loop: lines that are complete in the buffer. */
    method DrainBuffer(reader: ReplyReader, ghost whole: (Reply, string))
      requires sock.Valid() && !reader.done && reader.Outcome() == Reply(reader.lines, None, None, false)
      requires ReadStream(Pending(), reader.lines) == whole
      modifies this, reader
      ensures !reader.done ==> '\n' !in buf && reader.Outcome() == Reply(reader.lines, None, None, false)
      ensures if reader.done then (reader.Outcome(), Pending()) == whole else ReadStream(Pending(), reader.lines) == whole
    {
      while '\n' in buf && !reader.done
        invariant !reader.done ==> reader.Outcome() == Reply(reader.lines, None, None, false)
        invariant if reader.done then (reader.Outcome(), Pending()) == whole else ReadStream(Pending(), reader.lines) == whole
        decreases |buf|
      {
        FeedNext(reader);
      }
    }
  }

  // ----- printing replies and reading them back -----

  /** Data lines carry codes 1000 to 7999 in either separator form, or 0000 to 0999 with a dash;
      continuation lines start with one space. */
  datatype DataLine = Coded(code: nat, dash: bool, text: string) | Continuation(text: string)

  datatype Message = Message(data: seq<DataLine>, code: nat, dash: bool, text: string)

  ghost predicate IsData(l: DataLine) {
    && '\n' !in l.text
    && (l.Coded? ==> l.code < 8000 && (l.code < 1000 ==> l.dash))
  }

  ghost predicate IsMessage(m: Message) {
    && (forall l :: l in m.data ==> IsData(l))
    && '\n' !in m.text
    && m.code < 10000 && (m.code < 1000 ==> !m.dash) && !(1000 <= m.code < 8000)
  }

  function Digit(d: nat): (c: char)
    requires d < 10
    ensures IsDigit(c) && DigitValue(c) == d
  {
    '0' + d as char
  }

  function FourDigits(code: nat): (s: string)
    requires code < 10000
    ensures |s| == 4 && IsCodeLine(s) && CodeOf(s) == code
  {
    var thousands, hundreds, tens := code / 1000, code / 100 - 10 * (code / 1000), code / 10 - 10 * (code / 100);
    [Digit(thousands), Digit(hundreds), Digit(tens), Digit(code - 10 * (code / 10))]
  }

  function Separated(code: nat, dash: bool, text: string): string
    requires code < 10000
  {
    FourDigits(code) + (if dash then "-" else " ") + text
  }

  function PrintData(l: DataLine): string
    requires l.Coded? ==> l.code < 10000
  {
    match l
    case Coded(code, dash, text) => Separated(code, dash, text)
    case Continuation(text) => " " + text
  }

  ghost function Print(m: Message): string
    requires IsMessage(m)
    decreases |m.data|
  {
    if m.data == [] then Separated(m.code, m.dash, m.text) + "\n"
    else
      assert forall l :: l in m.data[1..] ==> l in m.data;
      assert IsData(m.data[0]);
      PrintData(m.data[0]) + "\n" + Print(m.(data := m.data[1..]))
  }

  function Texts(data: seq<DataLine>): seq<string> {
    seq(|data|, k requires 0 <= k < |data| => data[k].text)
  }

  /** What a reader should make of a message. The text of a success line is not kept. */
  function Meaning(m: Message, lines: seq<string>): Reply {
    Reply(lines + Texts(m.data), Some(m.code), if m.code >= 8000 then Some(m.text) else None, false)
  }

  lemma SeparatedReads(code: nat, dash: bool, text: string)
    requires code < 10000 && '\n' !in text
    ensures var line := Separated(code, dash, text);
      && IsCodeLine(line) && CodeOf(line) == code && StripCode(line) == text && '\n' !in line
      && (Terminates(line) <==> (code < 1000 && !dash) || code >= 8000)
  {
    var line := Separated(code, dash, text);
    var digits := FourDigits(code);
    assert forall k :: 0 <= k < 4 ==> line[k] == digits[k];
    assert line[5..] == text;
    assert line[4] == if dash then '-' else ' ';
  }

  lemma DataReads(l: DataLine)
    requires IsData(l)
    ensures var line := PrintData(l); '\n' !in line && !Terminates(line) && StripCode(line) == l.text
  {
    if l.Coded? {
      SeparatedReads(l.code, l.dash, l.text);
    }
  }

  lemma Regroup(line: string, more: string, rest: string)
    ensures (line + "\n" + more) + rest == line + "\n" + (more + rest)
  {
  }

  /** Reading past one data line. */
  lemma AfterDataLine(l: DataLine, more: string, rest: string, lines: seq<string>)
    requires IsData(l)
    ensures ReadStream((PrintData(l) + "\n" + more) + rest, lines) == ReadStream(more + rest, lines + [l.text])
  {
    DataReads(l);
    Regroup(PrintData(l), more, rest);
    ReadLine(PrintData(l), more + rest, lines);
  }

  lemma AfterLastLine(m: Message, rest: string, lines: seq<string>)
    requires IsMessage(m) && m.data == []
    ensures ReadStream(Print(m) + rest, lines) == (Meaning(m, lines), rest)
  {
    SeparatedReads(m.code, m.dash, m.text);
    Regroup(Separated(m.code, m.dash, m.text), "", rest);
    assert Print(m) == Separated(m.code, m.dash, m.text) + "\n" + "";
    assert "" + rest == rest && lines + Texts(m.data) == lines;
    ReadLine(Separated(m.code, m.dash, m.text), rest, lines);
  }

  lemma {:induction false} MessageReads(m: Message, rest: string, lines: seq<string>)
    requires IsMessage(m)
    ensures ReadStream(Print(m) + rest, lines) == (Meaning(m, lines), rest)
    decreases |m.data|
  {
    if m.data == [] {
      AfterLastLine(m, rest, lines);
    } else {
      var l, more := m.data[0], m.(data := m.data[1..]);
      assert IsData(l);
      assert forall x :: x in more.data ==> x in m.data;
      AfterDataLine(l, Print(more), rest, lines);
      MessageReads(more, rest, lines + [l.text]);
      FirstText(m.data, lines);
    }
  }

  lemma FirstText(data: seq<DataLine>, lines: seq<string>)
    requires data != []
    ensures lines + [data[0].text] + Texts(data[1..]) == lines + Texts(data)
  {
  }

  // ----- replies that are cut short, and lines of no known form -----

  ghost function PrintLines(data: seq<DataLine>): string
    requires forall l :: l in data ==> IsData(l)
  {
    if data == [] then ""
    else
      assert IsData(data[0]) && forall l :: l in data[1..] ==> l in data;
      PrintData(data[0]) + "\n" + PrintLines(data[1..])
  }

  /** If the peer closes before the last line, what came is kept, the rest of a line stays pending, and
      the reply has neither code nor error. */
  lemma {:induction false} CutShort(data: seq<DataLine>, tail: string, lines: seq<string>)
    requires (forall l :: l in data ==> IsData(l)) && '\n' !in tail
    ensures ReadStream(PrintLines(data) + tail, lines) == (Reply(lines + Texts(data), None, None, true), tail)
    decreases |data|
  {
    if data == [] {
      assert PrintLines(data) + tail == tail && lines + Texts(data) == lines;
    } else {
      assert IsData(data[0]) && forall l :: l in data[1..] ==> l in data;
      AfterDataLine(data[0], PrintLines(data[1..]), tail, lines);
      CutShort(data[1..], tail, lines + [data[0].text]);
      FirstText(data, lines);
    }
  }

  /** A line without a code and without a leading space is kept whole; four digits alone are a code
      without text, as if a space followed. */
  lemma OtherLines(line: string, code: nat)
    requires code < 10000
    ensures !IsCodeLine(line) && !(" " <= line) ==> StripCode(line) == line && !Terminates(line)
    ensures StripCode(FourDigits(code)) == "" && (Terminates(FourDigits(code)) <==> code < 1000 || code >= 8000)
  {
  }

  ghost function PrintAll(ms: seq<Message>): string
    requires forall m :: m in ms ==> IsMessage(m)
  {
    if ms == [] then "" else Print(ms[0]) + PrintAll(ms[1..])
  }

  /** The first `n` replies of a stream, and what is left. */
  function ReadAll(stream: string, n: nat): (seq<Reply>, string)
    decreases n
  {
    if n == 0 then ([], stream)
    else
      var (reply, rest) := ReadStream(stream, []);
      var (replies, left) := ReadAll(rest, n - 1);
      ([reply] + replies, left)
  }

  ghost function Meanings(ms: seq<Message>): seq<Reply> {
    if ms == [] then [] else [Meaning(ms[0], [])] + Meanings(ms[1..])
  }

  lemma PrintedFirst(ms: seq<Message>, rest: string)
    requires ms != [] && forall m :: m in ms ==> IsMessage(m)
    ensures ms[0] in ms && forall m :: m in ms[1..] ==> IsMessage(m)
    ensures PrintAll(ms) + rest == Print(ms[0]) + (PrintAll(ms[1..]) + rest)
  {
    hide IsMessage, Print;
  }

  /** Reply round trip: any sequence of messages reads back one by one, texts, codes and error
      flags intact, and the bytes after them stay untouched. */
  lemma {:induction false} RoundTrip(ms: seq<Message>, rest: string)
    requires forall m :: m in ms ==> IsMessage(m)
    ensures ReadAll(PrintAll(ms) + rest, |ms|) == (Meanings(ms), rest)
  {
    hide IsMessage, Print, ReadStream;
    if ms == [] {
      assert PrintAll(ms) + rest == rest;
    } else {
      PrintedFirst(ms, rest);
      MessageReads(ms[0], PrintAll(ms[1..]) + rest, []);
      RoundTrip(ms[1..], rest);
    }
  }

  ghost function Prefixed(replies: seq<Reply>, later: (seq<Reply>, string)): (seq<Reply>, string) {
    (replies + later.0, later.1)
  }

  /** Successive reads on one framing give the replies of the stream, however it was chunked. */
  method ReadReplies(framing: Framing, n: nat) returns (replies: seq<Reply>)
    requires framing.sock.Valid()
    modifies framing, framing.sock
    ensures framing.sock.Valid()
    ensures (replies, framing.Pending()) == ReadAll(old(framing.Pending()), n)
  {
    replies := [];
    ghost var stream := framing.Pending();
    assert [] + ReadAll(stream, n).0 == ReadAll(stream, n).0;
    for k := 0 to n
      invariant framing.sock.Valid()
      invariant ReadAll(stream, n) == Prefixed(replies, ReadAll(framing.Pending(), n - k))
    {
      ghost var before, pending := replies, framing.Pending();
      var reader := framing.ReadReply();
      replies := replies + [reader.Outcome()];
      assert Prefixed(before, ReadAll(pending, n - k)) == Prefixed(replies, ReadAll(framing.Pending(), n - k - 1)) by {
        var later := ReadAll(framing.Pending(), n - k - 1);
        assert before + ([reader.Outcome()] + later.0) == replies + later.0;
      }
    }
    assert replies + [] == replies;
  }
}
