/**
 * Control-channel framing: the reply printers and command splitter of server/src/control/Session.cpp
 * and the incremental reply parser of client/src/control/Session.cpp (section 4.2 of RFC 959).
 */
module Replies {
  import opened Bytes

  // ----- text

  function Digit(d: nat): char
    requires d < 10
  {
    ('0' as int + d) as char
  }

  predicate IsDigit(c: char) { '0' <= c <= '9' }

  /** std::to_string of a non-negative number. */
  function Decimal(n: nat): string { if n < 10 then [Digit(n)] else Decimal(n / 10) + [Digit(n % 10)] }

  lemma DecimalOfCode(code: nat)
    requires 100 <= code <= 999
    ensures Decimal(code) == [Digit(code / 100), Digit(code / 10 % 10), Digit(code % 10)]
  {
    assert Decimal(code / 10) == Decimal(code / 100) + [Digit(code / 10 % 10)];
  }

  /** std::stoi of three digits. */
  function ThreeDigits(s: string): nat
    requires |s| >= 3 && IsDigit(s[0]) && IsDigit(s[1]) && IsDigit(s[2])
  {
    (s[0] as int - '0' as int) * 100 + (s[1] as int - '0' as int) * 10 + (s[2] as int - '0' as int)
  }

  /** Position of the first newline, or the length. */
  function Newline(s: string): (k: nat)
    ensures k <= |s|
    ensures k < |s| ==> s[k] == '\n'
    ensures '\n' !in s[..k]
  {
    if s == "" then 0
    else if s[0] == '\n' then 0
    else assert s[1..][..Newline(s[1..])] == s[..1 + Newline(s[1..])][1..]; 1 + Newline(s[1..])
  }

  /** The line without one trailing carriage return. */
  function StripCr(line: string): string {
    if line != "" && line[|line| - 1] == '\r' then line[..|line| - 1] else line
  }

  lemma {:induction false} NewlineAt(s: string, rest: string)
    requires '\n' !in s
    ensures Newline(s + "\n" + rest) == |s|
  {
    var t := s + "\n" + rest;
    if s == "" {
      assert t[0] == '\n';
    } else {
      assert t[1..] == s[1..] + "\n" + rest;
      NewlineAt(s[1..], rest);
    }
  }

  // ----- lines out of a byte stream

  /** A complete line, stripped, and what follows it. */
  datatype LineResult = NoLine | Line(text: string, rest: string)

  function NextLine(stream: string): (r: LineResult)
    ensures r.Line? ==> |r.rest| < |stream|
  {
    var k := Newline(stream);
    if k == |stream| then NoLine else Line(StripCr(stream[..k]), stream[k + 1..])
  }

  /** More bytes do not change a line that is already complete. */
  lemma NextLineExtends(stream: string, more: string)
    requires NextLine(stream).Line?
    ensures NextLine(stream + more) == Line(NextLine(stream).text, NextLine(stream).rest + more)
  {
    var k := Newline(stream);
    assert stream + more == stream[..k] + "\n" + (stream[k + 1..] + more);
    NewlineAt(stream[..k], stream[k + 1..] + more);
    assert (stream + more)[..k] == stream[..k];
  }

  /** A printed line reads back, whatever follows. */
  lemma PrintedLineReadsBack(text: string, rest: string)
    requires '\n' !in text
    ensures NextLine(text + "\r\n" + rest) == Line(text, rest)
  {
    var s := text + "\r";
    assert text + "\r\n" + rest == s + "\n" + rest;
    NewlineAt(s, rest);
    assert (s + "\n" + rest)[..|s|] == s;
    assert s[..|s| - 1] == text;
  }

  // ----- printing on the server

  function Labelled(code: nat, separator: char, text: string): string { Decimal(code) + [separator] + text }

  /** The lines of a reply: all but the last carry a hyphen. */
  function ReplyLines(code: nat, texts: seq<string>): (r: seq<string>)
    ensures |r| == |texts|
  {
    seq(|texts|, i requires 0 <= i < |texts| => Labelled(code, if i + 1 < |texts| then '-' else ' ', texts[i]))
  }

  function OnTheWire(lines: seq<string>): string {
    if lines == [] then "" else lines[0] + "\r\n" + OnTheWire(lines[1..])
  }

  /** What std::getline leaves of a stream that is not exhausted. */
  function AfterLine(message: string): (r: string)
    requires message != ""
    ensures |r| < |message|
  {
    var k := Newline(message);
    if k == |message| then "" else message[k + 1..]
  }

  /** std::getline until the stream is exhausted, each line stripped. */
  function GetLines(message: string): seq<string>
    decreases |message|
  {
    if message == "" then [] else [StripCr(message[..Newline(message)])] + GetLines(AfterLine(message))
  }

  function MessageLines(message: string): (r: seq<string>)
    ensures |r| > 0
  {
    if GetLines(message) == [] then [""] else GetLines(message)
  }

  lemma {:induction false} GetLinesHaveNoNewline(message: string)
    ensures forall i :: 0 <= i < |GetLines(message)| ==> '\n' !in GetLines(message)[i]
    decreases |message|
  {
    if message != "" {
      GetLinesHaveNoNewline(AfterLine(message));
    }
  }

  // ----- what the lines of a message are

  /** Lines one after another, a newline between them. */
  function Joined(lines: seq<string>): string {
    if lines == [] then "" else if |lines| == 1 then lines[0] else lines[0] + "\n" + Joined(lines[1..])
  }

  predicate IsLine(line: string) { '\n' !in line && (line != "" ==> line[|line| - 1] != '\r') }

  /** The message consists of these lines; a newline after the last makes no difference. */
  predicate ConsistsOf(message: string, lines: seq<string>) {
    lines != [] && (forall i :: 0 <= i < |lines| ==> IsLine(lines[i])) &&
    (message == Joined(lines) + "\n" || (message == Joined(lines) && lines[|lines| - 1] != ""))
  }

  /** The getline loop takes the first line off a text. */
  lemma GetLinesCons(line: string, rest: string)
    requires '\n' !in line
    ensures GetLines(line + "\n" + rest) == [StripCr(line)] + GetLines(rest)
  {
    var message := line + "\n" + rest;
    NewlineAt(line, rest);
    assert message[..|line|] == line && message[|line| + 1..] == rest;
  }

  /** An unterminated last line counts if it is not empty. */
  lemma GetLinesLast(line: string)
    requires '\n' !in line && line != ""
    ensures GetLines(line) == [StripCr(line)]
  {
    forall i | 0 <= i < |line| ensures line[i] != '\n' { assert line[i] in line; }
    assert line[..|line|] == line && AfterLine(line) == "";
  }

  lemma JoinedCons(line: string, rest: seq<string>, end: string)
    requires rest != []
    ensures Joined([line] + rest) + end == line + "\n" + (Joined(rest) + end)
  {
    assert ([line] + rest)[1..] == rest;
  }

  /** One line before others, or the only one. */
  lemma GetLinesStep(line: string, rest: seq<string>, end: string)
    requires IsLine(line) && (rest == [] && end == "" ==> line != "") && (end == "\n" || end == "")
    requires rest != [] ==> GetLines(Joined(rest) + end) == rest
    ensures GetLines(Joined([line] + rest) + end) == [line] + rest
  {
    assert StripCr(line) == line;
    if rest != [] {
      JoinedCons(line, rest, end);
      GetLinesCons(line, Joined(rest) + end);
    } else if end == "\n" {
      assert line + "\n" == line + "\n" + "";
      GetLinesCons(line, "");
    } else {
      assert line + "" == line;
      GetLinesLast(line);
    }
  }

  lemma {:induction false} GetLinesOfJoined(lines: seq<string>, end: string)
    requires lines != [] && (forall i :: 0 <= i < |lines| ==> IsLine(lines[i])) && (end == "\n" || end == "")
    requires end == "" ==> lines[|lines| - 1] != ""
    ensures GetLines(Joined(lines) + end) == lines
    decreases |lines|
  {
    if |lines| > 1 {
      GetLinesOfJoined(lines[1..], end);
    }
    GetLinesStep(lines[0], lines[1..], end);
    assert [lines[0]] + lines[1..] == lines;
  }

  /** A message is split into the lines that it consists of. */
  lemma MessageLinesAre(message: string, lines: seq<string>)
    requires ConsistsOf(message, lines)
    ensures MessageLines(message) == lines
  {
    assert Joined(lines) + "" == Joined(lines);
    GetLinesOfJoined(lines, if message == Joined(lines) + "\n" then "\n" else "");
  }

  lemma NewlinesInLine(line: string)
    requires '\n' !in line
    ensures multiset(line)['\n'] == 0
  {
  }

  /** As many lines as newlines, and one more unless the message ends in a newline. */
  lemma {:induction false} GetLinesCount(message: string)
    ensures |GetLines(message)| ==
            multiset(message)['\n'] + (if message == "" || message[|message| - 1] == '\n' then 0 else 1)
    decreases |message|
  {
    if message != "" {
      var k := Newline(message);
      if k == |message| {
        assert message[..k] == message;
        assert message[|message| - 1] in message;
      } else {
        var line, rest := message[..k], message[k + 1..];
        assert message == line + "\n" + rest;
        assert multiset(message) == multiset(line) + multiset{'\n'} + multiset(rest);
        GetLinesCount(rest);
        assert rest != "" ==> rest[|rest| - 1] == message[|message| - 1];
        assert rest == "" ==> message[|message| - 1] == '\n';
      }
    }
  }

  lemma LineCount(message: string)
    ensures |MessageLines(message)| ==
            multiset(message)['\n'] + (if message != "" && message[|message| - 1] == '\n' then 0 else 1)
  {
    GetLinesCount(message);
    assert message != "" ==> |GetLines(message)| == 1 + |GetLines(AfterLine(message))|;
  }

  lemma {:induction false} OnTheWireAppend(a: seq<string>, b: seq<string>)
    ensures OnTheWire(a + b) == OnTheWire(a) + OnTheWire(b)
  {
    if a == [] {
      assert a + b == b;
    } else {
      assert (a + b)[1..] == a[1..] + b;
      OnTheWireAppend(a[1..], b);
    }
  }

  /** replyWithCode */
  method ReplyWithCode(code: nat, message: string) returns (sent: string)
    ensures sent == OnTheWire(ReplyLines(code, [message]))
  {
    sent := Decimal(code) + " " + message + "\r\n";
    assert ReplyLines(code, [message])[1..] == [];
    assert ReplyLines(code, [message])[0] == Decimal(code) + " " + message;
  }

  /** The lines of `message` are `lines` and those of `rest`. */
  ghost predicate Gathering(message: string, lines: seq<string>, rest: string) {
    GetLines(message) == lines + GetLines(rest)
  }

  lemma GatheringStep(message: string, lines: seq<string>, rest: string)
    requires Gathering(message, lines, rest) && rest != ""
    ensures Gathering(message, lines + [StripCr(rest[..Newline(rest)])], AfterLine(rest))
  {
    Associative(lines, [StripCr(rest[..Newline(rest)])], GetLines(AfterLine(rest)));
  }

  /** The getline loop of multilineReplyWithCode. */
  method SplitMessage(message: string) returns (lines: seq<string>)
    ensures lines == MessageLines(message)
  {
    lines := [];
    var rest := message;
    assert Gathering(message, [], message) by { assert [] + GetLines(message) == GetLines(message); }
    while rest != ""
      invariant Gathering(message, lines, rest)
      decreases |rest|
    {
      GatheringStep(message, lines, rest);
      lines := lines + [StripCr(rest[..Newline(rest)])];
      rest := AfterLine(rest);
    }
    assert lines == GetLines(message) by { assert lines + [] == lines; }
    if lines == [] {
      lines := [""];
    }
  }

  lemma OnTheWireSnoc(lines: seq<string>, line: string)
    ensures OnTheWire(lines + [line]) == OnTheWire(lines) + line + "\r\n"
  {
    OnTheWireAppend(lines, [line]);
    assert [line][1..] == [];
    assert OnTheWire([line]) == line + "\r\n";
  }

  /** multilineReplyWithCode: split, then print line by line. */
  method MultilineReplyWithCode(code: nat, message: string) returns (sent: string)
    ensures sent == OnTheWire(ReplyLines(code, MessageLines(message)))
  {
    var lines := SplitMessage(message);
    ghost var all := ReplyLines(code, lines);
    sent := "";
    var i := 0;
    while i + 1 < |lines|
      invariant i < |lines|
      invariant sent == OnTheWire(all[..i])
    {
      sent := sent + Labelled(code, '-', lines[i]) + "\r\n";
      OneMoreLine(all, i);
      i := i + 1;
    }
    sent := sent + Labelled(code, ' ', lines[|lines| - 1]) + "\r\n";
    OneMoreLine(all, i);
    assert all[..|all|] == all;
  }

  lemma OneMoreLine(all: seq<string>, i: nat)
    requires i < |all|
    ensures OnTheWire(all[..i + 1]) == OnTheWire(all[..i]) + all[i] + "\r\n"
  {
    OnTheWireSnoc(all[..i], all[i]);
    assert all[..i + 1] == all[..i] + [all[i]];
  }

  // ----- parsing on the client

  datatype Reply = Reply(code: nat, lines: seq<string>)

  /** A reply under construction; code zero means that the first line has not been taken. */
  datatype Partial = Partial(code: nat, multiline: bool, lines: seq<string>)

  const NO_LINES := Partial(0, false, [])

  datatype Verdict = Malformed | More(state: Partial) | Complete(reply: Reply)

  predicate StartsWithCode(line: string) {
    |line| >= 3 && IsDigit(line[0]) && IsDigit(line[1]) && IsDigit(line[2])
  }

  predicate Terminates(code: nat, line: string) {
    |line| > 3 && line[..3] == Decimal(code) && line[3] == ' '
  }

  /** One line through the parser. */
  function Feed(p: Partial, line: string): Verdict {
    if p.code == 0 then
      if !StartsWithCode(line) then Malformed
      else if |line| > 3 && line[3] == '-' then More(Partial(ThreeDigits(line), true, p.lines + [line]))
      else Complete(Reply(ThreeDigits(line), p.lines + [line]))
    else if p.multiline && Terminates(p.code, line) then Complete(Reply(p.code, p.lines + [line]))
    else More(p.(lines := p.lines + [line]))
  }

  datatype Parsed = Starved | Rejected | Got(reply: Reply, rest: string)

  /** The parser on the whole stream at once. */
  function Parse(p: Partial, stream: string): Parsed
    decreases |stream|
  {
    match NextLine(stream)
    case NoLine => Starved
    case Line(text, rest) =>
      match Feed(p, text)
      case Malformed => Rejected
      case More(q) => Parse(q, rest)
      case Complete(reply) => Got(reply, rest)
  }

  /** A buffered reader over the control connection. */
  class ReplyReader {
    var replyBuffer: string

    constructor ()
      ensures replyBuffer == ""
    {
      replyBuffer := "";
    }

    /**
     * readReply, with `segments` what successive recv calls return before the connection ends.
     * The outcome depends only on the bytes, not on how TCP cut them; exactly the bytes of the
     * reply are consumed.
     */
    method ReadReply(segments: seq<string>) returns (reply: Option<Reply>, used: nat)
      modifies this
      ensures used <= |segments|
      ensures match Parse(NO_LINES, old(replyBuffer) + Flatten(segments))
              case Got(r, rest) => reply == Some(r) && replyBuffer + Flatten(segments[used..]) == rest
              case Rejected => reply == None
              case Starved => reply == None && used == |segments|
    {
      var p := NO_LINES;
      used := 0;
      ghost var goal := Parse(NO_LINES, replyBuffer + Flatten(segments));
      assert segments[0..] == segments;
      while true
        invariant used <= |segments|
        invariant Parse(p, replyBuffer + Flatten(segments[used..])) == goal
        decreases |segments| - used
      {
        while NextLine(replyBuffer).Line?
          invariant Parse(p, replyBuffer + Flatten(segments[used..])) == goal
          decreases |replyBuffer|
        {
          var next := NextLine(replyBuffer);
          NextLineExtends(replyBuffer, Flatten(segments[used..]));
          replyBuffer := next.rest;
          match Feed(p, next.text) {
            case Malformed => return None, used;
            case Complete(r) => return Some(r), used;
            case More(q) => p := q;
          }
        }
        if used == |segments| {
          assert replyBuffer + Flatten(segments[used..]) == replyBuffer;
          return None, used;
        }
        assert segments[used..][1..] == segments[used + 1..];
        assert replyBuffer + Flatten(segments[used..]) ==
               replyBuffer + segments[used] + Flatten(segments[used + 1..]);
        replyBuffer := replyBuffer + segments[used];
        used := used + 1;
      }
    }
  }

  // ----- round trips

  /** A printed line of a reply is recognised as what it is. */
  lemma LabelledLine(code: nat, separator: char, text: string)
    requires 100 <= code <= 999
    ensures var line := Labelled(code, separator, text);
            |line| > 3 && StartsWithCode(line) && ThreeDigits(line) == code && line[3] == separator &&
            line[..3] == Decimal(code)
  {
    DecimalOfCode(code);
    CodeReadsBack(code);
    var line := Labelled(code, separator, text);
    assert line[..3] == Decimal(code);
    assert line[0] == Decimal(code)[0] && line[1] == Decimal(code)[1] && line[2] == Decimal(code)[2];
  }

  lemma CodeReadsBack(code: nat)
    requires 100 <= code <= 999
    ensures var digits := [Digit(code / 100), Digit(code / 10 % 10), Digit(code % 10)];
            StartsWithCode(digits) && ThreeDigits(digits) == code
  {
    assert code == code / 10 * 10 + code % 10 && code / 10 == code / 100 * 10 + code / 10 % 10;
  }

  lemma NoNewlineInLabelled(code: nat, separator: char, text: string)
    requires 100 <= code <= 999 && separator != '\n' && '\n' !in text
    ensures '\n' !in Labelled(code, separator, text)
  {
    DecimalOfCode(code);
  }

  /** The first line of a printed reply, and the printed remainder. */
  lemma FirstLine(code: nat, texts: seq<string>, rest: string)
    requires 100 <= code <= 999 && texts != [] && '\n' !in texts[0]
    ensures var lines := ReplyLines(code, texts);
            NextLine(OnTheWire(lines) + rest) == Line(lines[0], OnTheWire(lines[1..]) + rest) &&
            lines[1..] == ReplyLines(code, texts[1..])
  {
    var lines := ReplyLines(code, texts);
    var tail := OnTheWire(lines[1..]) + rest;
    NoNewlineInLabelled(code, if |texts| > 1 then '-' else ' ', texts[0]);
    PrintedLineReadsBack(lines[0], tail);
    assert OnTheWire(lines) + rest == lines[0] + "\r\n" + tail;
  }

  /** A printed line fed to a parser that has, or has not, taken the first line. */
  lemma FeedLabelled(p: Partial, code: nat, last: bool, text: string)
    requires 100 <= code <= 999 && (p.code == 0 || (p.code == code && p.multiline))
    ensures var line := Labelled(code, if last then ' ' else '-', text);
            Feed(p, line) == if last then Complete(Reply(code, p.lines + [line]))
                             else More(Partial(code, true, p.lines + [line]))
  {
    LabelledLine(code, if last then ' ' else '-', text);
  }

  lemma LastLineReadsBack(p: Partial, code: nat, text: string, rest: string)
    requires 100 <= code <= 999 && (p.code == 0 || (p.code == code && p.multiline)) && '\n' !in text
    ensures Parse(p, OnTheWire(ReplyLines(code, [text])) + rest) ==
            Got(Reply(code, p.lines + ReplyLines(code, [text])), rest)
  {
    var lines := ReplyLines(code, [text]);
    FirstLine(code, [text], rest);
    FeedLabelled(p, code, true, text);
    assert lines == [Labelled(code, ' ', text)] && lines[1..] == [];
    assert OnTheWire(lines[1..]) + rest == rest;
  }

  lemma EarlierLineReadsOn(p: Partial, code: nat, texts: seq<string>, rest: string)
    requires 100 <= code <= 999 && |texts| > 1 && (p.code == 0 || (p.code == code && p.multiline)) && '\n' !in texts[0]
    ensures Parse(p, OnTheWire(ReplyLines(code, texts)) + rest) ==
            Parse(Partial(code, true, p.lines + [Labelled(code, '-', texts[0])]),
                  OnTheWire(ReplyLines(code, texts[1..])) + rest)
  {
    FirstLine(code, texts, rest);
    FeedLabelled(p, code, false, texts[0]);
    assert ReplyLines(code, texts)[0] == Labelled(code, '-', texts[0]);
  }

  lemma ReplyLinesCons(code: nat, texts: seq<string>)
    requires |texts| > 1
    ensures ReplyLines(code, texts) == [Labelled(code, '-', texts[0])] + ReplyLines(code, texts[1..])
  {
  }

  /** From any line on: intermediate lines never terminate, the last one does. */
  lemma {:induction false} LinesReadBack(p: Partial, code: nat, texts: seq<string>, rest: string)
    requires 100 <= code <= 999 && texts != [] && (p.code == 0 || (p.code == code && p.multiline))
    requires forall i :: 0 <= i < |texts| ==> '\n' !in texts[i]
    ensures Parse(p, OnTheWire(ReplyLines(code, texts)) + rest) ==
            Got(Reply(code, p.lines + ReplyLines(code, texts)), rest)
    decreases |texts|
  {
    if |texts| == 1 {
      LastLineReadsBack(p, code, texts[0], rest);
      assert texts == [texts[0]];
    } else {
      var line, later := Labelled(code, '-', texts[0]), ReplyLines(code, texts[1..]);
      EarlierLineReadsOn(p, code, texts, rest);
      LinesReadBack(Partial(code, true, p.lines + [line]), code, texts[1..], rest);
      ReplyLinesCons(code, texts);
      assert p.lines + [line] + later == p.lines + ([line] + later);
    }
  }

  /** A printed reply of any number of lines parses to its code and lines and leaves the rest. */
  lemma ReplyReadsBack(code: nat, texts: seq<string>, rest: string)
    requires 100 <= code <= 999 && texts != []
    requires forall i :: 0 <= i < |texts| ==> '\n' !in texts[i]
    ensures Parse(NO_LINES, OnTheWire(ReplyLines(code, texts)) + rest) == Got(Reply(code, ReplyLines(code, texts)), rest)
  {
    LinesReadBack(NO_LINES, code, texts, rest);
    assert NO_LINES.lines + ReplyLines(code, texts) == ReplyLines(code, texts);
  }

  // ----- any server's replies (section 4.2 of RFC 959)

  /** The line starts with these three digits and then has this character. */
  predicate Opens(line: string, code: nat, next: char) {
    |line| > 3 && StartsWithCode(line) && ThreeDigits(line) == code && line[3] == next
  }

  /** Three digits are a code's exactly when they are its decimal digits. */
  lemma DigitsOf(a: nat, b: nat, c: nat, code: nat)
    requires a < 10 && b < 10 && c < 10 && 100 <= code <= 999
    ensures a * 100 + b * 10 + c == code <==> a == code / 100 && b == code / 10 % 10 && c == code % 10
  {
  }

  lemma CodeIsDigits(line: string, code: nat)
    requires StartsWithCode(line) && 100 <= code <= 999
    ensures ThreeDigits(line) == code <==>
              line[0] == Digit(code / 100) && line[1] == Digit(code / 10 % 10) && line[2] == Digit(code % 10)
  {
    var zero := '0' as int;
    DigitsOf(line[0] as int - zero, line[1] as int - zero, line[2] as int - zero, code);
  }

  lemma TerminatesIff(code: nat, line: string)
    requires 100 <= code <= 999
    ensures Terminates(code, line) <==> Opens(line, code, ' ')
  {
    DecimalOfCode(code);
    var digits := [Digit(code / 100), Digit(code / 10 % 10), Digit(code % 10)];
    if |line| > 3 {
      assert line[..3] == [line[0], line[1], line[2]];
      assert line[..3] == digits <==> line[0] == digits[0] && line[1] == digits[1] && line[2] == digits[2];
      if StartsWithCode(line) {
        CodeIsDigits(line, code);
      }
    }
  }

  /**
   * What a client makes of the first line: without three digits it gives up; with them, and no hyphen
   * next, the line is the whole reply, even if it ends there.
   */
  lemma FirstLineDecides(line: string, rest: string)
    requires '\n' !in line
    ensures var stream := line + "\r\n" + rest;
            (!StartsWithCode(line) ==> Parse(NO_LINES, stream) == Rejected) &&
            (StartsWithCode(line) && (|line| == 3 || line[3] != '-') ==>
               Parse(NO_LINES, stream) == Got(Reply(ThreeDigits(line), [line]), rest))
  {
    PrintedLineReadsBack(line, rest);
  }

  /** A line of a multi-line reply ends it, or is just one more. */
  lemma LaterLineReads(p: Partial, line: string, rest: string)
    requires 100 <= p.code <= 999 && p.multiline && '\n' !in line
    ensures Parse(p, line + "\r\n" + rest) ==
            if Opens(line, p.code, ' ') then Got(Reply(p.code, p.lines + [line]), rest)
            else Parse(p.(lines := p.lines + [line]), rest)
  {
    PrintedLineReadsBack(line, rest);
    TerminatesIff(p.code, line);
  }

  lemma OnTheWireCons(line: string, lines: seq<string>, tail: string)
    ensures OnTheWire([line] + lines) + tail == line + "\r\n" + (OnTheWire(lines) + tail)
  {
    assert ([line] + lines)[1..] == lines;
  }

  lemma {:induction false} LaterLinesRead(p: Partial, middle: seq<string>, last: string, rest: string)
    requires 100 <= p.code <= 999 && p.multiline && '\n' !in last && Opens(last, p.code, ' ')
    requires forall i :: 0 <= i < |middle| ==> '\n' !in middle[i] && !Opens(middle[i], p.code, ' ')
    ensures Parse(p, OnTheWire(middle) + (last + "\r\n" + rest)) == Got(Reply(p.code, p.lines + middle + [last]), rest)
    decreases |middle|
  {
    var tail := last + "\r\n" + rest;
    if middle == [] {
      assert OnTheWire(middle) + tail == tail && p.lines + middle == p.lines;
      LaterLineReads(p, last, rest);
    } else {
      var line, more := middle[0], middle[1..];
      assert [line] + more == middle;
      OnTheWireCons(line, more, tail);
      LaterLineReads(p, line, OnTheWire(more) + tail);
      LaterLinesRead(p.(lines := p.lines + [line]), more, last, rest);
      Associative(p.lines, [line], more);
    }
  }

  /**
   * A multi-line reply of any server: after a first line with a hyphen everything is part of the reply,
   * whatever it looks like, up to the first line with the same code and a space.
   */
  lemma AnyMultiLineReplyReads(code: nat, first: string, middle: seq<string>, last: string, rest: string)
    requires 100 <= code <= 999 && '\n' !in first && Opens(first, code, '-')
    requires '\n' !in last && Opens(last, code, ' ')
    requires forall i :: 0 <= i < |middle| ==> '\n' !in middle[i] && !Opens(middle[i], code, ' ')
    ensures Parse(NO_LINES, first + "\r\n" + (OnTheWire(middle) + (last + "\r\n" + rest))) ==
            Got(Reply(code, [first] + middle + [last]), rest)
  {
    PrintedLineReadsBack(first, OnTheWire(middle) + (last + "\r\n" + rest));
    assert Feed(NO_LINES, first) == More(Partial(code, true, [first])) by { assert [] + [first] == [first]; }
    LaterLinesRead(Partial(code, true, [first]), middle, last, rest);
  }

  /** A multi-line reply reads back for every message. */
  lemma MessageReadsBack(code: nat, message: string, rest: string)
    requires 100 <= code <= 999
    ensures var lines := ReplyLines(code, MessageLines(message));
            Parse(NO_LINES, OnTheWire(lines) + rest) == Got(Reply(code, lines), rest)
  {
    GetLinesHaveNoNewline(message);
    ReplyReadsBack(code, MessageLines(message), rest);
  }

  /** replyWithCode reads back exactly when the message has no newline. */
  lemma SingleLineReadsBackIff(code: nat, message: string, rest: string)
    requires 100 <= code <= 999
    ensures var lines := ReplyLines(code, [message]);
            Parse(NO_LINES, OnTheWire(lines) + rest) == Got(Reply(code, lines), rest) <==> '\n' !in message
  {
    if '\n' !in message {
      ReplyReadsBack(code, [message], rest);
    } else {
      CutShort(code, message, rest);
    }
  }

  /** Stripping a labelled line strips its text. */
  lemma StripLabelled(code: nat, text: string)
    requires 100 <= code <= 999
    ensures StripCr(Labelled(code, ' ', text)) == Labelled(code, ' ', StripCr(text))
  {
    DecimalOfCode(code);
    var line := Labelled(code, ' ', text);
    if text == "" {
      assert line[|line| - 1] == ' ';
    } else {
      assert line[|line| - 1] == text[|text| - 1];
      assert line[..|line| - 1] == Decimal(code) + [' '] + text[..|text| - 1];
    }
  }

  /** With a newline in the message the parser stops at it and returns a shorter line. */
  lemma CutShort(code: nat, message: string, rest: string)
    requires 100 <= code <= 999 && '\n' in message
    ensures var r := Parse(NO_LINES, OnTheWire(ReplyLines(code, [message])) + rest);
            r.Got? && |r.reply.lines| == 1 && |r.reply.lines[0]| < |Labelled(code, ' ', message)|
  {
    var k := Newline(message);
    assert message[..|message|] == message;
    var first, after := Labelled(code, ' ', message[..k]), message[k + 1..] + "\r\n" + rest;
    BrokenLine(code, message, rest, k);
    NoNewlineInLabelled(code, ' ', message[..k]);
    LineBefore(first, after);
    StripLabelled(code, message[..k]);
    ParsesOneLine(code, StripCr(message[..k]), first + "\n" + after, after);
  }

  /** A printed line with a newline in it looks like a shorter line and something else. */
  lemma BrokenLine(code: nat, message: string, rest: string, k: nat)
    requires k < |message| && message[k] == '\n'
    ensures OnTheWire(ReplyLines(code, [message])) + rest ==
            Labelled(code, ' ', message[..k]) + "\n" + (message[k + 1..] + "\r\n" + rest)
  {
    var lines := ReplyLines(code, [message]);
    assert lines == [Labelled(code, ' ', message)] && lines[1..] == [];
    assert OnTheWire(lines) == Labelled(code, ' ', message) + "\r\n";
    assert message == message[..k] + "\n" + message[k + 1..];
  }

  lemma LineBefore(text: string, after: string)
    requires '\n' !in text
    ensures NextLine(text + "\n" + after) == Line(StripCr(text), after)
  {
    NewlineAt(text, after);
    var stream := text + "\n" + after;
    assert stream[..|text|] == text && stream[|text| + 1..] == after;
  }

  lemma ParsesOneLine(code: nat, text: string, stream: string, after: string)
    requires 100 <= code <= 999 && NextLine(stream) == Line(Labelled(code, ' ', text), after)
    ensures Parse(NO_LINES, stream) == Got(Reply(code, [Labelled(code, ' ', text)]), after)
  {
    FeedLabelled(NO_LINES, code, true, text);
  }

  // ----- a whole conversation

  /** What the server prints: single-line and multi-line replies, one after another. */
  datatype Printed = Single(code: nat, message: string) | Multi(code: nat, message: string) {
    function Lines(): seq<string> {
      ReplyLines(code, if Single? then [message] else MessageLines(message))
    }

    predicate Proper() { 100 <= code <= 999 && (Single? ==> '\n' !in message) }
  }

  function Transcript(replies: seq<Printed>): string {
    if replies == [] then "" else OnTheWire(replies[0].Lines()) + Transcript(replies[1..])
  }

  /** Repeated readReply calls on the whole stream. */
  function ParseAll(n: nat, stream: string): (seq<Reply>, string) {
    if n == 0 then ([], stream)
    else
      match Parse(NO_LINES, stream)
      case Got(r, rest) => var (more, end) := ParseAll(n - 1, rest); ([r] + more, end)
      case _ => ([], stream)
  }

  /** What a client should make of the printed replies. */
  function AsReplies(replies: seq<Printed>): (r: seq<Reply>)
    ensures |r| == |replies|
  {
    if replies == [] then [] else [Reply(replies[0].code, replies[0].Lines())] + AsReplies(replies[1..])
  }

  lemma {:induction false} ConversationReadsBack(replies: seq<Printed>, rest: string)
    requires forall i :: 0 <= i < |replies| ==> replies[i].Proper()
    ensures ParseAll(|replies|, Transcript(replies) + rest) == (AsReplies(replies), rest)
    decreases |replies|
  {
    if replies == [] {
      assert Transcript(replies) + rest == rest;
    } else {
      ConversationReadsBack(replies[1..], rest);
      OneMoreReadsBack(replies[0], replies[1..], rest);
      assert [replies[0]] + replies[1..] == replies;
    }
  }

  lemma OneMoreReadsBack(p: Printed, replies: seq<Printed>, rest: string)
    requires p.Proper() && ParseAll(|replies|, Transcript(replies) + rest) == (AsReplies(replies), rest)
    ensures ParseAll(|replies| + 1, Transcript([p] + replies) + rest) == (AsReplies([p] + replies), rest)
  {
    assert ([p] + replies)[1..] == replies && ([p] + replies)[0] == p;
    var wire, later := OnTheWire(p.Lines()), Transcript(replies);
    assert Transcript([p] + replies) == wire + later;
    assert AsReplies([p] + replies) == [Reply(p.code, p.Lines())] + AsReplies(replies);
    Associative(wire, later, rest);
    FirstReadsBack(p, |replies| + 1, later + rest, AsReplies(replies), rest);
  }

  lemma FirstReadsBack(p: Printed, n: nat, later: string, more: seq<Reply>, rest: string)
    requires p.Proper() && n > 0 && ParseAll(n - 1, later) == (more, rest)
    ensures ParseAll(n, OnTheWire(p.Lines()) + later) == ([Reply(p.code, p.Lines())] + more, rest)
  {
    PrintedReadsBack(p, later);
    ParseAllCons(n, OnTheWire(p.Lines()) + later);
  }

  lemma PrintedReadsBack(p: Printed, rest: string)
    requires p.Proper()
    ensures Parse(NO_LINES, OnTheWire(p.Lines()) + rest) == Got(Reply(p.code, p.Lines()), rest)
  {
    if p.Single? {
      ReplyReadsBack(p.code, [p.message], rest);
    } else {
      MessageReadsBack(p.code, p.message, rest);
    }
  }

  lemma ParseAllCons(n: nat, stream: string)
    requires n > 0 && Parse(NO_LINES, stream).Got?
    ensures var first := Parse(NO_LINES, stream);
            var more := ParseAll(n - 1, first.rest);
            ParseAll(n, stream) == ([first.reply] + more.0, more.1)
  {
  }

  // ----- what the user is shown

  /** A line that begins with the three digits of the code, the separator and then the text. */
  predicate ShowsLine(line: string, code: nat, separator: char, text: string) {
    |line| == 4 + |text| && line[0] as int == '0' as int + code / 100 && line[1] as int == '0' as int + code / 10 % 10 &&
    line[2] as int == '0' as int + code % 10 && line[3] == separator && line[4..] == text
  }

  /** A reply with this code and these lines of text, all but the last marked with a hyphen. */
  predicate Shows(r: Reply, code: nat, texts: seq<string>) {
    r.code == code && |r.lines| == |texts| &&
    forall k :: 0 <= k < |texts| ==> ShowsLine(r.lines[k], code, if k + 1 < |texts| then '-' else ' ', texts[k])
  }

  lemma LabelledShows(code: nat, separator: char, text: string)
    requires 100 <= code <= 999
    ensures ShowsLine(Labelled(code, separator, text), code, separator, text)
  {
    DecimalOfCode(code);
  }

  /** A printed reply shows its message, or the lines that its message consists of. */
  lemma PrintedShows(p: Printed, texts: seq<string>)
    requires p.Proper() && if p.Single? then texts == [p.message] else ConsistsOf(p.message, texts)
    ensures Shows(Reply(p.code, p.Lines()), p.code, texts)
  {
    if p.Multi? {
      MessageLinesAre(p.message, texts);
    }
    forall k | 0 <= k < |texts|
      ensures ShowsLine(p.Lines()[k], p.code, if k + 1 < |texts| then '-' else ' ', texts[k])
    {
      LabelledShows(p.code, if k + 1 < |texts| then '-' else ' ', texts[k]);
    }
  }

  lemma {:induction false} AsRepliesAt(replies: seq<Printed>, i: nat)
    requires i < |replies|
    ensures AsReplies(replies)[i] == Reply(replies[i].code, replies[i].Lines())
    decreases |replies|
  {
    if i > 0 {
      AsRepliesAt(replies[1..], i - 1);
    }
  }

  /** What the client has read shows what the server was given to print. */
  ghost predicate ShowsAll(got: seq<Reply>, replies: seq<Printed>) {
    |got| == |replies| &&
    (forall i :: 0 <= i < |replies| && replies[i].Single? ==> Shows(got[i], replies[i].code, [replies[i].message])) &&
    (forall i, texts :: 0 <= i < |replies| && replies[i].Multi? && ConsistsOf(replies[i].message, texts) ==>
       Shows(got[i], replies[i].code, texts))
  }

  lemma AsRepliesShow(replies: seq<Printed>)
    requires forall i :: 0 <= i < |replies| ==> replies[i].Proper()
    ensures ShowsAll(AsReplies(replies), replies)
  {
    forall i | 0 <= i < |replies| && replies[i].Single?
      ensures Shows(AsReplies(replies)[i], replies[i].code, [replies[i].message])
    {
      AsRepliesAt(replies, i);
      PrintedShows(replies[i], [replies[i].message]);
    }
    forall i, texts | 0 <= i < |replies| && replies[i].Multi? && ConsistsOf(replies[i].message, texts)
      ensures Shows(AsReplies(replies)[i], replies[i].code, texts)
    {
      AsRepliesAt(replies, i);
      PrintedShows(replies[i], texts);
    }
  }

  /** Reading so far agrees with the parser on the whole stream. */
  ghost predicate OnCourse(n: nat, whole: string, got: seq<Reply>, stream: string) {
    |got| <= n &&
    var more := ParseAll(n - |got|, stream);
    ParseAll(n, whole) == (got + more.0, more.1)
  }

  lemma OnCourseStep(n: nat, whole: string, got: seq<Reply>, stream: string)
    requires OnCourse(n, whole, got, stream) && |got| < n
    ensures var first := Parse(NO_LINES, stream);
            if first.Got? then OnCourse(n, whole, got + [first.reply], first.rest)
            else ParseAll(n, whole) == (got, stream)
  {
    var first := Parse(NO_LINES, stream);
    if first.Got? {
      var more := ParseAll(n - |got| - 1, first.rest);
      ParseAllCons(n - |got|, stream);
      Associative(got, [first.reply], more.0);
    } else {
      assert got + [] == got;
    }
  }

  lemma OnCourseEnd(n: nat, whole: string, got: seq<Reply>, stream: string)
    requires OnCourse(n, whole, got, stream) && |got| == n
    ensures ParseAll(n, whole) == (got, stream)
  {
    assert got + [] == got;
  }

  /** One call after the first `used` segments were received. */
  method ReadFrom(reader: ReplyReader, segments: seq<string>, used: nat) returns (reply: Option<Reply>, now: nat)
    requires used <= |segments|
    modifies reader
    ensures used <= now <= |segments|
    ensures var first := Parse(NO_LINES, old(reader.replyBuffer) + Flatten(segments[used..]));
            reply == (if first.Got? then Some(first.reply) else None) &&
            (first.Got? ==> first.rest == reader.replyBuffer + Flatten(segments[now..])) &&
            (first.Starved? ==> now == |segments|)
  {
    var k;
    reply, k := reader.ReadReply(segments[used..]);
    now := used + k;
    assert segments[used..][k..] == segments[now..];
  }

  /**
   * The client's repeated readReply calls on any segmentation are the parser on the whole stream:
   * the same replies, as many as there are up to `n`, and exactly their bytes consumed. When the
   * stream ends within a reply, everything has been received.
   */
  method ReadReplies(reader: ReplyReader, segments: seq<string>, n: nat) returns (got: seq<Reply>, used: nat)
    modifies reader
    ensures used <= |segments|
    ensures var goal := ParseAll(n, old(reader.replyBuffer) + Flatten(segments));
            got == goal.0 &&
            (|got| == n ==> reader.replyBuffer + Flatten(segments[used..]) == goal.1) &&
            (|got| < n && Parse(NO_LINES, goal.1).Starved? ==> used == |segments|)
  {
    ghost var whole := reader.replyBuffer + Flatten(segments);
    got, used := [], 0;
    assert segments[0..] == segments && [] + ParseAll(n, whole).0 == ParseAll(n, whole).0;
    while |got| < n
      invariant used <= |segments|
      invariant OnCourse(n, whole, got, reader.replyBuffer + Flatten(segments[used..]))
      decreases n - |got|
    {
      OnCourseStep(n, whole, got, reader.replyBuffer + Flatten(segments[used..]));
      var reply;
      reply, used := ReadFrom(reader, segments, used);
      if reply.None? {
        return;
      }
      got := got + [reply.value];
    }
    OnCourseEnd(n, whole, got, reader.replyBuffer + Flatten(segments[used..]));
  }

  /**
   * What the server printed is what the client reads: the replies come back in order with their
   * codes and lines, on any segmentation, and what follows them is left. A single-line reply shows its
   * message, a multi-line one all the lines that its message consists of.
   */
  method ReadConversation(reader: ReplyReader, segments: seq<string>, ghost replies: seq<Printed>, ghost rest: string,
                          n: nat) returns (got: seq<Reply>, used: nat)
    requires n == |replies| && forall i :: 0 <= i < |replies| ==> replies[i].Proper()
    requires reader.replyBuffer + Flatten(segments) == Transcript(replies) + rest
    modifies reader
    ensures used <= |segments| && reader.replyBuffer + Flatten(segments[used..]) == rest
    ensures got == AsReplies(replies) && ShowsAll(got, replies)
  {
    AsRepliesShow(replies);
    ConversationReadsBack(replies, rest);
    got, used := ReadReplies(reader, segments, n);
  }

  // ----- commands

  /** The complete commands in a stream and the unfinished end. */
  function Commands(stream: string): (seq<string>, string)
    decreases |stream|
  {
    match NextLine(stream)
    case NoLine => ([], stream)
    case Line(text, rest) => var (more, end) := Commands(rest); ([text] + more, end)
  }

  lemma CommandsStep(stream: string, before: seq<string>)
    requires NextLine(stream).Line?
    ensures var next := NextLine(stream);
            Commands(stream).1 == Commands(next.rest).1 &&
            before + Commands(stream).0 == before + [next.text] + Commands(next.rest).0
  {
    var next := NextLine(stream);
    assert Commands(stream).0 == [next.text] + Commands(next.rest).0;
  }

  lemma CommandsCons(stream: string, text: string, rest: string, more: seq<string>, end: string)
    requires NextLine(stream) == Line(text, rest) && Commands(rest) == (more, end)
    ensures Commands(stream) == ([text] + more, end)
  {
  }

  /** Splitting `whole` is splitting `stream` and going on with its unfinished end and `more`. */
  ghost predicate Resumes(stream: string, more: string, whole: string) {
    var end := Commands(stream).1;
    Commands(whole) == (Commands(stream).0 + Commands(end + more).0, Commands(end + more).1)
  }

  lemma ResumesCons(stream: string, more: string, whole: string, text: string, rest: string, wholeRest: string)
    requires Resumes(rest, more, wholeRest)
    requires NextLine(stream) == Line(text, rest) && NextLine(whole) == Line(text, wholeRest)
    ensures Resumes(stream, more, whole)
  {
    var tail, end := Commands(rest).0, Commands(rest).1;
    var later, end' := Commands(end + more).0, Commands(end + more).1;
    CommandsCons(stream, text, rest, tail, end);
    CommandsCons(whole, text, wholeRest, tail + later, end');
    Associative([text], tail, later);
  }

  /** Splitting as bytes arrive equals splitting the whole. */
  lemma {:induction false} CommandsExtend(stream: string, more: string)
    ensures Resumes(stream, more, stream + more)
    decreases |stream|
  {
    var next := NextLine(stream);
    if next.NoLine? {
      var later := Commands(stream + more).0;
      assert Commands(stream) == ([], stream) && [] + later == later;
    } else {
      CommandsExtend(next.rest, more);
      NextLineExtends(stream, more);
      ResumesCons(stream, more, stream + more, next.text, next.rest, next.rest + more);
    }
  }

  /** What sendCommand sends is what the dispatcher gets, in order. */
  lemma {:induction false} CommandsReadBack(commands: seq<string>, rest: string)
    requires forall i :: 0 <= i < |commands| ==> '\n' !in commands[i]
    requires NextLine(rest).NoLine?
    ensures Commands(OnTheWire(commands) + rest) == (commands, rest)
    decreases |commands|
  {
    if commands == [] {
      assert OnTheWire(commands) + rest == rest;
    } else {
      var later := OnTheWire(commands[1..]) + rest;
      assert OnTheWire(commands) + rest == commands[0] + "\r\n" + later;
      PrintedLineReadsBack(commands[0], later);
      CommandsReadBack(commands[1..], rest);
      CommandsCons(commands[0] + "\r\n" + later, commands[0], later, commands[1..], rest);
      assert [commands[0]] + commands[1..] == commands;
    }
  }

  /** Splitting came to `commands` so far, with `buffer` still to be split. */
  ghost predicate Splitting(goal: (seq<string>, string), commands: seq<string>, buffer: string) {
    goal == (commands + Commands(buffer).0, Commands(buffer).1)
  }

  lemma SplittingStep(goal: (seq<string>, string), commands: seq<string>, buffer: string)
    requires Splitting(goal, commands, buffer) && NextLine(buffer).Line?
    ensures var next := NextLine(buffer);
            Splitting(goal, commands + [next.text], next.rest) && commands + [next.text] <= goal.0
  {
    CommandsStep(buffer, commands);
  }

  class CommandBuffer {
    var inBuffer: string

    constructor ()
      ensures inBuffer == ""
    {
      inBuffer := "";
    }

    /**
     * One recv of handleClient: append, then cut off and execute one complete command after another.
     * `closes` says whether the session's socket is closed after a command, which ends the session.
     */
    method OnReceive(bytes: string, closes: nat -> bool) returns (commands: seq<string>, open: bool)
      modifies this
      ensures var (all, end) := Commands(old(inBuffer) + bytes);
              && (open <==> forall i :: 0 <= i < |all| ==> !closes(i))
              && (open ==> commands == all && inBuffer == end)
              && (!open ==> commands != [] && commands <= all && closes(|commands| - 1))
              && (forall i :: 0 <= i < |commands| - 1 ==> !closes(i))
    {
      commands := [];
      inBuffer := inBuffer + bytes;
      ghost var goal := Commands(inBuffer);
      assert [] + goal.0 == goal.0;
      while NextLine(inBuffer).Line?
        invariant Splitting(goal, commands, inBuffer)
        invariant forall i :: 0 <= i < |commands| ==> !closes(i)
        decreases |inBuffer|
      {
        var next := NextLine(inBuffer);
        SplittingStep(goal, commands, inBuffer);
        commands := commands + [next.text];
        if closes(|commands| - 1) {
          return commands, false;
        }
        inBuffer := next.rest;
      }
      assert goal == (commands, inBuffer) by { assert commands + [] == commands; }
      open := true;
    }
  }
}
