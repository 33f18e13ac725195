/** What the reader promises: printing replies and events and reading them back
    is the identity, and anything else delivers a prefix. */
module ControlLaws {
  import opened Base
  import opened Control

  /** What Tor sends as one unit: a line, or a data block. */
  datatype Block =
    | Line(code: nat, last: bool, text: string)
    | Data(code: nat, text: string, lines: seq<string>)

  // ---- printing, as the control protocol prescribes ------------------------

  function DigitChar(d: nat): (c: char)
    requires d < 10
    ensures IsDigit(c) && Digit(c) == d
  {
    ('0' as int + d) as char
  }

  function PrintCode(n: nat): (s: string)
    requires n < 1000
    ensures |s| == 3 && ParseCode(s) == Some(n)
  {
    var low := n % 100;
    [DigitChar(n / 100), DigitChar(low / 10), DigitChar(low % 10)]
  }

  /** A line with its code, its separator and its text. */
  function Headed(code: nat, separator: char, text: string): (s: string)
    requires code < 1000
    ensures |s| == 4 + |text| && s[3] == separator && s[4..] == text && ParseCode(s[..3]) == Some(code)
  {
    var s := PrintCode(code) + [separator] + text;
    assert s[..3] == PrintCode(code) && s[4..] == text;
    s
  }

  /** A sender doubles the dot at the start of a data line. */
  function Stuff(v: string): string {
    if v != "" && v[0] == '.' then "." + v else v
  }

  function StuffAll(lines: seq<string>): (r: seq<string>)
    ensures |r| == |lines|
  {
    if lines == [] then [] else [Stuff(lines[0])] + StuffAll(lines[1..])
  }

  predicate Printable(b: Block) {
    b.code < 1000
  }

  function PrintBlock(b: Block): seq<string>
    requires Printable(b)
  {
    match b
    case Line(code, last, text) => [Headed(code, if last then ' ' else '-', text)]
    case Data(code, text, lines) => [Headed(code, '+', text)] + StuffAll(lines) + ["."]
  }

  function Print(blocks: seq<Block>): seq<string>
    requires forall i :: 0 <= i < |blocks| ==> Printable(blocks[i])
  {
    if blocks == [] then [] else PrintBlock(blocks[0]) + Print(blocks[1..])
  }

  /** Three digits are the print of their value. */
  lemma {:induction false} PrintUnique(s: string, n: nat)
    requires |s| == 3 && n < 1000 && IsDigit(s[0]) && IsDigit(s[1]) && IsDigit(s[2])
    ensures s == PrintCode(n) <==> 100 * Digit(s[0]) + 10 * Digit(s[1]) + Digit(s[2]) == n
  {
    var p, a, b, c := PrintCode(n), Digit(s[0]), Digit(s[1]), Digit(s[2]);
    var x, y, z := Digit(p[0]), Digit(p[1]), Digit(p[2]);
    assert 100 * x + 10 * y + z == n;
    if 100 * a + 10 * b + c == n {
      assert a == x && b == y && c == z;
      assert s[0] == p[0] && s[1] == p[1] && s[2] == p[2];
    }
  }

  /** A status is three digits, or a sign and two: what is printed with a zero in
      place of the sign, with the sign's meaning. */
  lemma {:induction false} CodeMeaning(s: string, n: nat)
    requires |s| == 3 && n < 1000
    ensures ParseCode(s).Some? <==> (IsDigit(s[0]) || s[0] == '+' || s[0] == '-') && IsDigit(s[1]) && IsDigit(s[2])
    ensures ParseCode(s).Some? ==>
      var unsigned := if IsDigit(s[0]) then s else ['0', s[1], s[2]];
      unsigned == PrintCode(n) <==> (if s[0] == '-' then ParseCode(s).value + n == 0 else ParseCode(s).value == n)
  {
    if ParseCode(s).Some? {
      PrintUnique(if IsDigit(s[0]) then s else ['0', s[1], s[2]], n);
    }
  }

  // ---- what the blocks mean ------------------------------------------------

  function Join(acc: string, lines: seq<string>): string
    decreases lines
  {
    if lines == [] then acc else Join(acc + "\n" + lines[0], lines[1..])
  }

  function Body(b: Block): string {
    match b
    case Line(code, last, text) => text
    case Data(code, text, lines) => Join(text, lines)
  }

  function Bodies(blocks: seq<Block>): seq<string> {
    if blocks == [] then [] else [Body(blocks[0])] + Bodies(blocks[1..])
  }

  predicate IsLast(b: Block) {
    b.Line? && b.last
  }

  function Events(blocks: seq<Block>): seq<string> {
    if blocks == [] then []
    else if blocks[0].code == 650 then [Body(blocks[0])] + Events(blocks[1..])
    else Events(blocks[1..])
  }

  /** The blocks that are not events. */
  function Synchronous(blocks: seq<Block>): seq<Block> {
    if blocks == [] then []
    else if blocks[0].code == 650 then Synchronous(blocks[1..])
    else [blocks[0]] + Synchronous(blocks[1..])
  }

  function Flatten(replies: seq<seq<Block>>): seq<Block> {
    if replies == [] then [] else replies[0] + Flatten(replies[1..])
  }

  function Size(bodies: seq<string>): nat {
    if bodies == [] then 0 else |bodies[0]| + Size(bodies[1..])
  }

  /** A data block with a first line and more does not exceed the limit before
      its last line break. */
  predicate BlockFits(b: Block) {
    b.Data? && b.lines != [] ==> |Body(b)| <= 4 * 1024 * 1024 + 1
  }

  /** One reply: any number of blocks and then a last line, all with one code. */
  predicate IsReply(blocks: seq<Block>) {
    && blocks != []
    && blocks[0].code != 650
    && (forall i :: 0 <= i < |blocks| ==>
          blocks[i].code == blocks[0].code && (IsLast(blocks[i]) <==> i == |blocks| - 1))
    && Size(Bodies(blocks)) <= 4 * 1024 * 1024
  }

  function Assemble(replies: seq<seq<Block>>): seq<Reply>
    requires forall r :: 0 <= r < |replies| ==> replies[r] != []
  {
    if replies == [] then []
    else [Reply(replies[0][0].code, Bodies(replies[0]))] + Assemble(replies[1..])
  }

  ghost predicate AllFit(sent: seq<Block>) {
    forall i :: 0 <= i < |sent| ==> Printable(sent[i]) && BlockFits(sent[i])
  }

  ghost predicate AllReplies(replies: seq<seq<Block>>) {
    forall r :: 0 <= r < |replies| ==> IsReply(replies[r])
  }

  /** `sent` is the given replies with events anywhere between their blocks. */
  ghost predicate Transcript(sent: seq<Block>, replies: seq<seq<Block>>) {
    && AllFit(sent) && AllReplies(replies)
    && Synchronous(sent) == Flatten(replies)
  }

  /** The event buffer never overflows and the connection stays open. */
  ghost predicate Generous(w: World) {
    forall k: nat :: k - w.taken(k) < 256 && w.accepts(k)
  }

  // ---- framing -------------------------------------------------------------

  lemma StuffingUndone(v: string)
    ensures Unstuff(Stuff(v)) == v
    ensures Stuff(v) != "."
  {}

  lemma {:induction false} JoinGrows(acc: string, lines: seq<string>)
    ensures |acc| <= |Join(acc, lines)|
    ensures lines != [] ==> |acc| < |Join(acc, lines)|
    decreases lines
  {
    if lines != [] {
      JoinGrows(acc + "\n" + lines[0], lines[1..]);
    }
  }

  lemma {:induction false} DataRoundTrip(lines: seq<string>, acc: string, more: seq<string>)
    requires lines != [] ==> |Join(acc, lines)| <= SIZE_LIMIT + 1
    ensures ReadData(StuffAll(lines) + ["."] + more, acc) == Some((Join(acc, lines), more))
    decreases lines
  {
    var printed := StuffAll(lines) + ["."] + more;
    if lines == [] {
      assert printed[1..] == more;
    } else {
      StuffingUndone(lines[0]);
      assert printed[0] == Stuff(lines[0]);
      assert printed[1..] == StuffAll(lines[1..]) + ["."] + more;
      JoinGrows(acc + "\n" + lines[0], lines[1..]);
      DataRoundTrip(lines[1..], acc + "\n" + lines[0], more);
    }
  }

  lemma {:induction false} LineRead(code: nat, last: bool, text: string, more: seq<string>)
    requires code < 1000
    ensures ReadFrame([Headed(code, if last then ' ' else '-', text)] + more) == Frame(code, last, text, more)
  {
    assert ([Headed(code, if last then ' ' else '-', text)] + more)[1..] == more;
  }

  lemma {:induction false} DataRead(code: nat, text: string, rest: seq<string>)
    requires code < 1000
    ensures ReadFrame([Headed(code, '+', text)] + rest) ==
      var data := ReadData(rest, text); if data.None? then Broken else Frame(code, false, data.value.0, data.value.1)
  {
    assert ([Headed(code, '+', text)] + rest)[1..] == rest;
  }

  lemma {:induction false} FrameRoundTrip(b: Block, more: seq<string>)
    requires Printable(b) && BlockFits(b)
    ensures ReadFrame(PrintBlock(b) + more) == Frame(b.code, IsLast(b), Body(b), more)
  {
    match b {
      case Line(code, last, text) => LineRead(code, last, text, more);
      case Data(code, text, lines) =>
        var rest := StuffAll(lines) + ["."] + more;
        assert PrintBlock(b) + more == [Headed(code, '+', text)] + rest;
        DataRead(code, text, rest);
        DataRoundTrip(lines, text, more);
    }
  }

  // ---- demultiplexing ------------------------------------------------------

  /** What one block does to the reader: it stops, or goes on from a new point. */
  function Advance(b: Block, reply: Reply, total: nat, out: Output, w: World): Option<(Reply, nat, Output)> {
    var size := total + |Body(b)|;
    var extended := Reply(b.code, reply.lines + [Body(b)]);
    if b.code == EVENT_CODE then
      if Room(w, |out.events|) then Some((reply, total, out.(events := out.events + [Body(b)]))) else None
    else if (reply.code != 0 && reply.code != b.code) || size > SIZE_LIMIT then None
    else if !IsLast(b) then Some((extended, size, out))
    else if w.accepts(|out.replies|) then Some((NO_REPLY, 0, out.(replies := out.replies + [extended])))
    else None
  }

  lemma LoopAdvances(b: Block, more: seq<string>, reply: Reply, total: nat, out: Output, w: World)
    requires Printable(b) && BlockFits(b)
    ensures Loop(PrintBlock(b) + more, reply, total, out, w) ==
      match Advance(b, reply, total, out, w)
      case None => out
      case Some(p) => Loop(more, p.0, p.1, p.2, w)
  {
    FrameRoundTrip(b, more);
  }

  /** The reply being collected after the blocks `done` of it. */
  function Pending(done: seq<Block>): Reply {
    if done == [] then NO_REPLY else Reply(done[0].code, Bodies(done))
  }

  lemma {:induction false} BodiesAppend(a: seq<Block>, b: Block)
    ensures Bodies(a + [b]) == Bodies(a) + [Body(b)]
    ensures Size(Bodies(a + [b])) == Size(Bodies(a)) + |Body(b)|
  {
    if a == [] {
    } else {
      BodiesAppend(a[1..], b);
      assert (a + [b])[1..] == a[1..] + [b];
    }
  }

  lemma {:induction false} SizeMonotone(a: seq<Block>, b: seq<Block>)
    ensures Size(Bodies(a)) <= Size(Bodies(a + b))
  {
    if a != [] {
      SizeMonotone(a[1..], b);
      assert (a + b)[1..] == a[1..] + b;
    }
  }

  /** In the middle of a reply the next synchronous block extends it. */
  lemma AdvanceInReply(done: seq<Block>, todo: seq<Block>, out: Output, w: World)
    requires todo != [] && IsReply(done + todo) && Generous(w)
    ensures IsLast(todo[0]) <==> |todo| == 1
    ensures Advance(todo[0], Pending(done), Size(Bodies(done)), out, w) ==
      if |todo| == 1 then Some((NO_REPLY, 0, out.(replies := out.replies + [Pending(done + todo)])))
      else Some((Pending(done + [todo[0]]), Size(Bodies(done + [todo[0]])), out))
  {
    var whole, b := done + todo, todo[0];
    assert whole[|done|] == b;
    assert done != [] ==> whole[0] == done[0];
    BodiesAppend(done, b);
    assert done + [b] + todo[1..] == whole;
    SizeMonotone(done + [b], todo[1..]);
    if |todo| == 1 {
      assert done + [b] == whole;
    }
  }

  lemma HeadSplit<T>(a: T, x: seq<T>, t: seq<T>, r: seq<T>)
    requires [a] + x == t + r && t != []
    ensures a == t[0] && x == t[1..] + r
  {
    assert ([a] + x)[0] == (t + r)[0];
    assert x == ([a] + x)[1..] == (t + r)[1..] == t[1..] + r;
  }

  /** What reading the rest of a transcript must deliver after `out`. */
  function Expected(sent: seq<Block>, done: seq<Block>, todo: seq<Block>, replies: seq<seq<Block>>, out: Output): Output
    requires forall r :: 0 <= r < |replies| ==> replies[r] != []
  {
    Output(out.events + Events(sent),
           out.replies + (if todo == [] then [] else [Pending(done + todo)]) + Assemble(replies))
  }

  /** The middle of a transcript: `done` of a reply has been read, `todo` of it is
      still to come, and `replies` follow. */
  ghost predicate Midway(sent: seq<Block>, done: seq<Block>, todo: seq<Block>, replies: seq<seq<Block>>) {
    && AllFit(sent) && AllReplies(replies)
    && (if todo == [] then done == [] else IsReply(done + todo))
    && Synchronous(sent) == todo + Flatten(replies)
  }

  lemma NextReply(sent: seq<Block>, replies: seq<seq<Block>>, out: Output)
    requires Midway(sent, [], [], replies) && replies != []
    ensures Midway(sent, [], replies[0], replies[1..])
    ensures Expected(sent, [], replies[0], replies[1..], out) == Expected(sent, [], [], replies, out)
  {
    assert [] + replies[0] == replies[0];
    assert [] + Flatten(replies) == replies[0] + Flatten(replies[1..]);
  }

  lemma {:induction false} MidwayEvent(sent: seq<Block>, done: seq<Block>, todo: seq<Block>, replies: seq<seq<Block>>)
    requires Midway(sent, done, todo, replies) && sent != [] && sent[0].code == EVENT_CODE
    ensures Midway(sent[1..], done, todo, replies)
  {}

  lemma {:induction false} PassEvent(
      sent: seq<Block>, done: seq<Block>, todo: seq<Block>, replies: seq<seq<Block>>, out: Output)
    requires Midway(sent, done, todo, replies) && sent != [] && sent[0].code == EVENT_CODE
    ensures Expected(sent[1..], done, todo, replies, out.(events := out.events + [Body(sent[0])]))
         == Expected(sent, done, todo, replies, out)
  {
    assert out.events + [Body(sent[0])] + Events(sent[1..]) == out.events + ([Body(sent[0])] + Events(sent[1..]));
  }

  lemma {:induction false} MidwayBlock(sent: seq<Block>, done: seq<Block>, todo: seq<Block>, replies: seq<seq<Block>>)
    requires Midway(sent, done, todo, replies) && sent != [] && sent[0].code != EVENT_CODE && todo != []
    ensures sent[0] == todo[0]
    ensures |todo| == 1 ==> Midway(sent[1..], [], [], replies)
    ensures |todo| > 1 ==> Midway(sent[1..], done + [todo[0]], todo[1..], replies)
    ensures done + [todo[0]] + todo[1..] == done + todo
  {
    HeadSplit(sent[0], Synchronous(sent[1..]), todo, Flatten(replies));
    assert done + [todo[0]] + todo[1..] == done + todo;
  }

  lemma {:induction false} PassBlock(
      sent: seq<Block>, done: seq<Block>, todo: seq<Block>, replies: seq<seq<Block>>, out: Output)
    requires Midway(sent, done, todo, replies) && sent != [] && sent[0].code != EVENT_CODE && todo != []
    ensures |todo| == 1 ==>
      Expected(sent[1..], [], [], replies, out.(replies := out.replies + [Pending(done + todo)]))
      == Expected(sent, done, todo, replies, out)
    ensures |todo| > 1 ==>
      Expected(sent[1..], done + [todo[0]], todo[1..], replies, out) == Expected(sent, done, todo, replies, out)
  {
    MidwayBlock(sent, done, todo, replies);
  }

  /** Reading on in the middle of a transcript. */
  lemma {:induction false} ReadOn(
      sent: seq<Block>, done: seq<Block>, todo: seq<Block>, replies: seq<seq<Block>>, out: Output, w: World)
    requires Midway(sent, done, todo, replies) && Generous(w)
    ensures Loop(Print(sent), Pending(done), Size(Bodies(done)), out, w) == Expected(sent, done, todo, replies, out)
    decreases |sent|, |replies|
  {
    if todo == [] && replies != [] {
      NextReply(sent, replies, out);
      ReadOn(sent, [], replies[0], replies[1..], out, w);
    } else if sent != [] {
      var b, rest := sent[0], sent[1..];
      LoopAdvances(b, Print(rest), Pending(done), Size(Bodies(done)), out, w);
      if b.code == EVENT_CODE {
        MidwayEvent(sent, done, todo, replies);
        PassEvent(sent, done, todo, replies, out);
        ReadOn(rest, done, todo, replies, out.(events := out.events + [Body(b)]), w);
      } else {
        assert todo != [];
        MidwayBlock(sent, done, todo, replies);
        PassBlock(sent, done, todo, replies, out);
        AdvanceInReply(done, todo, out, w);
        if |todo| == 1 {
          ReadOn(rest, [], [], replies, out.(replies := out.replies + [Pending(done + todo)]), w);
        } else {
          ReadOn(rest, done + [b], todo[1..], replies, out, w);
        }
      }
    }
  }

  /** Round trip: printing any replies, with 650 lines or data blocks anywhere
      between their lines, and reading them gives back exactly the replies in
      order and the event bodies in order. */
  lemma RoundTrip(sent: seq<Block>, replies: seq<seq<Block>>, w: World)
    requires Transcript(sent, replies) && Generous(w)
    ensures Read(Print(sent), w) == Output(Events(sent), Assemble(replies))
  {
    ReadOn(sent, [], [], replies, Output([], []), w);
  }

  // ---- anything else -------------------------------------------------------

  predicate Prefixes(a: Output, b: Output) {
    a.events <= b.events && a.replies <= b.replies
  }

  lemma {:induction false} NothingTakenBack(lines: seq<string>, reply: Reply, total: nat, out: Output, w: World)
    ensures Prefixes(out, Loop(lines, reply, total, out, w))
    decreases |lines|
  {
    match ReadFrame(lines) {
      case Broken =>
      case Frame(code, last, body, rest) =>
        var more := out.(events := out.events + [body]);
        var extended := Reply(code, reply.lines + [body]);
        var done := out.(replies := out.replies + [extended]);
        if code == EVENT_CODE {
          NothingTakenBack(rest, reply, total, more, w);
        } else if !last {
          NothingTakenBack(rest, extended, total + |body|, out, w);
        } else {
          NothingTakenBack(rest, NO_REPLY, 0, done, w);
        }
    }
  }

  lemma {:induction false} DataExtends(lines: seq<string>, acc: string, more: seq<string>)
    requires ReadData(lines, acc).Some?
    ensures ReadData(lines + more, acc) == Some((ReadData(lines, acc).value.0, ReadData(lines, acc).value.1 + more))
  {
    assert (lines + more)[1..] == lines[1..] + more;
    if lines[0] != "." {
      DataExtends(lines[1..], acc + "\n" + Unstuff(lines[0]), more);
    }
  }

  lemma FrameExtends(lines: seq<string>, more: seq<string>)
    requires ReadFrame(lines).Frame?
    ensures ReadFrame(lines + more) == ReadFrame(lines).(rest := ReadFrame(lines).rest + more)
  {
    assert (lines + more)[1..] == lines[1..] + more;
    if lines[0][3] == '+' {
      DataExtends(lines[1..], lines[0][4..], more);
    }
  }

  /** However the reader is stopped early, by the end of the lines, by a line it
      rejects, by an event buffer overflow or by a reply nobody takes, what it
      delivered is a prefix of what it would have delivered otherwise. */
  lemma {:induction false} PrefixOnly(
      lines: seq<string>, more: seq<string>, reply: Reply, total: nat, out: Output, w: World, g: World)
    requires Generous(g)
    ensures Prefixes(Loop(lines, reply, total, out, w), Loop(lines + more, reply, total, out, g))
    decreases |lines|
  {
    match ReadFrame(lines) {
      case Broken => NothingTakenBack(lines + more, reply, total, out, g);
      case Frame(code, last, body, rest) =>
        FrameExtends(lines, more);
        var extended := Reply(code, reply.lines + [body]);
        if code == EVENT_CODE {
          if Room(w, |out.events|) {
            PrefixOnly(rest, more, reply, total, out.(events := out.events + [body]), w, g);
          } else {
            NothingTakenBack(lines + more, reply, total, out, g);
          }
        } else if (reply.code != 0 && reply.code != code) || total + |body| > SIZE_LIMIT {
        } else if !last {
          PrefixOnly(rest, more, extended, total + |body|, out, w, g);
        } else if !w.accepts(|out.replies|) {
          NothingTakenBack(lines + more, reply, total, out, g);
        } else {
          PrefixOnly(rest, more, NO_REPLY, 0, out.(replies := out.replies + [extended]), w, g);
        }
    }
  }

  /** What was sent, cut into replies at its last lines, events set aside; `acc`
      are the bodies since the last cut.  The blocks need not have one code, fit
      any bound, or end with a last line. */
  function Cut(sent: seq<Block>, acc: seq<string>): seq<Reply>
    decreases sent
  {
    if sent == [] then []
    else if sent[0].code == EVENT_CODE then Cut(sent[1..], acc)
    else if IsLast(sent[0]) then [Reply(sent[0].code, acc + [Body(sent[0])])] + Cut(sent[1..], [])
    else Cut(sent[1..], acc + [Body(sent[0])])
  }

  lemma {:induction false} DataReadBack(lines: seq<string>, acc: string, more: seq<string>)
    ensures var r := ReadData(StuffAll(lines) + ["."] + more, acc); r.None? || r == Some((Join(acc, lines), more))
    decreases lines
  {
    var printed := StuffAll(lines) + ["."] + more;
    if lines == [] {
      assert printed[1..] == more;
    } else {
      StuffingUndone(lines[0]);
      assert printed[0] == Stuff(lines[0]);
      assert printed[1..] == StuffAll(lines[1..]) + ["."] + more;
      DataReadBack(lines[1..], acc + "\n" + lines[0], more);
    }
  }

  /** A printed block of any size is read back as itself or not at all. */
  lemma {:induction false} BlockReadBack(b: Block, more: seq<string>)
    requires Printable(b)
    ensures var f := ReadFrame(PrintBlock(b) + more); f.Broken? || f == Frame(b.code, IsLast(b), Body(b), more)
  {
    match b {
      case Line(code, last, text) => LineRead(code, last, text, more);
      case Data(code, text, lines) =>
        var rest := StuffAll(lines) + ["."] + more;
        assert PrintBlock(b) + more == [Headed(code, '+', text)] + rest;
        DataRead(code, text, rest);
        DataReadBack(lines, text, more);
    }
  }

  lemma {:induction false} DataTooLarge(lines: seq<string>, acc: string, more: seq<string>)
    requires lines != [] && |Join(acc, lines)| > 4 * 1024 * 1024 + 1
    ensures ReadData(StuffAll(lines) + ["."] + more, acc) == None
    decreases lines
  {
    var printed := StuffAll(lines) + ["."] + more;
    StuffingUndone(lines[0]);
    assert printed[0] == Stuff(lines[0]);
    assert printed[1..] == StuffAll(lines[1..]) + ["."] + more;
    if lines[1..] != [] {
      DataTooLarge(lines[1..], acc + "\n" + lines[0], more);
    }
  }

  /** A data block that grows beyond 4 MiB before its last line break ends the reading,
      and every other block is read. */
  lemma {:induction false} BlockReadIff(b: Block, more: seq<string>)
    requires Printable(b)
    ensures ReadFrame(PrintBlock(b) + more) ==
      if b.Data? && b.lines != [] && |Body(b)| > 4 * 1024 * 1024 + 1 then Broken
      else Frame(b.code, IsLast(b), Body(b), more)
  {
    if BlockFits(b) {
      FrameRoundTrip(b, more);
    } else {
      var rest := StuffAll(b.lines) + ["."] + more;
      assert PrintBlock(b) + more == [Headed(b.code, '+', b.text)] + rest;
      DataRead(b.code, b.text, rest);
      DataTooLarge(b.lines, b.text, more);
    }
  }

  /** Where a printed block stops the reader: an event for which the buffer of 256 has
      no room; a line of another code than the reply it would belong to; a reply of
      more than 4 MiB; or a reply that is not taken any more. */
  lemma {:induction false} BlockStopsIff(b: Block, reply: Reply, total: nat, out: Output, w: World)
    ensures Advance(b, reply, total, out, w) == None <==>
      if b.code == 650 then |out.events| >= w.taken(|out.events|) + 256
      else (reply.code != 0 && reply.code != b.code) || total + |Body(b)| > 4 * 1024 * 1024
           || (IsLast(b) && !w.accepts(|out.replies|))
  {}

  /** What it does otherwise: an event is delivered; a line of a reply is collected; and
      a last one delivers the reply. */
  lemma {:induction false} BlockGoesOn(b: Block, reply: Reply, total: nat, out: Output, w: World)
    requires Advance(b, reply, total, out, w).Some?
    ensures var (next, size, o), extended := Advance(b, reply, total, out, w).value, reply.lines + [Body(b)];
      if b.code == 650 then next == reply && size == total && o == Output(out.events + [Body(b)], out.replies)
      else if b.Line? && b.last then
        next == Reply(0, []) && size == 0 && o == Output(out.events, out.replies + [Reply(b.code, extended)])
      else next == Reply(b.code, extended) && size == total + |Body(b)| && o == out
  {}

  ghost predicate AllPrintable(sent: seq<Block>) {
    forall i :: 0 <= i < |sent| ==> Printable(sent[i])
  }

  lemma {:induction false} LoopReads(b: Block, more: seq<string>, reply: Reply, total: nat, out: Output, w: World)
    requires Printable(b)
    ensures var r, next := Loop(PrintBlock(b) + more, reply, total, out, w), Advance(b, reply, total, out, w);
      r == out || (next.Some? && r == Loop(more, next.value.0, next.value.1, next.value.2, w))
  {
    BlockReadBack(b, more);
  }

  /** A block that is taken up moves the deliveries and the cut in step. */
  lemma {:induction false} CutAdvances(sent: seq<Block>, reply: Reply, total: nat, out: Output, w: World)
    requires sent != [] && Advance(sent[0], reply, total, out, w).Some?
    ensures var (next, _, more) := Advance(sent[0], reply, total, out, w).value;
      && more.events + Events(sent[1..]) == out.events + Events(sent)
      && more.replies + Cut(sent[1..], next.lines) == out.replies + Cut(sent, reply.lines)
  {}

  lemma {:induction false} OnlyWhatWasSent(sent: seq<Block>, reply: Reply, total: nat, out: Output, w: World)
    requires AllPrintable(sent)
    ensures Prefixes(Loop(Print(sent), reply, total, out, w),
                     Output(out.events + Events(sent), out.replies + Cut(sent, reply.lines)))
    decreases |sent|
  {
    if sent != [] {
      LoopReads(sent[0], Print(sent[1..]), reply, total, out, w);
      var next := Advance(sent[0], reply, total, out, w);
      if next.Some? {
        CutAdvances(sent, reply, total, out, w);
        OnlyWhatWasSent(sent[1..], next.value.0, next.value.1, next.value.2, w);
      }
    }
  }

  /** Whatever was sent, and however many whole lines of it arrived, whatever the
      other goroutines did, and wherever the reader stopped, by a reply of mixed
      codes or too large, a block too large, an event too many or the end of the
      stream: the events that came out are the first ones sent, and the replies that
      came out are the first ones sent, whole and in order.  WireLaws says what a
      line that was cut off adds to this. */
  lemma {:induction false} DamagedTranscript(sent: seq<Block>, n: nat, w: World)
    requires AllPrintable(sent) && n <= |Print(sent)|
    ensures Prefixes(Read(Print(sent)[..n], w), Output(Events(sent), Cut(sent, [])))
  {
    FirstLines(Print(sent), n, w);
    AllSent(sent, OPEN);
  }

  lemma {:induction false} AllSent(sent: seq<Block>, w: World)
    requires AllPrintable(sent)
    ensures Prefixes(Read(Print(sent), w), Output(Events(sent), Cut(sent, [])))
  {
    OnlyWhatWasSent(sent, NO_REPLY, 0, Output([], []), w);
    assert [] + Events(sent) == Events(sent) && [] + Cut(sent, []) == Cut(sent, []);
  }

  /** A world that takes every event at once and accepts every reply. */
  const OPEN := World(k => k, _ => true)

  lemma {:induction false} FirstLines(lines: seq<string>, n: nat, w: World)
    requires n <= |lines|
    ensures Prefixes(Read(lines[..n], w), Read(lines, OPEN))
  {
    assert lines[..n] + lines[n..] == lines;
    PrefixOnly(lines[..n], lines[n..], NO_REPLY, 0, Output([], []), w, OPEN);
  }

  /** The next block of a reply ends it or not, as its place says. */
  lemma {:induction false} CutBlock(sent: seq<Block>, done: seq<Block>, todo: seq<Block>)
    requires sent != [] && todo != [] && sent[0] == todo[0] && IsReply(done + todo)
    ensures sent[0].code != EVENT_CODE
    ensures |todo| == 1 ==> Cut(sent, Bodies(done)) == [Pending(done + todo)] + Cut(sent[1..], [])
    ensures |todo| > 1 ==> Cut(sent, Bodies(done)) == Cut(sent[1..], Bodies(done + [todo[0]]))
  {
    var whole, b := done + todo, todo[0];
    assert whole[|done|] == b;
    assert done != [] ==> whole[0] == done[0];
    BodiesAppend(done, b);
    if |todo| == 1 {
      assert whole == done + [b];
    }
  }

  /** The replies still to be completed in the middle of a transcript. */
  function Remaining(done: seq<Block>, todo: seq<Block>, replies: seq<seq<Block>>): seq<Reply>
    requires forall r :: 0 <= r < |replies| ==> replies[r] != []
  {
    (if todo == [] then [] else [Pending(done + todo)]) + Assemble(replies)
  }

  lemma {:induction false} RemainingMoves(done: seq<Block>, todo: seq<Block>, replies: seq<seq<Block>>)
    requires AllReplies(replies) && |todo| > 1
    ensures Remaining(done + [todo[0]], todo[1..], replies) == Remaining(done, todo, replies)
  {
    assert done + [todo[0]] + todo[1..] == done + todo;
  }

  lemma {:induction false} RemainingStarts(replies: seq<seq<Block>>)
    requires AllReplies(replies) && replies != []
    ensures Remaining([], replies[0], replies[1..]) == Remaining([], [], replies)
  {
    assert [] + replies[0] == replies[0];
  }

  lemma {:induction false} CutOn(sent: seq<Block>, done: seq<Block>, todo: seq<Block>, replies: seq<seq<Block>>)
    requires Midway(sent, done, todo, replies)
    ensures Cut(sent, Bodies(done)) == Remaining(done, todo, replies)
    decreases |sent|, |replies|
  {
    if todo == [] && replies != [] {
      NextReply(sent, replies, Output([], []));
      RemainingStarts(replies);
      CutOn(sent, [], replies[0], replies[1..]);
    } else if sent != [] && sent[0].code == EVENT_CODE {
      MidwayEvent(sent, done, todo, replies);
      CutOn(sent[1..], done, todo, replies);
    } else if sent != [] {
      assert todo != [];
      MidwayBlock(sent, done, todo, replies);
      CutBlock(sent, done, todo);
      if |todo| == 1 {
        CutOn(sent[1..], [], [], replies);
      } else {
        RemainingMoves(done, todo, replies);
        CutOn(sent[1..], done + [todo[0]], todo[1..], replies);
      }
    }
  }

  /** For well-formed replies the cut is the replies themselves. */
  lemma {:induction false} CutOfTranscript(sent: seq<Block>, replies: seq<seq<Block>>)
    requires Transcript(sent, replies)
    ensures Cut(sent, []) == Assemble(replies)
  {
    CutOn(sent, [], [], replies);
  }

  /** After a line or block that cannot be read, nothing more is delivered. */
  lemma {:induction false} StopsAtBrokenFrame(
      sent: seq<Block>, junk: seq<string>, reply: Reply, total: nat, out: Output, w: World)
    requires AllFit(sent) && ReadFrame(junk) == Broken
    ensures Loop(Print(sent) + junk, reply, total, out, w) == Loop(Print(sent), reply, total, out, w)
    decreases |sent|
  {
    if sent == [] {
      assert Print(sent) + junk == junk;
    } else {
      var b, printed := sent[0], Print(sent[1..]);
      assert Print(sent) + junk == PrintBlock(b) + (printed + junk);
      LoopAdvances(b, printed + junk, reply, total, out, w);
      LoopAdvances(b, printed, reply, total, out, w);
      var next := Advance(b, reply, total, out, w);
      if next.Some? {
        var (reply', total', out') := next.value;
        StopsAtBrokenFrame(sent[1..], junk, reply', total', out', w);
      }
    }
  }

  /** No event is delivered that found the buffer full, and no reply that found
      the connection closed. */
  lemma {:induction false} NoOverflow(lines: seq<string>, reply: Reply, total: nat, out: Output, w: World)
    requires forall k :: 0 <= k < |out.events| ==> Room(w, k)
    requires forall k :: 0 <= k < |out.replies| ==> w.accepts(k)
    ensures var o := Loop(lines, reply, total, out, w);
      (forall k :: 0 <= k < |o.events| ==> Room(w, k)) && (forall k :: 0 <= k < |o.replies| ==> w.accepts(k))
    decreases |lines|
  {
    match ReadFrame(lines) {
      case Broken =>
      case Frame(code, last, body, rest) =>
        var extended := Reply(code, reply.lines + [body]);
        if code == EVENT_CODE {
          if Room(w, |out.events|) {
            NoOverflow(rest, reply, total, out.(events := out.events + [body]), w);
          }
        } else if !last {
          NoOverflow(rest, extended, total + |body|, out, w);
        } else if w.accepts(|out.replies|) {
          NoOverflow(rest, NO_REPLY, 0, out.(replies := out.replies + [extended]), w);
        }
    }
  }

  // ---- dots ----------------------------------------------------------------

  /** Section 4.5.2 of RFC 5321: a leading dot goes when anything follows it. */
  function RfcUnstuff(v: string): string {
    if |v| >= 2 && v[0] == '.' then v[1..] else v
  }

  /** The code agrees with that rule exactly on the lines that do not start with
      a single dot, which a conforming sender never emits. */
  lemma DotRule(v: string)
    ensures Unstuff(v) == RfcUnstuff(v) <==> !(|v| >= 2 && v[0] == '.' && v[1] != '.')
    ensures Unstuff(Stuff(v)) == RfcUnstuff(Stuff(v))
    ensures if |v| >= 2 && v[..2] == ".." then v == "." + Unstuff(v) else Unstuff(v) == v
  {
    assert |v| >= 2 ==> (v[..2] == ".." <==> v[0] == '.' && v[1] == '.');
    if |v| >= 2 && v[0] == '.' && v[1] != '.' {
      assert |v[1..]| == |v| - 1;
    }
  }
}
