/** What the reader of the control connection delivers when the stream ends
    anywhere, in the middle of a line included. */
module WireLaws {
  import opened Base
  import opened Control
  import opened ControlLaws
  import opened Wire

  /** What was sent, as deliveries. */
  function Truth(sent: seq<Block>): Output { Output(Events(sent), Cut(sent, [])) }

  /** What comes out of the first `n` characters of it. */
  function Heard(sent: seq<Block>, n: nat, w: World): Output
    requires AllPrintable(sent) && n <= |Sent(Print(sent))|
  {
    Read(Split(Sent(Print(sent))[..n]), w)
  }

  /** Bodies without line feeds. */
  predicate BlockOneLine(b: Block) {
    OneLine(b.text) && (b.Data? ==> forall i :: 0 <= i < |b.lines| ==> OneLine(b.lines[i]))
  }

  /** Blocks that can be sent as lines. */
  ghost predicate Sendable(sent: seq<Block>) {
    AllPrintable(sent) && forall i :: 0 <= i < |sent| ==> BlockOneLine(sent[i])
  }

  lemma {:induction false} StuffOneLine(lines: seq<string>)
    requires AllOneLine(lines)
    ensures AllOneLine(StuffAll(lines))
  {
    if lines != [] {
      StuffOneLine(lines[1..]);
    }
  }

  lemma {:induction false} PrintOneLine(sent: seq<Block>)
    requires Sendable(sent)
    ensures AllOneLine(Print(sent))
  {
    if sent != [] {
      var b := sent[0];
      if b.Data? {
        StuffOneLine(b.lines);
      }
      assert AllOneLine(PrintBlock(b));
      PrintOneLine(sent[1..]);
    }
  }

  /** The lines that the reader is handed. */
  lemma {:induction false} HeardLines(sent: seq<Block>, n: nat, w: World)
    requires Sendable(sent) && n <= |Sent(Print(sent))|
    ensures var lines := Print(sent);
      var m, piece := Whole(lines, n), Piece(lines, n);
      && Heard(sent, n, w) == Read(lines[..m] + piece, w)
      && (piece != [] ==> m < |lines| && piece[0] <= lines[m] && lines[..m] + piece == lines[..m] + [piece[0]])
      && (piece == [] ==> lines[..m] + piece == lines[..m])
  {
    PrintOneLine(sent);
    SplitCut(Print(sent), n);
  }

  // ---- at a line end -------------------------------------------------------

  lemma {:induction false} NothingOver(sent: seq<Block>, n: nat)
    requires Sendable(sent) && n <= |Sent(Print(sent))|
    requires n == 0 || Sent(Print(sent))[n - 1] == '\n'
    ensures Piece(Print(sent), n) == []
  {
    PrintOneLine(sent);
    LineEndIff(Print(sent), n);
  }

  /** A stream that ends at a line end delivers the first events and the first
      replies that were sent, in every world. */
  lemma {:induction false} CutAtLineEnd(sent: seq<Block>, n: nat, w: World)
    requires Sendable(sent) && n <= |Sent(Print(sent))|
    requires n == 0 || Sent(Print(sent))[n - 1] == '\n'
    ensures Prefixes(Heard(sent, n, w), Truth(sent))
  {
    NothingOver(sent, n);
    HeardLines(sent, n, w);
    DamagedTranscript(sent, Whole(Print(sent), n), w);
  }

  // ---- one more line -------------------------------------------------------

  /** `r` is `o`, or `o` with one more event or one more reply. */
  predicate AtMostOneMore(o: Output, r: Output) {
    || r == o
    || (r.replies == o.replies && |r.events| == |o.events| + 1 && o.events <= r.events)
    || (r.events == o.events && |r.replies| == |o.replies| + 1 && o.replies <= r.replies)
  }

  lemma {:induction false} DataThenLine(lines: seq<string>, acc: string, x: string)
    requires ReadData(lines, acc).None?
    ensures var r := ReadData(lines + [x], acc); r.None? || r.value.1 == []
    decreases lines
  {
    if lines == [] {
      assert (lines + [x])[1..] == [];
    } else {
      assert (lines + [x])[1..] == lines[1..] + [x];
      var v := Unstuff(lines[0]);
      if lines[0] != "." && |acc| + |v| <= SIZE_LIMIT {
        DataThenLine(lines[1..], acc + "\n" + v, x);
      }
    }
  }

  lemma {:induction false} BrokenThenLine(lines: seq<string>, x: string)
    requires ReadFrame(lines).Broken?
    ensures var f := ReadFrame(lines + [x]); f.Broken? || f.rest == []
  {
    if lines == [] {
      assert lines + [x] == [x] && [x][1..] == [];
    } else {
      assert (lines + [x])[1..] == lines[1..] + [x];
      if |lines[0]| >= 4 && ParseCode(lines[0][..3]).Some? && lines[0][3] == '+' {
        DataThenLine(lines[1..], lines[0][4..], x);
      }
    }
  }

  /** One more line delivers at most one more item. */
  lemma {:induction false} OneMoreLine(lines: seq<string>, x: string, reply: Reply, total: nat, out: Output, w: World)
    ensures AtMostOneMore(Loop(lines, reply, total, out, w), Loop(lines + [x], reply, total, out, w))
    decreases |lines|
  {
    match ReadFrame(lines) {
      case Broken => BrokenThenLine(lines, x);
      case Frame(code, last, body, rest) =>
        FrameExtends(lines, [x]);
        var extended := Reply(code, reply.lines + [body]);
        if code == EVENT_CODE {
          if Room(w, |out.events|) {
            OneMoreLine(rest, x, reply, total, out.(events := out.events + [body]), w);
          }
        } else if (reply.code != 0 && reply.code != code) || total + |body| > SIZE_LIMIT {
        } else if !last {
          OneMoreLine(rest, x, extended, total + |body|, out, w);
        } else if w.accepts(|out.replies|) {
          OneMoreLine(rest, x, NO_REPLY, 0, out.(replies := out.replies + [extended]), w);
        }
    }
  }

  /** A stream that ends anywhere delivers that and at most one item more, which
      may be damaged. */
  lemma {:induction false} CutAnywhere(sent: seq<Block>, n: nat, w: World) returns (o: Output)
    requires Sendable(sent) && n <= |Sent(Print(sent))|
    ensures Prefixes(o, Truth(sent)) && AtMostOneMore(o, Heard(sent, n, w))
  {
    HeardLines(sent, n, w);
    var m, piece := Whole(Print(sent), n), Piece(Print(sent), n);
    o := Read(Print(sent)[..m], w);
    DamagedTranscript(sent, m, w);
    if piece != [] {
      OneMoreLine(Print(sent)[..m], piece[0], NO_REPLY, 0, Output([], []), w);
    }
  }

  // ---- when the last line does harm ----------------------------------------

  /** The beginning `p` of line `o` of a printed block is taken for the end of an
      event, of a reply, or of a data block of an event. */
  predicate Damages(b: Block, o: nat, p: string) {
    if o == 0 then |p| >= 4 && b.Line? && (b.code == 650 || b.last)
    else p == "." && b.code == 650
  }

  /** The same for line `m` of a whole transcript. */
  predicate Harms(sent: seq<Block>, m: nat, p: string)
    requires forall i :: 0 <= i < |sent| ==> Printable(sent[i])
  {
    sent != [] &&
    var k := |PrintBlock(sent[0])|;
    if m < k then Damages(sent[0], m, p) else Harms(sent[1..], m - k, p)
  }

  /** The stream ends inside a line, all lines before it and what there is of it
      are short enough for the scanner, and that does harm. */
  predicate Damaging(sent: seq<Block>, n: nat)
    requires forall i :: 0 <= i < |sent| ==> Printable(sent[i])
  {
    var lines := Print(sent);
    var m, piece := Whole(lines, n), Piece(lines, n);
    piece != [] && m < |lines| && piece[0] != lines[m] && Harms(sent, m, piece[0])
  }

  /** `p` is the beginning of `line`, but not all of it. */
  predicate PartOf(p: string, line: string) { p <= line && p != line }

  lemma {:induction false} PartialLine(code: nat, separator: char, text: string, p: string)
    requires code < 1000 && PartOf(p, Headed(code, separator, text))
    ensures |p| >= 4 ==> p[..3] == Headed(code, separator, text)[..3] && p[3] == separator
    ensures |p| >= 4 ==> p[4..] <= text && |p[4..]| < |text|
  {
    var line := Headed(code, separator, text);
    if |p| >= 4 {
      assert p[..3] == line[..3];
      assert p[4..] == line[4..][..|p| - 4];
    }
  }

  lemma {:induction false} NoEnd(lines: seq<string>, acc: string, p: string)
    requires p != "."
    ensures ReadData(StuffAll(lines) + [p], acc).None?
    decreases lines
  {
    var printed := StuffAll(lines) + [p];
    if lines == [] {
      assert printed[1..] == [];
    } else {
      StuffingUndone(lines[0]);
      assert printed[1..] == StuffAll(lines[1..]) + [p];
      NoEnd(lines[1..], acc + "\n" + lines[0], p);
    }
  }

  lemma {:induction false} JoinSplit(acc: string, a: seq<string>, b: seq<string>)
    ensures Join(acc, a + b) == Join(Join(acc, a), b)
    decreases a
  {
    if a == [] {
      assert a + b == b;
    } else {
      assert (a + b)[1..] == a[1..] + b;
      JoinSplit(acc + "\n" + a[0], a[1..], b);
    }
  }

  lemma {:induction false} StuffTake(lines: seq<string>, k: nat)
    requires k <= |lines|
    ensures StuffAll(lines)[..k] == StuffAll(lines[..k])
    ensures k < |lines| ==> StuffAll(lines)[k] == Stuff(lines[k])
  {
    if k > 0 {
      StuffTake(lines[1..], k - 1);
      assert lines[..k] == [lines[0]] + lines[1..][..k - 1];
    }
  }

  /** What the reader makes of a data block that was cut off. */
  lemma {:induction false} PartialData(text: string, lines: seq<string>, k: nat, p: string)
    requires k <= |lines| && PartOf(p, (StuffAll(lines) + ["."])[k])
    ensures var r := ReadData(StuffAll(lines)[..k] + [p], text);
      && (r.Some? ==> p == "." && r.value.1 == [] && |r.value.0| < |Join(text, lines)|)
      && (p == "." && (lines != [] ==> |Join(text, lines)| <= SIZE_LIMIT + 1) ==> r.Some?)
  {
    StuffTake(lines, k);
    if p != "." {
      NoEnd(lines[..k], text, p);
    } else {
      assert k < |lines|;
      assert lines[..k] + lines[k..] == lines;
      JoinSplit(text, lines[..k], lines[k..]);
      JoinGrows(Join(text, lines[..k]), lines[k..]);
      DataReadBack(lines[..k], text, []);
      assert StuffAll(lines[..k]) + ["."] + [] == StuffAll(lines[..k]) + ["."];
      if |Join(text, lines)| <= SIZE_LIMIT + 1 {
        DataRoundTrip(lines[..k], text, []);
      }
    }
  }

  /** The frame that the reader makes of a block that was cut off in line `o`. */
  function Partial(b: Block, o: nat, p: string): Frame
    requires Printable(b) && o < |PrintBlock(b)|
  {
    ReadFrame(PrintBlock(b)[..o] + [p])
  }

  lemma {:induction false} PartialFrame(b: Block, o: nat, p: string)
    requires Printable(b) && o < |PrintBlock(b)| && PartOf(p, PrintBlock(b)[o])
    ensures var f := Partial(b, o, p);
      && (f.Frame? ==> f == Frame(b.code, IsLast(b), f.body, []) && |f.body| < |Body(b)|)
      && (f.Frame? ==> if o == 0 then b.Line? && |p| >= 4 else p == ".")
      && (BlockFits(b) && (if o == 0 then b.Line? && |p| >= 4 else p == ".") ==> f.Frame?)
  {
    if o == 0 {
      assert PrintBlock(b)[..0] + [p] == [p] && [p][1..] == [];
      match b {
        case Line(code, last, text) => PartialLine(code, if last then ' ' else '-', text, p);
        case Data(code, text, lines) => PartialLine(code, '+', text, p);
      }
    } else {
      var rest := StuffAll(b.lines)[..o - 1] + [p];
      assert PrintBlock(b)[o] == (StuffAll(b.lines) + ["."])[o - 1];
      assert PrintBlock(b)[..o] + [p] == [Headed(b.code, '+', b.text)] + rest;
      DataRead(b.code, b.text, rest);
      PartialData(b.text, b.lines, o - 1, p);
    }
  }

  /** A block that was cut off delivers nothing unless it does harm. */
  lemma {:induction false} NoDamage(b: Block, o: nat, p: string, reply: Reply, total: nat, out: Output, w: World)
    requires Printable(b) && o < |PrintBlock(b)| && PartOf(p, PrintBlock(b)[o]) && !Damages(b, o, p)
    ensures Loop(PrintBlock(b)[..o] + [p], reply, total, out, w) == out
  {
    PartialFrame(b, o, p);
  }

  lemma {:induction false} TakeBlocks(sent: seq<Block>, m: nat)
    requires AllPrintable(sent) && sent != [] && m <= |Print(sent)|
    ensures var b, k := sent[0], |PrintBlock(sent[0])|;
      if m < k then Print(sent)[..m] == PrintBlock(b)[..m] && Print(sent)[m] == PrintBlock(b)[m]
      else Print(sent)[..m] == PrintBlock(b) + Print(sent[1..])[..m - k]
           && (m < |Print(sent)| ==> Print(sent)[m] == Print(sent[1..])[m - k])
  {}

  lemma {:induction false} Regrouped(a: seq<string>, b: seq<string>, c: seq<string>)
    ensures a + b + c == a + (b + c)
  {}

  lemma {:induction false} FrontTaken(sent: seq<Block>, m: nat, more: seq<string>)
    requires AllPrintable(sent) && sent != [] && |PrintBlock(sent[0])| <= m < |Print(sent)|
    ensures Print(sent)[..m] + more == PrintBlock(sent[0]) + (Print(sent[1..])[..m - |PrintBlock(sent[0])|] + more)
  {
    TakeBlocks(sent, m);
    Regrouped(PrintBlock(sent[0]), Print(sent[1..])[..m - |PrintBlock(sent[0])|], more);
  }

  lemma {:induction false} FrontKept(
      sent: seq<Block>, m: nat, p: string, reply: Reply, total: nat, out: Output, w: World)
    requires AllPrintable(sent) && sent != [] && |PrintBlock(sent[0])| <= m < |Print(sent)|
    ensures var r, next := Loop(Print(sent)[..m] + [p], reply, total, out, w), Advance(sent[0], reply, total, out, w);
      var more := Print(sent[1..])[..m - |PrintBlock(sent[0])|] + [p];
      r == out || (next.Some? && r == Loop(more, next.value.0, next.value.1, next.value.2, w))
  {
    FrontTaken(sent, m, [p]);
    LoopReads(sent[0], Print(sent[1..])[..m - |PrintBlock(sent[0])|] + [p], reply, total, out, w);
  }

  lemma {:induction false} Harmless(
      sent: seq<Block>, m: nat, p: string, reply: Reply, total: nat, out: Output, w: World)
    requires AllPrintable(sent) && m < |Print(sent)| && PartOf(p, Print(sent)[m]) && !Harms(sent, m, p)
    ensures Prefixes(Loop(Print(sent)[..m] + [p], reply, total, out, w),
                     Output(out.events + Events(sent), out.replies + Cut(sent, reply.lines)))
    decreases |sent|
  {
    var b, k := sent[0], |PrintBlock(sent[0])|;
    TakeBlocks(sent, m);
    if m < k {
      NoDamage(b, m, p, reply, total, out, w);
    } else {
      FrontKept(sent, m, p, reply, total, out, w);
      var next := Advance(b, reply, total, out, w);
      if next.Some? {
        CutAdvances(sent, reply, total, out, w);
        Harmless(sent[1..], m - k, p, next.value.0, next.value.1, next.value.2, w);
      }
    }
  }

  lemma {:induction false} HarmlessRead(sent: seq<Block>, m: nat, p: string, w: World)
    requires AllPrintable(sent) && m < |Print(sent)| && PartOf(p, Print(sent)[m]) && !Harms(sent, m, p)
    ensures Prefixes(Read(Print(sent)[..m] + [p], w), Truth(sent))
  {
    Harmless(sent, m, p, NO_REPLY, 0, Output([], []), w);
    assert [] + Events(sent) == Events(sent) && [] + Cut(sent, []) == Cut(sent, []);
  }

  lemma {:induction false} OneMore(lines: seq<string>, m: nat)
    requires m < |lines|
    ensures lines[..m] + [lines[m]] == lines[..m + 1]
  {}

  lemma {:induction false} WholeRead(sent: seq<Block>, m: nat, w: World)
    requires AllPrintable(sent) && m < |Print(sent)|
    ensures Prefixes(Read(Print(sent)[..m] + [Print(sent)[m]], w), Truth(sent))
  {
    OneMore(Print(sent), m);
    DamagedTranscript(sent, m + 1, w);
  }

  /** A harmful beginning delivers an item that was never sent. */
  lemma {:induction false} Damaged(
      sent: seq<Block>, o: nat, p: string, done: seq<Block>, todo: seq<Block>, replies: seq<seq<Block>>,
      out: Output, w: World)
    requires Midway(sent, done, todo, replies) && Generous(w) && sent != [] && (todo == [] ==> replies == [])
    requires o < |PrintBlock(sent[0])| && PartOf(p, PrintBlock(sent[0])[o]) && Damages(sent[0], o, p)
    ensures !Prefixes(Loop(PrintBlock(sent[0])[..o] + [p], Pending(done), Size(Bodies(done)), out, w),
                      Expected(sent, done, todo, replies, out))
  {
    var b := sent[0];
    PartialFrame(b, o, p);
    var f, e := Partial(b, o, p), Expected(sent, done, todo, replies, out);
    if b.code == EVENT_CODE {
      assert e.events[|out.events|] == Body(b);
    } else {
      assert todo != [];
      MidwayBlock(sent, done, todo, replies);
      AdvanceInReply(done, todo, out, w);
      BodiesAppend(done, b);
      assert done + todo == done + [b];
      assert e.replies[|out.replies|] == Pending(done + [b]);
      assert Pending(done + [b]).lines == Bodies(done) + [Body(b)];
      assert (Bodies(done) + [f.body])[|Bodies(done)|] != (Bodies(done) + [Body(b)])[|Bodies(done)|];
    }
  }

  /** Cut off in line `m`, the rest of a transcript delivers something that was
      never sent. */
  ghost predicate Spoilt(
      sent: seq<Block>, m: nat, p: string, done: seq<Block>, todo: seq<Block>, replies: seq<seq<Block>>,
      out: Output, w: World)
    requires AllPrintable(sent) && m <= |Print(sent)| && forall r :: 0 <= r < |replies| ==> replies[r] != []
  {
    !Prefixes(Loop(Print(sent)[..m] + [p], Pending(done), Size(Bodies(done)), out, w),
              Expected(sent, done, todo, replies, out))
  }

  /** The block at the front is read, and the rest is cut off. */
  lemma {:induction false} FrontRead(
      sent: seq<Block>, m: nat, more: seq<string>, reply: Reply, total: nat, out: Output, w: World)
    requires AllFit(sent) && sent != [] && |PrintBlock(sent[0])| <= m < |Print(sent)|
    ensures Loop(Print(sent)[..m] + more, reply, total, out, w) ==
      match Advance(sent[0], reply, total, out, w)
      case None => out
      case Some(s) => Loop(Print(sent[1..])[..m - |PrintBlock(sent[0])|] + more, s.0, s.1, s.2, w)
  {
    FrontTaken(sent, m, more);
    LoopAdvances(sent[0], Print(sent[1..])[..m - |PrintBlock(sent[0])|] + more, reply, total, out, w);
  }

  lemma {:induction false} SpoiltAfterEvent(
      sent: seq<Block>, m: nat, p: string, done: seq<Block>, todo: seq<Block>, replies: seq<seq<Block>>,
      out: Output, w: World)
    requires Midway(sent, done, todo, replies) && Generous(w) && sent != [] && sent[0].code == EVENT_CODE
    requires |PrintBlock(sent[0])| <= m < |Print(sent)|
    requires var k, seen := |PrintBlock(sent[0])|, out.(events := out.events + [Body(sent[0])]);
      Spoilt(sent[1..], m - k, p, done, todo, replies, seen, w)
    ensures Spoilt(sent, m, p, done, todo, replies, out, w)
  {
    FrontRead(sent, m, [p], Pending(done), Size(Bodies(done)), out, w);
    PassEvent(sent, done, todo, replies, out);
  }

  lemma {:induction false} SpoiltAfterBlock(
      sent: seq<Block>, m: nat, p: string, done: seq<Block>, todo: seq<Block>, replies: seq<seq<Block>>,
      out: Output, w: World)
    requires Midway(sent, done, todo, replies) && Generous(w) && sent != [] && sent[0].code != EVENT_CODE && todo != []
    requires |PrintBlock(sent[0])| <= m < |Print(sent)|
    requires var k, seen := |PrintBlock(sent[0])|, out.(replies := out.replies + [Pending(done + todo)]);
      if |todo| == 1 then Spoilt(sent[1..], m - k, p, [], [], replies, seen, w)
      else Spoilt(sent[1..], m - k, p, done + [todo[0]], todo[1..], replies, out, w)
    ensures Spoilt(sent, m, p, done, todo, replies, out, w)
  {
    FrontRead(sent, m, [p], Pending(done), Size(Bodies(done)), out, w);
    MidwayBlock(sent, done, todo, replies);
    PassBlock(sent, done, todo, replies, out);
    AdvanceInReply(done, todo, out, w);
  }

  lemma {:induction false} Harmful(
      sent: seq<Block>, m: nat, p: string, done: seq<Block>, todo: seq<Block>, replies: seq<seq<Block>>,
      out: Output, w: World)
    requires Midway(sent, done, todo, replies) && Generous(w)
    requires m < |Print(sent)| && PartOf(p, Print(sent)[m]) && Harms(sent, m, p)
    ensures Spoilt(sent, m, p, done, todo, replies, out, w)
    decreases |sent|, |replies|
  {
    if todo == [] && replies != [] {
      NextReply(sent, replies, out);
      Harmful(sent, m, p, [], replies[0], replies[1..], out, w);
    } else {
      var b, rest, k := sent[0], sent[1..], |PrintBlock(sent[0])|;
      TakeBlocks(sent, m);
      if m < k {
        Damaged(sent, m, p, done, todo, replies, out, w);
      } else if b.code == EVENT_CODE {
        MidwayEvent(sent, done, todo, replies);
        Harmful(rest, m - k, p, done, todo, replies, out.(events := out.events + [Body(b)]), w);
        SpoiltAfterEvent(sent, m, p, done, todo, replies, out, w);
      } else {
        assert todo != [];
        MidwayBlock(sent, done, todo, replies);
        if |todo| == 1 {
          Harmful(rest, m - k, p, [], [], replies, out.(replies := out.replies + [Pending(done + todo)]), w);
        } else {
          Harmful(rest, m - k, p, done + [b], todo[1..], replies, out, w);
        }
        SpoiltAfterBlock(sent, m, p, done, todo, replies, out, w);
      }
    }
  }

  // ---- the exact condition -------------------------------------------------

  /** In every world: what comes out was sent, unless the stream ends inside a line
      whose beginning does harm. */
  lemma {:induction false} UnharmedPrefix(sent: seq<Block>, n: nat, w: World)
    requires Sendable(sent) && n <= |Sent(Print(sent))| && !Damaging(sent, n)
    ensures Prefixes(Heard(sent, n, w), Truth(sent))
  {
    var lines := Print(sent);
    var m, piece := Whole(lines, n), Piece(lines, n);
    HeardLines(sent, n, w);
    if piece == [] {
      DamagedTranscript(sent, m, w);
    } else if piece[0] == lines[m] {
      WholeRead(sent, m, w);
    } else {
      HarmlessRead(sent, m, piece[0], w);
    }
  }

  /** For well-formed replies with events anywhere between their lines, whose
      reader is never stopped otherwise: what comes out of the first `n`
      characters was sent, if and only if the stream does not end inside a line
      whose beginning ends an event, a reply or an event's data block. */
  lemma {:induction false} HarmlessIff(sent: seq<Block>, replies: seq<seq<Block>>, n: nat, w: World)
    requires Sendable(sent) && Transcript(sent, replies) && Generous(w) && n <= |Sent(Print(sent))|
    ensures Prefixes(Heard(sent, n, w), Output(Events(sent), Assemble(replies))) <==> !Damaging(sent, n)
  {
    CutOfTranscript(sent, replies);
    if !Damaging(sent, n) {
      UnharmedPrefix(sent, n, w);
    } else {
      HeardLines(sent, n, w);
      var m, piece := Whole(Print(sent), n), Piece(Print(sent), n);
      var out := Output([], []);
      Harmful(sent, m, piece[0], [], [], replies, out, w);
      assert out.events + Events(sent) == Events(sent);
      assert Expected(sent, [], [], replies, out) == Output(Events(sent), Assemble(replies));
    }
  }

  // ---- the complete stream -------------------------------------------------

  /** A block whose lines do not all arrive is not read. */
  lemma {:induction false} PartBroken(b: Block, o: nat)
    requires Printable(b) && o < |PrintBlock(b)|
    ensures ReadFrame(PrintBlock(b)[..o]) == Broken
  {
    if o > 0 {
      var rest := StuffAll(b.lines)[..o - 1];
      assert PrintBlock(b)[..o] == [Headed(b.code, '+', b.text)] + rest;
      DataRead(b.code, b.text, rest);
      StuffTake(b.lines, o - 1);
      NoEnd(b.lines[..o - 1], b.text, "");
      if ReadData(rest, b.text).Some? {
        DataExtends(rest, b.text, [""]);
      }
    }
  }

  /** Without its last lines, the rest of a transcript does not deliver all of it. */
  ghost predicate Lacking(
      sent: seq<Block>, m: nat, done: seq<Block>, todo: seq<Block>, replies: seq<seq<Block>>, out: Output, w: World)
    requires AllPrintable(sent) && m <= |Print(sent)| && forall r :: 0 <= r < |replies| ==> replies[r] != []
  {
    Loop(Print(sent)[..m], Pending(done), Size(Bodies(done)), out, w) != Expected(sent, done, todo, replies, out)
  }

  lemma {:induction false} LackingNow(
      sent: seq<Block>, m: nat, done: seq<Block>, todo: seq<Block>, replies: seq<seq<Block>>, out: Output, w: World)
    requires Midway(sent, done, todo, replies) && sent != [] && m < |PrintBlock(sent[0])| && m < |Print(sent)|
    requires todo == [] ==> replies == []
    ensures Lacking(sent, m, done, todo, replies, out, w)
  {
    TakeBlocks(sent, m);
    PartBroken(sent[0], m);
    var e := Expected(sent, done, todo, replies, out);
    if sent[0].code == EVENT_CODE {
      assert |e.events| > |out.events|;
    } else {
      assert todo != [];
      assert |e.replies| > |out.replies|;
    }
  }

  lemma {:induction false} LackingAfterEvent(
      sent: seq<Block>, m: nat, done: seq<Block>, todo: seq<Block>, replies: seq<seq<Block>>, out: Output, w: World)
    requires Midway(sent, done, todo, replies) && Generous(w) && sent != [] && sent[0].code == EVENT_CODE
    requires |PrintBlock(sent[0])| <= m < |Print(sent)|
    requires var k, seen := |PrintBlock(sent[0])|, out.(events := out.events + [Body(sent[0])]);
      Lacking(sent[1..], m - k, done, todo, replies, seen, w)
    ensures Lacking(sent, m, done, todo, replies, out, w)
  {
    NoMore(Print(sent)[..m]);
    NoMore(Print(sent[1..])[..m - |PrintBlock(sent[0])|]);
    FrontRead(sent, m, [], Pending(done), Size(Bodies(done)), out, w);
    PassEvent(sent, done, todo, replies, out);
  }

  lemma {:induction false} NoMore(lines: seq<string>)
    ensures lines + [] == lines
  {}

  lemma {:induction false} LackingAfterLast(
      sent: seq<Block>, m: nat, done: seq<Block>, todo: seq<Block>, replies: seq<seq<Block>>, out: Output, w: World)
    requires Midway(sent, done, todo, replies) && Generous(w) && sent != [] && sent[0].code != EVENT_CODE && |todo| == 1
    requires |PrintBlock(sent[0])| <= m < |Print(sent)|
    requires var k, seen := |PrintBlock(sent[0])|, out.(replies := out.replies + [Pending(done + todo)]);
      Lacking(sent[1..], m - k, [], [], replies, seen, w)
    ensures Lacking(sent, m, done, todo, replies, out, w)
  {
    NoMore(Print(sent)[..m]);
    NoMore(Print(sent[1..])[..m - |PrintBlock(sent[0])|]);
    FrontRead(sent, m, [], Pending(done), Size(Bodies(done)), out, w);
    MidwayBlock(sent, done, todo, replies);
    PassBlock(sent, done, todo, replies, out);
    AdvanceInReply(done, todo, out, w);
  }

  lemma {:induction false} LackingAfterPart(
      sent: seq<Block>, m: nat, done: seq<Block>, todo: seq<Block>, replies: seq<seq<Block>>, out: Output, w: World)
    requires Midway(sent, done, todo, replies) && Generous(w) && sent != [] && sent[0].code != EVENT_CODE && |todo| > 1
    requires |PrintBlock(sent[0])| <= m < |Print(sent)|
    requires Lacking(sent[1..], m - |PrintBlock(sent[0])|, done + [todo[0]], todo[1..], replies, out, w)
    ensures Lacking(sent, m, done, todo, replies, out, w)
  {
    NoMore(Print(sent)[..m]);
    NoMore(Print(sent[1..])[..m - |PrintBlock(sent[0])|]);
    FrontRead(sent, m, [], Pending(done), Size(Bodies(done)), out, w);
    MidwayBlock(sent, done, todo, replies);
    PassBlock(sent, done, todo, replies, out);
    AdvanceInReply(done, todo, out, w);
  }

  lemma {:induction false} FrontCount(sent: seq<Block>, m: nat)
    requires AllPrintable(sent) && sent != [] && |PrintBlock(sent[0])| <= m < |Print(sent)|
    ensures m - |PrintBlock(sent[0])| < |Print(sent[1..])|
  {}

  lemma {:induction false} LackingLines(
      sent: seq<Block>, m: nat, done: seq<Block>, todo: seq<Block>, replies: seq<seq<Block>>, out: Output, w: World)
    requires Midway(sent, done, todo, replies) && Generous(w) && m < |Print(sent)|
    ensures Lacking(sent, m, done, todo, replies, out, w)
    decreases |sent|, |replies|, 1
  {
    if todo == [] && replies != [] {
      NextReply(sent, replies, out);
      LackingLines(sent, m, [], replies[0], replies[1..], out, w);
    } else if m < |PrintBlock(sent[0])| {
      LackingNow(sent, m, done, todo, replies, out, w);
    } else if sent[0].code == EVENT_CODE {
      var k, seen := |PrintBlock(sent[0])|, out.(events := out.events + [Body(sent[0])]);
      MidwayEvent(sent, done, todo, replies);
      FrontCount(sent, m);
      LackingLines(sent[1..], m - k, done, todo, replies, seen, w);
      LackingAfterEvent(sent, m, done, todo, replies, out, w);
    } else {
      assert todo != [];
      MidwayBlock(sent, done, todo, replies);
      FrontCount(sent, m);
      if |todo| == 1 {
        LackingLast(sent, m, done, todo, replies, out, w);
      } else {
        LackingLines(sent[1..], m - |PrintBlock(sent[0])|, done + [todo[0]], todo[1..], replies, out, w);
        LackingAfterPart(sent, m, done, todo, replies, out, w);
      }
    }
  }

  lemma {:induction false} LackingLast(
      sent: seq<Block>, m: nat, done: seq<Block>, todo: seq<Block>, replies: seq<seq<Block>>, out: Output, w: World)
    requires Midway(sent, done, todo, replies) && Generous(w) && sent != [] && sent[0].code != EVENT_CODE && |todo| == 1
    requires Midway(sent[1..], [], [], replies) && |PrintBlock(sent[0])| <= m < |Print(sent)|
    requires m - |PrintBlock(sent[0])| < |Print(sent[1..])|
    ensures Lacking(sent, m, done, todo, replies, out, w)
    decreases |sent|, |replies|, 0
  {
    var seen := out.(replies := out.replies + [Pending(done + todo)]);
    LackingLines(sent[1..], m - |PrintBlock(sent[0])|, [], [], replies, seen, w);
    LackingAfterLast(sent, m, done, todo, replies, out, w);
  }

  /** The lines of the complete stream before the first one that is too long. */
  lemma {:induction false} HeardWhole(sent: seq<Block>, w: World)
    requires Sendable(sent)
    ensures Heard(sent, |Sent(Print(sent))|, w) == Read(Print(sent)[..Fitting(Print(sent))], w)
  {
    var lines := Print(sent);
    PrintOneLine(sent);
    SplitSent(lines, "");
    assert Sent(lines)[..|Sent(lines)|] == Sent(lines) + "";
    NoMore(lines[..Fitting(lines)]);
  }

  /** For well-formed replies with events anywhere between their lines, whose
      reader is never stopped otherwise: the complete stream gives them back, if
      and only if every line of it is short enough for the scanner. */
  lemma {:induction false} WholeStreamIff(sent: seq<Block>, replies: seq<seq<Block>>, w: World)
    requires Sendable(sent) && Transcript(sent, replies) && Generous(w)
    ensures Heard(sent, |Sent(Print(sent))|, w) == Output(Events(sent), Assemble(replies)) <==> AllShort(Print(sent))
  {
    var lines := Print(sent);
    HeardWhole(sent, w);
    FittingAll(lines);
    if Fitting(lines) == |lines| {
      assert lines[..|lines|] == lines;
      RoundTrip(sent, replies, w);
    } else {
      var out := Output([], []);
      LackingLines(sent, Fitting(lines), [], [], replies, out, w);
      assert out.events + Events(sent) == Events(sent);
      assert Expected(sent, [], [], replies, out) == Output(Events(sent), Assemble(replies));
    }
  }

  // ---- a run in which harm is done -----------------------------------------

  lemma {:induction false} CutReply(line: string, n: nat)
    requires |line| == 16 && n == 15 && line[14] != '\r'
    ensures Whole([line], n) == 0 && Piece([line], n) == [line[..15]]
  {
    assert Complete([line], n) == 0 && Tail([line], n) == (line + "\r")[..n] == line[..15];
  }

  const EXTENDED: seq<Block> := [Line(250, true, "EXTENDED 123")]

  lemma {:induction false} ExtendedLine() returns (line: string)
    ensures line == Headed(250, ' ', "EXTENDED 123") && Sendable(EXTENDED) && Print(EXTENDED) == [line]
    ensures Truth(EXTENDED) == Output([], [Reply(250, ["EXTENDED 123"])])
    ensures |Sent([line])| == 18
  {
    line := Headed(250, ' ', "EXTENDED 123");
    assert EXTENDED[1..] == [] && Print([]) == [] && Cut([], []) == [] && Events([]) == [];
    assert PrintBlock(EXTENDED[0]) == [line];
    assert [] + [Body(EXTENDED[0])] == ["EXTENDED 123"];
    assert [line][1..] == [] && Sent([]) == "";
  }

  lemma {:induction false} CutReplyRead(p: string, w: World)
    requires p == Headed(250, ' ', "EXTENDED 123")[..15] && Generous(w)
    ensures Read([p], w) == Output([], [Reply(250, ["EXTENDED 12"])])
  {
    var line := Headed(250, ' ', "EXTENDED 123");
    var heard: seq<string> := [p];
    var reply := Reply(250, ["EXTENDED 12"]);
    assert heard[1..] == [];
    assert p[..3] == line[..3];
    assert p[4..] == line[4..][..11] == "EXTENDED 12";
    assert ReadFrame(heard) == Frame(250, true, "EXTENDED 12", []);
    assert ReadFrame([]) == Broken;
    assert Loop([], NO_REPLY, 0, Output([], [reply]), w) == Output([], [reply]);
    assert [] + ["EXTENDED 12"] == reply.lines && [] + [reply] == [reply];
    assert w.accepts(0);
  }

  /** The connection is lost inside a reply: the circuit number that comes out is
      not the one that was sent. */
  lemma {:induction false} LostDigit(w: World)
    requires Generous(w)
    ensures Sendable(EXTENDED) && 15 <= |Sent(Print(EXTENDED))|
    ensures Heard(EXTENDED, 15, w) == Output([], [Reply(250, ["EXTENDED 12"])])
    ensures !Prefixes(Heard(EXTENDED, 15, w), Truth(EXTENDED))
  {
    var line := ExtendedLine();
    assert line[14] == line[4..][10] == '2';
    CutReply(line, 15);
    HeardLines(EXTENDED, 15, w);
    CutReplyRead(line[..15], w);
    var heard, meant := Heard(EXTENDED, 15, w).replies, Truth(EXTENDED).replies;
    assert |heard[0].lines[0]| == 11 && |meant[0].lines[0]| == 12;
  }
}
