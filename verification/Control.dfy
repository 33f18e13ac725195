/** The reader of the Tor control connection (internal/app/control.go): one
    reader separates asynchronous 650 events from command replies.  Lines come
    from the scanner without their line ends; characters stand for bytes. */
module Control {
  import opened Base

  const SIZE_LIMIT: nat := 4 * 1024 * 1024
  const EVENT_BUFFER: nat := 256
  const EVENT_CODE: int := 650

  datatype Reply = Reply(code: int, lines: seq<string>)

  const NO_REPLY := Reply(0, [])

  /** How the other goroutines treat what is delivered: how many events were
      taken out of the buffer when event number `k` arrives, and whether reply
      number `k` is accepted rather than the connection found closed. */
  datatype World = World(taken: nat -> nat, accepts: nat -> bool)

  predicate Room(w: World, k: nat) {
    k - w.taken(k) < EVENT_BUFFER
  }

  /** Everything delivered before the reader closed the connection. */
  datatype Output = Output(events: seq<string>, replies: seq<Reply>)

  // ---- framing -------------------------------------------------------------

  function Digit(c: char): (d: int)
    requires IsDigit(c)
    ensures 0 <= d <= 9
  {
    c as int - '0' as int
  }

  /** `strconv.Atoi` on three characters: digits, or a sign and two digits. */
  function ParseCode(s: string): Option<int>
    requires |s| == 3
  {
    if IsDigit(s[1]) && IsDigit(s[2]) then
      var low := 10 * Digit(s[1]) + Digit(s[2]);
      if IsDigit(s[0]) then Some(100 * Digit(s[0]) + low)
      else if s[0] == '+' then Some(low)
      else if s[0] == '-' then Some(-low)
      else None
    else None
  }

  /** The code strips a dot only from a line that starts with two of them. */
  function Unstuff(v: string): string {
    if |v| >= 2 && v[0] == '.' && v[1] == '.' then v[1..] else v
  }

  /** The body of a data block whose lines follow `acc`, and the lines after its
      terminator; nothing if the block does not end or grows too large. */
  function ReadData(lines: seq<string>, acc: string): (r: Option<(string, seq<string>)>)
    ensures r.Some? ==> |r.value.1| < |lines|
  {
    if lines == [] then None
    else if lines[0] == "." then Some((acc, lines[1..]))
    else
      var v := Unstuff(lines[0]);
      if |acc| + |v| > SIZE_LIMIT then None else ReadData(lines[1..], acc + "\n" + v)
  }

  datatype Frame = Broken | Frame(code: int, last: bool, body: string, rest: seq<string>)

  /** The first line, or data block, of a stream. */
  function ReadFrame(lines: seq<string>): (f: Frame)
    ensures f.Frame? ==> |f.rest| < |lines|
  {
    if lines == [] || |lines[0]| < 4 then Broken
    else
      var line := lines[0];
      var code := ParseCode(line[..3]);
      if code.None? then Broken
      else if line[3] == ' ' || line[3] == '-' then Frame(code.value, line[3] == ' ', line[4..], lines[1..])
      else if line[3] == '+' then
        var data := ReadData(lines[1..], line[4..]);
        if data.None? then Broken else Frame(code.value, false, data.value.0, data.value.1)
      else Broken
  }

  /** The reader's loop from a given point: the reply being collected, its size,
      and what was delivered so far. */
  function Loop(lines: seq<string>, reply: Reply, total: nat, out: Output, w: World): Output
    decreases |lines|
  {
    match ReadFrame(lines)
    case Broken => out
    case Frame(code, last, body, rest) =>
      if code == EVENT_CODE then
        if Room(w, |out.events|)
        then Loop(rest, reply, total, out.(events := out.events + [body]), w)
        else out
      else if reply.code != 0 && reply.code != code then out
      else if total + |body| > SIZE_LIMIT then out
      else
        var extended := Reply(code, reply.lines + [body]);
        if !last then Loop(rest, extended, total + |body|, out, w)
        else if !w.accepts(|out.replies|) then out
        else Loop(rest, NO_REPLY, 0, out.(replies := out.replies + [extended]), w)
  }

  function Read(lines: seq<string>, w: World): Output {
    Loop(lines, NO_REPLY, 0, Output([], []), w)
  }

  // ---- the loop itself -----------------------------------------------------

  class Reader {
    var events: seq<string>
    var replies: seq<Reply>
    var closed: bool

    constructor ()
      ensures events == [] && replies == [] && !closed
    {
      events, replies, closed := [], [], false;
    }

    /** `readLoop`: whatever ends it, the connection is closed. */
    method ReadLoop(lines: seq<string>, w: World)
      requires events == [] && replies == []
      modifies this
      ensures Output(events, replies) == Read(lines, w)
      ensures closed
    {
      Deliver(lines, w);
      closed := true;
    }

    method Deliver(lines: seq<string>, w: World)
      requires events == [] && replies == []
      modifies this`events, this`replies
      ensures Output(events, replies) == Read(lines, w)
    {
      var reply := NO_REPLY;
      var total: nat, i: nat := 0, 0;
      while i < |lines|
        invariant i <= |lines|
        invariant Read(lines, w) == Loop(lines[i..], reply, total, Output(events, replies), w)
      {
        var line := lines[i];
        if |line| < 4 {
          return;
        }
        var code := ParseCode(line[..3]);
        if code.None? {
          return;
        }
        var separator, body := line[3], line[4..];
        if separator != ' ' && separator != '-' && separator != '+' {
          return;
        }
        i := i + 1;
        if separator == '+' {
          var ended;
          ended, body, i := ReadBlock(lines, i, body);
          if !ended {
            return;
          }
        }
        if code.value == EVENT_CODE {
          if !Room(w, |events|) {
            return;
          }
          events := events + [body];
          continue;
        }
        if reply.code != 0 && reply.code != code.value {
          return;
        }
        reply := Reply(code.value, reply.lines + [body]);
        total := total + |body|;
        if total > SIZE_LIMIT {
          return;
        }
        if separator == ' ' {
          if !w.accepts(|replies|) {
            return;
          }
          replies := replies + [reply];
          reply, total := NO_REPLY, 0;
        }
      }
    }

    /** The inner loop over the lines of a data block. */
    static method ReadBlock(lines: seq<string>, start: nat, first: string)
      returns (ended: bool, body: string, next: nat)
      requires start <= |lines|
      ensures start <= next <= |lines|
      ensures ReadData(lines[start..], first) == if ended then Some((body, lines[next..])) else None
      ensures ended ==> next > start
    {
      ended, body, next := false, first, start;
      while next < |lines|
        invariant start <= next <= |lines|
        invariant ReadData(lines[start..], first) == ReadData(lines[next..], body)
      {
        var v := lines[next];
        if v == "." {
          return true, body, next + 1;
        }
        if |v| >= 2 && v[0] == '.' && v[1] == '.' {
          v := v[1..];
        }
        if |body| + |v| > SIZE_LIMIT {
          return;
        }
        body := body + "\n" + v;
        next := next + 1;
      }
    }
  }
}
