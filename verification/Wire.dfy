/** The control connection as characters: how bufio.Scanner cuts them into lines
    (internal/app/control.go), and how lines are sent.  A last line that was cut
    off is handed over like any other. */
module Wire {

  /** One trailing carriage return is dropped from a line. */
  function DropCr(s: string): (r: string)
    ensures r <= s && |s| <= |r| + 1
  {
    if s != "" && s[|s| - 1] == '\r' then s[..|s| - 1] else s
  }

  predicate OneLine(s: string) {
    forall i :: 0 <= i < |s| ==> s[i] != '\n'
  }

  /** The number of characters before the first line feed, if there is one. */
  function LineLength(s: string): (n: nat)
    ensures n <= |s| && OneLine(s[..n]) && (n < |s| ==> s[n] == '\n')
  {
    if s == "" || s[0] == '\n' then 0
    else
      var n := 1 + LineLength(s[1..]);
      assert s[..n] == [s[0]] + s[1..][..n - 1];
      n
  }

  /** The scanner's bound: a line and its line feed fit, or the scanner stops. */
  const LINE_LIMIT: nat := 1024 * 1024

  predicate Short(s: string) { |s| < LINE_LIMIT }

  /** The lines that the scanner hands over before the stream ends. */
  function Split(s: string): seq<string>
    decreases |s|
  {
    var n := LineLength(s);
    if n >= LINE_LIMIT then []
    else if n == |s| then Last(s)
    else [DropCr(s[..n])] + Split(s[n + 1..])
  }

  /** What it hands over of a line that was cut off. */
  function Last(tail: string): seq<string> {
    if tail != "" && Short(tail) then [DropCr(tail)] else []
  }

  const CRLF := "\r\n"

  /** Lines as they are sent. */
  function Sent(lines: seq<string>): string {
    if lines == [] then "" else lines[0] + CRLF + Sent(lines[1..])
  }

  ghost predicate AllOneLine(lines: seq<string>) {
    forall i :: 0 <= i < |lines| ==> OneLine(lines[i])
  }

  lemma {:induction false} FirstBreak(s: string, n: nat)
    requires n < |s| && s[n] == '\n' && OneLine(s[..n])
    ensures LineLength(s) == n
  {
    var k := LineLength(s);
    assert forall i :: 0 <= i < k ==> s[..k][i] == s[i];
    assert forall i :: 0 <= i < n ==> s[..n][i] == s[i];
  }

  lemma {:induction false} SplitLine(line: string, rest: string)
    requires OneLine(line)
    ensures Split(line + CRLF + rest) == if Short(line + "\r") then [line] + Split(rest) else []
  {
    var s, l := line + CRLF + rest, line + "\r";
    assert s == l + "\n" + rest;
    assert s[..|l|] == l && s[|l| + 1..] == rest;
    FirstBreak(s, |l|);
    assert DropCr(l) == line;
  }

  lemma {:induction false} SplitTail(tail: string)
    requires OneLine(tail)
    ensures Split(tail) == Last(tail)
  {
    assert LineLength(tail) == |tail|;
  }

  lemma {:induction false} SplitFirst(lines: seq<string>, tail: string)
    requires lines != [] && OneLine(lines[0])
    ensures var rest := Split(Sent(lines[1..]) + tail);
      Split(Sent(lines) + tail) == if Short(lines[0] + "\r") then [lines[0]] + rest else []
  {
    assert Sent(lines) + tail == lines[0] + CRLF + (Sent(lines[1..]) + tail);
    SplitLine(lines[0], Sent(lines[1..]) + tail);
  }

  /** How many lines come before the first one that is too long. */
  function Fitting(lines: seq<string>): (f: nat)
    ensures f <= |lines|
  {
    if lines == [] || !Short(lines[0] + "\r") then 0 else 1 + Fitting(lines[1..])
  }

  /** The lines before the first one that is too long, and then what there is of
      one that was cut off. */
  function Handed(lines: seq<string>, tail: string): seq<string> {
    var f := Fitting(lines);
    lines[..f] + if f == |lines| then Last(tail) else []
  }

  lemma {:induction false} HandedFirst(lines: seq<string>, tail: string)
    requires lines != []
    ensures Handed(lines, tail) == if Short(lines[0] + "\r") then [lines[0]] + Handed(lines[1..], tail) else []
  {
    if Short(lines[0] + "\r") {
      assert lines[..Fitting(lines)] == [lines[0]] + lines[1..][..Fitting(lines[1..])];
    }
  }

  /** The scanner gives these back. */
  lemma {:induction false} SplitSent(lines: seq<string>, tail: string)
    requires AllOneLine(lines) && OneLine(tail)
    ensures Split(Sent(lines) + tail) == Handed(lines, tail)
  {
    if lines == [] {
      assert Sent(lines) + tail == tail;
      SplitTail(tail);
    } else {
      SplitFirst(lines, tail);
      HandedFirst(lines, tail);
      SplitSent(lines[1..], tail);
    }
  }

  /** Every line, with its carriage return and its line feed, has at most 1 MiB. */
  ghost predicate AllShort(lines: seq<string>) {
    forall i :: 0 <= i < |lines| ==> |lines[i]| + 2 <= 1024 * 1024
  }

  /** All lines come before the first one that is too long, if there is none. */
  lemma {:induction false} FittingAll(lines: seq<string>)
    ensures Fitting(lines) == |lines| <==> AllShort(lines)
  {
    if lines != [] {
      FittingAll(lines[1..]);
      assert AllShort(lines) <==> |lines[0]| + 2 <= 1024 * 1024 && AllShort(lines[1..]) by {
        assert forall i :: 0 < i < |lines| ==> lines[i] == lines[1..][i - 1];
      }
    }
  }

  // ---- a stream that ends after `n` characters -------------------------------

  /** How many whole lines are among the first `n` characters. */
  function Complete(lines: seq<string>, n: nat): (m: nat)
    ensures m <= |lines|
  {
    if lines == [] || n < |lines[0]| + 2 then 0 else 1 + Complete(lines[1..], n - |lines[0]| - 2)
  }

  /** What follows them. */
  function Tail(lines: seq<string>, n: nat): string {
    if lines == [] then ""
    else if n < |lines[0]| + 2 then (lines[0] + "\r")[..n]
    else Tail(lines[1..], n - |lines[0]| - 2)
  }

  lemma {:induction false} CutSent(lines: seq<string>, n: nat)
    requires n <= |Sent(lines)| && AllOneLine(lines)
    ensures var m, tail := Complete(lines, n), Tail(lines, n);
      && Sent(lines)[..n] == Sent(lines[..m]) + tail && OneLine(tail)
      && (if m == |lines| then tail == "" else tail <= lines[m] + "\r")
  {
    if lines == [] {
    } else if n < |lines[0]| + 2 {
      assert Sent(lines)[..n] == (lines[0] + "\r")[..n];
      assert lines[..0] == [];
    } else {
      var rest, k := lines[1..], n - |lines[0]| - 2;
      CutSent(rest, k);
      assert Sent(lines)[..n] == lines[0] + CRLF + Sent(rest)[..k];
      assert lines[..Complete(lines, n)] == [lines[0]] + rest[..Complete(rest, k)];
    }
  }

  /** The number of whole lines that the scanner hands over, */
  function Whole(lines: seq<string>, n: nat): (m: nat)
    ensures m <= |lines|
  {
    var m, f := Complete(lines, n), Fitting(lines);
    if m < f then m else f
  }

  /** and what it hands over after them. */
  function Piece(lines: seq<string>, n: nat): (p: seq<string>)
    ensures |p| <= 1
  {
    if Complete(lines, n) <= Fitting(lines) then Last(Tail(lines, n)) else []
  }

  lemma {:induction false} FittingFirst(lines: seq<string>, m: nat)
    requires m <= |lines|
    ensures Fitting(lines[..m]) == if m < Fitting(lines) then m else Fitting(lines)
  {
    if m > 0 {
      assert lines[..m][1..] == lines[1..][..m - 1];
      FittingFirst(lines[1..], m - 1);
    }
  }

  /** So the scanner hands over whole lines, and a beginning of the next one if
      the stream ends inside it. */
  lemma {:induction false} SplitCut(lines: seq<string>, n: nat)
    requires n <= |Sent(lines)| && AllOneLine(lines)
    ensures var m, piece := Whole(lines, n), Piece(lines, n);
      && Split(Sent(lines)[..n]) == lines[..m] + piece
      && (piece != [] ==> m < |lines| && piece[0] <= lines[m])
  {
    CutSent(lines, n);
    var m, tail := Complete(lines, n), Tail(lines, n);
    FittingFirst(lines, m);
    SplitSent(lines[..m], tail);
    assert lines[..m][..Whole(lines, n)] == lines[..Whole(lines, n)];
    if tail != "" && |tail| == |lines[m]| + 1 {
      assert tail == lines[m] + "\r";
    }
  }

  /** The stream ends at a line end exactly if nothing is left over. */
  lemma {:induction false} LineEndIff(lines: seq<string>, n: nat)
    requires n <= |Sent(lines)| && AllOneLine(lines)
    ensures Tail(lines, n) == "" <==> n == 0 || Sent(lines)[n - 1] == '\n'
  {
    CutSent(lines, n);
    var m, tail := Complete(lines, n), Tail(lines, n);
    var cut := Sent(lines)[..n];
    if tail != "" {
      assert cut[n - 1] == tail[|tail| - 1];
    } else if m > 0 {
      SentEnds(lines[..m]);
      assert cut == Sent(lines[..m]);
    }
  }

  lemma {:induction false} SentEnds(lines: seq<string>)
    requires lines != []
    ensures Sent(lines) != "" && Sent(lines)[|Sent(lines)| - 1] == '\n'
  {
    if |lines| > 1 {
      SentEnds(lines[1..]);
    }
  }
}
