/** The string functions the event loop relies on.  Characters are the code points
    of the event's text. */
module Text {
  import opened Base

  /** `unicode.IsSpace`: the code points with the White_Space property. */
  predicate IsSpace(c: char) {
    var n := c as int;
    || 0x09 <= n <= 0x0D || n == 0x20 || n == 0x85 || n == 0xA0 || n == 0x1680 || 0x2000 <= n <= 0x200A
    || n == 0x2028 || n == 0x2029 || n == 0x202F || n == 0x205F || n == 0x3000
  }

  /** The white space, character by character. */
  lemma {:induction false} SpacesAre(c: char)
    ensures IsSpace(c) <==> c in {
      '\U{0009}', '\U{000A}', '\U{000B}', '\U{000C}', '\U{000D}', ' ', '\U{0085}', '\U{00A0}', '\U{1680}',
      '\U{2000}', '\U{2001}', '\U{2002}', '\U{2003}', '\U{2004}', '\U{2005}', '\U{2006}', '\U{2007}', '\U{2008}',
      '\U{2009}', '\U{200A}', '\U{2028}', '\U{2029}', '\U{202F}', '\U{205F}', '\U{3000}'}
  {}

  /** The length of the run of characters at the start of `s` that are, or are
      not, spaces. */
  function Run(s: string, space: bool): (n: nat)
    ensures n <= |s|
    ensures forall i :: 0 <= i < n ==> IsSpace(s[i]) == space
    ensures n < |s| ==> IsSpace(s[n]) != space
  {
    if s == "" || IsSpace(s[0]) != space then 0 else 1 + Run(s[1..], space)
  }

  /** `strings.Fields`. */
  function Fields(s: string): (r: seq<string>)
    ensures forall i :: 0 <= i < |r| ==> r[i] != "" && forall j :: 0 <= j < |r[i]| ==> !IsSpace(r[i][j])
    decreases |s|
  {
    var t := s[Run(s, true)..];
    if t == "" then []
    else
      var n := Run(t, false);
      [t[..n]] + Fields(t[n..])
  }

  predicate AllSpace(s: string) {
    forall i :: 0 <= i < |s| ==> IsSpace(s[i])
  }

  predicate IsWord(s: string) {
    s != "" && forall i :: 0 <= i < |s| ==> !IsSpace(s[i])
  }

  /** Words with white space before, between and after them. */
  function Spread(gaps: seq<string>, words: seq<string>): string
    requires |gaps| == |words| + 1
  {
    if words == [] then gaps[0] else gaps[0] + words[0] + Spread(gaps[1..], words[1..])
  }

  ghost predicate Apart(gaps: seq<string>, words: seq<string>) {
    && |gaps| == |words| + 1
    && (forall i :: 0 <= i < |gaps| ==> AllSpace(gaps[i]))
    && (forall i :: 0 < i < |words| ==> gaps[i] != "")
    && (forall i :: 0 <= i < |words| ==> IsWord(words[i]))
  }

  lemma RunEnds(s: string, space: bool, n: nat)
    requires n <= |s| && (n < |s| ==> IsSpace(s[n]) != space)
    requires forall i :: 0 <= i < n ==> IsSpace(s[i]) == space
    ensures Run(s, space) == n
  {}

  lemma {:induction false} FieldsFirst(gap: string, word: string, rest: string)
    requires AllSpace(gap) && IsWord(word) && (rest != "" ==> IsSpace(rest[0]))
    ensures Fields(gap + word + rest) == [word] + Fields(rest)
  {
    var text := gap + word + rest;
    assert text[|gap|] == word[0];
    RunEnds(text, true, |gap|);
    var t := text[|gap|..];
    assert t == word + rest;
    RunEnds(t, false, |word|);
    assert t[..|word|] == word && t[|word|..] == rest;
  }

  lemma {:induction false} ApartTail(gaps: seq<string>, words: seq<string>)
    requires Apart(gaps, words) && words != []
    ensures Apart(gaps[1..], words[1..]) && (words[1..] != [] ==> gaps[1..][0] != "")
  {}

  lemma {:induction false} StartsWithSpace(gaps: seq<string>, words: seq<string>)
    requires Apart(gaps, words) && (words != [] ==> gaps[0] != "")
    ensures Spread(gaps, words) != "" ==> IsSpace(Spread(gaps, words)[0])
  {
    assert AllSpace(gaps[0]);
    if words != [] {
      assert Spread(gaps, words)[0] == gaps[0][0];
    }
  }

  /** The fields of a text are exactly its words, whatever white space there is
      before, between and after them. */
  lemma {:induction false} FieldsAreWords(gaps: seq<string>, words: seq<string>)
    requires Apart(gaps, words)
    ensures Fields(Spread(gaps, words)) == words
    decreases |words|
  {
    if words == [] {
      RunEnds(gaps[0], true, |gaps[0]|);
    } else {
      var rest := Spread(gaps[1..], words[1..]);
      ApartTail(gaps, words);
      StartsWithSpace(gaps[1..], words[1..]);
      FieldsFirst(gaps[0], words[0], rest);
      FieldsAreWords(gaps[1..], words[1..]);
    }
  }

  lemma {:induction false} SpreadMore(gap: string, word: string, gaps: seq<string>, words: seq<string>)
    requires Apart(gaps, words) && AllSpace(gap) && IsWord(word) && (words != [] ==> gaps[0] != "")
    ensures Apart([gap] + gaps, [word] + words)
    ensures Spread([gap] + gaps, [word] + words) == gap + word + Spread(gaps, words)
  {
    assert ([gap] + gaps)[1..] == gaps && ([word] + words)[1..] == words;
  }

  /** The first gap and word of a text. */
  lemma {:induction false} FirstWord(s: string) returns (gap: string, word: string, rest: string)
    ensures s == gap + word + rest && AllSpace(gap)
    ensures if word == "" then rest == "" else IsWord(word)
    ensures rest != "" ==> IsSpace(rest[0])
    ensures s != "" && IsSpace(s[0]) ==> gap != ""
  {
    var n := Run(s, true);
    gap := s[..n];
    var m := Run(s[n..], false);
    word, rest := s[n..][..m], s[n..][m..];
    assert s[n..] != "" ==> s[n..][0] == s[n];
  }

  /** Every text has that form. */
  lemma {:induction false} EveryTextIsSpread(s: string) returns (gaps: seq<string>, words: seq<string>)
    ensures Apart(gaps, words) && Spread(gaps, words) == s
    ensures s != "" && IsSpace(s[0]) ==> gaps[0] != ""
    decreases |s|
  {
    var gap, word, rest := FirstWord(s);
    if word == "" {
      gaps, words := [s], [];
    } else {
      var moreGaps, moreWords := EveryTextIsSpread(rest);
      SpreadMore(gap, word, moreGaps, moreWords);
      gaps, words := [gap] + moreGaps, [word] + moreWords;
    }
  }

  predicate HasPrefix(s: string, prefix: string) {
    prefix <= s
  }

  function DecimalValue(s: string): int
    requires forall i :: 0 <= i < |s| ==> IsDigit(s[i])
  {
    if s == "" then 0 else 10 * DecimalValue(s[..|s| - 1]) + (s[|s| - 1] as int - '0' as int)
  }

  /** `strconv.ParseUint(s, 10, 64)` succeeds. */
  predicate IsUint64(s: string) {
    s != "" && (forall i :: 0 <= i < |s| ==> IsDigit(s[i])) && DecimalValue(s) < 0x1_0000_0000_0000_0000
  }

  /** `n` in decimal digits. */
  function Decimal(n: nat): (s: string)
    ensures s != "" && forall i :: 0 <= i < |s| ==> '0' <= s[i] <= '9'
  {
    var last := [(n % 10 + '0' as int) as char];
    if n < 10 then last else Decimal(n / 10) + last
  }

  lemma {:induction false} DecimalBack(n: nat)
    ensures DecimalValue(Decimal(n)) == n
  {
    var s, d := Decimal(n), n % 10;
    assert s[|s| - 1] as int - '0' as int == d;
    if n < 10 {
      assert s[..|s| - 1] == "" && d == n;
    } else {
      DecimalBack(n / 10);
      assert s[..|s| - 1] == Decimal(n / 10);
      assert n == 10 * (n / 10) + d;
    }
  }

  /** A number in decimal digits is taken for a stream number exactly if it fits into
      64 bits; leading zeros make no difference, and no other text is one. */
  lemma {:induction false} StreamNumberIff(n: nat, zeros: string)
    requires forall i :: 0 <= i < |zeros| ==> zeros[i] == '0'
    ensures IsUint64(zeros + Decimal(n)) <==> n <= 18446744073709551615
  {
    DecimalBack(n);
    ZerosAside(zeros, Decimal(n));
  }

  lemma {:induction false} ZerosAside(zeros: string, s: string)
    requires (forall i :: 0 <= i < |zeros| ==> zeros[i] == '0') && forall i :: 0 <= i < |s| ==> IsDigit(s[i])
    ensures DecimalValue(zeros + s) == DecimalValue(s)
  {
    if s == "" {
      assert zeros + s == zeros;
      if zeros != "" {
        ZerosAside(zeros[..|zeros| - 1], "");
        assert zeros[..|zeros| - 1] + "" == zeros[..|zeros| - 1];
      }
    } else {
      ZerosAside(zeros, s[..|s| - 1]);
      assert (zeros + s)[..|zeros + s| - 1] == zeros + s[..|s| - 1];
    }
  }

  lemma {:induction false} OnlyDigits(s: string)
    ensures IsUint64(s) ==> s != "" && forall i :: 0 <= i < |s| ==> '0' <= s[i] <= '9'
  {}

  // ---- the user name pattern -----------------------------------------------

  const USER_MARK := "SOCKS_USERNAME=\""

  predicate IsHex(c: char) {
    '0' <= c <= '9' || 'a' <= c <= 'f'
  }

  function HexRun(s: string): (n: nat)
    ensures n <= |s|
    ensures forall i :: 0 <= i < n ==> IsHex(s[i])
    ensures n < |s| ==> !IsHex(s[n])
  {
    if s == "" || !IsHex(s[0]) then 0 else 1 + HexRun(s[1..])
  }

  /** The token if `s` starts with `SOCKS_USERNAME="token"` and then a space or
      the end of the text. */
  function UserHere(s: string): Option<string> {
    if !HasPrefix(s, USER_MARK) then None
    else
      var rest := s[|USER_MARK|..];
      var n := HexRun(rest);
      if n > 0 && n < |rest| && rest[n] == '"' && (n + 1 == |rest| || rest[n + 1] == ' ')
      then Some(rest[..n]) else None
  }

  /** The pattern matches with its token named at position `q`: at the start of
      the text, or after a space. */
  predicate NamedAt(s: string, q: nat)
    requires q <= |s|
  {
    (q == 0 || s[q - 1] == ' ') && UserHere(s[q..]).Some?
  }

  /** The leftmost match from position `q` on. */
  function UserFrom(s: string, q: nat): Option<string>
    requires q <= |s|
    decreases |s| - q
  {
    if NamedAt(s, q) then UserHere(s[q..])
    else if q == |s| then None
    else UserFrom(s, q + 1)
  }

  function FindUser(s: string): Option<string> {
    UserFrom(s, 0)
  }

  /** Of several names in a text the first one counts. */
  lemma {:induction false} FirstNameCounts(s: string, p: nat, q: nat)
    requires p <= q <= |s| && NamedAt(s, q) && forall x :: p <= x < q ==> !NamedAt(s, x)
    ensures UserFrom(s, p) == UserHere(s[q..])
    decreases q - p
  {
    if p < q {
      FirstNameCounts(s, p + 1, q);
    }
  }

  lemma HexEnds(s: string, n: nat)
    requires n <= |s| && (n < |s| ==> !IsHex(s[n]))
    requires forall i :: 0 <= i < n ==> IsHex(s[i])
    ensures HexRun(s) == n
  {}

  /** `s` starts with a name that has this token. */
  predicate IsName(s: string, token: string) {
    && |s| >= 16 && s[..16] == "SOCKS_USERNAME=\""
    && IsQuotedTo(s[16..], token)
  }

  /** `rest` is the token, a quote, and then a space or the end. */
  predicate IsQuotedTo(rest: string, token: string) {
    var n := |token|;
    && n > 0 && (forall i :: 0 <= i < n ==> '0' <= token[i] <= '9' || 'a' <= token[i] <= 'f')
    && n < |rest| && rest[..n] == token && rest[n] == '"'
    && (n + 1 == |rest| || rest[n + 1] == ' ')
  }

  lemma UserHereIff(s: string, token: string)
    ensures UserHere(s) == Some(token) <==> IsName(s, token)
  {
    assert HasPrefix(s, USER_MARK) ==> s[..16] == USER_MARK;
    if HasPrefix(s, USER_MARK) && IsQuotedTo(s[|USER_MARK|..], token) {
      var rest := s[|USER_MARK|..];
      assert forall i :: 0 <= i < |token| ==> rest[i] == rest[..|token|][i];
      HexEnds(rest, |token|);
    }
  }

  /** A token is named at position `q`: at the start of the text or after a space. */
  predicate Names(s: string, q: nat, token: string)
    requires q <= |s|
  {
    (q == 0 || s[q - 1] == ' ') && IsName(s[q..], token)
  }

  lemma {:induction false} NamesIff(s: string, q: nat, token: string)
    requires q <= |s|
    ensures Names(s, q, token) <==> NamedAt(s, q) && UserHere(s[q..]) == Some(token)
  {
    UserHereIff(s[q..], token);
  }

  /** Position `q` is the first one at which a token is named. */
  predicate FirstNamed(s: string, q: nat)
    requires q <= |s|
  {
    NamedAt(s, q) && forall x :: 0 <= x < q ==> !NamedAt(s, x)
  }

  /** The pattern finds a token exactly when the text names it before any other. */
  lemma {:induction false} FindUserIff(s: string, token: string)
    ensures FindUser(s) == Some(token) <==>
      exists q :: 0 <= q <= |s| && Names(s, q, token) && forall x, other :: 0 <= x < q ==> !Names(s, x, other)
  {
    forall x, other | 0 <= x <= |s| ensures Names(s, x, other) <==> NamedAt(s, x) && UserHere(s[x..]) == Some(other) {
      NamesIff(s, x, other);
    }
    if q :| 0 <= q <= |s| && FirstNamed(s, q) {
      FirstNameCounts(s, 0, q);
      assert Names(s, q, UserHere(s[q..]).value);
    } else {
      forall q | 0 <= q <= |s| ensures !NamedAt(s, q) { NoFirst(s, q); }
      NoneNamed(s, 0);
    }
  }

  /** Without a first position there is none. */
  lemma {:induction false} NoFirst(s: string, q: nat)
    requires q <= |s| && forall p :: 0 <= p <= |s| ==> !FirstNamed(s, p)
    ensures !NamedAt(s, q)
    decreases q
  {
    forall x | 0 <= x < q ensures !NamedAt(s, x) { NoFirst(s, x); }
    assert !FirstNamed(s, q);
  }

  lemma {:induction false} NoneNamed(s: string, p: nat)
    requires p <= |s|
    requires forall q :: p <= q <= |s| ==> !NamedAt(s, q)
    ensures UserFrom(s, p) == None
    decreases |s| - p
  {
    assert !NamedAt(s, p);
    if p < |s| {
      NoneNamed(s, p + 1);
    }
  }
}
