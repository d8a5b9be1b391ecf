// The java.lang.String and java.io.BufferedReader behaviour the client relies
// on, stated over Dafny strings (sequences of chars).
module JavaText {
  import opened Common

  /** String.startsWith. */
  predicate StartsWith(s: string, prefix: string)
  {
    |prefix| <= |s| && s[..|prefix|] == prefix
  }

  /** String.contains: some suffix of s starts with p. */
  predicate Contains(s: string, p: string)
    decreases |s|
  {
    StartsWith(s, p) || (|s| > 0 && Contains(s[1..], p))
  }

  lemma {:induction false} ContainsAt(s: string, p: string, i: nat)
    requires i + |p| <= |s| && s[i..i + |p|] == p
    ensures Contains(s, p)
  {
    if i > 0 {
      assert s[1..][i - 1..i - 1 + |p|] == p;
      ContainsAt(s[1..], p, i - 1);
    }
  }

  lemma {:induction false} ContainsWitness(s: string, p: string) returns (i: nat)
    requires Contains(s, p)
    ensures i + |p| <= |s| && s[i..i + |p|] == p
  {
    if StartsWith(s, p) {
      i := 0;
    } else {
      var j := ContainsWitness(s[1..], p);
      assert s[1..][j..j + |p|] == s[j + 1..j + 1 + |p|];
      i := j + 1;
    }
  }

  lemma ContainsKeepsChars(s: string, p: string)
    requires Contains(s, p)
    ensures forall c :: c in p ==> c in s
  {
    var i := ContainsWitness(s, p);
    forall c | c in p ensures c in s {
      var k :| 0 <= k < |p| && p[k] == c;
      assert s[i + k] == c;
    }
  }

  // ---------------------------------------------------------------------
  // String.trim(): strips every char at or below U+0020 from both ends.

  predicate IsTrimmable(c: char) { c <= ' ' }

  function TrimStart(s: string): (r: string)
    ensures |r| <= |s| && r == s[|s| - |r|..]
    ensures r == [] || !IsTrimmable(r[0])
    ensures forall k :: 0 <= k < |s| - |r| ==> IsTrimmable(s[k])
  {
    if |s| > 0 && IsTrimmable(s[0]) then TrimStart(s[1..]) else s
  }

  function TrimEnd(s: string): (r: string)
    ensures |r| <= |s| && r == s[..|r|]
    ensures r == [] || !IsTrimmable(r[|r| - 1])
    ensures forall k :: |r| <= k < |s| ==> IsTrimmable(s[k])
  {
    if |s| > 0 && IsTrimmable(s[|s| - 1]) then TrimEnd(s[..|s| - 1]) else s
  }

  function Trim(s: string): string
  {
    TrimEnd(TrimStart(s))
  }

  /** A string with no trimmable character at either end is its own trim. */
  lemma TrimOfTight(s: string)
    requires s != [] && !IsTrimmable(s[0]) && !IsTrimmable(s[|s| - 1])
    ensures Trim(s) == s
  {
    assert TrimStart(s) == s;
  }

  /** trim() keeps one contiguous run of s, cut only at trimmable chars, and
      leaves no trimmable char at either end. */
  lemma TrimKeepsMiddle(s: string) returns (a: nat)
    ensures var r := Trim(s);
      (r == [] || (!IsTrimmable(r[0]) && !IsTrimmable(r[|r| - 1]))) &&
      a + |r| <= |s| && s[a..a + |r|] == r &&
      (forall k :: 0 <= k < a ==> IsTrimmable(s[k])) &&
      (forall k :: a + |r| <= k < |s| ==> IsTrimmable(s[k]))
  {
    var t := TrimStart(s);
    var r := TrimEnd(t);
    a := |s| - |t|;
    assert t == s[a..] && r == t[..|r|];
    assert s[a..a + |r|] == t[..|r|];
    forall k | a + |r| <= k < |s| ensures IsTrimmable(s[k]) {
      assert s[k] == t[k - a];
    }
  }

  lemma {:induction false} TrimIdempotent(s: string)
    ensures Trim(Trim(s)) == Trim(s)
  {
    var r := Trim(s);
    assert TrimStart(r) == r;
    assert TrimEnd(r) == r;
  }

  // ---------------------------------------------------------------------
  // Regular-expression matching of `<open>(.*?)<close>` with Matcher.find():
  // `.` matches anything but a line terminator, the group is lazy, and the
  // search moves left to right over the possible starts.

  predicate IsLineTerminator(c: char)
  {
    c == '\n' || c == '\r' || c == '\U{85}' || c == '\U{2028}' || c == '\U{2029}'
  }

  /** The first index at or after j holding `close`, unless a line terminator
      comes first. */
  function CloseFrom(s: string, close: char, j: nat): (r: Option<nat>)
    decreases |s| - j
    ensures r.Some? ==> j <= r.value < |s| && s[r.value] == close
    ensures r.Some? ==> forall k :: j <= k < r.value ==> s[k] != close && !IsLineTerminator(s[k])
    ensures r.None? && !IsLineTerminator(close) ==> forall k :: j <= k < |s| && s[k] == close ==>
      exists m :: j <= m < k && IsLineTerminator(s[m])
  {
    if j >= |s| then None
    else if s[j] == close then Some(j)
    else if IsLineTerminator(s[j]) then None
    else CloseFrom(s, close, j + 1)
  }

  /** Group 1 of the first match of `open(.*?)close` at or after index i. */
  function FindBetween(s: string, open: string, close: char, i: nat): (r: Option<string>)
    decreases |s| - i
    ensures r.Some? ==> close !in r.value && forall k :: 0 <= k < |r.value| ==> !IsLineTerminator(r.value[k])
    ensures r.Some? ==> Contains(s, open + r.value + [close])
  {
    if i + |open| > |s| then None
    else if s[i..i + |open|] == open then
      match CloseFrom(s, close, i + |open|)
      case Some(k) =>
        var g := s[i + |open|..k];
        assert s[i..k + 1] == open + g + [close];
        ContainsAt(s, open + g + [close], i);
        Some(g)
      case None => FindBetween(s, open, close, i + 1)
    else FindBetween(s, open, close, i + 1)
  }

  function Find(s: string, open: string, close: char): Option<string>
  {
    FindBetween(s, open, close, 0)
  }

  /** A value written between the delimiters is found again. */
  lemma FindRoundTrip(open: string, g: string, close: char, rest: string)
    requires |open| > 0
    requires close !in g && forall k :: 0 <= k < |g| ==> !IsLineTerminator(g[k])
    ensures Find(open + g + [close] + rest, open, close) == Some(g)
  {
    var s := open + g + [close] + rest;
    assert s[0..|open|] == open;
    CloseFromStops(s, close, |open|, |open| + |g|);
    assert s[|open|..|open| + |g|] == g;
  }

  lemma {:induction false} CloseFromStops(s: string, close: char, j: nat, k: nat)
    requires j <= k < |s| && s[k] == close
    requires forall m :: j <= m < k ==> s[m] != close && !IsLineTerminator(s[m])
    ensures CloseFrom(s, close, j) == Some(k)
    decreases k - j
  {
    if j < k {
      CloseFromStops(s, close, j + 1, k);
    }
  }

  // ---------------------------------------------------------------------
  // String.split with a one-char separator.

  function IndexOfChar(s: string, c: char): (r: Option<nat>)
    ensures r.Some? ==> r.value < |s| && s[r.value] == c && c !in s[..r.value]
    ensures r.None? ==> c !in s
  {
    if s == [] then None
    else if s[0] == c then Some(0)
    else match IndexOfChar(s[1..], c)
      case None => None
      case Some(i) => assert s[..i + 1] == [s[0]] + s[1..][..i]; Some(i + 1)
  }

  /** All pieces between separators, trailing empty ones included. */
  function Pieces(s: string, sep: char): (r: seq<string>)
    decreases |s|
    ensures |r| >= 1
  {
    match IndexOfChar(s, sep)
    case None => [s]
    case Some(i) => [s[..i]] + Pieces(s[i + 1..], sep)
  }

  function Join(ps: seq<string>, sep: char): string
  {
    if |ps| == 0 then []
    else if |ps| == 1 then ps[0]
    else ps[0] + [sep] + Join(ps[1..], sep)
  }

  /** Splitting and re-joining gives the string back, and no piece holds the
      separator. */
  lemma {:induction false} PiecesJoin(s: string, sep: char)
    ensures Join(Pieces(s, sep), sep) == s
    ensures forall k :: 0 <= k < |Pieces(s, sep)| ==> sep !in Pieces(s, sep)[k]
    decreases |s|
  {
    match IndexOfChar(s, sep)
    case None =>
    case Some(i) =>
      var rest := Pieces(s[i + 1..], sep);
      var ps := Pieces(s, sep);
      PiecesJoin(s[i + 1..], sep);
      assert ps == [s[..i]] + rest;
      assert Join(ps, sep) == s[..i] + [sep] + Join(rest, sep);
      assert s == s[..i] + [sep] + s[i + 1..];
      assert forall k :: 1 <= k < |ps| ==> ps[k] == rest[k - 1];
  }

  function DropTrailingEmpty(ps: seq<string>): (r: seq<string>)
    ensures |r| <= |ps| && r == ps[..|r|]
    ensures r == [] || r[|r| - 1] != ""
    ensures forall k :: |r| <= k < |ps| ==> ps[k] == ""
  {
    if |ps| > 0 && ps[|ps| - 1] == "" then DropTrailingEmpty(ps[..|ps| - 1]) else ps
  }

  /** String.split(sep): no match gives the string itself; otherwise the
      pieces with trailing empty strings removed. */
  function Split(s: string, sep: char): seq<string>
  {
    if sep !in s then [s] else DropTrailingEmpty(Pieces(s, sep))
  }

  /** String.replace(from, to) on single characters. */
  function Replace(s: string, from: char, to: char): (r: string)
    ensures |r| == |s|
    ensures forall k :: 0 <= k < |s| ==> r[k] == if s[k] == from then to else s[k]
  {
    seq(|s|, k requires 0 <= k < |s| => if s[k] == from then to else s[k])
  }

  // ---------------------------------------------------------------------
  // BufferedReader.readLine(): a line ends at '\n', '\r' or "\r\n"; the
  // terminator is not part of the line; an empty remainder ends the input.

  predicate IsEol(c: char) { c == '\n' || c == '\r' }

  function LineEnd(s: string, i: nat): (k: nat)
    requires i <= |s|
    decreases |s| - i
    ensures i <= k <= |s| && (k < |s| ==> IsEol(s[k]))
    ensures forall m :: i <= m < k ==> !IsEol(s[m])
  {
    if i == |s| || IsEol(s[i]) then i else LineEnd(s, i + 1)
  }

  function Lines(s: string): (ls: seq<string>)
    decreases |s|
    ensures forall j, m :: 0 <= j < |ls| && 0 <= m < |ls[j]| ==> !IsEol(ls[j][m])
  {
    if s == [] then []
    else
      var k := LineEnd(s, 0);
      if k == |s| then [s]
      else
        var next := if s[k] == '\r' && k + 1 < |s| && s[k + 1] == '\n' then k + 2 else k + 1;
        [s[..k]] + Lines(s[next..])
  }

  /** Lines written with "\r\n" after each are read back one by one. */
  lemma {:induction false} LinesRoundTrip(ls: seq<string>)
    requires forall j, m :: 0 <= j < |ls| && 0 <= m < |ls[j]| ==> !IsEol(ls[j][m])
    ensures Lines(CrlfJoined(ls)) == ls
  {
    if ls != [] {
      FirstLine(ls);
      LinesRoundTrip(ls[1..]);
    }
  }

  /** The first line of a CRLF-joined text ends at its "\r\n", and the rest
      of the lines start right after it. */
  lemma FirstLine(ls: seq<string>)
    requires ls != []
    requires forall m :: 0 <= m < |ls[0]| ==> !IsEol(ls[0][m])
    ensures var s, l := CrlfJoined(ls), ls[0];
      |l| + 2 <= |s| && LineEnd(s, 0) == |l| && s[..|l|] == l &&
      s[|l|] == '\r' && s[|l| + 1] == '\n' && s[|l| + 2..] == CrlfJoined(ls[1..])
  {
    var s := CrlfJoined(ls);
    var l := ls[0];
    assert s == l + "\r\n" + CrlfJoined(ls[1..]);
    LineEndAfter(s, l);
  }

  function CrlfJoined(ls: seq<string>): string
  {
    if ls == [] then [] else ls[0] + "\r\n" + CrlfJoined(ls[1..])
  }

  lemma LineEndAfter(s: string, l: string)
    requires |l| < |s| && s[..|l|] == l && IsEol(s[|l|])
    requires forall m :: 0 <= m < |l| ==> !IsEol(l[m])
    ensures LineEnd(s, 0) == |l|
  {
  }

  // ---------------------------------------------------------------------
  // Long.toString / Integer.toString, and string concatenation with a number.

  function DigitChar(d: nat): char
    requires d < 10
  {
    ('0' as int + d) as char
  }

  function Digits(n: nat): (r: string)
    ensures |r| >= 1 && forall k :: 0 <= k < |r| ==> '0' <= r[k] <= '9'
  {
    if n < 10 then [DigitChar(n)] else Digits(n / 10) + [DigitChar(n % 10)]
  }

  function DigitValue(c: char): nat
    requires '0' <= c <= '9'
  {
    (c as int) - ('0' as int)
  }

  function ParseDigits(s: string): int
    requires forall k :: 0 <= k < |s| ==> '0' <= s[k] <= '9'
  {
    if s == [] then 0 else 10 * ParseDigits(s[..|s| - 1]) + DigitValue(s[|s| - 1])
  }

  lemma {:induction false} DigitsRoundTrip(n: nat)
    ensures ParseDigits(Digits(n)) == n
  {
    var r := Digits(n);
    if n >= 10 {
      DigitsRoundTrip(n / 10);
      var front := Digits(n / 10);
      assert r == front + [DigitChar(n % 10)];
      assert r[..|r| - 1] == front;
      assert DigitValue(r[|r| - 1]) == n % 10;
      assert ParseDigits(r) == 10 * (n / 10) + n % 10;
    }
  }

  function IntToString(n: int): (r: string)
    ensures |r| >= 1
  {
    if n < 0 then "-" + Digits(-n) else Digits(n)
  }

  /** Long.parseLong on the text of a number. */
  function ParseInt(s: string): int
    requires |s| >= 1
    requires forall k :: (if s[0] == '-' then 1 else 0) <= k < |s| ==> '0' <= s[k] <= '9'
  {
    if s[0] == '-' then -ParseDigits(s[1..]) else ParseDigits(s)
  }

  /** The decimal text of n reads back as n. */
  lemma IntToStringRoundTrip(n: int)
    ensures var t := IntToString(n);
      (forall k :: (if t[0] == '-' then 1 else 0) <= k < |t| ==> '0' <= t[k] <= '9') &&
      ParseInt(t) == n
  {
    var t := IntToString(n);
    if n < 0 {
      assert t[1..] == Digits(-n);
      DigitsRoundTrip(-n);
    } else {
      DigitsRoundTrip(n);
    }
  }
}
