/** The string operations of Rust's `str` that the tool relies on, on `seq<char>`. */
module Text {
  import opened Wrappers

  /** Unicode White_Space: what `str::trim` and `str::split_whitespace` remove. */
  predicate IsWhitespace(c: char) {
    || ('\t' <= c <= '\r') || c == ' '
    || c == '\U{0085}' || c == '\U{00A0}' || c == '\U{1680}'
    || ('\U{2000}' <= c <= '\U{200A}')
    || c == '\U{2028}' || c == '\U{2029}' || c == '\U{202F}' || c == '\U{205F}' || c == '\U{3000}'
  }

  /** ASCII whitespace, `[\t\n\v\f\r ]`: the `\s` class of the regex engine. */
  predicate IsAsciiWhitespace(c: char) {
    ('\t' <= c <= '\r') || c == ' '
  }

  /** ASCII digit, the `\d` class of the regex engine. */
  predicate IsDigit(c: char) {
    '0' <= c <= '9'
  }

  predicate AllDigits(s: string) {
    forall k | 0 <= k < |s| :: IsDigit(s[k])
  }

  predicate StartsWith(s: string, prefix: string) {
    |prefix| <= |s| && s[..|prefix|] == prefix
  }

  predicate EndsWith(s: string, suffix: string) {
    |suffix| <= |s| && s[|s| - |suffix|..] == suffix
  }

  lemma EndsWithChar(s: string, c: char)
    ensures EndsWith(s, [c]) <==> (s != [] && s[|s| - 1] == c)
  {
    if s != [] && s[|s| - 1] == c {
      assert s[|s| - 1..] == [c];
    }
  }

  /** `sub` occurs in `s` starting at index `i`. */
  predicate OccursAt(s: string, sub: string, i: nat) {
    i + |sub| <= |s| && s[i..i + |sub|] == sub
  }

  /** `str::contains` with a string pattern. */
  predicate Contains(s: string, sub: string) {
    exists i | 0 <= i <= |s| :: OccursAt(s, sub, i)
  }

  lemma ContainsAt(s: string, sub: string, i: nat)
    requires OccursAt(s, sub, i)
    ensures Contains(s, sub)
  {
  }

  /** A string contains every string it is assembled around. */
  lemma ContainsMiddle(a: string, b: string, c: string)
    ensures Contains(a + b + c, b)
  {
    assert (a + b + c)[|a|..|a| + |b|] == b;
    ContainsAt(a + b + c, b, |a|);
  }

  /** Extending a string on the right keeps what it contains. */
  lemma ContainsLeft(a: string, b: string, sub: string)
    requires Contains(a, sub)
    ensures Contains(a + b, sub)
  {
    var i :| 0 <= i <= |a| && OccursAt(a, sub, i);
    assert (a + b)[i..i + |sub|] == a[i..i + |sub|];
    ContainsAt(a + b, sub, i);
  }

  /** Extending a string on the left keeps what it contains. */
  lemma ContainsRight(a: string, b: string, sub: string)
    requires Contains(b, sub)
    ensures Contains(a + b, sub)
  {
    var i :| 0 <= i <= |b| && OccursAt(b, sub, i);
    assert (a + b)[|a|..] == b;
    assert (a + b)[|a| + i..|a| + i + |sub|] == b[i..i + |sub|];
    ContainsAt(a + b, sub, |a| + i);
  }

  /** `str::trim_start`. */
  function TrimStart(s: string): (r: string)
    ensures |r| <= |s| && r == s[|s| - |r|..]
    ensures r == [] || !IsWhitespace(r[0])
  {
    if s != [] && IsWhitespace(s[0]) then TrimStart(s[1..]) else s
  }

  /** `trim_start` removes whitespace only. */
  lemma {:induction false} TrimStartRemoves(s: string)
    ensures forall k | 0 <= k < |s| - |TrimStart(s)| :: IsWhitespace(s[k])
  {
    if s != [] && IsWhitespace(s[0]) {
      TrimStartRemoves(s[1..]);
    }
  }

  /** `str::trim_end`. */
  function TrimEnd(s: string): (r: string)
    ensures |r| <= |s| && r == s[..|r|]
    ensures r == [] || !IsWhitespace(r[|r| - 1])
  {
    if s != [] && IsWhitespace(s[|s| - 1]) then TrimEnd(s[..|s| - 1]) else s
  }

  /** `trim_end` removes whitespace only. */
  lemma {:induction false} TrimEndRemoves(s: string)
    ensures forall k | |TrimEnd(s)| <= k < |s| :: IsWhitespace(s[k])
  {
    if s != [] && IsWhitespace(s[|s| - 1]) {
      TrimEndRemoves(s[..|s| - 1]);
    }
  }

  /** `r` is `s[i..]` cut to `|r|` characters, with nothing but whitespace around it. */
  predicate TrimmedAt(s: string, r: string, i: nat) {
    && i + |r| <= |s|
    && r == s[i..i + |r|]
    && (forall k | 0 <= k < i :: IsWhitespace(s[k]))
    && (forall k | i + |r| <= k < |s| :: IsWhitespace(s[k]))
  }

  /** `str::trim`: `trim_start` then `trim_end`. */
  function Trim(s: string): string {
    TrimEnd(TrimStart(s))
  }

  /** `str::trim` gives the infix that neither starts nor ends with whitespace,
      everything cut away being whitespace. */
  lemma TrimSpec(s: string)
    ensures var r := Trim(s);
            && (r == [] || (!IsWhitespace(r[0]) && !IsWhitespace(r[|r| - 1])))
            && exists i | 0 <= i <= |s| :: TrimmedAt(s, r, i)
  {
    var t := TrimStart(s);
    var r := TrimEnd(t);
    var i := |s| - |t|;
    TrimStartRemoves(s);
    TrimEndRemoves(t);
    assert forall k | i + |r| <= k < |s| :: s[k] == t[k - i];
    assert TrimmedAt(s, r, i);
  }

  /** A string without whitespace at either end trims to itself. */
  lemma TrimIdentity(s: string)
    requires s == [] || (!IsWhitespace(s[0]) && !IsWhitespace(s[|s| - 1]))
    ensures Trim(s) == s
  {
  }

  /** Index of the first `c` in `s`, or `|s|` when there is none. */
  function IndexOf(s: string, c: char): (i: nat)
    ensures i <= |s|
    ensures i < |s| ==> s[i] == c
    ensures forall j | 0 <= j < i :: s[j] != c
  {
    if s == [] then 0
    else if s[0] == c then 0
    else 1 + IndexOf(s[1..], c)
  }

  /** `i` is the index of the first element of `s` satisfying `p`, or `|s|` when none does. */
  ghost predicate IsFirst<T>(s: seq<T>, p: T -> bool, i: nat) {
    && i <= |s|
    && (i < |s| ==> p(s[i]))
    && forall j | 0 <= j < i :: !p(s[j])
  }

  lemma {:induction false} FirstExists<T>(s: seq<T>, p: T -> bool)
    ensures exists i: nat :: IsFirst(s, p, i)
  {
    if s == [] {
      assert IsFirst(s, p, 0);
    } else if p(s[0]) {
      assert IsFirst(s, p, 0);
    } else {
      FirstExists(s[1..], p);
      var i: nat :| IsFirst(s[1..], p, i);
      assert forall j | 1 <= j < i + 1 :: s[j] == s[1..][j - 1];
      assert IsFirst(s, p, i + 1);
    }
  }

  /** Index of the first element of `s` that satisfies `p`, or `|s|` when none does:
      what `Iterator::find` and `Iterator::position` search for. */
  ghost function FirstIndex<T>(s: seq<T>, p: T -> bool): (i: nat)
    ensures i <= |s|
    ensures i < |s| ==> p(s[i])
  {
    FirstExists(s, p);
    var i: nat :| IsFirst(s, p, i);
    i
  }

  /** No element before the first match satisfies `p`. */
  lemma FirstIndexMin<T>(s: seq<T>, p: T -> bool)
    ensures forall j | 0 <= j < FirstIndex(s, p) :: !p(s[j])
  {
  }

  /** The first index is determined by its two defining properties. */
  lemma FirstIndexIs<T>(s: seq<T>, p: T -> bool, k: nat)
    requires k <= |s|
    requires k < |s| ==> p(s[k])
    requires forall j | 0 <= j < k :: !p(s[j])
    ensures FirstIndex(s, p) == k
  {
    assert IsFirst(s, p, FirstIndex(s, p));
  }

  /** Elements after a match do not move the first match. */
  lemma FirstIndexAppend<T>(s: seq<T>, t: seq<T>, p: T -> bool)
    requires FirstIndex(s, p) < |s|
    ensures FirstIndex(s + t, p) == FirstIndex(s, p)
  {
    var k := FirstIndex(s, p);
    FirstIndexMin(s, p);
    assert (s + t)[k] == s[k];
    assert forall j | 0 <= j < k :: (s + t)[j] == s[j];
    FirstIndexIs(s + t, p, k);
  }

  /** Removes the '\r' of a "\r\n" line ending. */
  function StripCr(line: string): string {
    if line != [] && line[|line| - 1] == '\r' then line[..|line| - 1] else line
  }

  /** `str::lines`: split at '\n'; a line ended by '\n' also loses a '\r' before it;
      a final '\n' does not start another line. */
  function Lines(s: string): (r: seq<string>)
    ensures s == [] <==> r == []
    ensures forall k | 0 <= k < |r| :: '\n' !in r[k]
    decreases |s|
  {
    if s == [] then []
    else
      var i := IndexOf(s, '\n');
      if i == |s| then [s]
      else [StripCr(s[..i])] + Lines(s[i + 1..])
  }

  /** `Iterator::next` on `lines()`: the first line, if any. */
  function FirstLine(s: string): (r: Option<string>)
    ensures r.None? <==> s == []
  {
    var lines := Lines(s);
    if lines == [] then None else Some(lines[0])
  }

  /** `join(sep)` on a slice of strings. */
  function Join(parts: seq<string>, sep: string): string
  {
    if parts == [] then []
    else if |parts| == 1 then parts[0]
    else parts[0] + sep + Join(parts[1..], sep)
  }

  lemma SeqAssoc(a: string, b: string, c: string)
    ensures a + b + c == a + (b + c)
  {
  }

  lemma {:induction false} JoinCons(x: string, rest: seq<string>, sep: string)
    requires rest != []
    ensures Join([x] + rest, sep) == x + sep + Join(rest, sep)
  {
    assert ([x] + rest)[1..] == rest;
  }

  /** How `Lines` takes off its first line. */
  lemma {:induction false} LinesCons(s: string, i: nat)
    requires i < |s| && s[i] == '\n' && '\n' !in s[..i]
    ensures Lines(s) == [StripCr(s[..i])] + Lines(s[i + 1..])
  {
    assert IndexOf(s, '\n') == i by {
      var j := IndexOf(s, '\n');
      assert forall k | 0 <= k < i :: s[k] == s[..i][k];
    }
  }

  /** Without '\r', joining the lines again with '\n' gives the text back, up to a final '\n'. */
  lemma {:induction false} LinesJoin(s: string)
    requires forall k | 0 <= k < |s| :: s[k] != '\r'
    ensures Join(Lines(s), "\n") + (if EndsWith(s, "\n") then "\n" else "") == s
    decreases |s|
  {
    if s != [] {
      var i := IndexOf(s, '\n');
      if i < |s| {
        LinesJoinStep(s, i);
      } else {
        assert s[|s| - 1] != '\n';
        assert Lines(s) == [s];
      }
    }
  }

  lemma {:induction false} LinesJoinStep(s: string, i: nat)
    requires forall k | 0 <= k < |s| :: s[k] != '\r'
    requires i < |s| && s[i] == '\n' && '\n' !in s[..i]
    ensures Join(Lines(s), "\n") + (if EndsWith(s, "\n") then "\n" else "") == s
    decreases |s|, 0
  {
    var line, rest := s[..i], s[i + 1..];
    SplitAround(s, i);
    LinesCons(s, i);
    assert StripCr(line) == line by {
      if line != [] { assert line[|line| - 1] == s[i - 1]; }
    }
    assert forall k | 0 <= k < |rest| :: rest[k] == s[i + 1 + k];
    LinesJoin(rest);
    if rest != [] {
      TailEndsWith(s, i);
      JoinPrefix(line, Lines(rest), if EndsWith(rest, "\n") then "\n" else "", rest);
    } else {
      assert Lines(s) == [line];
    }
  }

  /** A text is the part before a newline, the newline, and the part after it. */
  lemma SplitAround(s: string, i: nat)
    requires i < |s| && s[i] == '\n'
    ensures s == s[..i] + "\n" + s[i + 1..]
  {
  }

  /** A text ends with '\n' exactly when what follows its first line does, if that is not empty. */
  lemma TailEndsWith(s: string, i: nat)
    requires i < |s| - 1
    ensures EndsWith(s, "\n") == EndsWith(s[i + 1..], "\n")
  {
    var rest := s[i + 1..];
    assert s[|s| - 1] == rest[|rest| - 1];
    EndsWithChar(s, '\n');
    EndsWithChar(rest, '\n');
  }

  /** Putting one more line in front of joined lines. */
  lemma JoinPrefix(line: string, ls: seq<string>, tail: string, rest: string)
    requires ls != [] && Join(ls, "\n") + tail == rest
    ensures Join([line] + ls, "\n") + tail == line + "\n" + rest
  {
    JoinCons(line, ls, "\n");
    SeqAssoc(line + "\n", Join(ls, "\n"), tail);
  }

  /** `str::split(c)`: the pieces between the occurrences of `c`; at least one piece. */
  function SplitOn(s: string, c: char): (r: seq<string>)
    ensures |r| >= 1
    ensures forall k | 0 <= k < |r| :: c !in r[k]
    ensures Join(r, [c]) == s
    ensures (|r| == 1) <==> (c !in s)
    decreases |s|
  {
    var i := IndexOf(s, c);
    if i == |s| then [s]
    else
      var rest := SplitOn(s[i + 1..], c);
      assert s == s[..i] + [c] + s[i + 1..];
      JoinCons(s[..i], rest, [c]);
      [s[..i]] + rest
  }

  /** `Iterator::nth`. */
  function Nth<T>(s: seq<T>, n: nat): (r: Option<T>)
    ensures r.Some? <==> n < |s|
    ensures r.Some? ==> r.value == s[n]
  {
    if n < |s| then Some(s[n]) else None
  }

  /** `Iterator::last`. */
  function Last<T>(s: seq<T>): (r: Option<T>)
    ensures r.Some? <==> s != []
    ensures r.Some? ==> r.value == s[|s| - 1]
  {
    if s == [] then None else Some(s[|s| - 1])
  }

  /** Index of the first whitespace character of `s`, or `|s|`. */
  function WhitespaceIndex(s: string): (i: nat)
    ensures i <= |s|
    ensures i < |s| ==> IsWhitespace(s[i])
    ensures forall j | 0 <= j < i :: !IsWhitespace(s[j])
  {
    if s == [] then 0
    else if IsWhitespace(s[0]) then 0
    else 1 + WhitespaceIndex(s[1..])
  }

  /** `str::split_whitespace`: the maximal runs of non-whitespace, in order. */
  function SplitWhitespace(s: string): seq<string>
    decreases |s|
  {
    var t := TrimStart(s);
    if t == [] then []
    else
      var i := WhitespaceIndex(t);
      [t[..i]] + SplitWhitespace(t[i..])
  }

  /** A non-empty run of non-whitespace. */
  predicate IsWord(w: string) {
    w != [] && forall j | 0 <= j < |w| :: !IsWhitespace(w[j])
  }

  /** Each piece `split_whitespace` yields is non-empty and free of whitespace. */
  lemma {:induction false} SplitWhitespacePieces(s: string)
    ensures forall k | 0 <= k < |SplitWhitespace(s)| :: IsWord(SplitWhitespace(s)[k])
    decreases |s|
  {
    var t := TrimStart(s);
    if t != [] {
      var i := WhitespaceIndex(t);
      assert !IsWhitespace(t[0]);
      var rest := SplitWhitespace(t[i..]);
      SplitWhitespacePieces(t[i..]);
      assert IsWord(t[..i]);
      var r := SplitWhitespace(s);
      assert r == [t[..i]] + rest;
      forall k | 0 <= k < |r|
        ensures IsWord(r[k])
      {
        if k > 0 {
          assert r[k] == rest[k - 1];
        }
      }
    }
  }

  /** `str::replace` with a non-empty pattern: every non-overlapping occurrence, left to right. */
  function ReplaceAll(s: string, pat: string, rep: string): string
    requires pat != []
    decreases |s|
  {
    if |s| < |pat| then s
    else if s[..|pat|] == pat then rep + ReplaceAll(s[|pat|..], pat, rep)
    else [s[0]] + ReplaceAll(s[1..], pat, rep)
  }

  /** Text free of the pattern's first character passes through `replace` untouched. */
  lemma {:induction false} ReplaceSkips(a: string, b: string, pat: string, rep: string)
    requires pat != [] && pat[0] !in a
    ensures ReplaceAll(a + b, pat, rep) == a + ReplaceAll(b, pat, rep)
    decreases |a|
  {
    var s := a + b;
    if a == [] {
      assert s == b;
    } else if |s| < |pat| {
      assert ReplaceAll(b, pat, rep) == b;
    } else {
      assert s[..|pat|][0] == a[0];
      assert ReplaceAll(s, pat, rep) == [a[0]] + ReplaceAll(s[1..], pat, rep);
      assert s[1..] == a[1..] + b;
      assert pat[0] !in a[1..];
      ReplaceSkips(a[1..], b, pat, rep);
      assert a == [a[0]] + a[1..];
    }
  }

  /** An occurrence at the front is replaced and the scan resumes after it. */
  lemma ReplaceHead(b: string, pat: string, rep: string)
    requires pat != []
    ensures ReplaceAll(pat + b, pat, rep) == rep + ReplaceAll(b, pat, rep)
  {
    assert (pat + b)[..|pat|] == pat;
    assert (pat + b)[|pat|..] == b;
  }

  /** A string free of the pattern's first character is a fixed point of `replace`. */
  lemma ReplaceNothing(a: string, pat: string, rep: string)
    requires pat != [] && pat[0] !in a
    ensures ReplaceAll(a, pat, rep) == a
  {
    ReplaceSkips(a, [], pat, rep);
    assert a + [] == a;
    assert ReplaceAll([], pat, rep) == [];
  }

  /** The decimal digit for `d`. */
  function DigitChar(d: nat): (c: char)
    requires d < 10
    ensures IsDigit(c) && c as int - '0' as int == d
  {
    (d + '0' as int) as char
  }

  /** Rust's `{}` formatting of an unsigned integer: decimal, no leading zeros. */
  function NatToString(n: nat): (r: string)
    ensures r != [] && AllDigits(r)
    ensures n > 0 ==> r[0] != '0'
  {
    if n < 10 then [DigitChar(n)]
    else NatToString(n / 10) + [DigitChar(n % 10)]
  }

  /** The number a string of decimal digits denotes. */
  function DecimalValue(s: string): nat
    requires AllDigits(s)
  {
    if s == [] then 0
    else DecimalValue(s[..|s| - 1]) * 10 + (s[|s| - 1] as int - '0' as int)
  }

  /** Formatting a number and reading it back gives the number. */
  lemma {:induction false} NatToStringRoundTrip(n: nat)
    ensures DecimalValue(NatToString(n)) == n
  {
    if n >= 10 {
      NatToStringRoundTrip(n / 10);
      var s := NatToString(n);
      assert s[..|s| - 1] == NatToString(n / 10);
    }
  }
}
