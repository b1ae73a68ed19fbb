/** The JavaScript string operations the services rely on, stated over
    `seq<char>`: `trim`, `split`, `join`, `indexOf`/`includes`, `startsWith`,
    `parseInt(s, 10)`, `split(/\s+/)`, decimal rendering of integers, and the
    ASCII case folding that a case-insensitive regular expression with an
    ASCII pattern performs. */
module Strings {
  import opened Wrappers

  /** The WhiteSpace and LineTerminator code points of ECMAScript: what
      `trim` and `parseInt` skip and what the class `\s` matches. */
  predicate IsSpace(c: char)
  {
    if c <= ' ' then c == ' ' || '\t' <= c <= '\r'
    else
      && '\U{A0}' <= c
      && (|| c == '\U{A0}' || c == '\U{1680}' || ('\U{2000}' <= c <= '\U{200A}')
          || c == '\U{2028}' || c == '\U{2029}' || c == '\U{202F}' || c == '\U{205F}'
          || c == '\U{3000}' || c == '\U{FEFF}')
  }

  /** The characters that a regular-expression `.` does not match. */
  predicate IsLineTerminator(c: char)
  {
    c == '\n' || c == '\r' || c == '\U{2028}' || c == '\U{2029}'
  }

  /** The class `\d`. */
  predicate IsDigit(c: char)
  {
    '0' <= c <= '9'
  }

  predicate AllSpace(s: string)
  {
    forall k :: 0 <= k < |s| ==> IsSpace(s[k])
  }

  predicate NoSpace(s: string)
  {
    forall k :: 0 <= k < |s| ==> !IsSpace(s[k])
  }

  predicate AllDigits(s: string)
  {
    forall k :: 0 <= k < |s| ==> IsDigit(s[k])
  }

  // ---------------------------------------------------------------- trim

  /** `s.trimStart()`: drops the leading spaces and nothing else. */
  function TrimStart(s: string): (r: string)
    ensures |r| <= |s| && r == s[|s| - |r|..]
    ensures AllSpace(s[..|s| - |r|])
    ensures r == [] || !IsSpace(r[0])
  {
    if s != [] && IsSpace(s[0]) then
      var r := TrimStart(s[1..]);
      assert s[..|s| - |r|] == [s[0]] + s[1..][..|s| - 1 - |r|];
      r
    else s
  }

  /** `s.trimEnd()`: drops the trailing spaces and nothing else. */
  function TrimEnd(s: string): (r: string)
    ensures |r| <= |s| && r == s[..|r|]
    ensures AllSpace(s[|r|..])
    ensures r == [] || !IsSpace(r[|r| - 1])
  {
    if s != [] && IsSpace(s[|s| - 1]) then
      var r := TrimEnd(s[..|s| - 1]);
      assert s[|r|..] == s[..|s| - 1][|r|..] + [s[|s| - 1]];
      r
    else s
  }

  /** `s.trim()`: the slice of `s` between its leading and trailing spaces. */
  function Trim(s: string): (r: string)
    ensures |r| <= |TrimStart(s)| <= |s|
    ensures r == [] || (!IsSpace(r[0]) && !IsSpace(r[|r| - 1]))
    ensures r == TrimStart(s)[..|r|]
    ensures AllSpace(TrimStart(s)[|r|..])
  {
    TrimEnd(TrimStart(s))
  }

  /** A string with no space at either end is its own trim; so trimming twice
      is trimming once. */
  lemma {:induction false} TrimFixed(s: string)
    requires s == [] || (!IsSpace(s[0]) && !IsSpace(s[|s| - 1]))
    ensures Trim(s) == s
  {
  }

  lemma {:induction false} TrimIdempotent(s: string)
    ensures Trim(Trim(s)) == Trim(s)
  {
    TrimFixed(Trim(s));
  }

  /** A string of spaces only trims to the empty string. */
  lemma {:induction false} TrimAllSpace(s: string)
    requires AllSpace(s)
    ensures Trim(s) == []
  {
  }

  /** `s.trim().length === 0` exactly when `s` is empty or all spaces. */
  lemma {:induction false} TrimEmptyIff(s: string)
    ensures Trim(s) == [] <==> AllSpace(s)
  {
    if AllSpace(s) {
      TrimAllSpace(s);
    }
  }

  // ---------------------------------------------------------------- split / join

  /** Index of the first `c` in `s`, or |s| when `c` does not occur. */
  function CharIndex(s: string, c: char): (k: nat)
    ensures k <= |s| && c !in s[..k] && (k < |s| ==> s[k] == c)
  {
    if s == [] then 0
    else if s[0] == c then 0
    else
      var k := 1 + CharIndex(s[1..], c);
      assert s[..k] == [s[0]] + s[1..][..k - 1];
      k
  }

  lemma {:induction false} CharIndexAfter(a: string, b: string, c: char)
    requires c !in a
    ensures CharIndex(a + b, c) == |a| + CharIndex(b, c)
  {
    if a != [] {
      assert (a + b)[1..] == a[1..] + b;
      CharIndexAfter(a[1..], b, c);
    } else {
      assert a + b == b;
    }
  }

  /** `s.split(sep)` for a one-character separator: the maximal pieces of `s`
      that do not contain `sep`, always at least one. */
  function Split(s: string, sep: char): (parts: seq<string>)
    ensures |parts| >= 1
    ensures forall p :: p in parts ==> sep !in p
    decreases |s|
  {
    var k := CharIndex(s, sep);
    if k == |s| then
      assert s[..k] == s;
      [s]
    else [s[..k]] + Split(s[k + 1..], sep)
  }

  /** `parts.join(sep)` */
  function Join(parts: seq<string>, sep: char): string
  {
    if parts == [] then ""
    else if |parts| == 1 then parts[0]
    else parts[0] + [sep] + Join(parts[1..], sep)
  }

  lemma {:induction false} SplitAt(s: string, sep: char)
    requires CharIndex(s, sep) < |s|
    ensures Split(s, sep) == [s[..CharIndex(s, sep)]] + Split(s[CharIndex(s, sep) + 1..], sep)
  {
  }

  lemma {:induction false} JoinCons(p: string, ps: seq<string>, sep: char)
    requires |ps| >= 1
    ensures Join([p] + ps, sep) == p + [sep] + Join(ps, sep)
  {
    assert ([p] + ps)[1..] == ps;
  }

  /** Splitting loses nothing: joining the pieces gives the string back. */
  lemma {:induction false} JoinSplit(s: string, sep: char)
    ensures Join(Split(s, sep), sep) == s
    decreases |s|
  {
    var k := CharIndex(s, sep);
    if k < |s| {
      var rest := s[k + 1..];
      calc {
        Join(Split(s, sep), sep);
        == { SplitAt(s, sep); }
        Join([s[..k]] + Split(rest, sep), sep);
        == { JoinCons(s[..k], Split(rest, sep), sep); }
        s[..k] + [sep] + Join(Split(rest, sep), sep);
        == { JoinSplit(rest, sep); }
        s[..k] + [sep] + rest;
        == { assert s == s[..k] + [sep] + rest; }
        s;
      }
    } else {
      assert s[..k] == s;
    }
  }

  /** Joining pieces that do not contain the separator, then splitting,
      gives the same pieces: the line count and each line are preserved. */
  lemma {:induction false} SplitJoin(parts: seq<string>, sep: char)
    requires |parts| >= 1
    requires forall p :: p in parts ==> sep !in p
    ensures Split(Join(parts, sep), sep) == parts
    decreases |parts|
  {
    if |parts| == 1 {
      SplitWithout(parts[0], sep);
    } else {
      var p, ps := parts[0], parts[1..];
      assert parts == [p] + ps;
      JoinCons(p, ps, sep);
      SplitCons(p, Join(ps, sep), sep);
      SplitJoin(ps, sep);
    }
  }

  lemma {:induction false} SplitWithout(p: string, sep: char)
    requires sep !in p
    ensures Split(p, sep) == [p]
  {
    CharIndexAfter(p, [], sep);
    assert p + [] == p;
  }

  lemma {:induction false} SplitCons(p: string, rest: string, sep: char)
    requires sep !in p
    ensures Split(p + [sep] + rest, sep) == [p] + Split(rest, sep)
  {
    var s := p + [sep] + rest;
    assert s == p + ([sep] + rest);
    CharIndexAfter(p, [sep] + rest, sep);
    assert s[..|p|] == p;
    assert s[|p| + 1..] == rest;
  }

  // ---------------------------------------------------------------- search

  /** `pat` occurs in `s` at position `i`. */
  predicate OccursAt(s: string, pat: string, i: int)
  {
    0 <= i && i + |pat| <= |s| && s[i..i + |pat|] == pat
  }

  /** `s.indexOf(pat, from)`: the first position at or after `from` where
      `pat` occurs, or -1. */
  function IndexOfFrom(s: string, pat: string, from: nat): (r: int)
    ensures r == -1 || (from <= r && OccursAt(s, pat, r))
    ensures forall k :: from <= k && (r == -1 || k < r) ==> !OccursAt(s, pat, k)
    decreases |s| - from
  {
    if from + |pat| > |s| then -1
    else if s[from..from + |pat|] == pat then from
    else IndexOfFrom(s, pat, from + 1)
  }

  function IndexOf(s: string, pat: string): int
  {
    IndexOfFrom(s, pat, 0)
  }

  /** `s.includes(pat)` */
  predicate Contains(s: string, pat: string)
  {
    IndexOf(s, pat) != -1
  }

  lemma {:induction false} ContainsIff(s: string, pat: string)
    ensures Contains(s, pat) <==> exists i :: OccursAt(s, pat, i)
  {
  }

  /** A prefix that ends before the first occurrence holds no occurrence. */
  lemma {:induction false} PrefixBeforeFirst(s: string, pat: string, i: nat)
    requires i <= |s| && |pat| > 0
    requires forall k :: 0 <= k < i ==> !OccursAt(s, pat, k)
    ensures !Contains(s[..i], pat)
  {
    ContainsIff(s[..i], pat);
    forall k | OccursAt(s[..i], pat, k) ensures k < i && OccursAt(s, pat, k) {
      assert s[..i][k..k + |pat|] == s[k..k + |pat|];
    }
  }

  /** `s.startsWith(p)` */
  predicate StartsWith(s: string, p: string)
  {
    |p| <= |s| && s[..|p|] == p
  }

  // ---------------------------------------------------------------- case folding

  /** ASCII lower case. A case-insensitive JavaScript regular expression
      without the `u` flag never folds a non-ASCII character onto an ASCII
      one, so for the ASCII patterns used here this is its whole folding. */
  function Lower(c: char): char
  {
    if 'A' <= c <= 'Z' then (c as int + 32) as char else c
  }

  function LowerStr(s: string): (r: string)
    ensures |r| == |s|
    ensures forall k :: 0 <= k < |s| ==> r[k] == Lower(s[k])
  {
    seq(|s|, k requires 0 <= k < |s| => Lower(s[k]))
  }

  /** `pat` occurs at `i` in `s` ignoring ASCII case. */
  predicate OccursAtIgnoreCase(s: string, pat: string, i: int)
  {
    0 <= i && i + |pat| <= |s| && forall j :: 0 <= j < |pat| ==> Lower(s[i + j]) == Lower(pat[j])
  }

  predicate EqualsIgnoreCase(a: string, b: string)
  {
    |a| == |b| && forall j :: 0 <= j < |a| ==> Lower(a[j]) == Lower(b[j])
  }

  predicate ContainsIgnoreCase(s: string, pat: string)
  {
    exists i :: 0 <= i <= |s| - |pat| && OccursAtIgnoreCase(s, pat, i)
  }

  // ---------------------------------------------------------------- numbers

  /** Length of the run of decimal digits at the start of `s`. */
  function DigitPrefixLen(s: string): (n: nat)
    ensures n <= |s| && AllDigits(s[..n]) && (n < |s| ==> !IsDigit(s[n]))
  {
    if s != [] && IsDigit(s[0]) then
      var n := 1 + DigitPrefixLen(s[1..]);
      assert s[..n] == [s[0]] + s[1..][..n - 1];
      n
    else 0
  }

  lemma {:induction false} DigitPrefixOfDigits(s: string, t: string)
    requires AllDigits(s)
    requires t == [] || !IsDigit(t[0])
    ensures DigitPrefixLen(s + t) == |s|
  {
    if s != [] {
      assert (s + t)[1..] == s[1..] + t;
      DigitPrefixOfDigits(s[1..], t);
    } else {
      assert s + t == t;
    }
  }

  function DigitValue(c: char): nat
    requires IsDigit(c)
  {
    c as int - '0' as int
  }

  function Digit(d: nat): (c: char)
    requires d < 10
    ensures IsDigit(c) && DigitValue(c) == d
  {
    ('0' as int + d) as char
  }

  /** The value of a string of decimal digits. */
  function DigitsValue(d: string): nat
    requires AllDigits(d)
  {
    if d == [] then 0 else 10 * DigitsValue(d[..|d| - 1]) + DigitValue(d[|d| - 1])
  }

  /** `String(n)` for a non-negative integer: its decimal digits. */
  function NatToString(n: nat): (s: string)
    ensures 1 <= |s| && AllDigits(s)
    ensures |s| > 1 ==> s[0] != '0'
  {
    if n < 10 then [Digit(n)] else NatToString(n / 10) + [Digit(n % 10)]
  }

  /** `String(i)` for an integer. */
  function IntToString(i: int): string
  {
    if i < 0 then ['-'] + NatToString(-i) else NatToString(i)
  }

  lemma {:induction false} NatToStringValue(n: nat)
    ensures DigitsValue(NatToString(n)) == n
  {
    if n >= 10 {
      var s := NatToString(n);
      assert s[..|s| - 1] == NatToString(n / 10);
      NatToStringValue(n / 10);
    }
  }

  /** Decimal rendering is injective: two numbers print alike only if equal. */
  lemma {:induction false} NatToStringInjective(m: nat, n: nat)
    requires NatToString(m) == NatToString(n)
    ensures m == n
  {
    NatToStringValue(m);
    NatToStringValue(n);
  }

  /** The longest run of decimal digits at the start of `u`, as a number;
      None when `u` does not start with a digit. */
  function ParseDigits(u: string): Option<int>
  {
    var n := DigitPrefixLen(u);
    if n == 0 then None else Some(DigitsValue(u[..n]))
  }

  /** `parseInt(s, 10)`: leading spaces, an optional sign, then the longest
      run of decimal digits; NaN (None) when there is no digit. */
  function ParseInt(s: string): Option<int>
  {
    var t := TrimStart(s);
    if |t| > 0 && t[0] == '-' then
      match ParseDigits(t[1..])
      case Some(v) => Some(-v)
      case None => None
    else if |t| > 0 && t[0] == '+' then ParseDigits(t[1..])
    else ParseDigits(t)
  }

  lemma {:induction false} ParseDigitsOf(d: string, rest: string)
    requires d != [] && AllDigits(d)
    requires rest == [] || !IsDigit(rest[0])
    ensures ParseDigits(d + rest) == Some(DigitsValue(d) as int)
  {
    DigitPrefixOfDigits(d, rest);
    assert (d + rest)[..|d|] == d;
  }

  lemma {:induction false} ParseIntOfDigitLed(u: string)
    requires u != [] && IsDigit(u[0])
    ensures ParseInt(u) == ParseDigits(u)
  {
    assert TrimStart(u) == u;
  }

  lemma {:induction false} ParseIntOfMinus(u: string, v: int)
    requires u != [] && IsDigit(u[0]) && ParseDigits(u) == Some(v)
    ensures ParseInt(['-'] + u) == Some(-v)
  {
    var t := ['-'] + u;
    assert TrimStart(t) == t;
    assert t[1..] == u;
  }

  lemma {:induction false} ConsAppend(c: char, a: string, b: string)
    ensures [c] + a + b == [c] + (a + b)
  {
  }

  lemma {:induction false} ParseIntOfNat(n: nat, rest: string)
    requires rest == [] || !IsDigit(rest[0])
    ensures ParseDigits(NatToString(n) + rest) == Some(n)
    ensures ParseInt(NatToString(n) + rest) == Some(n)
  {
    var d := NatToString(n);
    NatToStringValue(n);
    ParseDigitsOf(d, rest);
    assert (d + rest)[0] == d[0];
    ParseIntOfDigitLed(d + rest);
  }

  /** `parseInt` reads back what `String` wrote, whatever follows on a
      non-digit boundary. */
  lemma {:induction false} ParseIntOfString(i: int, rest: string)
    requires rest == [] || !IsDigit(rest[0])
    ensures ParseInt(IntToString(i) + rest) == Some(i)
  {
    if i < 0 {
      ParseIntOfNegative(-i, rest);
      assert -((-i) as int) == i;
    } else {
      ParseIntOfNat(i, rest);
    }
  }

  lemma {:induction false} ParseIntOfNegative(n: nat, rest: string)
    requires n > 0
    requires rest == [] || !IsDigit(rest[0])
    ensures ParseInt(IntToString(-(n as int)) + rest) == Some(-(n as int))
  {
    var d := NatToString(n);
    var u := d + rest;
    ParseIntOfNat(n, rest);
    assert u[0] == d[0];
    ParseIntOfMinus(u, n);
    assert IntToString(-(n as int)) + rest == ['-'] + u by {
      ConsAppend('-', d, rest);
    }
  }

  // ---------------------------------------------------------------- split(/\s+/)

  function SpacePrefixLen(s: string): (n: nat)
    ensures n <= |s| && AllSpace(s[..n]) && (n < |s| ==> !IsSpace(s[n]))
  {
    if s != [] && IsSpace(s[0]) then
      var n := 1 + SpacePrefixLen(s[1..]);
      assert s[..n] == [s[0]] + s[1..][..n - 1];
      n
    else 0
  }

  lemma {:induction false} SpacePrefixOfSpaces(s: string, t: string)
    requires AllSpace(s)
    requires t == [] || !IsSpace(t[0])
    ensures SpacePrefixLen(s + t) == |s|
  {
    if s != [] {
      assert (s + t)[1..] == s[1..] + t;
      SpacePrefixOfSpaces(s[1..], t);
    } else {
      assert s + t == t;
    }
  }

  function WordPrefixLen(s: string): (n: nat)
    ensures n <= |s| && NoSpace(s[..n]) && (n < |s| ==> IsSpace(s[n]))
  {
    if s != [] && !IsSpace(s[0]) then
      var n := 1 + WordPrefixLen(s[1..]);
      assert s[..n] == [s[0]] + s[1..][..n - 1];
      n
    else 0
  }

  /** `s.split(/\s+/)`: the pieces between maximal runs of spaces (a leading
      or trailing run gives an empty first or last piece). */
  function SplitWs(s: string): (parts: seq<string>)
    ensures |parts| >= 1
    ensures forall k :: 0 <= k < |parts| ==> NoSpace(parts[k])
    decreases |s|
  {
    var n := WordPrefixLen(s);
    if n == |s| then
      assert s[..n] == s;
      [s]
    else
      var m := SpacePrefixLen(s[n..]);
      [s[..n]] + SplitWs(s[n + m..])
  }

  /** The non-space characters of `s`, in order. */
  function Unspaced(s: string): string
  {
    if s == [] then [] else (if IsSpace(s[0]) then [] else [s[0]]) + Unspaced(s[1..])
  }

  function Concat(parts: seq<string>): string
  {
    if parts == [] then [] else parts[0] + Concat(parts[1..])
  }

  lemma {:induction false} UnspacedAppend(a: string, b: string)
    ensures Unspaced(a + b) == Unspaced(a) + Unspaced(b)
  {
    if a != [] {
      assert (a + b)[1..] == a[1..] + b;
      UnspacedAppend(a[1..], b);
    } else {
      assert a + b == b;
    }
  }

  lemma {:induction false} UnspacedOfWord(s: string)
    requires NoSpace(s)
    ensures Unspaced(s) == s
  {
    if s != [] {
      UnspacedOfWord(s[1..]);
    }
  }

  lemma {:induction false} UnspacedOfSpaces(s: string)
    requires AllSpace(s)
    ensures Unspaced(s) == []
  {
    if s != [] {
      UnspacedOfSpaces(s[1..]);
    }
  }

  lemma {:induction false} UnspacedOfWordThenSpaces(w: string, sp: string, rest: string)
    requires NoSpace(w) && AllSpace(sp)
    ensures Unspaced(w + sp + rest) == w + Unspaced(rest)
  {
    calc {
      Unspaced(w + sp + rest);
      == { UnspacedAppend(w + sp, rest); }
      Unspaced(w + sp) + Unspaced(rest);
      == { UnspacedAppend(w, sp); }
      Unspaced(w) + Unspaced(sp) + Unspaced(rest);
      == { UnspacedOfWord(w); UnspacedOfSpaces(sp); }
      w + [] + Unspaced(rest);
      == { assert w + [] == w; }
      w + Unspaced(rest);
    }
  }

  lemma {:induction false} ConcatCons(p: string, ps: seq<string>)
    ensures Concat([p] + ps) == p + Concat(ps)
  {
    assert ([p] + ps)[1..] == ps;
  }

  /** Splitting on whitespace keeps every non-space character, in order:
      the pieces, glued together, are the input with its spaces removed. */
  lemma {:induction false} SplitWsKeepsText(s: string)
    ensures Concat(SplitWs(s)) == Unspaced(s)
    decreases |s|
  {
    var n := WordPrefixLen(s);
    if n == |s| {
      assert s[..n] == s;
      UnspacedOfWord(s);
      ConcatCons(s, []);
    } else {
      var m := SpacePrefixLen(s[n..]);
      var w, sp, rest := s[..n], s[n..][..m], s[n + m..];
      assert s == w + sp + rest;
      SplitWsKeepsText(rest);
      UnspacedOfWordThenSpaces(w, sp, rest);
      ConcatCons(w, SplitWs(rest));
    }
  }

  /** `s.split(/\s+/)` of a trimmed, non-empty string has no empty piece. */
  lemma {:induction false} SplitWsOfTrimmed(s: string)
    requires s != [] && !IsSpace(s[0]) && !IsSpace(s[|s| - 1])
    ensures forall k :: 0 <= k < |SplitWs(s)| ==> SplitWs(s)[k] != []
    decreases |s|
  {
    var n := WordPrefixLen(s);
    if n < |s| {
      var m := SpacePrefixLen(s[n..]);
      var rest := s[n + m..];
      assert n + m < |s|;
      assert rest[|rest| - 1] == s[|s| - 1];
      SplitWsOfTrimmed(rest);
    }
  }

  // ---------------------------------------------------------------- digit runs

  /** Index of the first decimal digit of `s`, or |s|. */
  function FirstDigitIndex(s: string): (i: nat)
    ensures i <= |s|
    ensures forall k :: 0 <= k < i ==> !IsDigit(s[k])
    ensures i < |s| ==> IsDigit(s[i])
  {
    if s == [] || IsDigit(s[0]) then 0 else 1 + FirstDigitIndex(s[1..])
  }

  /** The match of `/(\d+)/` in `s`: its first maximal run of digits. */
  function FirstDigitRun(s: string): (r: Option<string>)
    ensures r.None? <==> forall k :: 0 <= k < |s| ==> !IsDigit(s[k])
    ensures r.Some? ==> r.value != [] && AllDigits(r.value)
    ensures r.Some? ==>
      var i := FirstDigitIndex(s);
      && i + |r.value| <= |s|
      && r.value == s[i..i + |r.value|]
      && (i + |r.value| == |s| || !IsDigit(s[i + |r.value|]))
  {
    var i := FirstDigitIndex(s);
    if i == |s| then None else Some(s[i..][..DigitPrefixLen(s[i..])])
  }
}
