/** String operations of JavaScript and Python that the modelled code uses:
    `trim`/`strip`, `split`/`join`, `replace`, `includes`, `toLowerCase`
    and the decimal rendering of a status code. */
module Text {

  /** White space removed by JavaScript's `String.prototype.trim`:
      the WhiteSpace and LineTerminator characters of ECMA-262. */
  predicate IsJsSpace(c: char)
  {
    c == '\t' || c == '\n' || c == '\U{B}' || c == '\U{C}' || c == '\r' || c == ' '
    || c == '\U{A0}' || c == '\U{1680}' || ('\U{2000}' <= c <= '\U{200A}')
    || c == '\U{2028}' || c == '\U{2029}' || c == '\U{202F}' || c == '\U{205F}'
    || c == '\U{3000}' || c == '\U{FEFF}'
  }

  /** White space removed by Python's `str.strip()` with no argument
      (the characters for which `str.isspace()` holds). */
  predicate IsPySpace(c: char)
  {
    c == '\t' || c == '\n' || c == '\U{B}' || c == '\U{C}' || c == '\r'
    || ('\U{1C}' <= c <= '\U{1F}') || c == ' ' || c == '\U{85}' || c == '\U{A0}'
    || c == '\U{1680}' || ('\U{2000}' <= c <= '\U{200A}') || c == '\U{2028}'
    || c == '\U{2029}' || c == '\U{202F}' || c == '\U{205F}' || c == '\U{3000}'
  }

  /** The first index at or after `i` that holds a non-space, or `|s|`. */
  function SkipSpace(s: string, ws: char -> bool, i: nat): (k: nat)
    requires i <= |s|
    ensures i <= k <= |s|
    ensures forall j :: i <= j < k ==> ws(s[j])
    ensures k == |s| || !ws(s[k])
    decreases |s| - i
  {
    if i < |s| && ws(s[i]) then SkipSpace(s, ws, i + 1) else i
  }

  /** Walking back from `j`, never below `lo`: the index just after the
      last non-space before `j`, or `lo`. */
  function BackSpace(s: string, ws: char -> bool, lo: nat, j: nat): (k: nat)
    requires lo <= j <= |s|
    ensures lo <= k <= j
    ensures forall m :: k <= m < j ==> ws(s[m])
    ensures k == lo || !ws(s[k - 1])
    decreases j
  {
    if lo < j && ws(s[j - 1]) then BackSpace(s, ws, lo, j - 1) else j
  }

  /** `s` without leading and trailing characters that satisfy `ws`: it
      starts and ends with a non-space, and is empty exactly when all of
      `s` is space (see also `StripIsSlice`). */
  function Strip(s: string, ws: char -> bool): (r: string)
    ensures r == [] || (!ws(r[0]) && !ws(r[|r| - 1]))
    ensures r == [] <==> forall i :: 0 <= i < |s| ==> ws(s[i])
  {
    var a := SkipSpace(s, ws, 0);
    s[a..BackSpace(s, ws, a, |s|)]
  }

  /** What `Strip` keeps is a slice of its input, so it holds only
      characters of the input. */
  lemma StripIsSlice(s: string, ws: char -> bool)
    ensures exists k, m :: 0 <= k <= m <= |s| && Strip(s, ws) == s[k..m]
    ensures forall c :: c in Strip(s, ws) ==> c in s
  {
    var a := SkipSpace(s, ws, 0);
    var b := BackSpace(s, ws, a, |s|);
    var r := Strip(s, ws);
    assert 0 <= a <= b <= |s| && r == s[a..b];
    forall c | c in r ensures c in s {
      var i :| 0 <= i < |r| && r[i] == c;
      assert s[a + i] == c;
    }
  }

  /** Stripping a text padded with space on both sides gives the text,
      when it starts and ends with a non-space. */
  lemma StripPadded(a: string, core: string, b: string, ws: char -> bool)
    requires forall i :: 0 <= i < |a| ==> ws(a[i])
    requires forall i :: 0 <= i < |b| ==> ws(b[i])
    requires core != [] && !ws(core[0]) && !ws(core[|core| - 1])
    ensures Strip(a + core + b, ws) == core
  {
    var s := a + core + b;
    var i := SkipSpace(s, ws, 0);
    assert s[|a|] == core[0];
    assert i == |a|;
    var e := |a| + |core|;
    var j := BackSpace(s, ws, i, |s|);
    assert s[e - 1] == core[|core| - 1];
    forall m | e <= m < |s| ensures ws(s[m]) {
      assert s[m] == b[m - e];
    }
    assert j == e;
    assert s[i..j] == core;
  }

  /** JavaScript's `s.trim()`. */
  function JsTrim(s: string): string
  {
    Strip(s, IsJsSpace)
  }

  /** A text that `trim()` empties: white space only, or nothing. */
  predicate IsBlank(s: string)
  {
    forall i :: 0 <= i < |s| ==> IsJsSpace(s[i])
  }

  /** `s.trim()` is empty exactly when `s` is blank. */
  lemma TrimEmptyIffBlank(s: string)
    ensures JsTrim(s) == "" <==> IsBlank(s)
  {
  }

  /** Python's `s.strip()`. */
  function PyStrip(s: string): string
  {
    Strip(s, IsPySpace)
  }

  /** `s` begins with `p`. */
  predicate StartsWith(s: string, p: string)
  {
    |p| <= |s| && s[..|p|] == p
  }

  /** `sub` occurs in `s` (JavaScript `includes`, Python `in`). */
  predicate Contains(s: string, sub: string)
    decreases |s|
  {
    StartsWith(s, sub) || (|s| > 0 && Contains(s[1..], sub))
  }

  function LowerChar(c: char): char
  {
    if 'A' <= c <= 'Z' then (c as int + 32) as char else c
  }

  /** `s.toLowerCase()` on the ASCII letters. */
  function ToLower(s: string): (r: string)
    ensures |r| == |s|
    ensures forall i :: 0 <= i < |s| ==> r[i] == LowerChar(s[i])
  {
    seq(|s|, i requires 0 <= i < |s| => LowerChar(s[i]))
  }

  /** Python's `sep.join(parts)`. */
  function Join(parts: seq<string>, sep: string): string
  {
    if |parts| == 0 then ""
    else if |parts| == 1 then parts[0]
    else parts[0] + sep + Join(parts[1..], sep)
  }

  /** Python's `s.split(c)` for a one-character separator: the maximal
      pieces between occurrences of `c`; there is one more piece than
      there are occurrences, so at least two exactly when `c` occurs. */
  function Split(s: string, c: char): (r: seq<string>)
    ensures |r| >= 1
    ensures |r| >= 2 <==> c in s
    ensures forall i :: 0 <= i < |r| ==> c !in r[i]
  {
    if |s| == 0 then [""]
    else if s[0] == c then [""] + Split(s[1..], c)
    else
      var rest := Split(s[1..], c);
      [[s[0]] + rest[0]] + rest[1..]
  }

  /** The part of `s` before its first `c`, or all of `s`. */
  function TakeUntil(s: string, c: char): (r: string)
    ensures c !in r
    ensures |r| <= |s| && r == s[..|r|]
    ensures |r| == |s| || s[|r|] == c
  {
    if |s| == 0 || s[0] == c then "" else [s[0]] + TakeUntil(s[1..], c)
  }

  /** The part of `s` after its first `c`. */
  function AfterFirst(s: string, c: char): (r: string)
    requires c in s
    ensures |TakeUntil(s, c)| < |s| && r == s[|TakeUntil(s, c)| + 1..]
  {
    if s[0] == c then s[1..] else AfterFirst(s[1..], c)
  }

  /** Python's `s.replace(pat, rep)`: every occurrence of `pat`, found from
      left to right without overlap, replaced by `rep`. */
  function ReplaceAll(s: string, pat: string, rep: string): string
    requires |pat| > 0
    decreases |s|
  {
    if |s| < |pat| then s
    else if s[..|pat|] == pat then rep + ReplaceAll(s[|pat|..], pat, rep)
    else [s[0]] + ReplaceAll(s[1..], pat, rep)
  }

  /** The decimal digits of `n`, as template literals render a status. */
  function NatToString(n: nat): (r: string)
    ensures |r| >= 1
    ensures forall i :: 0 <= i < |r| ==> '0' <= r[i] <= '9'
  {
    var d := ['0' + (n % 10) as char];
    if n < 10 then d else NatToString(n / 10) + d
  }

  /** The number a string of decimal digits denotes. */
  function DecimalValue(s: string): (v: nat)
    requires forall i :: 0 <= i < |s| ==> '0' <= s[i] <= '9'
    ensures s == [] ==> v == 0
  {
    if s == [] then 0 else 10 * DecimalValue(s[..|s| - 1]) + (s[|s| - 1] - '0') as nat
  }

  /** The digits printed for `n` read back as `n`, without leading zeros. */
  lemma {:induction false} NatToStringReadsBack(n: nat)
    ensures DecimalValue(NatToString(n)) == n
    ensures NatToString(n)[0] == '0' ==> n == 0
  {
    var r := NatToString(n);
    if n >= 10 {
      NatToStringReadsBack(n / 10);
      assert r[..|r| - 1] == NatToString(n / 10);
      assert r[0] == NatToString(n / 10)[0];
    }
  }

  /** The first piece of a split is the text before the first separator,
      and the remaining pieces are the split of the text after it. */
  lemma {:induction false} SplitFirst(s: string, c: char)
    ensures Split(s, c)[0] == TakeUntil(s, c)
    ensures c in s ==> Split(s, c)[1..] == Split(AfterFirst(s, c), c)
  {
    if |s| > 0 && s[0] != c {
      SplitFirst(s[1..], c);
    }
  }

  /** Joining the pieces of a split with the separator gives back the
      original text. */
  lemma {:induction false} SplitThenJoin(s: string, c: char)
    ensures Join(Split(s, c), [c]) == s
  {
    if |s| == 0 {
    } else if s[0] == c {
      SplitThenJoin(s[1..], c);
    } else {
      var rest := Split(s[1..], c);
      SplitThenJoin(s[1..], c);
      if |rest| == 1 {
      } else {
        assert Join(rest, [c]) == rest[0] + [c] + Join(rest[1..], [c]);
        assert [[s[0]] + rest[0]] + rest[1..] == [[s[0]] + rest[0]] + rest[1..];
        calc {
          Join(Split(s, c), [c]);
          ([s[0]] + rest[0]) + [c] + Join(rest[1..], [c]);
          [s[0]] + (rest[0] + [c] + Join(rest[1..], [c]));
          [s[0]] + s[1..];
        }
      }
    }
  }

  /** Splitting on a separator absent from `a` keeps `a` as the first piece. */
  lemma {:induction false} SplitAfterPiece(a: string, c: char, b: string)
    requires c !in a
    ensures Split(a + [c] + b, c) == [a] + Split(b, c)
  {
    if |a| == 0 {
      assert a + [c] + b == [c] + b;
      assert ([c] + b)[1..] == b;
    } else {
      assert (a + [c] + b)[1..] == a[1..] + [c] + b;
      SplitAfterPiece(a[1..], c, b);
      assert [a[0]] + a[1..] == a;
    }
  }

  /** Splitting the join of separator-free pieces gives back the pieces. */
  lemma {:induction false} JoinThenSplit(parts: seq<string>, c: char)
    requires |parts| >= 1
    requires forall i :: 0 <= i < |parts| ==> c !in parts[i]
    ensures Split(Join(parts, [c]), c) == parts
  {
    if |parts| > 1 {
      JoinThenSplit(parts[1..], c);
      SplitAfterPiece(parts[0], c, Join(parts[1..], [c]));
    } else {
      SplitNoSeparator(parts[0], c);
    }
  }

  /** A text without the separator splits into itself. */
  lemma {:induction false} SplitNoSeparator(s: string, c: char)
    requires c !in s
    ensures Split(s, c) == [s]
  {
    if |s| > 0 {
      assert s[0] != c && c !in s[1..];
      SplitNoSeparator(s[1..], c);
      assert [s[0]] + s[1..] == s;
    }
  }

  /** Joining two non-empty lists of parts is joining each and putting
      the separator between them. */
  lemma {:induction false} JoinAppend(a: seq<string>, b: seq<string>, sep: string)
    requires |a| >= 1 && |b| >= 1
    ensures Join(a + b, sep) == Join(a, sep) + sep + Join(b, sep)
  {
    if |a| == 1 {
      assert (a + b)[1..] == b;
    } else {
      assert (a + b)[1..] == a[1..] + b;
      JoinAppend(a[1..], b, sep);
    }
  }

  /** Lower-casing twice is lower-casing once. */
  lemma ToLowerIdempotent(s: string)
    ensures ToLower(ToLower(s)) == ToLower(s)
  {
  }
}
