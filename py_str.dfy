/** The Python (and JavaScript) string operations the scraper relies on,
    restricted to ASCII: `strip`, `split()`, `split(sep)`, `lower`, substring
    `in`, `isdigit`, `int` of a digit string, `' '.join`, `replace`, `endswith`. */
module PyStr {
  import opened Wrappers

  /** ASCII whitespace as `str.isspace` sees it: \t \n \v \f \r (9-13),
      the separators \x1c-\x1f (28-31) and the space (32). */
  predicate IsSpace(c: char) {
    9 <= c as int <= 13 || 28 <= c as int <= 32
  }

  predicate NoSpace(s: string) {
    forall i | 0 <= i < |s| :: !IsSpace(s[i])
  }

  predicate AllSpace(s: string) {
    forall i | 0 <= i < |s| :: IsSpace(s[i])
  }

  predicate IsDigit(c: char) {
    '0' <= c <= '9'
  }

  // ---------------------------------------------------------------- strip

  function LStrip(s: string): (r: string)
    ensures |r| <= |s| && r == s[|s| - |r|..]
    ensures AllSpace(s[..|s| - |r|])
    ensures r == [] || !IsSpace(r[0])
    decreases |s|
  {
    if s != [] && IsSpace(s[0]) then
      var r := LStrip(s[1..]);
      assert s[..|s| - |r|] == [s[0]] + s[1..][..|s| - 1 - |r|];
      r
    else s
  }

  function RStrip(s: string): (r: string)
    ensures |r| <= |s| && r == s[..|r|]
    ensures AllSpace(s[|r|..])
    ensures r == [] || !IsSpace(r[|r| - 1])
    decreases |s|
  {
    if s != [] && IsSpace(s[|s| - 1]) then
      var r := RStrip(s[..|s| - 1]);
      assert s[|r|..] == s[..|s| - 1][|r|..] + [s[|s| - 1]];
      r
    else s
  }

  /** `s.strip()`: the text without leading and trailing whitespace. */
  function Strip(s: string): (r: string)
    ensures |r| <= |s|
    ensures r == [] || (!IsSpace(r[0]) && !IsSpace(r[|r| - 1]))
    ensures r == [] <==> AllSpace(s)
  {
    var l := LStrip(s);
    var r := RStrip(l);
    assert r == [] ==> AllSpace(s) by {
      if r == [] {
        assert l[|r|..] == l;
        AllSpaceConcat(s[..|s| - |l|], l);
        assert s == s[..|s| - |l|] + l;
      }
    }
    assert AllSpace(s) ==> l == [] by {
      if l != [] { assert l[0] == s[|s| - |l|]; }
    }
    r
  }

  /** The stripped text is a slice of `s` with only white space cut on
      either side. */
  lemma StripSlice(s: string)
    ensures exists i, j | 0 <= i <= j <= |s| ::
      Strip(s) == s[i..j] && AllSpace(s[..i]) && AllSpace(s[j..])
  {
    var l := LStrip(s);
    var r := RStrip(l);
    var i := |s| - |l|;
    assert l == s[i..];
    assert s[i + |r|..] == l[|r|..];
    assert Strip(s) == s[i..i + |r|];
  }

  lemma AllSpaceConcat(a: string, b: string)
    requires AllSpace(a) && AllSpace(b)
    ensures AllSpace(a + b)
  {
    forall i | 0 <= i < |a + b| ensures IsSpace((a + b)[i]) {
      if i < |a| { assert (a + b)[i] == a[i]; } else { assert (a + b)[i] == b[i - |a|]; }
    }
  }

  /** Stripping a text that starts and ends with a non-space changes nothing. */
  lemma StripTrimmed(s: string)
    requires s == [] || (!IsSpace(s[0]) && !IsSpace(s[|s| - 1]))
    ensures Strip(s) == s
  {
    assert LStrip(s) == s;
    assert RStrip(s) == s;
  }

  lemma StripIdempotent(s: string)
    ensures Strip(Strip(s)) == Strip(s)
  {
    var t := Strip(s);
    assert t == [] || (!IsSpace(t[0]) && !IsSpace(t[|t| - 1]));
    StripTrimmed(t);
  }

  // ---------------------------------------------------------------- lower

  function LowerChar(c: char): char {
    if 'A' <= c <= 'Z' then (c as int + 32) as char else c
  }

  /** `s.lower()` on ASCII. */
  function Lower(s: string): (r: string)
    ensures |r| == |s|
  {
    seq(|s|, i requires 0 <= i < |s| => LowerChar(s[i]))
  }

  /** No capital letter is left, each capital becomes its small letter, and
      every other character stays. */
  lemma LowerSpec(s: string)
    ensures forall i | 0 <= i < |s| :: !('A' <= Lower(s)[i] <= 'Z')
    ensures forall i | 0 <= i < |s| :: 'A' <= s[i] <= 'Z' ==>
      Lower(s)[i] as int == s[i] as int - 'A' as int + 'a' as int
    ensures forall i | 0 <= i < |s| :: !('A' <= s[i] <= 'Z') ==> Lower(s)[i] == s[i]
  {
  }

  lemma LowerIdempotent(s: string)
    ensures Lower(Lower(s)) == Lower(s)
  {
  }

  // ------------------------------------------------------------ substring

  predicate OccursAt(s: string, sub: string, i: int) {
    0 <= i <= |s| - |sub| && s[i..i + |sub|] == sub
  }

  /** Python's `sub in s`. */
  predicate Contains(s: string, sub: string) {
    exists i | 0 <= i <= |s| - |sub| :: OccursAt(s, sub, i)
  }

  /** Python's `any(word in text for word in words)`. */
  predicate AnyIn(words: seq<string>, text: string) {
    exists i | 0 <= i < |words| :: Contains(text, words[i])
  }

  /** Every character of a contained text occurs in the containing text; the
      usual way to show that a keyword is absent. */
  lemma ContainsChar(s: string, sub: string, k: nat)
    requires Contains(s, sub) && k < |sub|
    ensures sub[k] in s
  {
    var i :| 0 <= i <= |s| - |sub| && OccursAt(s, sub, i);
    assert s[i..i + |sub|][k] == s[i + k];
  }

  lemma ContainsAt(s: string, sub: string, i: int)
    requires OccursAt(s, sub, i)
    ensures Contains(s, sub)
  {
  }

  /** A text contained in a middle part is contained in the whole. */
  lemma ContainsInfix(a: string, b: string, c: string, sub: string)
    requires Contains(b, sub)
    ensures Contains(a + b + c, sub)
  {
    var i :| 0 <= i <= |b| - |sub| && OccursAt(b, sub, i);
    var s := a + b + c;
    assert s[|a| + i..|a| + i + |sub|] == b[i..i + |sub|];
    assert OccursAt(s, sub, |a| + i);
  }

  // ------------------------------------------------------- split() on runs

  /** First index at or after `i` that holds whitespace, or |s|. */
  function TokenEnd(s: string, i: nat): (k: nat)
    requires i <= |s|
    ensures i <= k <= |s| && NoSpace(s[i..k]) && (k < |s| ==> IsSpace(s[k]))
    ensures i < |s| && !IsSpace(s[i]) ==> k > i
    decreases |s| - i
  {
    if i == |s| || IsSpace(s[i]) then i else TokenEnd(s, i + 1)
  }

  /** `s.split()`: the maximal runs of non-whitespace, in order. */
  function Split(s: string): (r: seq<string>)
    ensures Tokens(r)
    decreases |s|
  {
    var t := LStrip(s);
    if t == [] then []
    else
      var n := TokenEnd(t, 0);
      var first, rest := t[..n], Split(t[n..]);
      assert first == t[0..n];
      TokensCons(first, rest);
      [first] + rest
  }

  predicate Tokens(r: seq<string>) {
    forall k | 0 <= k < |r| :: r[k] != [] && NoSpace(r[k])
  }

  lemma TokensCons(first: string, rest: seq<string>)
    requires first != [] && NoSpace(first) && Tokens(rest)
    ensures Tokens([first] + rest)
  {
    var r := [first] + rest;
    forall k | 0 <= k < |r| ensures r[k] != [] && NoSpace(r[k]) {
      if k > 0 { assert r[k] == rest[k - 1]; }
    }
  }

  lemma SplitAllSpace(s: string)
    ensures Split(s) == [] <==> AllSpace(s)
  {
    var t := LStrip(s);
    assert s == s[..|s| - |t|] + t;
    if t != [] {
      assert t[0] == s[|s| - |t|];
    }
  }

  lemma LStripNoLeadingSpace(s: string)
    requires s == [] || !IsSpace(s[0])
    ensures LStrip(s) == s
  {
  }

  /** A leading whitespace character does not change the tokens. */
  lemma SplitSkipSpace(c: char, rest: string)
    requires IsSpace(c)
    ensures Split([c] + rest) == Split(rest)
  {
    assert ([c] + rest)[1..] == rest;
  }

  /** A single word followed by whitespace is the first token. */
  lemma SplitWord(w: string, c: char, rest: string)
    requires w != [] && NoSpace(w) && IsSpace(c)
    ensures Split(w + [c] + rest) == [w] + Split(rest)
  {
    var s := w + [c] + rest;
    LStripNoLeadingSpace(s);
    TokenEndWord(s, w, 0);
    assert s[..|w|] == w;
    assert s[|w|..] == [c] + rest;
    SplitSkipSpace(c, rest);
  }

  /** A single word on its own is its own only token. */
  lemma SplitLastWord(w: string)
    requires w != [] && NoSpace(w)
    ensures Split(w) == [w]
  {
    LStripNoLeadingSpace(w);
    TokenEndWord(w, w, 0);
    assert w[|w|..] == [];
  }

  lemma TokenEndWord(s: string, w: string, i: nat)
    requires i <= |w| <= |s| && s[..|w|] == w && NoSpace(w)
    requires |w| < |s| ==> IsSpace(s[|w|])
    ensures TokenEnd(s, i) == |w|
    decreases |w| - i
  {
    if i < |w| {
      assert s[i] == w[i];
      TokenEndWord(s, w, i + 1);
    }
  }

  /** `' '.join(ts)`. */
  function JoinSpace(ts: seq<string>): string {
    if |ts| == 0 then ""
    else if |ts| == 1 then ts[0]
    else ts[0] + " " + JoinSpace(ts[1..])
  }

  /** Splitting a space-joined list of words gives the words back. */
  lemma {:induction false} SplitJoinSpace(ts: seq<string>)
    requires Tokens(ts)
    ensures Split(JoinSpace(ts)) == ts
  {
    if |ts| == 1 {
      assert ts[0] != [] && NoSpace(ts[0]);
      SplitLastWord(ts[0]);
    } else if |ts| > 1 {
      var w, rest := ts[0], ts[1..];
      assert ts == [w] + rest;
      assert w != [] && NoSpace(w);
      assert Tokens(rest) by {
        forall k | 0 <= k < |rest| ensures rest[k] != [] && NoSpace(rest[k]) {
          assert rest[k] == ts[k + 1];
        }
      }
      SplitJoinSpace(rest);
      SplitJoinStep(ts);
    }
  }

  lemma SplitJoinStep(ts: seq<string>)
    requires |ts| > 1 && ts[0] != [] && NoSpace(ts[0])
    requires Split(JoinSpace(ts[1..])) == ts[1..]
    ensures Split(JoinSpace(ts)) == ts
  {
    var w, rest := ts[0], ts[1..];
    assert ts == [w] + rest;
    var j := JoinSpace(rest);
    assert JoinSpace(ts) == w + [' '] + j;
    SplitWord(w, ' ', j);
  }

  // ---------------------------------------------------- split(sep), join

  /** First index at or after `i` holding `c`, or |s|. */
  function IndexOf(s: string, c: char, i: nat): (k: nat)
    requires i <= |s|
    ensures i <= k <= |s| && c !in s[i..k] && (k < |s| ==> s[k] == c)
    decreases |s| - i
  {
    if i == |s| || s[i] == c then i
    else
      var k := IndexOf(s, c, i + 1);
      assert s[i..k] == [s[i]] + s[i + 1..k];
      k
  }

  /** `s.split(c)` for a one-character separator: always at least one piece. */
  function SplitOn(s: string, c: char): (r: seq<string>)
    ensures |r| >= 1
    ensures forall k | 0 <= k < |r| :: c !in r[k]
    decreases |s|
  {
    var k := IndexOf(s, c, 0);
    assert s[..k] == s[0..k];
    if k == |s| then [s] else [s[..k]] + SplitOn(s[k + 1..], c)
  }

  /** `c.join(ps)`. */
  function JoinOn(ps: seq<string>, c: char): string {
    if |ps| == 0 then ""
    else if |ps| == 1 then ps[0]
    else ps[0] + [c] + JoinOn(ps[1..], c)
  }

  /** Joining the pieces of a split with the same separator restores the text. */
  lemma {:induction false} JoinSplitOn(s: string, c: char)
    ensures JoinOn(SplitOn(s, c), c) == s
    decreases |s|
  {
    var k := IndexOf(s, c, 0);
    if k < |s| {
      JoinSplitOn(s[k + 1..], c);
      var ps := SplitOn(s, c);
      assert ps == [s[..k]] + SplitOn(s[k + 1..], c);
      assert ps[1..] == SplitOn(s[k + 1..], c);
      assert s == s[..k] + [c] + s[k + 1..];
    }
  }

  /** Splitting a joined list of separator-free pieces restores the pieces. */
  lemma {:induction false} SplitOnJoin(ps: seq<string>, c: char)
    requires |ps| >= 1
    requires forall k | 0 <= k < |ps| :: c !in ps[k]
    ensures SplitOn(JoinOn(ps, c), c) == ps
  {
    var s := JoinOn(ps, c);
    if |ps| == 1 {
      IndexOfAbsent(s, c, 0);
    } else {
      var p := ps[0];
      assert s == p + [c] + JoinOn(ps[1..], c);
      IndexOfFirst(s, p, c, 0);
      assert s[..|p|] == p;
      assert s[|p| + 1..] == JoinOn(ps[1..], c);
      SplitOnJoin(ps[1..], c);
      assert ps == [p] + ps[1..];
    }
  }

  /** The first piece of a split runs up to the first separator. */
  lemma SplitOnFirst(s: string, c: char)
    ensures SplitOn(s, c)[0] == s[..IndexOf(s, c, 0)]
  {
  }

  /** With a separator present there are at least two pieces, and the second
      runs from just after the first separator up to the next one. */
  lemma SplitOnSecond(s: string, c: char)
    requires c in s
    ensures var k := IndexOf(s, c, 0); var rest := s[k + 1..];
      |SplitOn(s, c)| >= 2 && k < |s| && SplitOn(s, c)[1] == rest[..IndexOf(rest, c, 0)]
  {
    var k := IndexOf(s, c, 0);
    assert s[0..|s|] == s;
    var rest := s[k + 1..];
    assert SplitOn(s, c) == [s[..k]] + SplitOn(rest, c);
    SplitOnFirst(rest, c);
  }

  lemma IndexOfAbsent(s: string, c: char, i: nat)
    requires i <= |s| && c !in s
    ensures IndexOf(s, c, i) == |s|
    decreases |s| - i
  {
    if i < |s| { IndexOfAbsent(s, c, i + 1); }
  }

  lemma IndexOfFirst(s: string, p: string, c: char, i: nat)
    requires i <= |p| < |s| && s[..|p|] == p && c !in p && s[|p|] == c
    ensures IndexOf(s, c, i) == |p|
    decreases |p| - i
  {
    if i < |p| {
      assert s[i] == p[i];
      IndexOfFirst(s, p, c, i + 1);
    }
  }

  // ------------------------------------------------------------- digits

  /** `s.isdigit()` on ASCII: non-empty and every character a decimal digit. */
  predicate IsDigits(s: string) {
    |s| > 0 && forall i | 0 <= i < |s| :: IsDigit(s[i])
  }

  function DigitValue(c: char): nat
    requires IsDigit(c)
  {
    c as int - '0' as int
  }

  /** `int(s)` for a string of decimal digits (leading zeros allowed). */
  function DigitsValue(s: string): nat
    requires forall i | 0 <= i < |s| :: IsDigit(s[i])
  {
    if s == [] then 0 else DigitsValue(s[..|s| - 1]) * 10 + DigitValue(s[|s| - 1])
  }

  /** `str(n)`: the decimal numeral of `n`, without leading zeros. */
  function Show(n: nat): (r: string)
    ensures IsDigits(r)
  {
    if n < 10 then [(n + '0' as int) as char] else Show(n / 10) + [(n % 10 + '0' as int) as char]
  }

  lemma {:induction false} ShowValue(n: nat)
    ensures DigitsValue(Show(n)) == n
  {
    var s := Show(n);
    if n >= 10 {
      ShowValue(n / 10);
      assert s[..|s| - 1] == Show(n / 10);
    }
  }

  /** Ten to the power `n`. */
  function Pow10(n: nat): (r: nat)
    ensures r >= 1
  {
    if n == 0 then 1 else 10 * Pow10(n - 1)
  }

  /** The value of two digit strings written one after the other. */
  lemma {:induction false} DigitsValueAppend(a: string, b: string)
    requires forall i | 0 <= i < |a| :: IsDigit(a[i])
    requires forall i | 0 <= i < |b| :: IsDigit(b[i])
    ensures DigitsValue(a + b) == DigitsValue(a) * Pow10(|b|) + DigitsValue(b)
  {
    if b == [] {
      assert a + b == a;
    } else {
      var init := b[..|b| - 1];
      assert (a + b)[..|a + b| - 1] == a + init;
      assert (a + b)[|a + b| - 1] == b[|b| - 1];
      DigitsValueAppend(a, init);
      var x, p, y, d := DigitsValue(a), Pow10(|init|), DigitsValue(init), DigitValue(b[|b| - 1]);
      assert DigitsValue(a + b) == DigitsValue(a + init) * 10 + d;
      assert DigitsValue(b) == y * 10 + d;
      assert Pow10(|b|) == 10 * p;
      Regroup(x, p, y, d);
    }
  }

  lemma Regroup(x: int, p: int, y: int, d: int)
    ensures (x * p + y) * 10 + d == x * (10 * p) + (y * 10 + d)
  {
  }

  /** Python's `''.join(filter(str.isdigit, s))`. */
  function DigitsOnly(s: string): (r: string)
    ensures forall i | 0 <= i < |r| :: IsDigit(r[i])
    ensures |r| <= |s|
  {
    if s == [] then ""
    else if IsDigit(s[0]) then [s[0]] + DigitsOnly(s[1..])
    else DigitsOnly(s[1..])
  }

  lemma {:induction false} DigitsOnlyOfDigits(s: string)
    requires forall i | 0 <= i < |s| :: IsDigit(s[i])
    ensures DigitsOnly(s) == s
  {
    if s != [] {
      DigitsOnlyOfDigits(s[1..]);
      assert s == [s[0]] + s[1..];
    }
  }

  lemma {:induction false} DigitsOnlyEmpty(s: string)
    ensures DigitsOnly(s) == [] <==> forall i | 0 <= i < |s| :: !IsDigit(s[i])
  {
    if s != [] {
      DigitsOnlyEmpty(s[1..]);
      assert forall i | 1 <= i < |s| :: s[i] == s[1..][i - 1];
    }
  }

  lemma {:induction false} DigitsOnlyAppend(a: string, b: string)
    ensures DigitsOnly(a + b) == DigitsOnly(a) + DigitsOnly(b)
  {
    if a != [] {
      assert (a + b)[1..] == a[1..] + b;
      DigitsOnlyAppend(a[1..], b);
    } else {
      assert a + b == b;
    }
  }

  // ------------------------------------------------------------ the rest

  /** `s.replace(a, b)` for single characters: every `a` becomes `b`. */
  function ReplaceChar(s: string, a: char, b: char): (r: string)
    ensures |r| == |s|
  {
    seq(|s|, i requires 0 <= i < |s| => if s[i] == a then b else s[i])
  }

  /** Replacing a character that does not occur changes nothing. */
  lemma ReplaceCharAbsent(s: string, a: char, b: char)
    requires a !in s
    ensures ReplaceChar(s, a, b) == s
  {
    var r := ReplaceChar(s, a, b);
    forall i | 0 <= i < |s| ensures r[i] == s[i] {
      assert s[i] != a;
    }
  }

  /** No `a` is left after the replacement, and a character other than `a`
      and `b` is in the result exactly when it is in `s`. */
  lemma ReplaceCharKeeps(s: string, a: char, b: char, c: char)
    requires c != a && c != b
    ensures a != b ==> a !in ReplaceChar(s, a, b)
    ensures c in ReplaceChar(s, a, b) <==> c in s
  {
    var r := ReplaceChar(s, a, b);
    if c in s {
      var i :| 0 <= i < |s| && s[i] == c;
      assert r[i] == c;
    }
    if c in r {
      var i :| 0 <= i < |r| && r[i] == c;
      assert s[i] == c;
    }
  }

  /** A string kept only when truthy (non-empty). */
  function NonEmpty(t: string): (r: Option<string>)
    ensures r.Some? <==> t != ""
    ensures r.Some? ==> r.value == t
  {
    if t == "" then None else Some(t)
  }

  /** Python's `s.endswith(suffix)`. */
  predicate EndsWith(s: string, suffix: string) {
    |suffix| <= |s| && s[|s| - |suffix|..] == suffix
  }
}
