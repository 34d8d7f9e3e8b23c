/**
  The Python string built-ins the core relies on, over `string` (= `seq<char>`):
  `split(c)[0]`, `split()` on whitespace, `strip()`, `str(n)` for a natural number, and the
  case-insensitive `icontains` lookup of the ORM. `AfterLast` takes apart the strings the
  account helpers join. Case folding and whitespace are the ASCII ones.
*/
module Text {

  /** The ASCII characters for which Python's `str.isspace` holds. */
  predicate IsSpace(c: char) {
    c == ' ' || 9 <= c as int <= 13 || 28 <= c as int <= 31
  }

  /** No character of `s` is whitespace. */
  predicate NoSpace(s: string) {
    forall i :: 0 <= i < |s| ==> !IsSpace(s[i])
  }

  /** Every character of `s` is whitespace. */
  predicate AllSpace(s: string) {
    forall i :: 0 <= i < |s| ==> IsSpace(s[i])
  }

  predicate IsDigit(c: char) {
    '0' <= c <= '9'
  }

  predicate AllDigits(s: string) {
    forall i :: 0 <= i < |s| ==> IsDigit(s[i])
  }

  // ---------------------------------------------------------------------------
  // Case-insensitive containment (the ORM's `__icontains`)
  // ---------------------------------------------------------------------------

  function LowerChar(c: char): char {
    if 'A' <= c <= 'Z' then (c as int - 'A' as int + 'a' as int) as char else c
  }

  function Lower(s: string): string {
    seq(|s|, i requires 0 <= i < |s| => LowerChar(s[i]))
  }

  /** `t` occurs in `s` as a contiguous block. */
  predicate Contains(s: string, t: string)
    decreases |s|
  {
    t <= s || (s != [] && Contains(s[1..], t))
  }

  /** `s` contains `t` once both are folded to lower case. */
  predicate IContains(s: string, t: string) {
    Contains(Lower(s), Lower(t))
  }

  // ---------------------------------------------------------------------------
  // Splitting at a separator
  // ---------------------------------------------------------------------------

  /** Python's `s.split(c)[0]`: the part of `s` before the first `c`, or all of `s`. */
  function PrefixBefore(s: string, c: char): (r: string)
    ensures r <= s && c !in r
    ensures |r| < |s| ==> s[|r|] == c
  {
    if s == [] || s[0] == c then [] else [s[0]] + PrefixBefore(s[1..], c)
  }

  /** The part of `s` after the last `c`, or all of `s` when it holds no `c`. */
  function AfterLast(s: string, c: char): (r: string)
    ensures |r| <= |s| && r == s[|s| - |r|..] && c !in r
    ensures |r| < |s| ==> s[|s| - |r| - 1] == c
  {
    if s == [] || s[|s| - 1] == c then [] else AfterLast(s[..|s| - 1], c) + [s[|s| - 1]]
  }

  /** Splitting `a + [c] + b` at its first `c` gives back `a` when `a` holds no `c`. */
  lemma {:induction false} PrefixBeforeJoin(a: string, c: char, b: string)
    requires c !in a
    ensures PrefixBefore(a + [c] + b, c) == a
  {
    if a != [] {
      assert (a + [c] + b)[1..] == a[1..] + [c] + b;
      PrefixBeforeJoin(a[1..], c, b);
    }
  }

  /** Splitting `a + [c] + b` at its last `c` gives back `b` when `b` holds no `c`. */
  lemma {:induction false} AfterLastJoin(a: string, c: char, b: string)
    requires c !in b
    ensures AfterLast(a + [c] + b, c) == b
  {
    var s := a + [c] + b;
    if b != [] {
      assert s[..|s| - 1] == a + [c] + b[..|b| - 1];
      AfterLastJoin(a, c, b[..|b| - 1]);
      assert b == b[..|b| - 1] + [b[|b| - 1]];
    }
  }

  // ---------------------------------------------------------------------------
  // Whitespace: `strip()` and `split()`
  // ---------------------------------------------------------------------------

  /** `s` with its leading whitespace removed (Python's `lstrip()`). */
  function TrimLeft(s: string): (r: string)
    ensures |r| <= |s| && r == s[|s| - |r|..]
    ensures r == [] || !IsSpace(r[0])
    ensures forall i :: 0 <= i < |s| - |r| ==> IsSpace(s[i])
  {
    if s != [] && IsSpace(s[0]) then TrimLeft(s[1..]) else s
  }

  /** `s` with its trailing whitespace removed (Python's `rstrip()`). */
  function TrimRight(s: string): (r: string)
    ensures r <= s
    ensures r == [] || !IsSpace(r[|r| - 1])
    ensures forall i :: |r| <= i < |s| ==> IsSpace(s[i])
  {
    if s != [] && IsSpace(s[|s| - 1]) then TrimRight(s[..|s| - 1]) else s
  }

  /** Python's `strip()`. */
  function Strip(s: string): string {
    TrimRight(TrimLeft(s))
  }

  /** `strip()` leaves nothing exactly when every character is whitespace. */
  lemma StripEmptyIffAllSpace(s: string)
    ensures Strip(s) == [] <==> AllSpace(s)
  {
    var t := TrimLeft(s);
    assert t != [] ==> TrimRight(t) != [] by {
      if t != [] {
        assert !IsSpace(t[0]);
      }
    }
    assert t != [] ==> !IsSpace(s[|s| - |t|]);
  }

  /** The longest prefix of `s` holding no whitespace. */
  function TakeWord(s: string): (w: string)
    ensures w <= s && NoSpace(w)
    ensures |w| < |s| ==> IsSpace(s[|w|])
  {
    if s == [] || IsSpace(s[0]) then [] else [s[0]] + TakeWord(s[1..])
  }

  /** Python's `s.split()`: the maximal runs of non-whitespace characters, in order. */
  function Words(s: string): (ws: seq<string>)
    ensures forall k :: 0 <= k < |ws| ==> ws[k] != [] && NoSpace(ws[k])
    decreases |s|
  {
    var t := TrimLeft(s);
    if t == [] then []
    else
      var w := TakeWord(t);
      assert w != [] by { assert |w| < |t| ==> IsSpace(t[|w|]); }
      assert |t[|w|..]| < |s|;
      [w] + Words(t[|w|..])
  }

  /** A run of non-whitespace followed by whitespace (or nothing) is the word `TakeWord` takes. */
  lemma {:induction false} TakeWordJoin(a: string, rest: string)
    requires NoSpace(a)
    requires rest == [] || IsSpace(rest[0])
    ensures TakeWord(a + rest) == a
  {
    if a != [] {
      assert !IsSpace(a[0]);
      assert (a + rest)[1..] == a[1..] + rest;
      TakeWordJoin(a[1..], rest);
    } else {
      assert a + rest == rest;
    }
  }

  /** A string that starts with a word is that word followed by the words of the rest. */
  lemma WordsUnfold(s: string)
    requires s != [] && !IsSpace(s[0])
    ensures Words(s) == [TakeWord(s)] + Words(s[|TakeWord(s)|..])
  {
    assert TrimLeft(s) == s;
  }

  /** One non-empty run of non-whitespace is one word. */
  lemma WordsOfOne(b: string)
    requires b != [] && NoSpace(b)
    ensures Words(b) == [b]
  {
    assert !IsSpace(b[0]);
    TakeWordJoin(b, []);
    assert b + [] == b;
    WordsUnfold(b);
    assert b[|b|..] == [];
  }

  /** `split()` ignores leading whitespace. */
  lemma WordsSameTrim(x: string, y: string)
    requires TrimLeft(x) == TrimLeft(y)
    ensures Words(x) == Words(y)
  {
  }

  /** A word, a space and more text: the word, then the words of the space and the rest. */
  lemma WordsAfterWord(a: string, b: string)
    requires a != [] && NoSpace(a)
    ensures Words(a + " " + b) == [a] + Words(" " + b)
  {
    var rest := " " + b;
    var s := a + rest;
    assert a + " " + b == s;
    assert s[0] == a[0];
    TakeWordJoin(a, rest);
    WordsUnfold(s);
    assert s[|a|..] == rest;
  }

  /** Leading whitespace is dropped by `lstrip()`. */
  lemma TrimLeftSpace(c: char, b: string)
    requires IsSpace(c)
    ensures TrimLeft([c] + b) == TrimLeft(b)
  {
    assert ([c] + b)[1..] == b;
  }

  /** A space before one non-empty run of non-whitespace does not change its words. */
  lemma WordsAfterSpace(b: string)
    requires b != [] && NoSpace(b)
    ensures Words(" " + b) == [b]
  {
    TrimLeftSpace(' ', b);
    WordsSameTrim(" " + b, b);
    WordsOfOne(b);
  }

  /** Two non-empty runs of non-whitespace joined by one space split back into those two runs. */
  lemma WordsOfTwo(a: string, b: string)
    requires a != [] && b != [] && NoSpace(a) && NoSpace(b)
    ensures Words(a + " " + b) == [a, b]
  {
    WordsAfterWord(a, b);
    WordsAfterSpace(b);
  }

  // ---------------------------------------------------------------------------
  // Decimal numerals: `str(n)` and its inverse
  // ---------------------------------------------------------------------------

  function DigitChar(d: nat): (c: char)
    requires d < 10
    ensures IsDigit(c)
  {
    ('0' as int + d) as char
  }

  function DigitValue(c: char): nat
    requires IsDigit(c)
  {
    c as int - '0' as int
  }

  /** Python's `str(n)` for a natural number: its decimal numeral. */
  function NatToString(n: nat): (s: string)
    ensures s != [] && AllDigits(s)
  {
    if n < 10 then [DigitChar(n)] else NatToString(n / 10) + [DigitChar(n % 10)]
  }

  /** The value of a decimal numeral (Python's `int(s)` on digits only). */
  function ParseDigits(s: string): nat
    requires AllDigits(s)
  {
    if s == [] then 0 else ParseDigits(s[..|s| - 1]) * 10 + DigitValue(s[|s| - 1])
  }

  /** Reading back the numeral of `n` gives `n`. */
  lemma {:induction false} ParseNatToString(n: nat)
    ensures ParseDigits(NatToString(n)) == n
  {
    var s := NatToString(n);
    if n < 10 {
      assert s[..|s| - 1] == [];
    } else {
      ParseNatToString(n / 10);
      assert s[..|s| - 1] == NatToString(n / 10);
    }
  }
}
