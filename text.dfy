/** Text helpers shared by the command serialisers: Python's rendering of
    an `int` inside an f-string, `sep.join(...)` and `s.split(sep)` for a
    one-character separator, and ASCII `str.lower()`. Each renderer comes
    with the inverse that reads its output back. */
module Text {

  predicate IsDigit(c: char) { '0' <= c <= '9' }

  function DigitChar(d: nat): (c: char)
    requires d < 10
    ensures IsDigit(c)
  {
    ('0' as int + d) as char
  }

  function DigitValue(c: char): nat
  {
    if IsDigit(c) then c as int - '0' as int else 0
  }

  /** The decimal digits of `n`, most significant first, without leading zeros. */
  function NatText(n: nat): (s: string)
    ensures |s| > 0
    ensures forall i | 0 <= i < |s| :: IsDigit(s[i])
    decreases n
  {
    if n < 10 then [DigitChar(n)] else NatText(n / 10) + [DigitChar(n % 10)]
  }

  /** Reads decimal digits back into a number. */
  function ParseNat(s: string): nat
    decreases |s|
  {
    if s == [] then 0 else 10 * ParseNat(s[..|s| - 1]) + DigitValue(s[|s| - 1])
  }

  lemma {:induction false} ParseNatText(n: nat)
    ensures ParseNat(NatText(n)) == n
    decreases n
  {
    if n < 10 {
      assert DigitValue(DigitChar(n)) == n;
    } else {
      var s := NatText(n);
      assert s[..|s| - 1] == NatText(n / 10);
      assert DigitValue(s[|s| - 1]) == n % 10;
      ParseNatText(n / 10);
    }
  }

  /** How Python writes an `int` in an f-string: a '-' for negative values,
      then the decimal digits of the magnitude. */
  function IntText(i: int): (s: string)
    ensures |s| > 0
    ensures forall k | 0 <= k < |s| :: IsDigit(s[k]) || (k == 0 && s[k] == '-')
  {
    if i < 0 then "-" + NatText(-i) else NatText(i)
  }

  function ParseInt(s: string): int
  {
    if |s| > 0 && s[0] == '-' then -(ParseNat(s[1..]) as int) else ParseNat(s)
  }

  /** Every integer can be read back from its text, so distinct integers
      never produce the same command text. */
  lemma IntTextRoundTrip(i: int)
    ensures ParseInt(IntText(i)) == i
  {
    if i < 0 {
      assert IntText(i)[1..] == NatText(-i);
      ParseNatText(-i);
    } else {
      ParseNatText(i);
    }
  }

  lemma IntTextInjective(i: int, j: int)
    ensures IntText(i) == IntText(j) <==> i == j
  {
    IntTextRoundTrip(i);
    IntTextRoundTrip(j);
  }

  /** `s` does not contain `c`. */
  predicate Free(s: string, c: char)
  {
    forall j | 0 <= j < |s| :: s[j] != c
  }

  /** Text that can stand unquoted in a command: no blank and no double quote. */
  predicate Bare(s: string)
  {
    Free(s, ' ') && Free(s, '"')
  }

  /** A float request parameter, carried as the text Python's `str()` gives
      for it ("5.0", "0.0", "1e-05", "inf"), which never holds a blank or a
      double quote. */
  type FloatText = s: string | Bare(s) witness "0.0"

  lemma IntTextBare(i: int)
    ensures Bare(IntText(i)) && Free(IntText(i), '\n') && Free(IntText(i), '=')
  {
  }

  /** The position of the first `c` in `s`, or |s| when there is none. */
  function IndexOf(s: string, c: char): (r: nat)
    ensures r <= |s|
    ensures r < |s| ==> s[r] == c
    ensures Free(s[..r], c)
  {
    if s == [] then 0
    else if s[0] == c then 0
    else
      var r := 1 + IndexOf(s[1..], c);
      assert s[..r] == [s[0]] + s[1..][..r - 1];
      r
  }

  /** The first `c` in `a + b` is where `b` starts, when `a` has none and `b`
      starts with one (or is empty). */
  lemma IndexOfAt(a: string, b: string, c: char)
    requires Free(a, c)
    requires b == [] || b[0] == c
    ensures IndexOf(a + b, c) == |a|
  {
    var s := a + b;
    assert s[..|a|] == a;
    assert |a| < |s| ==> s[|a|] == c;
  }

  /** Python's `sep.join(parts)`. */
  function Join(parts: seq<string>, sep: char): string
  {
    if |parts| == 0 then ""
    else if |parts| == 1 then parts[0]
    else parts[0] + [sep] + Join(parts[1..], sep)
  }

  lemma JoinCons(head: string, tail: seq<string>, sep: char)
    requires |tail| > 0
    ensures Join([head] + tail, sep) == head + [sep] + Join(tail, sep)
  {
    assert ([head] + tail)[1..] == tail;
  }

  /** A separator-free first word splits off on its own. */
  lemma SplitCons(a: string, rest: string, sep: char)
    requires Free(a, sep)
    ensures Split(a + [sep] + rest, sep) == [a] + Split(rest, sep)
  {
    var s := a + [sep] + rest;
    assert s == a + ([sep] + rest);
    IndexOfAt(a, [sep] + rest, sep);
    assert s[..|a|] == a;
    assert s[|a| + 1..] == rest;
  }

  /** A separator-free word is a line of one word. */
  lemma SplitOne(a: string, sep: char)
    requires Free(a, sep)
    ensures Split(a, sep) == [a]
  {
    assert a + [] == a;
    IndexOfAt(a, [], sep);
  }

  /** Splitting a line of two, three or four separator-free words. */
  lemma SplitTwo(a: string, b: string, sep: char)
    requires Free(a, sep) && Free(b, sep)
    ensures Split(a + [sep] + b, sep) == [a, b]
  {
    SplitCons(a, b, sep);
    SplitOne(b, sep);
  }

  lemma SplitThree(a: string, b: string, c: string, sep: char)
    requires Free(a, sep) && Free(b, sep) && Free(c, sep)
    ensures Split(a + [sep] + (b + [sep] + c), sep) == [a, b, c]
  {
    SplitCons(a, b + [sep] + c, sep);
    SplitTwo(b, c, sep);
  }

  lemma SplitFour(a: string, b: string, c: string, d: string, sep: char)
    requires Free(a, sep) && Free(b, sep) && Free(c, sep) && Free(d, sep)
    ensures Split(a + [sep] + (b + [sep] + (c + [sep] + d)), sep) == [a, b, c, d]
  {
    SplitCons(a, b + [sep] + (c + [sep] + d), sep);
    SplitThree(b, c, d, sep);
  }

  /** Python's `s.split(sep)`: never empty, and "" splits into [""]. */
  function Split(s: string, sep: char): (parts: seq<string>)
    ensures |parts| > 0
    decreases |s|
  {
    var i := IndexOf(s, sep);
    if i == |s| then [s] else [s[..i]] + Split(s[i + 1..], sep)
  }

  /** Splitting undoes joining, for a non-empty list of parts that do not
      contain the separator. */
  lemma {:induction false} SplitJoin(parts: seq<string>, sep: char)
    requires |parts| > 0
    requires forall k | 0 <= k < |parts| :: Free(parts[k], sep)
    ensures Split(Join(parts, sep), sep) == parts
    decreases |parts|
  {
    if |parts| == 1 {
      assert parts[0] + [] == parts[0];
      IndexOfAt(parts[0], [], sep);
    } else {
      var rest := Join(parts[1..], sep);
      var s := parts[0] + ([sep] + rest);
      assert Join(parts, sep) == s;
      IndexOfAt(parts[0], [sep] + rest, sep);
      assert s[..|parts[0]|] == parts[0];
      assert s[|parts[0]| + 1..] == rest;
      SplitJoin(parts[1..], sep);
    }
  }

  function LowerChar(c: char): char
  {
    if 'A' <= c <= 'Z' then (c as int - 'A' as int + 'a' as int) as char else c
  }

  /** Python's `str.lower()` restricted to ASCII letters. */
  function Lower(s: string): (r: string)
    ensures |r| == |s|
    ensures forall i | 0 <= i < |s| :: r[i] == LowerChar(s[i])
  {
    if s == [] then [] else [LowerChar(s[0])] + Lower(s[1..])
  }
}
