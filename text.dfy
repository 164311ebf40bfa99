/**
 * String primitives of JavaScript and Python that the modelled code relies on:
 * `trim`, `strip`/`lstrip`, `split('\n')`, `str.split()`, `join`, `replace`,
 * `lower`/`toLowerCase`, `find`/`rfind`, `startsWith` and `str(int)`.
 */
module Text {

  /** The characters JavaScript's `String.prototype.trim` removes (WhiteSpace and LineTerminator). */
  const JsWhitespace: set<char> := {
    '\t', '\n', '\U{000B}', '\U{000C}', '\r', ' ', '\U{00A0}', '\U{1680}',
    '\U{2000}', '\U{2001}', '\U{2002}', '\U{2003}', '\U{2004}', '\U{2005}',
    '\U{2006}', '\U{2007}', '\U{2008}', '\U{2009}', '\U{200A}',
    '\U{2028}', '\U{2029}', '\U{202F}', '\U{205F}', '\U{3000}', '\U{FEFF}'
  }

  /** The characters for which Python's `str.isspace` holds; `strip()` and `split()` use them. */
  const PyWhitespace: set<char> := {
    '\t', '\n', '\U{000B}', '\U{000C}', '\r', '\U{001C}', '\U{001D}', '\U{001E}',
    '\U{001F}', ' ', '\U{0085}', '\U{00A0}', '\U{1680}',
    '\U{2000}', '\U{2001}', '\U{2002}', '\U{2003}', '\U{2004}', '\U{2005}',
    '\U{2006}', '\U{2007}', '\U{2008}', '\U{2009}', '\U{200A}',
    '\U{2028}', '\U{2029}', '\U{202F}', '\U{205F}', '\U{3000}'
  }

  predicate StartsWith(s: string, prefix: string) {
    |prefix| <= |s| && s[..|prefix|] == prefix
  }

  /** `sub` occurs in `s` starting at index `i`. */
  predicate OccursAt(s: string, sub: string, i: int) {
    0 <= i <= |s| - |sub| && s[i..i + |sub|] == sub
  }

  predicate HasSubstring(s: string, sub: string) {
    exists i | 0 <= i <= |s| - |sub| :: OccursAt(s, sub, i)
  }

  /** Every character of `s` belongs to `cs`. */
  predicate AllIn(s: string, cs: set<char>) {
    forall i | 0 <= i < |s| :: s[i] in cs
  }

  /** `s` without its longest prefix of characters from `cs` (Python's `lstrip(chars)`). */
  function TrimLeft(s: string, cs: set<char>): (r: string)
    ensures |r| <= |s| && r == s[|s| - |r|..]
    ensures r == [] || r[0] !in cs
  {
    if s == [] || s[0] !in cs then s else TrimLeft(s[1..], cs)
  }

  /** What `TrimLeft` removes is all from `cs`. */
  lemma {:induction false} TrimLeftRemoved(s: string, cs: set<char>)
    ensures AllIn(s[..|s| - |TrimLeft(s, cs)|], cs)
  {
    if s != [] && s[0] in cs {
      TrimLeftRemoved(s[1..], cs);
      var k := |s| - |TrimLeft(s, cs)|;
      forall i | 0 <= i < k ensures s[..k][i] in cs {
        if i > 0 {
          assert s[..k][i] == s[1..][..k - 1][i - 1];
        }
      }
    }
  }

  /** `s` without its longest suffix of characters from `cs` (Python's `rstrip(chars)`). */
  function TrimRight(s: string, cs: set<char>): (r: string)
    ensures |r| <= |s| && r == s[..|r|]
    ensures r == [] || r[|r| - 1] !in cs
  {
    if s == [] || s[|s| - 1] !in cs then s else TrimRight(s[..|s| - 1], cs)
  }

  /** What `TrimRight` removes is all from `cs`. */
  lemma {:induction false} TrimRightRemoved(s: string, cs: set<char>)
    ensures AllIn(s[|TrimRight(s, cs)|..], cs)
  {
    if s != [] && s[|s| - 1] in cs {
      var t := s[..|s| - 1];
      TrimRightRemoved(t, cs);
      var k := |TrimRight(s, cs)|;
      forall i | 0 <= i < |s| - k ensures s[k..][i] in cs {
        if k + i < |s| - 1 {
          assert s[k..][i] == t[k..][i];
        }
      }
    }
  }

  /** JavaScript's `s.trim()`. */
  function JsTrim(s: string): string {
    TrimRight(TrimLeft(s, JsWhitespace), JsWhitespace)
  }

  /** Python's `s.strip()` with no argument. */
  function PyStrip(s: string): string {
    TrimRight(TrimLeft(s, PyWhitespace), PyWhitespace)
  }

  /** A string trims to nothing exactly when it consists of whitespace only. */
  lemma JsTrimEmptyIff(s: string)
    ensures JsTrim(s) == [] <==> AllIn(s, JsWhitespace)
  {
    var l := TrimLeft(s, JsWhitespace);
    TrimLeftRemoved(s, JsWhitespace);
    TrimRightRemoved(l, JsWhitespace);
    if !AllIn(s, JsWhitespace) {
      var i :| 0 <= i < |s| && s[i] !in JsWhitespace;
      assert l[i - (|s| - |l|)] == s[i];
    }
  }

  /** JavaScript's `s.split('\n')`: the pieces between newlines, always at least one. */
  function SplitLines(s: string): (r: seq<string>)
    ensures |r| >= 1
    ensures forall i | 0 <= i < |r| :: '\n' !in r[i]
  {
    if s == [] then [""]
    else if s[0] == '\n' then [""] + SplitLines(s[1..])
    else
      var t := SplitLines(s[1..]);
      [[s[0]] + t[0]] + t[1..]
  }

  /** Splitting at a newline splits each side separately. */
  lemma {:induction false} SplitLinesAppend(a: string, b: string)
    ensures SplitLines(a + "\n" + b) == SplitLines(a) + SplitLines(b)
  {
    var s := a + "\n" + b;
    if a == [] {
      assert s[0] == '\n' && s[1..] == b;
    } else {
      assert s[0] == a[0] && s[1..] == a[1..] + "\n" + b;
      SplitLinesAppend(a[1..], b);
      if a[0] != '\n' {
        SplitLinesCons(a[0], SplitLines(a[1..]), SplitLines(b));
      }
    }
  }

  /** The first line of a split with a leading non-newline character gains that character. */
  lemma SplitLinesCons(c: char, ta: seq<string>, tb: seq<string>)
    requires |ta| >= 1
    ensures [[c] + (ta + tb)[0]] + (ta + tb)[1..] == ([[c] + ta[0]] + ta[1..]) + tb
  {
    assert (ta + tb)[1..] == ta[1..] + tb;
  }

  /** A string without a newline is one line. */
  lemma {:induction false} SplitLinesSingle(s: string)
    requires '\n' !in s
    ensures SplitLines(s) == [s]
  {
    if s != [] {
      assert s[0] in s;
      assert forall c | c in s[1..] :: c in s;
      SplitLinesSingle(s[1..]);
      assert [s[0]] + s[1..] == s;
    }
  }

  /** The longest prefix of `s` without Python whitespace. */
  function TakeWord(s: string): (r: string)
    ensures |r| <= |s| && r == s[..|r|]
    ensures !(exists i | 0 <= i < |r| :: r[i] in PyWhitespace)
    ensures |r| == |s| || s[|r|] in PyWhitespace
  {
    if s == [] || s[0] in PyWhitespace then [] else [s[0]] + TakeWord(s[1..])
  }

  /** Python's `s.split()` with no argument: the maximal runs of non-whitespace, in order. */
  function Words(s: string): (r: seq<string>)
    ensures forall i | 0 <= i < |r| :: r[i] != [] && !(exists j | 0 <= j < |r[i]| :: r[i][j] in PyWhitespace)
    decreases |s|
  {
    if s == [] then []
    else if s[0] in PyWhitespace then Words(s[1..])
    else
      var w := TakeWord(s);
      [w] + Words(s[|w|..])
  }

  /** A string of whitespace only (the empty one included) has no words. */
  lemma {:induction false} WordsOfBlank(s: string)
    requires AllIn(s, PyWhitespace)
    ensures Words(s) == []
  {
    if s != [] {
      assert s[0] in PyWhitespace;
      assert AllIn(s[1..], PyWhitespace) by {
        forall i | 0 <= i < |s[1..]| ensures s[1..][i] in PyWhitespace {
          assert s[1..][i] == s[i + 1];
        }
      }
      WordsOfBlank(s[1..]);
    }
  }

  /** `"".join(xs)`: the strings one after another. */
  function Concat(xs: seq<string>): string {
    if xs == [] then "" else xs[0] + Concat(xs[1..])
  }

  /** `sep.join(xs)` / `xs.join(sep)`. */
  function Join(xs: seq<string>, sep: string): string {
    if |xs| == 0 then ""
    else if |xs| == 1 then xs[0]
    else xs[0] + sep + Join(xs[1..], sep)
  }

  /** A string placed between two others occurs right after the first. */
  lemma InMiddle(a: string, b: string, c: string)
    ensures OccursAt(a + b + c, b, |a|) && HasSubstring(a + b + c, b)
  {
    assert (a + b + c)[|a|..|a| + |b|] == b;
    assert OccursAt(a + b + c, b, |a|);
  }

  /** An occurrence in `s` is still one after more text is appended. */
  lemma OccursExtend(s: string, sub: string, k: int, t: string)
    requires OccursAt(s, sub, k)
    ensures OccursAt(s + t, sub, k)
  {
    assert (s + t)[k..k + |sub|] == s[k..k + |sub|];
  }

  /** An occurrence in `s` is still one after a prefix is put in front. */
  lemma OccursShift(a: string, s: string, sub: string, k: int)
    requires OccursAt(s, sub, k)
    ensures OccursAt(a + s, sub, |a| + k)
  {
    assert (a + s)[|a| + k..|a| + k + |sub|] == s[k..k + |sub|];
  }

  /** Every element occurs in the joined string. */
  lemma {:induction false} JoinContains(xs: seq<string>, sep: string, i: nat)
    requires i < |xs|
    ensures HasSubstring(Join(xs, sep), xs[i])
    decreases |xs|
  {
    if |xs| == 1 {
      assert OccursAt(Join(xs, sep), xs[0], 0);
    } else {
      var head := xs[0] + sep;
      var rest := Join(xs[1..], sep);
      assert Join(xs, sep) == head + rest;
      if i == 0 {
        InMiddle("", xs[0], sep + rest);
        assert "" + xs[0] + (sep + rest) == head + rest;
      } else {
        JoinContains(xs[1..], sep, i - 1);
        assert xs[1..][i - 1] == xs[i];
        var k :| 0 <= k <= |rest| - |xs[i]| && OccursAt(rest, xs[i], k);
        OccursShift(head, rest, xs[i], k);
      }
    }
  }

  /** Joining lines without newlines with '\n' and splitting again gives the lines back. */
  lemma {:induction false} SplitJoin(xs: seq<string>)
    requires |xs| >= 1
    requires forall i | 0 <= i < |xs| :: '\n' !in xs[i]
    ensures SplitLines(Join(xs, "\n")) == xs
    decreases |xs|
  {
    if |xs| == 1 {
      SplitLinesSingle(xs[0]);
    } else {
      SplitLinesAppend(xs[0], Join(xs[1..], "\n"));
      SplitLinesSingle(xs[0]);
      SplitJoin(xs[1..]);
      assert [xs[0]] + xs[1..] == xs;
    }
  }

  /** `s.replace(a, b)` for single characters `a` and `b`. */
  function ReplaceChar(s: string, a: char, b: char): (r: string)
    ensures |r| == |s|
    ensures forall i | 0 <= i < |s| :: r[i] == (if s[i] == a then b else s[i])
  {
    seq(|s|, i requires 0 <= i < |s| => if s[i] == a then b else s[i])
  }

  function LowerChar(c: char): char {
    if 'A' <= c <= 'Z' then (c as int - 'A' as int + 'a' as int) as char else c
  }

  /** `lower()` / `toLowerCase()` on the ASCII letters. */
  function Lower(s: string): (r: string)
    ensures |r| == |s|
    ensures forall i | 0 <= i < |s| :: r[i] == LowerChar(s[i])
    ensures forall i | 0 <= i < |r| :: !('A' <= r[i] <= 'Z')
  {
    seq(|s|, i requires 0 <= i < |s| => LowerChar(s[i]))
  }

  /** `s.replace(' ', '_').lower()`: a topic turned into a piece of a file name. */
  function Slug(s: string): string {
    Lower(ReplaceChar(s, ' ', '_'))
  }

  /**
   * A slug is as long as the topic, has no spaces and no upper-case ASCII letters, and
   * keeps every other character but for its case.
   */
  lemma SlugShape(s: string)
    ensures |Slug(s)| == |s|
    ensures ' ' !in Slug(s)
    ensures forall i | 0 <= i < |s| :: !('A' <= Slug(s)[i] <= 'Z')
    ensures forall i | 0 <= i < |s| :: Slug(s)[i] == if s[i] == ' ' then '_' else LowerChar(s[i])
  {
    var r := Slug(s);
    forall i | 0 <= i < |r| ensures r[i] != ' ' {
      assert r[i] == LowerChar(ReplaceChar(s, ' ', '_')[i]);
    }
  }

  /** `s.find(c)`: the first index of `c` in `s`, or -1. */
  function FirstIndexOf(s: string, c: char): (r: int)
    ensures -1 <= r < |s|
    ensures r == -1 <==> c !in s
    ensures r >= 0 ==> s[r] == c && c !in s[..r]
  {
    if s == [] then -1
    else if s[0] == c then 0
    else
      var k := FirstIndexOf(s[1..], c);
      assert s[1..][..if k < 0 then 0 else k] == s[1..1 + if k < 0 then 0 else k];
      if k == -1 then -1 else k + 1
  }

  /** `s.rfind(c)`: the last index of `c` in `s`, or -1. */
  function LastIndexOf(s: string, c: char): (r: int)
    ensures -1 <= r < |s|
    ensures r == -1 <==> c !in s
    ensures r >= 0 ==> s[r] == c && c !in s[r + 1..]
  {
    if s == [] then -1
    else if s[|s| - 1] == c then |s| - 1
    else
      assert s == s[..|s| - 1] + [s[|s| - 1]];
      LastIndexOf(s[..|s| - 1], c)
  }

  /** Python's slice `s[start:end]` for indexes in range: empty when `end <= start`. */
  function Slice(s: string, start: nat, end: nat): (r: string)
    requires start <= |s| && end <= |s|
    ensures |r| == if end <= start then 0 else end - start
  {
    if end <= start then "" else s[start..end]
  }

  function DigitChar(d: nat): char
    requires d < 10
  {
    (d + '0' as int) as char
  }

  /** `str(n)` / `String(n)` for a natural number: its decimal digits. */
  function NatToString(n: nat): (r: string)
    ensures r != [] && '\n' !in r
    ensures forall i | 0 <= i < |r| :: '0' <= r[i] <= '9'
  {
    if n < 10 then [DigitChar(n)] else NatToString(n / 10) + [DigitChar(n % 10)]
  }

  /** Exactly the one-digit numbers render as one character. */
  lemma {:induction false} NatToStringLength(n: nat)
    ensures |NatToString(n)| == 1 <==> n < 10
  {
    if n >= 10 {
      assert |NatToString(n / 10)| >= 1;
    }
  }

  /** Distinct numbers have distinct decimal renderings. */
  lemma {:induction false} NatToStringInjective(a: nat, b: nat)
    requires NatToString(a) == NatToString(b)
    ensures a == b
  {
    var sa, sb := NatToString(a), NatToString(b);
    NatToStringLength(a);
    NatToStringLength(b);
    if a >= 10 && b >= 10 {
      assert sa[|sa| - 1] == DigitChar(a % 10) && sb[|sb| - 1] == DigitChar(b % 10);
      assert sa[..|sa| - 1] == NatToString(a / 10);
      assert sb[..|sb| - 1] == NatToString(b / 10);
      NatToStringInjective(a / 10, b / 10);
    } else {
      assert sa[0] == DigitChar(a) && sb[0] == DigitChar(b);
    }
  }
}
