/** The string primitives of the .NET base library that the client relies on. */
module Text {
  import opened Wrappers

  /** `char.IsWhiteSpace`: the Unicode space separators, the line and paragraph
      separators, and the control characters U+0009..U+000D and U+0085. */
  predicate IsWhiteSpace(c: char) {
    || ('\t' <= c <= '\r')
    || c == ' '
    || c == '\U{0085}'
    || c == '\U{00A0}'
    || c == '\U{1680}'
    || ('\U{2000}' <= c <= '\U{200A}')
    || c == '\U{2028}'
    || c == '\U{2029}'
    || c == '\U{202F}'
    || c == '\U{205F}'
    || c == '\U{3000}'
  }

  /** `string.IsNullOrWhiteSpace` on a string that is not null: empty, or only white space. */
  predicate Blank(s: string) {
    forall i :: 0 <= i < |s| ==> IsWhiteSpace(s[i])
  }

  /** `string.IsNullOrWhiteSpace` on a nullable string. */
  predicate NullOrBlank(s: Option<string>) {
    s.None? || Blank(s.value)
  }

  /** `string.IsNullOrEmpty` on a nullable string. */
  predicate NullOrEmpty(s: Option<string>) {
    s.None? || s.value == ""
  }

  /** `string.Join(sep, xs)`. */
  function Join(sep: string, xs: seq<string>): string {
    if |xs| == 0 then ""
    else if |xs| == 1 then xs[0]
    else xs[0] + sep + Join(sep, xs[1..])
  }

  /** A joined list starts with its first element, so it is empty only if that element is. */
  lemma {:induction false} JoinStartsWithFirst(sep: string, xs: seq<string>)
    requires |xs| > 0
    ensures |Join(sep, xs)| >= |xs[0]|
    ensures Join(sep, xs)[..|xs[0]|] == xs[0]
  {
    if |xs| > 1 {
      assert Join(sep, xs) == xs[0] + (sep + Join(sep, xs[1..]));
    }
  }

  /** Joining one more element appends the separator and that element. */
  lemma {:induction false} JoinSnoc(sep: string, xs: seq<string>, y: string)
    requires |xs| > 0
    ensures Join(sep, xs + [y]) == Join(sep, xs) + sep + y
  {
    var ys := xs + [y];
    if |xs| == 1 {
      assert ys[1..] == [y];
    } else {
      assert ys[1..] == xs[1..] + [y];
      JoinSnoc(sep, xs[1..], y);
    }
  }

  /** Splits `s` at every occurrence of `sep`, the inverse of `Join([sep], _)`. */
  function Split(s: string, sep: char): (parts: seq<string>)
    ensures |parts| >= 1
  {
    if |s| == 0 then [""]
    else if s[0] == sep then [""] + Split(s[1..], sep)
    else
      var rest := Split(s[1..], sep);
      [[s[0]] + rest[0]] + rest[1..]
  }

  lemma {:induction false} SplitWithoutSeparator(s: string, sep: char)
    requires sep !in s
    ensures Split(s, sep) == [s]
  {
    if |s| > 0 {
      SplitWithoutSeparator(s[1..], sep);
      assert [s[0]] + s[1..] == s;
    }
  }

  lemma {:induction false} SplitAtFirstSeparator(a: string, b: string, sep: char)
    requires sep !in a
    ensures Split(a + [sep] + b, sep) == [a] + Split(b, sep)
  {
    if |a| == 0 {
      assert a + [sep] + b == [sep] + b;
      assert ([sep] + b)[1..] == b;
    } else {
      var s := a + [sep] + b;
      assert s[0] == a[0] && s[0] != sep;
      assert s[1..] == a[1..] + [sep] + b;
      SplitAtFirstSeparator(a[1..], b, sep);
      assert [a[0]] + a[1..] == a;
    }
  }

  /** Splitting a joined list of separator-free parts gives the parts back. */
  lemma {:induction false} SplitJoin(xs: seq<string>, sep: char)
    requires |xs| > 0
    requires forall i :: 0 <= i < |xs| ==> sep !in xs[i]
    ensures Split(Join([sep], xs), sep) == xs
  {
    if |xs| == 1 {
      SplitWithoutSeparator(xs[0], sep);
    } else {
      SplitAtFirstSeparator(xs[0], Join([sep], xs[1..]), sep);
      SplitJoin(xs[1..], sep);
      assert [xs[0]] + xs[1..] == xs;
    }
  }

  /** `sub` occurs in `s` at position `j`. */
  predicate OccursAt(s: string, sub: string, j: int) {
    0 <= j && j + |sub| <= |s| && s[j..j + |sub|] == sub
  }

  /** An occurrence survives putting text in front of it, at a shifted position. */
  lemma OccursAtShift(a: string, b: string, sub: string, j: int)
    requires OccursAt(b, sub, j)
    ensures OccursAt(a + b, sub, |a| + j)
  {
    assert (a + b)[|a| + j..|a| + j + |sub|] == b[j..j + |sub|];
  }

  /** An occurrence survives putting text behind it, at the same position. */
  lemma OccursAtExtend(a: string, c: string, sub: string, j: int)
    requires OccursAt(a, sub, j)
    ensures OccursAt(a + c, sub, j)
  {
    assert (a + c)[j..j + |sub|] == a[j..j + |sub|];
  }

  /** Every element of a joined list occurs in the joined text. */
  lemma {:induction false} JoinContains(sep: string, xs: seq<string>, i: int)
    requires 0 <= i < |xs|
    ensures exists j :: OccursAt(Join(sep, xs), xs[i], j)
  {
    if i == 0 {
      JoinStartsWithFirst(sep, xs);
      assert OccursAt(Join(sep, xs), xs[0], 0);
    } else {
      JoinContains(sep, xs[1..], i - 1);
      var j :| OccursAt(Join(sep, xs[1..]), xs[1..][i - 1], j);
      OccursAtShift(xs[0] + sep, Join(sep, xs[1..]), xs[i], j);
      assert Join(sep, xs) == (xs[0] + sep) + Join(sep, xs[1..]);
    }
  }

  /** `s.IndexOf(sub)` with ordinal comparison: the first position of `sub` in `s`, or -1. */
  function IndexOf(s: string, sub: string): (r: int)
    ensures r == -1 || OccursAt(s, sub, r)
    ensures forall j :: 0 <= j < r ==> !OccursAt(s, sub, j)
    ensures r == -1 ==> forall j :: !OccursAt(s, sub, j)
  {
    IndexOfFrom(s, sub, 0)
  }

  function IndexOfFrom(s: string, sub: string, k: nat): (r: int)
    ensures r == -1 || (k <= r && OccursAt(s, sub, r))
    ensures forall j :: k <= j < r ==> !OccursAt(s, sub, j)
    ensures r == -1 ==> forall j :: k <= j ==> !OccursAt(s, sub, j)
    decreases |s| + 1 - k
  {
    if k + |sub| > |s| then -1
    else if s[k..k + |sub|] == sub then k
    else IndexOfFrom(s, sub, k + 1)
  }

  /** `s.LastIndexOf(c)`: the last position of `c` in `s`, or -1. */
  function LastIndexOf(s: string, c: char): (r: int)
    ensures -1 <= r < |s|
    ensures r >= 0 ==> s[r] == c
    ensures forall j :: r < j < |s| ==> s[j] != c
  {
    if |s| == 0 then -1
    else if s[|s| - 1] == c then |s| - 1
    else LastIndexOf(s[..|s| - 1], c)
  }

  /** Upper-cases an ASCII letter and leaves every other character alone. */
  function ToUpperAscii(c: char): char {
    if 'a' <= c <= 'z' then (c as int - 32) as char else c
  }

  /** `a.Equals(b, StringComparison.OrdinalIgnoreCase)`, restricted to ASCII case folding. */
  predicate EqualsIgnoreCase(a: string, b: string) {
    |a| == |b| && forall i :: 0 <= i < |a| ==> ToUpperAscii(a[i]) == ToUpperAscii(b[i])
  }
}
