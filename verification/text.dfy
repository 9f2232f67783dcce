/** The string operations the resolver relies on: ASCII lower-casing (the model
    of Python's `str.lower`), `", ".join(...)`, code-point ordering of strings
    (the order `sorted` uses), and substring occurrence. */
module Text {

  /** An upper-case ASCII letter. */
  predicate IsUpperAscii(c: char) {
    'A' <= c <= 'Z'
  }

  /** A string with no upper-case ASCII letter, i.e. one `Lower` leaves alone. */
  predicate IsLowerString(s: string) {
    forall i :: 0 <= i < |s| ==> !IsUpperAscii(s[i])
  }

  /** Lower-cases one character: only `A`..`Z` change. */
  function LowerChar(c: char): (r: char)
    ensures !IsUpperAscii(r)
    ensures IsUpperAscii(c) ==> r as int == c as int + 32
    ensures !IsUpperAscii(c) ==> r == c
  {
    if IsUpperAscii(c) then (c as int - 'A' as int + 'a' as int) as char else c
  }

  /** Lower-cases a string character by character. */
  function Lower(s: string): (r: string)
    ensures |r| == |s|
    ensures forall i :: 0 <= i < |s| ==> r[i] == LowerChar(s[i])
    ensures IsLowerString(r)
    ensures IsLowerString(s) ==> r == s
  {
    if s == [] then [] else [LowerChar(s[0])] + Lower(s[1..])
  }

  /** Lower-casing twice is lower-casing once. */
  lemma LowerIdempotent(s: string)
    ensures Lower(Lower(s)) == Lower(s)
  {
  }

  /** `t` is the lower-cased `s` when they agree character by character. */
  lemma LowerByChars(s: string, t: string)
    requires |s| == |t|
    requires forall i :: 0 <= i < |s| ==> LowerChar(s[i]) == t[i]
    ensures Lower(s) == t
  {
  }

  /** Python's `sep.join(xs)`: the items separated by `sep`. No items give the
      empty string, and otherwise the text starts with the first item. */
  function Join(xs: seq<string>, sep: string): (r: string)
    ensures |xs| == 0 ==> r == ""
    ensures |xs| > 0 ==> xs[0] <= r
  {
    if |xs| == 0 then ""
    else if |xs| == 1 then xs[0]
    else xs[0] + sep + Join(xs[1..], sep)
  }

  /** `x` occurs in `s` starting at index `k`. */
  predicate OccursAt(x: string, s: string, k: int) {
    0 <= k <= |s| - |x| && s[k..k + |x|] == x
  }

  /** `x` occurs in `s` as a contiguous substring. */
  ghost predicate Occurs(x: string, s: string) {
    exists k :: OccursAt(x, s, k)
  }

  /** An occurrence survives putting text before and after. */
  lemma OccursInContext(x: string, p: string, s: string, q: string)
    requires Occurs(x, s)
    ensures Occurs(x, p + s + q)
  {
    var k :| OccursAt(x, s, k);
    var t := p + s + q;
    assert t[|p| + k..|p| + k + |x|] == s[k..k + |x|];
    assert OccursAt(x, t, |p| + k);
  }

  /** Every item of a joined list appears in the joined string. */
  lemma {:induction false} JoinContains(xs: seq<string>, sep: string, i: int)
    requires 0 <= i < |xs|
    ensures Occurs(xs[i], Join(xs, sep))
  {
    if |xs| == 1 {
      assert OccursAt(xs[0], Join(xs, sep), 0);
    } else if i == 0 {
      var t := Join(xs, sep);
      assert t == xs[0] + (sep + Join(xs[1..], sep));
      assert t[0..|xs[0]|] == xs[0];
      assert OccursAt(xs[0], t, 0);
    } else {
      JoinContains(xs[1..], sep, i - 1);
      OccursInContext(xs[i], xs[0] + sep, Join(xs[1..], sep), "");
      assert xs[0] + sep + Join(xs[1..], sep) + "" == Join(xs, sep);
    }
  }

  /** Code-point lexicographic order on strings, the order of Python's `<` on `str`. */
  predicate LexLess(a: string, b: string) {
    if a == [] then b != []
    else if b == [] then false
    else a[0] < b[0] || (a[0] == b[0] && LexLess(a[1..], b[1..]))
  }

  /** Each item of `xs` is `LexLess` than the next. */
  predicate StrictlyAscending(xs: seq<string>) {
    forall i :: 0 <= i < |xs| - 1 ==> LexLess(xs[i], xs[i + 1])
  }
}
