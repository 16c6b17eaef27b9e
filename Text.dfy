/**
 * The two string operations the extension relies on: Python's argument-less
 * `str.split()` and `str.lower()`, restricted to ASCII (see README).
 */
module Text {

  /**
   * The ASCII characters Python's `str.split()` breaks on: space, tab, line
   * feed, vertical tab, form feed, carriage return and the four separators
   * U+001C to U+001F.
   */
  predicate IsSpace(c: char) {
    c == ' ' || c == '\t' || c == '\n' || c == '\r' || c == '\U{000B}' || c == '\U{000C}'
    || ('\U{001C}' <= c <= '\U{001F}')
  }

  predicate NoSpace(s: string) {
    forall i :: 0 <= i < |s| ==> !IsSpace(s[i])
  }

  /** A part produced by `str.split()`: a non-empty run of non-whitespace characters. */
  predicate IsWord(s: string) {
    |s| > 0 && NoSpace(s)
  }

  predicate AllSpace(s: string) {
    forall i :: 0 <= i < |s| ==> IsSpace(s[i])
  }

  predicate AllWords(ws: seq<string>) {
    forall i :: 0 <= i < |ws| ==> IsWord(ws[i])
  }

  /**
   * Scans `s`; `cur` holds the non-whitespace run read so far. A whitespace
   * character closes a non-empty run; empty runs are dropped.
   */
  function SplitFrom(s: string, cur: string): (parts: seq<string>)
    requires NoSpace(cur)
    ensures AllWords(parts)
    decreases |s|
  {
    if s == [] then
      (if cur == [] then [] else [cur])
    else if IsSpace(s[0]) then
      (if cur == [] then SplitFrom(s[1..], []) else [cur] + SplitFrom(s[1..], []))
    else
      SplitFrom(s[1..], cur + [s[0]])
  }

  /** Python's `s.split()`: the maximal runs of non-whitespace characters of `s`, in order. */
  function Split(s: string): (parts: seq<string>)
    ensures AllWords(parts)
  {
    SplitFrom(s, [])
  }

  /** The words joined by single spaces, the shape of a well-formed header. */
  function Join(ws: seq<string>): string
    decreases |ws|
  {
    if |ws| == 0 then "" else if |ws| == 1 then ws[0] else ws[0] + " " + Join(ws[1..])
  }

  /** ASCII lowering of one character: `A`-`Z` become `a`-`z`, everything else stays. */
  function LowerChar(c: char): (d: char)
    ensures !('A' <= d <= 'Z')
    ensures 'a' <= d <= 'z' <==> 'a' <= c <= 'z' || 'A' <= c <= 'Z'
    ensures d != c <==> 'A' <= c <= 'Z'
  {
    if 'A' <= c <= 'Z' then (c as int + 32) as char else c
  }

  /** Python's `s.lower()` on ASCII letters. */
  function Lower(s: string): (r: string)
    ensures |r| == |s|
    ensures forall i :: 0 <= i < |s| ==> r[i] == LowerChar(s[i])
    ensures forall i :: 0 <= i < |r| ==> !('A' <= r[i] <= 'Z')
  {
    seq(|s|, i requires 0 <= i < |s| => LowerChar(s[i]))
  }

  /** Lowering twice is lowering once. */
  lemma LowerIdempotent(s: string)
    ensures Lower(Lower(s)) == Lower(s)
  {
  }

  /** Case-insensitive comparison as `get_token` does it: both sides lowered. */
  predicate EqualsIgnoreCase(a: string, b: string): (eq: bool)
    ensures eq <==> |a| == |b| && forall i :: 0 <= i < |a| ==> LowerChar(a[i]) == LowerChar(b[i])
  {
    assert |Lower(a)| == |a| && |Lower(b)| == |b|;
    Lower(a) == Lower(b)
  }

  /** Reading a whitespace-free stretch only extends the current run. */
  lemma {:induction false} SplitFromWord(w: string, rest: string, cur: string)
    requires NoSpace(w) && NoSpace(cur)
    ensures NoSpace(cur + w)
    ensures SplitFrom(w + rest, cur) == SplitFrom(rest, cur + w)
    decreases |w|
  {
    if w == [] {
      assert w + rest == rest;
      assert cur + w == cur;
    } else {
      assert (w + rest)[0] == w[0];
      assert (w + rest)[1..] == w[1..] + rest;
      assert NoSpace(cur + [w[0]]);
      SplitFromWord(w[1..], rest, cur + [w[0]]);
      assert cur + [w[0]] + w[1..] == cur + w;
    }
  }

  lemma {:induction false} SplitFromJoin(ws: seq<string>, cur: string)
    requires |ws| >= 1 && AllWords(ws) && NoSpace(cur)
    ensures NoSpace(cur + ws[0])
    ensures SplitFrom(Join(ws), cur) == [cur + ws[0]] + ws[1..]
    decreases |ws|
  {
    if |ws| == 1 {
      SplitFromWord(ws[0], [], cur);
      assert ws[0] + [] == ws[0];
      assert ws[1..] == [];
    } else {
      var rest := Join(ws[1..]);
      assert Join(ws) == ws[0] + (" " + rest);
      SplitFromWord(ws[0], " " + rest, cur);
      assert (" " + rest)[1..] == rest;
      SplitFromJoin(ws[1..], []);
      assert [] + ws[1..][0] == ws[1];
      assert [ws[1]] + ws[1..][1..] == ws[1..];
    }
  }

  /** Round trip: splitting words joined by single spaces gives the words back. */
  lemma SplitJoin(ws: seq<string>)
    requires AllWords(ws)
    ensures Split(Join(ws)) == ws
  {
    if |ws| >= 1 {
      SplitFromJoin(ws, []);
      assert [] + ws[0] == ws[0];
    }
  }

  /** A single whitespace-free run splits into exactly itself. */
  lemma SplitWord(w: string)
    requires IsWord(w)
    ensures Split(w) == [w]
  {
    SplitJoin([w]);
  }

  lemma {:induction false} SplitFromEmpty(s: string, cur: string)
    requires NoSpace(cur)
    ensures SplitFrom(s, cur) == [] <==> cur == [] && AllSpace(s)
    decreases |s|
  {
    if s != [] {
      if IsSpace(s[0]) {
        SplitFromEmpty(s[1..], []);
        assert AllSpace(s) <==> AllSpace(s[1..]);
      } else {
        assert NoSpace(cur + [s[0]]);
        SplitFromEmpty(s[1..], cur + [s[0]]);
      }
    }
  }

  /** `s.split()` is empty exactly when `s` is blank (empty or only whitespace). */
  lemma SplitEmptyIff(s: string)
    ensures Split(s) == [] <==> AllSpace(s)
  {
    SplitFromEmpty(s, []);
  }

  lemma {:induction false} SplitFromAtSpace(a: string, c: char, b: string, cur: string)
    requires IsSpace(c) && NoSpace(cur)
    ensures SplitFrom(a + [c] + b, cur) == SplitFrom(a, cur) + SplitFrom(b, [])
    decreases |a|
  {
    if a == [] {
      assert a + [c] + b == [c] + b;
      assert ([c] + b)[1..] == b;
    } else {
      assert (a + [c] + b)[0] == a[0];
      assert (a + [c] + b)[1..] == a[1..] + [c] + b;
      if IsSpace(a[0]) {
        SplitFromAtSpace(a[1..], c, b, []);
      } else {
        assert NoSpace(cur + [a[0]]);
        SplitFromAtSpace(a[1..], c, b, cur + [a[0]]);
      }
    }
  }

  /**
   * Whitespace separates: the parts of `a`, a whitespace character, then `b`
   * are the parts of `a` followed by those of `b`. With `SplitWord` and
   * `Split([]) == []` this determines `Split` on every string, so runs of
   * whitespace and whitespace at either end produce no parts.
   */
  lemma SplitAtSpace(a: string, c: char, b: string)
    requires IsSpace(c)
    ensures Split(a + [c] + b) == Split(a) + Split(b)
  {
    SplitFromAtSpace(a, c, b, []);
  }
}
