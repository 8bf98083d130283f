/** Cutting sequences short, and texts at a separator. */
module Splitting {

  /** The first `n` items, none for a negative `n`. */
  function First<T>(items: seq<T>, n: int): seq<T> {
    if n <= 0 then [] else if n < |items| then items[..n] else items
  }

  /** Python's `items[:n]`, where a negative `n` counts from the end. */
  function SliceTo<T>(items: seq<T>, n: int): seq<T> {
    if n >= 0 then First(items, n) else First(items, |items| + n)
  }

  predicate Has(s: string, c: char) {
    c in s
  }

  /** What stands before the first `c`. */
  function Head(s: string, c: char): (h: string)
    ensures |h| <= |s| && !Has(h, c)
    ensures Has(s, c) ==> |h| < |s|
  {
    if s == "" || s[0] == c then "" else [s[0]] + Head(s[1..], c)
  }

  /** What stands behind the first `c`. */
  function Tail(s: string, c: char): string
    requires Has(s, c)
  {
    s[|Head(s, c)| + 1..]
  }

  /** What stands before the last `c`. */
  function Front(s: string, c: char): (f: string)
    requires Has(s, c)
    ensures |f| < |s|
  {
    var n := |s| - 1;
    if s[n] == c then s[..n] else Front(s[..n], c)
  }

  /** What stands behind the last `c`. */
  function Rear(s: string, c: char): string
    requires Has(s, c)
  {
    s[|Front(s, c)| + 1..]
  }

  lemma {:induction false} HeadOfJoined(a: string, b: string, c: char)
    requires !Has(a, c)
    ensures Has(a + [c] + b, c) && Head(a + [c] + b, c) == a && Tail(a + [c] + b, c) == b
  {
    var s := a + [c] + b;
    assert s[|a|] == c;
    if a != "" {
      assert s[1..] == a[1..] + [c] + b;
      HeadOfJoined(a[1..], b, c);
    }
  }

  lemma {:induction false} FrontOfJoined(a: string, b: string, c: char)
    requires !Has(b, c)
    ensures Has(a + [c] + b, c) && Front(a + [c] + b, c) == a && Rear(a + [c] + b, c) == b
    decreases |b|
  {
    var s := a + [c] + b;
    var n := |s| - 1;
    assert s[|a|] == c;
    if b == "" {
      assert s[..n] == a;
    } else {
      assert s[..n] == a + [c] + b[..|b| - 1];
      FrontOfJoined(a, b[..|b| - 1], c);
    }
  }

  lemma {:induction false} RearIsFree(s: string, c: char)
    requires Has(s, c)
    ensures !Has(Rear(s, c), c) && s == Front(s, c) + [c] + Rear(s, c)
  {
    var n := |s| - 1;
    if s[n] != c {
      assert Has(s[..n], c);
      RearIsFree(s[..n], c);
      assert s == s[..n] + [s[n]];
    }
  }

  lemma {:induction false} HeadWithout(s: string, c: char)
    requires !Has(s, c)
    ensures Head(s, c) == s
  {
    if s != "" {
      assert s == [s[0]] + s[1..];
      HeadWithout(s[1..], c);
    }
  }
}
