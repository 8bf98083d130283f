/** Strings in code point order, and sorting by it. */
module TextOrder {

  /** Python's `a <= b` on strings. */
  predicate AtMost(a: string, b: string) {
    a == "" || (b != "" && (a[0] < b[0] || (a[0] == b[0] && AtMost(a[1..], b[1..]))))
  }

  lemma {:induction false} AtMostTotal(a: string, b: string)
    ensures AtMost(a, b) || AtMost(b, a)
    ensures AtMost(a, b) && AtMost(b, a) ==> a == b
    decreases |a|
  {
    if a != "" && b != "" && a[0] == b[0] {
      AtMostTotal(a[1..], b[1..]);
      assert a == [a[0]] + a[1..] && b == [b[0]] + b[1..];
    }
  }

  lemma {:induction false} AtMostTransitive(a: string, b: string, c: string)
    requires AtMost(a, b) && AtMost(b, c)
    ensures AtMost(a, c)
    decreases |a|
  {
    if a != "" && b != "" && c != "" && a[0] == b[0] == c[0] {
      AtMostTransitive(a[1..], b[1..], c[1..]);
    }
  }

  function Insert(s: string, sorted: seq<string>): (r: seq<string>)
    ensures multiset(r) == multiset(sorted) + multiset{s}
  {
    if sorted == [] then [s]
    else if AtMost(s, sorted[0]) then
      assert [s] + sorted == [s] + sorted;
      [s] + sorted
    else
      assert sorted == [sorted[0]] + sorted[1..];
      [sorted[0]] + Insert(s, sorted[1..])
  }

  /** `sorted(values)` */
  function Sorted(values: seq<string>): (r: seq<string>)
    ensures multiset(r) == multiset(values)
  {
    if values == [] then []
    else
      assert values == [values[0]] + values[1..];
      Insert(values[0], Sorted(values[1..]))
  }

  ghost predicate Ascending(values: seq<string>) {
    forall i, j :: 0 <= i < j < |values| ==> AtMost(values[i], values[j])
  }

  lemma {:induction false} InsertAscends(s: string, sorted: seq<string>)
    requires Ascending(sorted)
    ensures Ascending(Insert(s, sorted))
  {
    if sorted != [] {
      if AtMost(s, sorted[0]) {
        forall i | 0 <= i < |sorted| ensures AtMost(s, sorted[i]) {
          if i > 0 { AtMostTransitive(s, sorted[0], sorted[i]); }
        }
      } else {
        InsertAscends(s, sorted[1..]);
        AtMostTotal(s, sorted[0]);
        var tail := Insert(s, sorted[1..]);
        forall t | t in tail ensures AtMost(sorted[0], t) {
          assert t in multiset(tail);
          assert t == s || t in sorted[1..];
        }
      }
    }
  }

  lemma {:induction false} SortedAscends(values: seq<string>)
    ensures Ascending(Sorted(values))
  {
    if values != [] {
      SortedAscends(values[1..]);
      InsertAscends(values[0], Sorted(values[1..]));
    }
  }

  /** Code point order: one text starts the other, or is less where they first differ. */
  ghost predicate CodePointsBefore(a: string, b: string) {
    a <= b || exists k :: DiffersAt(a, b, k)
  }

  ghost predicate DiffersAt(a: string, b: string, k: int) {
    0 <= k < |a| && k < |b| && a[..k] == b[..k] && a[k] < b[k]
  }

  lemma DiffersLater(a: string, b: string, k: nat)
    requires a != "" && b != "" && a[0] == b[0]
    ensures DiffersAt(a[1..], b[1..], k) <==> DiffersAt(a, b, k + 1)
  {
    if k < |a[1..]| && k < |b[1..]| {
      assert a[..k + 1] == [a[0]] + a[1..][..k] && b[..k + 1] == [b[0]] + b[1..][..k];
      assert a[1..][..k] == a[..k + 1][1..] && b[1..][..k] == b[..k + 1][1..];
    }
  }

  lemma {:induction false} AtMostMeans(a: string, b: string)
    ensures AtMost(a, b) <==> CodePointsBefore(a, b)
  {
    if a != "" && b != "" {
      if a[0] == b[0] {
        AtMostMeans(a[1..], b[1..]);
        assert a == [a[0]] + a[1..] && b == [b[0]] + b[1..];
        if k :| DiffersAt(a, b, k) {
          assert k > 0;
          DiffersLater(a, b, k - 1);
        }
        if k :| DiffersAt(a[1..], b[1..], k) {
          DiffersLater(a, b, k);
        }
      } else {
        assert a[..0] == b[..0];
        assert a[0] < b[0] ==> DiffersAt(a, b, 0);
        if k :| DiffersAt(a, b, k) {
          assert k > 0 ==> a[..k][0] == b[..k][0];
        }
      }
    }
  }
}
