/** Edit scripts, their least cost, and the two-row computation of it. */
module EditDistance {

  datatype Edit =
    | Keep(kept: char)
    | Substitute(old_: char, new_: char)
    | Delete(deleted: char)
    | Insert(inserted: char)

  type Script = seq<Edit>

  function From(edit: Edit): string {
    match edit
    case Keep(c) => [c]
    case Substitute(c, _) => [c]
    case Delete(c) => [c]
    case Insert(_) => []
  }

  function To(edit: Edit): string {
    match edit
    case Keep(c) => [c]
    case Substitute(_, d) => [d]
    case Delete(_) => []
    case Insert(d) => [d]
  }

  function Price(edit: Edit): nat {
    if edit.Keep? then 0 else 1
  }

  /** The text a script edits. */
  function Before(script: Script): string {
    if script == [] then "" else From(script[0]) + Before(script[1..])
  }

  /** The text it makes of it. */
  function After(script: Script): string {
    if script == [] then "" else To(script[0]) + After(script[1..])
  }

  function Cost(script: Script): nat {
    if script == [] then 0 else Price(script[0]) + Cost(script[1..])
  }

  ghost predicate Edits(script: Script, a: string, b: string) {
    Before(script) == a && After(script) == b
  }

  /** `d` is the least cost of any script editing `a` into `b`. */
  ghost predicate Least(d: nat, a: string, b: string) {
    && (exists script :: Edits(script, a, b) && Cost(script) == d)
    && (forall script :: Edits(script, a, b) ==> d <= Cost(script))
  }

  function Min(x: nat, y: nat): nat {
    if x <= y then x else y
  }

  /** The recurrence, on prefixes, that the table's rows hold. */
  function Distance(a: string, b: string): nat {
    if a == "" then |b|
    else if b == "" then |a|
    else
      var i, j := |a| - 1, |b| - 1;
      Min(Min(Distance(a[..i], b) + 1, Distance(a, b[..j]) + 1),
          Distance(a[..i], b[..j]) + if a[i] == b[j] then 0 else 1)
  }

  // ----- Scripts, extended at the end

  lemma {:induction false} AppendEdit(script: Script, edit: Edit)
    ensures Before(script + [edit]) == Before(script) + From(edit)
    ensures After(script + [edit]) == After(script) + To(edit)
    ensures Cost(script + [edit]) == Cost(script) + Price(edit)
  {
    if script == [] {
      assert [edit][1..] == [];
      assert [] + [edit] == [edit];
    } else {
      assert (script + [edit])[1..] == script[1..] + [edit];
      AppendEdit(script[1..], edit);
    }
  }

  lemma {:induction false} DeleteAll(a: string) returns (script: Script)
    ensures Edits(script, a, "") && Cost(script) == |a|
  {
    if a == "" {
      script := [];
    } else {
      var rest := DeleteAll(a[..|a| - 1]);
      AppendEdit(rest, Delete(a[|a| - 1]));
      script := rest + [Delete(a[|a| - 1])];
    }
  }

  lemma {:induction false} InsertAll(b: string) returns (script: Script)
    ensures Edits(script, "", b) && Cost(script) == |b|
  {
    if b == "" {
      script := [];
    } else {
      var rest := InsertAll(b[..|b| - 1]);
      AppendEdit(rest, Insert(b[|b| - 1]));
      script := rest + [Insert(b[|b| - 1])];
    }
  }

  /** The last edit of a best script, and the prefixes it is made after. */
  lemma {:induction false} LastEdit(a: string, b: string) returns (edit: Edit, i: nat, j: nat)
    requires a != "" && b != ""
    ensures i <= |a| && j <= |b| && i + j < |a| + |b|
    ensures a == a[..i] + From(edit) && b == b[..j] + To(edit)
    ensures Distance(a, b) == Distance(a[..i], b[..j]) + Price(edit)
  {
    hide Distance;
    i, j := |a| - 1, |b| - 1;
    assert a == a[..i + 1] && b == b[..j + 1];
    Cell(a, b, i, j);
    if Distance(a, b) == Distance(a[..i], b) + 1 {
      edit, j := Delete(a[i]), |b|;
      assert b[..j] == b;
    } else if Distance(a, b) == Distance(a, b[..j]) + 1 {
      edit, i := Insert(b[j]), |a|;
      assert a[..i] == a;
    } else {
      edit := if a[i] == b[j] then Keep(a[i]) else Substitute(a[i], b[j]);
    }
  }

  /** Some script costs exactly the distance. */
  lemma {:induction false} BestScript(a: string, b: string) returns (script: Script)
    ensures Edits(script, a, b) && Cost(script) == Distance(a, b)
    decreases |a| + |b|
  {
    if a == "" {
      script := InsertAll(b);
    } else if b == "" {
      script := DeleteAll(a);
    } else {
      hide Distance;
      var edit, i, j := LastEdit(a, b);
      var rest := BestScript(a[..i], b[..j]);
      AppendEdit(rest, edit);
      script := rest + [edit];
    }
  }

  lemma {:induction false} DistanceFromEmpty(a: string)
    ensures Distance(a, "") == |a| && Distance("", a) == |a|
  {
  }

  /** One more character on either side changes the distance by at most one edit. */
  lemma {:induction false} DistanceExtends(a: string, b: string, c: char, d: char)
    ensures Distance(a + [c], b) <= Distance(a, b) + 1
    ensures Distance(a, b + [d]) <= Distance(a, b) + 1
    ensures Distance(a + [c], b + [d]) <= Distance(a, b) + if c == d then 0 else 1
  {
    assert (a + [c])[..|a|] == a && (b + [d])[..|b|] == b;
    DistanceFromEmpty(a);
    DistanceFromEmpty(b);
    if a == "" || b == "" {
      DistanceFromEmpty(a + [c]);
      DistanceFromEmpty(b + [d]);
    }
  }

  /** No script costs less. */
  lemma {:induction false} NoCheaperScript(script: Script)
    ensures Distance(Before(script), After(script)) <= Cost(script)
  {
    if script != [] {
      var n := |script| - 1;
      var rest, edit := script[..n], script[n];
      assert script == rest + [edit];
      AppendEdit(rest, edit);
      NoCheaperScript(rest);
      match edit
      case Keep(c) => DistanceExtends(Before(rest), After(rest), c, c);
      case Substitute(c, d) => DistanceExtends(Before(rest), After(rest), c, d);
      case Delete(c) =>
        DistanceExtends(Before(rest), After(rest), c, c);
        assert After(rest) + "" == After(rest);
      case Insert(d) =>
        DistanceExtends(Before(rest), After(rest), d, d);
        assert Before(rest) + "" == Before(rest);
    }
  }

  /** The recurrence computes the least cost over all edit scripts. */
  lemma {:induction false} DistanceIsLeast(a: string, b: string)
    ensures Least(Distance(a, b), a, b)
  {
    var best := BestScript(a, b);
    forall script | Edits(script, a, b) ensures Distance(a, b) <= Cost(script) {
      NoCheaperScript(script);
    }
  }

  // ----- It is a metric

  lemma {:induction false} FreeScriptKeeps(script: Script)
    ensures Cost(script) == 0 ==> Before(script) == After(script)
  {
    if script != [] { FreeScriptKeeps(script[1..]); }
  }

  lemma {:induction false} KeepAll(a: string) returns (script: Script)
    ensures Edits(script, a, a) && Cost(script) == 0
  {
    if a == "" {
      script := [];
    } else {
      var rest := KeepAll(a[1..]);
      script := [Keep(a[0])] + rest;
      assert script[1..] == rest;
    }
  }

  lemma {:induction false} ZeroIffEqual(a: string, b: string)
    ensures Distance(a, b) == 0 <==> a == b
  {
    var best := BestScript(a, b);
    FreeScriptKeeps(best);
    var keep := KeepAll(a);
    NoCheaperScript(keep);
  }

  function Reverse(edit: Edit): Edit {
    match edit
    case Keep(c) => Keep(c)
    case Substitute(c, d) => Substitute(d, c)
    case Delete(c) => Insert(c)
    case Insert(c) => Delete(c)
  }

  lemma {:induction false} ReverseScript(script: Script) returns (reversed: Script)
    ensures Edits(reversed, After(script), Before(script)) && Cost(reversed) == Cost(script)
  {
    if script == [] {
      reversed := [];
    } else {
      var rest := ReverseScript(script[1..]);
      reversed := [Reverse(script[0])] + rest;
      assert reversed[1..] == rest;
    }
  }

  lemma {:induction false} Symmetric(a: string, b: string)
    ensures Distance(a, b) == Distance(b, a)
  {
    var there := BestScript(a, b);
    var back := ReverseScript(there);
    NoCheaperScript(back);
    var other := BestScript(b, a);
    var otherBack := ReverseScript(other);
    NoCheaperScript(otherBack);
  }

  /** Doing one script and then another is a script, and costs no more than both. */
  lemma {:induction false} Compose(first: Script, second: Script) returns (both: Script)
    requires After(first) == Before(second)
    ensures Edits(both, Before(first), After(second)) && Cost(both) <= Cost(first) + Cost(second)
    decreases |first| + |second|
  {
    if first != [] && first[0].Delete? {
      var rest := Compose(first[1..], second);
      both := [first[0]] + rest;
      assert both[1..] == rest;
    } else if second != [] && second[0].Insert? {
      var rest := Compose(first, second[1..]);
      both := [second[0]] + rest;
      assert both[1..] == rest;
    } else if first == [] {
      both := second;
    } else if second == [] {
      both := first;
    } else {
      both := ComposeStep(first, second);
    }
  }

  lemma {:induction false} ComposeStep(first: Script, second: Script) returns (both: Script)
    requires first != [] && second != [] && !first[0].Delete? && !second[0].Insert?
    requires After(first) == Before(second)
    ensures Edits(both, Before(first), After(second)) && Cost(both) <= Cost(first) + Cost(second)
    decreases |first| + |second|, 0
  {
    SharedCharacter(first, second);
    var rest := Compose(first[1..], second[1..]);
    if first[0].Insert? && second[0].Delete? {
      both := rest;
    } else {
      var edit := Join(first[0], second[0]);
      JoinEdits(first[0], second[0]);
      both := [edit] + rest;
      assert both[1..] == rest;
    }
  }

  /** The character the first script makes is the one the second works on. */
  lemma SharedCharacter(first: Script, second: Script)
    requires first != [] && second != [] && !first[0].Delete? && !second[0].Insert?
    requires After(first) == Before(second)
    ensures To(first[0]) == From(second[0])
    ensures After(first[1..]) == Before(second[1..])
  {
    assert |To(first[0])| == |From(second[0])| == 1;
    assert After(first)[0] == To(first[0])[0] && Before(second)[0] == From(second[0])[0];
    assert After(first)[1..] == After(first[1..]) && Before(second)[1..] == Before(second[1..]);
  }

  lemma JoinEdits(first: Edit, second: Edit)
    requires !first.Delete? && !second.Insert? && To(first) == From(second)
    requires !(first.Insert? && second.Delete?)
    ensures From(Join(first, second)) == From(first) && To(Join(first, second)) == To(second)
    ensures Price(Join(first, second)) <= Price(first) + Price(second)
  {
    if first.Keep? && second.Keep? {
      assert To(first)[0] == first.kept && From(second)[0] == second.kept;
    } else if first.Substitute? && second.Keep? {
      assert To(first)[0] == first.new_ && From(second)[0] == second.kept;
    } else if first.Keep? && second.Substitute? {
      assert To(first)[0] == first.kept && From(second)[0] == second.old_;
    }
  }

  /** The single edit that does two edits of the same character, unless they cancel. */
  function Join(first: Edit, second: Edit): Edit
    requires !first.Delete? && !second.Insert?
    requires !(first.Insert? && second.Delete?)
  {
    var c, d := From(first), To(second);
    if first.Insert? then Insert(d[0])
    else if second.Delete? then Delete(c[0])
    else if c[0] == d[0] then Keep(c[0])
    else Substitute(c[0], d[0])
  }

  lemma {:induction false} Triangle(a: string, b: string, c: string)
    ensures Distance(a, c) <= Distance(a, b) + Distance(b, c)
  {
    var first := BestScript(a, b);
    var second := BestScript(b, c);
    var both := Compose(first, second);
    NoCheaperScript(both);
  }

  lemma {:induction false} ScriptSpansLengths(script: Script)
    ensures |Before(script)| <= |After(script)| + Cost(script)
    ensures |After(script)| <= |Before(script)| + Cost(script)
  {
    if script != [] { ScriptSpansLengths(script[1..]); }
  }

  lemma {:induction false} AtMostLonger(a: string, b: string)
    ensures Distance(a, b) <= if |a| >= |b| then |a| else |b|
  {
    if a != "" && b != "" {
      var i, j := |a| - 1, |b| - 1;
      AtMostLonger(a[..i], b[..j]);
    }
  }

  /** The distance is at least the difference of the lengths and at most the longer length. */
  lemma {:induction false} Bounds(a: string, b: string)
    ensures |a| - |b| <= Distance(a, b) && |b| - |a| <= Distance(a, b)
    ensures Distance(a, b) <= if |a| >= |b| then |a| else |b|
  {
    var best := BestScript(a, b);
    ScriptSpansLengths(best);
    AtMostLonger(a, b);
  }

  // ----- The two-row computation

  lemma {:induction false} Cell(a: string, b: string, i: nat, j: nat)
    requires i < |a| && j < |b|
    ensures Distance(a[..i + 1], b[..j + 1]) ==
            Min(Min(Distance(a[..i], b[..j + 1]) + 1, Distance(a[..i + 1], b[..j]) + 1),
                Distance(a[..i], b[..j]) + if a[i] == b[j] then 0 else 1)
  {
    assert a[..i + 1][..i] == a[..i] && b[..j + 1][..j] == b[..j];
  }

  /** A row of the table: the distances of one prefix of `a` from every prefix of `b`. */
  ghost predicate Row(row: seq<nat>, a: string, b: string) {
    |row| == |b| + 1 && forall j :: 0 <= j <= |b| ==> row[j] == Distance(a, b[..j])
  }

  lemma {:induction false} FirstRow(row: seq<nat>, b: string)
    requires |row| == |b| + 1 && forall j :: 0 <= j <= |b| ==> row[j] == j
    ensures Row(row, "", b)
  {
    forall j | 0 <= j <= |b| ensures row[j] == Distance("", b[..j]) {
      DistanceFromEmpty(b[..j]);
    }
  }

  method NextRow(prev: seq<nat>, a: string, b: string, i: nat) returns (curr: seq<nat>)
    requires i < |a| && Row(prev, a[..i], b)
    ensures Row(curr, a[..i + 1], b)
  {
    DistanceFromEmpty(a[..i + 1]);
    hide Distance;
    curr := [i + 1];
    for j := 0 to |b|
      invariant |curr| == j + 1
      invariant forall k :: 0 <= k <= j ==> curr[k] == Distance(a[..i + 1], b[..k])
    {
      Cell(a, b, i, j);
      var cost := if a[i] == b[j] then 0 else 1;
      curr := curr + [Min(Min(prev[j + 1] + 1, curr[j] + 1), prev[j] + cost)];
    }
  }

  /** `_levenshtein` */
  method Levenshtein(a: string, b: string) returns (d: nat)
    ensures d == Distance(a, b)
    ensures Least(d, a, b)
  {
    DistanceIsLeast(a, b);
    hide Least;
    if a == b {
      ZeroIffEqual(a, b);
      return 0;
    }
    if a == "" {
      return |b|;
    }
    if b == "" {
      return |a|;
    }
    hide Distance;
    var prev: seq<nat> := seq(|b| + 1, (j: nat) => j);
    FirstRow(prev, b);
    assert a[..0] == "";
    for i := 0 to |a|
      invariant Row(prev, a[..i], b)
    {
      hide Row;
      prev := NextRow(prev, a, b, i);
    }
    assert a[..|a|] == a && b[..|b|] == b;
    return prev[|b|];
  }
}
