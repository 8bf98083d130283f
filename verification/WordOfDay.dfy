/** Choosing the words of the day of one language: accept, defer or reject each candidate, then fill up. */
module WordOfDay {
  import opened Outcomes
  import opened Splitting

  datatype Difficulty = Beginner | Intermediate | Advanced

  datatype Level = BeginnerLevel | IntermediateLevel | Deep

  datatype Candidate = Candidate(language: string, query: string, difficulty: Difficulty)

  datatype Options =
    Options(count: int, level: Level, includeAmbiguous: bool, requireCleanPrimary: bool, wantFresh: bool,
            avoided: set<string>)

  datatype Reason = Timeout | ProbeFailed | NoUsableBuckets | TooAmbiguous

  datatype Rejection = Rejection(query: string, reason: Reason)

  datatype Note = OutsideAvoidList | MatchedAvoidList | FreshExhausted

  /** What the building of an item found; `content` stands for its texts and its source basis. */
  datatype Draft = Draft(content: string, ambiguous: bool)

  datatype Item = Item(candidate: Candidate, content: string, ambiguous: bool, isRepeat: bool, note: Note)

  /** What a probe returns, as `build` reads it. */
  type Reduction = string

  /** What is outside: the probe, the building of an item from its result, lower-casing, shuffling and sorting. */
  datatype Environment = Environment(
    probe: Candidate -> Attempt<Reduction, string>,
    build: (Candidate, Reduction) -> Option<Draft>,
    lower: string -> string,
    arrange: (seq<Candidate>, Options) -> seq<Candidate>)

  // ----- Candidates

  function Key(env: Environment, c: Candidate): string {
    env.lower(c.language + ":" + c.query)
  }

  predicate Avoided(env: Environment, options: Options, c: Candidate) {
    Key(env, c) in options.avoided || env.lower(c.query) in options.avoided
  }

  predicate MatchesLevel(c: Candidate, level: Level) {
    match level
    case Deep => true
    case IntermediateLevel => c.difficulty.Beginner? || c.difficulty.Intermediate?
    case BeginnerLevel => c.difficulty.Beginner?
  }

  predicate Eligible(env: Environment, options: Options, c: Candidate) {
    MatchesLevel(c, options.level) && (options.wantFresh || !Avoided(env, options, c))
  }

  function EligibleOf(env: Environment, options: Options, pool: seq<Candidate>): (r: seq<Candidate>)
    ensures forall c :: c in r <==> c in pool && Eligible(env, options, c)
  {
    if pool == [] then []
    else
      var last := |pool| - 1;
      EligibleOf(env, options, pool[..last]) + (if Eligible(env, options, pool[last]) then [pool[last]] else [])
  }

  /**
   * Shuffling and then sorting keeps the candidates, and if fresh ones are asked for puts those to avoid
   * behind all others. Lower-casing twice is lower-casing once.
   */
  ghost predicate Sound(env: Environment) {
    && (forall s :: env.lower(env.lower(s)) == env.lower(s))
    && (forall cs: seq<Candidate>, options: Options :: multiset(env.arrange(cs, options)) == multiset(cs))
    && forall cs: seq<Candidate>, options: Options :: options.wantFresh ==>
         RepeatsLast(env, options, env.arrange(cs, options))
  }

  ghost predicate RepeatsLast(env: Environment, options: Options, cs: seq<Candidate>) {
    forall i, j :: 0 <= i < j < |cs| && Avoided(env, options, cs[i]) ==> Avoided(env, options, cs[j])
  }

  // ----- One candidate

  datatype Verdict = Rejected(reason: Reason) | Repeated(item: Item) | Deferred(item: Item) | Accepted(item: Item)

  /** `_add_novelty_metadata`, on an item that carries the key and the query of its candidate. */
  function WithNovelty(env: Environment, options: Options, c: Candidate, draft: Draft): Item {
    var isRepeat := env.lower(Key(env, c)) in options.avoided || env.lower(c.query) in options.avoided;
    Item(c, draft.content, draft.ambiguous, isRepeat, if isRepeat then MatchedAvoidList else OutsideAvoidList)
  }

  function Judge(env: Environment, options: Options, c: Candidate): Verdict {
    var reduction := env.probe(c);
    if reduction.Raised? then Rejected(ProbeFailed)
    else
      var draft := env.build(c, reduction.value);
      if draft.None? then Rejected(NoUsableBuckets)
      else
        var item := WithNovelty(env, options, c, draft.value);
        if options.wantFresh && item.isRepeat then Repeated(item.(note := FreshExhausted))
        else if item.ambiguous && !options.includeAmbiguous then
          if options.requireCleanPrimary then Rejected(TooAmbiguous) else Deferred(item)
        else Accepted(item)
  }

  // ----- The run over the candidates

  datatype Tally = Tally(accepted: seq<Item>, deferred: seq<Item>, repeats: seq<Item>, rejections: seq<Rejection>)

  function Counted(t: Tally, c: Candidate, v: Verdict): Tally {
    match v
    case Rejected(reason) => t.(rejections := t.rejections + [Rejection(c.query, reason)])
    case Repeated(item) => t.(repeats := t.repeats + [item])
    case Deferred(item) => t.(deferred := t.deferred + [item])
    case Accepted(item) => t.(accepted := t.accepted + [item])
  }

  function TallyOf(env: Environment, options: Options, cs: seq<Candidate>): Tally {
    if cs == [] then Tally([], [], [], [])
    else
      var last := |cs| - 1;
      Counted(TallyOf(env, options, cs[..last]), cs[last], Judge(env, options, cs[last]))
  }

  /** How a run ended: how many candidates it probed, and whether it ran out of time before the next. */
  datatype Stop = Stop(probed: nat, timedOut: bool)

  /**
   * Where a run stops: behind an accepted item that reaches the count, else before the first candidate at
   * which the time is up, else at the end.
   */
  ghost predicate StopsAt(env: Environment, options: Options, cs: seq<Candidate>, late: nat -> bool, stop: Stop) {
    && stop.probed <= |cs|
    && (forall i :: 0 <= i < stop.probed ==> !late(i))
    && (forall i :: 0 <= i < stop.probed - 1 ==> !Full(env, options, cs, i))
    && if stop.timedOut then
         && stop.probed < |cs| && late(stop.probed)
         && !(stop.probed > 0 && Full(env, options, cs, stop.probed - 1))
       else stop.probed == |cs| || (stop.probed > 0 && Full(env, options, cs, stop.probed - 1))
  }

  /** Candidate `i` is accepted and reaches the count. */
  predicate Full(env: Environment, options: Options, cs: seq<Candidate>, i: nat)
    requires i < |cs|
  {
    Judge(env, options, cs[i]).Accepted? && |TallyOf(env, options, cs[..i + 1]).accepted| >= options.count
  }

  /** Filling up with ambiguous items, unless only clean ones are wanted, and then with repeats. */
  function FilledUp(options: Options, t: Tally): seq<Item> {
    var first := if options.requireCleanPrimary then t.accepted
                 else t.accepted + First(t.deferred, options.count - |t.accepted|);
    first + First(t.repeats, options.count - |first|)
  }

  function Order(env: Environment, options: Options, pool: seq<Candidate>): seq<Candidate> {
    env.arrange(EligibleOf(env, options, pool), options)
  }

  function TallyAt(env: Environment, options: Options, pool: seq<Candidate>, stop: Stop): Tally
    requires stop.probed <= |Order(env, options, pool)|
  {
    TallyOf(env, options, Order(env, options, pool)[..stop.probed])
  }

  /** A run of the candidates of a pool, as the method makes it. */
  ghost predicate Runs(env: Environment, options: Options, pool: seq<Candidate>, late: nat -> bool, stop: Stop,
                       items: seq<Item>) {
    && StopsAt(env, options, Order(env, options, pool), late, stop)
    && items == FilledUp(options, TallyAt(env, options, pool, stop))
  }

  /** The counts of the diagnostics. */
  datatype Diagnostics = Diagnostics(eligible: nat, probed: nat, deferred: nat, repeats: nat, rejected: nat)

  lemma NothingTallied(env: Environment, options: Options, cs: seq<Candidate>)
    ensures TallyOf(env, options, cs[..0]) == Tally([], [], [], [])
  {
  }

  lemma TallyGrows(env: Environment, options: Options, cs: seq<Candidate>, i: nat)
    requires i < |cs|
    ensures var before := TallyOf(env, options, cs[..i]); var v := Judge(env, options, cs[i]);
      TallyOf(env, options, cs[..i + 1]) == Counted(before, cs[i], v)
      && (Full(env, options, cs, i) <==> v.Accepted? && |before.accepted| + 1 >= options.count)
  {
    hide Judge;
    assert cs[..i + 1][..i] == cs[..i];
  }

  /** Filling up as the method does it: only where items are missing. */
  lemma FilledStepwise(options: Options, t: Tally, first: seq<Item>, items: seq<Item>)
    requires first == if |t.accepted| < options.count && !options.requireCleanPrimary
                      then t.accepted + First(t.deferred, options.count - |t.accepted|) else t.accepted
    requires items == if |first| < options.count then first + First(t.repeats, options.count - |first|) else first
    ensures items == FilledUp(options, t)
  {
  }

  function DiagnosticsOf(env: Environment, options: Options, pool: seq<Candidate>, stop: Stop): Diagnostics
    requires stop.probed <= |Order(env, options, pool)|
  {
    var t := TallyAt(env, options, pool, stop);
    Diagnostics(|Order(env, options, pool)|, stop.probed, |t.deferred|, |t.repeats|,
                |t.rejections| + if stop.timedOut then 1 else 0)
  }

  /** `_generate_language_items`; `late(i)` says whether the time is up when candidate `i` is due. */
  method GenerateLanguageItems(env: Environment, options: Options, pool: seq<Candidate>, late: nat -> bool)
    returns (items: seq<Item>, diagnostics: Diagnostics)
    ensures exists stop ::
      Runs(env, options, pool, late, stop, items) && diagnostics == DiagnosticsOf(env, options, pool, stop)
  {
    hide TallyOf, Full, Judge, EligibleOf, Key, First;
    NothingTallied(env, options, env.arrange(EligibleOf(env, options, pool), options));
    var candidates := env.arrange(EligibleOf(env, options, pool), options);
    var accepted: seq<Item>, deferred: seq<Item>, repeats: seq<Item> := [], [], [];
    var rejections: seq<Rejection> := [];
    var probed := 0;
    ghost var stop := Stop(0, false);
    while probed < |candidates|
      invariant probed <= |candidates|
      invariant Tally(accepted, deferred, repeats, rejections) == TallyOf(env, options, candidates[..probed])
      invariant forall i :: 0 <= i < probed ==> !late(i) && !Full(env, options, candidates, i)
    {
      var candidate := candidates[probed];
      if late(probed) {
        rejections := rejections + [Rejection(candidate.query, Timeout)];
        stop := Stop(probed, true);
        break;
      }
      TallyGrows(env, options, candidates, probed);
      probed := probed + 1;
      var verdict := Judge(env, options, candidate);
      if verdict.Rejected? {
        rejections := rejections + [Rejection(candidate.query, verdict.reason)];
      } else if verdict.Repeated? {
        repeats := repeats + [verdict.item];
      } else if verdict.Deferred? {
        deferred := deferred + [verdict.item];
      } else {
        accepted := accepted + [verdict.item];
        if |accepted| >= options.count {
          break;
        }
      }
    }
    if !stop.timedOut {
      stop := Stop(probed, false);
    }
    assert StopsAt(env, options, candidates, late, stop);
    hide StopsAt;
    diagnostics := Diagnostics(|candidates|, probed, |deferred|, |repeats|, |rejections|);
    if |accepted| < options.count && !options.requireCleanPrimary {
      accepted := accepted + First(deferred, options.count - |accepted|);
    }
    ghost var clean := accepted;
    if |accepted| < options.count {
      accepted := accepted + First(repeats, options.count - |accepted|);
    }
    items := accepted;
    FilledStepwise(options, TallyAt(env, options, pool, stop), clean, items);
    hide FilledUp;
    assert Runs(env, options, pool, late, stop, items);
  }

  // ----- What a run returns

  /** Every candidate probed is accepted, deferred, a repeat, or rejected. */
  lemma {:induction false} TallyConserves(env: Environment, options: Options, cs: seq<Candidate>)
    ensures var t := TallyOf(env, options, cs);
      |t.accepted| + |t.deferred| + |t.repeats| + |t.rejections| == |cs|
  {
    hide Judge;
    if cs != [] {
      TallyConserves(env, options, cs[..|cs| - 1]);
    }
  }

  /** What is tallied comes from a candidate with that verdict, and the other way around. */
  ghost predicate From(env: Environment, options: Options, cs: seq<Candidate>, v: Verdict) {
    exists i :: 0 <= i < |cs| && Judge(env, options, cs[i]) == v
  }

  lemma FromGrows(env: Environment, options: Options, cs: seq<Candidate>, v: Verdict)
    requires cs != []
    ensures var last := |cs| - 1;
      From(env, options, cs, v) <==> From(env, options, cs[..last], v) || Judge(env, options, cs[last]) == v
  {
    hide Judge;
    var before := cs[..|cs| - 1];
    if From(env, options, before, v) {
      var i :| 0 <= i < |before| && Judge(env, options, before[i]) == v;
      assert cs[i] == before[i];
    }
    if From(env, options, cs, v) && Judge(env, options, cs[|cs| - 1]) != v {
      var i :| 0 <= i < |cs| && Judge(env, options, cs[i]) == v;
      assert before[i] == cs[i];
    }
  }

  lemma {:induction false} TallyFrom(env: Environment, options: Options, cs: seq<Candidate>, item: Item)
    ensures var t := TallyOf(env, options, cs);
      && (item in t.accepted <==> From(env, options, cs, Accepted(item)))
      && (item in t.deferred <==> From(env, options, cs, Deferred(item)))
      && (item in t.repeats <==> From(env, options, cs, Repeated(item)))
  {
    hide Judge, From;
    if cs == [] {
      NothingFrom(env, options, Accepted(item));
      NothingFrom(env, options, Deferred(item));
      NothingFrom(env, options, Repeated(item));
      assert cs == [];
    } else {
      TallyFrom(env, options, cs[..|cs| - 1], item);
      FromGrows(env, options, cs, Accepted(item));
      FromGrows(env, options, cs, Deferred(item));
      FromGrows(env, options, cs, Repeated(item));
    }
  }

  lemma NothingFrom(env: Environment, options: Options, v: Verdict)
    ensures !From(env, options, [], v)
  {
  }

  /** Until one fills it up, fewer items are accepted than asked for. */
  lemma {:induction false} NotFullBelow(env: Environment, options: Options, cs: seq<Candidate>, n: nat)
    requires n <= |cs| && forall i :: 0 <= i < n ==> !Full(env, options, cs, i)
    ensures |TallyOf(env, options, cs[..n]).accepted| == 0 || |TallyOf(env, options, cs[..n]).accepted| < options.count
  {
    hide Judge, Full, TallyOf;
    if n == 0 {
      NothingTallied(env, options, cs);
    } else {
      NotFullBelow(env, options, cs, n - 1);
      TallyGrows(env, options, cs, n - 1);
    }
  }

  /** No run returns more items than asked for, but that even none asked for may give one. */
  lemma AtMostCount(env: Environment, options: Options, pool: seq<Candidate>, late: nat -> bool, stop: Stop,
                    items: seq<Item>)
    requires Runs(env, options, pool, late, stop, items)
    ensures |items| <= if options.count < 1 then 1 else options.count
    ensures var t := TallyAt(env, options, pool, stop);
      stop.probed == |t.accepted| + |t.deferred| + |t.repeats| + |t.rejections|
  {
    hide Judge, Full, TallyOf;
    var cs := Order(env, options, pool);
    TallyConserves(env, options, cs[..stop.probed]);
    if stop.probed > 0 {
      NotFullBelow(env, options, cs, stop.probed - 1);
      TallyGrows(env, options, cs, stop.probed - 1);
    } else {
      NothingTallied(env, options, cs);
    }
  }

  lemma ArrangedKeeps(env: Environment, options: Options, pool: seq<Candidate>, c: Candidate)
    requires Sound(env)
    ensures c in Order(env, options, pool) <==> c in pool && Eligible(env, options, c)
  {
    hide Avoided, Eligible;
    var eligible := EligibleOf(env, options, pool);
    assert multiset(env.arrange(eligible, options)) == multiset(eligible);
    assert c in Order(env, options, pool) <==> c in multiset(Order(env, options, pool));
    assert c in eligible <==> c in multiset(eligible);
  }

  /** Only repeats asked for as a last resort are repeats; no item of another verdict is to be avoided. */
  lemma VerdictNovelty(env: Environment, options: Options, c: Candidate)
    requires Sound(env) && Eligible(env, options, c)
    ensures var v := Judge(env, options, c);
      && (v.Repeated? ==> options.wantFresh && Avoided(env, options, c) && v.item.isRepeat)
      && (v.Accepted? || v.Deferred? ==> !v.item.isRepeat && !Avoided(env, options, c))
      && (v.Deferred? ==> !options.requireCleanPrimary)
  {
  }

  lemma FirstFacts(items: seq<Item>, n: int)
    ensures forall x :: x in First(items, n) ==> x in items
    ensures |First(items, n)| < n ==> First(items, n) == items
    ensures n <= 0 ==> First(items, n) == []
  {
  }

  /** A repeat is among the items only if it was filled up with, and then nothing else is left out. */
  lemma FilledWithRepeats(options: Options, t: Tally, item: Item)
    requires item in FilledUp(options, t) && item !in t.accepted && item !in t.deferred
    ensures item in t.repeats && |t.accepted| < options.count
    ensures forall x :: x in t.accepted || (x in t.deferred && !options.requireCleanPrimary) ==>
      x in FilledUp(options, t)
  {
    hide First;
    FirstFacts(t.deferred, options.count - |t.accepted|);
    var first := if options.requireCleanPrimary then t.accepted
                 else t.accepted + First(t.deferred, options.count - |t.accepted|);
    FirstFacts(t.repeats, options.count - |first|);
  }

  /**
   * A word to avoid is returned only if fresh words were asked for and every candidate that gives a fresh
   * item is among the items, even if the time ran out.
   */
  lemma RepeatsAreLastResort(
    env: Environment, options: Options, pool: seq<Candidate>, late: nat -> bool, stop: Stop, items: seq<Item>,
    repeated: Item, c: Candidate)
    requires Sound(env) && Runs(env, options, pool, late, stop, items)
    requires repeated in items && repeated.isRepeat
    ensures options.wantFresh
    ensures var v := Judge(env, options, c);
      c in pool && Eligible(env, options, c) && (v.Accepted? || v.Deferred?) ==> v.item in items
  {
    hide Judge, TallyOf, Full, FilledUp, Sound, Eligible, Avoided;
    var cs := Order(env, options, pool);
    var probed := cs[..stop.probed];
    var t := TallyAt(env, options, pool, stop);
    TallyFrom(env, options, probed, repeated);
    ProbedNovelty(env, options, pool, stop, repeated);
    FilledWithRepeats(options, t, repeated);
    NotFilled(env, options, pool, late, stop, items);
    var i :| 0 <= i < |probed| && Judge(env, options, probed[i]) == Repeated(repeated);
    assert cs[i] in cs;
    ArrangedKeeps(env, options, pool, cs[i]);
    VerdictNovelty(env, options, cs[i]);
    var verdict := Judge(env, options, c);
    if c in pool && Eligible(env, options, c) && (verdict.Accepted? || verdict.Deferred?) {
      ArrangedKeeps(env, options, pool, c);
      VerdictNovelty(env, options, c);
      var k :| 0 <= k < |cs| && cs[k] == c;
      FreshBeforeRepeats(env, options, pool, i, k);
      assert probed[k] == c;
      TallyFrom(env, options, probed, Judge(env, options, c).item);
    }
  }

  lemma FreshBeforeRepeats(env: Environment, options: Options, pool: seq<Candidate>, i: nat, k: nat)
    requires Sound(env) && options.wantFresh && i < |Order(env, options, pool)| && k < |Order(env, options, pool)|
    requires Avoided(env, options, Order(env, options, pool)[i]) && !Avoided(env, options, Order(env, options, pool)[k])
    ensures k < i
  {
    hide Avoided, EligibleOf;
    var cs := Order(env, options, pool);
    assert RepeatsLast(env, options, cs);
  }

  /** Items accepted or deferred are none to avoid. */
  lemma ProbedNovelty(env: Environment, options: Options, pool: seq<Candidate>, stop: Stop, item: Item)
    requires Sound(env) && stop.probed <= |Order(env, options, pool)|
    requires item.isRepeat
    ensures var t := TallyAt(env, options, pool, stop); item !in t.accepted && item !in t.deferred
  {
    hide Judge, TallyOf, Sound, Eligible, Avoided;
    var cs := Order(env, options, pool);
    var probed := cs[..stop.probed];
    TallyFrom(env, options, probed, item);
    forall i | 0 <= i < |probed|
      ensures Judge(env, options, probed[i]) != Accepted(item) && Judge(env, options, probed[i]) != Deferred(item)
    {
      assert cs[i] in cs;
      ArrangedKeeps(env, options, pool, cs[i]);
      VerdictNovelty(env, options, cs[i]);
    }
  }

  /** A run that accepted fewer items than asked for went to the end, or ran out of time. */
  lemma NotFilled(env: Environment, options: Options, pool: seq<Candidate>, late: nat -> bool, stop: Stop,
                  items: seq<Item>)
    requires Runs(env, options, pool, late, stop, items)
    ensures |TallyAt(env, options, pool, stop).accepted| < options.count ==>
      stop.timedOut || stop.probed == |Order(env, options, pool)|
  {
    hide Judge, TallyOf, FilledUp;
  }

  /**
   * Every item returned is what an eligible candidate of the pool gave, and an ambiguous one
   * appears only if those are wanted, or clean ones are not insisted on, or it is a repeat.
   */
  lemma ItemsAreEligible(
    env: Environment, options: Options, pool: seq<Candidate>, late: nat -> bool, stop: Stop, items: seq<Item>,
    item: Item)
    requires Sound(env) && Runs(env, options, pool, late, stop, items) && item in items
    ensures exists c ::
      && c in pool && Eligible(env, options, c)
      && Judge(env, options, c) in {Accepted(item), Deferred(item), Repeated(item)}
    ensures item.ambiguous ==> options.includeAmbiguous || !options.requireCleanPrimary || item.isRepeat
  {
    hide TallyOf, Sound, Eligible, Avoided, Full;
    var cs := Order(env, options, pool);
    var probed := cs[..stop.probed];
    InTally(options, TallyAt(env, options, pool, stop), item);
    TallyFrom(env, options, probed, item);
    var i :| 0 <= i < |probed| && Judge(env, options, probed[i]) in {Accepted(item), Deferred(item), Repeated(item)};
    assert cs[i] in cs;
    ArrangedKeeps(env, options, pool, cs[i]);
  }

  lemma InTally(options: Options, t: Tally, item: Item)
    requires item in FilledUp(options, t)
    ensures item in t.accepted || item in t.deferred || item in t.repeats
  {
    FirstFacts(t.deferred, options.count - |t.accepted|);
    var first := if options.requireCleanPrimary then t.accepted
                 else t.accepted + First(t.deferred, options.count - |t.accepted|);
    FirstFacts(t.repeats, options.count - |first|);
  }

  // ----- One item for one candidate

  function CandidatesOf(items: seq<Item>): seq<Candidate> {
    seq(|items|, i requires 0 <= i < |items| => items[i].candidate)
  }

  lemma CandidatesJoin(items: seq<Item>, more: seq<Item>)
    ensures CandidatesOf(items + more) == CandidatesOf(items) + CandidatesOf(more)
  {
  }

  lemma CandidatesFirst(items: seq<Item>, n: int)
    ensures multiset(CandidatesOf(First(items, n))) <= multiset(CandidatesOf(items))
  {
    var k := |First(items, n)|;
    assert First(items, n) == items[..k] && items == items[..k] + items[k..];
    CandidatesJoin(items[..k], items[k..]);
  }

  lemma JudgedCandidate(env: Environment, options: Options, c: Candidate)
    ensures var v := Judge(env, options, c); !v.Rejected? ==> v.item.candidate == c
  {
  }

  function AllKept(t: Tally): seq<Item> {
    t.accepted + t.deferred + t.repeats
  }

  lemma {:induction false} TallyUsesOnce(env: Environment, options: Options, cs: seq<Candidate>)
    ensures multiset(CandidatesOf(AllKept(TallyOf(env, options, cs)))) <= multiset(cs)
  {
    if cs != [] {
      hide Judge;
      var last := cs[|cs| - 1];
      var before := TallyOf(env, options, cs[..|cs| - 1]);
      TallyUsesOnce(env, options, cs[..|cs| - 1]);
      JudgedCandidate(env, options, last);
      CountedUsesOnce(before, last, Judge(env, options, last));
      assert cs == cs[..|cs| - 1] + [last];
    }
  }

  lemma CountedUsesOnce(t: Tally, c: Candidate, v: Verdict)
    requires !v.Rejected? ==> v.item.candidate == c
    ensures multiset(CandidatesOf(AllKept(Counted(t, c, v)))) <= multiset(CandidatesOf(AllKept(t))) + multiset{c}
  {
    hide CandidatesOf;
    var next := Counted(t, c, v);
    KeptCandidates(t);
    KeptCandidates(next);
    if !v.Rejected? {
      CandidatesJoin(t.accepted, [v.item]);
      CandidatesJoin(t.deferred, [v.item]);
      CandidatesJoin(t.repeats, [v.item]);
      OneCandidate(v.item);
    }
  }

  lemma OneCandidate(item: Item)
    ensures CandidatesOf([item]) == [item.candidate]
  {
  }

  lemma KeptCandidates(t: Tally)
    ensures multiset(CandidatesOf(AllKept(t)))
         == multiset(CandidatesOf(t.accepted)) + multiset(CandidatesOf(t.deferred)) + multiset(CandidatesOf(t.repeats))
  {
    CandidatesJoin(t.accepted, t.deferred);
    CandidatesJoin(t.accepted + t.deferred, t.repeats);
  }

  lemma FilledUsesKept(options: Options, t: Tally)
    ensures multiset(CandidatesOf(FilledUp(options, t))) <= multiset(CandidatesOf(AllKept(t)))
  {
    hide CandidatesOf, First;
    KeptCandidates(t);
    var ambiguous := First(t.deferred, options.count - |t.accepted|);
    var first := if options.requireCleanPrimary then t.accepted else t.accepted + ambiguous;
    CandidatesJoin(t.accepted, ambiguous);
    CandidatesFirst(t.deferred, options.count - |t.accepted|);
    CandidatesJoin(first, First(t.repeats, options.count - |first|));
    CandidatesFirst(t.repeats, options.count - |first|);
  }

  /** No candidate gives more items than it has places among the eligible ones. */
  lemma ItemsUseCandidatesOnce(
    env: Environment, options: Options, pool: seq<Candidate>, late: nat -> bool, stop: Stop, items: seq<Item>)
    requires Sound(env) && Runs(env, options, pool, late, stop, items)
    ensures multiset(CandidatesOf(items)) <= multiset(EligibleOf(env, options, pool))
  {
    hide TallyOf, FilledUp, CandidatesOf, Full, EligibleOf;
    var cs := Order(env, options, pool);
    TallyUsesOnce(env, options, cs[..stop.probed]);
    FilledUsesKept(options, TallyAt(env, options, pool, stop));
    assert cs == cs[..stop.probed] + cs[stop.probed..];
    assert multiset(cs) == multiset(EligibleOf(env, options, pool));
  }

  // ----- Counts below one

  /** The count is kept exactly if it is at least one, or no candidate was accepted before the time was up. */
  lemma CountKept(env: Environment, options: Options, pool: seq<Candidate>, late: nat -> bool, stop: Stop,
                  items: seq<Item>)
    requires Runs(env, options, pool, late, stop, items)
    ensures |items| <= (if options.count < 0 then 0 else options.count)
       <==> options.count >= 1 || TallyAt(env, options, pool, stop).accepted == []
    ensures options.count < 1 ==> items == TallyAt(env, options, pool, stop).accepted
  {
    hide TallyOf, Full;
    AtMostCount(env, options, pool, late, stop, items);
    var t := TallyAt(env, options, pool, stop);
    FirstFacts(t.deferred, options.count - |t.accepted|);
    FirstFacts(t.repeats, options.count - |t.accepted|);
  }

  predicate Never(i: nat) {
    false
  }

  /** From any place that a run can reach, it goes on to an end. */
  lemma {:induction false} RunEnds(env: Environment, options: Options, cs: seq<Candidate>, late: nat -> bool, i: nat)
    returns (stop: Stop)
    requires i <= |cs| && forall k :: 0 <= k < i ==> !late(k) && !Full(env, options, cs, k)
    ensures StopsAt(env, options, cs, late, stop)
    decreases |cs| - i
  {
    hide Full;
    if i == |cs| {
      stop := Stop(i, false);
    } else if late(i) {
      stop := Stop(i, true);
    } else if Full(env, options, cs, i) {
      stop := Stop(i + 1, false);
    } else {
      stop := RunEnds(env, options, cs, late, i + 1);
    }
  }

  /** Some run with the options returns an item. */
  ghost predicate CanReturn(env: Environment, options: Options, pool: seq<Candidate>) {
    exists late, stop, items :: Runs(env, options, pool, late, stop, items) && items != []
  }

  /** Asked for none, it can return an item exactly if some eligible candidate is one to accept. */
  lemma NoneAskedFor(env: Environment, options: Options, pool: seq<Candidate>)
    requires Sound(env) && options.count < 1
    ensures CanReturn(env, options, pool) <==>
      exists c :: c in pool && Eligible(env, options, c) && Judge(env, options, c).Accepted?
  {
    hide TallyOf, FilledUp, Judge, Sound, Eligible, Full;
    var cs := Order(env, options, pool);
    if late, stop, items :| Runs(env, options, pool, late, stop, items) && items != [] {
      CountKept(env, options, pool, late, stop, items);
      assert items[0] in items;
      TallyFrom(env, options, cs[..stop.probed], items[0]);
      var i :| 0 <= i < |cs[..stop.probed]| && Judge(env, options, cs[..stop.probed][i]) == Accepted(items[0]);
      assert cs[i] in cs;
      ArrangedKeeps(env, options, pool, cs[i]);
    }
    if c :| c in pool && Eligible(env, options, c) && Judge(env, options, c).Accepted? {
      ArrangedKeeps(env, options, pool, c);
      var i :| 0 <= i < |cs| && cs[i] == c;
      AcceptedIsReturned(env, options, pool, i);
    }
  }

  lemma AcceptedIsReturned(env: Environment, options: Options, pool: seq<Candidate>, i: nat)
    requires options.count < 1 && i < |Order(env, options, pool)|
    requires Judge(env, options, Order(env, options, pool)[i]).Accepted?
    ensures CanReturn(env, options, pool)
  {
    hide TallyOf, FilledUp, Judge;
    var cs := Order(env, options, pool);
    var stop := RunEnds(env, options, cs, Never, 0);
    var t := TallyAt(env, options, pool, stop);
    var items := FilledUp(options, t);
    assert Runs(env, options, pool, Never, stop, items);
    CountKept(env, options, pool, Never, stop, items);
    if stop.probed < |cs| {
      TallyGrows(env, options, cs, stop.probed - 1);
    } else {
      assert cs[..stop.probed][i] == cs[i];
      assert From(env, options, cs[..stop.probed], Judge(env, options, cs[i]));
      TallyFrom(env, options, cs[..stop.probed], Judge(env, options, cs[i]).item);
    }
  }

  // ----- Clean items

  /** Every item of every run is clean, whatever the candidates and whatever their probes find. */
  ghost predicate AlwaysClean(lower: string -> string, options: Options) {
    forall env, pool, late, stop, items, item: Item ::
      Sound(env) && env.lower == lower && Runs(env, options, pool, late, stop, items) && item in items ==>
        !item.ambiguous
  }

  /**
   * Insisting on clean items keeps ambiguous ones out exactly if fresh words are not asked for, or there is
   * none to avoid, or no item is asked for; words to avoid are given in lower case.
   */
  lemma CleanExactly(lower: string -> string, options: Options)
    requires (forall s :: lower(lower(s)) == lower(s)) && forall a :: a in options.avoided ==> lower(a) == a
    requires options.requireCleanPrimary && !options.includeAmbiguous
    ensures AlwaysClean(lower, options) <==> !options.wantFresh || options.avoided == {} || options.count < 1
  {
    hide Sound, Runs;
    if !options.wantFresh || options.avoided == {} || options.count < 1 {
      forall env, pool, late, stop, items, item: Item
        | Sound(env) && env.lower == lower && Runs(env, options, pool, late, stop, items) && item in items
        ensures !item.ambiguous
      {
        CleanRun(env, options, pool, late, stop, items, item);
      }
    } else {
      var a :| a in options.avoided;
      UncleanRun(lower, options, a);
    }
  }

  lemma CleanRun(env: Environment, options: Options, pool: seq<Candidate>, late: nat -> bool, stop: Stop,
                 items: seq<Item>, item: Item)
    requires Sound(env) && Runs(env, options, pool, late, stop, items) && item in items
    requires options.requireCleanPrimary && !options.includeAmbiguous
    requires !options.wantFresh || options.avoided == {} || options.count < 1
    ensures !item.ambiguous
  {
    hide TallyOf, FilledUp, Sound;
    ItemsAreEligible(env, options, pool, late, stop, items, item);
    var c :| c in pool && Judge(env, options, c) in {Accepted(item), Deferred(item), Repeated(item)};
    if options.count < 1 {
      CountKept(env, options, pool, late, stop, items);
      TallyFrom(env, options, Order(env, options, pool)[..stop.probed], item);
    }
  }

  predicate AvoidedBy(lower: string -> string, avoided: set<string>, c: Candidate) {
    lower(c.language + ":" + c.query) in avoided || lower(c.query) in avoided
  }

  function Picked(lower: string -> string, avoided: set<string>, want: bool, cs: seq<Candidate>): (r: seq<Candidate>)
    ensures forall c :: c in r ==> AvoidedBy(lower, avoided, c) == want
  {
    if cs == [] then []
    else (if AvoidedBy(lower, avoided, cs[0]) == want then [cs[0]] else []) + Picked(lower, avoided, want, cs[1..])
  }

  /** The words to avoid behind the others, as the sort puts them. */
  function FreshFirst(lower: string -> string, avoided: set<string>, cs: seq<Candidate>): seq<Candidate> {
    Picked(lower, avoided, false, cs) + Picked(lower, avoided, true, cs)
  }

  lemma {:induction false} PickedKeeps(lower: string -> string, avoided: set<string>, cs: seq<Candidate>)
    ensures multiset(FreshFirst(lower, avoided, cs)) == multiset(cs)
  {
    if cs != [] {
      assert cs == [cs[0]] + cs[1..];
      PickedKeeps(lower, avoided, cs[1..]);
    }
  }

  /** Surroundings in which every probe finds an ambiguous item. */
  function Ambiguous(lower: string -> string): Environment {
    Environment(
      (c: Candidate) => Done(""),
      (c: Candidate, r: Reduction) => Some(Draft("", true)),
      lower,
      (cs: seq<Candidate>, options: Options) => FreshFirst(lower, options.avoided, cs))
  }

  lemma AmbiguousIsSound(lower: string -> string)
    requires forall s :: lower(lower(s)) == lower(s)
    ensures Sound(Ambiguous(lower))
  {
    var env := Ambiguous(lower);
    forall cs: seq<Candidate>, options: Options ensures multiset(env.arrange(cs, options)) == multiset(cs) {
      PickedKeeps(lower, options.avoided, cs);
    }
    forall cs: seq<Candidate>, options: Options ensures RepeatsLast(env, options, env.arrange(cs, options)) {
      FreshComeFirst(lower, options, cs);
    }
  }

  lemma FreshComeFirst(lower: string -> string, options: Options, cs: seq<Candidate>)
    ensures RepeatsLast(Ambiguous(lower), options, FreshFirst(lower, options.avoided, cs))
  {
    var env, sorted := Ambiguous(lower), FreshFirst(lower, options.avoided, cs);
    var others := Picked(lower, options.avoided, false, cs);
    assert forall i :: 0 <= i < |others| ==> sorted[i] == others[i] && others[i] in others;
    assert forall i :: |others| <= i < |sorted| ==> sorted[i] in Picked(lower, options.avoided, true, cs);
  }

  lemma UncleanRun(lower: string -> string, options: Options, a: string)
    requires (forall s :: lower(lower(s)) == lower(s)) && a in options.avoided && lower(a) == a
    requires options.wantFresh && options.count >= 1
    ensures !AlwaysClean(lower, options)
  {
    hide Sound, Judge, Order, AlwaysClean;
    AmbiguousIsSound(lower);
    var c := Candidate("", a, Beginner);
    RepeatIsOrdered(lower, options, c);
    RepeatIsAmbiguous(lower, options, c);
    UncleanItems(Ambiguous(lower), options, [c], c);
  }

  lemma RepeatIsOrdered(lower: string -> string, options: Options, c: Candidate)
    requires options.wantFresh && c.difficulty == Beginner
    ensures Order(Ambiguous(lower), options, [c]) == [c]
  {
    hide Judge;
    assert [c][..0] == [] && [c][1..] == [];
    assert Eligible(Ambiguous(lower), options, c);
    assert EligibleOf(Ambiguous(lower), options, [c]) == [c];
    PickedOne(lower, options.avoided, true, c);
    PickedOne(lower, options.avoided, false, c);
  }

  lemma PickedOne(lower: string -> string, avoided: set<string>, want: bool, c: Candidate)
    ensures Picked(lower, avoided, want, [c]) == if AvoidedBy(lower, avoided, c) == want then [c] else []
  {
    assert [c][0] == c && [c][1..] == [];
  }

  lemma RepeatIsAmbiguous(lower: string -> string, options: Options, c: Candidate)
    requires options.wantFresh && lower(c.query) in options.avoided
    ensures var v := Judge(Ambiguous(lower), options, c); v.Repeated? && v.item.ambiguous
  {
  }

  /** A run over one repeat returns it. */
  lemma UncleanItems(env: Environment, options: Options, pool: seq<Candidate>, c: Candidate)
    requires Sound(env) && Order(env, options, pool) == [c] && options.count >= 1
    requires Judge(env, options, c).Repeated? && Judge(env, options, c).item.ambiguous
    ensures !AlwaysClean(env.lower, options)
  {
    hide Judge, Sound, Order;
    var item := Judge(env, options, c).item;
    assert [c][..0] == [] && [c][..1] == [c];
    assert TallyOf(env, options, [c]) == Tally([], [], [item], []);
    assert Runs(env, options, pool, Never, Stop(1, false), [item]);
    assert item in [item];
  }

  // ----- Items and candidates, told by what the probes and the building give

  /** The difficulty is admitted at the level. */
  predicate Admits(level: Level, difficulty: Difficulty) {
    || level == Deep || difficulty == Beginner || (level == IntermediateLevel && difficulty == Intermediate)
  }

  /** The caller has had the word, by its language and text or by its text alone. */
  predicate Known(lower: string -> string, avoided: set<string>, c: Candidate) {
    lower(c.language + ":" + c.query) in avoided || lower(c.query) in avoided
  }

  /** The candidate can be probed at all. */
  predicate Probed(env: Environment, options: Options, c: Candidate) {
    Admits(options.level, c.difficulty) && (options.wantFresh || !Known(env.lower, options.avoided, c))
  }

  lemma EligibleIsProbed(env: Environment, options: Options, c: Candidate)
    ensures Eligible(env, options, c) <==> Probed(env, options, c)
  {
  }

  /** The item is what the probe and the building give for the candidate, and says whether the word is known. */
  ghost predicate MadeOf(env: Environment, options: Options, c: Candidate, item: Item) {
    var known := Known(env.lower, options.avoided, c);
    && env.probe(c).Done? && env.build(c, env.probe(c).value) == Some(Draft(item.content, item.ambiguous))
    && item.candidate == c && item.isRepeat == known
    && item.note == if !known then OutsideAvoidList else if options.wantFresh then FreshExhausted else MatchedAvoidList
  }

  /** The candidate's item is made, not known if fresh words are wanted, and not ambiguous if that needs leave. */
  ghost predicate Fit(env: Environment, options: Options, c: Candidate) {
    && env.probe(c).Done? && env.build(c, env.probe(c).value).Some?
    && !(options.wantFresh && Known(env.lower, options.avoided, c))
    && (options.includeAmbiguous || !env.build(c, env.probe(c).value).value.ambiguous)
  }

  lemma JudgeMeans(env: Environment, options: Options, c: Candidate)
    requires forall s :: env.lower(env.lower(s)) == env.lower(s)
    ensures var v := Judge(env, options, c);
      && (v.Rejected? || MadeOf(env, options, c, v.item))
      && (v.Accepted? <==> Fit(env, options, c))
      && (v.Repeated? ==> options.wantFresh && v.item.isRepeat)
      && (v.Deferred? ==> v.item.ambiguous && !options.includeAmbiguous && !options.requireCleanPrimary)
      && (v.Accepted? ==> (v.item.ambiguous ==> options.includeAmbiguous))
  {
    var reduction := env.probe(c);
    if reduction.Done? && env.build(c, reduction.value).Some? {
      var draft := env.build(c, reduction.value).value;
      assert draft == Draft(draft.content, draft.ambiguous);
    }
  }

  lemma SoundLowers(env: Environment)
    requires Sound(env)
    ensures forall s :: env.lower(env.lower(s)) == env.lower(s)
  {
  }

  /** Every item is made of a candidate of the pool, and an ambiguous one needs leave. */
  lemma ItemsAreMade(env: Environment, options: Options, pool: seq<Candidate>, late: nat -> bool, stop: Stop,
                     items: seq<Item>, item: Item)
    requires Sound(env) && Runs(env, options, pool, late, stop, items) && item in items
    ensures item.candidate in pool && Probed(env, options, item.candidate) && MadeOf(env, options, item.candidate, item)
    ensures item.ambiguous ==> options.includeAmbiguous || !options.requireCleanPrimary || item.isRepeat
  {
    hide Judge, Sound, Runs, Eligible, Probed;
    ItemsAreEligible(env, options, pool, late, stop, items, item);
    var c :| c in pool && Eligible(env, options, c)
      && Judge(env, options, c) in {Accepted(item), Deferred(item), Repeated(item)};
    EligibleIsProbed(env, options, c);
    SoundLowers(env);
    JudgeMeans(env, options, c);
  }

  /** Unless the time runs out or the count is reached, every fit candidate of the pool gives an item. */
  lemma FitCandidatesReturned(env: Environment, options: Options, pool: seq<Candidate>, late: nat -> bool, stop: Stop,
                              items: seq<Item>, c: Candidate)
    requires Sound(env) && Runs(env, options, pool, late, stop, items)
    requires !stop.timedOut && |items| < options.count
    requires c in pool && Probed(env, options, c) && Fit(env, options, c)
    ensures exists item :: item in items && MadeOf(env, options, c, item)
  {
    hide Judge, Sound, Eligible, Probed, TallyOf, Full, Fit, MadeOf;
    var cs := Order(env, options, pool);
    var t := TallyAt(env, options, pool, stop);
    InFilled(options, t);
    NotFilled(env, options, pool, late, stop, items);
    assert stop.probed == |cs| && cs[..stop.probed] == cs;
    EligibleIsProbed(env, options, c);
    SoundLowers(env);
    JudgeMeans(env, options, c);
    ArrangedKeeps(env, options, pool, c);
    var i :| 0 <= i < |cs| && cs[i] == c;
    TallyFrom(env, options, cs, Judge(env, options, c).item);
  }

  lemma InFilled(options: Options, t: Tally)
    ensures |t.accepted| <= |FilledUp(options, t)| && t.accepted <= FilledUp(options, t)
  {
  }
}
