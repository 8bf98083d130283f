/** How far a preferred lemma, and how far the quality of its text, moves a bucket in the ranking. */
module LemmaRanking {
  import opened TextQuality

  const RANKING_MISSING := 1_000_000_000_000

  // ----- The rank of a bucket among the preferred lemmas

  /** `keys` finds the comparison keys of a lemma; the empty text has none that count. */
  function KeysOf(keys: string -> set<string>, value: string): set<string> {
    if value == "" then {} else keys(value)
  }

  predicate Meets(keys: string -> set<string>, preferred: string, bucket: set<string>) {
    exists k :: k in KeysOf(keys, preferred) && k in bucket
  }

  /** The rank is the first preferred lemma that shares a key with the bucket. */
  ghost predicate RanksAt(keys: string -> set<string>, preferred: seq<string>, bucket: set<string>, rank: int) {
    if rank == RANKING_MISSING then forall i :: 0 <= i < |preferred| ==> !Meets(keys, preferred[i], bucket)
    else 0 <= rank < |preferred| && Meets(keys, preferred[rank], bucket)
         && forall i :: 0 <= i < rank ==> !Meets(keys, preferred[i], bucket)
  }

  /** The first of some lemmas that has the key. */
  ghost predicate FirstWith(keys: string -> set<string>, preferred: seq<string>, k: string, at: nat) {
    at < |preferred| && k in KeysOf(keys, preferred[at]) && forall i :: 0 <= i < at ==> k !in KeysOf(keys, preferred[i])
  }

  ghost predicate Indexes(index: map<string, nat>, keys: string -> set<string>, preferred: seq<string>, n: nat)
    requires n <= |preferred|
  {
    && (forall k :: k in index ==> index[k] < n && FirstWith(keys, preferred, k, index[k]))
    && (forall i, k :: 0 <= i < n && k in KeysOf(keys, preferred[i]) ==> k in index)
  }

  /** `setdefault` for each key of one lemma. */
  function Defaulted(index: map<string, nat>, more: set<string>, at: nat): map<string, nat> {
    map k | k in index.Keys + more :: if k in index then index[k] else at
  }

  lemma IndexesMore(index: map<string, nat>, keys: string -> set<string>, preferred: seq<string>, n: nat)
    requires n < |preferred| && Indexes(index, keys, preferred, n)
    ensures Indexes(Defaulted(index, KeysOf(keys, preferred[n]), n), keys, preferred, n + 1)
  {
    hide KeysOf;
  }

  /** `preferred_lemma_rank`; `bucket` holds the keys of the lemmas of the bucket. */
  method PreferredLemmaRank(keys: string -> set<string>, preferred: seq<string>, bucket: set<string>)
    returns (rank: int)
    requires |preferred| <= RANKING_MISSING
    ensures RanksAt(keys, preferred, bucket, rank)
  {
    if preferred == [] {
      return RANKING_MISSING;
    }
    var index: map<string, nat> := map[];
    for i := 0 to |preferred|
      invariant Indexes(index, keys, preferred, i)
    {
      IndexesMore(index, keys, preferred, i);
      if preferred[i] == "" {
        assert Defaulted(index, {}, i) == index;
        continue;
      }
      index := Defaulted(index, keys(preferred[i]), i);
    }
    var found := bucket * index.Keys;
    rank := RANKING_MISSING;
    var left := found;
    while left != {}
      invariant left <= found
      invariant rank == RANKING_MISSING || exists k :: k in found && index[k] == rank
      invariant forall k :: k in found - left ==> rank <= index[k]
      decreases |left|
    {
      var k :| k in left;
      if index[k] < rank {
        rank := index[k];
      }
      left := left - {k};
    }
    LeastIsFirst(index, keys, preferred, bucket, rank);
  }

  /** The least index of a shared key is the first lemma that shares one. */
  lemma LeastIsFirst(index: map<string, nat>, keys: string -> set<string>, preferred: seq<string>,
                     bucket: set<string>, rank: int)
    requires |preferred| <= RANKING_MISSING && Indexes(index, keys, preferred, |preferred|)
    requires rank == RANKING_MISSING || exists k :: k in bucket && k in index && index[k] == rank
    requires forall k :: k in bucket && k in index ==> rank <= index[k]
    ensures RanksAt(keys, preferred, bucket, rank)
  {
    hide KeysOf;
    forall i | 0 <= i < |preferred| && Meets(keys, preferred[i], bucket)
      ensures rank <= i
    {
      var k :| k in KeysOf(keys, preferred[i]) && k in bucket;
      assert FirstWith(keys, preferred, k, index[k]);
    }
  }

  // ----- The quality of a text

  /** What the heuristics find in the text of a bucket. */
  datatype Findings = Findings(
    headerFragment: bool, sectionLabel: bool, citationHeavy: bool, grammarians: bool, compound: bool,
    crossReference: bool, shortSing: bool, restraint: bool, duties: bool, contract: bool, observance: bool,
    ruleOfNecessity: bool, pronoun: bool, auspicious: bool, agent: bool, verbClass: bool, romanSection: bool)

  function If(b: bool, n: int): int {
    if b then n else 0
  }

  function Min(a: int, b: int): int {
    if a < b then a else b
  }

  function GenericAdjustment(f: Findings): int {
    If(f.headerFragment, 320) + If(f.sectionLabel, 220) + If(f.citationHeavy, 90) + If(f.grammarians, 80)
    + If(f.compound, 30) + If(f.crossReference, 40) + If(f.shortSing, -250)
  }

  function PedagogicalScore(f: Findings): int {
    Min(If(f.restraint, -90), Min(If(f.duties, -80), Min(If(f.contract, -40),
      Min(If(f.observance, -70), If(f.ruleOfNecessity, -60)))))
  }

  /** `bucket_learner_quality_order` */
  function QualityOrder(f: Findings): int {
    var generic := GenericAdjustment(f);
    var pedagogical := PedagogicalScore(f);
    (if pedagogical < 0 then Min(generic, pedagogical) else generic)
    + If(f.pronoun, -30) + If(f.auspicious, -30)
    + If(f.agent, 20) + If(f.verbClass, -15) + If(f.romanSection, 30)
  }

  /** `effective_preferred_lemma_rank` */
  function EffectiveRank(rank: int, quality: int): int {
    if rank >= RANKING_MISSING then rank else rank * 100 + quality
  }

  ghost function FindingsOf(classes: Classes, text: string, tools: set<string>): Findings {
    Findings(
      HeaderFragment(text), SectionLabel(classes, text), CitationHeavy(classes, text), Grammarians(text),
      Compound(text), CrossReference(classes, text), ShortSing(text),
      Contains(text, "restraint of the mind"), Contains(text, "positive duties"),
      Contains(text, "agreement, contract, promise, vow"), Observance(text), RuleOfNecessity(text), Pronoun(text),
      Auspicious(text, tools), Agent(text, tools), VerbClass(classes, text, tools), RomanSection(text, tools))
  }

  ghost function QualityOf(classes: Classes, text: string, tools: set<string>): int {
    QualityOrder(FindingsOf(classes, text, tools))
  }

  /** No header, a section label alone but for the agent's mark, and no heavily cited text that is short. */
  predicate Possible(f: Findings) {
    && !f.headerFragment
    && (f.sectionLabel ==> !f.citationHeavy && !f.grammarians && !f.compound && !f.crossReference && !f.romanSection)
    && !(f.shortSing && f.citationHeavy)
  }

  lemma FindingsPossible(classes: Classes, text: string, tools: set<string>)
    requires Sane(classes) && Casefolded(text)
    ensures Possible(FindingsOf(classes, text, tools))
  {
    NoHeader(text);
    ShortIsNotCitationHeavy(classes, text);
    if SectionLabel(classes, text) {
      LabelStandsAlone(classes, text, tools);
    }
    hide HeaderFragment, SectionLabel, CitationHeavy, Grammarians, Compound, CrossReference, ShortSing, RomanSection,
         Contains, Observance, RuleOfNecessity, Pronoun, Auspicious, Agent, VerbClass;
  }

  lemma PossibleRange(f: Findings)
    requires Possible(f)
    ensures -325 <= QualityOrder(f) <= 290
  {
  }

  /** Whatever a casefolded text says, its learner quality is in this range. */
  lemma QualityRange(classes: Classes, text: string, tools: set<string>)
    requires Sane(classes) && Casefolded(text)
    ensures -325 <= QualityOf(classes, text, tools) <= 290
  {
    hide FindingsOf, Possible, QualityOrder;
    FindingsPossible(classes, text, tools);
    PossibleRange(FindingsOf(classes, text, tools));
  }

  /** What the smaller marks add, whatever else was found. */
  function Marks(f: Findings): int {
    (if f.pronoun then -30 else 0) + (if f.auspicious then -30 else 0) + (if f.agent then 20 else 0)
    + (if f.verbClass then -15 else 0) + (if f.romanSection then 30 else 0)
  }

  /** What the general findings add. */
  function General(f: Findings): int {
    (if f.headerFragment then 320 else 0) + (if f.sectionLabel then 220 else 0) + (if f.citationHeavy then 90 else 0)
    + (if f.grammarians then 80 else 0) + (if f.compound then 30 else 0) + (if f.crossReference then 40 else 0)
    - (if f.shortSing then 250 else 0)
  }

  lemma GeneralMeans(f: Findings)
    ensures GenericAdjustment(f) == General(f)
  {
  }

  /** The score of the pedagogical terms is the least of those found, and nothing without any. */
  ghost predicate LeastTerm(f: Findings, score: int) {
    && (f.restraint ==> score <= -90) && (f.duties ==> score <= -80) && (f.contract ==> score <= -40)
    && (f.observance ==> score <= -70) && (f.ruleOfNecessity ==> score <= -60)
    && (|| (f.restraint && score == -90) || (f.duties && score == -80) || (f.contract && score == -40)
        || (f.observance && score == -70) || (f.ruleOfNecessity && score == -60)
        || (score == 0 && !f.restraint && !f.duties && !f.contract && !f.observance && !f.ruleOfNecessity))
  }

  lemma PedagogicalIsLeast(f: Findings)
    ensures LeastTerm(f, PedagogicalScore(f))
  {
  }

  /**
   The quality is the marks and, of the general findings and the scores of the pedagogical terms found, the least:
   a term can only improve a text.
   */
  lemma QualityIsLeast(f: Findings) returns (term: int)
    ensures LeastTerm(f, term)
    ensures QualityOrder(f) == Marks(f) + if term < 0 && term < General(f) then term else General(f)
  {
    hide GenericAdjustment, General, PedagogicalScore, LeastTerm;
    GeneralMeans(f);
    PedagogicalIsLeast(f);
    term := PedagogicalScore(f);
  }

  /** A rank weighs a hundred, and a bucket without a preferred lemma stays at a million million. */
  lemma RankWeighs(rank: int, quality: int)
    ensures rank < 1_000_000_000_000 ==> EffectiveRank(rank, quality) - quality == 100 * rank
    ensures rank >= 1_000_000_000_000 ==> EffectiveRank(rank, quality) == rank
  {
  }
}
