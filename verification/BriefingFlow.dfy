/** The life of a briefing: built, answered by a model, checked, cached, and found again. */
module BriefingFlow {
  import opened Outcomes
  import opened Json
  import opened Validator
  import opened Briefing
  import opened Splitting

  const PROMPT_VERSION := "encounter-briefing-v1"

  datatype Status = NotRequested | InvalidJson | Rejected | Accepted | CacheHit

  datatype Generation = Generation(
    status: Status,
    model: string,
    promptVersion: string,
    summarySchema: string,
    rawResponse: string,
    issues: seq<Issue>,
    cachedStatus: Option<Status>,
    cacheKey: string)

  datatype Flow = Flow(
    digest: Fields,
    generation: Generation,
    prompt: string,
    draftOutput: Fields,
    modelOutput: Option<Fields>,
    finalOutput: Option<Fields>)

  /** `build_encounter_briefing_flow`; the prompt's only varying part is the digest's JSON text. */
  function BuildFlow(text: TextTools, payload: Fields, model: string, limits: Limits): Flow {
    var digest := DigestOf(text, payload, limits);
    Flow(digest,
         Generation(NotRequested, model, PROMPT_VERSION, SUMMARY_SCHEMA, "", [], None, ""),
         text.encode(digest), DraftOf(text, digest), None, None)
  }

  /** `_normalize_briefing_summary`: a bare caveat string becomes a list. */
  function NormalizeSummary(summary: Fields): Fields {
    match Get(summary, Caveats)
    case Str(caveat) => summary[Caveats := Arr(if Strip(caveat) != "" then [Str(caveat)] else [])]
    case _ => summary
  }

  /** The model's answer as an object, if it is JSON and an object. */
  function ParseResponse(text: TextTools, response: string): Option<Fields> {
    match text.parse(response)
    case Some(Obj(fields)) => Some(fields)
    case _ => None
  }

  /** The answer if the validator accepts it, and the draft otherwise. */
  ghost function FinalOutputOf(text: TextTools, flow: Flow, response: string): Fields {
    var parsed := ParseResponse(text, response);
    if parsed.Some? && Grounded(text.normalize, NormalizeSummary(parsed.value), flow.digest)
    then NormalizeSummary(parsed.value) else flow.draftOutput
  }

  /** `apply_briefing_model_response` */
  method ApplyBriefingModelResponse(text: TextTools, flow: Flow, response: string) returns (output: Flow)
    ensures output.digest == flow.digest && output.prompt == flow.prompt && output.draftOutput == flow.draftOutput
    ensures output.generation.model == flow.generation.model
    ensures output.generation.promptVersion == flow.generation.promptVersion
    ensures output.generation.summarySchema == flow.generation.summarySchema
    ensures output.generation.rawResponse == response
    ensures var parsed := ParseResponse(text, response);
            if parsed.None? then
              && output.generation.status == Status.InvalidJson
              && output.modelOutput == None
              && output.finalOutput == Some(flow.draftOutput)
            else
              && output.modelOutput == Some(NormalizeSummary(parsed.value))
              && output.generation.issues == SummaryIssues(text.normalize, NormalizeSummary(parsed.value), flow.digest)
              && (output.generation.status == Accepted <==>
                    Grounded(text.normalize, NormalizeSummary(parsed.value), flow.digest))
              && (output.generation.status == Accepted ==> output.finalOutput == output.modelOutput)
              && (output.generation.status != Accepted ==>
                    output.generation.status == Rejected && output.finalOutput == Some(flow.draftOutput))
    ensures output.finalOutput == Some(FinalOutputOf(text, flow, response))
    ensures Completed(text, flow, output)
  {
    hide SummaryIssues, Grounded;
    var generation := flow.generation.(rawResponse := response);
    var parsed := ParseResponse(text, response);
    if parsed.None? {
      var issue := Issue(IssueCode.InvalidJson, ModelResponse, "");
      generation := generation.(status := Status.InvalidJson, issues := [issue]);
      return flow.(generation := generation, modelOutput := None, finalOutput := Some(flow.draftOutput));
    }
    var summary := NormalizeSummary(parsed.value);
    var issues := ValidateBriefingSummary(text.normalize, summary, flow.digest);
    generation := generation.(issues := issues);
    if issues != [] {
      generation := generation.(status := Rejected);
      return flow.(generation := generation, modelOutput := Some(summary), finalOutput := Some(flow.draftOutput));
    }
    generation := generation.(status := Accepted);
    return flow.(generation := generation, modelOutput := Some(summary), finalOutput := Some(summary));
  }

  /**
   What every answer leaves of a flow, however it was judged: the inputs as they were, and as
   final output either the draft or a summary the validator accepts.
   */
  ghost predicate Completed(text: TextTools, flow: Flow, output: Flow) {
    && output.digest == flow.digest
    && output.prompt == flow.prompt
    && output.generation.model == flow.generation.model
    && output.generation.promptVersion == flow.generation.promptVersion
    && output.generation.summarySchema == flow.generation.summarySchema
    && output.finalOutput.Some?
    && (output.finalOutput.value == flow.draftOutput || Grounded(text.normalize, output.finalOutput.value, flow.digest))
  }

  /** The flows the program makes: a built flow, answered by whatever the model said. */
  ghost predicate Answered(text: TextTools, output: Flow) {
    exists payload, model, limits :: Completed(text, BuildFlow(text, payload, model, limits), output)
  }

  /**
   End to end: for every payload, model, limits and answer the final output is grounded in the
   flow's digest, and validating it reports nothing.
   */
  lemma FinalOutputGrounded(text: TextTools, output: Flow)
    requires Answered(text, output)
    ensures output.finalOutput.Some?
    ensures Grounded(text.normalize, output.finalOutput.value, output.digest)
    ensures SummaryIssues(text.normalize, output.finalOutput.value, output.digest) == []
  {
    hide DigestOf, DraftOf, Grounded, SummaryIssues;
    var payload, model, limits :| Completed(text, BuildFlow(text, payload, model, limits), output);
    var digest := DigestOf(text, payload, limits);
    BuiltDigestOnForms(text, payload, limits);
    DraftGroundedExactly(text, digest);
    ValidatorExact(text.normalize, output.finalOutput.value, digest);
  }

  /** Building a flow and applying an answer to it, as one run of the program. */
  method RunBriefing(text: TextTools, payload: Fields, model: string, limits: Limits, response: string)
    returns (output: Flow)
    ensures Answered(text, output)
    ensures output.digest == DigestOf(text, payload, limits)
    ensures output.finalOutput.Some? && SummaryIssues(text.normalize, output.finalOutput.value, output.digest) == []
  {
    hide DigestOf, DraftOf, Grounded, SummaryIssues;
    var flow := BuildFlow(text, payload, model, limits);
    output := ApplyBriefingModelResponse(text, flow, response);
    FinalOutputGrounded(text, output);
  }

  // ----- The cache

  function MaterialOf(text: TextTools, flow: Flow): CacheMaterial {
    CacheMaterial(String(Get(flow.digest, EncounterHash)), flow.generation.model, flow.generation.promptVersion,
                  flow.generation.summarySchema, text.hash(flow.prompt))
  }

  /** `briefing_cache_key` */
  function CacheKeyOf(text: TextTools, flow: Flow): string {
    text.keyOf(MaterialOf(text, flow))
  }

  /** Neither the JSON text nor the hashes ever coincide for different inputs. */
  ghost predicate Collisionless(text: TextTools) {
    && (forall a, b :: text.encode(a) == text.encode(b) ==> a == b)
    && (forall a, b :: text.hash(a) == text.hash(b) ==> a == b)
    && (forall a, b :: text.keyOf(a) == text.keyOf(b) ==> a == b)
  }

  class BriefingCache {
    var files: map<string, Flow>

    constructor ()
      ensures files == map[]
    {
      files := map[];
    }

    /** Every file holds an answered flow, under that flow's own key. */
    ghost predicate Valid(text: TextTools)
      reads this
    {
      forall key :: key in files ==> key == CacheKeyOf(text, files[key]) && Answered(text, files[key])
    }

    /** `store_cached_briefing_flow` */
    method Store(text: TextTools, flow: Flow)
      modifies this
      ensures files == old(files)[CacheKeyOf(text, flow) := flow]
      ensures old(Valid(text)) && Answered(text, flow) ==> Valid(text)
    {
      hide Answered, CacheKeyOf;
      files := files[CacheKeyOf(text, flow) := flow];
    }

    /** `load_cached_briefing_flow` */
    method Load(text: TextTools, flow: Flow) returns (found: Option<Flow>)
      ensures found.Some? <==> CacheKeyOf(text, flow) in files
      ensures found.Some? ==>
                var cached := files[CacheKeyOf(text, flow)];
                && found.value.generation.status == CacheHit
                && found.value.generation.cachedStatus == Some(cached.generation.status)
                && found.value.generation.cacheKey == CacheKeyOf(text, flow)
                && found.value.(generation := cached.generation) == cached
      ensures found.Some? && Valid(text) && Collisionless(text) && flow.prompt == text.encode(flow.digest) ==>
                && found.value.digest == flow.digest
                && found.value.finalOutput.Some?
                && Grounded(text.normalize, found.value.finalOutput.value, flow.digest)
    {
      hide Grounded;
      var key := CacheKeyOf(text, flow);
      if key !in files {
        return None;
      }
      var cached := files[key];
      var generation := cached.generation.(
        cachedStatus := Some(cached.generation.status), status := CacheHit, cacheKey := key);
      found := Some(cached.(generation := generation));
      if Valid(text) && Collisionless(text) && flow.prompt == text.encode(flow.digest) {
        SameKeySameDigest(text, flow, cached);
        FinalOutputGrounded(text, cached);
      }
    }
  }

  lemma AnsweredPrompt(text: TextTools, output: Flow)
    requires Answered(text, output)
    ensures output.prompt == text.encode(output.digest)
  {
    hide DigestOf, DraftOf, Grounded;
  }

  /** Without hash collisions, an answered flow found under a flow's key was about the same digest. */
  lemma SameKeySameDigest(text: TextTools, flow: Flow, cached: Flow)
    requires Collisionless(text) && Answered(text, cached)
    requires flow.prompt == text.encode(flow.digest)
    requires CacheKeyOf(text, flow) == CacheKeyOf(text, cached)
    ensures flow.digest == cached.digest
  {
    hide Answered;
    AnsweredPrompt(text, cached);
    assert MaterialOf(text, flow) == MaterialOf(text, cached);
  }

  /** A hit on a valid cache answers the requested encounter, grounded in its own digest. */
  method CachedBriefing(text: TextTools, cache: BriefingCache, payload: Fields, model: string, limits: Limits)
    returns (found: Option<Flow>)
    requires cache.Valid(text) && Collisionless(text)
    ensures found.Some? ==>
              && found.value.digest == DigestOf(text, payload, limits)
              && found.value.finalOutput.Some?
              && Grounded(text.normalize, found.value.finalOutput.value, DigestOf(text, payload, limits))
  {
    hide DigestOf, DraftOf, Grounded;
    found := cache.Load(text, BuildFlow(text, payload, model, limits));
  }

  lemma DigestHash(text: TextTools, payload: Fields, limits: Limits)
    ensures Get(DigestOf(text, payload, limits), EncounterHash) == Str(text.hash(text.encode(payload)))
  {
    hide MeaningsOf, SliceTo, FormsOf, MorphologyForForms, DecompositionRows, PhrasePairsOf, DedupePhrases, UsageRow,
         MorphologyRow, EachRow, Over, Dedupe, String, StringList, StrList, ObjList, MappingList;
  }

  /** Without collisions, two built flows share a key exactly if payload, model and digest are the same. */
  lemma KeysTellFlows(text: TextTools, payload: Fields, model: string, limits: Limits, other: Fields,
                      otherModel: string, otherLimits: Limits)
    requires Collisionless(text)
    ensures CacheKeyOf(text, BuildFlow(text, payload, model, limits)) ==
            CacheKeyOf(text, BuildFlow(text, other, otherModel, otherLimits)) <==>
            payload == other && model == otherModel
            && DigestOf(text, payload, limits) == DigestOf(text, other, otherLimits)
  {
    hide DraftOf, DigestOf, String;
    var flow, otherFlow := BuildFlow(text, payload, model, limits), BuildFlow(text, other, otherModel, otherLimits);
    if CacheKeyOf(text, flow) == CacheKeyOf(text, otherFlow) {
      assert MaterialOf(text, flow) == MaterialOf(text, otherFlow);
      assert text.encode(flow.digest) == text.encode(otherFlow.digest);
      DigestHash(text, payload, limits);
      DigestHash(text, other, otherLimits);
    }
  }
}
