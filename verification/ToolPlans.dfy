/** Tool plans, the effects their calls produce, and the tools that run them. */
module ToolPlans {
  import opened Outcomes

  type CallId = string

  datatype Stage = Fetch | Extract | Derive | Claim | Unsupported(code: int)

  datatype ToolCall = ToolCall(
    callId: CallId,
    tool: string,
    endpoint: string,
    params: map<string, string>,
    stage: Stage,
    optional: bool)

  datatype Dependency = Dependency(fromCallId: CallId, toCallId: CallId)

  datatype ToolPlan = ToolPlan(
    planId: string,
    planHash: string,
    toolCalls: seq<ToolCall>,
    dependencies: seq<Dependency>)

  datatype RawResponse = RawResponse(
    responseId: string,
    tool: string,
    callId: CallId,
    endpoint: string,
    statusCode: int,
    contentType: string,
    headers: map<string, string>,
    body: string)

  datatype ResponseRef = ResponseRef(tool: string, callId: CallId, responseId: string, cached: bool)

  datatype Extraction = Extraction(
    extractionId: string,
    tool: string,
    callId: CallId,
    sourceCallId: CallId,
    responseId: string,
    kind: string,
    canonical: Option<string>,
    payload: string,
    handlerVersion: Option<string>)

  datatype Derivation = Derivation(
    derivationId: string,
    tool: string,
    callId: CallId,
    sourceCallId: CallId,
    extractionId: string,
    kind: string,
    canonical: Option<string>,
    payload: string,
    handlerVersion: Option<string>)

  datatype ClaimEffect = ClaimEffect(
    claimId: string,
    tool: string,
    callId: CallId,
    sourceCallId: CallId,
    derivationId: string,
    subject: string,
    predicateName: string,
    value: string,
    handlerVersion: Option<string>)

  datatype SkippedCall = SkippedCall(
    callId: CallId,
    tool: string,
    stage: Stage,
    reason: string,
    sourceCallId: Option<CallId>)

  datatype ExecutionError =
    | MissingClient(tool: string)
    | MissingHandler(stage: Stage, tool: string)
    | MissingSource(callId: CallId)
    | UnsupportedStage(callId: CallId)
    | DependencyCycle
    | ToolFailure(message: string)

  // ----- Tools: deterministic, possibly raising (with a message), otherwise unknown

  datatype Client = Client(
    execute: (CallId, string, map<string, string>) -> Attempt<RawResponse, string>)

  datatype ExtractHandler = ExtractHandler(
    run: (ToolCall, RawResponse) -> Attempt<Extraction, string>,
    version: Option<string>)

  datatype DeriveHandler = DeriveHandler(
    run: (ToolCall, Extraction) -> Attempt<Derivation, string>,
    version: Option<string>)

  datatype ClaimHandler = ClaimHandler(
    run: (ToolCall, Derivation) -> Attempt<ClaimEffect, string>,
    version: Option<string>)

  /** A handler table, with the fallback a `defaultdict` supplies. */
  datatype Handlers<+H> = Handlers(byTool: map<string, H>, fallback: Option<H>) {
    function Get(tool: string): Option<H> {
      if tool in byTool then Some(byTool[tool]) else fallback
    }
  }

  datatype Tools = Tools(
    clients: map<string, Client>,
    extract: Handlers<ExtractHandler>,
    derive: Handlers<DeriveHandler>,
    claim: Handlers<ClaimHandler>)

  function SourceOf(call: ToolCall): CallId {
    if "source_call_id" in call.params then call.params["source_call_id"] else ""
  }

  function RefTo(raw: RawResponse): ResponseRef {
    ResponseRef(raw.tool, raw.callId, raw.responseId, false)
  }

  // ----- What one call comes to, once its source is known

  datatype Verdict =
    | Cached
    | Fetched(raw: RawResponse)
    | Extracted(extraction: Extraction)
    | Derived(derivation: Derivation)
    | Claimed(claim: ClaimEffect)
    | Skip(record: SkippedCall)
    | Fail(error: ExecutionError)

  /** An optional call that cannot run is recorded as skipped; a required one raises. */
  function Decline(call: ToolCall, reason: string, source: Option<CallId>, error: ExecutionError): Verdict {
    if call.optional
    then Skip(SkippedCall(call.callId, call.tool, call.stage, reason, source))
    else Fail(error)
  }

  function RunClient(tools: Tools, call: ToolCall): Attempt<RawResponse, ExecutionError> {
    if call.tool !in tools.clients then
      Raised(MissingClient(call.tool))
    else
      match tools.clients[call.tool].execute(call.callId, call.endpoint, call.params)
      case Raised(message) => Raised(ToolFailure(message))
      case Done(raw) => Done(raw)
  }

  function FetchVerdict(tools: Tools, call: ToolCall, cached: bool): Verdict {
    if cached then
      Cached
    else if call.tool !in tools.clients then
      Decline(call, "missing_client", None, MissingClient(call.tool))
    else
      match RunClient(tools, call)
      case Raised(error) => Fail(error)
      case Done(raw) => Fetched(raw)
  }

  function ExtractVerdict(tools: Tools, call: ToolCall, source: Option<RawResponse>): Verdict {
    match tools.extract.Get(call.tool)
    case None => Decline(call, "missing_extract_handler", None, MissingHandler(Extract, call.tool))
    case Some(handler) =>
      match source
      case None => Decline(call, "missing_source_extract", Some(SourceOf(call)), MissingSource(call.callId))
      case Some(raw) =>
        match handler.run(call, raw)
        case Raised(message) => Fail(ToolFailure(message))
        case Done(effect) =>
          Extracted(if handler.version.Some? then effect.(handlerVersion := handler.version) else effect)
  }

  function DeriveVerdict(tools: Tools, call: ToolCall, source: Option<Extraction>): Verdict {
    match tools.derive.Get(call.tool)
    case None => Decline(call, "missing_derive_handler", None, MissingHandler(Derive, call.tool))
    case Some(handler) =>
      match source
      case None => Decline(call, "missing_source_derive", Some(SourceOf(call)), MissingSource(call.callId))
      case Some(extraction) =>
        match handler.run(call, extraction)
        case Raised(message) => Fail(ToolFailure(message))
        case Done(effect) =>
          Derived(if handler.version.Some? then effect.(handlerVersion := handler.version) else effect)
  }

  function ClaimVerdict(tools: Tools, call: ToolCall, source: Option<Derivation>): Verdict {
    match tools.claim.Get(call.tool)
    case None => Decline(call, "missing_claim_handler", None, MissingHandler(Claim, call.tool))
    case Some(handler) =>
      match source
      case None => Decline(call, "missing_source_claim", Some(SourceOf(call)), MissingSource(call.callId))
      case Some(derivation) =>
        match handler.run(call, derivation)
        case Raised(message) => Fail(ToolFailure(message))
        case Done(effect) =>
          Claimed(if handler.version.Some? then effect.(handlerVersion := handler.version) else effect)
  }

  // ----- Plans as ordered tables keyed by call id

  predicate DistinctIds(calls: seq<ToolCall>) {
    forall i, j :: 0 <= i < j < |calls| ==> calls[i].callId != calls[j].callId
  }

  function Ids(calls: seq<ToolCall>): (ids: set<CallId>) {
    set call <- calls :: call.callId
  }

  /** The insertion-ordered dictionary update `table[call.call_id] = call`. */
  function Put(table: seq<ToolCall>, call: ToolCall): (r: seq<ToolCall>)
    requires DistinctIds(table)
    ensures DistinctIds(r)
    ensures Ids(r) == Ids(table) + {call.callId}
    ensures call in r
    ensures forall c :: c in table && c.callId != call.callId ==> c in r
    ensures forall c :: c in r ==> c == call || c in table
  {
    if i :| 0 <= i < |table| && table[i].callId == call.callId then
      assert forall c :: c in table && c.callId != call.callId ==> c in table[i := call] by {
        forall c | c in table && c.callId != call.callId ensures c in table[i := call] {
          var k :| 0 <= k < |table| && table[k] == c;
          assert table[i := call][k] == c;
        }
      }
      assert table[i := call][i] == call;
      table[i := call]
    else
      table + [call]
  }
}
