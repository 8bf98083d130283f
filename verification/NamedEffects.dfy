/** Handlers that name an effect after its call and its source: they carry any renaming of response ids through. */
module NamedEffects {
  import opened Outcomes
  import opened ToolPlans
  import opened Renamings

  /** How the id of an effect is made of its tool, its call and the id of its source. */
  type Naming = (string, CallId, string) -> string

  datatype Namings = Namings(extraction: Naming, derivation: Naming, claim: Naming)

  /** Different sources give different names, and names that coincide do so for every source. */
  ghost predicate TellsSources(name: Naming) {
    forall tool, call, id, otherTool, otherCall, otherId ::
      name(tool, call, id) == name(otherTool, otherCall, otherId) ==>
      id == otherId && forall x :: name(tool, call, x) == name(otherTool, otherCall, x)
  }

  ghost predicate TellSources(names: Namings) {
    TellsSources(names.extraction) && TellsSources(names.derivation) && TellsSources(names.claim)
  }

  // ----- Handlers that use the id of their source for names only

  predicate SameExtraction(names: Namings, call: ToolCall, id: string, made: Attempt<Extraction, string>,
                           again: Attempt<Extraction, string>) {
    if made.Raised? then again.Raised?
    else
      again == Done(made.value.(responseId := id, extractionId := names.extraction(call.tool, call.callId, id)))
  }

  predicate SameDerivation(names: Namings, call: ToolCall, id: string, made: Attempt<Derivation, string>,
                           again: Attempt<Derivation, string>) {
    if made.Raised? then again.Raised?
    else
      again == Done(made.value.(extractionId := id, derivationId := names.derivation(call.tool, call.callId, id)))
  }

  predicate SameClaim(names: Namings, call: ToolCall, id: string, made: Attempt<ClaimEffect, string>,
                      again: Attempt<ClaimEffect, string>) {
    if made.Raised? then again.Raised?
    else again == Done(made.value.(derivationId := id, claimId := names.claim(call.tool, call.callId, id)))
  }

  /** On a source with other ids a handler makes the same effect, but for the names. */
  ghost predicate NamesOnly(names: Namings, tools: Tools) {
    && (forall call: ToolCall, raw: RawResponse, id: string :: tools.extract.Get(call.tool).Some? ==>
          var run := tools.extract.Get(call.tool).value.run;
          SameExtraction(names, call, id, run(call, raw), run(call, raw.(responseId := id))))
    && (forall call: ToolCall, extraction: Extraction, id: string, rid: string :: tools.derive.Get(call.tool).Some? ==>
          var run := tools.derive.Get(call.tool).value.run;
          SameDerivation(names, call, id, run(call, extraction),
                         run(call, extraction.(extractionId := id, responseId := rid))))
    && (forall call: ToolCall, derivation: Derivation, id: string, eid: string :: tools.claim.Get(call.tool).Some? ==>
          var run := tools.claim.Get(call.tool).value.run;
          SameClaim(names, call, id, run(call, derivation),
                    run(call, derivation.(derivationId := id, extractionId := eid))))
  }

  // ----- The renaming of effects that a renaming of response ids amounts to

  /** The name for the renamed source, if `named` is a name. */
  ghost function Renamed(name: Naming, rename: string -> string, named: string): string {
    if tool, call, id :| named == name(tool, call, id) then name(tool, call, rename(id)) else named
  }

  lemma RenamesNames(name: Naming, rename: string -> string, tool: string, call: CallId, id: string)
    requires TellsSources(name)
    ensures Renamed(name, rename, name(tool, call, id)) == name(tool, call, rename(id))
  {
  }

  ghost function ByIds(names: Namings, rename: string -> string): Renaming {
    var onExtractions := (id: string) => Renamed(names.extraction, rename, id);
    var onDerivations := (id: string) => Renamed(names.derivation, onExtractions, id);
    var onClaims := (id: string) => Renamed(names.claim, onDerivations, id);
    Renaming(
      (raw: RawResponse) => raw.(responseId := rename(raw.responseId)),
      (extraction: Extraction) => extraction.(
        responseId := rename(extraction.responseId), extractionId := onExtractions(extraction.extractionId)),
      (derivation: Derivation) => derivation.(
        extractionId := onExtractions(derivation.extractionId), derivationId := onDerivations(derivation.derivationId)),
      (claim: ClaimEffect) => claim.(
        derivationId := onDerivations(claim.derivationId), claimId := onClaims(claim.claimId)))
  }

  lemma ExtractCarries(names: Namings, rename: string -> string, tools: Tools, call: ToolCall, raw: RawResponse)
    requires NamesOnly(names, tools) && TellSources(names)
    ensures var ren := ByIds(names, rename);
      Renames(ren, ExtractVerdict(tools, call, Some(raw)), ExtractVerdict(tools, call, Some(ren.raw(raw))))
  {
    hide TellsSources, Renamed;
    var handler := tools.extract.Get(call.tool);
    if handler.Some? {
      var run := handler.value.run;
      assert SameExtraction(names, call, raw.responseId, run(call, raw), run(call, raw.(responseId := raw.responseId)));
      assert raw.(responseId := raw.responseId) == raw;
      assert SameExtraction(names, call, rename(raw.responseId), run(call, raw),
                            run(call, raw.(responseId := rename(raw.responseId))));
      RenamesNames(names.extraction, rename, call.tool, call.callId, raw.responseId);
    }
  }

  lemma DeriveCarries(names: Namings, rename: string -> string, tools: Tools, call: ToolCall, extraction: Extraction)
    requires NamesOnly(names, tools) && TellSources(names)
    ensures var ren := ByIds(names, rename);
      Renames(ren, DeriveVerdict(tools, call, Some(extraction)),
              DeriveVerdict(tools, call, Some(ren.extraction(extraction))))
  {
    hide TellsSources, Renamed;
    var handler := tools.derive.Get(call.tool);
    if handler.Some? {
      var run := handler.value.run;
      var onExtractions := (id: string) => Renamed(names.extraction, rename, id);
      var id := extraction.extractionId;
      assert extraction.(extractionId := id, responseId := extraction.responseId) == extraction;
      assert SameDerivation(names, call, id, run(call, extraction),
                            run(call, extraction.(extractionId := id, responseId := extraction.responseId)));
      assert SameDerivation(names, call, onExtractions(id), run(call, extraction), run(call, extraction.(
        extractionId := onExtractions(id), responseId := rename(extraction.responseId))));
      RenamesNames(names.derivation, onExtractions, call.tool, call.callId, id);
    }
  }

  lemma ClaimCarries(names: Namings, rename: string -> string, tools: Tools, call: ToolCall, derivation: Derivation)
    requires NamesOnly(names, tools) && TellSources(names)
    ensures var ren := ByIds(names, rename);
      Renames(ren, ClaimVerdict(tools, call, Some(derivation)),
              ClaimVerdict(tools, call, Some(ren.derivation(derivation))))
  {
    hide TellsSources, Renamed;
    var handler := tools.claim.Get(call.tool);
    if handler.Some? {
      var run := handler.value.run;
      var onExtractions := (id: string) => Renamed(names.extraction, rename, id);
      var onDerivations := (id: string) => Renamed(names.derivation, onExtractions, id);
      var id := derivation.derivationId;
      assert derivation.(derivationId := id, extractionId := derivation.extractionId) == derivation;
      assert SameClaim(names, call, id, run(call, derivation),
                       run(call, derivation.(derivationId := id, extractionId := derivation.extractionId)));
      assert SameClaim(names, call, onDerivations(id), run(call, derivation), run(call, derivation.(
        derivationId := onDerivations(id), extractionId := onExtractions(derivation.extractionId))));
      RenamesNames(names.claim, onDerivations, call.tool, call.callId, id);
    }
  }

  /** Such handlers carry every renaming of response ids through, to the names of claims. */
  lemma NamingHandlersCommute(names: Namings, rename: string -> string, tools: Tools)
    requires NamesOnly(names, tools) && TellSources(names)
    ensures Commutes(ByIds(names, rename), tools)
  {
    hide NamesOnly, TellSources, ByIds, Renames;
    var ren := ByIds(names, rename);
    forall call, raw
      ensures Renames(ren, ExtractVerdict(tools, call, Some(raw)), ExtractVerdict(tools, call, Some(ren.raw(raw))))
    {
      ExtractCarries(names, rename, tools, call, raw);
    }
    forall call, extraction
      ensures Renames(ren, DeriveVerdict(tools, call, Some(extraction)),
                      DeriveVerdict(tools, call, Some(ren.extraction(extraction))))
    {
      DeriveCarries(names, rename, tools, call, extraction);
    }
    forall call, derivation
      ensures Renames(ren, ClaimVerdict(tools, call, Some(derivation)),
                      ClaimVerdict(tools, call, Some(ren.derivation(derivation))))
    {
      ClaimCarries(names, rename, tools, call, derivation);
    }
  }

  // ----- An instance: handlers that give an effect the id of its source

  function SourceName(tool: string, call: CallId, id: string): string {
    id
  }

  function Copying(clients: map<string, Client>): Tools {
    Tools(clients,
          Handlers(map[], Some(ExtractHandler((call: ToolCall, raw: RawResponse) => Done(Extraction(
            raw.responseId, call.tool, call.callId, SourceOf(call), raw.responseId, "", None, raw.body, None)), None))),
          Handlers(map[], Some(DeriveHandler((call: ToolCall, extraction: Extraction) => Done(Derivation(
            extraction.extractionId, call.tool, call.callId, SourceOf(call), extraction.extractionId, "", None,
            extraction.payload, None)), None))),
          Handlers(map[], Some(ClaimHandler((call: ToolCall, derivation: Derivation) => Done(ClaimEffect(
            derivation.derivationId, call.tool, call.callId, SourceOf(call), derivation.derivationId, "", "",
            derivation.payload, None)), None))))
  }

  /** They carry through a renaming that changes every id. */
  lemma CopyingCommutes(clients: map<string, Client>)
    ensures var ren := ByIds(Namings(SourceName, SourceName, SourceName), id => "cached-" + id);
      Commutes(ren, Copying(clients)) && forall raw :: ren.raw(raw) != raw
  {
    var names := Namings(SourceName, SourceName, SourceName);
    NamingHandlersCommute(names, id => "cached-" + id, Copying(clients));
    forall raw: RawResponse ensures "cached-" + raw.responseId != raw.responseId {
      assert |"cached-" + raw.responseId| > |raw.responseId|;
    }
  }
}
