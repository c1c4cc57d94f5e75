/** The strategies that judge the whole summary with one gpt4o call:
    `baseline` (helpers.py:639-644), `counterfactual_debate_extended`
    (helpers.py:442-450) and `knowledge_filtering` (helpers.py:687-698), which
    first asks another model to filter the document. */
module SingleJudge {
  import opened Prompts
  import opened Judge
  import opened Verdicts

  /** baseline: one zero-shot gpt4o call; 1 iff the reply contains "[HALLUCINATED]". */
  method Baseline(oracle: Oracle, document: string, summary: string) returns (r: Result<Bit>)
    modifies oracle
    ensures oracle.log == old(oracle.log) + [Request(Gpt4o, AskZeroshotVerdict(document, summary))]
    ensures oracle.pending == Remaining(old(oracle.pending))
    ensures r.Ok? <==> old(oracle.pending) != []
    ensures r.Ok? ==> (r.value == 1 <==> Text.IsInfix(HallucinatedMarker, old(oracle.pending)[0]))
  {
    var judgement := oracle.Complete(Request(Gpt4o, AskZeroshotVerdict(document, summary)));
    if judgement.Err? {
      return Err(judgement.failure);
    }
    r := Ok(Detect(judgement.value, HallucinatedMarker));
  }

  /** counterfactual_debate_extended: one gpt4o call on document, summary and a
      debate produced elsewhere; 1 iff the reply contains "[HALLUCINATED]". */
  method CounterfactualDebateExtended(oracle: Oracle, document: string, summary: string, debate: string)
    returns (r: Result<Bit>)
    modifies oracle
    ensures oracle.log == old(oracle.log) + [Request(Gpt4o, AskExtendedVerdict(document, summary, debate))]
    ensures oracle.pending == Remaining(old(oracle.pending))
    ensures r.Ok? <==> old(oracle.pending) != []
    ensures r.Ok? ==> (r.value == 1 <==> Text.IsInfix(HallucinatedMarker, old(oracle.pending)[0]))
  {
    var judgement := oracle.Complete(Request(Gpt4o, AskExtendedVerdict(document, summary, debate)));
    if judgement.Err? {
      return Err(judgement.failure);
    }
    r := Ok(Detect(judgement.value, HallucinatedMarker));
  }

  datatype Filtered = Filtered(verdict: Bit, filteredDocument: string)

  /** knowledge_filtering: the filtering model (looked up by id before any call)
      extracts the relevant sentences of the document; gpt4o judges the summary
      against them. The verdict is 1 iff the judge's reply contains "[TRUE]", and
      the filtered document is returned unchanged beside it. */
  method KnowledgeFiltering(oracle: Oracle, filteringModel: string, document: string, summary: string)
    returns (r: Result<Filtered>)
    modifies oracle
    ensures LookupModel(filteringModel).None? ==>
              r == Err(UnknownModel(filteringModel)) && oracle.log == old(oracle.log) &&
              oracle.pending == old(oracle.pending)
    ensures LookupModel(filteringModel).Some? ==>
              var filtering := Request(LookupModel(filteringModel).value, AskKnowledge(document, summary));
              var p := old(oracle.pending);
              if |p| == 0 then
                r == Err(BackendFailure) && oracle.log == old(oracle.log) + [filtering] && oracle.pending == []
              else
                var judging := Request(Gpt4o, AskFilteredVerdict(p[0], summary));
                oracle.log == old(oracle.log) + [filtering, judging] &&
                if |p| == 1 then r == Err(BackendFailure) && oracle.pending == []
                else
                  r.Ok? && r.value.filteredDocument == p[0] && oracle.pending == p[2..] &&
                  (r.value.verdict == 1 <==> Text.IsInfix(TrueMarker, p[1]))
  {
    var found := LookupModel(filteringModel);
    if found.None? {
      return Err(UnknownModel(filteringModel));
    }
    var filteredDocument := oracle.Complete(Request(found.value, AskKnowledge(document, summary)));
    if filteredDocument.Err? {
      return Err(filteredDocument.failure);
    }
    var judgement := oracle.Complete(Request(Gpt4o, AskFilteredVerdict(filteredDocument.value, summary)));
    if judgement.Err? {
      return Err(judgement.failure);
    }
    r := Ok(Filtered(Detect(judgement.value, TrueMarker), filteredDocument.value));
  }
}
