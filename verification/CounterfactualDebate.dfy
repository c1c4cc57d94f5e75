/** `counterfactual_debate` (helpers.py:410-440): the debating model argues,
    in turn, that the summary is hallucinated and that it is supported; each
    side is a claim, a critique of the claim and a defence against the
    critique, every step reading the replies before it. The two records are
    joined and gpt4o, which sees the summary and the debates but not the
    document, gives the verdict. */
module CounterfactualDebate {
  import opened Text
  import opened Prompts
  import opened Wrappers
  import opened Judge
  import opened Verdicts
  import opened Records

  /** What `counterfactual_debate` returns: the verdict and both debate records. */
  datatype DebateOutcome = DebateOutcome(verdict: Bit, hallucinated: string, supported: string)

  function AskClaim(side: Side, document: string, summary: string): Prompt {
    match side
    case HallucinatedSide => AskHallucinationClaim(document, summary)
    case SupportedSide => AskSupportClaim(document, summary)
  }

  function AskCritique(side: Side, document: string, summary: string, claim: string): Prompt {
    match side
    case HallucinatedSide => AskHallucinationCritique(document, summary, claim)
    case SupportedSide => AskSupportCritique(document, summary, claim)
  }

  function AskDefence(side: Side, document: string, summary: string, claim: string, critique: string): Prompt {
    match side
    case HallucinatedSide => AskHallucinationDefence(document, summary, claim, critique)
    case SupportedSide => AskSupportDefence(document, summary, claim, critique)
  }

  /** One side of the debate with replies `pending`: claim, critique of the
      claim, defence of the claim against the critique; the result is the
      side's record. */
  function SideRun(m: Model, side: Side, document: string, summary: string, pending: seq<string>)
    : (run: Run<string>)
    ensures run.result.Ok? <==> |pending| >= 3
    ensures |run.calls| == (if |pending| < 3 then |pending| + 1 else 3)
    ensures forall k :: 0 <= k < |run.calls| ==> run.calls[k].model == m
    ensures run.rest == (if |pending| < 3 then [] else pending[3..])
  {
    var askClaim := Request(m, AskClaim(side, document, summary));
    if |pending| == 0 then Run(Err(BackendFailure), [askClaim], [])
    else
      var askCritique := Request(m, AskCritique(side, document, summary, pending[0]));
      if |pending| == 1 then Run(Err(BackendFailure), [askClaim, askCritique], [])
      else
        var calls := [askClaim, askCritique, Request(m, AskDefence(side, document, summary, pending[0], pending[1]))];
        if |pending| == 2 then Run(Err(BackendFailure), calls, [])
        else Run(Ok(DebateRecord(side, pending[0], pending[1], pending[2])), calls, pending[3..])
  }

  /** The judgement: gpt4o reads the two records and the summary. */
  function JudgeRun(summary: string, recordH: string, recordS: string, pending: seq<string>)
    : (run: Run<DebateOutcome>)
    ensures run.result.Ok? <==> pending != []
    ensures |run.calls| == 1 && run.rest == Remaining(pending)
    ensures run.result.Ok? ==>
              run.result.value.hallucinated == recordH && run.result.value.supported == recordS &&
              (run.result.value.verdict == 1 <==> IsInfix(HallucinatedMarker, pending[0]))
  {
    var judging := Request(Gpt4o, AskDebateVerdict(summary, BothSides(recordH, recordS)));
    if pending == [] then Run(Err(BackendFailure), [judging], [])
    else Run(Ok(DebateOutcome(Detect(pending[0], HallucinatedMarker), recordH, recordS)), [judging], pending[1..])
  }

  /** Everything after the hallucinated side's record `recordH`: the
      supported side, then the judgement. */
  function SecondHalfRun(m: Model, document: string, summary: string, recordH: string, pending: seq<string>)
    : (run: Run<DebateOutcome>)
    ensures run.result.Ok? <==> |pending| >= 4
    ensures |run.calls| == (if |pending| < 4 then |pending| + 1 else 4)
    ensures run.rest == (if |pending| < 4 then [] else pending[4..])
    ensures run.result.Ok? ==> (run.result.value.verdict == 1 <==> IsInfix(HallucinatedMarker, pending[3]))
  {
    var supported := SideRun(m, SupportedSide, document, summary, pending);
    if supported.result.Err? then Run(Err(supported.result.failure), supported.calls, supported.rest)
    else
      var judged := JudgeRun(summary, recordH, supported.result.value, supported.rest);
      assert pending[3..] != [] ==> pending[3..][0] == pending[3] && pending[3..][1..] == pending[4..];
      Run(judged.result, supported.calls + judged.calls, judged.rest)
  }

  /** The whole strategy. The model is looked up before any call, so an
      unknown id sends nothing; a backend failure ends the run after the
      request that failed. */
  function CounterfactualRun(debatingModel: string, document: string, summary: string, pending: seq<string>)
    : (run: Run<DebateOutcome>)
    ensures run.result.Ok? <==> LookupModel(debatingModel).Some? && |pending| >= 7
    ensures LookupModel(debatingModel).None? ==>
              run == Run(Err(UnknownModel(debatingModel)), [], pending)
    ensures LookupModel(debatingModel).Some? ==>
              |run.calls| == (if |pending| < 7 then |pending| + 1 else 7) &&
              run.rest == (if |pending| < 7 then [] else pending[7..])
    ensures run.result.Ok? ==> (run.result.value.verdict == 1 <==> IsInfix(HallucinatedMarker, pending[6]))
  {
    match LookupModel(debatingModel)
    case None => Run(Err(UnknownModel(debatingModel)), [], pending)
    case Some(m) =>
      var hallucinated := SideRun(m, HallucinatedSide, document, summary, pending);
      if hallucinated.result.Err? then Run(Err(hallucinated.result.failure), hallucinated.calls, hallucinated.rest)
      else
        var rest := SecondHalfRun(m, document, summary, hallucinated.result.value, hallucinated.rest);
        assert |pending| >= 7 ==> pending[3..][3] == pending[6] && pending[3..][4..] == pending[7..];
        Run(rest.result, hallucinated.calls + rest.calls, rest.rest)
  }

  method Counterfactual(oracle: Oracle, debatingModel: string, document: string, summary: string)
    returns (r: Result<DebateOutcome>)
    modifies oracle
    ensures var run := CounterfactualRun(debatingModel, document, summary, old(oracle.pending));
            r == run.result && oracle.log == old(oracle.log) + run.calls && oracle.pending == run.rest
  {
    var found := LookupModel(debatingModel);
    if found.None? {
      return Err(UnknownModel(debatingModel));
    }
    var debateH := ArgueSide(oracle, found.value, HallucinatedSide, document, summary);
    if debateH.Err? {
      return Err(debateH.failure);
    }
    var debateS := ArgueSide(oracle, found.value, SupportedSide, document, summary);
    if debateS.Err? {
      return Err(debateS.failure);
    }
    var judgement := oracle.Complete(Request(Gpt4o, AskDebateVerdict(summary, BothSides(debateH.value, debateS.value))));
    if judgement.Err? {
      return Err(judgement.failure);
    }
    r := Ok(DebateOutcome(Detect(judgement.value, HallucinatedMarker), debateH.value, debateS.value));
  }

  /** The three calls of one side, and the record they make. */
  method ArgueSide(oracle: Oracle, m: Model, side: Side, document: string, summary: string)
    returns (r: Result<string>)
    modifies oracle
    ensures var run := SideRun(m, side, document, summary, old(oracle.pending));
            r == run.result && oracle.log == old(oracle.log) + run.calls && oracle.pending == run.rest
  {
    ghost var p := oracle.pending;
    var claim := oracle.Complete(Request(m, AskClaim(side, document, summary)));
    if claim.Err? {
      return Err(claim.failure);
    }
    assert claim.value == p[0] && oracle.pending == p[1..];
    var critique := oracle.Complete(Request(m, AskCritique(side, document, summary, claim.value)));
    if critique.Err? {
      return Err(critique.failure);
    }
    assert critique.value == p[1] && oracle.pending == p[2..];
    var defence := oracle.Complete(Request(m, AskDefence(side, document, summary, claim.value, critique.value)));
    if defence.Err? {
      return Err(defence.failure);
    }
    assert defence.value == p[2] && oracle.pending == p[3..];
    r := Ok(DebateRecord(side, claim.value, critique.value, defence.value));
  }

  // ---- Properties of the specification ----

  /** With a known model and seven replies, the run sends the six debate
      steps to the debating model, in the order of the source, each built on
      the replies before it, then the judgement to gpt4o; it returns both
      records and the verdict read from the seventh reply. */
  lemma SevenCalls(debatingModel: string, document: string, summary: string, pending: seq<string>)
    requires LookupModel(debatingModel).Some? && |pending| >= 7
    ensures var m := LookupModel(debatingModel).value;
            var p := pending;
            var recordH := DebateRecord(HallucinatedSide, p[0], p[1], p[2]);
            var recordS := DebateRecord(SupportedSide, p[3], p[4], p[5]);
            var run := CounterfactualRun(debatingModel, document, summary, pending);
            run.calls == [Request(m, AskHallucinationClaim(document, summary)),
                          Request(m, AskHallucinationCritique(document, summary, p[0])),
                          Request(m, AskHallucinationDefence(document, summary, p[0], p[1])),
                          Request(m, AskSupportClaim(document, summary)),
                          Request(m, AskSupportCritique(document, summary, p[3])),
                          Request(m, AskSupportDefence(document, summary, p[3], p[4])),
                          Request(Gpt4o, AskDebateVerdict(summary, BothSides(recordH, recordS)))] &&
            run.result == Ok(DebateOutcome(Detect(p[6], HallucinatedMarker), recordH, recordS))
  {
    var rest := pending[3..];
    assert rest[0] == pending[3] && rest[1] == pending[4] && rest[2] == pending[5];
  }

  /** A claim is asked about the document and the summary. */
  lemma ClaimReadsInputs(side: Side, document: string, summary: string)
    ensures var c := Messages(AskClaim(side, document, summary));
            Embeds(c, document) && Embeds(c, summary)
  {
    match side
    case HallucinatedSide =>
      assert Messages(AskClaim(side, document, summary)) == HallucinationAbduction(document, summary);
    case SupportedSide =>
      assert Messages(AskClaim(side, document, summary)) == SupportedAbduction(document, summary);
  }

  /** A critique reads the claim it criticises, the document and the summary. */
  lemma CritiqueReadsClaim(side: Side, document: string, summary: string, claim: string)
    ensures var c := Messages(AskCritique(side, document, summary, claim));
            Embeds(c, document) && Embeds(c, summary) && Embeds(c, claim)
  {
    match side
    case HallucinatedSide =>
      assert Messages(AskCritique(side, document, summary, claim)) == HallucinatedCritic(document, summary, claim);
    case SupportedSide =>
      assert Messages(AskCritique(side, document, summary, claim)) == SupportedCritic(document, summary, claim);
  }

  /** A defence reads its claim and the critique, the document and the summary. */
  lemma DefenceReadsClaimAndCritique(side: Side, document: string, summary: string, claim: string, critique: string)
    ensures var c := Messages(AskDefence(side, document, summary, claim, critique));
            Embeds(c, document) && Embeds(c, summary) && Embeds(c, claim) && Embeds(c, critique)
  {
    match side
    case HallucinatedSide =>
      assert Messages(AskDefence(side, document, summary, claim, critique))
             == DefenceHallucination(document, summary, claim, critique);
    case SupportedSide =>
      assert Messages(AskDefence(side, document, summary, claim, critique))
             == DefenceSupported(document, summary, claim, critique);
  }

  /** On either side, every step reads the document and the summary, the
      critique reads the claim, and the defence reads the claim and the
      critique. */
  lemma StepsReadEarlierReplies(m: Model, side: Side, document: string, summary: string, pending: seq<string>)
    requires |pending| >= 3
    ensures var calls := SideRun(m, side, document, summary, pending).calls;
            (forall k :: 0 <= k < 3 ==>
               Embeds(Messages(calls[k].prompt), document) && Embeds(Messages(calls[k].prompt), summary)) &&
            Embeds(Messages(calls[1].prompt), pending[0]) &&
            Embeds(Messages(calls[2].prompt), pending[0]) && Embeds(Messages(calls[2].prompt), pending[1])
  {
    var calls := SideRun(m, side, document, summary, pending).calls;
    assert calls[0].prompt == AskClaim(side, document, summary);
    assert calls[1].prompt == AskCritique(side, document, summary, pending[0]);
    assert calls[2].prompt == AskDefence(side, document, summary, pending[0], pending[1]);
    ClaimReadsInputs(side, document, summary);
    CritiqueReadsClaim(side, document, summary, pending[0]);
    DefenceReadsClaimAndCritique(side, document, summary, pending[0], pending[1]);
  }

  /** The judgement prompt carries both records verbatim, and the summary. */
  lemma VerdictPromptCarriesRecords(summary: string, recordH: string, recordS: string)
    ensures var judging := Messages(AskDebateVerdict(summary, BothSides(recordH, recordS)));
            Embeds(judging, summary) && Embeds(judging, recordH) && Embeds(judging, recordS)
  {
    var debates := BothSides(recordH, recordS);
    var judging := DebateJudge(summary, debates);
    assert Messages(AskDebateVerdict(summary, debates)) == judging;
    BothSidesShape(recordH, recordS);
    EmbedsPart(judging, recordH, debates);
    EmbedsPart(judging, recordS, debates);
  }

  /** The judgement prompt carries every claim, critique and defence of
      both records verbatim, and the summary. */
  lemma VerdictPromptCarriesReplies(summary: string, replies: seq<string>)
    requires |replies| >= 6
    ensures var r := replies;
            var judging := Messages(AskDebateVerdict(summary, BothSides(DebateRecord(HallucinatedSide, r[0], r[1], r[2]),
                                                                       DebateRecord(SupportedSide, r[3], r[4], r[5]))));
            Embeds(judging, summary) && forall i :: 0 <= i < 6 ==> Embeds(judging, r[i])
  {
    var r := replies;
    var recordH := DebateRecord(HallucinatedSide, r[0], r[1], r[2]);
    var recordS := DebateRecord(SupportedSide, r[3], r[4], r[5]);
    var judging := Messages(AskDebateVerdict(summary, BothSides(recordH, recordS)));
    VerdictPromptCarriesRecords(summary, recordH, recordS);
    DebateRecordShape(HallucinatedSide, r[0], r[1], r[2]);
    DebateRecordShape(SupportedSide, r[3], r[4], r[5]);
    forall i | 0 <= i < 6 ensures Embeds(judging, r[i]) {
      if i < 3 {
        EmbedsPart(judging, r[i], recordH);
      } else {
        EmbedsPart(judging, r[i], recordS);
      }
    }
  }

  /** The judge of a run reads all six debate replies verbatim, and the summary. */
  lemma JudgeSeesEveryReply(debatingModel: string, document: string, summary: string, pending: seq<string>)
    requires LookupModel(debatingModel).Some? && |pending| >= 7
    ensures var judging := Messages(CounterfactualRun(debatingModel, document, summary, pending).calls[6].prompt);
            Embeds(judging, summary) && forall i :: 0 <= i < 6 ==> Embeds(judging, pending[i])
  {
    SevenCalls(debatingModel, document, summary, pending);
    VerdictPromptCarriesReplies(summary, pending);
  }

  /** A side that runs out of replies has sent what it would have sent with
      more replies, up to the failing call. */
  lemma SideFailureIsPrefix(m: Model, side: Side, document: string, summary: string,
                            pending: seq<string>, more: seq<string>)
    requires |pending| < 3
    ensures var calls := SideRun(m, side, document, summary, pending).calls;
            calls == SideRun(m, side, document, summary, pending + more).calls[..|calls|]
  {
    if |pending| > 0 {
      assert (pending + more)[0] == pending[0];
    }
    if |pending| > 1 {
      assert (pending + more)[1] == pending[1];
    }
  }

  /** A side reads only its first three replies. */
  lemma SideReadsThreeReplies(m: Model, side: Side, document: string, summary: string,
                              pending: seq<string>, other: seq<string>)
    requires |pending| >= 3 && |other| >= 3 && pending[..3] == other[..3]
    ensures SideRun(m, side, document, summary, pending).result == SideRun(m, side, document, summary, other).result
    ensures SideRun(m, side, document, summary, pending).calls == SideRun(m, side, document, summary, other).calls
  {
    assert pending[0] == other[0] && pending[1] == other[1] && pending[2] == other[2];
  }

  /** The second half of a run that runs out of replies has sent what it
      would have sent with more replies, up to the failing call. */
  lemma SecondHalfFailureIsPrefix(m: Model, document: string, summary: string, recordH: string,
                                  pending: seq<string>, more: seq<string>)
    requires |pending| < 4
    ensures var calls := SecondHalfRun(m, document, summary, recordH, pending).calls;
            calls == SecondHalfRun(m, document, summary, recordH, pending + more).calls[..|calls|]
  {
    var q := pending + more;
    var sp := SideRun(m, SupportedSide, document, summary, pending);
    var sq := SideRun(m, SupportedSide, document, summary, q);
    var calls := SecondHalfRun(m, document, summary, recordH, q).calls;
    if |pending| < 3 {
      SideFailureIsPrefix(m, SupportedSide, document, summary, pending, more);
      assert calls == sq.calls || calls == sq.calls + calls[|sq.calls|..];
      TakeFront(sq.calls, calls[|sq.calls|..], |sp.calls|);
    } else {
      assert q[..3] == pending[..3];
      SideReadsThreeReplies(m, SupportedSide, document, summary, pending, q);
    }
  }

  /** A run that runs out of replies has sent exactly what a run with more
      replies sends, up to the failing call: no request depends on a reply
      that had not arrived. */
  lemma FailureIsPrefix(debatingModel: string, document: string, summary: string,
                        pending: seq<string>, more: seq<string>)
    requires |pending| < 7
    ensures var calls := CounterfactualRun(debatingModel, document, summary, pending).calls;
            calls == CounterfactualRun(debatingModel, document, summary, pending + more).calls[..|calls|]
  {
    if LookupModel(debatingModel).Some? {
      var m := LookupModel(debatingModel).value;
      var q := pending + more;
      var hp := SideRun(m, HallucinatedSide, document, summary, pending);
      var hq := SideRun(m, HallucinatedSide, document, summary, q);
      var calls := CounterfactualRun(debatingModel, document, summary, q).calls;
      if |pending| < 3 {
        SideFailureIsPrefix(m, HallucinatedSide, document, summary, pending, more);
        assert calls == hq.calls || calls == hq.calls + calls[|hq.calls|..];
        TakeFront(hq.calls, calls[|hq.calls|..], |hp.calls|);
      } else {
        assert q[..3] == pending[..3];
        SideReadsThreeReplies(m, HallucinatedSide, document, summary, pending, q);
        assert hq.rest == hp.rest + more;
        var record := hp.result.value;
        SecondHalfFailureIsPrefix(m, document, summary, record, hp.rest, more);
        var second := SecondHalfRun(m, document, summary, record, hp.rest).calls;
        TakeAppend(hp.calls, SecondHalfRun(m, document, summary, record, hq.rest).calls, |second|);
      }
    }
  }
}
