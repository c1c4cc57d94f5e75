/** `chain_debates` (helpers.py:564-600): gpt4o_mini splits the summary into
    statements, one per line. For each statement in turn the debating model
    argues that it is hallucinated and that it is supported, the two claims are
    stitched into one debate, the debate is appended to a running history, and
    gpt4o judges the statement. The first judgement containing "[HALLUCINATED]"
    ends the run with verdict 1; otherwise the verdict is 0. Either way the run
    returns the last debate and the history. */
module ChainDebates {
  import opened Text
  import opened Prompts
  import opened Wrappers
  import opened Judge
  import opened Verdicts
  import opened Records

  /** What `chain_debates` returns: the verdict, the last debate, the history. */
  datatype ChainOutcome = ChainOutcome(verdict: Bit, debate: string, history: string)

  /** The three requests of one round: the two claims by the debating model,
      then gpt4o's judgement of the debate built from `claimH` and `claimS`. */
  function RoundRequests(m: Model, document: string, summary: string, statement: string,
                         claimH: string, claimS: string): seq<Request>
  {
    [Request(m, AskStatementHallucinationClaim(document, summary, statement)),
     Request(m, AskStatementSupportClaim(document, summary, statement)),
     Request(Gpt4o, AskChainVerdict(document, summary, ChainDebate(claimH, claimS)))]
  }

  /** The judge of a round reads both claims of that round verbatim, beside
      the document and the whole summary. */
  lemma JudgeSeesBothClaims(m: Model, document: string, summary: string, statement: string,
                            claimH: string, claimS: string)
    ensures var judging := Messages(RoundRequests(m, document, summary, statement, claimH, claimS)[2].prompt);
            Embeds(judging, claimH) && Embeds(judging, claimS) &&
            Embeds(judging, document) && Embeds(judging, summary)
  {
    var debate := ChainDebate(claimH, claimS);
    var judging := ChainDebatesJudge(document, summary, debate);
    assert Messages(AskChainVerdict(document, summary, debate)) == judging;
    ChainDebateShape(claimH, claimS);
    InfixTransitive(claimH, debate, judging[1].content);
    InfixTransitive(claimS, debate, judging[1].content);
  }

  /** What one round yields: the debate, and whether the judge found the
      statement hallucinated. */
  datatype Judged = Judged(debate: string, hallucinated: bool)

  /** One round (the body of the loop of chain_debates) on `statement`, with
      replies `pending`: two claims, then the judgement. */
  function RoundRun(m: Model, document: string, summary: string, statement: string, pending: seq<string>)
    : Run<Judged>
  {
    var askH := Request(m, AskStatementHallucinationClaim(document, summary, statement));
    var askS := Request(m, AskStatementSupportClaim(document, summary, statement));
    if |pending| == 0 then Run(Err(BackendFailure), [askH], [])
    else if |pending| == 1 then Run(Err(BackendFailure), [askH, askS], [])
    else
      var round := RoundRequests(m, document, summary, statement, pending[0], pending[1]);
      if |pending| == 2 then Run(Err(BackendFailure), round, [])
      else
        var debate := ChainDebate(pending[0], pending[1]);
        Run(Ok(Judged(debate, Detect(pending[2], HallucinatedMarker) == 1)), round, pending[3..])
  }

  /** The loop of chain_debates over `pieces`, with replies `pending`, starting
      from history `history`; `last` is the debate before the first round. */
  function DebatePieces(m: Model, document: string, summary: string, pieces: seq<string>,
                        pending: seq<string>, history: string, last: string): Run<ChainOutcome>
    decreases |pieces|
  {
    if pieces == [] then Run(Ok(ChainOutcome(0, last, history)), [], pending)
    else
      var round := RoundRun(m, document, summary, pieces[0], pending);
      match round.result
      case Err(failure) => Run(Err(failure), round.calls, round.rest)
      case Ok(judged) =>
        var extended := history + HistoryBlock(pieces[0], judged.debate);
        if judged.hallucinated then Run(Ok(ChainOutcome(1, judged.debate, extended)), round.calls, round.rest)
        else
          var tail := DebatePieces(m, document, summary, pieces[1..], round.rest, extended, judged.debate);
          Run(tail.result, round.calls + tail.calls, tail.rest)
  }

  /** The whole strategy. The source looks the debating model up at the top of
      every round; the lookup cannot change between rounds and there is always
      at least one round, so it is done once, after the extraction. */
  function ChainDebatesRun(debatingModel: string, document: string, summary: string, pending: seq<string>)
    : Run<ChainOutcome>
  {
    var extraction := Request(Gpt4oMini, AskSentences(summary));
    if pending == [] then Run(Err(BackendFailure), [extraction], [])
    else
      match LookupModel(debatingModel)
      case None => Run(Err(UnknownModel(debatingModel)), [extraction], pending[1..])
      case Some(m) =>
        var tail := DebatePieces(m, document, summary, Split(pending[0], '\n'), pending[1..], "", "");
        Run(tail.result, [extraction] + tail.calls, tail.rest)
  }

  method ChainDebates(oracle: Oracle, debatingModel: string, document: string, summary: string)
    returns (r: Result<ChainOutcome>)
    modifies oracle
    ensures var run := ChainDebatesRun(debatingModel, document, summary, old(oracle.pending));
            r == run.result && oracle.log == old(oracle.log) + run.calls && oracle.pending == run.rest
  {
    var extraction := oracle.Complete(Request(Gpt4oMini, AskSentences(summary)));
    if extraction.Err? {
      return Err(extraction.failure);
    }
    var found := LookupModel(debatingModel);
    if found.None? {
      return Err(UnknownModel(debatingModel));
    }
    r := DebateStatements(oracle, found.value, document, summary, Split(extraction.value, '\n'));
  }

  /** The loop of chain_debates: one round per statement, stopping at the first
      judgement that finds the statement hallucinated. */
  method DebateStatements(oracle: Oracle, m: Model, document: string, summary: string, statements: seq<string>)
    returns (r: Result<ChainOutcome>)
    modifies oracle
    ensures var run := DebatePieces(m, document, summary, statements, old(oracle.pending), "", "");
            r == run.result && oracle.log == old(oracle.log) + run.calls && oracle.pending == run.rest
  {
    ghost var full := DebatePieces(m, document, summary, statements, oracle.pending, "", "");
    var history, debate := "", "";
    var i := 0;
    r := Ok(ChainOutcome(0, debate, history));
    while i < |statements|
      invariant 0 <= i <= |statements|
      invariant Completes(full, DebatePieces(m, document, summary, statements[i..], oracle.pending, history, debate),
                          old(oracle.log), oracle.log)
    {
      Advance(m, document, summary, statements, i, oracle.pending, history, debate, full, old(oracle.log), oracle.log);
      var round := DebateRound(oracle, m, document, summary, statements[i]);
      if round.Err? {
        r := Err(round.failure);
        break;
      }
      debate := round.value.debate;
      history := history + HistoryBlock(statements[i], debate);
      if round.value.hallucinated {
        r := Ok(ChainOutcome(1, debate, history));
        break;
      }
      i := i + 1;
    }
    if i == |statements| {
      assert statements[i..] == [];
      r := Ok(ChainOutcome(0, debate, history));
    }
  }

  /** One turn of the loop, in terms of the loop bookkeeping. */
  lemma Advance(m: Model, document: string, summary: string, statements: seq<string>, i: nat,
                pending: seq<string>, history: string, last: string,
                full: Run<ChainOutcome>, log0: seq<Request>, log: seq<Request>)
    requires i < |statements|
    requires Completes(full, DebatePieces(m, document, summary, statements[i..], pending, history, last), log0, log)
    ensures var round := RoundRun(m, document, summary, statements[i], pending);
            (round.result.Err? ==>
               full.result == Err(round.result.failure) && full.rest == round.rest &&
               log0 + full.calls == log + round.calls) &&
            (round.result.Ok? ==>
               var debate := round.result.value.debate;
               var extended := history + HistoryBlock(statements[i], debate);
               (round.result.value.hallucinated ==>
                  full.result == Ok(ChainOutcome(1, debate, extended)) && full.rest == round.rest &&
                  log0 + full.calls == log + round.calls) &&
               (!round.result.value.hallucinated ==>
                  Completes(full, DebatePieces(m, document, summary, statements[i + 1..], round.rest, extended, debate),
                            log0, log + round.calls)))
  {
    assert statements[i..][0] == statements[i] && statements[i..][1..] == statements[i + 1..];
    var round := RoundRun(m, document, summary, statements[i], pending);
    if round.result.Ok? && !round.result.value.hallucinated {
      var debate := round.result.value.debate;
      var extended := history + HistoryBlock(statements[i], debate);
      var tail := DebatePieces(m, document, summary, statements[i + 1..], round.rest, extended, debate);
      assert log + (round.calls + tail.calls) == log + round.calls + tail.calls;
    }
  }

  /** One round: the debating model argues both sides of `statement`, and gpt4o
      judges the resulting debate. */
  method DebateRound(oracle: Oracle, m: Model, document: string, summary: string, statement: string)
    returns (r: Result<Judged>)
    modifies oracle
    ensures var run := RoundRun(m, document, summary, statement, old(oracle.pending));
            r == run.result && oracle.log == old(oracle.log) + run.calls && oracle.pending == run.rest
  {
    var claimH := oracle.Complete(Request(m, AskStatementHallucinationClaim(document, summary, statement)));
    if claimH.Err? {
      return Err(claimH.failure);
    }
    var claimS := oracle.Complete(Request(m, AskStatementSupportClaim(document, summary, statement)));
    if claimS.Err? {
      return Err(claimS.failure);
    }
    var debate := ChainDebate(claimH.value, claimS.value);
    var judgement := oracle.Complete(Request(Gpt4o, AskChainVerdict(document, summary, debate)));
    if judgement.Err? {
      return Err(judgement.failure);
    }
    r := Ok(Judged(debate, Detect(judgement.value, HallucinatedMarker) == 1));
  }

  // ---- Properties of the specification ----

  /** The judgement of the `j`-th statement, reply `3 * j + 2`, finds it hallucinated. */
  predicate JudgeSaysHallucinated(pending: seq<string>, j: nat) {
    3 * j + 2 < |pending| && Detect(pending[3 * j + 2], HallucinatedMarker) == 1
  }

  /** The requests of full rounds over `pieces`, three per statement. */
  function Rounds(m: Model, document: string, summary: string, pieces: seq<string>, pending: seq<string>)
    : (reqs: seq<Request>)
    requires 3 * |pieces| <= |pending|
    ensures |reqs| == 3 * |pieces|
    decreases |pieces|
  {
    if pieces == [] then []
    else RoundRequests(m, document, summary, pieces[0], pending[0], pending[1])
         + Rounds(m, document, summary, pieces[1..], pending[3..])
  }

  /** `history` with the block of each full round over `pieces` appended, in order. */
  function HistoryAfter(history: string, pieces: seq<string>, pending: seq<string>): string
    requires 3 * |pieces| <= |pending|
    decreases |pieces|
  {
    if pieces == [] then history
    else HistoryAfter(history + HistoryBlock(pieces[0], ChainDebate(pending[0], pending[1])), pieces[1..], pending[3..])
  }

  /** One full round of the specification, unfolded. */
  lemma DebatePiecesStep(m: Model, document: string, summary: string, pieces: seq<string>,
                         pending: seq<string>, history: string, last: string)
    requires pieces != [] && |pending| >= 3
    ensures var debate := ChainDebate(pending[0], pending[1]);
            var extended := history + HistoryBlock(pieces[0], debate);
            var round := RoundRequests(m, document, summary, pieces[0], pending[0], pending[1]);
            var run := DebatePieces(m, document, summary, pieces, pending, history, last);
            if Detect(pending[2], HallucinatedMarker) == 1 then
              run == Run(Ok(ChainOutcome(1, debate, extended)), round, pending[3..])
            else
              var tail := DebatePieces(m, document, summary, pieces[1..], pending[3..], extended, debate);
              run == Run(tail.result, round + tail.calls, tail.rest)
  {
  }

  /** The first judgement finding its statement hallucinated, the `i`-th, ends
      the run with verdict 1 and that round's debate, after exactly `i + 1`
      full rounds whose blocks are all in the history. */
  lemma {:induction false} ChainStopsAtFirstPositive(m: Model, document: string, summary: string,
                                                      pieces: seq<string>, pending: seq<string>,
                                                      history: string, last: string, i: nat)
    requires i < |pieces| && JudgeSaysHallucinated(pending, i)
    requires forall j :: 0 <= j < i ==> !JudgeSaysHallucinated(pending, j)
    ensures var run := DebatePieces(m, document, summary, pieces, pending, history, last);
            run.result.Ok? && run.result.value.verdict == 1 &&
            run.result.value.debate == ChainDebate(pending[3 * i], pending[3 * i + 1]) &&
            run.result.value.history == HistoryAfter(history, pieces[..i + 1], pending) &&
            run.calls == Rounds(m, document, summary, pieces[..i + 1], pending) && run.rest == pending[3 * i + 3..]
    decreases i
  {
    var debate := ChainDebate(pending[0], pending[1]);
    var block := HistoryBlock(pieces[0], debate);
    var round := RoundRequests(m, document, summary, pieces[0], pending[0], pending[1]);
    var rest := pending[3..];
    DebatePiecesStep(m, document, summary, pieces, pending, history, last);
    assert pieces[..i + 1][0] == pieces[0];
    if i == 0 {
      assert pieces[..1][1..] == [];
      assert round + [] == round;
    } else {
      assert !JudgeSaysHallucinated(pending, 0);
      DropAt(pending, 3, 3 * i - 1);
      DropAt(pending, 3, 3 * i - 3);
      DropAt(pending, 3, 3 * i - 2);
      assert JudgeSaysHallucinated(rest, i - 1);
      forall j | 0 <= j < i - 1 ensures !JudgeSaysHallucinated(rest, j) {
        assert !JudgeSaysHallucinated(pending, j + 1);
        DropAt(pending, 3, 3 * j + 2);
      }
      assert pieces[..i + 1][1..] == pieces[1..][..i];
      DropDrop(pending, 3, 3 * i);
      ChainStopsAtFirstPositive(m, document, summary, pieces[1..], rest, history + block, debate, i - 1);
    }
  }

  /** With enough replies and no judgement finding a statement hallucinated,
      every statement gets one full round, in order, the verdict is 0, and the
      history gains one block per statement. */
  lemma {:induction false} ChainAllNegative(m: Model, document: string, summary: string,
                                             pieces: seq<string>, pending: seq<string>,
                                             history: string, last: string)
    requires 3 * |pieces| <= |pending|
    requires forall j :: 0 <= j < |pieces| ==> !JudgeSaysHallucinated(pending, j)
    ensures var run := DebatePieces(m, document, summary, pieces, pending, history, last);
            run.result.Ok? && run.result.value.verdict == 0 &&
            run.result.value.history == HistoryAfter(history, pieces, pending) &&
            (pieces != [] ==> run.result.value.debate == ChainDebate(pending[3 * |pieces| - 3], pending[3 * |pieces| - 2])) &&
            run.calls == Rounds(m, document, summary, pieces, pending) && run.rest == pending[3 * |pieces|..]
    decreases |pieces|
  {
    if pieces != [] {
      var n := |pieces|;
      var debate := ChainDebate(pending[0], pending[1]);
      var block := HistoryBlock(pieces[0], debate);
      var rest := pending[3..];
      DebatePiecesStep(m, document, summary, pieces, pending, history, last);
      assert !JudgeSaysHallucinated(pending, 0);
      forall j | 0 <= j < n - 1 ensures !JudgeSaysHallucinated(rest, j) {
        assert !JudgeSaysHallucinated(pending, j + 1);
        DropAt(pending, 3, 3 * j + 2);
      }
      if n > 1 {
        DropAt(pending, 3, 3 * n - 6);
        DropAt(pending, 3, 3 * n - 5);
      }
      ChainAllNegative(m, document, summary, pieces[1..], rest, history + block, debate);
      DropDrop(pending, 3, 3 * (n - 1));
    } else {
      assert pending[0..] == pending;
    }
  }

  /** Full round `j` sends, in order: the hallucination claim and the support
      claim about statement `j` to the debating model, then the debate built
      from replies `3 * j` and `3 * j + 1` to gpt4o. */
  lemma {:induction false} RoundsAt(m: Model, document: string, summary: string,
                                     pieces: seq<string>, pending: seq<string>, j: nat)
    requires 3 * |pieces| <= |pending| && j < |pieces|
    ensures Rounds(m, document, summary, pieces, pending)[3 * j..3 * j + 3]
            == RoundRequests(m, document, summary, pieces[j], pending[3 * j], pending[3 * j + 1])
    decreases j
  {
    var reqs := Rounds(m, document, summary, pieces, pending);
    var head := RoundRequests(m, document, summary, pieces[0], pending[0], pending[1]);
    var tail := Rounds(m, document, summary, pieces[1..], pending[3..]);
    assert reqs == head + tail;
    if j == 0 {
      assert reqs[..3] == head;
    } else {
      RoundsAt(m, document, summary, pieces[1..], pending[3..], j - 1);
      assert reqs[3 * j..3 * j + 3] == tail[3 * (j - 1)..3 * (j - 1) + 3];
      assert pending[3..][3 * (j - 1)] == pending[3 * j] && pending[3..][3 * (j - 1) + 1] == pending[3 * j + 1];
    }
  }

  /** The verdict is 1 exactly when some judgement the loop reaches finds its
      statement hallucinated, and 0 exactly when every statement got a full
      round and none did. */
  lemma {:induction false} ChainVerdictIsAnyPositive(m: Model, document: string, summary: string,
                                                      pieces: seq<string>, pending: seq<string>,
                                                      history: string, last: string)
    ensures var r := DebatePieces(m, document, summary, pieces, pending, history, last).result;
            (r.Ok? && r.value.verdict == 1 <==> exists i :: 0 <= i < |pieces| && JudgeSaysHallucinated(pending, i)) &&
            (r.Ok? && r.value.verdict == 0 <==>
               3 * |pieces| <= |pending| && forall i :: 0 <= i < |pieces| ==> !JudgeSaysHallucinated(pending, i))
    decreases |pieces|
  {
    if pieces != [] && |pending| >= 3 {
      var debate := ChainDebate(pending[0], pending[1]);
      var extended := history + HistoryBlock(pieces[0], debate);
      var rest := pending[3..];
      ChainVerdictIsAnyPositive(m, document, summary, pieces[1..], rest, extended, debate);
      forall i | 0 <= i < |pieces| - 1
        ensures JudgeSaysHallucinated(rest, i) == JudgeSaysHallucinated(pending, i + 1)
      {
        if 3 * i + 2 < |rest| {
          assert rest[3 * i + 2] == pending[3 * (i + 1) + 2];
        }
      }
      if !JudgeSaysHallucinated(pending, 0) {
        assert (exists i :: 0 <= i < |pieces| && JudgeSaysHallucinated(pending, i))
               == (exists i :: 0 <= i < |pieces| - 1 && JudgeSaysHallucinated(rest, i)) by {
          forall i | 0 <= i < |pieces| && JudgeSaysHallucinated(pending, i)
            ensures i > 0 && JudgeSaysHallucinated(rest, i - 1)
          {
          }
        }
      }
    } else if pieces != [] {
      assert !JudgeSaysHallucinated(pending, 0);
      forall i | 0 <= i < |pieces| ensures !JudgeSaysHallucinated(pending, i) {
      }
    }
  }

  /** The history keeps what it held before and gains, verbatim, every
      statement debated and every debate built from the round's claims. */
  lemma {:induction false} HistoryKeepsEveryDebate(history: string, pieces: seq<string>, pending: seq<string>)
    requires 3 * |pieces| <= |pending|
    ensures var h := HistoryAfter(history, pieces, pending);
            IsPrefix(history, h) &&
            forall j :: 0 <= j < |pieces| ==>
              IsInfix(pieces[j], h) && IsInfix(ChainDebate(pending[3 * j], pending[3 * j + 1]), h)
    decreases |pieces|
  {
    var h := HistoryAfter(history, pieces, pending);
    if pieces == [] {
      assert h == history;
    } else {
      var debate := ChainDebate(pending[0], pending[1]);
      var block := HistoryBlock(pieces[0], debate);
      var rest := pending[3..];
      HistoryKeepsEveryDebate(history + block, pieces[1..], rest);
      InfixOfPrefix(history, block, h);
      HistoryBlockShape(pieces[0], debate);
      InfixTransitive(pieces[0], block, h);
      InfixTransitive(debate, block, h);
      forall j | 1 <= j < |pieces|
        ensures IsInfix(pieces[j], h) && IsInfix(ChainDebate(pending[3 * j], pending[3 * j + 1]), h)
      {
        assert pieces[1..][j - 1] == pieces[j];
        DropAt(pending, 3, 3 * (j - 1));
        DropAt(pending, 3, 3 * (j - 1) + 1);
      }
    }
  }

  /** A round succeeds exactly with three replies; it sends the two claims and
      the judgement, stopping at the request that finds no reply; its debate
      is built from the two claims and its verdict read from the third reply. */
  lemma RoundNeedsThreeReplies(m: Model, document: string, summary: string, statement: string, pending: seq<string>)
    ensures var run := RoundRun(m, document, summary, statement, pending);
            (run.result.Ok? <==> |pending| >= 3) &&
            |run.calls| == (if |pending| < 3 then |pending| + 1 else 3) &&
            run.rest == (if |pending| < 3 then [] else pending[3..]) &&
            (run.result.Ok? ==>
               run.result.value.debate == ChainDebate(pending[0], pending[1]) &&
               (run.result.value.hallucinated <==> IsInfix(HallucinatedMarker, pending[2])))
  {
  }

  /** Every request of the loop consumes one reply, except a request that
      finds none, which fails the row; at most three requests go out per
      statement. */
  lemma {:induction false} EachCallConsumesOneReply(m: Model, document: string, summary: string, pieces: seq<string>,
                                                    pending: seq<string>, history: string, last: string)
    ensures var run := DebatePieces(m, document, summary, pieces, pending, history, last);
            |run.calls| <= 3 * |pieces| && |run.rest| <= |pending| &&
            |run.calls| == |pending| - |run.rest| + (if run.result.Err? then 1 else 0)
    decreases |pieces|
  {
    if pieces != [] {
      RoundNeedsThreeReplies(m, document, summary, pieces[0], pending);
      if |pending| >= 3 {
        var debate := ChainDebate(pending[0], pending[1]);
        var extended := history + HistoryBlock(pieces[0], debate);
        EachCallConsumesOneReply(m, document, summary, pieces[1..], pending[3..], extended, debate);
      }
    }
  }

  /** The run always starts with the extraction. An unknown model id fails
      the row after it, with nothing else sent; with a known model, every
      request but a failed one consumes one reply. */
  lemma ExtractionComesFirst(debatingModel: string, document: string, summary: string, pending: seq<string>)
    ensures var run := ChainDebatesRun(debatingModel, document, summary, pending);
            |run.calls| >= 1 && run.calls[0] == Request(Gpt4oMini, AskSentences(summary)) &&
            (LookupModel(debatingModel).None? ==> run.result.Err? && |run.calls| == 1) &&
            (LookupModel(debatingModel).Some? ==>
               |run.calls| == |pending| - |run.rest| + (if run.result.Err? then 1 else 0))
  {
    if pending != [] && LookupModel(debatingModel).Some? {
      EachCallConsumesOneReply(LookupModel(debatingModel).value, document, summary,
                               Split(pending[0], '\n'), pending[1..], "", "");
    }
  }
}
