/** `sentence_level` (helpers.py:745-759): gpt4o_mini splits the summary into
    sentences, one per line; the judging model then judges each sentence in
    order, and the first reply containing the bare word "HALLUCINATED" ends the
    run with verdict 1. If no reply does, the verdict is 0. */
module SentenceLevel {
  import opened Text
  import opened Prompts
  import opened Wrappers
  import opened Judge
  import opened Verdicts

  /** The reply to the judgement of the `i`-th sentence is positive. */
  predicate Positive(pending: seq<string>, i: nat) {
    i < |pending| && Detect(pending[i], BareHallucinated) == 1
  }

  /** The requests that judge `pieces`, one per piece, in order. */
  function JudgeRequests(m: Model, document: string, summary: string, pieces: seq<string>): (reqs: seq<Request>)
    ensures |reqs| == |pieces|
  {
    seq(|pieces|, j requires 0 <= j < |pieces| => Request(m, AskSentenceVerdict(document, summary, pieces[j])))
  }

  /** The judging loop (helpers.py:749-759) over `pieces`, with replies `pending`. */
  function JudgePieces(m: Model, document: string, summary: string, pieces: seq<string>, pending: seq<string>)
    : Run<Bit>
    decreases |pieces|
  {
    if pieces == [] then Run(Ok(0), [], pending)
    else
      var request := Request(m, AskSentenceVerdict(document, summary, pieces[0]));
      if pending == [] then Run(Err(BackendFailure), [request], [])
      else if Detect(pending[0], BareHallucinated) == 1 then Run(Ok(1), [request], pending[1..])
      else
        var tail := JudgePieces(m, document, summary, pieces[1..], pending[1..]);
        Run(tail.result, [request] + tail.calls, tail.rest)
  }

  /** The whole strategy: model lookup, sentence extraction, then the judging loop. */
  function SentenceLevelRun(judgingModel: string, document: string, summary: string, pending: seq<string>)
    : Run<Bit>
  {
    match LookupModel(judgingModel)
    case None => Run(Err(UnknownModel(judgingModel)), [], pending)
    case Some(m) =>
      var extraction := Request(Gpt4oMini, AskSentences(summary));
      if pending == [] then Run(Err(BackendFailure), [extraction], [])
      else
        var tail := JudgePieces(m, document, summary, Split(pending[0], '\n'), pending[1..]);
        Run(tail.result, [extraction] + tail.calls, tail.rest)
  }

  method SentenceLevel(oracle: Oracle, judgingModel: string, document: string, summary: string)
    returns (r: Result<Bit>)
    modifies oracle
    ensures var run := SentenceLevelRun(judgingModel, document, summary, old(oracle.pending));
            r == run.result && oracle.log == old(oracle.log) + run.calls && oracle.pending == run.rest
  {
    var found := LookupModel(judgingModel);
    if found.None? {
      return Err(UnknownModel(judgingModel));
    }
    var extraction := oracle.Complete(Request(Gpt4oMini, AskSentences(summary)));
    if extraction.Err? {
      return Err(extraction.failure);
    }
    r := JudgeSentences(oracle, found.value, document, summary, Split(extraction.value, '\n'));
  }

  /** The loop of sentence_level: judge each sentence in turn, stop at the first positive reply. */
  method JudgeSentences(oracle: Oracle, m: Model, document: string, summary: string, sentences: seq<string>)
    returns (r: Result<Bit>)
    modifies oracle
    ensures var run := JudgePieces(m, document, summary, sentences, old(oracle.pending));
            r == run.result && oracle.log == old(oracle.log) + run.calls && oracle.pending == run.rest
  {
    ghost var full := JudgePieces(m, document, summary, sentences, oracle.pending);
    var i := 0;
    r := Ok(0);
    while i < |sentences|
      invariant 0 <= i <= |sentences|
      invariant Completes(full, JudgePieces(m, document, summary, sentences[i..], oracle.pending),
                        old(oracle.log), oracle.log)
    {
      Advance(m, document, summary, sentences, i, oracle.pending, full, old(oracle.log), oracle.log);
      var partial := oracle.Complete(Request(m, AskSentenceVerdict(document, summary, sentences[i])));
      if partial.Err? {
        r := Err(partial.failure);
        break;
      }
      if Detect(partial.value, BareHallucinated) == 1 {
        r := Ok(1);
        break;
      }
      i := i + 1;
    }
    if i == |sentences| {
      assert sentences[i..] == [];
    }
  }

  /** One turn of the judging loop, in terms of the loop bookkeeping. */
  lemma Advance(m: Model, document: string, summary: string, sentences: seq<string>, i: nat,
                pending: seq<string>, full: Run<Bit>, log0: seq<Request>, log: seq<Request>)
    requires i < |sentences|
    requires Completes(full, JudgePieces(m, document, summary, sentences[i..], pending), log0, log)
    ensures var request := Request(m, AskSentenceVerdict(document, summary, sentences[i]));
            (pending == [] ==>
               full.result == Err(BackendFailure) && full.rest == [] && log0 + full.calls == log + [request]) &&
            (pending != [] && Detect(pending[0], BareHallucinated) == 1 ==>
               full.result == Ok(1) && full.rest == pending[1..] && log0 + full.calls == log + [request]) &&
            (pending != [] && Detect(pending[0], BareHallucinated) == 0 ==>
               Completes(full, JudgePieces(m, document, summary, sentences[i + 1..], pending[1..]), log0, log + [request]))
  {
    JudgePiecesStep(m, document, summary, sentences[i..], pending);
    assert sentences[i..][0] == sentences[i] && sentences[i..][1..] == sentences[i + 1..];
  }

  /** The first positive reply, to the `i`-th judgement, ends the run with
      verdict 1 after exactly `i + 1` judgements of the first `i + 1` pieces. */
  lemma {:induction false} StopsAtFirstPositive(m: Model, document: string, summary: string,
                                                 pieces: seq<string>, pending: seq<string>, i: nat)
    requires i < |pieces| && Positive(pending, i)
    requires forall j :: 0 <= j < i ==> !Positive(pending, j)
    ensures JudgePieces(m, document, summary, pieces, pending)
            == Run(Ok(1), JudgeRequests(m, document, summary, pieces[..i + 1]), pending[i + 1..])
    decreases i
  {
    if i > 0 {
      assert !Positive(pending, 0);
      forall j | 0 <= j < i - 1 ensures !Positive(pending[1..], j) {
        assert !Positive(pending, j + 1);
      }
      StopsAtFirstPositive(m, document, summary, pieces[1..], pending[1..], i - 1);
      assert pieces[1..][..i] == pieces[1..i + 1];
      assert pending[1..][i..] == pending[i + 1..];
      JudgeRequestsCons(m, document, summary, pieces[..i + 1]);
      assert pieces[..i + 1][1..] == pieces[1..i + 1];
    } else {
      JudgeRequestsCons(m, document, summary, pieces[..1]);
    }
  }

  /** With no positive reply, every piece is judged once, in order, and the verdict is 0. */
  lemma {:induction false} JudgesAllWhenNegative(m: Model, document: string, summary: string,
                                                  pieces: seq<string>, pending: seq<string>)
    requires |pieces| <= |pending|
    requires forall j :: 0 <= j < |pieces| ==> !Positive(pending, j)
    ensures JudgePieces(m, document, summary, pieces, pending)
            == Run(Ok(0), JudgeRequests(m, document, summary, pieces), pending[|pieces|..])
    decreases |pieces|
  {
    if pieces != [] {
      assert !Positive(pending, 0);
      forall j | 0 <= j < |pieces| - 1 ensures !Positive(pending[1..], j) {
        assert !Positive(pending, j + 1);
      }
      JudgesAllWhenNegative(m, document, summary, pieces[1..], pending[1..]);
      JudgeRequestsCons(m, document, summary, pieces);
      assert pending[1..][|pieces| - 1..] == pending[|pieces|..];
    }
  }

  /** Replies running out before a positive one fails the row, after the
      request that found the queue empty. */
  lemma {:induction false} FailsWhenRepliesRunOut(m: Model, document: string, summary: string,
                                                   pieces: seq<string>, pending: seq<string>)
    requires |pending| < |pieces|
    requires forall j :: 0 <= j < |pending| ==> !Positive(pending, j)
    ensures JudgePieces(m, document, summary, pieces, pending)
            == Run(Err(BackendFailure), JudgeRequests(m, document, summary, pieces[..|pending| + 1]), [])
    decreases |pieces|
  {
    JudgeRequestsCons(m, document, summary, pieces[..|pending| + 1]);
    if pending != [] {
      assert !Positive(pending, 0);
      forall j | 0 <= j < |pending| - 1 ensures !Positive(pending[1..], j) {
        assert !Positive(pending, j + 1);
      }
      FailsWhenRepliesRunOut(m, document, summary, pieces[1..], pending[1..]);
      assert pieces[1..][..|pending|] == pieces[..|pending| + 1][1..];
    }
  }

  /** The verdict is 1 exactly when one of the replies the loop reads is
      positive, and 0 exactly when enough replies came and none was. */
  lemma {:induction false} VerdictIsAnyPositive(m: Model, document: string, summary: string,
                                                pieces: seq<string>, pending: seq<string>)
    ensures var run := JudgePieces(m, document, summary, pieces, pending);
            (run.result == Ok(1) <==> exists i :: 0 <= i < |pieces| && Positive(pending, i)) &&
            (run.result == Ok(0) <==> |pieces| <= |pending| && forall i :: 0 <= i < |pieces| ==> !Positive(pending, i))
    decreases |pieces|
  {
    if pieces != [] && pending != [] {
      VerdictIsAnyPositive(m, document, summary, pieces[1..], pending[1..]);
      forall i | 0 <= i < |pieces| - 1 ensures Positive(pending[1..], i) == Positive(pending, i + 1) {
      }
      if !Positive(pending, 0) {
        assert (exists i :: 0 <= i < |pieces| && Positive(pending, i))
               == (exists i :: 0 <= i < |pieces| - 1 && Positive(pending[1..], i)) by {
          forall i | 0 <= i < |pieces| && Positive(pending, i) ensures i > 0 && Positive(pending[1..], i - 1) {
          }
        }
      }
    } else if pieces != [] {
      assert !Positive(pending, 0);
      assert forall i :: 0 <= i < |pieces| ==> !Positive(pending, i);
    }
  }

  /** One turn of the judging loop. */
  lemma JudgePiecesStep(m: Model, document: string, summary: string, pieces: seq<string>, pending: seq<string>)
    requires pieces != []
    ensures var request := Request(m, AskSentenceVerdict(document, summary, pieces[0]));
            var run := JudgePieces(m, document, summary, pieces, pending);
            if pending == [] then run == Run(Err(BackendFailure), [request], [])
            else if Detect(pending[0], BareHallucinated) == 1 then run == Run(Ok(1), [request], pending[1..])
            else
              var tail := JudgePieces(m, document, summary, pieces[1..], pending[1..]);
              run == Run(tail.result, [request] + tail.calls, tail.rest)
  {
  }

  lemma JudgeRequestsCons(m: Model, document: string, summary: string, pieces: seq<string>)
    requires pieces != []
    ensures JudgeRequests(m, document, summary, pieces)
            == [Request(m, AskSentenceVerdict(document, summary, pieces[0]))]
               + JudgeRequests(m, document, summary, pieces[1..])
  {
  }

  /** Decomposition never yields zero sentences: an empty extraction is one
      empty sentence, which is still judged. */
  lemma EmptyExtractionIsStillJudged(document: string, summary: string, reply: string, rest: seq<string>)
    ensures SentenceLevelRun("gpt4o", document, summary, ["", reply] + rest).calls
            == [Request(Gpt4oMini, AskSentences(summary)), Request(Gpt4o, AskSentenceVerdict(document, summary, ""))]
  {
    var pending := ["", reply] + rest;
    assert Split("", '\n') == [""];
    assert pending[1..] == [reply] + rest;
    JudgePiecesStep(Gpt4o, document, summary, [""], [reply] + rest);
  }

  /** Two sentences, the second judged hallucinated: verdict 1 after the
      extraction and exactly two judgements. */
  lemma TwoSentencesSecondHallucinated(document: string, summary: string)
    ensures var run := SentenceLevelRun("gpt4o", document, summary, ["A.\nB.", "[SUPPORTED]", "[HALLUCINATED]"]);
            run.result == Ok(1) && |run.calls| == 3 &&
            run.calls[1] == Request(Gpt4o, AskSentenceVerdict(document, summary, "A.")) &&
            run.calls[2] == Request(Gpt4o, AskSentenceVerdict(document, summary, "B."))
  {
    var pieces := ["A.", "B."];
    SplitJoin(pieces, '\n');
    assert Join(pieces, "\n") == "A.\nB.";
    NoMarkerWithoutH("[SUPPORTED]");
    assert "[HALLUCINATED]" == "[" + BareHallucinated + "]";
    InfixOfConcat("[", BareHallucinated, "]");
    var pending := ["[SUPPORTED]", "[HALLUCINATED]"];
    StopsAtFirstPositive(Gpt4o, document, summary, pieces, pending, 1);
    assert pieces[..2] == pieces;
  }

  /** Every judging request consumes one reply, except a request that finds
      none, which fails the row; at most one request goes out per sentence. */
  lemma {:induction false} EachJudgementConsumesOneReply(m: Model, document: string, summary: string,
                                                         pieces: seq<string>, pending: seq<string>)
    ensures var run := JudgePieces(m, document, summary, pieces, pending);
            |run.calls| <= |pieces| && |run.rest| <= |pending| &&
            |run.calls| == |pending| - |run.rest| + (if run.result.Err? then 1 else 0)
    decreases |pieces|
  {
    if pieces != [] && pending != [] && Detect(pending[0], BareHallucinated) == 0 {
      EachJudgementConsumesOneReply(m, document, summary, pieces[1..], pending[1..]);
    }
  }

  /** The judging model is looked up before anything is sent: an unknown id
      fails the row with no call at all; with a known id the extraction goes
      out first. */
  lemma LookupComesFirst(judgingModel: string, document: string, summary: string, pending: seq<string>)
    ensures var run := SentenceLevelRun(judgingModel, document, summary, pending);
            (LookupModel(judgingModel).None? ==> run == Run(Err(UnknownModel(judgingModel)), [], pending)) &&
            (LookupModel(judgingModel).Some? ==>
               |run.calls| >= 1 && run.calls[0] == Request(Gpt4oMini, AskSentences(summary)))
  {
  }
}
