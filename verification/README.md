# Chain-of-Tailored-Debates in Dafny

This project models the evaluation core of Chain-of-Tailored-Debates. That
repository judges whether a summary contains hallucinated content, using
several strategies that orchestrate calls to large language models.

- `helpers.py` holds the prompt builders, the backend registry and the
  strategies: baseline, counterfactual debate, extended counterfactual debate,
  chain of tailored debates, knowledge filtering and sentence-level detection.
  It also holds the SummEval summary pickers.
- `read_QAGS.py` consolidates the QAGS crowd annotations into one class per
  article.

The model is built as follows:

- **Backends.** They are an `Oracle` object (`Judge.dfy`). It answers each
  request from a queue of canned replies and keeps a ghost log of every
  request it receives. An exhausted queue stands for a backend failure, which
  aborts the row.
- **Strategies.** Each strategy is a method that talks to the oracle. It is
  proved against a pure specification function that returns a `Run`: the
  result, the requests sent in order, and the replies left over. The
  properties of each strategy (early exit, call counts and order, which
  replies each prompt reads, the verdict rule) are lemmas about those
  functions.
- **Prompts.** Each builder is a function returning a conversation of
  role-tagged messages. Its contract gives the conversation's shape and
  states that every caller field appears verbatim in the live request.
  `Prompt` is the same builders as data, so a logged request says which
  builder was used and with what.
- **Debate records.** The texts that stitch replies into debates are written
  out to the character (`Records.dfy`).
- **Verdict rules.** The substring tests live in `Verdicts.dfy`.
- **QAGS consolidation.** The row building, the agreement rule, the
  whole-article filter and the classification are in `Qags.dfy`. The row
  building and the agreement rule are loops in the source and methods with
  invariants here.

## Model

| member | source | states |
|---|---|---|
| Judge.LookupModel | helpers.py:50-52 | a backend is found exactly for the keys "gpt4o", "gpt4o_mini" and "phi3", and the one found is registered under that key |
| Judge.LookupModelId | helpers.py:50-52 | every backend is found under its own key |
| Judge.Oracle.constructor | helpers.py:8-15 | the backends start with the given script of replies and an empty request log |
| Judge.Oracle.Complete | helpers.py:19-47 | a call appends its request to the log and returns and consumes the next reply, or fails when none is left |
| Verdicts.Detect | helpers.py:437-440 | the verdict is 1 exactly when the marker occurs in the reply, and 0 exactly when it does not |
| Verdicts.MarkerPrecedence | helpers.py:437 | "[HALLUCINATED]" anywhere in a reply gives verdict 1, whatever surrounds it |
| Verdicts.BareTestIsWeaker | helpers.py:757 | every reply the bracketed test flags is also flagged by the bare "HALLUCINATED" test of sentence_level |
| Verdicts.NoMarkerWithoutH | helpers.py:757 | a reply without a capital H is never flagged by either test |
| Verdicts.LenientBareTest | helpers.py:757 | "[SUPPORTED] - not HALLUCINATED" is flagged by the bare test but not by the bracketed one |
| Text.Contains | helpers.py:437 | the substring test holds exactly when the text occurs somewhere in the string |
| Text.Split | helpers.py:566 | splitting on a separator yields at least one piece, no piece holds the separator, and joining the pieces gives the input back |
| Text.SplitJoin | helpers.py:566 | splitting a join of separator-free pieces gives the pieces back |
| Text.SplitPlain | helpers.py:747 | a line with no separator splits into itself alone |
| Text.SplitCut | helpers.py:747 | splitting peels off the text before the first separator as the first piece |
| Text.Repeat | helpers.py:591 | `s * n`: n copies of s placed end to end; its properties are RepeatGrows, RepeatLength, RepeatSplits and RepeatCopy |
| Text.RepeatGrows | helpers.py:591 | zero copies are empty, and n + 1 copies are n copies followed by one more |
| Text.RepeatLength | helpers.py:591 | n copies are n times as long as the string |
| Text.RepeatSplits | helpers.py:591 | a + b copies are a copies followed by b copies |
| Text.RepeatCopy | helpers.py:591 | copy k comes after k copies and before the remaining n - k - 1 |
| Text.JoinHoldsPiece | read_QAGS.py:28 | every piece appears verbatim in the joined text |
| Prompts.FieldsEmbedded | helpers.py:123-153 | every field of a user template appears verbatim in the rendered request |
| Prompts.SingleTurnWith | helpers.py:123-153 | a single-turn builder yields system instructions then one user request that carries every field |
| Prompts.Exchanges | helpers.py:56-72 | each demonstration becomes a user message followed by the assistant's expected answer, in order |
| Prompts.FewShotWith | helpers.py:56-72 | a few-shot builder yields instructions, alternating user and assistant exemplars, then the user request last |
| Prompts.SentenceExtractor | helpers.py:56-72 | eight messages in few-shot form, the last being "Summary: " followed by the summary |
| Prompts.EntityExtractor | helpers.py:74-90 | eight messages in few-shot form, the last being "Sentence: " followed by the sentence |
| Prompts.DocumentSentencesExtractor | helpers.py:92-121 | a single turn whose request carries the document and the summary |
| Prompts.HallucinationAbduction | helpers.py:123-153 | a single turn whose request carries the source text and the summary |
| Prompts.SupportedAbduction | helpers.py:155-186 | a single turn whose request carries the source text and the summary |
| Prompts.HallucinatedCritic | helpers.py:188-221 | a single turn whose request carries the document, the summary and the claim under critique |
| Prompts.SupportedCritic | helpers.py:223-256 | a single turn whose request carries the document, the summary and the claim under critique |
| Prompts.DefenceHallucination | helpers.py:258-292 | a single turn whose request carries the document, the summary, the claim and the critique |
| Prompts.DefenceSupported | helpers.py:294-328 | a single turn whose request carries the document, the summary, the claim and the critique |
| Prompts.DebateJudge | helpers.py:330-367 | a single turn whose request carries the debates and the summary |
| Prompts.ExtendedDebateJudge | helpers.py:369-408 | a single turn whose request carries the document, the summary and the debate |
| Prompts.StatementHallucinationAbduction | helpers.py:454-487 | a single turn whose request carries the document, the summary and the highlighted statement |
| Prompts.StatementSupportedAbduction | helpers.py:489-523 | a single turn whose request carries the document, the summary and the highlighted statement |
| Prompts.ChainDebatesJudge | helpers.py:525-562 | a single turn whose request carries the document, the summary and the one debate |
| Prompts.ZeroshotJudge | helpers.py:603-637 | a single turn whose request carries the document and the summary |
| Prompts.KnowledgeFilteredJudge | helpers.py:648-685 | a single turn whose request carries the filtered document and the summary |
| Prompts.SentenceLevelJudge | helpers.py:702-743 | a single turn whose request carries the document, the summary and the highlighted sentence |
| Prompts.Messages | helpers.py:56-743 | every prompt is sent as system instructions first and a user request last |
| Prompts.MessagesEmbedFields | helpers.py:56-743 | no builder drops a caller text: each argument appears verbatim in the request |
| Records.DebateRecord | helpers.py:419-427 | one side's record: its opening line, the claim, "\nCritique: ", the critique, "\nDefence: ", the defence, and its closing line; DebateRecordShape states what the judge can rely on |
| Records.BothSides | helpers.py:432 | the two records, each after a line break, the hallucinated one first; BothSidesShape states its properties |
| Records.ChainDebate | helpers.py:575-589 | the debate about one statement: the hallucinated side's argument, then the supported side's, each under its own heading; ChainDebateShape states its properties |
| Records.HistoryBlock | helpers.py:591 | what one statement adds to the history: heading and statement, the debate, the rule; HistoryBlockShape states its properties |
| Records.DebateRecordShape | helpers.py:419-427 | a side's record opens and closes with that side's fixed lines and carries the claim, critique and defence verbatim |
| Records.BothSidesShape | helpers.py:432 | the joined debates carry both records verbatim, the supported one last |
| Records.ChainDebateShape | helpers.py:575-589 | a statement debate carries both claims verbatim, opens with the hallucinated side's heading and ends with the supported side's closing line |
| Records.HistoryBlockShape | helpers.py:591 | a history block carries its statement and the debate verbatim, and ends with the rule of one hundred "\n- " and a line break |
| CounterfactualDebate.SideRun | helpers.py:416-427 | one side succeeds exactly with three replies, sends at most three requests, all to the debating model, and consumes three replies |
| CounterfactualDebate.JudgeRun | helpers.py:434-440 | the judgement is one gpt4o call that returns both records, and the verdict is 1 exactly when the reply holds "[HALLUCINATED]" |
| CounterfactualDebate.SecondHalfRun | helpers.py:424-440 | the supported side and the judgement need four replies, and the verdict comes from the fourth |
| CounterfactualDebate.CounterfactualRun | helpers.py:410-440 | an unknown model id fails before any call; otherwise the run succeeds exactly with seven replies, sends at most seven requests, and the verdict comes from the seventh reply |
| CounterfactualDebate.Counterfactual | helpers.py:410-440 | the method returns, sends and consumes exactly what the specification run does |
| CounterfactualDebate.ArgueSide | helpers.py:416-427 | the three calls of one side return, send and consume exactly what the side's specification does |
| CounterfactualDebate.SevenCalls | helpers.py:410-440 | with seven replies the run sends the claim, critique and defence of each side in source order, each built on the earlier replies, then the judgement of both records |
| CounterfactualDebate.ClaimReadsInputs | helpers.py:416-424 | a claim prompt carries the document and the summary |
| CounterfactualDebate.CritiqueReadsClaim | helpers.py:417-425 | a critique prompt carries the claim it criticises |
| CounterfactualDebate.DefenceReadsClaimAndCritique | helpers.py:418-426 | a defence prompt carries its claim and the critique of it |
| CounterfactualDebate.StepsReadEarlierReplies | helpers.py:416-427 | on either side every step reads the document and the summary, and each step reads the replies before it |
| CounterfactualDebate.VerdictPromptCarriesRecords | helpers.py:432-434 | the judgement prompt carries both records and the summary |
| CounterfactualDebate.VerdictPromptCarriesReplies | helpers.py:419-434 | the judgement prompt carries all six debate replies verbatim |
| CounterfactualDebate.JudgeSeesEveryReply | helpers.py:410-440 | in a full run the judge reads every claim, critique and defence, and the summary |
| CounterfactualDebate.SideFailureIsPrefix | helpers.py:416-427 | a side cut short by a failure has sent a prefix of what it sends with more replies |
| CounterfactualDebate.SideReadsThreeReplies | helpers.py:416-427 | a side's record and requests depend on its first three replies only |
| CounterfactualDebate.SecondHalfFailureIsPrefix | helpers.py:424-440 | the second half cut short by a failure has sent a prefix of what it sends with more replies |
| CounterfactualDebate.FailureIsPrefix | helpers.py:410-440 | a failed run has sent exactly the first requests of a run with more replies: no request depends on a reply that never came |
| ChainDebates.JudgeSeesBothClaims | helpers.py:589-594 | the judge of a round reads both claims of that round, the document and the summary |
| ChainDebates.RoundRun | helpers.py:572-597 | one round of the loop: both claims, then the judgement, each failing the row when no reply is left; RoundNeedsThreeReplies states its properties |
| ChainDebates.DebatePieces | helpers.py:570-600 | the loop over statements, stopping at the first positive judgement or the first failure; its properties are the lemmas below |
| ChainDebates.ChainDebatesRun | helpers.py:564-600 | the whole strategy: the extraction, the model lookup, then the loop over the extracted lines; ExtractionComesFirst states its properties |
| ChainDebates.HistoryAfter | helpers.py:591 | the history after full rounds over some statements: one block per statement, in order; HistoryKeepsEveryDebate states its properties |
| ChainDebates.RoundNeedsThreeReplies | helpers.py:572-597 | a round succeeds exactly with three replies, sends at most three requests, builds its debate from the two claims, and reads its verdict from the third reply |
| ChainDebates.EachCallConsumesOneReply | helpers.py:570-600 | each request of the loop consumes one reply, except one that finds none and fails the row; at most three requests per statement |
| ChainDebates.ExtractionComesFirst | helpers.py:564-572 | the extraction is always the first request; an unknown model id fails the row after it with nothing else sent |
| ChainDebates.HistoryKeepsEveryDebate | helpers.py:591 | the history keeps what it held and gains every debated statement and every debate verbatim |
| ChainDebates.ChainDebates | helpers.py:564-600 | the method returns, sends and consumes exactly what the specification run does |
| ChainDebates.DebateStatements | helpers.py:570-600 | the loop over statements returns, sends and consumes exactly what the specification of the loop does |
| ChainDebates.DebateRound | helpers.py:572-597 | one round returns, sends and consumes exactly what the specification of a round does |
| ChainDebates.Rounds | helpers.py:570-594 | full rounds over n statements make 3n requests |
| ChainDebates.ChainStopsAtFirstPositive | helpers.py:570-598 | the first judgement that holds "[HALLUCINATED]" ends the run with verdict 1 and its round's debate, after exactly that many full rounds, with their blocks in the history |
| ChainDebates.ChainAllNegative | helpers.py:570-600 | with no positive judgement, every statement gets one full round in order, the verdict is 0, the last debate is returned and the history holds one block per statement |
| ChainDebates.RoundsAt | helpers.py:574-594 | round j sends both claims about statement j to the debating model, then the debate built from that round's replies to gpt4o |
| ChainDebates.ChainVerdictIsAnyPositive | helpers.py:570-600 | the verdict is 1 exactly when some judgement reached holds the marker, and 0 exactly when every statement was judged and none did |
| SentenceLevel.JudgeRequests | helpers.py:749-755 | one judging request per sentence |
| SentenceLevel.JudgePieces | helpers.py:749-759 | the judging loop: one request per sentence, stopping at the first positive reply or the first failure; its properties are the lemmas below |
| SentenceLevel.SentenceLevelRun | helpers.py:745-759 | the whole strategy: the model lookup, the extraction, then the judging loop over the extracted lines; LookupComesFirst states its properties |
| SentenceLevel.EachJudgementConsumesOneReply | helpers.py:749-759 | each judging request consumes one reply, except one that finds none and fails the row; at most one request per sentence |
| SentenceLevel.LookupComesFirst | helpers.py:745-747 | an unknown judging model fails the row before any call; with a known one the extraction goes out first |
| SentenceLevel.SentenceLevel | helpers.py:745-759 | the method returns, sends and consumes exactly what the specification run does |
| SentenceLevel.JudgeSentences | helpers.py:749-759 | the loop returns, sends and consumes exactly what the specification of the loop does |
| SentenceLevel.StopsAtFirstPositive | helpers.py:749-758 | the first reply holding "HALLUCINATED" ends the run with verdict 1 after judging exactly the sentences up to it |
| SentenceLevel.JudgesAllWhenNegative | helpers.py:749-759 | with no positive reply every sentence is judged once, in order, and the verdict is 0 |
| SentenceLevel.FailsWhenRepliesRunOut | helpers.py:749-759 | running out of replies before a positive one fails the row after the request that found none |
| SentenceLevel.VerdictIsAnyPositive | helpers.py:749-759 | the verdict is 1 exactly when a reply the loop reads is positive, and 0 exactly when all sentences were judged negative |
| SentenceLevel.EmptyExtractionIsStillJudged | helpers.py:747-755 | an empty extraction still yields one empty sentence, which is judged |
| SentenceLevel.TwoSentencesSecondHallucinated | helpers.py:745-759 | two sentences with the second flagged give verdict 1 after the extraction and two judgements |
| SingleJudge.Baseline | helpers.py:639-644 | one zero-shot gpt4o call; the verdict is 1 exactly when the reply holds "[HALLUCINATED]" |
| SingleJudge.CounterfactualDebateExtended | helpers.py:442-450 | one gpt4o call on the document, summary and debate; the verdict is 1 exactly when the reply holds "[HALLUCINATED]" |
| SingleJudge.KnowledgeFiltering | helpers.py:687-698 | an unknown id sends nothing; otherwise the filtering call, then a gpt4o judgement of the filtered document; the verdict is 1 exactly when the reply holds "[TRUE]", and the filtered document is returned unchanged |
| SummarySelection.Matching | helpers.py:765-766 | the qualifying positions are exactly those whose score is in the band, in increasing order |
| SummarySelection.Candidates | helpers.py:766 | the candidates are the summaries at the qualifying positions, in order |
| SummarySelection.FindRandomSummary | helpers.py:763-769 | there is no pick exactly when no score qualifies; otherwise the pick is a summary at a qualifying position |
| SummarySelection.FindRandomSummaryWithConsistency5 | helpers.py:763-769 | none exactly when no score is 5, else a summary whose score is 5 |
| SummarySelection.FindRandomSummaryWithHallucinations | helpers.py:771-777 | none exactly when every score is at least 5, else a summary whose score is below 5 |
| SummarySelection.EveryCandidateCanBeDrawn | helpers.py:768 | every qualifying summary is returned for some random draw |
| Qags.Normalised | read_QAGS.py:21-25 | exactly three answers: the first three responses, padded with missing answers |
| Qags.SummaryOf | read_QAGS.py:28 | the whole summary: the sentences of the item joined by single spaces; SentencesInSummary states its property |
| Qags.MakeRow | read_QAGS.py:26-33 | a row: the article, the whole summary, the highlighted sentence and its three normalised answers |
| Qags.ItemRows | read_QAGS.py:19-34 | the rows of one item, one per summary sentence, in order |
| Qags.Rows | read_QAGS.py:17-34 | the rows of all items, item after item; RowsComeFromItems and BuildRows state its properties |
| Qags.SentencesInSummary | read_QAGS.py:28 | the whole summary carries each of its sentences verbatim |
| Qags.HighlightedInSummary | read_QAGS.py:26-33 | the highlighted sentence of every row appears verbatim in that row's summary |
| Qags.BuildRows | read_QAGS.py:17-34 | the loop builds exactly the rows of the items, one per summary sentence, item by item |
| Qags.RowsComeFromItems | read_QAGS.py:17-34 | there are as many rows as summary sentences, and each row carries an item's article, its whole summary, one of its sentences and that sentence's answers |
| Qags.RowAnswers | read_QAGS.py:21-32 | each row's three workers are the sentence's first three responses, padded |
| Qags.CountOf | read_QAGS.py:45-49 | a count never exceeds the number of answers |
| Qags.Agrees | read_QAGS.py:52 | a row agrees when three answers are "yes" or at least two are "no"; AllSame computes it and AgreementWithThreeAnswers states its properties |
| Qags.AllSame | read_QAGS.py:40-52 | the loop decides agreement exactly as three "yes" or at least two "no" |
| Qags.CountsShareTheAnswers | read_QAGS.py:46-49 | no answer is counted both as "yes" and as "no" |
| Qags.CountAll | read_QAGS.py:45-49 | every answer is the word exactly when all of them are counted |
| Qags.AgreementWithThreeAnswers | read_QAGS.py:52 | with three answers the two ways of agreeing exclude each other, and three "yes" means every answer is "yes" |
| Qags.UnansweredNeverAgrees | read_QAGS.py:22-52 | a sentence with at most one response never agrees, because padding counts for neither side |
| Qags.GroupOf | read_QAGS.py:57 | an article's group holds exactly the rows of that article |
| Qags.KeepWhere | read_QAGS.py:56-57 | the filter keeps exactly the rows whose article agrees on every row |
| Qags.KeepConsistentArticles | read_QAGS.py:56-57 | the filter keeps exactly the rows whose article agrees on every one of its rows in the table |
| Qags.KeepsWholeArticles | read_QAGS.py:56-57 | the filter keeps all rows of a consistent article, in order, and none of any other |
| Qags.GroupSplits | read_QAGS.py:57 | grouping distributes over concatenation of tables |
| Qags.Classify | read_QAGS.py:70-75 | one entry per article, classified from its group and given the summary of its first row |
| Qags.CorrectArticles | read_QAGS.py:80 | the correct table holds exactly the articles classified correct |
| Qags.HallucinatedArticles | read_QAGS.py:81 | the hallucinated table holds exactly the articles classified hallucinated |
| Qags.DetermineClass | read_QAGS.py:63-68 | a group is correct when every answer of every row is "yes", hallucinated otherwise; HallucinatedGroupHasDissent states its property |
| Qags.OutputsPartition | read_QAGS.py:80-81 | the two output tables are disjoint and together hold every classified article |
| Qags.HallucinatedGroupHasDissent | read_QAGS.py:63-68 | an agreeing group not classified correct has a row with at least two "no" |
| Qags.ClassOfArticle | read_QAGS.py:56-75 | a classified article agrees on every row, its class is decided from all its rows, and its summary is its first row's |
| Qags.ClassifiedArticles | read_QAGS.py:56-75 | an article is classified exactly when all its rows agree |
| Qags.HallucinatedArticleHasDissent | read_QAGS.py:56-75 | every article classified hallucinated has a row where at least two workers answered "no" |

## Left out

- Backend clients, their network calls and their parameters (model names, temperature, `n`) are left out. Replies are the oracle's script. A client exception is the oracle's exhausted queue, which fails the row.
- The `print` calls and the log lines they write are left out.
- The wording of the system instructions and of the few-shot exemplars is left out. Each task's instructions are a tag, and the exemplars are three stand-in pairs per task.
- The line breaks and indentation between the fields of a user template are the separator `Gap`. The labels and the order of the fields are kept.
- SummarySelection.FindRandomSummary: the source raises `IndexError` when a qualifying position has no summary, because the list of summaries is shorter than the list of scores. The model does not model that error: `Indexable` requires every qualifying position to have a summary.
- SummarySelection.FindRandomSummary: `random.choice` is the parameter `pick`, taken modulo the number of candidates. Its distribution is not modelled.
- Consistency scores are `real`. The source compares Python numbers with 5, and this model does not distinguish `int` from `float`.
- The `read_jsonl` file reading, the pandas DataFrame machinery and the CSV writing are left out. The tables are sequences of rows and maps keyed by article.
- Qags.Classify: the row order of the grouped output table (sorted by article) is not modelled. The table is a map from article to class and summary.
- The drivers that iterate the strategies over datasets and score them (the `*_HaluEval.py`, `*_QAGS.py` and `*_analysis.py` scripts) are not part of this model.
- ChainDebates.ChainDebatesRun: the source looks up the debating model at the top of every round. Here the lookup happens once, after the extraction. The two agree, because the extraction always yields at least one statement and the lookup cannot change between rounds.
- ChainDebates.DebateRound: the source appends the history block before the judge's call. The model appends it after the call succeeds. A failed call aborts the row either way, so the history is never observed.
- The `Tuple` return annotations of `counterfactual_debate`, `chain_debates` and `knowledge_filtering` are records (`DebateOutcome`, `ChainOutcome`, `Filtered`). `sentence_level` is annotated as a tuple but returns a plain integer, and the model returns a verdict.
- The `phi3_response`, `gpt4o_mini_response` and `gpt4o_response` functions are the `Model` datatype and the oracle. Which model served a call is recorded in each logged request.
