/** The prompt builders of helpers.py. Each builds a fresh conversation of
    role-tagged messages. The wording of the system instructions and of the
    few-shot exemplars is configuration, not logic: it is represented by a tag
    per task. What is modelled is the shape of each conversation (how many
    messages, which roles, in which order) and where the caller's fields are
    embedded. The line breaks and indentation between the fields of a user
    template are abstracted to the separator `Gap`. */
module Prompts {
  import opened Text

  datatype Role = System | User | Assistant

  datatype Message = Message(role: Role, content: string)

  type Conversation = seq<Message>

  /** The sub-task a conversation asks for; each has its own fixed instructions. */
  datatype Task =
    | SentenceExtraction | EntityExtraction | KnowledgeExtraction
    | HallucinationAdvocacy | SupportAdvocacy
    | HallucinationCritique | SupportCritique
    | HallucinationDefence | SupportDefence
    | DebateJudging | ExtendedDebateJudging
    | StatementHallucinationAdvocacy | StatementSupportAdvocacy | ChainDebateJudging
    | ZeroshotJudging | FilteredJudging | SentenceJudging

  /** Stands for the literal system text of a task. */
  function Instructions(task: Task): string {
    "[instructions for " + TaskName(task) + "]"
  }

  function TaskName(task: Task): string {
    match task
    case SentenceExtraction => "sentence extraction"
    case EntityExtraction => "entity extraction"
    case KnowledgeExtraction => "knowledge extraction"
    case HallucinationAdvocacy => "hallucination advocacy"
    case SupportAdvocacy => "support advocacy"
    case HallucinationCritique => "critique of a hallucination claim"
    case SupportCritique => "critique of a support claim"
    case HallucinationDefence => "defence of a hallucination claim"
    case SupportDefence => "defence of a support claim"
    case DebateJudging => "debate judging"
    case ExtendedDebateJudging => "debate judging with the document"
    case StatementHallucinationAdvocacy => "statement hallucination advocacy"
    case StatementSupportAdvocacy => "statement support advocacy"
    case ChainDebateJudging => "statement debate judging"
    case ZeroshotJudging => "zero-shot judging"
    case FilteredJudging => "judging on filtered knowledge"
    case SentenceJudging => "sentence judging"
  }

  /** Stands for the line break and indentation between two template lines. */
  const Gap: string := "\n\n"

  /** A user template: fixed text interleaved with the caller's fields. */
  datatype Piece = Text(text: string) | Field(value: string)

  function Render(template: seq<Piece>): string
    decreases |template|
  {
    if template == [] then ""
    else
      (match template[0] case Text(t) => t case Field(v) => v) + Render(template[1..])
  }

  /** Every field of a template appears verbatim in its rendering. */
  lemma FieldsEmbedded(template: seq<Piece>)
    ensures forall i :: 0 <= i < |template| && template[i].Field? ==>
              IsInfix(template[i].value, Render(template))
  {
    forall i | 0 <= i < |template| && template[i].Field?
      ensures IsInfix(template[i].value, Render(template))
    {
      FieldEmbedded(template, i);
    }
  }

  /** The field at position `i` appears verbatim in the rendering. */
  lemma {:induction false} FieldEmbedded(template: seq<Piece>, i: nat)
    requires i < |template| && template[i].Field?
    ensures IsInfix(template[i].value, Render(template))
    decreases i
  {
    var head := match template[0] case Text(t) => t case Field(v) => v;
    var rest := Render(template[1..]);
    assert Render(template) == head + rest;
    if i == 0 {
      InfixOfConcat("", head, rest);
      assert "" + head + rest == head + rest;
    } else {
      assert template[1..][i - 1] == template[i];
      FieldEmbedded(template[1..], i - 1);
      InfixOfConcat(head, rest, "");
      assert head + rest + "" == head + rest;
      InfixTransitive(template[i].value, rest, Render(template));
    }
  }

  /** A template that opens with fixed text renders to something starting with it. */
  lemma RenderStartsWith(template: seq<Piece>)
    requires |template| > 0 && template[0].Text?
    ensures IsPrefix(template[0].text, Render(template))
  {
  }

  /** A template that closes with fixed text renders to something ending with it. */
  lemma {:induction false} RenderEndsWith(template: seq<Piece>)
    requires |template| > 0 && template[|template| - 1].Text?
    ensures IsSuffix(template[|template| - 1].text, Render(template))
    decreases |template|
  {
    if |template| > 1 {
      assert template[1..][|template[1..]| - 1] == template[|template| - 1];
      RenderEndsWith(template[1..]);
    } else {
      assert Render(template) == template[0].text + Render([]);
    }
  }

  /** The last message is the live request, a user turn. */
  predicate EndsWithUser(c: Conversation) {
    |c| > 0 && c[|c| - 1].role == User
  }

  /** The live request of `c` contains `field` verbatim. */
  ghost predicate Embeds(c: Conversation, field: string) {
    |c| > 0 && IsInfix(field, c[|c| - 1].content)
  }

  /** Whatever is inside an embedded text is embedded too. */
  lemma EmbedsPart(c: Conversation, part: string, whole: string)
    requires Embeds(c, whole) && IsInfix(part, whole)
    ensures Embeds(c, part)
  {
    InfixTransitive(part, whole, c[|c| - 1].content);
  }

  /** System instructions followed by one user request. */
  predicate SingleTurn(c: Conversation) {
    |c| == 2 && c[0].role == System && c[1].role == User
  }

  /** System instructions, then user/assistant exemplar pairs, ending in a user request. */
  predicate FewShot(c: Conversation) {
    |c| % 2 == 0 && |c| >= 2 && c[0].role == System && c[|c| - 1].role == User &&
    forall k :: 0 <= k < |c| / 2 - 1 ==> c[2 * k + 1].role == User && c[2 * k + 2].role == Assistant
  }

  function SingleTurnWith(task: Task, template: seq<Piece>): (c: Conversation)
    ensures SingleTurn(c) && EndsWithUser(c)
    ensures forall i :: 0 <= i < |template| && template[i].Field? ==> Embeds(c, template[i].value)
  {
    FieldsEmbedded(template);
    [Message(System, Instructions(task)), Message(User, Render(template))]
  }

  /** The demonstration exchanges of a few-shot task: input text, expected answer. */
  function Demonstrations(task: Task): seq<(string, string)> {
    [ ("[exemplar input 1 for " + TaskName(task) + "]", "[exemplar answer 1]"),
      ("[exemplar input 2 for " + TaskName(task) + "]", "[exemplar answer 2]"),
      ("[exemplar input 3 for " + TaskName(task) + "]", "[exemplar answer 3]") ]
  }

  function Exchanges(demos: seq<(string, string)>): (ms: seq<Message>)
    ensures |ms| == 2 * |demos|
    ensures forall k :: 0 <= k < |demos| ==>
              ms[2 * k] == Message(User, demos[k].0) && ms[2 * k + 1] == Message(Assistant, demos[k].1)
  {
    if demos == [] then []
    else
      var rest := Exchanges(demos[1..]);
      var ms := [Message(User, demos[0].0), Message(Assistant, demos[0].1)] + rest;
      assert forall i :: 2 <= i < |ms| ==> ms[i] == rest[i - 2];
      assert forall k :: 1 <= k < |demos| ==> demos[k] == demos[1..][k - 1];
      ms
  }

  function FewShotWith(task: Task, request: string): (c: Conversation)
    ensures FewShot(c) && EndsWithUser(c)
    ensures |c| == 2 * |Demonstrations(task)| + 2
    ensures c[|c| - 1] == Message(User, request)
  {
    var demos := Demonstrations(task);
    var ex := Exchanges(demos);
    var c := [Message(System, Instructions(task))] + ex + [Message(User, request)];
    assert forall k :: 0 <= k < |demos| ==> c[2 * k + 1] == ex[2 * k] && c[2 * k + 2] == ex[2 * k + 1];
    c
  }

  // ---- Builders for sentence and entity extraction (helpers.py:56-119) ----

  /** create_summary_sentence_extractor_messages */
  function SentenceExtractor(summary: string): (c: Conversation)
    ensures FewShot(c) && |c| == 8
    ensures c[7] == Message(User, "Summary: " + summary)
    ensures Embeds(c, summary)
  {
    InfixOfConcat("Summary: ", summary, "");
    assert "Summary: " + summary + "" == "Summary: " + summary;
    FewShotWith(SentenceExtraction, "Summary: " + summary)
  }

  /** create_entity_extractor_messages */
  function EntityExtractor(sentence: string): (c: Conversation)
    ensures FewShot(c) && |c| == 8
    ensures c[7] == Message(User, "Sentence: " + sentence)
    ensures Embeds(c, sentence)
  {
    InfixOfConcat("Sentence: ", sentence, "");
    assert "Sentence: " + sentence + "" == "Sentence: " + sentence;
    FewShotWith(EntityExtraction, "Sentence: " + sentence)
  }

  /** create_document_sentences_extractor_messages */
  function DocumentSentencesExtractor(document: string, summary: string): (c: Conversation)
    ensures SingleTurn(c) && Embeds(c, document) && Embeds(c, summary)
  {
    var t := [Text("Source text: "), Field(document), Text(Gap + "Summary: "), Field(summary),
              Text(Gap + "The extracted sentences:")];
    assert t[1].Field? && t[3].Field?;
    SingleTurnWith(KnowledgeExtraction, t)
  }

  // ---- Builders for counterfactual debate (helpers.py:123-408) ----

  /** create_hallucination_abduction_messages */
  function HallucinationAbduction(knowledge: string, statement: string): (c: Conversation)
    ensures SingleTurn(c) && Embeds(c, knowledge) && Embeds(c, statement)
  {
    var t := [Text("Source text: "), Field(knowledge), Text(Gap + "Summary: "), Field(statement),
              Text(Gap + "Reasoning:")];
    assert t[1].Field? && t[3].Field?;
    SingleTurnWith(HallucinationAdvocacy, t)
  }

  /** create_supported_abduction_messages */
  function SupportedAbduction(knowledge: string, statement: string): (c: Conversation)
    ensures SingleTurn(c) && Embeds(c, knowledge) && Embeds(c, statement)
  {
    var t := [Text("Source text: "), Field(knowledge), Text(Gap + "Summary: "), Field(statement),
              Text(Gap + "Reasoning:")];
    assert t[1].Field? && t[3].Field?;
    SingleTurnWith(SupportAdvocacy, t)
  }

  /** create_hallucinated_critic_messages */
  function HallucinatedCritic(document: string, sentence: string, explanation: string): (c: Conversation)
    ensures SingleTurn(c) && Embeds(c, document) && Embeds(c, sentence) && Embeds(c, explanation)
  {
    var t := [Text("Document: "), Field(document), Text(Gap + "Summary: "), Field(sentence),
              Text(Gap + "Claim: "), Field(explanation), Text(Gap + "Persuasion:")];
    assert t[1].Field? && t[3].Field? && t[5].Field?;
    SingleTurnWith(HallucinationCritique, t)
  }

  /** create_supported_critic_messages */
  function SupportedCritic(document: string, sentence: string, explanation: string): (c: Conversation)
    ensures SingleTurn(c) && Embeds(c, document) && Embeds(c, sentence) && Embeds(c, explanation)
  {
    var t := [Text("Document: "), Field(document), Text(Gap + "Summary: "), Field(sentence),
              Text(Gap + "Claim: "), Field(explanation), Text(Gap + "Persuasion:")];
    assert t[1].Field? && t[3].Field? && t[5].Field?;
    SingleTurnWith(SupportCritique, t)
  }

  /** create_defence_hallucination_messages */
  function DefenceHallucination(document: string, sentence: string, explanation: string, critique: string)
    : (c: Conversation)
    ensures SingleTurn(c) && Embeds(c, document) && Embeds(c, sentence)
    ensures Embeds(c, explanation) && Embeds(c, critique)
  {
    var t := [Text("Document: "), Field(document), Text(Gap + "Summary: "), Field(sentence),
              Text(Gap + "Your claim: "), Field(explanation), Text(Gap + "Someone's critique: "),
              Field(critique), Text(Gap + "Your defence:")];
    assert t[1].Field? && t[3].Field? && t[5].Field? && t[7].Field?;
    SingleTurnWith(HallucinationDefence, t)
  }

  /** create_defence_supported_messages */
  function DefenceSupported(document: string, sentence: string, explanation: string, critique: string)
    : (c: Conversation)
    ensures SingleTurn(c) && Embeds(c, document) && Embeds(c, sentence)
    ensures Embeds(c, explanation) && Embeds(c, critique)
  {
    var t := [Text("Document: "), Field(document), Text(Gap + "Summary: "), Field(sentence),
              Text(Gap + "Your claim: "), Field(explanation), Text(Gap + "Someone's critique: "),
              Field(critique), Text(Gap + "Your defence:")];
    assert t[1].Field? && t[3].Field? && t[5].Field? && t[7].Field?;
    SingleTurnWith(SupportDefence, t)
  }

  /** create_judge_messages: the debates and the summary, but no document. */
  function DebateJudge(summary: string, debates: string): (c: Conversation)
    ensures SingleTurn(c) && Embeds(c, debates) && Embeds(c, summary)
  {
    var t := [Text("Debates: "), Field(debates), Text(Gap + "Summary: "), Field(summary),
              Text(Gap + "Judgement:")];
    assert t[1].Field? && t[3].Field?;
    SingleTurnWith(DebateJudging, t)
  }

  /** create_extended_judge_messages */
  function ExtendedDebateJudge(document: string, summary: string, debates: string): (c: Conversation)
    ensures SingleTurn(c) && Embeds(c, document) && Embeds(c, summary) && Embeds(c, debates)
  {
    var t := [Text("Document: "), Field(document), Text(Gap + "Summary: "), Field(summary),
              Text(Gap + "Debates: "), Field(debates), Text(Gap + "Judgement:")];
    assert t[1].Field? && t[3].Field? && t[5].Field?;
    SingleTurnWith(ExtendedDebateJudging, t)
  }

  // ---- Builders for chain of tailored debates (helpers.py:454-562) ----

  /** create_statement_hallucination_abduction_messages: the statement is shown in brackets. */
  function StatementHallucinationAbduction(document: string, summary: string, statement: string)
    : (c: Conversation)
    ensures SingleTurn(c) && Embeds(c, document) && Embeds(c, summary)
    ensures Embeds(c, statement)
  {
    var t := [Text("Source text: "), Field(document), Text(Gap + "Summary: "), Field(summary),
              Text(Gap + "Highlighted statement: ["), Field(statement), Text("]" + Gap + "Reasoning:")];
    assert t[1].Field? && t[3].Field? && t[5].Field?;
    SingleTurnWith(StatementHallucinationAdvocacy, t)
  }

  /** create_statement_supported_abduction_messages */
  function StatementSupportedAbduction(document: string, summary: string, statement: string)
    : (c: Conversation)
    ensures SingleTurn(c) && Embeds(c, document) && Embeds(c, summary)
    ensures Embeds(c, statement)
  {
    var t := [Text("Source text: "), Field(document), Text(Gap + "Summary: "), Field(summary),
              Text(Gap + "Highlighted statement: ["), Field(statement), Text("]" + Gap + "Reasoning: ")];
    assert t[1].Field? && t[3].Field? && t[5].Field?;
    SingleTurnWith(StatementSupportAdvocacy, t)
  }

  /** create_chain_debates_judge_messages: document, summary and one debate only. */
  function ChainDebatesJudge(document: string, summary: string, debate: string): (c: Conversation)
    ensures SingleTurn(c) && Embeds(c, document) && Embeds(c, summary) && Embeds(c, debate)
  {
    var t := [Text("Document: "), Field(document), Text(Gap + "Summary: "), Field(summary),
              Text(Gap + "Debate: "), Field(debate), Text(Gap + "Judgement:")];
    assert t[1].Field? && t[3].Field? && t[5].Field?;
    SingleTurnWith(ChainDebateJudging, t)
  }

  // ---- Builders for the single-judge strategies (helpers.py:603-743) ----

  /** create_zeroshot_hallucination_judge */
  function ZeroshotJudge(document: string, summary: string): (c: Conversation)
    ensures SingleTurn(c) && Embeds(c, document) && Embeds(c, summary)
  {
    var t := [Text("Source text: "), Field(document), Text(Gap + "Summary: "), Field(summary),
              Text(Gap + "Judgement:")];
    assert t[1].Field? && t[3].Field?;
    SingleTurnWith(ZeroshotJudging, t)
  }

  /** create_knowledge_filtered_hallucination_judge */
  function KnowledgeFilteredJudge(document: string, summary: string): (c: Conversation)
    ensures SingleTurn(c) && Embeds(c, document) && Embeds(c, summary)
  {
    var t := [Text("Source text: "), Field(document), Text(Gap + "Summary: "), Field(summary),
              Text(Gap + "Judgement:")];
    assert t[1].Field? && t[3].Field?;
    SingleTurnWith(FilteredJudging, t)
  }

  /** create_sentence_level_hallucination_judge: the sentence is shown in brackets. */
  function SentenceLevelJudge(document: string, summary: string, sentence: string): (c: Conversation)
    ensures SingleTurn(c) && Embeds(c, document) && Embeds(c, summary)
    ensures Embeds(c, sentence)
  {
    var t := [Text("Source text: "), Field(document), Text(Gap + "Summary: "), Field(summary),
              Text(Gap + "Highlighted sentence: ["), Field(sentence), Text("]" + Gap + "Judgement:")];
    assert t[1].Field? && t[3].Field? && t[5].Field?;
    SingleTurnWith(SentenceJudging, t)
  }

  // ---- Prompts as data ----

  /** Which builder a request was made with, and its arguments. */
  datatype Prompt =
    | AskSentences(summary: string)
    | AskEntities(sentence: string)
    | AskKnowledge(document: string, summary: string)
    | AskHallucinationClaim(knowledge: string, statement: string)
    | AskSupportClaim(knowledge: string, statement: string)
    | AskHallucinationCritique(document: string, sentence: string, claim: string)
    | AskSupportCritique(document: string, sentence: string, claim: string)
    | AskHallucinationDefence(document: string, sentence: string, claim: string, critique: string)
    | AskSupportDefence(document: string, sentence: string, claim: string, critique: string)
    | AskDebateVerdict(summary: string, debates: string)
    | AskExtendedVerdict(document: string, summary: string, debates: string)
    | AskStatementHallucinationClaim(document: string, summary: string, statement: string)
    | AskStatementSupportClaim(document: string, summary: string, statement: string)
    | AskChainVerdict(document: string, summary: string, debate: string)
    | AskZeroshotVerdict(document: string, summary: string)
    | AskFilteredVerdict(document: string, summary: string)
    | AskSentenceVerdict(document: string, summary: string, sentence: string)

  /** The conversation a prompt is sent as: instructions first, the live request last. */
  function Messages(p: Prompt): (c: Conversation)
    ensures |c| >= 2 && c[0].role == System && EndsWithUser(c)
  {
    match p
    case AskSentences(s) => SentenceExtractor(s)
    case AskEntities(s) => EntityExtractor(s)
    case AskKnowledge(d, s) => DocumentSentencesExtractor(d, s)
    case AskHallucinationClaim(k, s) => HallucinationAbduction(k, s)
    case AskSupportClaim(k, s) => SupportedAbduction(k, s)
    case AskHallucinationCritique(d, s, e) => HallucinatedCritic(d, s, e)
    case AskSupportCritique(d, s, e) => SupportedCritic(d, s, e)
    case AskHallucinationDefence(d, s, e, c) => DefenceHallucination(d, s, e, c)
    case AskSupportDefence(d, s, e, c) => DefenceSupported(d, s, e, c)
    case AskDebateVerdict(s, ds) => DebateJudge(s, ds)
    case AskExtendedVerdict(d, s, ds) => ExtendedDebateJudge(d, s, ds)
    case AskStatementHallucinationClaim(d, s, st) => StatementHallucinationAbduction(d, s, st)
    case AskStatementSupportClaim(d, s, st) => StatementSupportedAbduction(d, s, st)
    case AskChainVerdict(d, s, db) => ChainDebatesJudge(d, s, db)
    case AskZeroshotVerdict(d, s) => ZeroshotJudge(d, s)
    case AskFilteredVerdict(d, s) => KnowledgeFilteredJudge(d, s)
    case AskSentenceVerdict(d, s, st) => SentenceLevelJudge(d, s, st)
  }

  /** The caller's texts a prompt carries. */
  function Fields(p: Prompt): seq<string> {
    match p
    case AskSentences(s) => [s]
    case AskEntities(s) => [s]
    case AskKnowledge(d, s) => [d, s]
    case AskHallucinationClaim(k, s) => [k, s]
    case AskSupportClaim(k, s) => [k, s]
    case AskHallucinationCritique(d, s, e) => [d, s, e]
    case AskSupportCritique(d, s, e) => [d, s, e]
    case AskHallucinationDefence(d, s, e, c) => [d, s, e, c]
    case AskSupportDefence(d, s, e, c) => [d, s, e, c]
    case AskDebateVerdict(s, ds) => [s, ds]
    case AskExtendedVerdict(d, s, ds) => [d, s, ds]
    case AskStatementHallucinationClaim(d, s, st) => [d, s, st]
    case AskStatementSupportClaim(d, s, st) => [d, s, st]
    case AskChainVerdict(d, s, db) => [d, s, db]
    case AskZeroshotVerdict(d, s) => [d, s]
    case AskFilteredVerdict(d, s) => [d, s]
    case AskSentenceVerdict(d, s, st) => [d, s, st]
  }

  /** No caller text is dropped: every field of a prompt appears verbatim in
      the live request it is sent as. */
  lemma MessagesEmbedFields(p: Prompt)
    ensures forall f :: f in Fields(p) ==> Embeds(Messages(p), f)
  {
  }
}
