/** Consolidation of the QAGS crowd annotations (read_QAGS.py): one row per
    summary sentence with exactly three worker answers, a per-row agreement
    rule, a filter that keeps only articles whose rows all agree, and a
    per-article class, "correct" when every answer of every row is "yes". */
module Qags {
  import opened Text

  /** A worker's answer; `Missing` is the `None` that pads a short list. */
  datatype Answer = Missing | Given(text: string)

  /** One summary sentence with the workers' raw responses. */
  datatype SentenceData = SentenceData(sentence: string, responses: seq<string>)

  /** One annotated summary of an article. */
  datatype Item = Item(article: string, sentences: seq<SentenceData>)

  /** One row of the table: a summary sentence with three answers. */
  datatype Row = Row(article: string, summary: string, highlighted: string,
                     worker1: Answer, worker2: Answer, worker3: Answer)

  function Workers(row: Row): seq<Answer> {
    [row.worker1, row.worker2, row.worker3]
  }

  // ---- Building the rows (read_QAGS.py:17-34) ----

  /** The first three responses, padded with `Missing` up to three. */
  function Normalised(responses: seq<string>): (w: seq<Answer>)
    ensures |w| == 3
    ensures forall i :: 0 <= i < 3 ==> w[i] == if i < |responses| then Given(responses[i]) else Missing
  {
    var given := seq(|responses|, k requires 0 <= k < |responses| => Given(responses[k]));
    if |given| >= 3 then given[..3] else given + seq(3 - |given|, _ => Missing)
  }

  function Sentences(item: Item): seq<string> {
    seq(|item.sentences|, k requires 0 <= k < |item.sentences| => item.sentences[k].sentence)
  }

  /** The whole summary: all its sentences joined by single spaces. */
  function SummaryOf(item: Item): string {
    Join(Sentences(item), " ")
  }

  function MakeRow(item: Item, data: SentenceData): Row {
    var w := Normalised(data.responses);
    Row(item.article, SummaryOf(item), data.sentence, w[0], w[1], w[2])
  }

  /** The rows of one item, one per summary sentence, in order. */
  function ItemRows(item: Item): seq<Row> {
    seq(|item.sentences|, k requires 0 <= k < |item.sentences| => MakeRow(item, item.sentences[k]))
  }

  /** The rows of `items`, item after item. */
  function Rows(items: seq<Item>): seq<Row>
    decreases |items|
  {
    if items == [] then [] else Rows(items[..|items| - 1]) + ItemRows(items[|items| - 1])
  }

  /** The main loop of read_QAGS.py: for each item, for each summary
      sentence, normalise the responses in place and append a row. */
  method BuildRows(items: seq<Item>) returns (data: seq<Row>)
    ensures data == Rows(items)
  {
    data := [];
    for i := 0 to |items|
      invariant data == Rows(items[..i])
    {
      var item := items[i];
      for j := 0 to |item.sentences|
        invariant data == Rows(items[..i]) + ItemRows(item)[..j]
      {
        var sentenceData := item.sentences[j];
        var responses := seq(|sentenceData.responses|, k requires 0 <= k < |sentenceData.responses| =>
                               Given(sentenceData.responses[k]));
        if |responses| >= 3 {
          responses := responses[..3];
        } else {
          responses := responses + seq(3 - |responses|, _ => Missing);
        }
        var row := Row(item.article, SummaryOf(item), sentenceData.sentence, responses[0], responses[1], responses[2]);
        assert row == ItemRows(item)[j];
        assert ItemRows(item)[..j + 1] == ItemRows(item)[..j] + [row];
        data := data + [row];
      }
      assert ItemRows(item)[..|item.sentences|] == ItemRows(item);
      assert items[..i + 1][..i] == items[..i];
    }
    assert items[..|items|] == items;
  }

  function SentenceCount(items: seq<Item>): nat
    decreases |items|
  {
    if items == [] then 0 else SentenceCount(items[..|items| - 1]) + |items[|items| - 1].sentences|
  }

  /** Every row belongs to an item: it carries that item's article, the
      item's whole summary, one of its sentences and that sentence's
      normalised answers; and there are exactly as many rows as sentences. */
  lemma {:induction false} RowsComeFromItems(items: seq<Item>)
    ensures |Rows(items)| == SentenceCount(items)
    ensures forall r :: r in Rows(items) ==>
              exists n, k :: 0 <= n < |items| && 0 <= k < |items[n].sentences| &&
                             r == MakeRow(items[n], items[n].sentences[k])
    decreases |items|
  {
    if items != [] {
      var last := |items| - 1;
      var front := items[..last];
      RowsComeFromItems(front);
      forall r | r in Rows(items)
        ensures exists n, k :: 0 <= n < |items| && 0 <= k < |items[n].sentences| &&
                               r == MakeRow(items[n], items[n].sentences[k])
      {
        if r in Rows(front) {
          var n, k :| 0 <= n < |front| && 0 <= k < |front[n].sentences| &&
                      r == MakeRow(front[n], front[n].sentences[k]);
          assert front[n] == items[n];
        } else {
          var k :| 0 <= k < |ItemRows(items[last])| && ItemRows(items[last])[k] == r;
          assert r == MakeRow(items[last], items[last].sentences[k]);
        }
      }
    }
  }

  /** The whole summary carries each of its sentences verbatim. */
  lemma SentencesInSummary(item: Item)
    ensures forall k :: 0 <= k < |item.sentences| ==> IsInfix(item.sentences[k].sentence, SummaryOf(item))
  {
    forall k | 0 <= k < |item.sentences| ensures IsInfix(item.sentences[k].sentence, SummaryOf(item)) {
      JoinHoldsPiece(Sentences(item), " ", k);
    }
  }

  /** The highlighted sentence of every row appears verbatim in the row's summary. */
  lemma HighlightedInSummary(items: seq<Item>)
    ensures forall r :: r in Rows(items) ==> IsInfix(r.highlighted, r.summary)
  {
    RowsComeFromItems(items);
    forall r | r in Rows(items) ensures IsInfix(r.highlighted, r.summary) {
      var n, k :| 0 <= n < |items| && 0 <= k < |items[n].sentences| &&
                  r == MakeRow(items[n], items[n].sentences[k]);
      SentencesInSummary(items[n]);
    }
  }

  /** Every row keeps the first three responses of its sentence, padded. */
  lemma RowAnswers(item: Item, data: SentenceData)
    ensures var w := Workers(MakeRow(item, data));
            forall i :: 0 <= i < 3 ==> w[i] == if i < |data.responses| then Given(data.responses[i]) else Missing
  {
    var w := Normalised(data.responses);
    assert Workers(MakeRow(item, data)) == w;
  }

  // ---- The agreement rule, all_same (read_QAGS.py:40-52) ----

  /** How many answers are exactly `word`. */
  function CountOf(answers: seq<Answer>, word: string): (n: nat)
    ensures n <= |answers|
    decreases |answers|
  {
    if answers == [] then 0
    else CountOf(answers[..|answers| - 1], word) + (if answers[|answers| - 1] == Given(word) then 1 else 0)
  }

  /** The row agrees: three "yes", or at least two "no". */
  predicate Agrees(answers: seq<Answer>) {
    CountOf(answers, "yes") == 3 || CountOf(answers, "no") >= 2
  }

  method AllSame(answers: seq<Answer>) returns (agrees: bool)
    ensures agrees == Agrees(answers)
  {
    var countYes, countNo := 0, 0;
    for i := 0 to |answers|
      invariant countYes == CountOf(answers[..i], "yes") && countNo == CountOf(answers[..i], "no")
    {
      assert answers[..i + 1][..i] == answers[..i];
      if answers[i] == Given("yes") {
        countYes := countYes + 1;
      } else if answers[i] == Given("no") {
        countNo := countNo + 1;
      }
    }
    assert answers[..|answers|] == answers;
    agrees := countYes == 3 || countNo >= 2;
  }

  /** An answer is counted as "yes" or as "no", never both. */
  lemma {:induction false} CountsShareTheAnswers(answers: seq<Answer>)
    ensures CountOf(answers, "yes") + CountOf(answers, "no") <= |answers|
    decreases |answers|
  {
    if answers != [] {
      CountsShareTheAnswers(answers[..|answers| - 1]);
    }
  }

  /** All answers are `word` exactly when all of them are counted. */
  lemma {:induction false} CountAll(answers: seq<Answer>, word: string)
    ensures CountOf(answers, word) == |answers| <==> forall i :: 0 <= i < |answers| ==> answers[i] == Given(word)
    decreases |answers|
  {
    if answers != [] {
      var front := answers[..|answers| - 1];
      CountAll(front, word);
      assert forall i :: 0 <= i < |front| ==> front[i] == answers[i];
    }
  }

  /** With three answers the two ways of agreeing exclude each other, and
      three "yes" means every answer is "yes". */
  lemma AgreementWithThreeAnswers(answers: seq<Answer>)
    requires |answers| == 3
    ensures !(CountOf(answers, "yes") == 3 && CountOf(answers, "no") >= 2)
    ensures CountOf(answers, "yes") == 3 <==> forall i :: 0 <= i < 3 ==> answers[i] == Given("yes")
  {
    CountsShareTheAnswers(answers);
    CountAll(answers, "yes");
  }

  /** Padding counts toward neither side, so a sentence with at most one
      response never agrees. */
  lemma UnansweredNeverAgrees(item: Item, data: SentenceData)
    requires |data.responses| <= 1
    ensures !Agrees(Workers(MakeRow(item, data)))
  {
    var w := Workers(MakeRow(item, data));
    RowAnswers(item, data);
    assert w[1] == Missing && w[2] == Missing;
    assert CountOf(w[..2], "no") <= 1 && CountOf(w[..2], "yes") <= 2;
  }

  predicate Consistent(row: Row) {
    Agrees(Workers(row))
  }

  // ---- Keeping consistent articles (read_QAGS.py:56-57) ----

  /** The rows of article `a`, in table order. */
  function GroupOf(rows: seq<Row>, a: string): (g: seq<Row>)
    ensures forall r :: r in g <==> r in rows && r.article == a
    decreases |rows|
  {
    if rows == [] then []
    else (if rows[0].article == a then [rows[0]] else []) + GroupOf(rows[1..], a)
  }

  /** Every row of article `a` in `rows` agrees. */
  predicate ArticleConsistent(rows: seq<Row>, a: string) {
    forall k :: 0 <= k < |rows| && rows[k].article == a ==> Consistent(rows[k])
  }

  /** The rows of `rows` whose article is consistent in the whole table `table`. */
  function KeepWhere(rows: seq<Row>, table: seq<Row>): (kept: seq<Row>)
    ensures forall r :: r in kept <==> r in rows && ArticleConsistent(table, r.article)
    decreases |rows|
  {
    if rows == [] then []
    else (if ArticleConsistent(table, rows[0].article) then [rows[0]] else []) + KeepWhere(rows[1..], table)
  }

  /** articles_with_consistent_responses: keeps an article's rows iff every
      row of that article agrees; the table order is kept. */
  function KeepConsistentArticles(rows: seq<Row>): (kept: seq<Row>)
    ensures forall r :: r in kept <==> r in rows && ArticleConsistent(rows, r.article)
  {
    KeepWhere(rows, rows)
  }

  /** The filter works on whole articles: it keeps all the rows of a
      consistent article, in order, and none of any other. */
  lemma {:induction false} KeepsWholeArticles(rows: seq<Row>, table: seq<Row>, a: string)
    ensures GroupOf(KeepWhere(rows, table), a) == if ArticleConsistent(table, a) then GroupOf(rows, a) else []
    decreases |rows|
  {
    if rows != [] {
      KeepsWholeArticles(rows[1..], table, a);
      var head := if ArticleConsistent(table, rows[0].article) then [rows[0]] else [];
      GroupSplits(head, KeepWhere(rows[1..], table), a);
      GroupSplits([rows[0]], rows[1..], a);
    }
  }

  lemma {:induction false} GroupSplits(front: seq<Row>, back: seq<Row>, a: string)
    ensures GroupOf(front + back, a) == GroupOf(front, a) + GroupOf(back, a)
    decreases |front|
  {
    if front != [] {
      assert (front + back)[1..] == front[1..] + back;
      GroupSplits(front[1..], back, a);
    } else {
      assert front + back == back;
    }
  }

  // ---- Classifying articles (read_QAGS.py:63-81) ----

  datatype Class = Correct | Hallucinated

  predicate AllYes(row: Row) {
    row.worker1 == Given("yes") && row.worker2 == Given("yes") && row.worker3 == Given("yes")
  }

  /** determine_class: "correct" iff every answer of every row is "yes". */
  function DetermineClass(group: seq<Row>): Class {
    if forall k :: 0 <= k < |group| ==> AllYes(group[k]) then Correct else Hallucinated
  }

  /** An article's class and its summary (that of its first row). */
  datatype Classified = Classified(classification: Class, summary: string)

  function Articles(rows: seq<Row>): set<string> {
    set r | r in rows :: r.article
  }

  /** groupby('article').apply(classify_article): one entry per article. */
  function Classify(rows: seq<Row>): (classes: map<string, Classified>)
    ensures classes.Keys == Articles(rows)
    ensures forall a :: a in classes ==>
              classes[a].classification == DetermineClass(GroupOf(rows, a)) && GroupOf(rows, a) != [] &&
              classes[a].summary == GroupOf(rows, a)[0].summary
  {
    map a | a in Articles(rows) :: var g := GroupOf(rows, a); Classified(DetermineClass(g), g[0].summary)
  }

  /** The two output tables: the correct articles and the hallucinated ones. */
  function CorrectArticles(classes: map<string, Classified>): (m: map<string, Classified>)
    ensures forall a :: a in m <==> a in classes && classes[a].classification == Correct
    ensures forall a :: a in m ==> m[a] == classes[a]
  {
    map a | a in classes && classes[a].classification == Correct :: classes[a]
  }

  function HallucinatedArticles(classes: map<string, Classified>): (m: map<string, Classified>)
    ensures forall a :: a in m <==> a in classes && classes[a].classification == Hallucinated
    ensures forall a :: a in m ==> m[a] == classes[a]
  {
    map a | a in classes && classes[a].classification == Hallucinated :: classes[a]
  }

  /** The two tables partition the classified articles. */
  lemma OutputsPartition(classes: map<string, Classified>)
    ensures CorrectArticles(classes).Keys !! HallucinatedArticles(classes).Keys
    ensures CorrectArticles(classes).Keys + HallucinatedArticles(classes).Keys == classes.Keys
  {
    forall a | a in classes ensures a in CorrectArticles(classes) || a in HallucinatedArticles(classes) {
      if classes[a].classification == Correct {
        assert a in CorrectArticles(classes);
      } else {
        assert a in HallucinatedArticles(classes);
      }
    }
  }

  /** A group of agreeing rows that is not correct holds a row with at least two "no". */
  lemma HallucinatedGroupHasDissent(group: seq<Row>)
    requires forall k :: 0 <= k < |group| ==> Consistent(group[k])
    requires DetermineClass(group) == Hallucinated
    ensures exists k :: 0 <= k < |group| && CountOf(Workers(group[k]), "no") >= 2
  {
    var k :| 0 <= k < |group| && !AllYes(group[k]);
    var w := Workers(group[k]);
    AgreementWithThreeAnswers(w);
    assert w[0] == group[k].worker1 && w[1] == group[k].worker2 && w[2] == group[k].worker3;
    assert Agrees(w);
  }

  /** A classified article is consistent, its class is that of all its rows,
      and its summary is that of its first row in the table. */
  lemma ClassOfArticle(rows: seq<Row>, a: string)
    requires a in Classify(KeepConsistentArticles(rows))
    ensures ArticleConsistent(rows, a)
    ensures Classify(KeepConsistentArticles(rows))[a].classification == DetermineClass(GroupOf(rows, a))
    ensures GroupOf(rows, a) != [] && Classify(KeepConsistentArticles(rows))[a].summary == GroupOf(rows, a)[0].summary
  {
    var kept := KeepConsistentArticles(rows);
    assert a in Articles(kept);
    var r :| r in kept && r.article == a;
    KeepsWholeArticles(rows, rows, a);
  }

  /** An article is classified exactly when all its rows agree, and then
      from all of its rows. */
  lemma ClassifiedArticles(rows: seq<Row>)
    ensures var classes := Classify(KeepConsistentArticles(rows));
            forall a :: a in classes <==> a in Articles(rows) && ArticleConsistent(rows, a)
    ensures var classes := Classify(KeepConsistentArticles(rows));
            forall a :: a in classes ==> classes[a].classification == DetermineClass(GroupOf(rows, a))
  {
    var kept := KeepConsistentArticles(rows);
    var classes := Classify(kept);
    forall a | a in Articles(rows) && ArticleConsistent(rows, a) ensures a in classes {
      var r :| r in rows && r.article == a;
      assert r in kept;
    }
    forall a | a in classes
      ensures ArticleConsistent(rows, a) && classes[a].classification == DetermineClass(GroupOf(rows, a))
    {
      ClassOfArticle(rows, a);
    }
  }

  /** A hallucinated article, after the filter, has a row where at least two
      workers answered "no". */
  lemma HallucinatedArticleHasDissent(rows: seq<Row>, a: string)
    requires var classes := Classify(KeepConsistentArticles(rows));
             a in classes && classes[a].classification == Hallucinated
    ensures exists k :: 0 <= k < |rows| && rows[k].article == a && CountOf(Workers(rows[k]), "no") >= 2
  {
    ClassOfArticle(rows, a);
    var g := GroupOf(rows, a);
    forall k | 0 <= k < |g| ensures Consistent(g[k]) {
      assert g[k] in rows;
      var j :| 0 <= j < |rows| && rows[j] == g[k];
    }
    HallucinatedGroupHasDissent(g);
    var k :| 0 <= k < |g| && CountOf(Workers(g[k]), "no") >= 2;
    assert g[k] in rows;
    var j :| 0 <= j < |rows| && rows[j] == g[k];
  }
}
