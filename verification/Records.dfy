/** Debate records: the texts that stitch advocates' replies together with
    fixed delimiters before they are handed to a judge (helpers.py:419, 427,
    432, 575, 584, 589, 591). They are only ever embedded into later prompts,
    never parsed back. */
module Records {
  import opened Text
  import opened Prompts

  datatype Side = HallucinatedSide | SupportedSide

  function SideMarker(side: Side): string {
    match side
    case HallucinatedSide => "[HALLUCINATED]"
    case SupportedSide => "[SUPPORTED]"
  }

  function Opening(side: Side): string {
    "The debate claiming " + SideMarker(side) + " :\nClaim: "
  }

  function Closing(side: Side): string {
    "End of the debate claiming " + SideMarker(side) + "."
  }

  /** One side of a counterfactual debate: claim, critique and defence between
      the side's fixed opening and closing lines. */
  function DebateRecord(side: Side, claim: string, critique: string, defence: string): string {
    Render(RecordTemplate(side, claim, critique, defence))
  }

  function RecordTemplate(side: Side, claim: string, critique: string, defence: string): seq<Piece> {
    [Text(Opening(side)), Field(claim), Text("\nCritique: "), Field(critique),
     Text("\nDefence: "), Field(defence), Text("\n" + Closing(side))]
  }

  /** A record opens and closes with its side's fixed lines and carries the
      claim, the critique and the defence verbatim, whatever they say. */
  lemma DebateRecordShape(side: Side, claim: string, critique: string, defence: string)
    ensures var r := DebateRecord(side, claim, critique, defence);
            IsPrefix(Opening(side), r) && IsSuffix(Closing(side), r) &&
            IsInfix(claim, r) && IsInfix(critique, r) && IsInfix(defence, r)
  {
    var t := RecordTemplate(side, claim, critique, defence);
    RenderStartsWith(t);
    RenderEndsWith(t);
    FieldsEmbedded(t);
    assert t[1].Field? && t[3].Field? && t[5].Field?;
    SuffixOfSuffix(Closing(side), "\n" + Closing(side), Render(t));
  }

  /** The record the judge of a counterfactual debate reads: both sides, each after a line break. */
  function BothSides(hallucinated: string, supported: string): string {
    "\n" + hallucinated + "\n" + supported
  }

  /** Both records reach the judge verbatim, the supported one last. */
  lemma BothSidesShape(hallucinated: string, supported: string)
    ensures var r := BothSides(hallucinated, supported);
            IsInfix(hallucinated, r) && IsInfix(supported, r) && IsPrefix("\n", r) && IsSuffix(supported, r)
  {
    var r := BothSides(hallucinated, supported);
    InfixOfConcat("\n", hallucinated, "\n" + supported);
    assert r == "\n" + hallucinated + ("\n" + supported);
    InfixOfConcat("\n" + hallucinated + "\n", supported, "");
    assert r == "\n" + hallucinated + "\n" + supported + "";
  }

  /** The debate about one statement in a chain of debates: a single claim per
      side. The hallucinated side opens with "The argument claiming" but closes
      with "End of the debate claiming", as in the source. */
  function ChainDebate(claimHallucinated: string, claimSupported: string): string {
    Render(ChainTemplate(claimHallucinated, claimSupported))
  }

  const ChainOpening: string := "\nThe argument claiming [HALLUCINATED] :\nClaim: "

  function ChainTemplate(claimHallucinated: string, claimSupported: string): seq<Piece> {
    [Text(ChainOpening), Field(claimHallucinated),
     Text("\nEnd of the debate claiming [HALLUCINATED]." + "\n" + Opening(SupportedSide)),
     Field(claimSupported), Text("\n" + Closing(SupportedSide))]
  }

  /** A chain debate carries both claims verbatim, opens with the hallucinated
      side's heading and ends with the supported side's closing line. */
  lemma ChainDebateShape(claimHallucinated: string, claimSupported: string)
    ensures var r := ChainDebate(claimHallucinated, claimSupported);
            IsInfix(claimHallucinated, r) && IsInfix(claimSupported, r) &&
            IsPrefix(ChainOpening, r) && IsSuffix(Closing(SupportedSide), r)
  {
    var t := ChainTemplate(claimHallucinated, claimSupported);
    RenderStartsWith(t);
    RenderEndsWith(t);
    FieldsEmbedded(t);
    assert t[1].Field? && t[3].Field?;
    SuffixOfSuffix(Closing(SupportedSide), "\n" + Closing(SupportedSide), Render(t));
  }

  /** The rule of one hundred "- " on fresh lines that closes each history block. */
  const Rule: string := Repeat("\n- ", 100)

  /** What one statement adds to the debate history. */
  function HistoryBlock(statement: string, debate: string): string {
    "The debate about statement" + statement + "\n" + debate + Rule + "\n"
  }

  /** A history block carries its statement and the debate verbatim, in
      that order, and ends with the rule and a line break. */
  lemma HistoryBlockShape(statement: string, debate: string)
    ensures var r := HistoryBlock(statement, debate);
            IsInfix(statement, r) && IsInfix(debate, r) && IsSuffix(Rule + "\n", r)
  {
    var head := "The debate about statement";
    var r := HistoryBlock(statement, debate);
    InfixOfConcat(head, statement, "\n" + debate + Rule + "\n");
    assert r == head + statement + ("\n" + debate + Rule + "\n");
    InfixOfConcat(head + statement + "\n", debate, Rule + "\n");
    assert r == head + statement + "\n" + debate + (Rule + "\n");
  }
}
