/** Verdict extraction: a judge's free-text reply becomes 0 (supported) or
    1 (hallucinated) by a case-sensitive substring test for a marker. Three
    markers are in use: "[HALLUCINATED]" (helpers.py:437, 447, 596, 642), the
    unbracketed "HALLUCINATED" (helpers.py:757) and "[TRUE]" (helpers.py:696). */
module Verdicts {
  import opened Text

  /** A binary verdict: 0 = supported, 1 = hallucinated. */
  type Bit = b: int | 0 <= b <= 1

  const HallucinatedMarker: string := "[HALLUCINATED]"
  const BareHallucinated: string := "HALLUCINATED"
  const TrueMarker: string := "[TRUE]"

  /** `1 if marker in reply else 0`: total, and 1 exactly when the marker occurs. */
  function Detect(reply: string, marker: string): (v: Bit)
    ensures v == 1 <==> IsInfix(marker, reply)
    ensures v == 0 <==> !IsInfix(marker, reply)
  {
    if Contains(reply, marker) then 1 else 0
  }

  /** The bracketed marker decides, whatever surrounds it. */
  lemma MarkerPrecedence(before: string, after: string)
    ensures Detect(before + HallucinatedMarker + after, HallucinatedMarker) == 1
  {
    InfixOfConcat(before, HallucinatedMarker, after);
  }

  /** Whenever the bracketed test fires, the bare test used by sentence_level fires too. */
  lemma BareTestIsWeaker(reply: string)
    ensures Detect(reply, HallucinatedMarker) == 1 ==> Detect(reply, BareHallucinated) == 1
  {
    if Detect(reply, HallucinatedMarker) == 1 {
      assert HallucinatedMarker == "[" + BareHallucinated + "]";
      InfixOfConcat("[", BareHallucinated, "]");
      InfixTransitive(BareHallucinated, HallucinatedMarker, reply);
    }
  }

  /** A reply with no capital H cannot contain either hallucination marker. */
  lemma NoMarkerWithoutH(reply: string)
    requires 'H' !in reply
    ensures Detect(reply, HallucinatedMarker) == 0 && Detect(reply, BareHallucinated) == 0
  {
    forall k | 0 <= k <= |reply| - |BareHallucinated| ensures !OccursAt(BareHallucinated, reply, k) {
      assert reply[k..k + |BareHallucinated|][0] == reply[k];
    }
    forall k | 0 <= k <= |reply| - |HallucinatedMarker| ensures !OccursAt(HallucinatedMarker, reply, k) {
      assert reply[k..k + |HallucinatedMarker|][1] == reply[k + 1];
    }
  }

  /** A reply that negates the word still counts as hallucinated under the bare
      test, while the bracketed test reads it as supported. */
  lemma LenientBareTest()
    ensures Detect("[SUPPORTED] - not HALLUCINATED", BareHallucinated) == 1
    ensures Detect("[SUPPORTED] - not HALLUCINATED", HallucinatedMarker) == 0
  {
    var reply := "[SUPPORTED] - not HALLUCINATED";
    assert reply == "[SUPPORTED] - not " + BareHallucinated + "";
    InfixOfConcat("[SUPPORTED] - not ", BareHallucinated, "");
    forall k | 0 <= k <= |reply| - |HallucinatedMarker| ensures !OccursAt(HallucinatedMarker, reply, k) {
      assert reply[k..k + |HallucinatedMarker|][0] == reply[k];
      assert reply[k..k + |HallucinatedMarker|][1] == reply[k + 1];
    }
  }
}
