/** `clean_response`: citation markers deleted, then surrounding whitespace
    stripped. */
module Sanitizer {
  import opened Citations
  import opened PyStrip

  function CleanResponse(text: string): (r: string)
    ensures CitationFree(r)
    ensures Trimmed(r)
    ensures IsSubsequence(r, text)
    ensures |text| == 0 ==> r == []
    ensures '[' !in text ==> r == Strip(text)
  {
    StripAfterRemoval(text);
    Strip(RemoveCitations(text))
  }

  lemma {:induction false} StripAfterRemoval(text: string)
    ensures CitationFree(Strip(RemoveCitations(text)))
    ensures IsSubsequence(Strip(RemoveCitations(text)), text)
    ensures '[' !in text ==> RemoveCitations(text) == text
  {
    StripKeepsFree(RemoveCitations(text));
    RemoveCitationsFree(text);
    StripKeepsSubsequence(RemoveCitations(text), text);
    RemoveCitationsSubsequence(text);
    if '[' !in text {
      assert CitationFree(text);
      RemoveCitationsKeepsFree(text);
    }
  }

  lemma {:induction false} StripKeepsFree(t: string)
    ensures CitationFree(t) ==> CitationFree(Strip(t))
  {
    var r := Strip(t);
    var a := LeadingSpace(t);
    if CitationFree(t) {
      CitationFreeSlice(t, a, a + |r|);
    }
  }

  lemma {:induction false} StripKeepsSubsequence(t: string, text: string)
    ensures IsSubsequence(t, text) ==> IsSubsequence(Strip(t), text)
  {
    var r := Strip(t);
    var a := LeadingSpace(t);
    if IsSubsequence(t, text) {
      SubsequenceSlice(t, text, a, a + |r|);
    }
  }

  /** Cleaning an already cleaned answer changes nothing. */
  lemma {:induction false} CleanResponseIdempotent(text: string)
    ensures CleanResponse(CleanResponse(text)) == CleanResponse(text)
  {
    var r := CleanResponse(text);
    RemoveCitationsKeepsFree(r);
    StripFixpoint(r);
  }

  /** Cleaning is the identity exactly on answers that have no marker and no
      surrounding whitespace. */
  lemma {:induction false} CleanResponseFixpoint(text: string)
    ensures CleanResponse(text) == text <==> CitationFree(text) && Trimmed(text)
  {
    if CitationFree(text) && Trimmed(text) {
      RemoveCitationsKeepsFree(text);
      StripFixpoint(text);
    }
  }

  /** The scenario of a stubbed answer `Revenue was €1.2B [doc3].`: the
      space before the marker survives, because only the ends are stripped. */
  lemma CleanResponseKeepsInnerSpace()
    ensures CleanResponse("Revenue was \U{20AC}1.2B [doc3].") == "Revenue was \U{20AC}1.2B ."
  {
    var r := "Revenue was \U{20AC}1.2B .";
    ScenarioRemoval();
    assert Trimmed(r) by {
      assert r[0] == 'R' && r[|r| - 1] == '.';
    }
    StripFixpoint(r);
  }

  lemma ScenarioRemoval()
    ensures RemoveCitations("Revenue was \U{20AC}1.2B [doc3].") == "Revenue was \U{20AC}1.2B ."
  {
    var s := "Revenue was \U{20AC}1.2B [doc3].";
    var kept := "Revenue was \U{20AC}1.2B ";
    ScenarioFirstMatch();
    RemoveCitationsLeftmostShortest(s, 18, 23);
    assert s[..18] == kept;
    assert s[24..] == ".";
    assert RemoveCitations(".") == ".";
  }

  lemma ScenarioFirstMatch()
    ensures FirstMatch("Revenue was \U{20AC}1.2B [doc3].", 18, 23)
  {
    var s := "Revenue was \U{20AC}1.2B [doc3].";
    var kept := "Revenue was \U{20AC}1.2B ";
    assert s == kept + "[doc3].";
    assert forall j :: 0 <= j < 18 ==> s[j] == kept[j];
    assert '[' !in kept;
    assert forall m :: 18 < m < 23 ==> s[m] != ']' && s[m] != '\n';
  }
}
