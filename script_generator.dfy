/**
 * `ScriptGenerator.validate` (lib/brain/ScriptGenerator.ts): the section texts
 * of a script, lower-cased and joined with single spaces, are searched for four
 * filler phrases; each phrase found gives one error, in the order of the list.
 */
module ScriptGenerator {
  import opened Text
  import opened Collections
  import opened Types

  /** The `forbidden` list. */
  const Forbidden: seq<string> := ["in this video", "hope you like", "today i will", "welcome back"]

  /** `Detected filler: "<phrase>"`. */
  function FillerError(phrase: string): string {
    "Detected filler: \"" + phrase + "\""
  }

  function LowerText(s: ScriptSection): string {
    Lower(s.text)
  }

  /** `script.sections.map(s => s.text.toLowerCase()).join(" ")`. */
  function FullText(script: GeneratedScript): string {
    Join(Map(LowerText, script.sections), " ")
  }

  /** The forbidden phrases that occur in the text, in list order. */
  function Detected(fullText: string): (r: seq<string>)
    ensures forall p :: p in r <==> p in Forbidden && Contains(fullText, p)
  {
    Filter((p: string) => Contains(fullText, p), Forbidden)
  }

  /** `validate`: the loop over the forbidden phrases pushes one error for each phrase found. */
  method Validate(script: GeneratedScript) returns (errors: seq<string>)
    ensures errors == Map(FillerError, Detected(FullText(script)))
  {
    errors := [];
    var fullText := Join(Map(LowerText, script.sections), " ");
    ghost var found := (p: string) => Contains(fullText, p);
    var i := 0;
    while i < |Forbidden|
      invariant 0 <= i <= |Forbidden|
      invariant errors == Map(FillerError, Filter(found, Forbidden[..i]))
    {
      var word := Forbidden[i];
      FilterSnoc(found, Forbidden[..i], word);
      MapAppend(FillerError, Filter(found, Forbidden[..i]), [word]);
      PrefixSnoc(Forbidden, i);
      if Contains(fullText, word) {
        errors := errors + [FillerError(word)];
      }
      i := i + 1;
    }
    assert Forbidden[..i] == Forbidden;
  }

  // ---------------------------------------------------------------------------
  // Properties

  function Errors(script: GeneratedScript): seq<string> {
    Map(FillerError, Detected(FullText(script)))
  }

  /** The four phrases are distinct: they start with different letters. */
  lemma ForbiddenDistinct()
    ensures NoDuplicates(Forbidden)
  {
    assert Forbidden[0][0] == 'i' && Forbidden[1][0] == 'h' && Forbidden[2][0] == 't' && Forbidden[3][0] == 'w';
  }

  lemma FillerErrorInjective(p: string, q: string)
    requires FillerError(p) == FillerError(q)
    ensures p == q
  {
    var prefix := "Detected filler: \"";
    assert FillerError(p)[|prefix|..|FillerError(p)| - 1] == p;
    assert FillerError(q)[|prefix|..|FillerError(q)| - 1] == q;
  }

  /** There are at most four errors, and no two are the same. */
  lemma AtMostOneErrorPerPhrase(script: GeneratedScript)
    ensures |Errors(script)| <= |Forbidden| == 4
    ensures NoDuplicates(Errors(script))
  {
    var d := Detected(FullText(script));
    ForbiddenDistinct();
    FilterNoDuplicates((p: string) => Contains(FullText(script), p), Forbidden);
    forall i, j | 0 <= i < j < |d| ensures FillerError(d[i]) != FillerError(d[j]) {
      if FillerError(d[i]) == FillerError(d[j]) {
        FillerErrorInjective(d[i], d[j]);
      }
    }
  }

  /** Errors follow the order of the list: of two phrases found, the earlier in the list is reported first. */
  lemma ErrorsInListOrder(script: GeneratedScript, a: nat, b: nat) returns (i: nat, j: nat)
    requires a < b < |Forbidden|
    requires Contains(FullText(script), Forbidden[a]) && Contains(FullText(script), Forbidden[b])
    ensures i < j < |Errors(script)|
    ensures Errors(script)[i] == FillerError(Forbidden[a]) && Errors(script)[j] == FillerError(Forbidden[b])
  {
    i, j := FilterOrder((p: string) => Contains(FullText(script), p), Forbidden, a, b);
  }

  /** A phrase is reported iff it occurs in the joined text. */
  lemma ReportedIffPresent(script: GeneratedScript, k: nat)
    requires k < |Forbidden|
    ensures FillerError(Forbidden[k]) in Errors(script) <==> Contains(FullText(script), Forbidden[k])
  {
    var d := Detected(FullText(script));
    if FillerError(Forbidden[k]) in Errors(script) {
      var i :| 0 <= i < |d| && FillerError(d[i]) == FillerError(Forbidden[k]);
      FillerErrorInjective(d[i], Forbidden[k]);
    }
    if Contains(FullText(script), Forbidden[k]) {
      assert Forbidden[k] in d;
      var i :| 0 <= i < |d| && d[i] == Forbidden[k];
      assert Errors(script)[i] == FillerError(Forbidden[k]);
    }
  }

  /** Matching ignores case: a section whose lower-cased text contains a phrase is reported. */
  lemma SectionPhraseReported(script: GeneratedScript, s: nat, k: nat)
    requires s < |script.sections| && k < |Forbidden|
    requires Contains(Lower(script.sections[s].text), Forbidden[k])
    ensures FillerError(Forbidden[k]) in Errors(script)
  {
    var parts := Map(LowerText, script.sections);
    var before, after := JoinAround(parts, " ", s);
    ContainsWithin(before, parts[s], after, Forbidden[k]);
    ReportedIffPresent(script, k);
  }

  /** "Welcome Back" in any section is reported as "welcome back". */
  lemma WelcomeBackReported(script: GeneratedScript, s: nat)
    requires s < |script.sections| && script.sections[s].text == "Welcome Back"
    ensures FillerError("welcome back") in Errors(script)
  {
    assert Lower("Welcome Back") == "welcome back";
    assert OccursAt(Lower(script.sections[s].text), Forbidden[3], 0);
    ContainsAt(Lower(script.sections[s].text), Forbidden[3], 0);
    SectionPhraseReported(script, s, 3);
  }

  /** A phrase split over two adjacent sections is reported, because the join puts a space between them. */
  lemma SplitPhraseReported(script: GeneratedScript, s: nat, k: nat)
    requires s + 1 < |script.sections| && k < |Forbidden|
    requires Contains(Lower(script.sections[s].text) + " " + Lower(script.sections[s + 1].text), Forbidden[k])
    ensures FillerError(Forbidden[k]) in Errors(script)
  {
    var parts := Map(LowerText, script.sections);
    var before, after := JoinAroundPair(parts, " ", s);
    ContainsWithin(before, parts[s] + " " + parts[s + 1], after, Forbidden[k]);
    ReportedIffPresent(script, k);
  }

  /** A script with no sections has no errors. */
  lemma NoSectionsNoErrors(script: GeneratedScript)
    requires script.sections == []
    ensures Errors(script) == []
  {
    assert FullText(script) == "";
    forall k | 0 <= k < |Forbidden| ensures !Contains("", Forbidden[k]) {
      EmptyContainsNothing(Forbidden[k]);
    }
    FilterAllOrNone((p: string) => Contains("", p), Forbidden);
  }
}
