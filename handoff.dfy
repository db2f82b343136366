/** What one page hands to another through storage: a Condition the builder
    saved to the Bundle draft, read back on the Bundle Draft page (its
    summary, and the codes it sends back to the builder). */
module Handoff {
  import opened Wrappers
  import opened Text
  import opened Json
  import opened Prefill
  import opened Coding
  import opened FhirBuilder
  import opened BundleDraft

  /** Saving stamps an id but keeps the codings. */
  lemma SavedCodings(f: Form, id: string)
    ensures CodingsOf(WithId(ConditionJson(f), id)) == Codings(f)
  {
    assert Get(WithId(ConditionJson(f), id), "code") == Get(ConditionJson(f), "code");
  }

  // How each of the builder's codings reads under the intended tests.

  lemma PickNamaste(code: string)
    ensures PickKind(CodingJson(NamasteSystem, code, NamasteDisplay)) == NamasteKind
  {
    SystemTextOf(NamasteSystem, code, NamasteDisplay);
    NamasteSystemWords();
  }

  lemma PickTm2(code: string)
    ensures PickKind(CodingJson(Tm2System, code, Tm2Display)) == Tm2Kind
  {
    SystemTextOf(Tm2System, code, Tm2Display);
    Tm2SystemWords();
  }

  lemma PickBiomed(code: string)
    ensures PickKind(CodingJson(BiomedSystem, code, BiomedDisplay)) == BiomedKind
  {
    SystemTextOf(BiomedSystem, code, BiomedDisplay);
    BiomedNoNamaste();
    BiomedNoTm2();
    BiomedHasBiomed();
  }

  // How each of the builder's codings reads under the independent tests
  // of the loop as written.

  lemma StepAsWrittenNamaste(acc: Codes, code: string)
    ensures StepAsWritten(acc, CodingJson(NamasteSystem, code, NamasteDisplay)) ==
      if acc.namaste == "" then acc.(namaste := code) else acc
  {
    SystemTextOf(NamasteSystem, code, NamasteDisplay);
    NamasteSystemWords();
  }

  lemma StepAsWrittenTm2(acc: Codes, code: string)
    ensures StepAsWritten(acc, CodingJson(Tm2System, code, Tm2Display)) ==
      acc.(tm2 := if acc.tm2 == "" then code else acc.tm2,
           biomed := if acc.biomed == "" then code else acc.biomed)
  {
    SystemTextOf(Tm2System, code, Tm2Display);
    Tm2SystemWords();
  }

  lemma StepAsWrittenBiomed(acc: Codes, code: string)
    ensures StepAsWritten(acc, CodingJson(BiomedSystem, code, BiomedDisplay)) ==
      if acc.biomed == "" then acc.(biomed := code) else acc
  {
    SystemTextOf(BiomedSystem, code, BiomedDisplay);
    BiomedNoNamaste();
    BiomedNoTm2();
    BiomedHasBiomed();
  }

  /** A Condition saved by the builder and sent back from the Bundle Draft
      page restores the builder's three codes, and they survive the trip
      through the mailbox. */
  lemma {:induction false} PickRoundTrip(f: Form, id: string)
    ensures PickCodes(WithId(ConditionJson(f), id)) == Codes(f.namaste, f.tm2, f.biomed)
    ensures FromJson(Prefill.ToJson(PickCodes(WithId(ConditionJson(f), id)))) == Codes(f.namaste, f.tm2, f.biomed)
  {
    SavedCodings(f, id);
    PickNamaste(f.namaste);
    PickTm2(f.tm2);
    PickBiomed(f.biomed);
    FoldBuilderCodings(f, PickKind);
    FromToJson(Codes(f.namaste, f.tm2, f.biomed));
  }

  /** The loop as written reads the TM2 coding of a builder-made Condition
      (system "urn:example:icd11-tm2") as biomedicine too: whenever the
      TM2 code is set, the biomedicine field receives it, and the real
      biomedicine code is lost. */
  lemma {:induction false} PickAsWrittenMisreadsTm2(f: Form)
    requires f.tm2 != ""
    ensures PickAsWritten(Codings(f)) == Codes(f.namaste, f.tm2, f.tm2)
  {
    var n := CodingJson(NamasteSystem, f.namaste, NamasteDisplay);
    var t := CodingJson(Tm2System, f.tm2, Tm2Display);
    var b := CodingJson(BiomedSystem, f.biomed, BiomedDisplay);
    var c1 := PushIf([], f.namaste != "", n);
    var c2 := c1 + [t];
    if f.namaste != "" {
      PickAsWrittenSnoc([], n);
      StepAsWrittenNamaste(NoCodes, f.namaste);
    }
    assert PickAsWritten(c1) == Codes(f.namaste, "", "");
    PickAsWrittenSnoc(c1, t);
    StepAsWrittenTm2(PickAsWritten(c1), f.tm2);
    assert PickAsWritten(c2) == Codes(f.namaste, f.tm2, f.tm2);
    if f.biomed != "" {
      PickAsWrittenSnoc(c2, b);
      StepAsWrittenBiomed(PickAsWritten(c2), f.biomed);
    }
  }

  /** A concrete form on which the loop as written hands the builder a
      wrong biomedicine code, while the intended reading does not. */
  lemma PickAsWrittenCounterexample()
    ensures var f := Form("Patient/1", "active", "confirmed", "N1", "TM-1", "BIO-1");
      PickAsWritten(Codings(f)).biomed == "TM-1" &&
      PickCodes(WithId(ConditionJson(f), "cond-1")).biomed == "BIO-1"
  {
    var f := Form("Patient/1", "active", "confirmed", "N1", "TM-1", "BIO-1");
    PickAsWrittenMisreadsTm2(f);
    PickRoundTrip(f, "cond-1");
  }

  /** The Bundle Draft row of a saved Condition names its subject and
      counts its codings. */
  lemma SummarizeSaved(f: Form, id: string)
    ensures Summarize(WithId(ConditionJson(f), id)) ==
      "Condition · " + SubjectRef(f) + " · " + NatToString(|Codings(f)|) + " coding(s)"
  {
    var res := WithId(ConditionJson(f), id);
    SavedCodings(f, id);
    assert Get(res, "resourceType") == Some(Str("Condition"));
    assert Get(res, "subject") == Get(ConditionJson(f), "subject");
    assert OrDash(GetOpt(Get(res, "subject"), "reference")) == SubjectRef(f);
    if Codings(f) != [] {
      assert GetOpt(Get(res, "code"), "coding") == Some(Arr(Codings(f)));
    } else {
      assert Get(res, "code").None?;
    }
  }
}
