/** The FHIR builder page: a form of six fields from which it derives an
    HL7 FHIR R4 Condition resource and its inline validations, the one-shot
    prefill mailbox other pages leave in storage, reading a Condition (or the
    first Condition of a Bundle) back into the form, saving the Condition to
    the Bundle draft and exporting it as a "collection" Bundle. */
module FhirBuilder {
  import opened Wrappers
  import opened Seqs
  import opened Text
  import opened Json
  import opened Storage
  import opened Prefill
  import opened Coding
  import BundleDraft

  /** The form state. */
  datatype Form = Form(patientRef: string, clinical: string, verification: string,
                       namaste: string, tm2: string, biomed: string)

  /** The form as the page opens: `Patient/123`, the first clinical status
      ("active") and the first verification status ("confirmed"). */
  const InitialForm: Form := Form("Patient/123", "active", "confirmed", "", "", "")

  const NamasteSystem: string := "urn:example:namaste"
  const Tm2System: string := "urn:example:icd11-tm2"
  const BiomedSystem: string := "urn:example:icd11-biomed"
  const ClinicalSystem: string := "http://terminology.hl7.org/CodeSystem/condition-clinical"
  const VerificationSystem: string := "http://terminology.hl7.org/CodeSystem/condition-ver-status"
  const NamasteDisplay: string := "NAMASTE code"
  const Tm2Display: string := "ICD-11 TM2"
  const BiomedDisplay: string := "ICD-11 Biomed"

  function CodingJson(system: string, code: string, display: string): Json {
    Obj(map["system" := Str(system), "code" := Str(code), "display" := Str(display)])
  }

  /** Append `x` when `c` holds. */
  function PushIf(acc: seq<Json>, c: bool, x: Json): seq<Json> {
    if c then acc + [x] else acc
  }

  /** The codings of the Condition: NAMASTE, then TM2, then biomedicine,
      each only when its field is not empty. */
  function Codings(f: Form): (r: seq<Json>)
    ensures |r| == (if f.namaste != "" then 1 else 0) + (if f.tm2 != "" then 1 else 0) + (if f.biomed != "" then 1 else 0)
    ensures r == [] <==> f.namaste == "" && f.tm2 == "" && f.biomed == ""
    ensures f.namaste != "" ==> r[0] == CodingJson(NamasteSystem, f.namaste, NamasteDisplay)
    ensures f.tm2 != "" ==> r[if f.namaste != "" then 1 else 0] == CodingJson(Tm2System, f.tm2, Tm2Display)
    ensures f.biomed != "" ==> r[|r| - 1] == CodingJson(BiomedSystem, f.biomed, BiomedDisplay)
    ensures forall i :: 0 <= i < |r| ==> CodeText(r[i]) != ""
  {
    var c1 := PushIf([], f.namaste != "", CodingJson(NamasteSystem, f.namaste, NamasteDisplay));
    var c2 := PushIf(c1, f.tm2 != "", CodingJson(Tm2System, f.tm2, Tm2Display));
    PushIf(c2, f.biomed != "", CodingJson(BiomedSystem, f.biomed, BiomedDisplay))
  }

  function StatusJson(system: string, code: string): Json {
    Single("coding", Arr([Obj(map["system" := Str(system), "code" := Str(code)])]))
  }

  /** `patientRef || "Patient/unknown"` */
  function SubjectRef(f: Form): (r: string)
    ensures r != ""
    ensures f.patientRef != "" ==> r == f.patientRef
    ensures f.patientRef == "" ==> r == "Patient/unknown"
  {
    if f.patientRef != "" then f.patientRef else "Patient/unknown"
  }

  const Category: Json :=
    Arr([Single("coding", Arr([CodingJson("urn:example:category", "tm", "Traditional Medicine")]))])

  /** `conditionJSON`: the Condition the form describes. The `code`
      property is absent when there is no coding. */
  function ConditionJson(f: Form): (r: Json)
    ensures Get(r, "resourceType") == Some(Str("Condition"))
    ensures GetOpt(Get(r, "subject"), "reference") == Some(Str(SubjectRef(f)))
    ensures Get(r, "code").Some? <==> Codings(f) != []
    ensures CodingsOf(r) == Codings(f)
  {
    var fields := map[
      "resourceType" := Str("Condition"),
      "subject" := Single("reference", Str(SubjectRef(f))),
      "clinicalStatus" := StatusJson(ClinicalSystem, f.clinical),
      "verificationStatus" := StatusJson(VerificationSystem, f.verification),
      "category" := Category];
    var r := if Codings(f) != [] then Obj(fields["code" := Single("coding", Arr(Codings(f)))]) else Obj(fields);
    assert Codings(f) != [] ==> Get(r, "code") == Some(Single("coding", Arr(Codings(f))));
    r
  }

  // ---------------------------------------------------------------- validations

  predicate RefChar(c: char) {
    ('A' <= c <= 'Z') || ('a' <= c <= 'z') || ('0' <= c <= '9') || c == '.' || c == '_' || c == '-'
  }

  /** "Patient/" followed by one or more letters, digits, dots, underscores
      or hyphens, and nothing else. */
  predicate IsPatientRef(s: string) {
    StartsWith(s, "Patient/") && |s| > 8 && forall i :: 8 <= i < |s| ==> RefChar(s[i])
  }

  datatype Status = Valid | Error | Warn
  datatype Check = Check(field: string, status: Status, msg: string)

  const PatientField: string := "Patient Reference"
  const ClinicalField: string := "Clinical Status"
  const VerificationField: string := "Verification Status"
  const BiomedField: string := "ICD-11 Biomed"
  const DualField: string := "Dual Coding"
  const PatientOk: string := "Looks good."
  const PatientBad: string := "Expected format like ‘Patient/123’."
  const Required: string := "Required."
  const BiomedMissing: string := "Missing biomedical code may affect interoperability."
  const DualMissing: string := "Add at least one coding (NAMASTE/TM2/Biomed)."

  /** `validations`: patient reference, clinical and verification status,
      the biomedicine code, and the "Dual Coding" warning when no code at
      all is given. */
  function Validations(f: Form): (v: seq<Check>)
    ensures |v| == 4 || |v| == 5
    ensures v[0].field == PatientField && (v[0].status == Valid <==> IsPatientRef(f.patientRef))
    ensures v[0].status == Valid || v[0].status == Error
    ensures v[1].status == (if f.clinical != "" then Valid else Error)
    ensures v[2].status == (if f.verification != "" then Valid else Error)
    ensures v[3].field == BiomedField && (v[3].status == Warn <==> f.biomed == "")
    ensures |v| == 5 <==> f.namaste == "" && f.tm2 == "" && f.biomed == ""
    ensures |v| == 5 ==> v[4] == Check(DualField, Warn, DualMissing)
  {
    var patient := Check(PatientField, if IsPatientRef(f.patientRef) then Valid else Error,
                         if IsPatientRef(f.patientRef) then PatientOk else PatientBad);
    var clinical := Check(ClinicalField, if f.clinical != "" then Valid else Error,
                          if f.clinical != "" then f.clinical else Required);
    var verification := Check(VerificationField, if f.verification != "" then Valid else Error,
                              if f.verification != "" then f.verification else Required);
    var biomed := Check(BiomedField, if f.biomed == "" then Warn else Valid,
                        if f.biomed == "" then BiomedMissing else f.biomed);
    if f.namaste == "" && f.tm2 == "" && f.biomed == "" then
      [patient, clinical, verification, biomed, Check(DualField, Warn, DualMissing)]
    else [patient, clinical, verification, biomed]
  }

  /** The "Dual Coding" warning is raised exactly for the forms whose
      Condition carries no `code`. */
  lemma DualCodingIffNoCode(f: Form)
    ensures |Validations(f)| == 5 <==> Get(ConditionJson(f), "code").None?
  {
  }

  /** The form the page opens with passes the patient check and warns
      about the missing codes. */
  lemma InitialValidations()
    ensures var v := Validations(InitialForm);
      v[0].status == Valid && v[3].status == Warn && |v| == 5
  {
    assert IsPatientRef("Patient/123") by {
      assert "Patient/123"[..8] == "Patient/";
    }
  }

  /** A reference with nothing after "Patient/", or with a character outside
      `[A-Za-z0-9._-]`, fails the check. */
  lemma PatientRefRejects(s: string, i: nat)
    ensures !IsPatientRef("Patient/")
    ensures 8 <= i < |s| && !RefChar(s[i]) ==> !IsPatientRef(s)
  {
  }

  // ---------------------------------------------------------------- reading a Condition back

  /** How `prefillFromCondition` classifies a coding: "namaste" first, then
      "tm2" or "traditional", then "biomed" or any "icd". */
  function BuilderKind(c: Json): Kind {
    var sys := SystemText(c);
    if Contains(sys, "namaste") then NamasteKind
    else if Contains(sys, "tm2") || Contains(sys, "traditional") then Tm2Kind
    else if Contains(sys, "biomed") || Contains(sys, "icd") then BiomedKind
    else OtherKind
  }

  /** `x || fallback` on text. */
  function OrElse(x: string, fallback: string): string {
    if x != "" then x else fallback
  }

  /** The text of a string value, "" for anything else. */
  function TextOf(v: Option<Json>): string {
    StrOr(v)
  }

  /** `prefillFromCondition(cond)` on the form: the subject reference when it
      is a string, the first clinical and verification status codes when
      truthy, and each of the three codes when the walk finds one. */
  function ApplyCondition(f: Form, cond: Json): (g: Form)
    ensures g.namaste == OrElse(FirstCode(CodingsOf(cond), BuilderKind, NamasteKind), f.namaste)
    ensures g.tm2 == OrElse(FirstCode(CodingsOf(cond), BuilderKind, Tm2Kind), f.tm2)
    ensures g.biomed == OrElse(FirstCode(CodingsOf(cond), BuilderKind, BiomedKind), f.biomed)
  {
    var codes := FoldCodes(CodingsOf(cond), BuilderKind);
    FoldCodesFirst(CodingsOf(cond), BuilderKind, NamasteKind);
    FoldCodesFirst(CodingsOf(cond), BuilderKind, Tm2Kind);
    FoldCodesFirst(CodingsOf(cond), BuilderKind, BiomedKind);
    Form(SubjectOr(cond, f.patientRef),
         OrElse(StatusCode(cond, "clinicalStatus"), f.clinical), OrElse(StatusCode(cond, "verificationStatus"), f.verification),
         OrElse(codes.namaste, f.namaste), OrElse(codes.tm2, f.tm2), OrElse(codes.biomed, f.biomed))
  }

  /** `cond?.subject?.reference` when it is a string, else the fallback. */
  function SubjectOr(cond: Json, fallback: string): string {
    var reference := GetOpt(Get(cond, "subject"), "reference");
    if reference.Some? && reference.value.Str? then reference.value.s else fallback
  }

  /** The code of the first coding of the status property `key`, as text. */
  function StatusCode(cond: Json, key: string): string {
    TextOf(GetOpt(First(GetOpt(Get(cond, key), "coding")), "code"))
  }

  lemma StatusCodeOf(cond: Json, key: string, system: string, code: string)
    requires Get(cond, key) == Some(StatusJson(system, code))
    ensures StatusCode(cond, key) == code
  {
    var c := Obj(map["system" := Str(system), "code" := Str(code)]);
    assert GetOpt(Get(cond, key), "coding") == Some(Arr([c]));
    assert First(Some(Arr([c]))) == Some(c);
    assert Get(c, "code") == Some(Str(code));
  }

  /** The builder's own coding systems classify as the field they came from. */
  lemma BuilderKinds(code: string)
    ensures BuilderKind(CodingJson(NamasteSystem, code, NamasteDisplay)) == NamasteKind
    ensures BuilderKind(CodingJson(Tm2System, code, Tm2Display)) == Tm2Kind
    ensures BuilderKind(CodingJson(BiomedSystem, code, BiomedDisplay)) == BiomedKind
  {
    NamasteKindOf(code);
    Tm2KindOf(code);
    BiomedKindOf(code);
  }

  lemma NamasteKindOf(code: string)
    ensures BuilderKind(CodingJson(NamasteSystem, code, NamasteDisplay)) == NamasteKind
  {
    SystemTextOf(NamasteSystem, code, NamasteDisplay);
    NamasteSystemWords();
  }

  lemma Tm2KindOf(code: string)
    ensures BuilderKind(CodingJson(Tm2System, code, Tm2Display)) == Tm2Kind
  {
    SystemTextOf(Tm2System, code, Tm2Display);
    Tm2SystemWords();
  }

  lemma BiomedKindOf(code: string)
    ensures BuilderKind(CodingJson(BiomedSystem, code, BiomedDisplay)) == BiomedKind
  {
    SystemTextOf(BiomedSystem, code, BiomedDisplay);
    BiomedNoNamaste();
    BiomedNoTm2();
    BiomedNoTraditional();
    BiomedHasBiomed();
  }

  /** The system text of one of the builder's codings is its system, and
      its code reads back. */
  lemma SystemTextOf(system: string, code: string, display: string)
    requires system == NamasteSystem || system == Tm2System || system == BiomedSystem
    ensures SystemText(CodingJson(system, code, display)) == system
    ensures CodeText(CodingJson(system, code, display)) == code
  {
    var c := CodingJson(system, code, display);
    assert Get(c, "system") == Some(Str(system));
    assert Get(c, "code") == Some(Str(code));
    LowerIdentity(system);
  }

  lemma LowerIdentity(s: string)
    requires forall i :: 0 <= i < |s| ==> !IsUpperAscii(s[i])
    ensures Lower(s) == s
  {
  }

  // What the builder's three system names contain, for the class tests of
  // this page and of the Bundle Draft page.

  lemma NamasteSystemWords()
    ensures Contains(NamasteSystem, "namaste")
    ensures !Contains(NamasteSystem, "tm2") && !Contains(NamasteSystem, "icd11-tm2")
    ensures !Contains(NamasteSystem, "biomed") && !Contains(NamasteSystem, "icd11")
  {
    ContainsAt(NamasteSystem, "namaste", 12);
    assert '2' !in NamasteSystem;
    assert 'b' !in NamasteSystem;
    assert '1' !in NamasteSystem;
    MissingCharNotContained(NamasteSystem, "tm2", '2');
    MissingCharNotContained(NamasteSystem, "icd11-tm2", '2');
    MissingCharNotContained(NamasteSystem, "biomed", 'b');
    MissingCharNotContained(NamasteSystem, "icd11", '1');
  }

  lemma Tm2SystemWords()
    ensures Contains(Tm2System, "tm2") && Contains(Tm2System, "icd11")
    ensures !Contains(Tm2System, "namaste")
  {
    ContainsAt(Tm2System, "tm2", 18);
    ContainsAt(Tm2System, "icd11", 12);
    assert 's' !in Tm2System;
    MissingCharNotContained(Tm2System, "namaste", 's');
  }

  lemma BiomedNoNamaste()
    ensures !Contains(BiomedSystem, "namaste")
  {
    assert 's' !in BiomedSystem;
    MissingCharNotContained(BiomedSystem, "namaste", 's');
  }

  /** No "t" in the biomedicine system name, so the builder's TM2 test does
      not accept it. */
  lemma BiomedNoTraditional()
    ensures !Contains(BiomedSystem, "traditional")
  {
    assert 't' !in BiomedSystem;
    MissingCharNotContained(BiomedSystem, "traditional", 't');
  }

  /** No "2" in the biomedicine system name, so neither TM2 test accepts it. */
  lemma BiomedNoTm2()
    ensures !Contains(BiomedSystem, "tm2") && !Contains(BiomedSystem, "icd11-tm2")
  {
    assert '2' !in BiomedSystem;
    MissingCharNotContained(BiomedSystem, "tm2", '2');
    MissingCharNotContained(BiomedSystem, "icd11-tm2", '2');
  }

  lemma BiomedHasBiomed()
    ensures Contains(BiomedSystem, "biomed")
  {
    ContainsAt(BiomedSystem, "biomed", 18);
  }

  /** Walking the builder's own codings with any classification that sends
      each of them to its own field gives back the three codes. */
  lemma {:induction false} FoldBuilderCodings(f: Form, kind: Json -> Kind)
    requires kind(CodingJson(NamasteSystem, f.namaste, NamasteDisplay)) == NamasteKind
    requires kind(CodingJson(Tm2System, f.tm2, Tm2Display)) == Tm2Kind
    requires kind(CodingJson(BiomedSystem, f.biomed, BiomedDisplay)) == BiomedKind
    ensures FoldCodes(Codings(f), kind) == Codes(f.namaste, f.tm2, f.biomed)
  {
    var n := CodingJson(NamasteSystem, f.namaste, NamasteDisplay);
    var t := CodingJson(Tm2System, f.tm2, Tm2Display);
    var b := CodingJson(BiomedSystem, f.biomed, BiomedDisplay);
    SystemTextOf(NamasteSystem, f.namaste, NamasteDisplay);
    SystemTextOf(Tm2System, f.tm2, Tm2Display);
    SystemTextOf(BiomedSystem, f.biomed, BiomedDisplay);
    var c1 := PushIf([], f.namaste != "", n);
    var c2 := PushIf(c1, f.tm2 != "", t);
    if f.namaste != "" {
      FoldCodesSnoc([], n, kind);
    }
    assert FoldCodes(c1, kind) == Codes(f.namaste, "", "");
    if f.tm2 != "" {
      FoldCodesSnoc(c1, t, kind);
    }
    assert FoldCodes(c2, kind) == Codes(f.namaste, f.tm2, "");
    if f.biomed != "" {
      FoldCodesSnoc(c2, b, kind);
    }
  }

  /** Walking the builder's own codings gives back the three codes. */
  lemma BuilderCodesRoundTrip(f: Form)
    ensures FoldCodes(Codings(f), BuilderKind) == Codes(f.namaste, f.tm2, f.biomed)
  {
    NamasteKindOf(f.namaste);
    Tm2KindOf(f.tm2);
    BiomedKindOf(f.biomed);
    FoldBuilderCodings(f, BuilderKind);
  }

  /** Reading the builder's own Condition back restores the form, except
      that an empty patient reference comes back as "Patient/unknown" and an
      empty field keeps the value it had. */
  lemma ConditionRoundTrip(f: Form, g: Form)
    ensures ApplyCondition(g, ConditionJson(f)) ==
      Form(SubjectRef(f), OrElse(f.clinical, g.clinical), OrElse(f.verification, g.verification),
           OrElse(f.namaste, g.namaste), OrElse(f.tm2, g.tm2), OrElse(f.biomed, g.biomed))
  {
    var cond := ConditionJson(f);
    BuilderCodesRoundTrip(f);
    assert FoldCodes(CodingsOf(cond), BuilderKind) == Codes(f.namaste, f.tm2, f.biomed);
    ConditionStatuses(f);
    assert SubjectOr(cond, g.patientRef) == SubjectRef(f);
  }

  lemma ConditionStatuses(f: Form)
    ensures StatusCode(ConditionJson(f), "clinicalStatus") == f.clinical
    ensures StatusCode(ConditionJson(f), "verificationStatus") == f.verification
    ensures SubjectOr(ConditionJson(f), "") == SubjectRef(f)
  {
    var cond := ConditionJson(f);
    assert Get(cond, "clinicalStatus") == Some(StatusJson(ClinicalSystem, f.clinical));
    assert Get(cond, "verificationStatus") == Some(StatusJson(VerificationSystem, f.verification));
    StatusCodeOf(cond, "clinicalStatus", ClinicalSystem, f.clinical);
    StatusCodeOf(cond, "verificationStatus", VerificationSystem, f.verification);
  }

  /** `extractConditionFromBundle`: the resource of the first entry whose
      resource is a Condition; none when `entry` is not an array or holds
      no Condition. */
  function ExtractCondition(bundle: Json): (r: Option<Json>)
    ensures r.None? <==> forall i :: 0 <= i < |Entries(bundle)| ==> !IsConditionEntry(Entries(bundle)[i])
    ensures r.Some? ==> exists i :: FirstConditionAt(Entries(bundle), i) && r == Get(Entries(bundle)[i], "resource")
  {
    var entries := ItemsOr(Get(bundle, "entry"));
    match FindIndex(entries, IsConditionEntry)
    case None => None
    case Some(i) =>
      assert IsConditionEntry(entries[i]) && entries == Entries(bundle);
      assert Get(entries[i], "resource").Some?;
      Get(entries[i], "resource")
  }

  /** `bundle.entry` when it is an array. */
  function Entries(bundle: Json): seq<Json> {
    ItemsOr(Get(bundle, "entry"))
  }

  /** Entry `i` is the first whose resource is a Condition. */
  predicate FirstConditionAt(entries: seq<Json>, i: int) {
    0 <= i < |entries| && IsConditionEntry(entries[i]) &&
    forall j :: 0 <= j < i ==> !IsConditionEntry(entries[j])
  }

  /** The entry's resource is a Condition. */
  predicate IsConditionEntry(e: Json) {
    GetOpt(Get(e, "resource"), "resourceType") == Some(Str("Condition"))
  }

  /** A Bundle exported by the builder yields its Condition back. */
  lemma ExtractExported(f: Form, id: string)
    ensures ExtractCondition(ExportBundle(f, id)) == Some(WithId(ConditionJson(f), id))
  {
    var e := Single("resource", WithId(ConditionJson(f), id));
    assert IsConditionEntry(e);
    assert ItemsOr(Get(ExportBundle(f, id), "entry")) == [e];
  }

  /** `{ ...resource, id }` */
  function WithId(res: Json, id: string): (r: Json)
    ensures Get(r, "id") == Some(Str(id))
    ensures forall k :: k != "id" ==> Get(r, k) == Get(res, k)
  {
    match res
    case Obj(fields) => Obj(fields["id" := Str(id)])
    case _ => Single("id", Str(id))
  }

  /** `exportBundle`: a "collection" Bundle holding the Condition, stamped
      with the given id, as its one entry. */
  function ExportBundle(f: Form, id: string): (r: Json)
    ensures Get(r, "resourceType") == Some(Str("Bundle")) && Get(r, "type") == Some(Str("collection"))
    ensures Get(r, "entry") == Some(Arr([Single("resource", WithId(ConditionJson(f), id))]))
  {
    Obj(map["resourceType" := Str("Bundle"), "type" := Str("collection"),
            "entry" := Arr([Single("resource", WithId(ConditionJson(f), id))])])
  }

  // ---------------------------------------------------------------- prefill mailbox

  /** The form after the mailbox is read: each non-empty code the stored
      document holds replaces the field. */
  function WithPrefill(f: Form, c: Codes): (g: Form)
    ensures g.patientRef == f.patientRef && g.clinical == f.clinical && g.verification == f.verification
    ensures g.namaste == OrElse(c.namaste, f.namaste) && g.tm2 == OrElse(c.tm2, f.tm2) && g.biomed == OrElse(c.biomed, f.biomed)
  {
    f.(namaste := OrElse(c.namaste, f.namaste), tm2 := OrElse(c.tm2, f.tm2), biomed := OrElse(c.biomed, f.biomed))
  }

  /** What another page leaves in the mailbox reaches the form unchanged. */
  lemma PrefillDelivers(f: Form, c: Codes)
    requires c.namaste != "" && c.tm2 != "" && c.biomed != ""
    ensures var g := WithPrefill(f, FromJson(Prefill.ToJson(c)));
      g.namaste == c.namaste && g.tm2 == c.tm2 && g.biomed == c.biomed
  {
    FromToJson(c);
  }

  datatype ImportOutcome = PrefilledCondition | PrefilledFromBundle | NoCondition | InvalidJson

  /** The toast `tryPrefillFromJSON` shows for each outcome. */
  function ImportMessage(o: ImportOutcome): string {
    match o
    case PrefilledCondition => "Prefilled from Condition"
    case PrefilledFromBundle => "Prefilled from Bundle → Condition"
    case NoCondition => "JSON parsed (no Condition found)"
    case InvalidJson => "Invalid JSON"
  }

  /** The page state the builder's actions change. The document parser and
      the clock are inputs: `parsed` is what `JSON.parse` made of the text
      (none when it threw), `id` the `cond-<time>` identifier. */
  class BuilderPage {
    var form: Form
    var importMsg: string

    constructor ()
      ensures form == InitialForm && importMsg == ""
    {
      form := InitialForm;
      importMsg := "";
    }

    /** The mount effect: an empty or missing mailbox changes nothing;
        otherwise the non-empty codes of a readable document fill the form,
        and the mailbox is emptied whether or not the text was readable. */
    method ConsumePrefill(store: LocalStorage)
      modifies this, store
      ensures PrefillKey !in old(store.slots) || old(store.slots)[PrefillKey].Blank? ==>
        store.slots == old(store.slots) && form == old(form) && importMsg == old(importMsg)
      ensures PrefillKey in old(store.slots) && old(store.slots)[PrefillKey].Garbage? ==>
        store.slots == old(store.slots) - {PrefillKey} && form == old(form) && importMsg == old(importMsg)
      ensures PrefillKey in old(store.slots) && old(store.slots)[PrefillKey].Doc? ==>
        && store.slots == old(store.slots) - {PrefillKey}
        && form == WithPrefill(old(form), FromJson(old(store.slots)[PrefillKey].value))
        && importMsg == "Prefilled from Mapping"
      ensures PrefillKey in store.slots ==> store.slots[PrefillKey].Blank?
    {
      if PrefillKey !in store.slots || store.slots[PrefillKey].Blank? {
        return;
      }
      if store.slots[PrefillKey].Doc? {
        var c := FromJson(store.slots[PrefillKey].value);
        if c.namaste != "" { form := form.(namaste := c.namaste); }
        if c.tm2 != "" { form := form.(tm2 := c.tm2); }
        if c.biomed != "" { form := form.(biomed := c.biomed); }
        importMsg := "Prefilled from Mapping";
      }
      store.RemoveItem(PrefillKey);
    }

    /** `prefillFromCondition`: the walk over the codings fills each code
        with the first non-empty code of its class. */
    method PrefillFromCondition(cond: Json)
      modifies this
      ensures form == ApplyCondition(old(form), cond)
      ensures importMsg == old(importMsg)
    {
      form := Prefilled(form, cond);
    }

    /** The assignments of `prefillFromCondition`, one field at a time. */
    static method Prefilled(f: Form, cond: Json) returns (g: Form)
      ensures g == ApplyCondition(f, cond)
    {
      g := f.(patientRef := SubjectOr(cond, f.patientRef));
      var cs := StatusCode(cond, "clinicalStatus");
      if cs != "" { g := g.(clinical := cs); }
      var vs := StatusCode(cond, "verificationStatus");
      if vs != "" { g := g.(verification := vs); }
      var acc := WalkCodings(CodingsOf(cond));
      if acc.namaste != "" { g := g.(namaste := acc.namaste); }
      if acc.tm2 != "" { g := g.(tm2 := acc.tm2); }
      if acc.biomed != "" { g := g.(biomed := acc.biomed); }
    }

    /** The `forEach` over the codings. */
    static method WalkCodings(codings: seq<Json>) returns (acc: Codes)
      ensures acc == FoldCodes(codings, BuilderKind)
    {
      acc := NoCodes;
      var i := 0;
      while i < |codings|
        invariant 0 <= i <= |codings|
        invariant acc == FoldCodes(codings[..i], BuilderKind)
      {
        FoldCodesPrefix(codings, i, BuilderKind);
        acc := ClassifyCoding(acc, codings[i]);
        i := i + 1;
      }
      assert codings[..|codings|] == codings;
    }

    /** One turn of the `forEach`: a coding without a code is skipped,
        otherwise the first matching class takes the code if still empty. */
    static method ClassifyCoding(acc: Codes, c: Json) returns (next: Codes)
      ensures next == Fill(acc, BuilderKind(c), CodeText(c))
    {
      next := acc;
      var code := CodeText(c);
      if code == "" {
        return;
      }
      var sys := SystemText(c);
      if Contains(sys, "namaste") {
        if next.namaste == "" { next := next.(namaste := code); }
      } else if Contains(sys, "tm2") || Contains(sys, "traditional") {
        if next.tm2 == "" { next := next.(tm2 := code); }
      } else if Contains(sys, "biomed") || Contains(sys, "icd") {
        if next.biomed == "" { next := next.(biomed := code); }
      }
    }

    /** `tryPrefillFromJSON` as the page calls it (always with a toast): a
        Condition is read into the form, so is the first Condition of a
        Bundle; anything else leaves the form alone. A document that is
        `null` throws on `.resourceType` and is reported as invalid. */
    method TryPrefill(parsed: Option<Json>) returns (outcome: ImportOutcome)
      modifies this
      ensures importMsg == ImportMessage(outcome)
      ensures (parsed.None? || parsed == Some(Null)) <==> outcome == InvalidJson
      ensures outcome == PrefilledCondition <==>
        parsed.Some? && Get(parsed.value, "resourceType") == Some(Str("Condition"))
      ensures outcome == PrefilledCondition ==> form == ApplyCondition(old(form), parsed.value)
      ensures outcome == PrefilledFromBundle ==>
        && Get(parsed.value, "resourceType") == Some(Str("Bundle"))
        && ExtractCondition(parsed.value).Some?
        && form == ApplyCondition(old(form), ExtractCondition(parsed.value).value)
      ensures outcome == NoCondition || outcome == InvalidJson ==> form == old(form)
    {
      if parsed.None? || parsed == Some(Null) {
        outcome := InvalidJson;
      } else if Get(parsed.value, "resourceType") == Some(Str("Condition")) {
        PrefillFromCondition(parsed.value);
        outcome := PrefilledCondition;
      } else if Get(parsed.value, "resourceType") == Some(Str("Bundle")) && ExtractCondition(parsed.value).Some? {
        PrefillFromCondition(ExtractCondition(parsed.value).value);
        outcome := PrefilledFromBundle;
      } else {
        outcome := NoCondition;
      }
      importMsg := ImportMessage(outcome);
    }

    /** `onSave`: the Condition, stamped with `id`, goes to the front of
        the stored Bundle draft; an unreadable or non-array draft counts as
        empty. */
    method OnSave(store: LocalStorage, id: string)
      modifies store
      ensures store.slots == old(store.slots)[BundleDraft.DraftKey :=
        Doc(Arr([Single("resource", WithId(ConditionJson(form), id))] + BundleDraft.LoadDraft(old(store.slots))))]
      ensures BundleDraft.LoadDraft(store.slots) ==
        [Single("resource", WithId(ConditionJson(form), id))] + BundleDraft.LoadDraft(old(store.slots))
    {
      var arr := BundleDraft.LoadDraft(store.slots);
      var withMeta := WithId(ConditionJson(form), id);
      arr := [Single("resource", withMeta)] + arr;
      store.SetItem(BundleDraft.DraftKey, Arr(arr));
    }
  }
}
