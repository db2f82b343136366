/** The code catalog rows the pages search, score and select, and the lookup
    that turns a code suggested by the language model into a catalog row or
    a stub row. */
module Catalog {
  import opened Wrappers
  import opened Seqs
  import opened Text
  import opened Json

  /** A catalog row. A field the dataset leaves out reads as "". */
  datatype CodeEntry = CodeEntry(code: string, term: string, system: string, mapped: bool)

  /** The row as the pages store it inside a record. */
  function ToJson(e: CodeEntry): (r: Json)
    ensures Get(r, "code") == Some(Str(e.code)) && Get(r, "system") == Some(Str(e.system))
    ensures Get(r, "term") == Some(Str(e.term))
  {
    Obj(map["code" := Str(e.code), "term" := Str(e.term), "system" := Str(e.system), "mapped" := Bool(e.mapped)])
  }

  const AiStubTerm: string := "(AI suggestion)"

  /** The row has the system (ignoring case) and the code (ignoring case). */
  predicate Matches(c: CodeEntry, system: string, codeText: string) {
    Upper(c.system) == Upper(system) && Lower(c.code) == Lower(codeText)
  }

  /** The first catalog row of `system` whose code is `codeText`, ignoring
      case; a stub row carrying the suggestion when there is none. */
  function Resolve(codes: seq<CodeEntry>, system: string, codeText: string): (r: CodeEntry)
    ensures Matches(r, system, codeText)
    ensures (exists i :: 0 <= i < |codes| && Matches(codes[i], system, codeText)) ==>
      exists i :: 0 <= i < |codes| && codes[i] == r && forall j :: 0 <= j < i ==> !Matches(codes[j], system, codeText)
    ensures (forall i :: 0 <= i < |codes| ==> !Matches(codes[i], system, codeText)) ==>
      r == CodeEntry(codeText, AiStubTerm, system, false)
  {
    match FindIndex(codes, c => Matches(c, system, codeText))
    case Some(i) => codes[i]
    case None => CodeEntry(codeText, AiStubTerm, system, false)
  }

  /** The first six suggestions of a list the model returned, each resolved
      against the catalog; a value that is not an array gives no rows. */
  function Pack(codes: seq<CodeEntry>, arr: Option<Json>, system: string): (r: seq<CodeEntry>)
    ensures |r| == if |ItemsOr(arr)| < 6 then |ItemsOr(arr)| else 6
    ensures forall i :: 0 <= i < |r| ==> r[i] == Resolve(codes, system, AsText(ItemsOr(arr)[i]))
    ensures forall i :: 0 <= i < |r| ==> Upper(r[i].system) == Upper(system)
  {
    Map(Take(ItemsOr(arr), 6), j => Resolve(codes, system, AsText(j)))
  }
}

/** The one-shot payload the Mapping, Dashboard and Bundle Draft pages leave
    in storage for the FHIR builder to pick up. */
module Prefill {
  import opened Wrappers
  import opened Json

  const PrefillKey: string := "vs_fhir_prefill_v1"

  datatype Codes = Codes(namaste: string, tm2: string, biomed: string)

  function ToJson(c: Codes): Json {
    Obj(map["namaste" := Str(c.namaste), "tm2" := Str(c.tm2), "biomed" := Str(c.biomed)])
  }

  /** `const { key = "" } = doc`: the text of a string property, "" when the
      property is absent. */
  function Field(doc: Json, key: string): (r: string)
    ensures Get(doc, key).None? ==> r == ""
  {
    StrOr(Get(doc, key))
  }

  function FromJson(doc: Json): Codes {
    Codes(Field(doc, "namaste"), Field(doc, "tm2"), Field(doc, "biomed"))
  }

  /** The builder reads back exactly the codes a page stored. */
  lemma FromToJson(c: Codes)
    ensures FromJson(ToJson(c)) == c
  {
    assert Get(ToJson(c), "namaste") == Some(Str(c.namaste));
    assert Get(ToJson(c), "tm2") == Some(Str(c.tm2));
    assert Get(ToJson(c), "biomed") == Some(Str(c.biomed));
  }
}
