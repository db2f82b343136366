/** The Dashboard page: ingestion of a code list or a mapping table from CSV,
    the upload of a FHIR Bundle or Condition into the bundle draft, and the
    searches over the activity stream and over the code list. The clock and
    the file are inputs: `now` is the ISO timestamp of an import, `stamp` the
    formatted date of an activity row. */
module Dashboard {
  import opened Wrappers
  import opened Seqs
  import opened Text
  import opened Json
  import opened Storage
  import opened Catalog
  import opened Csv
  import Mapping
  import Prefill
  import BundleDraft

  // ---------------------------------------------------------------- CSV kind

  /** `headersLower`: the first row's column names, lowercased. */
  function HeadersLower(row: Row): set<string> {
    set h | h in row.Keys :: Lower(h)
  }

  predicate HasCodesHeaders(hs: set<string>) {
    "code" in hs && "term" in hs && "system" in hs
  }

  predicate HasMappingHeaders(hs: set<string>) {
    && ("namaste" in hs || "namaste_code" in hs)
    && ("tm2" in hs || "tm2_code" in hs || "icd11_tm2" in hs)
    && ("biomed" in hs || "biomed_code" in hs || "icd11_biomed" in hs)
  }

  /** The columns a mapping table's three codes are read from. */
  datatype MappingKeys = MappingKeys(namaste: string, tm2: string, biomed: string)

  /** The first name of each code's column that the table has. */
  function KeysOf(hs: set<string>): (k: MappingKeys)
    requires HasMappingHeaders(hs)
    ensures k.namaste in hs && k.tm2 in hs && k.biomed in hs
    ensures k.namaste in {"namaste", "namaste_code"}
    ensures k.tm2 in {"tm2", "tm2_code", "icd11_tm2"}
    ensures k.biomed in {"biomed", "biomed_code", "icd11_biomed"}
  {
    MappingKeys(
      if "namaste" in hs then "namaste" else "namaste_code",
      if "tm2" in hs then "tm2" else if "tm2_code" in hs then "tm2_code" else "icd11_tm2",
      if "biomed" in hs then "biomed" else if "biomed_code" in hs then "biomed_code" else "icd11_biomed")
  }

  // The texts of the "CSV Ingestion" activity row.
  const IngestTitle: string := "CSV Ingestion"
  const NoRowsIn: string := "No rows in "
  const AddedText: string := "Added "
  const CodesFrom: string := " codes from "
  const ImportedText: string := "Imported "
  const MappingRowsFrom: string := " mapping rows from "
  const UnrecognizedIn: string := "Unrecognized columns in "

  datatype CsvKind = NoRows | CodesCsv | MappingsCsv(keys: MappingKeys) | UnknownCsv

  /** Which branch of the ingestion a parsed file takes. The mapping table
      wins over the code list when the columns of both are present. */
  function Classify(rows: seq<Row>): (k: CsvKind)
    ensures k.NoRows? <==> rows == []
    ensures rows != [] && HasMappingHeaders(HeadersLower(rows[0])) ==> k == MappingsCsv(KeysOf(HeadersLower(rows[0])))
    ensures k.CodesCsv? <==>
      rows != [] && HasCodesHeaders(HeadersLower(rows[0])) && !HasMappingHeaders(HeadersLower(rows[0]))
    ensures k.UnknownCsv? <==>
      rows != [] && !HasCodesHeaders(HeadersLower(rows[0])) && !HasMappingHeaders(HeadersLower(rows[0]))
  {
    if rows == [] then NoRows
    else
      var hs := HeadersLower(rows[0]);
      if HasCodesHeaders(hs) && !HasMappingHeaders(hs) then CodesCsv
      else if HasMappingHeaders(hs) then MappingsCsv(KeysOf(hs))
      else UnknownCsv
  }

  // ---------------------------------------------------------------- code list

  /** A row of a code list: missing cells read as "", the system defaults to
      "NAMASTE", and `mapped` is the cell "true" in any case. */
  function RowToEntry(r: Row): (e: CodeEntry)
    ensures e.code == FieldOr(r, "code") && e.term == FieldOr(r, "term")
    ensures e.system != "" && (FieldOr(r, "system") != "" ==> e.system == FieldOr(r, "system"))
    ensures e.mapped <==> Lower(FieldOr(r, "mapped")) == "true"
  {
    var sys := FieldOr(r, "system");
    CodeEntry(FieldOr(r, "code"), FieldOr(r, "term"), if sys == "" then "NAMASTE" else sys,
              Lower(FieldOr(r, "mapped")) == "true")
  }

  predicate Complete(e: CodeEntry) {
    e.code != "" && e.term != ""
  }

  /** `toAdd`: the rows with a code and a term, in file order. */
  function CodeRows(rows: seq<Row>): (r: seq<CodeEntry>)
    ensures |r| <= |rows|
    ensures forall i :: 0 <= i < |r| ==> r[i].code != "" && r[i].term != "" && r[i].system != ""
    ensures forall i :: 0 <= i < |r| ==> exists j :: 0 <= j < |rows| && r[i] == RowToEntry(rows[j])
    ensures forall j :: 0 <= j < |rows| && Complete(RowToEntry(rows[j])) ==> RowToEntry(rows[j]) in r
  {
    var all := Map(rows, RowToEntry);
    var kept := Filter(all, Complete);
    assert forall i :: 0 <= i < |kept| ==> kept[i] in all;
    kept
  }

  /** The import works row by row: a concatenation of files yields the
      entries of the first, then those of the second, and one row yields its
      entry exactly when it has a code and a term. So the entries come once
      per kept row, in file order. */
  lemma CodeRowsAppend(a: seq<Row>, b: seq<Row>, row: Row)
    ensures CodeRows(a + b) == CodeRows(a) + CodeRows(b)
    ensures CodeRows([row]) == if Complete(RowToEntry(row)) then [RowToEntry(row)] else []
  {
    MapAppend(a, b, RowToEntry);
    FilterAppend(Map(a, RowToEntry), Map(b, RowToEntry), Complete);
    assert Map([row], RowToEntry) == [RowToEntry(row)];
    FilterSingle(RowToEntry(row), Complete);
  }

  // ---------------------------------------------------------------- mapping table

  /** One mapping the import derives: the NAMASTE code `namaste` to the code
      `dstCode` of `dstSystem` ("TM2" or "BIO"). */
  datatype ImportRec = ImportRec(namaste: string, dstSystem: string, dstCode: string)

  function RecId(r: ImportRec): string {
    Mapping.MakeId("NAMASTE", r.namaste, r.dstSystem, r.dstCode)
  }

  /** A side of an imported record; the import knows no term and writes a dash. */
  function Side(system: string, code: string): (j: Json)
    ensures Get(j, "system") == Some(Str(system)) && Get(j, "code") == Some(Str(code))
  {
    Obj(map["system" := Str(system), "code" := Str(code), "term" := Str("—")])
  }

  /** The record the import stores: score 1, created at `now`. */
  function RecJson(r: ImportRec, now: string): (j: Json)
    ensures Mapping.HasId(j, RecId(r))
    ensures Get(j, "source") == Some(Side("NAMASTE", r.namaste))
    ensures Get(j, "dest") == Some(Side(r.dstSystem, r.dstCode))
  {
    Obj(map["id" := Str(RecId(r)), "fromSystem" := Str("NAMASTE"),
            "source" := Side("NAMASTE", r.namaste), "dest" := Side(r.dstSystem, r.dstCode),
            "score" := Num(1.0), "createdAt" := Str(now)])
  }

  /** The three codes of a row, each trimmed, a missing column read as "". */
  function RowCodes(r: Row, keys: MappingKeys): Prefill.Codes {
    Prefill.Codes(Trim(FieldOr(r, keys.namaste)), Trim(FieldOr(r, keys.tm2)), Trim(FieldOr(r, keys.biomed)))
  }

  predicate Blank(c: Prefill.Codes) {
    c.namaste == "" && c.tm2 == "" && c.biomed == ""
  }

  /** The mappings one row yields, in the order the page pushes them: NAMASTE
      to TM2 when both codes are there, then NAMASTE to BIO likewise. */
  function RowRecs(c: Prefill.Codes): (r: seq<ImportRec>)
    ensures |r| <= 2
    ensures forall i :: 0 <= i < |r| ==> r[i].namaste == c.namaste != "" && r[i].dstCode != ""
    ensures ImportRec(c.namaste, "TM2", c.tm2) in r <==> c.namaste != "" && c.tm2 != ""
    ensures ImportRec(c.namaste, "BIO", c.biomed) in r <==> c.namaste != "" && c.biomed != ""
    ensures Blank(c) ==> r == []
  {
    (if c.namaste != "" && c.tm2 != "" then [ImportRec(c.namaste, "TM2", c.tm2)] else [])
    + (if c.namaste != "" && c.biomed != "" then [ImportRec(c.namaste, "BIO", c.biomed)] else [])
  }

  /** Every mapping of the table, in the order the page pushes them. */
  function AllRecs(rows: seq<Row>, keys: MappingKeys): seq<ImportRec> {
    if rows == [] then []
    else AllRecs(rows[..|rows| - 1], keys) + RowRecs(RowCodes(rows[|rows| - 1], keys))
  }

  /** Some record of the list has the id: the lookup `pushOnce` makes before
      adding. */
  predicate Present(xs: seq<Json>, id: string) {
    exists i :: 0 <= i < |xs| && Mapping.HasId(xs[i], id)
  }

  /** `pushOnce(rec)`: the record goes first unless its id is already there. */
  function PushOnce(xs: seq<Json>, r: ImportRec, now: string): (ys: seq<Json>)
    ensures Present(ys, RecId(r))
    ensures Present(xs, RecId(r)) ==> ys == xs
    ensures !Present(xs, RecId(r)) ==> ys == [RecJson(r, now)] + xs
  {
    if Present(xs, RecId(r)) then xs
    else
      var ys := [RecJson(r, now)] + xs;
      assert ys[0] == RecJson(r, now);
      ys
  }

  /** An id in the ledger stays in it after a push. */
  lemma PresentKept(xs: seq<Json>, r: ImportRec, now: string, id: string)
    requires Present(xs, id)
    ensures Present(PushOnce(xs, r, now), id)
  {
    var ys := PushOnce(xs, r, now);
    var i :| 0 <= i < |xs| && Mapping.HasId(xs[i], id);
    if ys != xs {
      assert ys[i + 1] == xs[i];
    }
  }

  /** The ledger after pushing `recs` one after the other onto `xs`. */
  function PushAll(xs: seq<Json>, recs: seq<ImportRec>, now: string): (ys: seq<Json>)
    ensures |xs| <= |ys| <= |xs| + |recs|
  {
    if recs == [] then xs
    else PushOnce(PushAll(xs, recs[..|recs| - 1], now), recs[|recs| - 1], now)
  }

  /** The records already in the ledger stay, in their order, at its end. */
  lemma {:induction false} PushAllKeeps(xs: seq<Json>, recs: seq<ImportRec>, now: string)
    ensures var ys := PushAll(xs, recs, now); ys[|ys| - |xs|..] == xs
  {
    if recs != [] {
      var before := PushAll(xs, recs[..|recs| - 1], now);
      PushAllKeeps(xs, recs[..|recs| - 1], now);
      var r := recs[|recs| - 1];
      var ys := PushOnce(before, r, now);
      if !Present(before, RecId(r)) {
        assert ys[|ys| - |xs|..] == before[|before| - |xs|..];
      }
    }
  }

  lemma PushAllSnoc(xs: seq<Json>, recs: seq<ImportRec>, r: ImportRec, now: string)
    ensures PushAll(xs, recs + [r], now) == PushOnce(PushAll(xs, recs, now), r, now)
  {
    assert (recs + [r])[..|recs|] == recs;
  }

  /** After the import, every id the table yields is in the ledger. */
  lemma {:induction false} PushAllPresent(xs: seq<Json>, recs: seq<ImportRec>, now: string)
    ensures forall k :: 0 <= k < |recs| ==> Present(PushAll(xs, recs, now), RecId(recs[k]))
  {
    if recs != [] {
      var init := recs[..|recs| - 1];
      var last := recs[|recs| - 1];
      PushAllPresent(xs, init, now);
      forall k | 0 <= k < |recs| - 1
        ensures Present(PushAll(xs, recs, now), RecId(recs[k]))
      {
        assert recs[k] == init[k];
        PresentKept(PushAll(xs, init, now), last, now, RecId(recs[k]));
      }
    }
  }

  /** Pushing records whose ids are all present changes nothing. */
  lemma {:induction false} PushAllNoop(ys: seq<Json>, recs: seq<ImportRec>, now: string)
    requires forall k :: 0 <= k < |recs| ==> Present(ys, RecId(recs[k]))
    ensures PushAll(ys, recs, now) == ys
  {
    if recs != [] {
      var init := recs[..|recs| - 1];
      assert forall k :: 0 <= k < |init| ==> init[k] == recs[k];
      PushAllNoop(ys, init, now);
    }
  }

  /** Importing the same table a second time adds nothing. */
  lemma ImportTwice(xs: seq<Json>, recs: seq<ImportRec>, now: string, later: string)
    ensures PushAll(PushAll(xs, recs, now), recs, later) == PushAll(xs, recs, now)
  {
    PushAllPresent(xs, recs, now);
    PushAllNoop(PushAll(xs, recs, now), recs, later);
  }

  /** None of the first `n` records shares its id with another record. */
  predicate UniqueHead(ys: seq<Json>, n: int) {
    forall i, j :: 0 <= i < n && 0 <= j < |ys| && i != j && i < |ys| ==> Get(ys[i], "id") != Get(ys[j], "id")
  }

  /** No inserted record shares its id with any other record of the ledger:
      an id already present is never inserted, and an id is inserted once. */
  lemma {:induction false} PushAllFresh(xs: seq<Json>, recs: seq<ImportRec>, now: string)
    ensures UniqueHead(PushAll(xs, recs, now), |PushAll(xs, recs, now)| - |xs|)
  {
    if recs != [] {
      var before := PushAll(xs, recs[..|recs| - 1], now);
      PushAllFresh(xs, recs[..|recs| - 1], now);
      var r := recs[|recs| - 1];
      assert PushAll(xs, recs, now) == PushOnce(before, r, now);
      if !Present(before, RecId(r)) {
        var ys := [RecJson(r, now)] + before;
        assert ys[0] == RecJson(r, now) && Mapping.HasId(ys[0], RecId(r));
        forall i, j | 0 <= i < |ys| - |xs| && 0 <= j < |ys| && i != j
          ensures Get(ys[i], "id") != Get(ys[j], "id")
        {
          if i == 0 {
            assert ys[j] == before[j - 1] && !Mapping.HasId(before[j - 1], RecId(r));
          } else if j == 0 {
            assert ys[i] == before[i - 1] && !Mapping.HasId(before[i - 1], RecId(r));
          } else {
            assert ys[i] == before[i - 1] && ys[j] == before[j - 1];
          }
        }
      }
    }
  }

  /** The three codes of every row, in file order. */
  function CodesOf(rows: seq<Row>, keys: MappingKeys): (cs: seq<Prefill.Codes>)
    ensures |cs| == |rows|
    ensures forall i :: 0 <= i < |rows| ==> cs[i] == RowCodes(rows[i], keys)
  {
    Map(rows, row => RowCodes(row, keys))
  }

  /** `firstPrefill` after the rows seen so far: set by the first row that
      is not blank and never changed after. */
  function FirstNonBlank(cs: seq<Prefill.Codes>): Option<Prefill.Codes> {
    if cs == [] then None
    else
      var before := FirstNonBlank(cs[..|cs| - 1]);
      var c := cs[|cs| - 1];
      if before.Some? then before else if Blank(c) then None else Some(c)
  }

  function FirstPrefill(rows: seq<Row>, keys: MappingKeys): Option<Prefill.Codes> {
    FirstNonBlank(CodesOf(rows, keys))
  }

  /** The prefill is missing exactly when every row is blank. */
  lemma {:induction false} FirstNonBlankNone(cs: seq<Prefill.Codes>)
    ensures FirstNonBlank(cs).None? <==> forall i :: 0 <= i < |cs| ==> Blank(cs[i])
  {
    if cs != [] {
      var init := cs[..|cs| - 1];
      FirstNonBlankNone(init);
      assert forall i :: 0 <= i < |init| ==> init[i] == cs[i];
    }
  }

  /** A prefill is the codes of a row that is not blank, after only blank rows. */
  lemma {:induction false} FirstNonBlankSome(cs: seq<Prefill.Codes>)
    requires FirstNonBlank(cs).Some?
    ensures !Blank(FirstNonBlank(cs).value)
    ensures exists i :: 0 <= i < |cs| && FirstNonBlank(cs).value == cs[i] && forall j :: 0 <= j < i ==> Blank(cs[j])
  {
    var init := cs[..|cs| - 1];
    assert forall i :: 0 <= i < |init| ==> init[i] == cs[i];
    if FirstNonBlank(init).Some? {
      FirstNonBlankSome(init);
      var i :| 0 <= i < |init| && FirstNonBlank(init).value == init[i] && forall j :: 0 <= j < i ==> Blank(init[j]);
      assert FirstNonBlank(cs).value == cs[i];
    } else {
      FirstNonBlankNone(init);
      assert FirstNonBlank(cs).value == cs[|cs| - 1];
    }
  }

  lemma FirstPrefillSnoc(rows: seq<Row>, i: nat, keys: MappingKeys)
    requires i < |rows|
    ensures FirstPrefill(rows[..i + 1], keys) ==
      if FirstPrefill(rows[..i], keys).Some? then FirstPrefill(rows[..i], keys)
      else if Blank(RowCodes(rows[i], keys)) then None
      else Some(RowCodes(rows[i], keys))
  {
    var cs := CodesOf(rows[..i + 1], keys);
    assert cs[..i] == CodesOf(rows[..i], keys);
    assert cs[i] == RowCodes(rows[i], keys);
  }

  lemma AllRecsSnoc(rows: seq<Row>, i: nat, keys: MappingKeys)
    requires i < |rows|
    ensures AllRecs(rows[..i + 1], keys) == AllRecs(rows[..i], keys) + RowRecs(RowCodes(rows[i], keys))
  {
    assert rows[..i + 1][..i] == rows[..i];
  }

  /** `pushOnce(rec)` on the page's `next` and `added`. */
  method PushRec(next: seq<Json>, added: nat, r: ImportRec, now: string) returns (next2: seq<Json>, added2: nat)
    ensures next2 == PushOnce(next, r, now)
    ensures added2 == added + |next2| - |next|
  {
    var found := Find(next, x => Mapping.HasId(x, RecId(r)));
    if found.None? {
      next2 := [RecJson(r, now)] + next;
      added2 := added + 1;
    } else {
      var k :| 0 <= k < |next| && next[k] == found.value;
      assert Mapping.HasId(next[k], RecId(r));
      next2 := next;
      added2 := added;
    }
  }

  /** The pushes of one row that is not blank. */
  method ImportRow(next: seq<Json>, added: nat, c: Prefill.Codes, now: string) returns (next2: seq<Json>, added2: nat)
    ensures next2 == PushAll(next, RowRecs(c), now)
    ensures added2 == added + |next2| - |next|
  {
    next2, added2 := next, added;
    ghost var pushed: seq<ImportRec> := [];
    if c.namaste != "" && c.tm2 != "" {
      var r := ImportRec(c.namaste, "TM2", c.tm2);
      PushAllSnoc(next, pushed, r, now);
      next2, added2 := PushRec(next2, added2, r, now);
      pushed := pushed + [r];
    }
    if c.namaste != "" && c.biomed != "" {
      var r := ImportRec(c.namaste, "BIO", c.biomed);
      PushAllSnoc(next, pushed, r, now);
      next2, added2 := PushRec(next2, added2, r, now);
      pushed := pushed + [r];
    }
    assert pushed == RowRecs(c);
  }

  /** Pushing two lists is pushing their concatenation. */
  lemma {:induction false} PushAllAppend(xs: seq<Json>, a: seq<ImportRec>, b: seq<ImportRec>, now: string)
    ensures PushAll(xs, a + b, now) == PushAll(PushAll(xs, a, now), b, now)
  {
    if b == [] {
      assert a + b == a;
    } else {
      var init := b[..|b| - 1];
      PushAllAppend(xs, a, init, now);
      assert (a + b)[..|a + b| - 1] == a + init;
      assert (a + b)[|a + b| - 1] == b[|b| - 1];
    }
  }

  /** The `rows.forEach` of the mapping branch: the records pushed onto the
      stored ledger, how many were inserted, and the first prefill. */
  method ImportMappings(existing: seq<Json>, rows: seq<Row>, keys: MappingKeys, now: string)
    returns (next: seq<Json>, added: nat, firstPrefill: Option<Prefill.Codes>)
    ensures next == PushAll(existing, AllRecs(rows, keys), now)
    ensures added == |next| - |existing|
    ensures firstPrefill == FirstPrefill(rows, keys)
  {
    next := existing;
    added := 0;
    firstPrefill := None;
    var i := 0;
    while i < |rows|
      invariant 0 <= i <= |rows|
      invariant next == PushAll(existing, AllRecs(rows[..i], keys), now)
      invariant added == |next| - |existing|
      invariant firstPrefill == FirstPrefill(rows[..i], keys)
    {
      var c := RowCodes(rows[i], keys);
      FirstPrefillSnoc(rows, i, keys);
      AllRecsSnoc(rows, i, keys);
      PushAllAppend(existing, AllRecs(rows[..i], keys), RowRecs(c), now);
      if !Blank(c) {
        next, added := ImportRow(next, added, c, now);
        if firstPrefill.None? {
          firstPrefill := Some(c);
        }
      }
      i := i + 1;
    }
    assert rows[..i] == rows;
  }

  // ---------------------------------------------------------------- FHIR upload

  /** `e && e.resource`: an entry with a truthy `resource`. */
  predicate HasResource(e: Json) {
    Truthy(Some(e)) && Truthy(Get(e, "resource"))
  }

  /** `{ resource: e.resource }` */
  function Wrap(e: Json): Json {
    Single("resource", Get(e, "resource").GetOr(Null))
  }

  /** The draft after unshifting the wrapped entries one after the other:
      the last such entry comes first, and the old draft stays at the end. */
  function Unshifted(draft: seq<Json>, entries: seq<Json>): seq<Json> {
    Reverse(Map(Filter(entries, HasResource), Wrap)) + draft
  }

  /** The draft grows by the entries that carry a resource, and the old draft
      stays at the end. */
  lemma UnshiftedKeepsDraft(draft: seq<Json>, entries: seq<Json>)
    ensures |Unshifted(draft, entries)| == |draft| + Count(entries, HasResource)
    ensures Unshifted(draft, entries)[|Unshifted(draft, entries)| - |draft|..] == draft
  {
    var front := Reverse(Map(Filter(entries, HasResource), Wrap));
    assert (front + draft)[|front|..] == draft;
  }

  lemma UnshiftedSnoc(draft: seq<Json>, entries: seq<Json>, e: Json)
    ensures Unshifted(draft, entries + [e]) == (if HasResource(e) then [Wrap(e)] else []) + Unshifted(draft, entries)
  {
    FilterAppend(entries, [e], HasResource);
    if HasResource(e) {
      assert Filter([e], HasResource) == [e];
      UnshiftedKept(draft, entries, e);
    } else {
      assert Filter([e], HasResource) == [];
      UnshiftedSkipped(draft, entries, e);
    }
  }

  lemma UnshiftedKept(draft: seq<Json>, entries: seq<Json>, e: Json)
    requires Filter(entries + [e], HasResource) == Filter(entries, HasResource) + [e]
    ensures Unshifted(draft, entries + [e]) == [Wrap(e)] + Unshifted(draft, entries)
  {
    var m := Map(Filter(entries, HasResource), Wrap);
    calc {
      Unshifted(draft, entries + [e]);
    ==
      Reverse(Map(Filter(entries, HasResource) + [e], Wrap)) + draft;
    == { MapSnoc(Filter(entries, HasResource), e, Wrap); }
      Reverse(m + [Wrap(e)]) + draft;
    == { ReverseSnoc(m, Wrap(e)); }
      ([Wrap(e)] + Reverse(m)) + draft;
    == { assert ([Wrap(e)] + Reverse(m)) + draft == [Wrap(e)] + (Reverse(m) + draft); }
      [Wrap(e)] + Unshifted(draft, entries);
    }
  }

  lemma UnshiftedSkipped(draft: seq<Json>, entries: seq<Json>, e: Json)
    requires Filter(entries + [e], HasResource) == Filter(entries, HasResource) + []
    ensures Unshifted(draft, entries + [e]) == Unshifted(draft, entries)
  {
    var kept := Filter(entries, HasResource);
    assert kept + [] == kept;
  }

  /** The upload loop: each entry with a resource is wrapped and put at the
      front of the draft, in entry order. */
  method UnshiftEntries(draft: seq<Json>, entries: seq<Json>) returns (next: seq<Json>)
    ensures next == Unshifted(draft, entries)
  {
    next := draft;
    var i := 0;
    while i < |entries|
      invariant 0 <= i <= |entries|
      invariant next == Unshifted(draft, entries[..i])
    {
      PrefixSnoc(entries, i);
      UnshiftedSnoc(draft, entries[..i], entries[i]);
      if HasResource(entries[i]) {
        next := [Wrap(entries[i])] + next;
      }
      i := i + 1;
    }
    assert entries[..i] == entries;
  }

  /** What an uploaded file does to the draft: a new draft to save with the
      count and message the page reports, or a rejection message. */
  datatype Upload = Saved(draft: seq<Json>, added: nat, message: string) | Rejected(message: string)

  predicate IsType(j: Json, t: string) {
    Get(j, "resourceType") == Some(Str(t))
  }

  function BundleMessage(count: nat): string {
    "Uploaded Bundle with " + NatToString(count) + " " + (if count == 1 then "entry" else "entries")
  }

  const ConditionMessage: string := "Uploaded single Condition (wrapped into draft)"

  /** `handleUploadFHIR` on the parsed file (None when `JSON.parse` threw). A
      Bundle's entries are unshifted and the count reported is the length of
      `entry`; a Condition is wrapped as one entry; anything else is refused
      and the draft is not written. */
  function UploadResult(draft: seq<Json>, parsed: Option<Json>): (u: Upload)
    ensures parsed.None? ==> u == Rejected("Invalid JSON")
    ensures parsed.Some? && !IsType(parsed.value, "Bundle") && !IsType(parsed.value, "Condition") ==>
      u == Rejected("Invalid resourceType")
    ensures parsed.Some? && IsType(parsed.value, "Condition") ==>
      u == Saved([Single("resource", parsed.value)] + draft, 1, ConditionMessage)
    ensures parsed.Some? && IsType(parsed.value, "Bundle") ==>
      var entries := ItemsOr(Get(parsed.value, "entry"));
      u.Saved? && u.added == |entries| && u.draft == Unshifted(draft, entries)
    ensures u.Saved? ==> |u.draft| >= |draft| && u.draft[|u.draft| - |draft|..] == draft
  {
    match parsed
    case None => Rejected("Invalid JSON")
    case Some(json) =>
      if IsType(json, "Bundle") then
        var entries := ItemsOr(Get(json, "entry"));
        UnshiftedKeepsDraft(draft, entries);
        Saved(Unshifted(draft, entries), |entries|, BundleMessage(|entries|))
      else if IsType(json, "Condition") then
        var d := [Single("resource", json)] + draft;
        assert d[1..] == draft;
        Saved(d, 1, ConditionMessage)
      else Rejected("Invalid resourceType")
  }

  // ---------------------------------------------------------------- searches

  /** Some cell of the row contains the query. */
  predicate RowHits(row: seq<string>, q: string) {
    exists i :: 0 <= i < |row| && Contains(Lower(row[i]), q)
  }

  /** `filteredActivity`: every row for a blank query; otherwise the rows
      with a cell that contains the lowercased (untrimmed) query. */
  function FilteredActivity(activity: seq<seq<string>>, query: string): (r: seq<seq<string>>)
    ensures Trim(query) == "" ==> r == activity
    ensures |r| <= |activity|
    ensures Trim(query) != "" ==> forall i :: 0 <= i < |r| ==> r[i] in activity && RowHits(r[i], Lower(query))
    ensures Trim(query) != "" ==> forall i :: 0 <= i < |activity| && RowHits(activity[i], Lower(query)) ==> activity[i] in r
  {
    if Trim(query) == "" then activity
    else Filter(activity, row => RowHits(row, Lower(query)))
  }

  /** The code, the term or the system contains the query, ignoring case. */
  predicate CodeHits(c: CodeEntry, q: string) {
    Contains(Lower(c.code), q) || Contains(Lower(c.term), q) || Contains(Lower(c.system), q)
  }

  /** `CodeSearch` results: the first 50 codes for a blank query, otherwise
      every code the trimmed lowercased query hits, with no cap. */
  function CodeSearch(codes: seq<CodeEntry>, term: string): (r: seq<CodeEntry>)
    ensures Trim(term) == "" ==> r == Take(codes, 50)
    ensures Trim(term) != "" ==> forall i :: 0 <= i < |r| ==> r[i] in codes && CodeHits(r[i], Lower(Trim(term)))
    ensures Trim(term) != "" ==> forall i :: 0 <= i < |codes| && CodeHits(codes[i], Lower(Trim(term))) ==> codes[i] in r
  {
    var q := Lower(Trim(term));
    if Trim(term) == "" then Take(codes, 50)
    else Filter(codes, c => CodeHits(c, q))
  }

  // ---------------------------------------------------------------- page

  /** The panel the page shows after an ingestion or an upload. */
  datatype IngestInfo =
    | EmptyIngest
    | CodesIngest(added: nat)
    | MappingsIngest(added: nat, prefill: Option<Prefill.Codes>)
    | UnknownIngest
    | FhirIngest(added: nat, detail: string)

  /** An activity row the page writes itself: `[date, "System", action, details]`. */
  function SystemRow(stamp: string, action: string, details: string): seq<string> {
    [stamp, "System", action, details]
  }

  /** The ledger the mapping branch stores. */
  function ImportedLedger(slots: map<string, Slot>, rows: seq<Row>, keys: MappingKeys, now: string): seq<Json> {
    PushAll(Mapping.LoadMappings(slots), AllRecs(rows, keys), now)
  }

  /** How many records the import added to the ledger. */
  function AddedCount(slots: map<string, Slot>, rows: seq<Row>, keys: MappingKeys, now: string): nat {
    |ImportedLedger(slots, rows, keys, now)| - |Mapping.LoadMappings(slots)|
  }

  /** Storage after the mapping branch: the ledger written back, and the
      prefill payload when some row was not blank. */
  function AfterImport(slots: map<string, Slot>, rows: seq<Row>, keys: MappingKeys, now: string): map<string, Slot> {
    var s := slots[Mapping.MappingKey := Doc(Arr(ImportedLedger(slots, rows, keys, now)))];
    match FirstPrefill(rows, keys)
    case None => s
    case Some(c) => s[Prefill.PrefillKey := Doc(Prefill.ToJson(c))]
  }

  /** The mapping branch's writes: the ledger, then the prefill payload. */
  method StoreImport(store: LocalStorage, rows: seq<Row>, keys: MappingKeys, now: string)
    returns (added: nat, firstPrefill: Option<Prefill.Codes>)
    modifies store
    ensures store.slots == AfterImport(old(store.slots), rows, keys, now)
    ensures added == AddedCount(old(store.slots), rows, keys, now)
    ensures firstPrefill == FirstPrefill(rows, keys)
  {
    var existing := Mapping.LoadMappings(store.slots);
    var next;
    next, added, firstPrefill := ImportMappings(existing, rows, keys, now);
    store.SetItem(Mapping.MappingKey, Arr(next));
    if firstPrefill.Some? {
      store.SetItem(Prefill.PrefillKey, Prefill.ToJson(firstPrefill.value));
    }
  }

  class DashboardPage {
    var codes: seq<CodeEntry>
    var activity: seq<seq<string>>
    var ingestInfo: Option<IngestInfo>

    constructor (codes0: seq<CodeEntry>, activity0: seq<seq<string>>)
      ensures codes == codes0 && activity == activity0 && ingestInfo == None
    {
      codes := codes0;
      activity := activity0;
      ingestInfo := None;
    }

    /** `handleIngestCSV` on a file named `fileName` holding `text`. */
    method IngestCSV(store: LocalStorage, fileName: string, text: string, now: string, stamp: string)
      modifies this, store
      ensures var rows := Parsed(text);
        Classify(rows).NoRows? ==>
          && codes == old(codes) && store.slots == old(store.slots)
          && activity == [SystemRow(stamp, IngestTitle, NoRowsIn + fileName)] + old(activity)
          && ingestInfo == Some(EmptyIngest)
      ensures var rows := Parsed(text);
        Classify(rows).CodesCsv? ==>
          && codes == CodeRows(rows) + old(codes) && store.slots == old(store.slots)
          && activity == [SystemRow(stamp, IngestTitle,
               AddedText + NatToString(|CodeRows(rows)|) + CodesFrom + fileName)] + old(activity)
          && ingestInfo == Some(CodesIngest(|CodeRows(rows)|))
      ensures var rows := Parsed(text);
        Classify(rows).MappingsCsv? ==>
          var keys := Classify(rows).keys;
          var added := AddedCount(old(store.slots), rows, keys, now);
          && codes == old(codes)
          && store.slots == AfterImport(old(store.slots), rows, keys, now)
          && activity == [SystemRow(stamp, IngestTitle,
               ImportedText + NatToString(added) + MappingRowsFrom + fileName)] + old(activity)
          && ingestInfo == Some(MappingsIngest(added, FirstPrefill(rows, keys)))
      ensures var rows := Parsed(text);
        Classify(rows).UnknownCsv? ==>
          && codes == old(codes) && store.slots == old(store.slots)
          && activity == [SystemRow(stamp, IngestTitle, UnrecognizedIn + fileName)] + old(activity)
          && ingestInfo == Some(UnknownIngest)
    {
      var rows := ParseCSV(text);
      var kind := Classify(rows);
      match kind
      case NoRows =>
        activity := [SystemRow(stamp, IngestTitle, NoRowsIn + fileName)] + activity;
        ingestInfo := Some(EmptyIngest);
      case CodesCsv =>
        var toAdd := CodeRows(rows);
        codes := toAdd + codes;
        activity := [SystemRow(stamp, IngestTitle,
                      AddedText + NatToString(|toAdd|) + CodesFrom + fileName)] + activity;
        ingestInfo := Some(CodesIngest(|toAdd|));
      case MappingsCsv(keys) =>
        IngestMappings(store, rows, keys, fileName, now, stamp);
      case UnknownCsv =>
        activity := [SystemRow(stamp, IngestTitle, UnrecognizedIn + fileName)] + activity;
        ingestInfo := Some(UnknownIngest);
    }

    /** The mapping branch of `handleIngestCSV`: import the rows, then log
        how many records were added. */
    method IngestMappings(store: LocalStorage, rows: seq<Row>, keys: MappingKeys, fileName: string, now: string, stamp: string)
      modifies this, store
      ensures codes == old(codes)
      ensures store.slots == AfterImport(old(store.slots), rows, keys, now)
      ensures var added := AddedCount(old(store.slots), rows, keys, now);
        && activity == [SystemRow(stamp, IngestTitle,
             ImportedText + NatToString(added) + MappingRowsFrom + fileName)] + old(activity)
        && ingestInfo == Some(MappingsIngest(added, FirstPrefill(rows, keys)))
    {
      var added, firstPrefill := StoreImport(store, rows, keys, now);
      activity := [SystemRow(stamp, IngestTitle,
                    ImportedText + NatToString(added) + MappingRowsFrom + fileName)] + activity;
      ingestInfo := Some(MappingsIngest(added, firstPrefill));
    }

    /** `handleUploadFHIR` on a file `JSON.parse` read as `parsed` (None when
        it threw). */
    method UploadFHIR(store: LocalStorage, parsed: Option<Json>, stamp: string)
      modifies this, store
      ensures codes == old(codes)
      ensures var u := UploadResult(BundleDraft.LoadDraft(old(store.slots)), parsed);
        u.Saved? ==>
          && store.slots == old(store.slots)[BundleDraft.DraftKey := Doc(Arr(u.draft))]
          && activity == [SystemRow(stamp, "FHIR Upload", u.message)] + old(activity)
          && ingestInfo == Some(FhirIngest(u.added, u.message))
      ensures var u := UploadResult(BundleDraft.LoadDraft(old(store.slots)), parsed);
        u.Rejected? ==>
          && store.slots == old(store.slots)
          && activity == [SystemRow(stamp, "FHIR Upload", u.message)] + old(activity)
          && ingestInfo == old(ingestInfo)
    {
      var draft := BundleDraft.LoadDraft(store.slots);
      match parsed
      case None =>
        activity := [SystemRow(stamp, "FHIR Upload", "Invalid JSON")] + activity;
      case Some(json) =>
        var message := "";
        var added := 0;
        if IsType(json, "Bundle") {
          var entries := ItemsOr(Get(json, "entry"));
          var count := |entries|;
          if count > 0 {
            draft := UnshiftEntries(draft, entries);
            added := count;
          }
          message := BundleMessage(count);
        } else if IsType(json, "Condition") {
          draft := [Single("resource", json)] + draft;
          added := 1;
          message := ConditionMessage;
        } else {
          activity := [SystemRow(stamp, "FHIR Upload", "Invalid resourceType")] + activity;
          return;
        }
        store.SetItem(BundleDraft.DraftKey, Arr(draft));
        activity := [SystemRow(stamp, "FHIR Upload", message)] + activity;
        ingestInfo := Some(FhirIngest(added, message));
    }
  }
}
