/** The Mapping page: candidate destinations ranked by the lexical score, the
    ledger of approved mappings kept in storage, the prefill payload an
    approved mapping hands to the FHIR builder, and the rows shown for codes
    the language model suggests. */
module Mapping {
  import opened Wrappers
  import opened Seqs
  import opened Text
  import opened Json
  import opened Storage
  import opened Sorting
  import opened Catalog
  import opened Scorer
  import Prefill

  const MappingKey: string := "vs_mappings_v1"

  /** `loadMappings()`: [] for missing, empty, unreadable or non-array storage. */
  function LoadMappings(slots: map<string, Slot>): (r: seq<Json>)
    ensures !HoldsArray(slots, MappingKey) ==> r == []
    ensures HoldsArray(slots, MappingKey) ==> r == slots[MappingKey].value.items
  {
    LoadArray(slots, MappingKey)
  }

  // ---------------------------------------------------------------- pools

  predicate IsNamasteRow(c: CodeEntry) { Upper(c.system) == "NAMASTE" }

  /** ICD-11, TM2 or any system whose name starts with BIO, ignoring case. */
  predicate IsIcdRow(c: CodeEntry) {
    var sys := Upper(c.system);
    sys == "ICD-11" || sys == "TM2" || StartsWith(sys, "BIO")
  }

  /** The rows searched: NAMASTE rows when mapping from NAMASTE, ICD rows otherwise. */
  function SourcePool(codes: seq<CodeEntry>, fromSystem: string): (r: seq<CodeEntry>)
    ensures fromSystem == "NAMASTE" ==> forall i :: 0 <= i < |r| ==> IsNamasteRow(r[i])
    ensures fromSystem != "NAMASTE" ==> forall i :: 0 <= i < |r| ==> IsIcdRow(r[i])
    ensures forall i :: 0 <= i < |r| ==> r[i] in codes
    ensures fromSystem == "NAMASTE" ==> forall i :: 0 <= i < |codes| && IsNamasteRow(codes[i]) ==> codes[i] in r
    ensures fromSystem != "NAMASTE" ==> forall i :: 0 <= i < |codes| && IsIcdRow(codes[i]) ==> codes[i] in r
  {
    if fromSystem == "NAMASTE" then Filter(codes, IsNamasteRow) else Filter(codes, IsIcdRow)
  }

  /** The rows candidates are drawn from: the other side of the direction. */
  function DestPool(codes: seq<CodeEntry>, fromSystem: string): (r: seq<CodeEntry>)
    ensures fromSystem == "NAMASTE" ==> forall i :: 0 <= i < |r| ==> IsIcdRow(r[i])
    ensures fromSystem != "NAMASTE" ==> forall i :: 0 <= i < |r| ==> IsNamasteRow(r[i])
    ensures forall i :: 0 <= i < |r| ==> r[i] in codes
    ensures fromSystem == "NAMASTE" ==> forall i :: 0 <= i < |codes| && IsIcdRow(codes[i]) ==> codes[i] in r
    ensures fromSystem != "NAMASTE" ==> forall i :: 0 <= i < |codes| && IsNamasteRow(codes[i]) ==> codes[i] in r
  {
    if fromSystem == "NAMASTE" then Filter(codes, IsIcdRow) else Filter(codes, IsNamasteRow)
  }

  /** The pools keep the catalog's order: the pools of a concatenation are
      the concatenated pools, and a single row is in exactly the pool of its side. */
  lemma PoolsAppend(a: seq<CodeEntry>, b: seq<CodeEntry>, row: CodeEntry, fromSystem: string)
    ensures SourcePool(a + b, fromSystem) == SourcePool(a, fromSystem) + SourcePool(b, fromSystem)
    ensures DestPool(a + b, fromSystem) == DestPool(a, fromSystem) + DestPool(b, fromSystem)
    ensures SourcePool([row], fromSystem) ==
      if (if fromSystem == "NAMASTE" then IsNamasteRow(row) else IsIcdRow(row)) then [row] else []
    ensures DestPool([row], fromSystem) ==
      if (if fromSystem == "NAMASTE" then IsIcdRow(row) else IsNamasteRow(row)) then [row] else []
  {
    FilterAppend(a, b, IsNamasteRow);
    FilterAppend(a, b, IsIcdRow);
    FilterSingle(row, IsNamasteRow);
    FilterSingle(row, IsIcdRow);
  }

  /** A text whose first character is not 'B' does not start with "BIO". */
  lemma NotBio(sys: string)
    requires sys == [] || sys[0] != 'B'
    ensures !StartsWith(sys, "BIO")
  {
    if |sys| >= 3 {
      assert sys[..3][0] == sys[0];
    }
  }

  /** No row is in both pools: a NAMASTE row is never an ICD row. */
  lemma PoolsDisjoint(c: CodeEntry)
    ensures !(IsNamasteRow(c) && IsIcdRow(c))
  {
    if IsNamasteRow(c) {
      NotBio(Upper(c.system));
    }
  }

  // ------------------------------------------------------------ candidates

  datatype Candidate = Candidate(source: CodeEntry, dest: CodeEntry, score: real)
  datatype Group = Group(source: CodeEntry, candidates: seq<Candidate>)

  /** The score-descending comparator of the candidate sort: a may precede b
      when its score is not lower. */
  predicate ScoreDescLe(a: Candidate, b: Candidate) {
    a.score >= b.score
  }

  /** Every destination row scored against `s`. */
  function Scored(s: CodeEntry, dstPool: seq<CodeEntry>): (r: seq<Candidate>)
    ensures |r| == |dstPool|
    ensures forall i :: 0 <= i < |r| ==> r[i] == Candidate(s, dstPool[i], Score(s, dstPool[i]))
  {
    Map(dstPool, d => Candidate(s, d, Score(s, d)))
  }

  /** The scored destinations in the stable score-descending order of the sort. */
  function Ranked(s: CodeEntry, dstPool: seq<CodeEntry>): seq<Candidate> {
    SortBy(Scored(s, dstPool), ScoreDescLe)
  }

  lemma RankedFacts(s: CodeEntry, dstPool: seq<CodeEntry>)
    ensures var r := Ranked(s, dstPool);
      && |r| == |dstPool|
      && (forall i, j :: 0 <= i < j < |r| ==> r[i].score >= r[j].score)
      && (forall i :: 0 <= i < |r| ==> r[i].source == s && r[i].dest in dstPool && r[i].score == Score(s, r[i].dest))
      && (forall m :: 0 <= m < |dstPool| ==> Candidate(s, dstPool[m], Score(s, dstPool[m])) in r)
      && multiset(r) == multiset(Scored(s, dstPool))
  {
    assert TotalPreorder(ScoreDescLe);
    SortBySorted(Scored(s, dstPool), ScoreDescLe);
    ScoredOnly(Ranked(s, dstPool), s, dstPool);
    ScoredAll(Ranked(s, dstPool), s, dstPool);
  }

  /** A reordering of the scored rows holds only scored rows. */
  lemma ScoredOnly(r: seq<Candidate>, s: CodeEntry, dstPool: seq<CodeEntry>)
    requires multiset(r) == multiset(Scored(s, dstPool))
    ensures forall i :: 0 <= i < |r| ==> r[i].source == s && r[i].dest in dstPool && r[i].score == Score(s, r[i].dest)
  {
    forall i | 0 <= i < |r|
      ensures r[i].source == s && r[i].dest in dstPool && r[i].score == Score(s, r[i].dest)
    {
      assert r[i] in multiset(Scored(s, dstPool));
    }
  }

  /** A reordering of the scored rows holds each of them. */
  lemma ScoredAll(r: seq<Candidate>, s: CodeEntry, dstPool: seq<CodeEntry>)
    requires multiset(r) == multiset(Scored(s, dstPool))
    ensures forall m :: 0 <= m < |dstPool| ==> Candidate(s, dstPool[m], Score(s, dstPool[m])) in r
  {
    forall m | 0 <= m < |dstPool|
      ensures Candidate(s, dstPool[m], Score(s, dstPool[m])) in r
    {
      assert Scored(s, dstPool)[m] in multiset(r);
    }
  }

  /** The six best-scored destinations for `s`, best first. */
  function Candidates(s: CodeEntry, dstPool: seq<CodeEntry>): (r: seq<Candidate>)
    ensures |r| == if |dstPool| < 6 then |dstPool| else 6
    ensures forall i, j :: 0 <= i < j < |r| ==> r[i].score >= r[j].score
    ensures forall i :: 0 <= i < |r| ==> r[i].source == s && r[i].dest in dstPool && r[i].score == Score(s, r[i].dest)
    ensures multiset(r) <= multiset(Scored(s, dstPool))
  {
    RankedFacts(s, dstPool);
    TakeKeeps(Ranked(s, dstPool), s, dstPool, 6);
    TakeMultiset(Ranked(s, dstPool), 6);
    Take(Ranked(s, dstPool), 6)
  }

  function ScoreIs(v: real): Candidate -> bool {
    (c: Candidate) => c.score == v
  }

  /** The sort is stable: candidates with equal scores stay in the order
      of the destination pool. */
  lemma RankedStable(s: CodeEntry, dstPool: seq<CodeEntry>, v: real)
    ensures Filter(Ranked(s, dstPool), ScoreIs(v)) == Filter(Scored(s, dstPool), ScoreIs(v))
  {
    var y := Candidate(s, s, v);
    assert TotalPreorder(ScoreDescLe);
    SortByStable(Scored(s, dstPool), ScoreDescLe, y);
    FilterAgree(Ranked(s, dstPool), Ties(ScoreDescLe, y), ScoreIs(v));
    FilterAgree(Scored(s, dstPool), Ties(ScoreDescLe, y), ScoreIs(v));
  }

  /** Among the destinations with any one score, the six kept are the
      earliest in pool order: the kept ones of that score are a prefix of
      all of that score. */
  lemma CandidatesTies(s: CodeEntry, dstPool: seq<CodeEntry>, v: real)
    ensures var kept := Filter(Candidates(s, dstPool), ScoreIs(v));
      var all := Filter(Scored(s, dstPool), ScoreIs(v));
      |kept| <= |all| && kept == all[..|kept|]
  {
    TakeFilter(Ranked(s, dstPool), 6, ScoreIs(v));
    RankedStable(s, dstPool, v);
  }

  /** A prefix of a score-sorted list of candidates for `s` is one too. */
  lemma TakeKeeps(ranked: seq<Candidate>, s: CodeEntry, dstPool: seq<CodeEntry>, n: nat)
    requires forall i, j :: 0 <= i < j < |ranked| ==> ranked[i].score >= ranked[j].score
    requires forall i :: 0 <= i < |ranked| ==> ranked[i].source == s && ranked[i].dest in dstPool && ranked[i].score == Score(s, ranked[i].dest)
    ensures forall i, j :: 0 <= i < j < |Take(ranked, n)| ==> Take(ranked, n)[i].score >= Take(ranked, n)[j].score
    ensures forall i :: 0 <= i < |Take(ranked, n)| ==> Take(ranked, n)[i].source == s && Take(ranked, n)[i].dest in dstPool && Take(ranked, n)[i].score == Score(s, Take(ranked, n)[i].dest)
  {
    var r := Take(ranked, n);
    assert forall i :: 0 <= i < |r| ==> r[i] == ranked[i];
  }

  /** In a list sorted by descending score, a member outside the first `n`
      scores no higher than any member inside. */
  lemma TopOfSorted(ranked: seq<Candidate>, c: Candidate, n: nat)
    requires forall i, j :: 0 <= i < j < |ranked| ==> ranked[i].score >= ranked[j].score
    requires c in ranked
    ensures c in Take(ranked, n) || forall i :: 0 <= i < |Take(ranked, n)| ==> Take(ranked, n)[i].score >= c.score
  {
    var k :| 0 <= k < |ranked| && ranked[k] == c;
    var r := Take(ranked, n);
    if k < |r| {
      assert r[k] == c;
    } else {
      forall i | 0 <= i < |r|
        ensures r[i].score >= c.score
      {
        assert r[i] == ranked[i];
      }
    }
  }

  /** A destination left out of the six scores no higher than any kept one. */
  lemma CandidatesAreTop(s: CodeEntry, dstPool: seq<CodeEntry>, d: CodeEntry)
    requires d in dstPool
    ensures var r := Candidates(s, dstPool);
      Candidate(s, d, Score(s, d)) in r || forall i :: 0 <= i < |r| ==> r[i].score >= Score(s, d)
  {
    RankedFacts(s, dstPool);
    var m :| 0 <= m < |dstPool| && dstPool[m] == d;
    TopOfSorted(Ranked(s, dstPool), Candidate(s, d, Score(s, d)), 6);
  }

  /** The source row's code or term contains the lowercased query. */
  predicate QueryHits(r: CodeEntry, q: string) {
    Contains(Lower(r.code), q) || Contains(Lower(r.term), q)
  }

  /** One group per source row, each with its candidate list. */
  function GroupsOf(sources: seq<CodeEntry>, dstPool: seq<CodeEntry>): (r: seq<Group>)
    ensures |r| == |sources|
    ensures forall i :: 0 <= i < |r| ==> r[i].source == sources[i] && r[i].candidates == Candidates(sources[i], dstPool)
  {
    seq(|sources|, i requires 0 <= i < |sources| => Group(sources[i], Candidates(sources[i], dstPool)))
  }

  /** The source rows whose code or term contains `q`, in pool order. */
  function Hits(srcPool: seq<CodeEntry>, q: string): (r: seq<CodeEntry>)
    ensures forall i :: 0 <= i < |r| ==> r[i] in srcPool && QueryHits(r[i], q)
    ensures forall j :: 0 <= j < |srcPool| && QueryHits(srcPool[j], q) ==> srcPool[j] in r
  {
    Filter(srcPool, x => QueryHits(x, q))
  }

  /** The hits of two pools are the hits of the first followed by those of
      the second; with the one-row case, this pins down the pool order. */
  lemma HitsAppend(a: seq<CodeEntry>, b: seq<CodeEntry>, q: string, row: CodeEntry)
    ensures Hits(a + b, q) == Hits(a, q) + Hits(b, q)
    ensures Hits([row], q) == if QueryHits(row, q) then [row] else []
  {
    FilterAppend(a, b, x => QueryHits(x, q));
    FilterSingle(row, x => QueryHits(x, q));
  }

  /** The first 20 hits; all of them when there are fewer. */
  function FirstHits(srcPool: seq<CodeEntry>, q: string): (r: seq<CodeEntry>)
    ensures |r| == if |Hits(srcPool, q)| < 20 then |Hits(srcPool, q)| else 20
    ensures r == Hits(srcPool, q)[..|r|]
    ensures forall i :: 0 <= i < |r| ==> r[i] in srcPool && QueryHits(r[i], q)
    ensures |r| < 20 ==> forall j :: 0 <= j < |srcPool| && QueryHits(srcPool[j], q) ==> srcPool[j] in r
  {
    var hits := Hits(srcPool, q);
    var r := Take(hits, 20);
    assert forall i :: 0 <= i < |r| ==> r[i] == hits[i];
    r
  }

  /** A row among the sources has a group. */
  lemma GroupFor(sources: seq<CodeEntry>, dstPool: seq<CodeEntry>, x: CodeEntry)
    requires x in sources
    ensures exists i :: 0 <= i < |GroupsOf(sources, dstPool)| && GroupsOf(sources, dstPool)[i].source == x
  {
    var i :| 0 <= i < |sources| && sources[i] == x;
    assert GroupsOf(sources, dstPool)[i].source == x;
  }

  /** `results`: for a blank query nothing; otherwise the first 20 source rows
      the query hits, in pool order, each with its six best candidates. */
  function Results(query: string, srcPool: seq<CodeEntry>, dstPool: seq<CodeEntry>): (r: seq<Group>)
    ensures Trim(query) == "" ==> r == []
    ensures |r| <= 20
    ensures Trim(query) != "" ==> |r| == |FirstHits(srcPool, Lower(Trim(query)))|
    ensures Trim(query) != "" ==> forall i :: 0 <= i < |r| ==> r[i].source == FirstHits(srcPool, Lower(Trim(query)))[i]
    ensures forall i :: 0 <= i < |r| ==> r[i].source in srcPool && QueryHits(r[i].source, Lower(Trim(query)))
    ensures forall i :: 0 <= i < |r| ==> r[i].candidates == Candidates(r[i].source, dstPool)
    ensures Trim(query) != "" && |r| < 20 ==>
      forall j :: 0 <= j < |srcPool| && QueryHits(srcPool[j], Lower(Trim(query))) ==> exists i :: 0 <= i < |r| && r[i].source == srcPool[j]
  {
    var q := Lower(Trim(query));
    if q == "" then []
    else
      var firsts := FirstHits(srcPool, q);
      assert forall j :: 0 <= j < |srcPool| && QueryHits(srcPool[j], q) && |firsts| < 20 ==>
          exists i :: 0 <= i < |GroupsOf(firsts, dstPool)| && GroupsOf(firsts, dstPool)[i].source == srcPool[j] by {
        forall j | 0 <= j < |srcPool| && QueryHits(srcPool[j], q) && |firsts| < 20
          ensures exists i :: 0 <= i < |GroupsOf(firsts, dstPool)| && GroupsOf(firsts, dstPool)[i].source == srcPool[j]
        {
          GroupFor(firsts, dstPool, srcPool[j]);
        }
      }
      GroupsOf(firsts, dstPool)
  }

  // ---------------------------------------------------------------- ledger

  /** `${srcSystem}:${srcCode}__${dstSystem}:${dstCode}` */
  function MakeId(srcSystem: string, srcCode: string, dstSystem: string, dstCode: string): string {
    srcSystem + ":" + srcCode + "__" + dstSystem + ":" + dstCode
  }

  /** The record's `id` is the string `id`. */
  predicate HasId(x: Json, id: string) {
    Get(x, "id") == Some(Str(id))
  }

  /** The record `approveMap` stores; the score and the timestamp are inputs. */
  function ApprovedRecord(fromSystem: string, source: CodeEntry, dest: CodeEntry, score: real, createdAt: string): (r: Json)
    ensures HasId(r, MakeId(source.system, source.code, dest.system, dest.code))
    ensures Get(r, "source") == Some(Catalog.ToJson(source)) && Get(r, "dest") == Some(Catalog.ToJson(dest))
  {
    Obj(map["id" := Str(MakeId(source.system, source.code, dest.system, dest.code)),
            "fromSystem" := Str(fromSystem),
            "source" := Catalog.ToJson(source),
            "dest" := Catalog.ToJson(dest),
            "score" := Num(score),
            "createdAt" := Str(createdAt)])
  }

  /** The ledger without the records that have the id, in their order. */
  function WithoutId(xs: seq<Json>, id: string): (r: seq<Json>)
    ensures |r| <= |xs|
    ensures forall i :: 0 <= i < |r| ==> !HasId(r[i], id)
    ensures forall i :: 0 <= i < |r| ==> r[i] in xs
    ensures forall i :: 0 <= i < |xs| && !HasId(xs[i], id) ==> xs[i] in r
  {
    Filter(xs, x => !HasId(x, id))
  }

  /** Removal works record by record: on a concatenation it is the removal
      from each part, and a single record stays exactly when it lacks the id.
      So the records kept are in their old relative order. */
  lemma WithoutIdAppend(a: seq<Json>, b: seq<Json>, id: string, rec: Json)
    ensures WithoutId(a + b, id) == WithoutId(a, id) + WithoutId(b, id)
    ensures WithoutId([rec], id) == if HasId(rec, id) then [] else [rec]
  {
    FilterAppend(a, b, x => !HasId(x, id));
    FilterSingle(rec, x => !HasId(x, id));
  }

  /** Removing an id that no record has changes nothing. */
  lemma RemoveAbsent(xs: seq<Json>, id: string)
    requires forall i :: 0 <= i < |xs| ==> !HasId(xs[i], id)
    ensures WithoutId(xs, id) == xs
  {
    FilterKeepsAll(xs, x => !HasId(x, id));
  }

  /** The ledger after approving `rec` whose id is `id`: `rec` first, no other
      record with that id, the rest in their order. */
  function Approved(xs: seq<Json>, rec: Json, id: string): (r: seq<Json>)
    requires HasId(rec, id)
    ensures |r| >= 1 && r[0] == rec
    ensures r[1..] == WithoutId(xs, id)
    ensures forall i :: 1 <= i < |r| ==> !HasId(r[i], id) && r[i] in xs
    ensures forall i :: 0 <= i < |xs| && !HasId(xs[i], id) ==> xs[i] in r
  {
    [rec] + WithoutId(xs, id)
  }

  /** Approving the same pair twice leaves the ledger as approving it once. */
  lemma ApproveIdempotent(xs: seq<Json>, rec: Json, id: string)
    requires HasId(rec, id)
    ensures Approved(Approved(xs, rec, id), rec, id) == Approved(xs, rec, id)
  {
    var w := WithoutId(xs, id);
    WithoutIdCons(rec, w, id);
    RemoveAbsent(w, id);
  }

  /** A leading record with the id is dropped by the filter. */
  lemma WithoutIdCons(rec: Json, w: seq<Json>, id: string)
    requires HasId(rec, id)
    ensures WithoutId([rec] + w, id) == WithoutId(w, id)
  {
    assert ([rec] + w)[1..] == w;
  }

  /** Removing an approved id gives the ledger with that id removed. */
  lemma RemoveUndoesApprove(xs: seq<Json>, rec: Json, id: string)
    requires HasId(rec, id)
    ensures WithoutId(Approved(xs, rec, id), id) == WithoutId(xs, id)
  {
    var w := WithoutId(xs, id);
    WithoutIdCons(rec, w, id);
    RemoveAbsent(w, id);
  }

  /** The page state the ledger operations change. */
  class MappingPage {
    var fromSystem: string
    var mappings: seq<Json>

    /** Mount: the direction starts at NAMASTE and the ledger is loaded. */
    constructor (slots: map<string, Slot>)
      ensures fromSystem == "NAMASTE" && mappings == LoadMappings(slots)
    {
      fromSystem := "NAMASTE";
      mappings := LoadMappings(slots);
    }

    /** `approveMap(source, dest, score)`: the new record replaces any record
        with its id and goes first; the ledger is saved. */
    method ApproveMap(store: LocalStorage, source: CodeEntry, dest: CodeEntry, score: real, createdAt: string)
      modifies this, store
      ensures fromSystem == old(fromSystem)
      ensures var id := MakeId(source.system, source.code, dest.system, dest.code);
        mappings == Approved(old(mappings), ApprovedRecord(fromSystem, source, dest, score, createdAt), id)
      ensures store.slots == old(store.slots)[MappingKey := Doc(Arr(mappings))]
    {
      var rec := ApprovedRecord(fromSystem, source, dest, score, createdAt);
      var id := MakeId(source.system, source.code, dest.system, dest.code);
      mappings := [rec] + WithoutId(mappings, id);
      store.SetItem(MappingKey, Arr(mappings));
    }

    /** `removeMap(id)`: every record with the id goes; the ledger is saved. */
    method RemoveMap(store: LocalStorage, id: string)
      modifies this, store
      ensures fromSystem == old(fromSystem)
      ensures mappings == WithoutId(old(mappings), id)
      ensures store.slots == old(store.slots)[MappingKey := Doc(Arr(mappings))]
    {
      mappings := WithoutId(mappings, id);
      store.SetItem(MappingKey, Arr(mappings));
    }

    /** `applyToFHIR(rec)`: leave the prefill payload for the FHIR builder. */
    method ApplyToFHIR(store: LocalStorage, rec: Json)
      modifies store
      ensures store.slots == old(store.slots)[Prefill.PrefillKey := Doc(PrefillPayload(fromSystem, rec))]
    {
      store.SetItem(Prefill.PrefillKey, PrefillPayload(fromSystem, rec));
    }
  }

  // --------------------------------------------------------------- prefill

  /** `rec.<side>.<field>` */
  function SideField(rec: Json, side: string, field: string): Option<Json> {
    GetOpt(Get(rec, side), field)
  }

  function SideSystem(rec: Json, side: string): string {
    StrOr(SideField(rec, side, "system"))
  }

  /** `x || ""` for a value expected to be a code. */
  function CodeOr(v: Option<Json>): Json {
    if Truthy(v) then v.value else Str("")
  }

  /** The payload `applyToFHIR` stores. `namaste` is the source code when
      mapping from NAMASTE, else the code of the side whose system is NAMASTE;
      `tm2` the code of the side whose system is exactly "TM2", destination
      first; `biomed` the code of the side whose system starts with BIO,
      destination first. A `namaste` value that is undefined is dropped, as
      `JSON.stringify` drops it. */
  function PrefillPayload(fromSystem: string, rec: Json): (r: Json)
    ensures r.Obj? && "tm2" in r.fields && "biomed" in r.fields
  {
    var namaste :=
      if fromSystem == "NAMASTE" then SideField(rec, "source", "code")
      else if Upper(SideSystem(rec, "source")) == "NAMASTE" then SideField(rec, "source", "code")
      else if Upper(SideSystem(rec, "dest")) == "NAMASTE" then SideField(rec, "dest", "code")
      else Some(Str(""));
    var tm2 :=
      if SideField(rec, "dest", "system") == Some(Str("TM2")) then SideField(rec, "dest", "code")
      else if SideField(rec, "source", "system") == Some(Str("TM2")) then SideField(rec, "source", "code")
      else Some(Str(""));
    var biomed :=
      if StartsWith(Upper(SideSystem(rec, "dest")), "BIO") then SideField(rec, "dest", "code")
      else if StartsWith(Upper(SideSystem(rec, "source")), "BIO") then SideField(rec, "source", "code")
      else Some(Str(""));
    var base := map["tm2" := CodeOr(tm2), "biomed" := CodeOr(biomed)];
    Obj(if namaste.Some? then base["namaste" := namaste.value] else base)
  }

  /** `{ source, dest: d }`: the record the candidate table's "Apply to
      FHIR" button passes. */
  function CandidateRecord(source: CodeEntry, dest: CodeEntry): (r: Json)
    ensures Get(r, "source") == Some(Catalog.ToJson(source)) && Get(r, "dest") == Some(Catalog.ToJson(dest))
  {
    Obj(map["source" := Catalog.ToJson(source), "dest" := Catalog.ToJson(dest)])
  }

  lemma UpperNamaste()
    ensures Upper("NAMASTE") == "NAMASTE" && Upper("TM2") == "TM2" && Upper("BIO") == "BIO"
  {
  }

  /** Applying a NAMASTE to TM2 candidate prefills the builder with the
      NAMASTE code and the TM2 code. */
  lemma ApplyNamasteToTm2(source: CodeEntry, dest: CodeEntry)
    requires source.system == "NAMASTE" && dest.system == "TM2"
    ensures Prefill.FromJson(PrefillPayload("NAMASTE", CandidateRecord(source, dest)))
      == Prefill.Codes(source.code, dest.code, "")
  {
    var rec := CandidateRecord(source, dest);
    UpperNamaste();
    assert SideField(rec, "dest", "system") == Some(Str("TM2"));
    assert SideSystem(rec, "dest") == "TM2" && SideSystem(rec, "source") == "NAMASTE";
    NotBio("TM2");
    NotBio("NAMASTE");
  }

  /** Applying a NAMASTE to BIO candidate prefills the builder with the
      NAMASTE code and the biomedicine code. */
  lemma ApplyNamasteToBio(source: CodeEntry, dest: CodeEntry)
    requires source.system == "NAMASTE" && dest.system == "BIO"
    ensures Prefill.FromJson(PrefillPayload("NAMASTE", CandidateRecord(source, dest)))
      == Prefill.Codes(source.code, "", dest.code)
  {
    var rec := CandidateRecord(source, dest);
    UpperNamaste();
    assert SideSystem(rec, "dest") == "BIO" && SideSystem(rec, "source") == "NAMASTE";
    assert StartsWith("BIO", "BIO");
    NotBio("NAMASTE");
  }

  /** Applying a TM2 to NAMASTE candidate in the reverse direction prefills
      the builder with the NAMASTE code taken from the destination. */
  lemma ApplyTm2ToNamaste(source: CodeEntry, dest: CodeEntry, fromSystem: string)
    requires fromSystem != "NAMASTE" && source.system == "TM2" && dest.system == "NAMASTE"
    ensures Prefill.FromJson(PrefillPayload(fromSystem, CandidateRecord(source, dest)))
      == Prefill.Codes(dest.code, source.code, "")
  {
    var rec := CandidateRecord(source, dest);
    UpperNamaste();
    assert SideSystem(rec, "dest") == "NAMASTE" && SideSystem(rec, "source") == "TM2";
    assert SideField(rec, "dest", "system") == Some(Str("NAMASTE"));
    assert SideField(rec, "source", "system") == Some(Str("TM2"));
    NotBio("TM2");
    NotBio("NAMASTE");
  }

  // ------------------------------------------------------------ AI results

  datatype AiRows = AiRows(namaste: seq<CodeEntry>, tm2: seq<CodeEntry>, biomed: seq<CodeEntry>, icd11: seq<CodeEntry>)

  /** The model's answer normalised (a list that is not an array is empty)
      and each list resolved against the catalog, six codes at most. */
  function AiResults(codes: seq<CodeEntry>, raw: Option<Json>): (r: AiRows)
    ensures |r.namaste| <= 6 && |r.tm2| <= 6 && |r.biomed| <= 6 && |r.icd11| <= 6
    ensures forall i :: 0 <= i < |r.tm2| ==> Upper(r.tm2[i].system) == "TM2"
    ensures forall i :: 0 <= i < |r.biomed| ==> Upper(r.biomed[i].system) == "BIO"
    ensures forall i :: 0 <= i < |r.namaste| ==> Upper(r.namaste[i].system) == "NAMASTE"
    ensures forall i :: 0 <= i < |r.icd11| ==> Upper(r.icd11[i].system) == "ICD-11"
  {
    UpperNamaste();
    assert Upper("ICD-11") == "ICD-11";
    AiRows(Pack(codes, GetOpt(raw, "namaste"), "NAMASTE"),
           Pack(codes, GetOpt(raw, "tm2"), "TM2"),
           Pack(codes, GetOpt(raw, "biomed"), "BIO"),
           Pack(codes, GetOpt(raw, "icd11"), "ICD-11"))
  }
}
