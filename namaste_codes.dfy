/** The NAMASTE Codes page: the searchable code table, the list of rows the
    user selects, the heuristic TM2 and biomedicine suggestions for a code,
    the audit record of "insert both", and the language model's code lists
    resolved against the catalog. */
module NamasteCodes {
  import opened Wrappers
  import opened Seqs
  import opened Text
  import opened Json
  import opened Storage
  import opened Sorting
  import opened Catalog
  import Audit

  // ---------------------------------------------------------------- table

  /** The system filter: "All", or the row's system equal ignoring case. */
  predicate SystemPasses(c: CodeEntry, systemFilter: string) {
    systemFilter == "All" || Lower(c.system) == Lower(systemFilter)
  }

  /** `${c.code} ${c.term} ${c.system}`, lowercased. */
  function Hay(c: CodeEntry): string {
    Lower(c.code + " " + c.term + " " + c.system)
  }

  predicate QueryPasses(c: CodeEntry, q: string) {
    q == "" || Contains(Hay(c), q)
  }

  /** The rows that pass the system filter and then the query, in catalog
      order. */
  function Passing(codes: seq<CodeEntry>, systemFilter: string, q: string): (r: seq<CodeEntry>)
    ensures forall i :: 0 <= i < |r| ==>
      r[i] in codes && SystemPasses(r[i], systemFilter) && QueryPasses(r[i], q)
    ensures forall i :: 0 <= i < |codes| ==>
      (SystemPasses(codes[i], systemFilter) && QueryPasses(codes[i], q) ==> codes[i] in r)
  {
    var bySystem := Filter(codes, (c: CodeEntry) => SystemPasses(c, systemFilter));
    var byQuery := Filter(bySystem, (c: CodeEntry) => QueryPasses(c, q));
    assert forall i :: 0 <= i < |byQuery| ==> byQuery[i] in bySystem;
    byQuery
  }

  /** The filters work row by row: on a concatenation of catalogs they keep
      the passing rows of the first, then those of the second, and a single
      row is kept exactly when it passes. So the rows kept stay in catalog
      order. */
  lemma PassingAppend(a: seq<CodeEntry>, b: seq<CodeEntry>, systemFilter: string, q: string, row: CodeEntry)
    ensures Passing(a + b, systemFilter, q) == Passing(a, systemFilter, q) + Passing(b, systemFilter, q)
    ensures Passing([row], systemFilter, q) ==
      if SystemPasses(row, systemFilter) && QueryPasses(row, q) then [row] else []
  {
    var sys := (c: CodeEntry) => SystemPasses(c, systemFilter);
    var qry := (c: CodeEntry) => QueryPasses(c, q);
    FilterAppend(a, b, sys);
    FilterAppend(Filter(a, sys), Filter(b, sys), qry);
    FilterSingle(row, sys);
    FilterSingle(row, qry);
    assert Filter([], qry) == [];
  }

  /** `filtered`: the first 200 rows that pass the system filter and contain
      the trimmed lowercased query, in catalog order. */
  function Filtered(codes: seq<CodeEntry>, systemFilter: string, query: string): (r: seq<CodeEntry>)
    ensures var all := Passing(codes, systemFilter, Lower(Trim(query)));
      |r| == (if |all| < 200 then |all| else 200) && r == all[..|r|]
    ensures forall i :: 0 <= i < |r| ==>
      r[i] in codes && SystemPasses(r[i], systemFilter) && QueryPasses(r[i], Lower(Trim(query)))
    ensures |r| < 200 ==> forall i :: 0 <= i < |codes| ==>
      (SystemPasses(codes[i], systemFilter) && QueryPasses(codes[i], Lower(Trim(query))) ==> codes[i] in r)
  {
    var all := Passing(codes, systemFilter, Lower(Trim(query)));
    var r := Take(all, 200);
    assert forall i :: 0 <= i < |r| ==> r[i] == all[i];
    r
  }

  /** The haystack's lowercasing is the lowercasing of each part. */
  lemma HayParts(c: CodeEntry)
    ensures Hay(c) == Lower(c.code) + " " + Lower(c.term) + " " + Lower(c.system)
  {
    LowerConcat(c.code + " " + c.term, c.system);
    LowerConcat(c.code + " ", c.term);
    LowerConcat(c.code, " ");
    LowerConcat(c.code + " " + c.term, " ");
    assert Lower(" ") == " ";
  }

  /** A query contained in the lowercased code finds the row. */
  lemma CodeQueryFinds(c: CodeEntry, q: string)
    requires Contains(Lower(c.code), q)
    ensures QueryPasses(c, q)
  {
    HayParts(c);
    ContainsPrefix(Lower(c.code), " " + Lower(c.term) + " " + Lower(c.system), q);
    assert Lower(c.code) + (" " + Lower(c.term) + " " + Lower(c.system)) == Hay(c);
  }

  lemma {:induction false} ContainsPrefix(a: string, b: string, q: string)
    requires Contains(a, q)
    ensures Contains(a + b, q)
  {
    if StartsWith(a, q) {
      assert (a + b)[..|q|] == a[..|q|];
    } else {
      ContainsPrefix(a[1..], b, q);
      assert (a + b)[1..] == a[1..] + b;
    }
  }

  // ---------------------------------------------------------------- selection

  /** A selected row: `{ id, ...row }`. */
  datatype Selected = Selected(id: string, entry: CodeEntry)

  /** `${row.system}:${row.code}` */
  function RowId(c: CodeEntry): string {
    c.system + ":" + c.code
  }

  predicate HasSelectedId(xs: seq<Selected>, id: string) {
    exists i :: 0 <= i < |xs| && xs[i].id == id
  }

  predicate UniqueIds(xs: seq<Selected>) {
    forall i, j :: 0 <= i < j < |xs| ==> xs[i].id != xs[j].id
  }

  /** `handleAddRow`: the row goes at the end unless its id is selected. */
  function AddRow(xs: seq<Selected>, row: CodeEntry): (r: seq<Selected>)
    ensures HasSelectedId(r, RowId(row))
    ensures HasSelectedId(xs, RowId(row)) ==> r == xs
    ensures !HasSelectedId(xs, RowId(row)) ==> r == xs + [Selected(RowId(row), row)]
  {
    if HasSelectedId(xs, RowId(row)) then xs
    else
      var r := xs + [Selected(RowId(row), row)];
      assert r[|xs|].id == RowId(row);
      r
  }

  /** Adding never creates two selected rows with the same id. */
  lemma AddRowUnique(xs: seq<Selected>, row: CodeEntry)
    requires UniqueIds(xs)
    ensures UniqueIds(AddRow(xs, row))
  {
    var r := AddRow(xs, row);
    if r != xs {
      forall i, j | 0 <= i < j < |r|
        ensures r[i].id != r[j].id
      {
        if j == |xs| {
          assert r[i] == xs[i];
        }
      }
    }
  }

  /** Adding the same row twice adds it once. */
  lemma AddRowTwice(xs: seq<Selected>, row: CodeEntry)
    ensures AddRow(AddRow(xs, row), row) == AddRow(xs, row)
  {
  }

  /** `removeRow`: the entries with a different id, in their order. */
  function RemoveRow(xs: seq<Selected>, id: string): (r: seq<Selected>)
    ensures !HasSelectedId(r, id)
    ensures forall i :: 0 <= i < |xs| && xs[i].id != id ==> xs[i] in r
    ensures forall i :: 0 <= i < |r| ==> r[i] in xs
  {
    Filter(xs, (s: Selected) => s.id != id)
  }

  /** Removal works entry by entry: on a concatenation it is the removal from
      each part, and one entry stays exactly when its id differs. So the
      remaining entries keep their order. */
  lemma RemoveRowAppend(a: seq<Selected>, b: seq<Selected>, id: string, x: Selected)
    ensures RemoveRow(a + b, id) == RemoveRow(a, id) + RemoveRow(b, id)
    ensures RemoveRow([x], id) == if x.id != id then [x] else []
  {
    FilterAppend(a, b, (s: Selected) => s.id != id);
    FilterSingle(x, (s: Selected) => s.id != id);
  }

  /** Removing a row just added gives back the selection before the add. */
  lemma RemoveUndoesAdd(xs: seq<Selected>, row: CodeEntry)
    requires !HasSelectedId(xs, RowId(row))
    ensures RemoveRow(AddRow(xs, row), RowId(row)) == xs
  {
    var id := RowId(row);
    FilterAppend(xs, [Selected(id, row)], (s: Selected) => s.id != id);
    FilterKeepsAll(xs, (s: Selected) => s.id != id);
    assert Filter([Selected(id, row)], (s: Selected) => s.id != id) == [];
    assert xs + [] == xs;
  }

  /** Removing keeps the ids of the selection distinct. */
  lemma {:induction false} RemoveRowUnique(xs: seq<Selected>, id: string)
    requires UniqueIds(xs)
    ensures UniqueIds(RemoveRow(xs, id))
  {
    if xs != [] {
      RemoveRowUnique(xs[1..], id);
      var rest := RemoveRow(xs[1..], id);
      if xs[0].id != id {
        forall k | 0 <= k < |rest|
          ensures rest[k].id != xs[0].id
        {
          var m :| 0 <= m < |xs[1..]| && xs[1..][m] == rest[k];
          assert xs[m + 1] == rest[k];
        }
        ConsUnique(xs[0], rest);
        assert RemoveRow(xs, id) == [xs[0]] + rest;
      } else {
        assert RemoveRow(xs, id) == rest;
      }
    }
  }

  /** A row whose id is new, put in front of rows with distinct ids. */
  lemma ConsUnique(x: Selected, rest: seq<Selected>)
    requires UniqueIds(rest)
    requires forall k :: 0 <= k < |rest| ==> rest[k].id != x.id
    ensures UniqueIds([x] + rest)
  {
    var r := [x] + rest;
    forall i, j | 0 <= i < j < |r|
      ensures r[i].id != r[j].id
    {
      assert r[j] == rest[j - 1];
      if i > 0 {
        assert r[i] == rest[i - 1];
      }
    }
  }

  // ---------------------------------------------------------------- suggestions

  /** `matchScore(term)` against the lowercased pivot term. */
  function MatchScore(pivot: string, term: string): (s: nat)
    ensures s <= 3
    ensures s == 3 <==> pivot != "" && Lower(term) == pivot
    ensures s == 2 <==> pivot != "" && Lower(term) != pivot && Contains(Lower(term), pivot)
    ensures s == 1 <==> pivot != "" && !Contains(Lower(term), pivot) && Contains(pivot, Lower(term))
  {
    if pivot == "" then 0
    else
      var t := Lower(term);
      if t == pivot then 3
      else if Contains(t, pivot) then 2
      else if Contains(pivot, t) then 1
      else 0
  }

  /** A score of 2 means a longer term than the pivot (narrower), a score of
      1 a shorter one (broader). */
  lemma MatchScoreLength(pivot: string, term: string)
    ensures MatchScore(pivot, term) == 2 ==> |Lower(term)| > |pivot|
    ensures MatchScore(pivot, term) == 1 ==> |Lower(term)| < |pivot|
  {
    var t := Lower(term);
    if MatchScore(pivot, term) == 2 {
      ContainsLength(t, pivot);
      if |t| == |pivot| {
        ContainsSameLength(t, pivot);
      }
    } else if MatchScore(pivot, term) == 1 {
      ContainsLength(pivot, t);
      if |t| == |pivot| {
        ContainsSameLength(pivot, t);
      }
      ContainsSelf(t);
    }
  }

  datatype MatchMode = Exact | Narrow | Broad | Related

  /** `markMode(score)` */
  function MarkMode(score: nat): (m: MatchMode)
    ensures m == Exact <==> score >= 3
    ensures m == Narrow <==> score == 2
    ensures m == Broad <==> score == 1
  {
    if score >= 3 then Exact
    else if score == 2 then Narrow
    else if score == 1 then Broad
    else Related
  }

  /** `baseSet`: every row for a blank code, otherwise the rows whose code
      contains it, ignoring case. */
  function BaseSet(codes: seq<CodeEntry>, txCode: string): (r: seq<CodeEntry>)
    ensures forall i :: 0 <= i < |r| ==> r[i] in codes
    ensures forall i :: 0 <= i < |r| ==> Trim(txCode) == "" || Contains(Lower(r[i].code), Lower(Trim(txCode)))
    ensures forall i :: 0 <= i < |codes| && Contains(Lower(codes[i].code), Lower(Trim(txCode))) ==> codes[i] in r
    ensures Trim(txCode) == "" ==> r == codes
  {
    var code := Trim(txCode);
    var r := Filter(codes, (c: CodeEntry) => code == "" || Contains(Lower(c.code), Lower(code)));
    if code == "" then
      FilterKeepsAll(codes, (c: CodeEntry) => code == "" || Contains(Lower(c.code), Lower(code)));
      r
    else r
  }

  /** The row's code is `code`, ignoring case. */
  predicate CodeIs(c: CodeEntry, code: string) {
    Lower(c.code) == Lower(code)
  }

  /** `pivotTerm`: the term of the first row whose code is the trimmed code
      (ignoring case), or else the query as typed, lowercased. */
  function PivotTerm(codes: seq<CodeEntry>, txCode: string, query: string): (p: string)
    ensures forall i :: (0 <= i < |codes| && CodeIs(codes[i], Trim(txCode))
                         && forall j :: 0 <= j < i ==> !CodeIs(codes[j], Trim(txCode))) ==>
      p == if codes[i].term != "" then Lower(codes[i].term) else Lower(query)
    ensures (forall i :: 0 <= i < |codes| ==> !CodeIs(codes[i], Trim(txCode))) ==> p == Lower(query)
  {
    var code := Trim(txCode);
    var found := Find(codes, (c: CodeEntry) => CodeIs(c, code));
    if found.Some? && found.value.term != "" then Lower(found.value.term) else Lower(query)
  }

  datatype Scored = Scored(entry: CodeEntry, score: nat)
  datatype Suggestion = Suggestion(entry: CodeEntry, score: nat, mode: MatchMode)

  /** The comparator of the suggestion sort:
      higher scores first, equal scores in the locale order of the terms. */
  function SuggestLe(localeLe: (string, string) -> bool): (Scored, Scored) -> bool {
    (a: Scored, b: Scored) => a.score > b.score || (a.score == b.score && localeLe(a.entry.term, b.entry.term))
  }

  lemma SuggestLePreorder(localeLe: (string, string) -> bool)
    requires TotalPreorder(localeLe)
    ensures TotalPreorder(SuggestLe(localeLe))
  {
    var le := SuggestLe(localeLe);
    forall a: Scored, b: Scored
      ensures le(a, b) || le(b, a)
    {
      assert localeLe(a.entry.term, b.entry.term) || localeLe(b.entry.term, a.entry.term);
    }
    forall a: Scored, b: Scored, c: Scored | le(a, b) && le(b, c)
      ensures le(a, c)
    {
      if a.score == b.score == c.score {
        assert localeLe(a.entry.term, b.entry.term) && localeLe(b.entry.term, c.entry.term);
      }
    }
  }

  function ScoredOf(cands: seq<CodeEntry>, pivot: string): (r: seq<Scored>)
    ensures |r| == |cands|
    ensures forall i :: 0 <= i < |r| ==> r[i] == Scored(cands[i], MatchScore(pivot, cands[i].term))
  {
    Map(cands, (c: CodeEntry) => Scored(c, MatchScore(pivot, c.term)))
  }

  function Ranked(cands: seq<CodeEntry>, pivot: string, localeLe: (string, string) -> bool): seq<Scored> {
    SortBy(ScoredOf(cands, pivot), SuggestLe(localeLe))
  }

  /** Every ranked row is a candidate with its score. */
  lemma RankedMembers(cands: seq<CodeEntry>, pivot: string, localeLe: (string, string) -> bool)
    ensures forall x :: x in Ranked(cands, pivot, localeLe) ==>
      x.entry in cands && x.score == MatchScore(pivot, x.entry.term)
    ensures forall c :: c in cands ==> Scored(c, MatchScore(pivot, c.term)) in Ranked(cands, pivot, localeLe)
    ensures multiset(Ranked(cands, pivot, localeLe)) == multiset(ScoredOf(cands, pivot))
  {
    var scored := ScoredOf(cands, pivot);
    var ranked := Ranked(cands, pivot, localeLe);
    assert multiset(ranked) == multiset(scored);
    forall x | x in ranked
      ensures x.entry in cands && x.score == MatchScore(pivot, x.entry.term)
    {
      assert x in multiset(scored);
      var k :| 0 <= k < |scored| && scored[k] == x;
    }
    forall c | c in cands
      ensures Scored(c, MatchScore(pivot, c.term)) in ranked
    {
      var k :| 0 <= k < |cands| && cands[k] == c;
      assert scored[k] in multiset(ranked);
    }
  }

  function ToSuggestion(x: Scored): Suggestion {
    Suggestion(x.entry, x.score, MarkMode(x.score))
  }

  function ScoredEntry(x: Scored): CodeEntry { x.entry }

  function SuggestionEntry(x: Suggestion): CodeEntry { x.entry }

  /** The first `n` ranked rows repeat no candidate more often than the
      candidate list holds it. */
  lemma TopEntries(cands: seq<CodeEntry>, pivot: string, n: nat, localeLe: (string, string) -> bool)
    ensures multiset(Map(Map(Take(Ranked(cands, pivot, localeLe), n), ToSuggestion), SuggestionEntry)) <= multiset(cands)
  {
    var scored := ScoredOf(cands, pivot);
    var top := Take(Ranked(cands, pivot, localeLe), n);
    RankedMembers(cands, pivot, localeLe);
    TakeMultiset(Ranked(cands, pivot, localeLe), n);
    MapMultisetLe(top, scored, ScoredEntry);
    assert Map(scored, ScoredEntry) == cands;
    assert Map(Map(top, ToSuggestion), SuggestionEntry) == Map(top, ScoredEntry);
  }

  /** The first `n` candidates in the comparator's order, with their modes. */
  function Suggest(cands: seq<CodeEntry>, pivot: string, n: nat, localeLe: (string, string) -> bool): (r: seq<Suggestion>)
    ensures |r| == if |cands| < n then |cands| else n
    ensures forall i :: 0 <= i < |r| ==> r[i].entry in cands
    ensures forall i :: 0 <= i < |r| ==> r[i].score == MatchScore(pivot, r[i].entry.term) && r[i].mode == MarkMode(r[i].score)
    ensures multiset(Map(r, SuggestionEntry)) <= multiset(cands)
  {
    RankedMembers(cands, pivot, localeLe);
    TopEntries(cands, pivot, n, localeLe);
    var top := Take(Ranked(cands, pivot, localeLe), n);
    assert forall i :: 0 <= i < |top| ==> top[i] in Ranked(cands, pivot, localeLe);
    Map(top, ToSuggestion)
  }

  /** Suggestions come highest score first, equal scores in term order. */
  lemma SuggestSorted(cands: seq<CodeEntry>, pivot: string, n: nat, localeLe: (string, string) -> bool)
    requires TotalPreorder(localeLe)
    ensures var r := Suggest(cands, pivot, n, localeLe);
      forall i, j :: 0 <= i < j < |r| ==>
        r[i].score > r[j].score || (r[i].score == r[j].score && localeLe(r[i].entry.term, r[j].entry.term))
  {
    SuggestLePreorder(localeLe);
    SortBySorted(ScoredOf(cands, pivot), SuggestLe(localeLe));
    var ranked := Ranked(cands, pivot, localeLe);
    var top := Take(ranked, n);
    forall i, j | 0 <= i < j < |top|
      ensures SuggestLe(localeLe)(top[i], top[j])
    {
      assert top[i] == ranked[i] && top[j] == ranked[j];
    }
  }

  /** A candidate left out of the suggestions scores no higher than any
      suggestion kept, and on an equal score its term does not come first. */
  lemma SuggestTop(cands: seq<CodeEntry>, pivot: string, n: nat, localeLe: (string, string) -> bool, c: CodeEntry)
    requires TotalPreorder(localeLe) && c in cands
    ensures var r := Suggest(cands, pivot, n, localeLe);
      (exists i :: 0 <= i < |r| && r[i].entry == c) ||
      forall i :: 0 <= i < |r| ==>
        r[i].score >= MatchScore(pivot, c.term) &&
        SuggestLe(localeLe)(Scored(r[i].entry, r[i].score), Scored(c, MatchScore(pivot, c.term)))
  {
    SuggestLePreorder(localeLe);
    SortBySorted(ScoredOf(cands, pivot), SuggestLe(localeLe));
    RankedMembers(cands, pivot, localeLe);
    var ranked := Ranked(cands, pivot, localeLe);
    var x := Scored(c, MatchScore(pivot, c.term));
    var m := if n < |ranked| then n else |ranked|;
    TopOf(ranked, SuggestLe(localeLe), x, m);
    var r := Suggest(cands, pivot, n, localeLe);
    assert Take(ranked, n) == ranked[..m];
    if x in ranked[..m] {
      var i :| 0 <= i < m && ranked[..m][i] == x;
      assert r[i].entry == c;
    } else {
      forall i | 0 <= i < |r|
        ensures r[i].score >= MatchScore(pivot, c.term)
        ensures SuggestLe(localeLe)(Scored(r[i].entry, r[i].score), x)
      {
        assert SuggestLe(localeLe)(ranked[i], x);
        assert Scored(r[i].entry, r[i].score) == ranked[i];
      }
    }
  }

  /** The sort is stable: rows the comparator ties (equal score and terms
      the locale order cannot tell apart) keep their order, and the first
      `n` rows keep the earliest of them. */
  lemma SuggestStable(cands: seq<CodeEntry>, pivot: string, n: nat, localeLe: (string, string) -> bool, y: Scored)
    requires TotalPreorder(localeLe)
    ensures var tie := Ties(SuggestLe(localeLe), y);
      && Filter(Ranked(cands, pivot, localeLe), tie) == Filter(ScoredOf(cands, pivot), tie)
      && var kept := Filter(Take(Ranked(cands, pivot, localeLe), n), tie);
        |kept| <= |Filter(ScoredOf(cands, pivot), tie)| && kept == Filter(ScoredOf(cands, pivot), tie)[..|kept|]
  {
    SuggestLePreorder(localeLe);
    SortByStable(ScoredOf(cands, pivot), SuggestLe(localeLe), y);
    TakeFilter(Ranked(cands, pivot, localeLe), n, Ties(SuggestLe(localeLe), y));
  }

  predicate IsTm2(c: CodeEntry) { c.system == "TM2" }

  predicate IsBio(c: CodeEntry) { StartsWith(Upper(c.system), "BIO") }

  /** `suggestions.tm2`: the four best-scored TM2 rows (system exactly "TM2")
      of the base set, all of them when there are fewer. */
  function Tm2Suggestions(codes: seq<CodeEntry>, txCode: string, query: string, localeLe: (string, string) -> bool): (r: seq<Suggestion>)
    ensures var n := Count(BaseSet(codes, txCode), IsTm2); |r| == if n < 4 then n else 4
    ensures forall i :: 0 <= i < |r| ==> r[i].entry in BaseSet(codes, txCode) && r[i].entry.system == "TM2"
    ensures forall i :: 0 <= i < |r| ==>
      r[i].score == MatchScore(PivotTerm(codes, txCode, query), r[i].entry.term) && r[i].mode == MarkMode(r[i].score)
    ensures multiset(Map(r, SuggestionEntry)) <= multiset(Filter(BaseSet(codes, txCode), IsTm2))
  {
    var base := BaseSet(codes, txCode);
    var cands := Filter(base, IsTm2);
    Suggest(cands, PivotTerm(codes, txCode, query), 4, localeLe)
  }

  /** A TM2 row of the base set that is not suggested scores no higher than
      any suggested one, and on an equal score its term does not come first. */
  lemma Tm2SuggestionsTop(codes: seq<CodeEntry>, txCode: string, query: string, localeLe: (string, string) -> bool, c: CodeEntry)
    requires TotalPreorder(localeLe) && c in BaseSet(codes, txCode) && IsTm2(c)
    ensures var r := Tm2Suggestions(codes, txCode, query, localeLe);
      (exists i :: 0 <= i < |r| && r[i].entry == c) ||
      forall i :: 0 <= i < |r| ==>
        r[i].score >= MatchScore(PivotTerm(codes, txCode, query), c.term) &&
        SuggestLe(localeLe)(Scored(r[i].entry, r[i].score), Scored(c, MatchScore(PivotTerm(codes, txCode, query), c.term)))
  {
    var base := BaseSet(codes, txCode);
    var k :| 0 <= k < |base| && base[k] == c;
    SuggestTop(Filter(base, IsTm2), PivotTerm(codes, txCode, query), 4, localeLe, c);
  }

  /** `suggestions.bio`: the six best-scored rows of the base set whose
      system starts with BIO in upper case, all of them when there are fewer. */
  function BioSuggestions(codes: seq<CodeEntry>, txCode: string, query: string, localeLe: (string, string) -> bool): (r: seq<Suggestion>)
    ensures var n := Count(BaseSet(codes, txCode), IsBio); |r| == if n < 6 then n else 6
    ensures forall i :: 0 <= i < |r| ==> r[i].entry in BaseSet(codes, txCode) && IsBio(r[i].entry)
    ensures forall i :: 0 <= i < |r| ==>
      r[i].score == MatchScore(PivotTerm(codes, txCode, query), r[i].entry.term) && r[i].mode == MarkMode(r[i].score)
    ensures multiset(Map(r, SuggestionEntry)) <= multiset(Filter(BaseSet(codes, txCode), IsBio))
  {
    var base := BaseSet(codes, txCode);
    var cands := Filter(base, IsBio);
    Suggest(cands, PivotTerm(codes, txCode, query), 6, localeLe)
  }

  /** A BIO row of the base set that is not suggested scores no higher than
      any suggested one, and on an equal score its term does not come first. */
  lemma BioSuggestionsTop(codes: seq<CodeEntry>, txCode: string, query: string, localeLe: (string, string) -> bool, c: CodeEntry)
    requires TotalPreorder(localeLe) && c in BaseSet(codes, txCode) && IsBio(c)
    ensures var r := BioSuggestions(codes, txCode, query, localeLe);
      (exists i :: 0 <= i < |r| && r[i].entry == c) ||
      forall i :: 0 <= i < |r| ==>
        r[i].score >= MatchScore(PivotTerm(codes, txCode, query), c.term) &&
        SuggestLe(localeLe)(Scored(r[i].entry, r[i].score), Scored(c, MatchScore(PivotTerm(codes, txCode, query), c.term)))
  {
    var base := BaseSet(codes, txCode);
    var k :| 0 <= k < |base| && base[k] == c;
    SuggestTop(Filter(base, IsBio), PivotTerm(codes, txCode, query), 6, localeLe, c);
  }

  // ---------------------------------------------------------------- AI lists

  /** The text `runAIMapping` asks about: the first non-blank of the AI
      input, the code box and the search box, trimmed; none when all three
      are blank and the request is not made. */
  function AiQuery(aiInput: string, txCode: string, query: string): (r: Option<string>)
    ensures r.None? <==> Trim(aiInput) == "" && Trim(txCode) == "" && Trim(query) == ""
    ensures r.Some? ==> r.value != "" && (r.value == Trim(aiInput) || r.value == Trim(txCode) || r.value == Trim(query))
    ensures Trim(aiInput) != "" ==> r == Some(Trim(aiInput))
    ensures Trim(aiInput) == "" && Trim(txCode) != "" ==> r == Some(Trim(txCode))
    ensures Trim(aiInput) == "" && Trim(txCode) == "" && Trim(query) != "" ==> r == Some(Trim(query))
  {
    if Trim(aiInput) != "" then Some(Trim(aiInput))
    else if Trim(txCode) != "" then Some(Trim(txCode))
    else if Trim(query) != "" then Some(Trim(query))
    else None
  }

  /** `slice(0, 6)` keeps this many items of a list of `n`. */
  function Min6(n: nat): nat {
    if n < 6 then n else 6
  }

  datatype AiLists = AiLists(namaste: seq<CodeEntry>, tm2: seq<CodeEntry>, biomed: seq<CodeEntry>)

  /** `ai`: the three lists of the model's answer, each resolved by `pack`. */
  function AiPack(codes: seq<CodeEntry>, out: Option<Json>): (r: AiLists)
    ensures |r.namaste| == Min6(|ItemsOr(GetOpt(out, "namaste"))|)
    ensures |r.tm2| == Min6(|ItemsOr(GetOpt(out, "tm2"))|)
    ensures |r.biomed| == Min6(|ItemsOr(GetOpt(out, "biomed"))|)
    ensures forall i :: 0 <= i < |r.namaste| ==> r.namaste[i] == Resolve(codes, "NAMASTE", AsText(ItemsOr(GetOpt(out, "namaste"))[i]))
    ensures forall i :: 0 <= i < |r.tm2| ==> r.tm2[i] == Resolve(codes, "TM2", AsText(ItemsOr(GetOpt(out, "tm2"))[i]))
    ensures forall i :: 0 <= i < |r.biomed| ==> r.biomed[i] == Resolve(codes, "BIO", AsText(ItemsOr(GetOpt(out, "biomed"))[i]))
  {
    AiLists(Pack(codes, GetOpt(out, "namaste"), "NAMASTE"),
            Pack(codes, GetOpt(out, "tm2"), "TM2"),
            Pack(codes, GetOpt(out, "biomed"), "BIO"))
  }

  // ---------------------------------------------------------------- page actions

  /** `${a.system}:${a.code} + ${b.system}:${b.code} → Condition` */
  function InsertDetails(a: Selected, b: Selected): string {
    a.entry.system + ":" + a.entry.code + " + " + b.entry.system + ":" + b.entry.code + " → Condition"
  }

  /** `${row.system}:${row.code} — ${row.term}` */
  function RowDetails(row: CodeEntry): string {
    row.system + ":" + row.code + " — " + row.term
  }

  /** The lookup of a selected row by id finds one exactly when the id is
      selected. */
  lemma FindSelected(xs: seq<Selected>, id: string)
    ensures Find(xs, (s: Selected) => s.id == id).Some? <==> HasSelectedId(xs, id)
  {
    var f := Find(xs, (s: Selected) => s.id == id);
    if f.Some? {
      var k :| 0 <= k < |xs| && xs[k] == f.value;
    }
  }

  /** The selection the page keeps; the audit log lives in the storage
      passed to each action, and the clock is an input. */
  class NamastePage {
    var selected: seq<Selected>

    constructor ()
      ensures selected == []
    {
      selected := [];
    }

    /** `handleAddRow`: a row not yet selected is appended and audited as
        "Add Code"; a selected one changes nothing. */
    method HandleAddRow(store: LocalStorage, row: CodeEntry, timestamp: string)
      modifies this, store
      ensures selected == AddRow(old(selected), row)
      ensures UniqueIds(old(selected)) ==> UniqueIds(selected)
      ensures HasSelectedId(old(selected), RowId(row)) ==> store.slots == old(store.slots)
      ensures !HasSelectedId(old(selected), RowId(row)) ==>
        store.slots == old(store.slots)[Audit.AuditKey := Doc(Arr(Audit.Appended(Audit.LoadAudit(old(store.slots)),
          Audit.ToJson(Audit.MakeEvent(timestamp, "Add Code", RowDetails(row), None)))))]
      ensures !HasSelectedId(old(selected), RowId(row)) ==>
        Audit.LoadAudit(store.slots) == Audit.Appended(Audit.LoadAudit(old(store.slots)),
          Audit.ToJson(Audit.MakeEvent(timestamp, "Add Code", RowDetails(row), None)))
    {
      var id := RowId(row);
      FindSelected(selected, id);
      if Find(selected, (s: Selected) => s.id == id).Some? {
        return;
      }
      if UniqueIds(selected) {
        AddRowUnique(selected, row);
      }
      selected := selected + [Selected(id, row)];
      var _ := Audit.AppendAudit(store, timestamp, "Add Code", RowDetails(row), None);
    }

    /** `removeRow` */
    method HandleRemoveRow(id: string)
      modifies this
      ensures selected == RemoveRow(old(selected), id)
      ensures UniqueIds(old(selected)) ==> UniqueIds(selected)
    {
      if UniqueIds(selected) {
        RemoveRowUnique(selected, id);
      }
      selected := Filter(selected, (s: Selected) => s.id != id);
    }

    /** `insertBoth`: with fewer than two selected rows nothing happens;
        otherwise the audit records the first two as "Insert Codes". */
    method InsertBoth(store: LocalStorage, timestamp: string) returns (ev: Option<Audit.AuditEvent>)
      modifies store
      ensures |selected| < 2 ==> ev.None? && store.slots == old(store.slots)
      ensures |selected| >= 2 ==>
        && ev == Some(Audit.MakeEvent(timestamp, "Insert Codes", InsertDetails(selected[0], selected[1]), None))
        && store.slots == old(store.slots)[Audit.AuditKey := Doc(Arr(Audit.Appended(Audit.LoadAudit(old(store.slots)), Audit.ToJson(ev.value))))]
        && Audit.LoadAudit(store.slots) == Audit.Appended(Audit.LoadAudit(old(store.slots)), Audit.ToJson(ev.value))
    {
      if |selected| < 2 {
        return None;
      }
      var e := Audit.AppendAudit(store, timestamp, "Insert Codes", InsertDetails(selected[0], selected[1]), None);
      ev := Some(e);
    }
  }
}
