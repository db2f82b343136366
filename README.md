# VaidyaSetu terminology workbench, modelled in Dafny

VaidyaSetu is a browser application that links the Indian NAMASTE codes of
traditional medicine to ICD-11 (its Traditional Medicine 2 chapter, "TM2",
and its biomedical codes, "BIO"). It builds FHIR R4 Condition resources
that carry both codings.

This project models its in-memory logic:

- the lexical scorer that ranks mapping candidates (`norm`, `tokens`, `jaccard`, `scorePair`);
- the candidate pipeline of the Mapping page;
- the ledger of approved mappings, and the CSV import that feeds it;
- the catalog filter and the heuristic suggestions of the NAMASTE Codes page;
- normalisation of the AI answers into catalog rows;
- the JSON salvage step after the model call;
- the FHIR Condition builder: its validations, its prefill mailbox, and reading a Condition or Bundle back into the form;
- the Bundle draft list, and the Condition it hands back to the builder;
- the capped audit log;
- the application reducer.

Browser storage is `Storage.LocalStorage`, a class holding a map from key to
slot. A slot is empty text (`Blank`), a document that `JSON.parse` reads
(`Doc`), or text it rejects (`Garbage`). Every loader in the source
(`loadMappings`, `loadMappingsSafe`, `loadDraft`, `loadBundleDraft`,
`loadAudit`) is "the stored array, or [] when the key is missing, the text
is unreadable or the value is not an array".

JSON values are the datatype `Json.Json`. An absent key is `None` and stands
for JavaScript `undefined`. `String.prototype.localeCompare` is a parameter
`localeLe` that is assumed to be a total preorder. Scores are `real`.
Lowercasing is ASCII. Clocks (`Date.now()`, ISO and formatted timestamps)
and the outcome of `JSON.parse` on a file are inputs.

Modules follow the source files:

| module | source |
|---|---|
| `Scorer` | the scoring helpers of `Mapping.jsx` |
| `Mapping` | the rest of the Mapping page |
| `Csv` | `parseCSV` |
| `Dashboard` | the Dashboard page |
| `NamasteCodes` | the NAMASTE Codes page |
| `FhirBuilder` | the FHIR builder |
| `BundleDraft` | the Bundle Draft page |
| `Audit` | `audit.js` |
| `Gemini` | the tail of `geminiJSON` |
| `AppContext` | the reducer |

`Coding` holds the walk over a Condition's codings that the builder and
the Bundle Draft page share. `Catalog` holds the catalog lookup that the
AI lists share. `Prefill` holds the mailbox payload. `Handoff` relates the
builder to the Bundle Draft page.

Two behaviours of the code worth noting:

- `scorePair` is symmetric. Its prefix test runs both ways, and its long-token bonus needs a token present in both term lists.
- The JSON salvage takes the text from the first `{` to the end, provided the text ends in `}`.

## Model

| member | source | states |
|---|---|---|
| Scorer.Norm | vaidyasetu-ui/src/pages/app/Mapping.jsx:25-27 | the result is lowercase letters, digits and single spaces, with no leading or trailing space and no two spaces in a row |
| Scorer.Tokens | vaidyasetu-ui/src/pages/app/Mapping.jsx:28-31 | no token is empty, holds a space, or is a stop word |
| Scorer.TrimNormal | vaidyasetu-ui/src/pages/app/Mapping.jsx:26 | trimming a text with no double spaces leaves a normal text (the `.trim()` step of `norm`) |
| Scorer.JaccardRange | vaidyasetu-ui/src/pages/app/Mapping.jsx:32-37 | the Jaccard similarity of two token sets lies in [0, 1] |
| Scorer.JaccardSymmetric | vaidyasetu-ui/src/pages/app/Mapping.jsx:32-37 | the similarity does not depend on argument order |
| Scorer.JaccardExtremes | vaidyasetu-ui/src/pages/app/Mapping.jsx:32-37 | it is 1 exactly for equal non-empty sets and 0 exactly for disjoint ones, so two empty lists give 0 |
| Scorer.Jaccard | vaidyasetu-ui/src/pages/app/Mapping.jsx:32-37 | the `forEach` count of shared tokens gives the Jaccard similarity of the two token sets |
| Scorer.Score | vaidyasetu-ui/src/pages/app/Mapping.jsx:39-51 | the fixed-weight score lies in [0, 1] and is at least the code part unless it is clamped to 1 |
| Scorer.ScorePair | vaidyasetu-ui/src/pages/app/Mapping.jsx:39-51 | the step-by-step score is the fixed-weight score, and it lies in [0, 1] |
| Scorer.LongTokenBump | vaidyasetu-ui/src/pages/app/Mapping.jsx:48-49 | the bump loop gives 0.05 when some token of at least 6 characters is in both lists, and 0 otherwise |
| Scorer.LongBonusBound | vaidyasetu-ui/src/pages/app/Mapping.jsx:48-50 | the long-token bonus is 0 or 0.05 however many tokens match |
| Scorer.ScoreSymmetric | vaidyasetu-ui/src/pages/app/Mapping.jsx:39-51 | `scorePair(a, b) == scorePair(b, a)` |
| Scorer.EqualCodesScore | vaidyasetu-ui/src/pages/app/Mapping.jsx:45 | equal non-empty codes (ignoring case) score at least 0.65 |
| Scorer.PrefixBonusWhen | vaidyasetu-ui/src/pages/app/Mapping.jsx:45-46 | the code part is 0.25 exactly when both codes are non-empty, differ, and one is a prefix of the other; it is 0.65 exactly when they are equal and non-empty |
| Scorer.SelfScore | vaidyasetu-ui/src/pages/app/Mapping.jsx:39-51 | an entry with a term scores at least 0.6 against itself, and exactly 1 when its code is non-empty |
| Scorer.Combine | vaidyasetu-ui/src/pages/app/Mapping.jsx:47-50 | the clamped sum lies in [0, 1] and never falls below the code part unless it is clamped to 1 |
| Scorer.TermSimilarity | vaidyasetu-ui/src/pages/app/Mapping.jsx:47 | the term similarity lies in [0, 1] |
| Mapping.LoadMappings | vaidyasetu-ui/src/pages/app/Mapping.jsx:18-21 | the stored ledger when it is an array, and [] for a missing, unreadable or non-array value |
| Mapping.SourcePool | vaidyasetu-ui/src/pages/app/Mapping.jsx:112-122 | from NAMASTE the pool holds exactly the catalog's NAMASTE rows; otherwise exactly its ICD-11, TM2 and BIO rows: every row of the pool is a catalog row of that side, and every catalog row of that side is in the pool |
| Mapping.PoolsAppend | vaidyasetu-ui/src/pages/app/Mapping.jsx:112-123 | both pools keep the catalog's order: the pools of a concatenated catalog are the concatenated pools, and one row is in the pool of its side only |
| Mapping.DestPool | vaidyasetu-ui/src/pages/app/Mapping.jsx:112-123 | the destination pool holds exactly the catalog rows of the opposite side, each of them and nothing else |
| Mapping.PoolsDisjoint | vaidyasetu-ui/src/pages/app/Mapping.jsx:112-118 | no row is in both the NAMASTE split and the ICD split |
| Mapping.Scored | vaidyasetu-ui/src/pages/app/Mapping.jsx:133-134 | one candidate per destination row, in order, each carrying `scorePair(s, d)` |
| Mapping.RankedFacts | vaidyasetu-ui/src/pages/app/Mapping.jsx:133-135 | the sorted candidates are in non-increasing score order and are exactly the scored destination rows, each as often as it is scored (equal multisets) |
| Mapping.RankedStable | vaidyasetu-ui/src/pages/app/Mapping.jsx:133-135 | the sort is stable: for every score, the candidates with that score are in destination-pool order |
| Mapping.CandidatesTies | vaidyasetu-ui/src/pages/app/Mapping.jsx:132-136 | for every score, the kept candidates with that score are the earliest ones of the pool with it, so ties at the sixth place go to the earlier pool rows |
| Mapping.Candidates | vaidyasetu-ui/src/pages/app/Mapping.jsx:132-136 | min(6, pool size) candidates in non-increasing score order, each a pool row with its true score, and no scored row taken more often than it occurs (multiset inclusion) |
| Mapping.TakeKeeps | vaidyasetu-ui/src/pages/app/Mapping.jsx:135 | the first six of a score-sorted candidate list stay sorted and scored for the same source |
| Mapping.CandidatesAreTop | vaidyasetu-ui/src/pages/app/Mapping.jsx:132-136 | a destination row left out scores no higher than every kept candidate |
| Mapping.Hits | vaidyasetu-ui/src/pages/app/Mapping.jsx:129-131 | the source rows whose code or term contains the query, and all of them |
| Mapping.HitsAppend | vaidyasetu-ui/src/pages/app/Mapping.jsx:129-131 | the filter works row by row: hits of a concatenation are the hits of each part in turn, and one row is a hit iff the query hits it, so the hits keep pool order |
| Mapping.FirstHits | vaidyasetu-ui/src/pages/app/Mapping.jsx:129-132 | the first min(20, number of hits) hits, in pool order: a prefix of the hits |
| Mapping.GroupsOf | vaidyasetu-ui/src/pages/app/Mapping.jsx:132-137 | one group per source row, in order, each holding that row's candidates |
| Mapping.Results | vaidyasetu-ui/src/pages/app/Mapping.jsx:126-139 | a blank query gives []; otherwise one group per first hit, in the same order (so at most 20 groups, in pool order, complete when fewer than 20), each with that row's six best candidates |
| Mapping.ApprovedRecord | vaidyasetu-ui/src/pages/app/Mapping.jsx:142-146 | the record's id is `src.system:src.code__dst.system:dst.code`, and it carries both rows |
| Mapping.WithoutId | vaidyasetu-ui/src/pages/app/Mapping.jsx:148 | no record with the id remains, every other record stays, and no record appears that was not in the ledger |
| Mapping.WithoutIdAppend | vaidyasetu-ui/src/pages/app/Mapping.jsx:148 | removal works record by record: on a concatenation it is the removal from each part, and one record stays iff it lacks the id, so the kept records keep their relative order |
| Mapping.RemoveAbsent | vaidyasetu-ui/src/pages/app/Mapping.jsx:156-162 | removing an id that is not present changes nothing |
| Mapping.Approved | vaidyasetu-ui/src/pages/app/Mapping.jsx:147-151 | the new record is at index 0 and is followed by exactly the ledger with its id removed; no other record has its id and every later record comes from the old ledger |
| Mapping.ApproveIdempotent | vaidyasetu-ui/src/pages/app/Mapping.jsx:141-151 | approving the same record twice gives the same ledger as approving it once |
| Mapping.WithoutIdCons | vaidyasetu-ui/src/pages/app/Mapping.jsx:147 | a leading record with the removed id is dropped and the rest is filtered as before |
| Mapping.RemoveUndoesApprove | vaidyasetu-ui/src/pages/app/Mapping.jsx:141-162 | removing an approved id gives the old ledger without that id |
| Mapping.MappingPage.constructor | vaidyasetu-ui/src/pages/app/Mapping.jsx:60-63 | the page starts from NAMASTE with the stored ledger |
| Mapping.MappingPage.ApproveMap | vaidyasetu-ui/src/pages/app/Mapping.jsx:141-151 | the ledger becomes the approved ledger and is saved under the mapping key |
| Mapping.MappingPage.RemoveMap | vaidyasetu-ui/src/pages/app/Mapping.jsx:156-162 | the ledger loses exactly the records with the id and is saved |
| Mapping.MappingPage.ApplyToFHIR | vaidyasetu-ui/src/pages/app/Mapping.jsx:170-183 | the prefill payload is written to the builder's mailbox key, and nothing else changes |
| Mapping.PrefillPayload | vaidyasetu-ui/src/pages/app/Mapping.jsx:171-182 | the payload always has the `tm2` and `biomed` fields |
| Mapping.ApplyNamasteToTm2 | vaidyasetu-ui/src/pages/app/Mapping.jsx:170-183 | applying a NAMASTE→TM2 candidate hands the builder exactly its NAMASTE and TM2 codes |
| Mapping.ApplyNamasteToBio | vaidyasetu-ui/src/pages/app/Mapping.jsx:170-183 | applying a NAMASTE→BIO candidate hands the builder exactly its NAMASTE and biomedicine codes |
| Mapping.ApplyTm2ToNamaste | vaidyasetu-ui/src/pages/app/Mapping.jsx:170-183 | in the reverse direction, applying a TM2→NAMASTE candidate hands over the destination's NAMASTE code and the source's TM2 code |
| Mapping.CandidateRecord | vaidyasetu-ui/src/pages/app/Mapping.jsx:457 | the record the "Apply to FHIR" button passes carries the candidate's source and destination rows |
| Mapping.AiResults | vaidyasetu-ui/src/pages/app/Mapping.jsx:209-234 | each AI list holds at most 6 rows, all of the list's own system |
| Csv.Cells | vaidyasetu-ui/src/pages/app/Dashboard.jsx:29 | a line splits into at least one cell |
| Csv.TextLines | vaidyasetu-ui/src/pages/app/Dashboard.jsx:25 | the trimmed text splits into at least one line |
| Csv.FillStep | vaidyasetu-ui/src/pages/app/Dashboard.jsx:31 | one `row[h] = cols[i]` step extends the filled prefix by one header |
| Csv.RowOfPrefix | vaidyasetu-ui/src/pages/app/Dashboard.jsx:31 | the row built from the first n headers fills exactly those headers |
| Csv.RowOfIsRow | vaidyasetu-ui/src/pages/app/Dashboard.jsx:30-32 | the row maps each header to its column, or to undefined past the last column; a repeated header keeps its last column |
| Csv.FillRow | vaidyasetu-ui/src/pages/app/Dashboard.jsx:30-32 | the `forEach` loop builds that row |
| Csv.Parsed | vaidyasetu-ui/src/pages/app/Dashboard.jsx:24-34 | one row per line after the header |
| Csv.ParsedRows | vaidyasetu-ui/src/pages/app/Dashboard.jsx:24-34 | each row has the trimmed header names as keys and the trimmed cells of its line as values |
| Csv.ParseCSV | vaidyasetu-ui/src/pages/app/Dashboard.jsx:24-34 | the loop over the lines computes the parsed rows |
| Dashboard.KeysOf | vaidyasetu-ui/src/pages/app/Dashboard.jsx:269-271 | each chosen column name is one of its allowed spellings and is present in the headers |
| Dashboard.Classify | vaidyasetu-ui/src/pages/app/Dashboard.jsx:233-268 | no rows; the mapping import whenever its headers are present; the code list only with code, term and system and no mapping headers; unknown otherwise |
| Dashboard.RowToEntry | vaidyasetu-ui/src/pages/app/Dashboard.jsx:251-258 | code and term copied, system defaulting to NAMASTE, `mapped` true iff the cell is "true" ignoring case |
| Dashboard.CodeRows | vaidyasetu-ui/src/pages/app/Dashboard.jsx:250-259 | exactly the rows with non-empty code and term, converted |
| Dashboard.CodeRowsAppend | vaidyasetu-ui/src/pages/app/Dashboard.jsx:250-259 | the import works row by row: a concatenation of files yields the entries of each part in turn, and one row yields its entry iff it has a code and a term, so there is one entry per kept row, in file order |
| Dashboard.Side | vaidyasetu-ui/src/pages/app/Dashboard.jsx:294-295 | the side object carries its system and code |
| Dashboard.RecJson | vaidyasetu-ui/src/pages/app/Dashboard.jsx:291-308 | the record's id is `NAMASTE:n__TM2:t` or `NAMASTE:n__BIO:b`, with NAMASTE as source |
| Dashboard.RowRecs | vaidyasetu-ui/src/pages/app/Dashboard.jsx:288-309 | a TM2 record iff namaste and tm2 are set, a BIO record iff namaste and biomed are set, none for a blank row |
| Dashboard.PushOnce | vaidyasetu-ui/src/pages/app/Dashboard.jsx:280-282 | a present id leaves the ledger unchanged; otherwise the imported record is put first and the ledger follows; either way the id is present afterwards |
| Dashboard.PresentKept | vaidyasetu-ui/src/pages/app/Dashboard.jsx:280-282 | an id already present stays present |
| Dashboard.PushAll | vaidyasetu-ui/src/pages/app/Dashboard.jsx:284-313 | the ledger grows by at most one per record |
| Dashboard.PushAllKeeps | vaidyasetu-ui/src/pages/app/Dashboard.jsx:277-282 | the existing records stay, in order, at the end |
| Dashboard.PushAllSnoc | vaidyasetu-ui/src/pages/app/Dashboard.jsx:284-313 | importing one more record is one more `pushOnce` |
| Dashboard.PushAllPresent | vaidyasetu-ui/src/pages/app/Dashboard.jsx:280-313 | every imported id is present afterwards |
| Dashboard.PushAllNoop | vaidyasetu-ui/src/pages/app/Dashboard.jsx:281 | records whose ids are all present change nothing: an id is never replaced |
| Dashboard.ImportTwice | vaidyasetu-ui/src/pages/app/Dashboard.jsx:274-315 | importing the same table again changes nothing |
| Dashboard.PushAllFresh | vaidyasetu-ui/src/pages/app/Dashboard.jsx:280-282 | the records added at the front have pairwise distinct ids |
| Dashboard.PushAllAppend | vaidyasetu-ui/src/pages/app/Dashboard.jsx:284-313 | importing two batches in turn is importing their concatenation |
| Dashboard.CodesOf | vaidyasetu-ui/src/pages/app/Dashboard.jsx:285-287 | one trimmed triple per row |
| Dashboard.FirstNonBlankNone | vaidyasetu-ui/src/pages/app/Dashboard.jsx:310-312 | there is no prefill iff every row is blank |
| Dashboard.FirstNonBlankSome | vaidyasetu-ui/src/pages/app/Dashboard.jsx:310-312 | the prefill is the first non-blank row's codes |
| Dashboard.FirstPrefillSnoc | vaidyasetu-ui/src/pages/app/Dashboard.jsx:310-312 | the prefill is set once, by the first non-blank row |
| Dashboard.AllRecsSnoc | vaidyasetu-ui/src/pages/app/Dashboard.jsx:284-313 | one more row adds its records at the end of the record list |
| Dashboard.PushRec | vaidyasetu-ui/src/pages/app/Dashboard.jsx:280-282 | one `pushOnce`; `added` grows by the number of records inserted |
| Dashboard.ImportRow | vaidyasetu-ui/src/pages/app/Dashboard.jsx:285-309 | one row's pushes; `added` grows by the number of records inserted |
| Dashboard.ImportMappings | vaidyasetu-ui/src/pages/app/Dashboard.jsx:273-313 | the loop gives the imported ledger, `added` equal to the number of inserts, and the first prefill |
| Dashboard.StoreImport | vaidyasetu-ui/src/pages/app/Dashboard.jsx:273-317 | the ledger is saved, the prefill is mailed when there is one, and `added` is the growth of the ledger |
| Dashboard.DashboardPage.IngestMappings | vaidyasetu-ui/src/pages/app/Dashboard.jsx:273-318 | the mapping branch: storage after the import, the "Imported … mapping rows" activity row and the ingest result with the added count and the prefill |
| Dashboard.UnshiftedKeepsDraft | vaidyasetu-ui/src/pages/app/Dashboard.jsx:342-344 | the draft grows by the number of entries with a resource and keeps its old entries at the end |
| Dashboard.UnshiftedSnoc | vaidyasetu-ui/src/pages/app/Dashboard.jsx:342-344 | each later entry with a resource lands in front of the earlier ones |
| Dashboard.UnshiftedKept | vaidyasetu-ui/src/pages/app/Dashboard.jsx:342-344 | an entry with a resource lands, wrapped, in front of the earlier ones |
| Dashboard.UnshiftedSkipped | vaidyasetu-ui/src/pages/app/Dashboard.jsx:342-344 | an entry without a resource leaves the draft unchanged |
| Dashboard.UnshiftEntries | vaidyasetu-ui/src/pages/app/Dashboard.jsx:342-344 | the `forEach` of unshifts gives that draft |
| Dashboard.UploadResult | vaidyasetu-ui/src/pages/app/Dashboard.jsx:329-364 | unreadable JSON and other resource types are rejected; a Condition is wrapped as one entry; a Bundle adds its entries that have a resource; a saved draft keeps the old entries at the end |
| Dashboard.FilteredActivity | vaidyasetu-ui/src/pages/app/Dashboard.jsx:193-197 | a blank query keeps every row; otherwise a row is kept iff some cell contains the lowercased query |
| Dashboard.CodeSearch | vaidyasetu-ui/src/pages/app/Dashboard.jsx:808-819 | a blank term gives the first 50 codes; otherwise exactly the codes whose code, term or system contains it |
| Dashboard.DashboardPage.constructor | vaidyasetu-ui/src/pages/app/Dashboard.jsx:58-92 | the page holds its code list and activity stream, with no ingest result |
| Dashboard.DashboardPage.IngestCSV | vaidyasetu-ui/src/pages/app/Dashboard.jsx:229-324 | for each CSV kind: the code list, storage, activity row and ingest result it leaves |
| Dashboard.DashboardPage.UploadFHIR | vaidyasetu-ui/src/pages/app/Dashboard.jsx:327-364 | a saved upload writes the new draft and logs its message; a rejected one logs "Invalid JSON" or "Invalid resourceType" and leaves storage alone |
| NamasteCodes.Filtered | vaidyasetu-ui/src/pages/app/NamasteCodes.jsx:151-161 | the first min(200, n) of the n rows that pass both filters, in catalog order; each from the catalog and passing both filters, and every passing row when fewer than 200 |
| NamasteCodes.Passing | vaidyasetu-ui/src/pages/app/NamasteCodes.jsx:153-159 | the rows that pass the system filter and the query, and every such row |
| NamasteCodes.PassingAppend | vaidyasetu-ui/src/pages/app/NamasteCodes.jsx:153-159 | the filters work row by row: a concatenation of catalogs keeps the passing rows of each part in turn, and one row is kept iff it passes both filters, so the rows stay in catalog order |
| NamasteCodes.HayParts | vaidyasetu-ui/src/pages/app/NamasteCodes.jsx:157 | the haystack is the lowercased code, term and system joined by spaces |
| NamasteCodes.CodeQueryFinds | vaidyasetu-ui/src/pages/app/NamasteCodes.jsx:155-158 | a query found in the code passes the text filter |
| NamasteCodes.ContainsPrefix | vaidyasetu-ui/src/pages/app/NamasteCodes.jsx:157-158 | text found in the front of the haystack is found in all of it |
| NamasteCodes.AddRow | vaidyasetu-ui/src/pages/app/NamasteCodes.jsx:169-172 | the id `system:code` is selected afterwards; an already selected id changes nothing; a new one is appended at the end |
| NamasteCodes.AddRowUnique | vaidyasetu-ui/src/pages/app/NamasteCodes.jsx:169-172 | adding never creates two entries with one id |
| NamasteCodes.AddRowTwice | vaidyasetu-ui/src/pages/app/NamasteCodes.jsx:171 | adding the same row twice is adding it once |
| NamasteCodes.RemoveRow | vaidyasetu-ui/src/pages/app/NamasteCodes.jsx:181 | no entry with the id remains, every other entry stays, and nothing new appears |
| NamasteCodes.RemoveRowAppend | vaidyasetu-ui/src/pages/app/NamasteCodes.jsx:181 | removal works entry by entry: on a concatenation it is the removal from each part, and one entry stays iff its id differs, so the rest keep their order |
| NamasteCodes.RemoveUndoesAdd | vaidyasetu-ui/src/pages/app/NamasteCodes.jsx:169-181 | removing a freshly added id restores the list |
| NamasteCodes.RemoveRowUnique | vaidyasetu-ui/src/pages/app/NamasteCodes.jsx:181 | removing keeps ids unique |
| NamasteCodes.ConsUnique | vaidyasetu-ui/src/pages/app/NamasteCodes.jsx:181 | a row with a new id in front of rows with distinct ids keeps the ids distinct |
| NamasteCodes.FindSelected | vaidyasetu-ui/src/pages/app/NamasteCodes.jsx:171 | `selected.find(s => s.id === id)` finds something iff the id is selected |
| NamasteCodes.MatchScore | vaidyasetu-ui/src/pages/app/NamasteCodes.jsx:190-197 | 3 iff the term equals the pivot, 2 iff it contains it, 1 iff the pivot contains the term, 0 otherwise or for an empty pivot |
| NamasteCodes.MatchScoreLength | vaidyasetu-ui/src/pages/app/NamasteCodes.jsx:190-197 | score 2 means a longer term, score 1 a shorter one |
| NamasteCodes.MarkMode | vaidyasetu-ui/src/pages/app/NamasteCodes.jsx:198-203 | Exact iff the score is at least 3, Narrow iff 2, Broad iff 1, Related otherwise |
| NamasteCodes.BaseSet | vaidyasetu-ui/src/pages/app/NamasteCodes.jsx:185-186 | a blank code keeps the whole catalog; otherwise exactly the rows whose lowercased code contains the lowercased code: only those, and every one of them |
| NamasteCodes.PivotTerm | vaidyasetu-ui/src/pages/app/NamasteCodes.jsx:187-188 | the lowercased term of the first row whose code equals the trimmed code ignoring case, when that term is not empty; otherwise, and when no row has the code, the lowercased query |
| NamasteCodes.SuggestLePreorder | vaidyasetu-ui/src/pages/app/NamasteCodes.jsx:208 | score descending, then term ascending, is a total preorder |
| NamasteCodes.ScoredOf | vaidyasetu-ui/src/pages/app/NamasteCodes.jsx:207 | each candidate carries its match score |
| NamasteCodes.RankedMembers | vaidyasetu-ui/src/pages/app/NamasteCodes.jsx:207-208 | sorting keeps exactly the scored candidates, each as often as it occurs (equal multisets), each with its own score |
| NamasteCodes.Suggest | vaidyasetu-ui/src/pages/app/NamasteCodes.jsx:205-210 | min(n, candidates) suggestions, each a candidate with its own score and the mode of that score; the suggested rows are a sub-multiset of the candidates, so no row is suggested more often than it occurs |
| NamasteCodes.TopEntries | vaidyasetu-ui/src/pages/app/NamasteCodes.jsx:207-210 | the first n rows of the sorted list repeat no candidate more often than the candidates hold it |
| NamasteCodes.SuggestSorted | vaidyasetu-ui/src/pages/app/NamasteCodes.jsx:208 | the suggestions are sorted by score descending, then by term |
| NamasteCodes.SuggestTop | vaidyasetu-ui/src/pages/app/NamasteCodes.jsx:208-209 | a candidate left out scores no higher than every suggestion kept, and on an equal score its term does not come before the kept one's in the locale order |
| NamasteCodes.SuggestStable | vaidyasetu-ui/src/pages/app/NamasteCodes.jsx:207-209 | the sort is stable: rows tied on score and term keep their base-set order, and the first n keep the earliest of them |
| NamasteCodes.Tm2Suggestions | vaidyasetu-ui/src/pages/app/NamasteCodes.jsx:205-210 | min(4, number of TM2 rows of the base set) suggestions, each a TM2 row of the base set with its score against the pivot and that score's mode; the suggested rows are a sub-multiset of the base set's TM2 rows |
| NamasteCodes.Tm2SuggestionsTop | vaidyasetu-ui/src/pages/app/NamasteCodes.jsx:205-210 | a TM2 row of the base set that is not suggested scores no higher than any suggestion, and on an equal score its term does not come first in the locale order |
| NamasteCodes.BioSuggestions | vaidyasetu-ui/src/pages/app/NamasteCodes.jsx:212-217 | min(6, number of BIO rows of the base set) suggestions, each a BIO row of the base set with its score against the pivot and that score's mode; the suggested rows are a sub-multiset of the base set's BIO rows |
| NamasteCodes.BioSuggestionsTop | vaidyasetu-ui/src/pages/app/NamasteCodes.jsx:212-217 | a BIO row of the base set that is not suggested scores no higher than any suggestion, and on an equal score its term does not come first in the locale order |
| NamasteCodes.AiQuery | vaidyasetu-ui/src/pages/app/NamasteCodes.jsx:234-240 | no request iff all three inputs are blank; otherwise the AI input if not blank, else the code box if not blank, else the search box, trimmed |
| NamasteCodes.AiPack | vaidyasetu-ui/src/pages/app/NamasteCodes.jsx:248-267 | each list holds min(6, answer length) rows, one per answer code in order, resolved in its own system |
| NamasteCodes.NamastePage.constructor | vaidyasetu-ui/src/pages/app/NamasteCodes.jsx:91 | nothing is selected at first |
| NamasteCodes.NamastePage.HandleAddRow | vaidyasetu-ui/src/pages/app/NamasteCodes.jsx:169-173 | the selection becomes the added list and keeps ids unique; a new row is audited as "Add Code", with storage changed at the audit key only; an old one changes nothing |
| NamasteCodes.NamastePage.HandleRemoveRow | vaidyasetu-ui/src/pages/app/NamasteCodes.jsx:181 | the selection loses the id and keeps ids unique |
| NamasteCodes.NamastePage.InsertBoth | vaidyasetu-ui/src/pages/app/NamasteCodes.jsx:223-227 | with fewer than two rows selected nothing happens; otherwise the first two are audited as "Insert Codes", with storage changed at the audit key only |
| Catalog.ToJson | vaidyasetu-ui/src/pages/app/Mapping.jsx:144 | the stored row carries its code, system and term |
| Catalog.Resolve | vaidyasetu-ui/src/pages/app/NamasteCodes.jsx:250-260 | the first catalog row matching the system and the code, ignoring case; when there is none, a stub "(AI suggestion)" row of that system, not mapped |
| Catalog.Pack | vaidyasetu-ui/src/pages/app/NamasteCodes.jsx:248-261 | min(6, answers) rows, each the resolution of its answer code, all of the requested system |
| Prefill.Field | vaidyasetu-ui/src/pages/app/FhirBuilder.jsx:95 | a missing field reads as "" |
| Prefill.FromToJson | vaidyasetu-ui/src/pages/app/FhirBuilder.jsx:95 | reading a written payload gives back its three codes |
| Coding.Fill | vaidyasetu-ui/src/pages/app/FhirBuilder.jsx:242-244 | `field \|\|= code` changes only its own field, and only when the field is empty |
| Coding.FoldCodesSnoc | vaidyasetu-ui/src/pages/app/FhirBuilder.jsx:238-245 | walking one more coding is one more fill |
| Coding.FoldCodesPrefix | vaidyasetu-ui/src/pages/app/FhirBuilder.jsx:238-245 | one more turn of a loop over the codings is one more fill |
| Coding.FirstCode | vaidyasetu-ui/src/pages/app/FhirBuilder.jsx:238-245 | a non-empty result is the code of some coding of that kind |
| Coding.FirstCodeSnoc | vaidyasetu-ui/src/pages/app/FhirBuilder.jsx:238-245 | a later coding matters only when no earlier one supplied a code |
| Coding.FoldCodesFirst | vaidyasetu-ui/src/pages/app/FhirBuilder.jsx:236-245 | the walk fills each field with the first non-empty code of its kind |
| FhirBuilder.Codings | vaidyasetu-ui/src/pages/app/FhirBuilder.jsx:109-115 | one coding per non-empty code and none otherwise, in the order NAMASTE, TM2, biomedicine, each with its system, code and display |
| FhirBuilder.SubjectRef | vaidyasetu-ui/src/pages/app/FhirBuilder.jsx:119 | the patient reference, or "Patient/unknown" when it is empty |
| FhirBuilder.ConditionJson | vaidyasetu-ui/src/pages/app/FhirBuilder.jsx:108-128 | a Condition whose subject is that reference, whose `code` is present iff there are codings, and whose codings are the builder's |
| FhirBuilder.Validations | vaidyasetu-ui/src/pages/app/FhirBuilder.jsx:132-145 | the patient check is valid iff the reference matches `^Patient/[A-Za-z0-9._-]+$` and an error otherwise; statuses are required; Biomed warns iff it is empty; Dual Coding warns iff all three codes are empty |
| FhirBuilder.DualCodingIffNoCode | vaidyasetu-ui/src/pages/app/FhirBuilder.jsx:127-143 | the Dual Coding warning shows iff the Condition has no `code` |
| FhirBuilder.InitialValidations | vaidyasetu-ui/src/pages/app/FhirBuilder.jsx:75-80 | the initial form passes the three required checks and warns on Biomed and Dual Coding |
| FhirBuilder.PatientRefRejects | vaidyasetu-ui/src/pages/app/FhirBuilder.jsx:134-135 | "Patient/" alone, or a reference with a character outside the allowed set, is an error |
| FhirBuilder.ApplyCondition | vaidyasetu-ui/src/pages/app/FhirBuilder.jsx:224-249 | each code becomes the first non-empty code of its class (namaste, then tm2 or traditional, then biomed or icd), or keeps its old value |
| FhirBuilder.StatusCodeOf | vaidyasetu-ui/src/pages/app/FhirBuilder.jsx:230-233 | a status written by the builder reads back as its code |
| FhirBuilder.SystemTextOf | vaidyasetu-ui/src/pages/app/BundleDraft.jsx:25 | a builder coding reads back its system and code |
| FhirBuilder.BuilderKinds | vaidyasetu-ui/src/pages/app/FhirBuilder.jsx:111-115 | the builder classifies its own three codings into their own fields |
| FhirBuilder.NamasteKindOf | vaidyasetu-ui/src/pages/app/FhirBuilder.jsx:111-112 | the builder's NAMASTE coding reads as NAMASTE under the `forEach` tests |
| FhirBuilder.Tm2KindOf | vaidyasetu-ui/src/pages/app/FhirBuilder.jsx:113-114 | the builder's TM2 coding reads as TM2 under the `forEach` tests |
| FhirBuilder.BiomedKindOf | vaidyasetu-ui/src/pages/app/FhirBuilder.jsx:115-116 | the builder's biomedicine coding reads as biomedicine under the `forEach` tests |
| FhirBuilder.LowerIdentity | vaidyasetu-ui/src/pages/app/FhirBuilder.jsx:239 | lowercasing a text with no capital leaves it alone |
| FhirBuilder.NamasteSystemWords | vaidyasetu-ui/src/pages/app/FhirBuilder.jsx:112 | the NAMASTE system name contains "namaste" and none of "tm2", "icd11-tm2", "biomed", "icd11", so both pages classify it as NAMASTE only |
| FhirBuilder.Tm2SystemWords | vaidyasetu-ui/src/pages/app/FhirBuilder.jsx:114 | the TM2 system name contains "tm2" and also "icd11" (which the Bundle Draft page's biomedicine test accepts), but not "namaste" |
| FhirBuilder.BiomedNoNamaste | vaidyasetu-ui/src/pages/app/FhirBuilder.jsx:116 | the biomedicine system name does not contain "namaste" |
| FhirBuilder.BiomedNoTm2 | vaidyasetu-ui/src/pages/app/FhirBuilder.jsx:116 | the biomedicine system name contains neither "tm2" nor "icd11-tm2" |
| FhirBuilder.BiomedNoTraditional | vaidyasetu-ui/src/pages/app/FhirBuilder.jsx:116 | the biomedicine system name does not contain "traditional" |
| FhirBuilder.BiomedHasBiomed | vaidyasetu-ui/src/pages/app/FhirBuilder.jsx:116 | the biomedicine system name contains "biomed" |
| FhirBuilder.FoldBuilderCodings | vaidyasetu-ui/src/pages/app/FhirBuilder.jsx:109-116 | any classification that sends each builder coding to its own field walks the codings back to the three codes |
| FhirBuilder.BuilderCodesRoundTrip | vaidyasetu-ui/src/pages/app/FhirBuilder.jsx:108-116 | walking the builder's own codings recovers its three codes |
| FhirBuilder.ConditionRoundTrip | vaidyasetu-ui/src/pages/app/FhirBuilder.jsx:108-128 | reading the builder's Condition back restores the form; an empty reference becomes "Patient/unknown", and empty fields keep their old value |
| FhirBuilder.ConditionStatuses | vaidyasetu-ui/src/pages/app/FhirBuilder.jsx:117-125 | the statuses and the subject read back as written |
| FhirBuilder.ExtractCondition | vaidyasetu-ui/src/pages/app/FhirBuilder.jsx:218-222 | null iff no entry holds a Condition, including when `entry` is not an array; otherwise the first entry that does |
| FhirBuilder.ExtractExported | vaidyasetu-ui/src/pages/app/FhirBuilder.jsx:218-222 | the exported Bundle yields its own Condition |
| FhirBuilder.WithId | vaidyasetu-ui/src/pages/app/FhirBuilder.jsx:163 | `{ ...res, id }` sets the id and keeps every other key |
| FhirBuilder.ExportBundle | vaidyasetu-ui/src/pages/app/FhirBuilder.jsx:302-308 | a "collection" Bundle with one entry holding the stamped Condition |
| FhirBuilder.WithPrefill | vaidyasetu-ui/src/pages/app/FhirBuilder.jsx:95-98 | only the non-empty mailed codes overwrite the form; reference and statuses stay |
| FhirBuilder.PrefillDelivers | vaidyasetu-ui/src/pages/app/FhirBuilder.jsx:91-99 | three non-empty mailed codes arrive in the form unchanged |
| FhirBuilder.BuilderPage.constructor | vaidyasetu-ui/src/pages/app/FhirBuilder.jsx:75-87 | the initial form ("Patient/123", active, confirmed, no codes) with no message |
| FhirBuilder.BuilderPage.ConsumePrefill | vaidyasetu-ui/src/pages/app/FhirBuilder.jsx:91-105 | an empty mailbox changes nothing; a readable payload fills the form and says "Prefilled from Mapping"; in both non-empty cases the key is removed |
| FhirBuilder.BuilderPage.PrefillFromCondition | vaidyasetu-ui/src/pages/app/FhirBuilder.jsx:224-249 | the form becomes the Condition applied to it, and nothing else changes |
| FhirBuilder.BuilderPage.Prefilled | vaidyasetu-ui/src/pages/app/FhirBuilder.jsx:224-249 | the field-by-field assignments give the form `ApplyCondition` describes |
| FhirBuilder.BuilderPage.WalkCodings | vaidyasetu-ui/src/pages/app/FhirBuilder.jsx:236-245 | the `forEach` loop computes the walk |
| FhirBuilder.BuilderPage.ClassifyCoding | vaidyasetu-ui/src/pages/app/FhirBuilder.jsx:239-244 | one iteration is one fill of the coding's class |
| FhirBuilder.BuilderPage.TryPrefill | vaidyasetu-ui/src/pages/app/FhirBuilder.jsx:251-273 | unreadable JSON or null says "Invalid JSON"; a Condition, or a Bundle holding one, prefills and says so; anything else leaves the form alone |
| FhirBuilder.BuilderPage.OnSave | vaidyasetu-ui/src/pages/app/FhirBuilder.jsx:156-165 | exactly one entry, the stamped Condition, goes in front of the stored draft; an unreadable or non-array draft counts as [] |
| BundleDraft.LoadDraft | vaidyasetu-ui/src/pages/app/BundleDraft.jsx:8-15 | the stored array, or [] for a missing, unreadable or non-array value |
| Storage.LocalStorage.SetItem | vaidyasetu-ui/src/pages/app/Mapping.jsx:22 | the key holds the written document and every other key is unchanged |
| Storage.LocalStorage.RemoveItem | vaidyasetu-ui/src/pages/app/FhirBuilder.jsx:102 | the key is gone and every other key is unchanged |
| BundleDraft.PickAsWrittenSnoc | vaidyasetu-ui/src/pages/app/BundleDraft.jsx:24-29 | one more coding is one more iteration of the loop as written |
| BundleDraft.PickCodes | vaidyasetu-ui/src/pages/app/BundleDraft.jsx:21-31 | the corrected reading (see Findings): each field is the first non-empty code of its class under exclusive tests; no codings gives three empty codes |
| BundleDraft.PickAsWrittenFirst | vaidyasetu-ui/src/pages/app/BundleDraft.jsx:24-29 | for every codings list, each field of the pick as written is the code of the first coding that passes that field's own test with a non-empty code |
| BundleDraft.PickCodesFromCondition | vaidyasetu-ui/src/pages/app/BundleDraft.jsx:21-31 | the `for` loop as written, with three independent tests per coding, computes `PickAsWritten` of the codings, so each field is the first non-empty code passing its own test |
| BundleDraft.PickStep | vaidyasetu-ui/src/pages/app/BundleDraft.jsx:25-28 | one turn of the loop as written: each still-empty field whose test the system passes takes the code, so one coding can fill two fields |
| BundleDraft.SpliceStart | vaidyasetu-ui/src/pages/app/BundleDraft.jsx:47 | where `splice(i, 1)` starts: i itself, or from the end for a negative i, clamped to the list |
| BundleDraft.Spliced | vaidyasetu-ui/src/pages/app/BundleDraft.jsx:46-47 | one entry fewer when the start is inside the list, and the others in order |
| BundleDraft.SplicedRemovesOne | vaidyasetu-ui/src/pages/app/BundleDraft.jsx:45-49 | for a shown index, exactly that entry goes: the rest plus it is the old list |
| BundleDraft.EntryOf | vaidyasetu-ui/src/pages/app/BundleDraft.jsx:70 | `{ resource: e.resource }` keeps the resource |
| BundleDraft.ExportAsBundle | vaidyasetu-ui/src/pages/app/BundleDraft.jsx:66-71 | a "collection" Bundle with one entry per item, in item order, holding its resource |
| BundleDraft.ResourceOf | vaidyasetu-ui/src/pages/app/BundleDraft.jsx:85 | a truthy resource is taken as is |
| BundleDraft.ResourceType | vaidyasetu-ui/src/pages/app/BundleDraft.jsx:98 | the type reads "Condition" exactly for a Condition |
| BundleDraft.Summarize | vaidyasetu-ui/src/pages/app/BundleDraft.jsx:97-105 | "Condition · subject · n coding(s)" for a Condition; its type otherwise, "Unknown" when it has none |
| BundleDraft.DraftPage.constructor | vaidyasetu-ui/src/pages/app/BundleDraft.jsx:34 | the page starts from the stored draft |
| BundleDraft.DraftPage.RemoveAt | vaidyasetu-ui/src/pages/app/BundleDraft.jsx:45-49 | the list is spliced at i and saved |
| BundleDraft.DraftPage.ClearAll | vaidyasetu-ui/src/pages/app/BundleDraft.jsx:53-55 | the list is empty on the page and in storage |
| BundleDraft.DraftPage.PrefillFHIR | vaidyasetu-ui/src/pages/app/BundleDraft.jsx:84-91 | only a Condition is accepted, and then the codes the loop as written reads from it (`PickAsWritten`) are mailed to the builder; otherwise storage is untouched |
| Handoff.SavedCodings | vaidyasetu-ui/src/pages/app/FhirBuilder.jsx:163-164 | stamping the id keeps the codings |
| Handoff.PickNamaste | vaidyasetu-ui/src/pages/app/BundleDraft.jsx:26 | the builder's NAMASTE coding fills the NAMASTE field under the exclusive tests of the corrected reading |
| Handoff.PickTm2 | vaidyasetu-ui/src/pages/app/BundleDraft.jsx:27 | the builder's TM2 coding fills the TM2 field under the exclusive tests of the corrected reading |
| Handoff.PickBiomed | vaidyasetu-ui/src/pages/app/BundleDraft.jsx:28 | the builder's biomedicine coding fills the biomedicine field under the exclusive tests of the corrected reading |
| Handoff.StepAsWrittenNamaste | vaidyasetu-ui/src/pages/app/BundleDraft.jsx:26-28 | under the loop as written the NAMASTE coding fills only the NAMASTE field, when empty |
| Handoff.StepAsWrittenTm2 | vaidyasetu-ui/src/pages/app/BundleDraft.jsx:26-28 | under the loop as written the TM2 coding fills both the TM2 and the biomedicine field, each when empty |
| Handoff.StepAsWrittenBiomed | vaidyasetu-ui/src/pages/app/BundleDraft.jsx:26-28 | under the loop as written the biomedicine coding fills only the biomedicine field, when empty |
| Handoff.PickRoundTrip | vaidyasetu-ui/src/pages/app/BundleDraft.jsx:84-91 | under the corrected reading, a Condition saved by the builder and sent back restores the builder's three codes, also through the mailbox (the loop as written does not, see Findings) |
| Handoff.PickAsWrittenMisreadsTm2 | vaidyasetu-ui/src/pages/app/BundleDraft.jsx:27-28 | as written, a builder Condition with a TM2 code hands the TM2 code over as the biomedicine code too |
| Handoff.PickAsWrittenCounterexample | vaidyasetu-ui/src/pages/app/BundleDraft.jsx:27-28 | a concrete form where the loop as written returns biomedicine "TM-1" and the intended reading "BIO-1" |
| Handoff.SummarizeSaved | vaidyasetu-ui/src/pages/app/BundleDraft.jsx:97-105 | a saved builder Condition is summarised by its subject and its number of codings |
| Audit.LoadAudit | vaidyasetu-ui/src/lib/audit.js:18-26 | [] when the key is missing, unreadable or not an array |
| Audit.MakeEvent | vaidyasetu-ui/src/lib/audit.js:28-34 | the event carries the action, details and timestamp, with the user defaulting to "You" |
| Audit.Appended | vaidyasetu-ui/src/lib/audit.js:35 | the capped log after an append holds between 1 and 1000 events and starts with the new one |
| Audit.AppendedShape | vaidyasetu-ui/src/lib/audit.js:35 | the new event is first, the length is min(old + 1, 1000), and the older events follow in order |
| Audit.AppendedAtCap | vaidyasetu-ui/src/lib/audit.js:35 | at the cap only the oldest event is dropped |
| Audit.AppendAudit | vaidyasetu-ui/src/lib/audit.js:28-40 | the returned event is the one stored at index 0 of the saved log |
| Audit.ClearAudit | vaidyasetu-ui/src/lib/audit.js:42-45 | the key is removed, and loading gives [] |
| Gemini.Salvage | vaidyasetu-ui/src/lib/gemini.ts:43 | a candidate exists iff the text contains `{` and ends with `}`; it is the suffix from the first `{` |
| Gemini.GeminiJson | vaidyasetu-ui/src/lib/gemini.ts:38-45 | a strict parse is returned unchanged; with no candidate the result is `{}`; otherwise the candidate's parse, or a throw when that fails |
| Gemini.SalvageAfterProse | vaidyasetu-ui/src/lib/gemini.ts:43 | prose without `{` before a braced object is cut off |
| Gemini.NoClosingBraceIsEmpty | vaidyasetu-ui/src/lib/gemini.ts:41-44 | unparsable text not ending in `}` gives `{}` |
| AppContext.Reducer | vaidyasetu-ui/src/context/AppContext.jsx:11-22 | SET_THEME replaces only the theme, SET_USER only the user, ADD_TO_CART appends the payload, and anything else returns the state |
| AppContext.Run | vaidyasetu-ui/src/context/AppContext.jsx:11-22 | over any run of actions the cart only grows, by at most one item per action, and keeps its earlier items as a prefix |
| AppContext.RunCart | vaidyasetu-ui/src/context/AppContext.jsx:17-18 | after any run of actions the cart is the old cart plus the ADD_TO_CART payloads in order |
| AppContext.RunKeepsThemeAndUser | vaidyasetu-ui/src/context/AppContext.jsx:13-16 | without SET_THEME or SET_USER actions, theme and user stay |

## Left out

- Rendering, modals, toasts and their timers, navigation, `alert` and routing are left out; they are UI.
- `fetch` loading of the datasets and its CSV fallbacks are left out; the catalog is an input.
- File reads, Blob downloads, the clipboard, drag and drop, and `window` events are left out; they are I/O. A file's text is an input.
- The outbound model calls, the prompts and the Support chat are left out; the model's answer is an input.
- `JSON.parse` is abstract. A document the model writes is read back unchanged.
- `Intl.DateTimeFormat`, ISO timestamps and `cond-<time>` ids are inputs.
- `Number(score.toFixed(3))` and the KPI rounding are left out, because they are floating point. Scores are exact reals.
- The KPI tiles, the activity CSV export and sort, the Dashboard initial load and the Hindi translations are left out; they are display and lookups.
- Audit calls of the pages other than "Add Code" and "Insert Codes" are left out; they only log text. These are "Approve Mapping", "Apply Mapping", "AI Suggest", "Open Map", "Open Code Details", "FHIR Prefill", "FHIR Import", "Save Condition", "Export Condition", "Export Bundle", "Delete Draft Entry", "Clear Bundle Draft" and "Prefill FHIR".
- `editorValidation` in the FHIR builder only labels the editor text and is left out.
- `swapDirection` and `exportJSON` of the Mapping page are left out: a setter and a download.
- Mapping.AiResults: each list element is resolved through the same lookup as `Catalog.Resolve`. The contract states only the bounds and the systems.
- Mapping.PrefillPayload: its contract states only the fields present. Its values are stated by the three `Apply…` lemmas for a `Mapping.CandidateRecord`, the `{source, dest}` record the page builds for a candidate, which is the only record the page passes to `applyToFHIR` (Mapping.jsx:457).
- FhirBuilder.ApplyCondition: its contract states the three codes. The subject and statuses it also sets are stated by `FhirBuilder.ConditionRoundTrip` for the builder's own Condition.
- FhirBuilder.BuilderPage.TryPrefill: the source function's return value is overridden by its `finally` block and unused. Only the calls with a toast are modelled.
- Non-string JSON values where the source coerces to text are read as their words (null, booleans) or as "" (numbers, arrays, objects). A number used as a code is therefore "" in the model.
- A catalog row without `code`, `term` or `system` reads that field as "" in the model. The source instead puts the text "undefined" into the search haystack of the codes page (NamasteCodes.jsx:157), and `term.toLowerCase()` throws on a missing term in its suggestion score once there is a pivot term (NamasteCodes.jsx:192).
- A `null` element in a `coding` list throws in the source. The model reads it as a coding without fields. A truthy `coding` that is not an array is read as [].
- A `null` element in the stored mappings ledger makes the source's `find(x => x.id …)` and `filter(x => x.id !== id)` throw. The model reads it as a record without an id.
- BundleDraft.ExportAsBundle: an item that is `null` throws in the source. The model gives it an empty entry.
- Dispatching an action whose payload is `undefined` is not modelled; payloads are JSON values.
- `subscribeAudit` in `audit.js` is left out; it only registers listeners.
- Dashboard.RowToEntry: the `created_at` and `updated_at` cells the code-list import carries over (Dashboard.jsx:256-257) are not part of `CodeEntry`; nothing in the pages modelled here reads them.
- `loadMappingsSafe` and `loadBundleDraft` of the Dashboard are the same function as `Mapping.LoadMappings` and `BundleDraft.LoadDraft`. The `parseCSV` copy in `Mapping.jsx` is the same as the Dashboard's. Each is modelled once.

## Findings

| source | as written | input that shows it | evidently intended | confidence | as-written member | corrected member |
|---|---|---|---|---|---|---|
| vaidyasetu-ui/src/pages/app/BundleDraft.jsx:27-28 | the biomedicine test is a separate `if` that accepts any system containing "icd11", so the TM2 coding `urn:example:icd11-tm2` also fills the biomedicine field | a Condition saved by the builder with NAMASTE "N1", TM2 "TM-1" and Biomed "BIO-1": "Prefill FHIR" hands over biomed "TM-1" | each coding fills one field, TM2 before biomedicine, so biomed is "BIO-1" | not executed | BundleDraft.PickCodesFromCondition, BundleDraft.DraftPage.PrefillFHIR, Handoff.PickAsWrittenMisreadsTm2, Handoff.PickAsWrittenCounterexample | BundleDraft.PickCodes, Handoff.PickRoundTrip |
