/** The Bundle Draft page: the list of `{ resource }` entries that the FHIR
    builder and the Dashboard upload leave in storage, and what the page does
    with it: remove one entry, clear it, export it as a Bundle, summarise an
    entry, and hand a Condition's codes to the builder. */
module BundleDraft {
  import opened Wrappers
  import opened Seqs
  import opened Text
  import opened Json
  import opened Storage
  import opened Prefill
  import opened Coding

  const DraftKey: string := "vs_bundle_draft_v1"

  /** `loadDraft()`: the stored list, [] when the slot is missing, unreadable
      or not an array. */
  function LoadDraft(slots: map<string, Slot>): (r: seq<Json>)
    ensures !HoldsArray(slots, DraftKey) ==> r == []
    ensures HoldsArray(slots, DraftKey) ==> r == slots[DraftKey].value.items
  {
    LoadArray(slots, DraftKey)
  }

  // ---------------------------------------------------------------- reading codes

  /** `pickCodesFromCondition` as written: the three tests are independent
      `if`s, so one coding can fill more than one field, and every system
      containing "icd11" (the TM2 one included) qualifies for biomedicine. */
  function StepAsWritten(acc: Codes, c: Json): Codes {
    var sys := SystemText(c);
    var code := CodeText(c);
    var a1 := if acc.namaste == "" && Contains(sys, "namaste") then acc.(namaste := code) else acc;
    var a2 := if a1.tm2 == "" && (Contains(sys, "tm2") || Contains(sys, "icd11-tm2")) then a1.(tm2 := code) else a1;
    if a2.biomed == "" && (Contains(sys, "biomed") || Contains(sys, "icd11")) then a2.(biomed := code) else a2
  }

  function PickAsWritten(codings: seq<Json>): Codes {
    if codings == [] then NoCodes
    else
      var n := |codings| - 1;
      StepAsWritten(PickAsWritten(codings[..n]), codings[n])
  }

  lemma PickAsWrittenSnoc(s: seq<Json>, x: Json)
    ensures PickAsWritten(s + [x]) == StepAsWritten(PickAsWritten(s), x)
  {
    assert (s + [x])[..|s|] == s;
  }

  /** The three tests of the loop, each read on its own as the kind it
      admits a coding to. */
  function NamasteTest(c: Json): Kind {
    if Contains(SystemText(c), "namaste") then NamasteKind else OtherKind
  }

  function Tm2Test(c: Json): Kind {
    var sys := SystemText(c);
    if Contains(sys, "tm2") || Contains(sys, "icd11-tm2") then Tm2Kind else OtherKind
  }

  function BiomedTest(c: Json): Kind {
    var sys := SystemText(c);
    if Contains(sys, "biomed") || Contains(sys, "icd11") then BiomedKind else OtherKind
  }

  /** As written, each field takes the code of the first coding that passes
      that field's own test with a non-empty code, whatever the other tests
      say about the same coding. */
  lemma {:induction false} PickAsWrittenFirst(codings: seq<Json>)
    ensures PickAsWritten(codings).namaste == FirstCode(codings, NamasteTest, NamasteKind)
    ensures PickAsWritten(codings).tm2 == FirstCode(codings, Tm2Test, Tm2Kind)
    ensures PickAsWritten(codings).biomed == FirstCode(codings, BiomedTest, BiomedKind)
  {
    if codings != [] {
      var n := |codings| - 1;
      assert codings == codings[..n] + [codings[n]];
      PickAsWrittenFirst(codings[..n]);
      FirstCodeSnoc(codings[..n], codings[n], NamasteTest, NamasteKind);
      FirstCodeSnoc(codings[..n], codings[n], Tm2Test, Tm2Kind);
      FirstCodeSnoc(codings[..n], codings[n], BiomedTest, BiomedKind);
    }
  }

  /** The classification `pickCodesFromCondition` evidently intends: each
      coding fills one field, "namaste" first, then "tm2", then "biomed" or
      any other "icd11". */
  function PickKind(c: Json): Kind {
    var sys := SystemText(c);
    if Contains(sys, "namaste") then NamasteKind
    else if Contains(sys, "tm2") || Contains(sys, "icd11-tm2") then Tm2Kind
    else if Contains(sys, "biomed") || Contains(sys, "icd11") then BiomedKind
    else OtherKind
  }

  /** The codes handed to the builder: each field takes the code of the
      first coding of its class with a non-empty code. */
  function PickCodes(res: Json): (r: Codes)
    ensures r.namaste == FirstCode(CodingsOf(res), PickKind, NamasteKind)
    ensures r.tm2 == FirstCode(CodingsOf(res), PickKind, Tm2Kind)
    ensures r.biomed == FirstCode(CodingsOf(res), PickKind, BiomedKind)
    ensures CodingsOf(res) == [] ==> r == NoCodes
  {
    FoldCodesFirst(CodingsOf(res), PickKind, NamasteKind);
    FoldCodesFirst(CodingsOf(res), PickKind, Tm2Kind);
    FoldCodesFirst(CodingsOf(res), PickKind, BiomedKind);
    FoldCodes(CodingsOf(res), PickKind)
  }

  /** The `for` loop of `pickCodesFromCondition`, as written: three
      independent tests per coding. */
  method PickCodesFromCondition(res: Json) returns (out: Codes)
    ensures out == PickAsWritten(CodingsOf(res))
    ensures out.namaste == FirstCode(CodingsOf(res), NamasteTest, NamasteKind)
    ensures out.tm2 == FirstCode(CodingsOf(res), Tm2Test, Tm2Kind)
    ensures out.biomed == FirstCode(CodingsOf(res), BiomedTest, BiomedKind)
  {
    var codings := CodingsOf(res);
    out := NoCodes;
    var i := 0;
    while i < |codings|
      invariant 0 <= i <= |codings|
      invariant out == PickAsWritten(codings[..i])
    {
      PickAsWrittenSnoc(codings[..i], codings[i]);
      assert codings[..i + 1] == codings[..i] + [codings[i]];
      out := PickStep(out, codings[i]);
      i := i + 1;
    }
    assert codings[..|codings|] == codings;
    PickAsWrittenFirst(codings);
  }

  /** One turn of the loop: each empty field whose test the system passes
      takes the code, whatever the earlier tests did. */
  method PickStep(acc: Codes, c: Json) returns (next: Codes)
    ensures next == StepAsWritten(acc, c)
  {
    next := acc;
    var sys := SystemText(c);
    var code := CodeText(c);
    if next.namaste == "" && Contains(sys, "namaste") {
      next := next.(namaste := code);
    }
    if next.tm2 == "" && (Contains(sys, "tm2") || Contains(sys, "icd11-tm2")) {
      next := next.(tm2 := code);
    }
    if next.biomed == "" && (Contains(sys, "biomed") || Contains(sys, "icd11")) {
      next := next.(biomed := code);
    }
  }

  // ---------------------------------------------------------------- list operations

  /** Where `splice(i, 1)` starts: a negative index counts from the end
      (clamped at 0), one past the end or more is the length. */
  function SpliceStart(len: nat, i: int): (s: nat)
    ensures s <= len
    ensures 0 <= i <= len ==> s == i
    ensures -(len as int) <= i < 0 ==> s == len as int + i
    ensures i < -(len as int) ==> s == 0
    ensures i > len ==> s == len
  {
    if i < 0 then (if len + i < 0 then 0 else len + i)
    else if i > len then len
    else i
  }

  /** `next = items.slice(); next.splice(i, 1)`: the entry at the start
      position is removed and every other entry keeps its order. */
  function Spliced(xs: seq<Json>, i: int): (r: seq<Json>)
    ensures SpliceStart(|xs|, i) == |xs| ==> r == xs
    ensures SpliceStart(|xs|, i) < |xs| ==> |r| == |xs| - 1
    ensures forall j :: 0 <= j < SpliceStart(|xs|, i) && j < |r| ==> r[j] == xs[j]
    ensures forall j :: SpliceStart(|xs|, i) <= j < |r| ==> r[j] == xs[j + 1]
  {
    var s := SpliceStart(|xs|, i);
    if s < |xs| then xs[..s] + xs[s + 1..] else xs
  }

  /** Removing index `i` of the list, for an index the page shows, takes out
      exactly that entry: what remains and it make up the old list. */
  lemma SplicedRemovesOne(xs: seq<Json>, i: int)
    requires 0 <= i < |xs|
    ensures multiset(Spliced(xs, i)) + multiset{xs[i]} == multiset(xs)
    ensures Spliced(xs, i) == xs[..i] + xs[i + 1..]
  {
    assert xs == xs[..i] + [xs[i]] + xs[i + 1..];
    calc {
      multiset(xs);
      multiset(xs[..i] + [xs[i]] + xs[i + 1..]);
      multiset(xs[..i]) + multiset{xs[i]} + multiset(xs[i + 1..]);
      multiset(xs[..i] + xs[i + 1..]) + multiset{xs[i]};
    }
  }

  /** `{ resource: e.resource }`; an entry without a resource becomes `{}`,
      as `JSON.stringify` drops an undefined property. */
  function EntryOf(e: Json): (r: Json)
    ensures Get(r, "resource") == Get(e, "resource")
    ensures r.Obj?
  {
    match Get(e, "resource")
    case Some(res) => Single("resource", res)
    case None => Obj(map[])
  }

  /** `exportAsBundle`: a "collection" Bundle with one entry per item, in
      item order, each holding the item's resource. */
  function ExportAsBundle(items: seq<Json>): (r: Json)
    ensures Get(r, "resourceType") == Some(Str("Bundle")) && Get(r, "type") == Some(Str("collection"))
    ensures Get(r, "entry").Some? && Get(r, "entry").value.Arr?
    ensures |Get(r, "entry").value.items| == |items|
    ensures forall i :: 0 <= i < |items| ==>
      Get(Get(r, "entry").value.items[i], "resource") == Get(items[i], "resource")
  {
    Obj(map["resourceType" := Str("Bundle"), "type" := Str("collection"), "entry" := Arr(Map(items, EntryOf))])
  }

  /** `it?.resource || {}` */
  function ResourceOf(item: Json): (r: Json)
    ensures Truthy(Get(item, "resource")) ==> r == Get(item, "resource").value
  {
    if Truthy(Get(item, "resource")) then Get(item, "resource").value else Obj(map[])
  }

  /** `items[i]?.resource || {}`; an index outside the list reads `{}`. */
  function ResourceAt(items: seq<Json>, i: int): Json {
    if 0 <= i < |items| then ResourceOf(items[i]) else Obj(map[])
  }

  /** The number of codings shown: the length of an array, or of a string,
      and 0 for anything else. */
  function CodingCount(res: Json): nat {
    match GetOpt(Get(res, "code"), "coding")
    case Some(Arr(items)) => |items|
    case Some(Str(s)) => |s|
    case _ => 0
  }

  /** `res.resourceType || "Unknown"` */
  function ResourceType(res: Json): (r: string)
    ensures Get(res, "resourceType") == Some(Str("Condition")) <==> r == "Condition"
  {
    var v := Get(res, "resourceType");
    if Truthy(v) then AsText(v.value) else "Unknown"
  }

  /** `summarize(res)`: "Condition · subject · n coding(s)" for a Condition
      (subject "—" when it has none), its resource type otherwise. */
  function Summarize(res: Json): (r: string)
    ensures ResourceType(res) != "Condition" ==> r == ResourceType(res)
    ensures ResourceType(res) == "Condition" ==>
      r == "Condition · " + OrDash(GetOpt(Get(res, "subject"), "reference")) + " · " + NatToString(CodingCount(res)) + " coding(s)"
    ensures Get(res, "resourceType").None? ==> r == "Unknown"
  {
    var rt := ResourceType(res);
    if rt == "Condition" then
      "Condition · " + OrDash(GetOpt(Get(res, "subject"), "reference")) + " · " + NatToString(CodingCount(res)) + " coding(s)"
    else rt
  }

  /** `v || "—"` on text. */
  function OrDash(v: Option<Json>): string {
    if Truthy(v) then AsText(v.value) else "—"
  }

  /** The page holds the list it loaded; every change is written back. */
  class DraftPage {
    var items: seq<Json>

    constructor (store: LocalStorage)
      ensures items == LoadDraft(store.slots)
    {
      items := LoadDraft(store.slots);
    }

    /** `removeAt(i)` */
    method RemoveAt(store: LocalStorage, i: int)
      modifies this, store
      ensures items == Spliced(old(items), i)
      ensures store.slots == old(store.slots)[DraftKey := Doc(Arr(items))]
      ensures LoadDraft(store.slots) == items
    {
      var next := Spliced(items, i);
      items := next;
      store.SetItem(DraftKey, Arr(next));
    }

    /** `clearAll()`: the list is empty on the page and in storage. */
    method ClearAll(store: LocalStorage)
      modifies this, store
      ensures items == []
      ensures store.slots == old(store.slots)[DraftKey := Doc(Arr([]))]
      ensures LoadDraft(store.slots) == []
    {
      items := [];
      store.SetItem(DraftKey, Arr([]));
    }

    /** `prefillFHIR(i)`: only a Condition may be handed to the builder;
        its codes go to the builder's mailbox. */
    method PrefillFHIR(store: LocalStorage, i: int) returns (accepted: bool)
      modifies store
      ensures accepted <==> Get(ResourceAt(items, i), "resourceType") == Some(Str("Condition"))
      ensures !accepted ==> store.slots == old(store.slots)
      ensures accepted ==> store.slots == old(store.slots)[PrefillKey := Doc(Prefill.ToJson(PickAsWritten(CodingsOf(ResourceAt(items, i)))))]
    {
      var res := ResourceAt(items, i);
      if Get(res, "resourceType") != Some(Str("Condition")) {
        return false;
      }
      var codes := PickCodesFromCondition(res);
      store.SetItem(PrefillKey, Prefill.ToJson(codes));
      accepted := true;
    }
  }
}
