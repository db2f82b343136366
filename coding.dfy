/** Reading the three codes (NAMASTE, ICD-11 TM2, ICD-11 biomedicine) back
    out of a Condition's `code.coding` list. The FHIR builder and the Bundle
    Draft page both walk the codings in order, classify each one by its
    lowercased `system`, and fill each of the three fields with the first
    non-empty code of its class (`field ||= code`). The two pages differ only
    in how they classify. */
module Coding {
  import opened Text
  import opened Json
  import opened Prefill

  /** `String(c.system || "").toLowerCase()` */
  function SystemText(c: Json): string {
    var v := Get(c, "system");
    if Truthy(v) then Lower(AsText(v.value)) else ""
  }

  /** `c.code || ""` for a code held as text. */
  function CodeText(c: Json): string {
    StrOr(Get(c, "code"))
  }

  /** `res?.code?.coding || []` where the list is an array. */
  function CodingsOf(res: Json): seq<Json> {
    ItemsOr(GetOpt(Get(res, "code"), "coding"))
  }

  /** Which of the three fields a coding can fill. */
  datatype Kind = NamasteKind | Tm2Kind | BiomedKind | OtherKind

  const NoCodes: Codes := Codes("", "", "")

  function FieldOf(c: Codes, k: Kind): string {
    match k
    case NamasteKind => c.namaste
    case Tm2Kind => c.tm2
    case BiomedKind => c.biomed
    case OtherKind => ""
  }

  /** One step of the walk: `field ||= code` on the field of kind `k`. */
  function Fill(acc: Codes, k: Kind, code: string): (r: Codes)
    ensures forall k' :: k' != k ==> FieldOf(r, k') == FieldOf(acc, k')
    ensures k != OtherKind ==> FieldOf(r, k) == if FieldOf(acc, k) != "" then FieldOf(acc, k) else code
  {
    match k
    case NamasteKind => if acc.namaste == "" then acc.(namaste := code) else acc
    case Tm2Kind => if acc.tm2 == "" then acc.(tm2 := code) else acc
    case BiomedKind => if acc.biomed == "" then acc.(biomed := code) else acc
    case OtherKind => acc
  }

  /** The three codes after walking `codings` in order. */
  function FoldCodes(codings: seq<Json>, kind: Json -> Kind): Codes {
    if codings == [] then NoCodes
    else
      var n := |codings| - 1;
      Fill(FoldCodes(codings[..n], kind), kind(codings[n]), CodeText(codings[n]))
  }

  lemma FoldCodesSnoc(s: seq<Json>, x: Json, kind: Json -> Kind)
    ensures FoldCodes(s + [x], kind) == Fill(FoldCodes(s, kind), kind(x), CodeText(x))
  {
    assert (s + [x])[..|s|] == s;
  }

  /** The walk over one more element of a list, as a loop sees it. */
  lemma FoldCodesPrefix(codings: seq<Json>, i: nat, kind: Json -> Kind)
    requires i < |codings|
    ensures FoldCodes(codings[..i + 1], kind) == Fill(FoldCodes(codings[..i], kind), kind(codings[i]), CodeText(codings[i]))
  {
    assert codings[..i + 1] == codings[..i] + [codings[i]];
    FoldCodesSnoc(codings[..i], codings[i], kind);
  }

  /** Reference definition: the code of the first coding of kind `k` whose
      code is not empty, or "" when there is none. */
  function FirstCode(codings: seq<Json>, kind: Json -> Kind, k: Kind): (r: string)
    ensures r != "" ==> exists i :: 0 <= i < |codings| && kind(codings[i]) == k && CodeText(codings[i]) == r
  {
    if codings == [] then ""
    else if kind(codings[0]) == k && CodeText(codings[0]) != "" then CodeText(codings[0])
    else FirstCode(codings[1..], kind, k)
  }

  lemma {:induction false} FirstCodeSnoc(s: seq<Json>, x: Json, kind: Json -> Kind, k: Kind)
    ensures FirstCode(s + [x], kind, k) ==
      if FirstCode(s, kind, k) != "" then FirstCode(s, kind, k)
      else if kind(x) == k then CodeText(x) else ""
  {
    if s == [] {
      assert [] + [x] == [x];
      assert [x][1..] == [];
    } else {
      assert (s + [x])[0] == s[0];
      assert (s + [x])[1..] == s[1..] + [x];
      FirstCodeSnoc(s[1..], x, kind, k);
    }
  }

  /** Walking the codings fills each field with the first non-empty code of
      its kind, in the order of the list. */
  lemma {:induction false} FoldCodesFirst(codings: seq<Json>, kind: Json -> Kind, k: Kind)
    requires k != OtherKind
    ensures FieldOf(FoldCodes(codings, kind), k) == FirstCode(codings, kind, k)
  {
    if codings != [] {
      var n := |codings| - 1;
      assert codings == codings[..n] + [codings[n]];
      FoldCodesFirst(codings[..n], kind, k);
      FirstCodeSnoc(codings[..n], codings[n], kind, k);
      FoldCodesSnoc(codings[..n], codings[n], kind);
    }
  }
}
