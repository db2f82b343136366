/** The tail of `geminiJSON`: turning the model's raw answer into a value.
    `JSON.parse` is an input of the model (`parse`, none where it throws);
    the request to the model is not modelled. */
module Gemini {
  import opened Wrappers
  import opened Seqs
  import opened Json

  /** What the call yields: a value, or an exception for its caller. */
  datatype Outcome = Returned(value: Json) | Threw

  /** The match of `/\{[\s\S]*\}$/`: when the text ends with '}' and holds
      a '{', the suffix from the first '{'; otherwise nothing. */
  function Salvage(raw: string): (m: Option<string>)
    ensures m.Some? <==> '{' in raw && raw[|raw| - 1] == '}'
    ensures m.Some? ==> exists k :: 0 <= k < |raw| && raw[k..] == m.value && raw[k] == '{' && '{' !in raw[..k]
  {
    if |raw| > 0 && raw[|raw| - 1] == '}' then
      match FindIndex(raw, (c: char) => c == '{')
      case None => None
      case Some(k) =>
        assert '{' !in raw[..k] by {
          forall j | 0 <= j < k ensures raw[..k][j] != '{' {
            assert raw[..k][j] == raw[j];
          }
        }
        Some(raw[k..])
    else None
  }

  /** `try { return JSON.parse(raw) } catch { const m = ...; return m ? JSON.parse(m[0]) : {} }` */
  function GeminiJson(raw: string, parse: string -> Option<Json>): (r: Outcome)
    ensures parse(raw).Some? ==> r == Returned(parse(raw).value)
    ensures parse(raw).None? && Salvage(raw).None? ==> r == Returned(Obj(map[]))
    ensures parse(raw).None? && Salvage(raw).Some? ==>
      r == (if parse(Salvage(raw).value).Some? then Returned(parse(Salvage(raw).value).value) else Threw)
  {
    match parse(raw)
    case Some(v) => Returned(v)
    case None =>
      match Salvage(raw)
      case None => Returned(Obj(map[]))
      case Some(m) => if parse(m).Some? then Returned(parse(m).value) else Threw
  }

  /** Text around a JSON object is dropped when it comes before the object:
      prose followed by an object parses as the object. */
  lemma SalvageAfterProse(prose: string, obj: string)
    requires '{' !in prose && |obj| > 0 && obj[0] == '{' && obj[|obj| - 1] == '}'
    ensures Salvage(prose + obj) == Some(obj)
  {
    var raw := prose + obj;
    assert raw[|prose|] == '{';
    forall j | 0 <= j < |prose| ensures raw[j] != '{' {
      assert raw[j] == prose[j];
    }
    FindIndexIs(raw, (c: char) => c == '{', |prose|);
    assert raw[|prose|..] == obj;
  }

  /** An answer the strict parse rejects and that does not end with '}'
      yields the empty object, never an exception. */
  lemma NoClosingBraceIsEmpty(raw: string, parse: string -> Option<Json>)
    requires parse(raw).None? && (|raw| == 0 || raw[|raw| - 1] != '}')
    ensures GeminiJson(raw, parse) == Returned(Obj(map[]))
  {
  }
}
