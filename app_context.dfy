/** The application-wide state of the React context: a theme, a user and a
    cart, changed only through `reducer`. Payloads are JSON values. */
module AppContext {
  import opened Seqs
  import opened Json

  datatype State = State(theme: Json, user: Json, cart: seq<Json>)
  datatype Action = Action(kind: string, payload: Json)

  /** `initialState` */
  const InitialState: State := State(Str("light"), Null, [])

  /** `reducer(state, action)` */
  function Reducer(s: State, a: Action): (r: State)
    ensures a.kind == "SET_THEME" ==> r == s.(theme := a.payload)
    ensures a.kind == "SET_USER" ==> r == s.(user := a.payload)
    ensures a.kind == "ADD_TO_CART" ==> r.theme == s.theme && r.user == s.user && r.cart == s.cart + [a.payload]
    ensures a.kind !in {"SET_THEME", "SET_USER", "ADD_TO_CART"} ==> r == s
  {
    match a.kind
    case "SET_THEME" => s.(theme := a.payload)
    case "SET_USER" => s.(user := a.payload)
    case "ADD_TO_CART" => s.(cart := s.cart + [a.payload])
    case _ => s
  }

  /** The state after dispatching `actions` in order. The cart only grows,
      by at most one item per action, and keeps its earlier items. */
  function Run(s: State, actions: seq<Action>): (r: State)
    ensures |s.cart| <= |r.cart| <= |s.cart| + |actions|
    ensures r.cart[..|s.cart|] == s.cart
  {
    if actions == [] then s
    else Reducer(Run(s, actions[..|actions| - 1]), actions[|actions| - 1])
  }

  predicate IsAdd(a: Action) { a.kind == "ADD_TO_CART" }

  function PayloadOf(a: Action): Json { a.payload }

  /** The cart only grows: it is the old cart followed by the payloads of the
      ADD_TO_CART actions, in dispatch order. */
  lemma {:induction false} RunCart(s: State, actions: seq<Action>)
    ensures Run(s, actions).cart == s.cart + Map(Filter(actions, IsAdd), PayloadOf)
  {
    if actions == [] {
      assert Filter(actions, IsAdd) == [];
    } else {
      var n := |actions| - 1;
      var init := actions[..n];
      var last := actions[n];
      assert actions == init + [last];
      RunCart(s, init);
      FilterAppend(init, [last], IsAdd);
      var before := Map(Filter(init, IsAdd), PayloadOf);
      if IsAdd(last) {
        assert Filter([last], IsAdd) == [last];
        MapSnoc(Filter(init, IsAdd), last, PayloadOf);
        assert Run(s, actions).cart == (s.cart + before) + [last.payload];
        assert (s.cart + before) + [last.payload] == s.cart + (before + [last.payload]);
      } else {
        assert Filter([last], IsAdd) == [];
        assert Filter(init, IsAdd) + [] == Filter(init, IsAdd);
        assert Run(s, actions).cart == s.cart + before;
      }
    }
  }

  /** Without SET_THEME or SET_USER actions the theme and the user stay as
      they were. */
  lemma {:induction false} RunKeepsThemeAndUser(s: State, actions: seq<Action>)
    requires forall i :: 0 <= i < |actions| ==> actions[i].kind != "SET_THEME" && actions[i].kind != "SET_USER"
    ensures Run(s, actions).theme == s.theme && Run(s, actions).user == s.user
  {
    if actions != [] {
      RunKeepsThemeAndUser(s, actions[..|actions| - 1]);
    }
  }
}
