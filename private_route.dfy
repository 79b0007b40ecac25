/**
 * The session gate around the protected pages (src/pages/PrivateRoute.tsx).
 * Browser storage is a map from keys to strings; the gate only reads it.
 */
module PrivateRoute {
  import opened Optional

  /** `localStorage`: keys to stored strings. */
  type Storage = map<string, string>

  const SessionKey := "usuarioLogado"

  /** `localStorage.getItem(key)`: the stored string, or `null` for a missing key. */
  function GetItem(storage: Storage, key: string): (r: Option<string>)
    ensures r.Some? <==> key in storage
    ensures r.Some? ==> r.value == storage[key]
  {
    if key in storage then Some(storage[key]) else None
  }

  /** What the gate renders. */
  datatype Rendered = Children | Redirect(to: string)

  /** The decision on the value read under the session key: `null` and `""` are both falsy. */
  function Gate(usuarioLogado: Option<string>): (r: Rendered)
    ensures r == Children <==> usuarioLogado.Some? && usuarioLogado.value != ""
    ensures r.Redirect? ==> r.to == "/"
  {
    match usuarioLogado
    case Some(session) => if session != "" then Children else Redirect("/")
    case None => Redirect("/")
  }

  /** The whole component: one read of storage, then the decision. */
  function Guard(storage: Storage): (r: Rendered)
    ensures r == Children <==> SessionKey in storage && storage[SessionKey] != ""
    ensures r.Redirect? ==> r.to == "/"
  {
    Gate(GetItem(storage, SessionKey))
  }

  /** Only presence is decided: the stored text (role, format) is never inspected. */
  lemma ContentNeverInspected(storage: Storage, other: string)
    requires SessionKey in storage && storage[SessionKey] != "" && other != ""
    ensures Guard(storage) == Guard(storage[SessionKey := other]) == Children
  {
  }

  /**
   * Writing a non-empty session opens the gate; removing the key, or storing
   * the empty string, closes it again. Keys other than the session key never matter.
   */
  lemma SessionLifecycle(storage: Storage, session: string, key: string, value: string)
    ensures session != "" ==> Guard(storage[SessionKey := session]) == Children
    ensures Guard(storage - {SessionKey}) == Redirect("/")
    ensures Guard(storage[SessionKey := ""]) == Redirect("/")
    ensures key != SessionKey ==> Guard(storage[key := value]) == Guard(storage)
  {
  }
}
