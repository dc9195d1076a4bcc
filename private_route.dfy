/** The guard around the dashboard routes: it renders its children only for a stored user
    that parses to a value with a truthy `id`, redirects to the login screen otherwise, and
    removes the stored user when it cannot be parsed. */
module PrivateRoute {
  import opened Js
  import opened Storage

  const UserKey := "user"

  datatype Verdict = RenderChildren | RedirectToLogin

  /** The decision for the stored `user` string (`None` is `null`) and `JSON.parse`
      (`None` when it throws), and whether the stored user is to be removed. */
  datatype Decision = Decision(verdict: Verdict, removeUser: bool)

  function Gate(userString: Option<string>, parseJson: string -> Option<Value>): (d: Decision)
    ensures d.verdict == RenderChildren <==>
              Truthy(Param(userString)) && parseJson(userString.value).Some? &&
              Truthy(parseJson(userString.value).value) && Truthy(Member(parseJson(userString.value).value, "id"))
    ensures d.removeUser <==> Truthy(Param(userString)) && parseJson(userString.value).None?
    ensures d.removeUser ==> d.verdict == RedirectToLogin
  {
    if !Truthy(Param(userString)) then Decision(RedirectToLogin, false)
    else match parseJson(userString.value)
      case None => Decision(RedirectToLogin, true)
      case Some(user) =>
        if !Truthy(user) || !Truthy(Member(user, "id")) then Decision(RedirectToLogin, false)
        else Decision(RenderChildren, false)
  }

  /** Rendering the guard: the decision above, applied to the browser's storage. */
  method Render(storage: LocalStorage, parseJson: string -> Option<Value>) returns (v: Verdict)
    modifies storage
    ensures v == Gate(old(storage.GetItem(UserKey)), parseJson).verdict
    ensures storage.items == if Gate(old(storage.GetItem(UserKey)), parseJson).removeUser
                             then old(storage.items) - {UserKey} else old(storage.items)
  {
    var userString := storage.GetItem(UserKey);
    var d := Gate(userString, parseJson);
    if d.removeUser {
      storage.RemoveItem(UserKey);
    }
    v := d.verdict;
  }

  /** No path touches a key other than "user". */
  lemma OnlyUserKeyRemoved(items: map<string, string>, parseJson: string -> Option<Value>)
    ensures var userString := if UserKey in items then Some(items[UserKey]) else None;
            var after := if Gate(userString, parseJson).removeUser then items - {UserKey} else items;
            forall k :: k != UserKey ==> (k in after <==> k in items) && (k in items ==> after[k] == items[k])
  {
  }

  /** After the stored user has been removed, the next render redirects and removes nothing:
      the guard settles in one step. */
  lemma RemovalSettles(userString: Option<string>, parseJson: string -> Option<Value>)
    requires Gate(userString, parseJson).removeUser
    ensures Gate(None, parseJson) == Decision(RedirectToLogin, false)
  {
  }

  /** Parsed values that are not objects, such as `null`, `0` or a string, never pass. */
  lemma NonObjectsRedirect(userString: string, parseJson: string -> Option<Value>)
    requires userString != "" && parseJson(userString).Some? && !parseJson(userString).value.Obj?
    ensures Gate(Some(userString), parseJson) == Decision(RedirectToLogin, false)
  {
  }
}
