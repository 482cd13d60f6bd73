/**
 * The browser's `localStorage` as a string-to-string map, and the session
 * flag the pages keep in it.
 */
module Storage {
  import opened Wrappers

  /** The key of the session flag. */
  const LoggedInKey := "isLoggedIn"

  /** `localStorage.getItem(key) === "true"`: only the exact string "true" counts. */
  predicate IsLoggedIn(flag: Option<string>) {
    flag == Some("true")
  }

  function Lookup(items: map<string, string>, key: string): (r: Option<string>)
    ensures r.Some? <==> key in items
    ensures r.Some? ==> r.value == items[key]
  {
    if key in items then Some(items[key]) else None
  }

  /** The storage after a successful login. */
  function AfterLogin(items: map<string, string>): (r: map<string, string>)
    ensures r.Keys == items.Keys + {LoggedInKey}
    ensures IsLoggedIn(Lookup(r, LoggedInKey))
    ensures forall k :: k in items && k != LoggedInKey ==> r[k] == items[k]
  {
    items[LoggedInKey := "true"]
  }

  /** The storage after a logout. */
  function AfterLogout(items: map<string, string>): (r: map<string, string>)
    ensures r.Keys == items.Keys - {LoggedInKey}
    ensures !IsLoggedIn(Lookup(r, LoggedInKey))
    ensures forall k :: k in r ==> r[k] == items[k]
  {
    items - {LoggedInKey}
  }

  /** Logging out twice leaves the same storage as logging out once. */
  lemma LogoutIdempotent(items: map<string, string>)
    ensures AfterLogout(AfterLogout(items)) == AfterLogout(items)
  {
  }

  /** A logout after a login restores every other key and leaves no flag behind. */
  lemma LoginThenLogout(items: map<string, string>)
    ensures AfterLogout(AfterLogin(items)) == AfterLogout(items)
  {
  }

  /** The browser storage itself. */
  class LocalStorage {
    var items: map<string, string>

    constructor(initial: map<string, string>)
      ensures items == initial
    {
      items := initial;
    }

    function GetItem(key: string): (r: Option<string>)
      reads this
      ensures r == Lookup(items, key)
    {
      if key in items then Some(items[key]) else None
    }

    method SetItem(key: string, value: string)
      modifies this
      ensures items == old(items)[key := value]
    {
      items := items[key := value];
    }

    method RemoveItem(key: string)
      modifies this
      ensures items == old(items) - {key}
    {
      items := items - {key};
    }
  }
}
