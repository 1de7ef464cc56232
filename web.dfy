/**
 * The browser state the client reads and writes: `localStorage` (a string to
 * string map), `document.title` and `window.location.href`.
 */
module Web {
  import opened Wrappers

  /** The two storage keys that make up the persisted session. */
  const TokenKey := "token"
  const UserKey := "user"

  /** The session is kept whole: the token and the user record are stored, and removed, together. */
  predicate SessionConsistent(storage: map<string, string>)
  {
    (TokenKey in storage) <==> (UserKey in storage)
  }

  /** Removing both session keys leaves a consistent storage with no session in it and the rest intact. */
  lemma ClearedSessionConsistent(storage: map<string, string>)
    ensures var s := storage - {TokenKey, UserKey};
      SessionConsistent(s) && TokenKey !in s && UserKey !in s &&
      forall k :: k in storage && k != TokenKey && k != UserKey ==> k in s && s[k] == storage[k]
  {
  }

  class Browser {
    var storage: map<string, string>
    var title: string
    var location: string

    constructor (storage: map<string, string>, title: string, location: string)
      ensures this.storage == storage && this.title == title && this.location == location
    {
      this.storage := storage;
      this.title := title;
      this.location := location;
    }

    /** `localStorage.getItem(key)`: the stored string, or nothing when the key is missing. */
    function GetItem(key: string): (r: Option<string>)
      reads this
      ensures r.Some? <==> key in storage
      ensures r.Some? ==> r.value == storage[key]
    {
      if key in storage then Some(storage[key]) else None
    }

    /** `localStorage.removeItem(key)`: drops the key (if any) and keeps every other item. */
    method RemoveItem(key: string)
      modifies this`storage
      ensures storage == old(storage) - {key}
    {
      storage := storage - {key};
    }
  }
}
