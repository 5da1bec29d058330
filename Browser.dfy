/** The browser's `window.localStorage`, as far as the client uses it. */
module Browser {
  import opened Wrappers

  /** The two keys the client stores: the bearer token and the signed-in username. */
  const TokenKey: string := "token"
  const UsernameKey: string := "username"

  /** What `logout` leaves in storage: everything but the two session keys. */
  function LoggedOut(items: map<string, string>): (r: map<string, string>)
    ensures TokenKey !in r && UsernameKey !in r
    ensures forall k :: k in items && k != TokenKey && k != UsernameKey ==> k in r && r[k] == items[k]
    ensures forall k :: k in r ==> k in items
  {
    items - {TokenKey, UsernameKey}
  }

  /** Logging out twice is logging out once, and an earlier removal of the token makes no difference. */
  lemma LoggedOutAbsorbs(items: map<string, string>)
    ensures LoggedOut(LoggedOut(items)) == LoggedOut(items)
    ensures LoggedOut(items - {TokenKey}) == LoggedOut(items)
  {
  }

  /** A key-value store of strings. */
  class LocalStorage {
    var items: map<string, string>

    constructor (items: map<string, string>)
      ensures this.items == items
    {
      this.items := items;
    }

    /** `getItem(key)`: the stored string, or null. */
    function GetItem(key: string): Option<string>
      reads this
    {
      if key in items then Some(items[key]) else None
    }

    /** `setItem(key, value)`. */
    method SetItem(key: string, value: string)
      modifies this
      ensures items == old(items)[key := value]
    {
      items := items[key := value];
    }

    /** `removeItem(key)`; removing an absent key does nothing. */
    method RemoveItem(key: string)
      modifies this
      ensures items == old(items) - {key}
    {
      items := items - {key};
    }
  }
}
