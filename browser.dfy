/** The browser state the front end reads and writes: `localStorage`,
    `sessionStorage` (both string-to-string stores) and the current location. */
module Browser {
  import opened Js

  type Store = map<string, string>

  const ACCESS_TOKEN := "access_token"
  const REFRESH_TOKEN := "refresh_token"
  const SAVED_USERNAME := "saved_username"
  const LOGIN_PATH := "/login"

  /** `storage.getItem(key)`: the stored text, or `null` when the key is absent. */
  function Item(store: Store, key: string): (v: Value)
    ensures v.Str? <==> key in store
    ensures v.Null? <==> key !in store
    ensures key in store ==> v.s == store[key]
  {
    if key in store then Str(store[key]) else Null
  }

  /** `if (storage.getItem(key))`: the key is present and its text is not empty. */
  predicate Holds(store: Store, key: string)
    ensures Holds(store, key) <==> key in store && store[key] != ""
  {
    Truthy(Item(store, key))
  }

  /** `localStorage.removeItem('access_token'); localStorage.removeItem('refresh_token')`. */
  function ClearTokens(local: Store): (r: Store)
    ensures ACCESS_TOKEN !in r && REFRESH_TOKEN !in r
    ensures forall k :: k != ACCESS_TOKEN && k != REFRESH_TOKEN ==> Item(r, k) == Item(local, k)
  {
    local - {ACCESS_TOKEN, REFRESH_TOKEN}
  }

  /** Clearing already-cleared storage changes nothing. */
  lemma ClearTokensIdempotent(local: Store)
    ensures ClearTokens(ClearTokens(local)) == ClearTokens(local)
  {
    assert ClearTokens(ClearTokens(local)).Keys == ClearTokens(local).Keys;
  }

  /** The browser window shared by every component. */
  class Window {
    var local: Store
    var session: Store
    var location: string

    constructor (local: Store, session: Store, location: string)
      ensures this.local == local && this.session == session && this.location == location
    {
      this.local := local;
      this.session := session;
      this.location := location;
    }
  }
}
