/**
 * The credential store: the browser's `localStorage`, a map from string keys to
 * string values that survives a page reload. The client reads two slots, `key`
 * (the API key) and `user` (the user id), and clears the whole map on logout.
 */
module Credentials {
  import opened Wrappers

  const KeyApiKey := "key"
  const KeyUserId := "user"

  type Store = map<string, string>

  /** The credentials as the client sees them: `null` for a slot that is unusable. */
  datatype Credentials = Credentials(key: Option<string>, user: Option<string>)

  /** `getItem(name) || null`: a missing slot and an empty string are both `null`. */
  function OrNull(store: Store, name: string): Option<string>
  {
    if name in store && store[name] != "" then Some(store[name]) else None
  }

  /** getStoredCredentials: normalises each of the two slots independently. */
  function GetStoredCredentials(store: Store): (c: Credentials)
    ensures c.key.None? <==> KeyApiKey !in store || store[KeyApiKey] == ""
    ensures c.key.Some? ==> KeyApiKey in store && c.key.value == store[KeyApiKey]
    ensures c.user.None? <==> KeyUserId !in store || store[KeyUserId] == ""
    ensures c.user.Some? ==> KeyUserId in store && c.user.value == store[KeyUserId]
  {
    Credentials(OrNull(store, KeyApiKey), OrNull(store, KeyUserId))
  }

  /** Two `setItem` calls: the API key slot, then the user id slot. */
  function Save(store: Store, key: string, user: string): (r: Store)
    ensures r.Keys == store.Keys + {KeyApiKey, KeyUserId}
    ensures r[KeyApiKey] == key && r[KeyUserId] == user
    ensures forall name :: name in store && name != KeyApiKey && name != KeyUserId ==> r[name] == store[name]
  {
    store[KeyApiKey := key][KeyUserId := user]
  }

  /** A string as the credential reader sees it once stored. */
  function NonEmpty(s: string): Option<string>
  {
    if s == "" then None else Some(s)
  }

  /** What is saved is what is read back, up to the empty-string-is-null rule. */
  lemma SaveThenGet(store: Store, key: string, user: string)
    ensures GetStoredCredentials(Save(store, key, user)) == Credentials(NonEmpty(key), NonEmpty(user))
  {
  }

  /** After `clear()` both slots read as `null`. */
  lemma ClearedStoreHasNoCredentials()
    ensures GetStoredCredentials(map[]) == Credentials(None, None)
  {
  }

  /** Only the two credential slots are read: writing or removing any other entry never matters. */
  lemma OnlyCredentialSlotsAreRead(store: Store, name: string, v: string)
    requires name != KeyApiKey && name != KeyUserId
    ensures GetStoredCredentials(store[name := v]) == GetStoredCredentials(store)
    ensures GetStoredCredentials(store - {name}) == GetStoredCredentials(store)
  {
  }
}
