/** The device's secure key-value store (`expo-secure-store`) as the mobile
    client uses it. Whether an asynchronous call rejects is a parameter of
    each operation; a rejected call changes nothing. */
module SecureStore {
  import opened Common

  /** The key the session keeps its token under. */
  const UserTokenKey: string := "userToken"
  /** The key the request interceptor reads; nothing in the client writes it. */
  const InterceptorTokenKey: string := "token"
  /** The key the language preference is kept under. */
  const LanguageKey: string := "language"

  /** The outcome of `getItemAsync`: the stored value (`null` when absent),
      or a rejection. */
  datatype ReadResult = Value(stored: Option<string>) | ReadFailed

  function Lookup(items: map<string, string>, key: string): (r: Option<string>)
    ensures r.Some? <==> key in items
    ensures r.Some? ==> r.value == items[key]
  {
    if key in items then Some(items[key]) else None
  }

  class Store {
    var items: map<string, string>

    constructor(initial: map<string, string>)
      ensures items == initial
    {
      items := initial;
    }

    /** `getItemAsync(key)`. */
    method GetItem(key: string, fails: bool) returns (r: ReadResult)
      ensures fails ==> r == ReadFailed
      ensures !fails ==> r == Value(Lookup(items, key))
    {
      if fails {
        return ReadFailed;
      }
      r := Value(Lookup(items, key));
    }

    /** `setItemAsync(key, value)`; `ok` is false when it rejects. */
    method SetItem(key: string, value: string, fails: bool) returns (ok: bool)
      modifies this
      ensures ok == !fails
      ensures items == if fails then old(items) else old(items)[key := value]
    {
      if fails {
        return false;
      }
      items := items[key := value];
      ok := true;
    }

    /** `deleteItemAsync(key)`; `ok` is false when it rejects. */
    method DeleteItem(key: string, fails: bool) returns (ok: bool)
      modifies this
      ensures ok == !fails
      ensures items == if fails then old(items) else old(items) - {key}
    {
      if fails {
        return false;
      }
      items := items - {key};
      ok := true;
    }
  }

  /** The session's key and the interceptor's key are different entries. */
  lemma TokenKeysDistinct(items: map<string, string>, v: string)
    ensures UserTokenKey != InterceptorTokenKey
    ensures Lookup(items[UserTokenKey := v], InterceptorTokenKey) == Lookup(items, InterceptorTokenKey)
    ensures Lookup(items - {UserTokenKey}, InterceptorTokenKey) == Lookup(items, InterceptorTokenKey)
  {
    assert UserTokenKey[0] != InterceptorTokenKey[0];
  }
}
