/** The mobile client's session (mobile/components/AuthContext.tsx): the
    token, the signed-in user's profile and the loading flag, kept in step
    with the secure store's "userToken" entry and the client's default
    `Authorization` header. The outcome of each storage call and of the
    profile fetch is a parameter; `fetched` is the profile `/auth/me`
    returned, or `None` when that request failed. */
module AuthSession {
  import opened Common
  import opened Models
  import opened SecureStore
  import opened Api

  function BearerHeader(token: string): string {
    "Bearer " + token
  }

  class Session {
    var token: Option<string>
    var user: Option<Json>
    var isLoading: bool

    /** The initial state: no token, no user, loading. */
    constructor(client: Client, store: Store)
      requires client.defaultAuthorization == None
      ensures token == None && user == None && isLoading
      ensures Valid(client, store)
    {
      token := None;
      user := None;
      isLoading := true;
    }

    /** The header is the bearer of the token and is absent without one,
        the token is the one stored under "userToken", and there is no user
        without a token. */
    ghost predicate Valid(client: Client, store: Store)
      reads this, client, store
    {
      && client.defaultAuthorization == (if token.Some? then Some(BearerHeader(token.value)) else None)
      && (token.Some? ==> Lookup(store.items, UserTokenKey) == token)
      && (user.Some? ==> token.Some?)
    }

    /** `signOut`: a successful delete clears the token, the user and the
        header; a rejected one changes nothing, and nothing is thrown either
        way. */
    method SignOut(client: Client, store: Store, deleteFails: bool)
      requires Valid(client, store)
      modifies this, client, store
      ensures Valid(client, store)
      ensures isLoading == old(isLoading)
      ensures deleteFails ==>
        token == old(token) && user == old(user) && client.defaultAuthorization == old(client.defaultAuthorization)
        && store.items == old(store.items)
      ensures !deleteFails ==>
        token == None && user == None && client.defaultAuthorization == None
        && store.items == old(store.items) - {UserTokenKey}
    {
      var ok := store.DeleteItem(UserTokenKey, deleteFails);
      if ok {
        token := None;
        user := None;
        client.defaultAuthorization := None;
      }
    }

    /** `fetchUser`: the fetched profile becomes the user; a failed fetch
        signs out. */
    method FetchUser(client: Client, store: Store, fetched: Option<Json>, deleteFails: bool)
      requires Valid(client, store) && token.Some?
      modifies this, client, store
      ensures Valid(client, store)
      ensures isLoading == old(isLoading)
      ensures fetched.Some? ==>
        user == fetched && token == old(token) && client.defaultAuthorization == old(client.defaultAuthorization)
        && store.items == old(store.items)
      ensures fetched.None? && deleteFails ==>
        user == old(user) && token == old(token) && client.defaultAuthorization == old(client.defaultAuthorization)
        && store.items == old(store.items)
      ensures fetched.None? && !deleteFails ==>
        token == None && user == None && client.defaultAuthorization == None
        && store.items == old(store.items) - {UserTokenKey}
    {
      if fetched.Some? {
        user := fetched;
      } else {
        SignOut(client, store, deleteFails);
      }
    }

    /** `loadToken`: a stored non-empty token is adopted, put in the header
        and used to fetch the profile; no token, an empty one or a rejected
        read leaves the session signed out as it was. Loading ends in every
        case. */
    method LoadToken(client: Client, store: Store, readFails: bool, fetched: Option<Json>, deleteFails: bool)
      requires Valid(client, store)
      modifies this, client, store
      ensures Valid(client, store)
      ensures !isLoading
      ensures var stored := Lookup(old(store.items), UserTokenKey);
        (readFails || !TruthyStr(stored)) ==>
          token == old(token) && user == old(user) && client.defaultAuthorization == old(client.defaultAuthorization)
          && store.items == old(store.items)
      ensures var stored := Lookup(old(store.items), UserTokenKey);
        (!readFails && TruthyStr(stored) && fetched.Some?) ==>
          token == stored && user == fetched && client.defaultAuthorization == Some(BearerHeader(stored.value))
          && store.items == old(store.items)
      ensures var stored := Lookup(old(store.items), UserTokenKey);
        (!readFails && TruthyStr(stored) && fetched.None? && !deleteFails) ==>
          token == None && user == None && client.defaultAuthorization == None
          && store.items == old(store.items) - {UserTokenKey}
      ensures var stored := Lookup(old(store.items), UserTokenKey);
        (!readFails && TruthyStr(stored) && fetched.None? && deleteFails) ==>
          token == stored && user == old(user) && client.defaultAuthorization == Some(BearerHeader(stored.value))
          && store.items == old(store.items)
    {
      var read := store.GetItem(UserTokenKey, readFails);
      if read.Value? && TruthyStr(read.stored) {
        token := read.stored;
        client.defaultAuthorization := Some(BearerHeader(read.stored.value));
        FetchUser(client, store, fetched, deleteFails);
      }
      isLoading := false;
    }

    /** `signIn`: the token is stored, adopted and put in the header, then
        the profile is fetched. When the store rejects the write, `signIn`
        throws (`thrown`) and nothing changes; a failed fetch signs out and
        `signIn` still returns normally. */
    method SignIn(client: Client, store: Store, newToken: string, writeFails: bool, fetched: Option<Json>,
                  deleteFails: bool) returns (thrown: bool)
      requires Valid(client, store)
      modifies this, client, store
      ensures Valid(client, store)
      ensures thrown == writeFails
      ensures isLoading == old(isLoading)
      ensures writeFails ==>
        token == old(token) && user == old(user) && client.defaultAuthorization == old(client.defaultAuthorization)
        && store.items == old(store.items)
      ensures !writeFails && fetched.Some? ==>
        token == Some(newToken) && user == fetched && client.defaultAuthorization == Some(BearerHeader(newToken))
        && store.items == old(store.items)[UserTokenKey := newToken]
      ensures !writeFails && fetched.None? && !deleteFails ==>
        token == None && user == None && client.defaultAuthorization == None
        && store.items == old(store.items)[UserTokenKey := newToken] - {UserTokenKey}
      ensures !writeFails && fetched.None? && deleteFails ==>
        token == Some(newToken) && user == old(user) && client.defaultAuthorization == Some(BearerHeader(newToken))
        && store.items == old(store.items)[UserTokenKey := newToken]
      ensures Lookup(store.items, InterceptorTokenKey) == Lookup(old(store.items), InterceptorTokenKey)
      ensures SignedIn(this, client, store, old(token), old(user), old(client.defaultAuthorization), old(store.items),
                       newToken, writeFails, fetched, deleteFails)
    {
      var ok := store.SetItem(UserTokenKey, newToken, writeFails);
      TokenKeysDistinct(old(store.items), newToken);
      TokenKeysDistinct(old(store.items)[UserTokenKey := newToken], newToken);
      if !ok {
        return true;
      }
      token := Some(newToken);
      client.defaultAuthorization := Some(BearerHeader(newToken));
      FetchUser(client, store, fetched, deleteFails);
      thrown := false;
    }
  }

  /** The token, user, header and stored items `signIn` leaves, given their
      values before it (`token0`, `user0`, `auth0`, `items0`): all four
      unchanged when the write fails; the token adopted, the fetched profile
      as the user and the bearer header when the fetch succeeds; signed out
      with the key deleted when the fetch fails and the delete succeeds; and
      the token and header kept, the user unchanged, when the delete fails
      too. */
  ghost predicate SignedIn(session: Session, client: Client, store: Store, token0: Option<string>,
                           user0: Option<Json>, auth0: Option<string>, items0: map<string, string>,
                           newToken: string, writeFails: bool, fetched: Option<Json>, deleteFails: bool)
    reads session, client, store
  {
    && (writeFails ==>
          session.token == token0 && session.user == user0 && client.defaultAuthorization == auth0
          && store.items == items0)
    && (!writeFails && fetched.Some? ==>
          session.token == Some(newToken) && session.user == fetched
          && client.defaultAuthorization == Some(BearerHeader(newToken))
          && store.items == items0[UserTokenKey := newToken])
    && (!writeFails && fetched.None? && !deleteFails ==>
          session.token == None && session.user == None && client.defaultAuthorization == None
          && store.items == items0[UserTokenKey := newToken] - {UserTokenKey})
    && (!writeFails && fetched.None? && deleteFails ==>
          session.token == Some(newToken) && session.user == user0
          && client.defaultAuthorization == Some(BearerHeader(newToken))
          && store.items == items0[UserTokenKey := newToken])
  }
}
