/** The authentication store: the signed-in user, the token, the two flags,
    and the browser's local storage that keeps the token across reloads. */
module AuthStore {
  import opened Seqs
  import opened Types

  const TokenKey := "access_token"
  const PersistKey := "auth-storage"

  /** Local storage after signing out: both keys removed, nothing else touched. */
  function SignedOutStorage(storage: map<string, string>): (r: map<string, string>)
    ensures TokenKey !in r && PersistKey !in r
    ensures forall k :: k in storage && k != TokenKey && k != PersistKey ==> k in r && r[k] == storage[k]
    ensures forall k :: k in r ==> k in storage
  {
    storage - {TokenKey, PersistKey}
  }

  /** Signing out twice leaves the storage as signing out once. */
  lemma SignOutIdempotent(storage: map<string, string>)
    ensures SignedOutStorage(SignedOutStorage(storage)) == SignedOutStorage(storage)
  {
    var once := SignedOutStorage(storage);
    assert SignedOutStorage(once).Keys == once.Keys;
  }

  class Store {
    /** Whether the store runs in a browser, where local storage exists. */
    const inBrowser: bool
    var user: Option<User>
    var token: Option<string>
    var isAuthenticated: bool
    var isLoading: bool
    var storage: map<string, string>

    /** A signed-out store holds neither user nor token, and in a browser
        the token in memory is the one in local storage. */
    predicate Valid()
      reads this
    {
      && (!isAuthenticated ==> user.None? && token.None?)
      && (inBrowser && token.Some? ==> TokenKey in storage && storage[TokenKey] == token.value)
    }

    /** The store as created: no user, no token, signed out, loading. */
    constructor (inBrowser: bool, storage: map<string, string>)
      ensures this.inBrowser == inBrowser && this.storage == storage
      ensures user.None? && token.None? && !isAuthenticated && isLoading
      ensures Valid()
    {
      this.inBrowser := inBrowser;
      this.storage := storage;
      user, token, isAuthenticated, isLoading := None, None, false, true;
    }

    /** `setToken`: keeps the token (and stores it in a browser) and marks
        the store signed in; user and loading flag are untouched. */
    method SetToken(t: string)
      modifies this
      requires Valid()
      ensures token == Some(t) && isAuthenticated
      ensures user == old(user) && isLoading == old(isLoading)
      ensures storage == if inBrowser then old(storage)[TokenKey := t] else old(storage)
      ensures Valid()
    {
      if inBrowser {
        storage := storage[TokenKey := t];
      }
      token := Some(t);
      isAuthenticated := true;
    }

    /** `setUser`: the user is known, signed in, done loading. */
    method SetUser(u: User)
      modifies this
      requires Valid()
      ensures user == Some(u) && isAuthenticated && !isLoading
      ensures token == old(token) && storage == old(storage)
      ensures Valid()
    {
      user := Some(u);
      isAuthenticated := true;
      isLoading := false;
    }

    /** `logout`: both storage keys go, and the store is signed out and done loading. */
    method Logout()
      modifies this
      ensures user.None? && token.None? && !isAuthenticated && !isLoading
      ensures storage == if inBrowser then SignedOutStorage(old(storage)) else old(storage)
      ensures Valid()
    {
      if inBrowser {
        storage := SignedOutStorage(storage);
      }
      user, token, isAuthenticated, isLoading := None, None, false, false;
    }

    /** `fetchUser`: `me` is the current user the server returns, None when
        the request fails; a failure signs out exactly as `logout` does. */
    method FetchUser(me: Option<User>)
      modifies this
      requires Valid()
      ensures me.Some? ==> user == me && isAuthenticated && !isLoading && token == old(token) && storage == old(storage)
      ensures me.None? ==> user.None? && token.None? && !isAuthenticated && !isLoading
      ensures me.None? ==> storage == if inBrowser then SignedOutStorage(old(storage)) else old(storage)
      ensures Valid()
    {
      if me.Some? {
        SetUser(me.value);
      } else {
        Logout();
      }
    }

    /** `initialize`: outside a browser, or with no stored token, loading
        simply ends; with a stored token the store signs in with it and
        then fetches the user (`me` as in `FetchUser`). */
    method Initialize(me: Option<User>)
      modifies this
      requires Valid()
      ensures var stored := if inBrowser && TokenKey in old(storage) && old(storage)[TokenKey] != "" then Some(old(storage)[TokenKey]) else None;
        stored.None? ==> user == old(user) && token == old(token) && isAuthenticated == old(isAuthenticated) && !isLoading && storage == old(storage)
      ensures var stored := if inBrowser && TokenKey in old(storage) && old(storage)[TokenKey] != "" then Some(old(storage)[TokenKey]) else None;
        stored.Some? && me.Some? ==> user == me && token == stored && isAuthenticated && !isLoading && storage == old(storage)
      ensures var stored := if inBrowser && TokenKey in old(storage) && old(storage)[TokenKey] != "" then Some(old(storage)[TokenKey]) else None;
        stored.Some? && me.None? ==> user.None? && token.None? && !isAuthenticated && !isLoading && storage == SignedOutStorage(old(storage))
      ensures Valid()
    {
      if !inBrowser {
        isLoading := false;
        return;
      }
      if TokenKey in storage && storage[TokenKey] != "" {
        token := Some(storage[TokenKey]);
        isAuthenticated := true;
        FetchUser(me);
      } else {
        isLoading := false;
      }
    }
  }
}
