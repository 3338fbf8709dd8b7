/**
  The renderer's authentication context (`AuthProvider` and `useAuth`): three
  pieces of state tied to the store key 'youtube_auth_token'. A failure of a
  store call made through the IPC bridge is a parameter.
*/
module AuthContext {

  import opened Values
  import opened ElectronMain

  const TokenKey: string := "youtube_auth_token"

  /** The token `login` stores while the OAuth flow is not wired in. */
  const SampleToken: string := "sample_token"

  /** What the context exposes besides its two callbacks. */
  datatype ContextView = ContextView(isAuthenticated: bool, loading: bool, user: Value)

  /** The user object `{ token }` made from a stored token. */
  function TokenUser(token: Value): (u: Value)
    ensures u.Record? && "token" in u.fields && u.fields["token"] == token
    ensures Truthy(u)
  {
    Record(map["token" := token])
  }

  /** The values of the context outside any provider. */
  function DefaultContext(): (v: ContextView)
    ensures !v.isAuthenticated && v.loading && v.user == Null
  {
    ContextView(false, true, Null)
  }

  /** The default context's `login` resolves to false; its `logout` does nothing. */
  method DefaultLogin(credentials: Value) returns (ok: bool)
    ensures !ok
  {
    ok := false;
  }

  class AuthProvider {
    var isAuthenticated: bool
    var loading: bool
    var user: Value
    const store: Store

    function View(): (v: ContextView)
      reads this
    {
      ContextView(isAuthenticated, loading, user)
    }

    /** A provider before its mount effect has run: signed out and loading, as the default context. */
    constructor (store: Store)
      ensures View() == DefaultContext()
      ensures this.store == store
    {
      isAuthenticated := false;
      loading := true;
      user := Null;
      this.store := store;
    }

    /** The `checkAuth` mount effect; `readFails` says the store read threw. */
    method CheckAuth(readFails: bool)
      modifies this
      ensures !loading
      ensures !readFails && Truthy(Lookup(store.entries, TokenKey)) ==>
        isAuthenticated && user == TokenUser(Lookup(store.entries, TokenKey))
      ensures readFails || !Truthy(Lookup(store.entries, TokenKey)) ==>
        isAuthenticated == old(isAuthenticated) && user == old(user)
    {
      if !readFails {
        var token := store.Get(TokenKey);
        if Truthy(token) {
          isAuthenticated := true;
          user := TokenUser(token);
        }
      }
      loading := false;
    }

    /** `login`; `writeFails` says the store write threw, in which case nothing is stored. */
    method Login(credentials: Value, writeFails: bool) returns (ok: bool)
      modifies this, store
      ensures ok == !writeFails
      ensures !loading
      ensures ok ==> store.entries == old(store.entries)[TokenKey := Str(SampleToken)]
      ensures ok ==> isAuthenticated && user == TokenUser(Str(SampleToken))
      ensures !ok ==> store.entries == old(store.entries)
      ensures !ok ==> isAuthenticated == old(isAuthenticated) && user == old(user)
    {
      loading := true;
      if writeFails {
        ok := false;
      } else {
        var _ := store.Set(TokenKey, Str(SampleToken));
        isAuthenticated := true;
        user := TokenUser(Str(SampleToken));
        ok := true;
      }
      loading := false;
    }

    /**
      `logout`: the store write is not awaited. A write that throws at once
      stops `logout` before the session is cleared; a write rejected later
      leaves the token stored while the session is cleared.
    */
    method Logout(call: BridgeCall)
      modifies this, store
      ensures call == Completed ==> store.entries == old(store.entries)[TokenKey := Null]
      ensures call != Completed ==> store.entries == old(store.entries)
      ensures call != ThrewAtOnce ==> !isAuthenticated && user == Null
      ensures call == ThrewAtOnce ==> isAuthenticated == old(isAuthenticated) && user == old(user)
      ensures loading == old(loading)
    {
      if call == ThrewAtOnce {
        return;
      }
      if call == Completed {
        var _ := store.Set(TokenKey, Null);
      }
      isAuthenticated := false;
      user := Null;
    }
  }

  /** Mounting a provider: after its effect it is signed in iff the store read succeeded and found a truthy token. */
  method Mount(store: Store, readFails: bool) returns (p: AuthProvider)
    ensures fresh(p) && p.store == store
    ensures !p.loading
    ensures p.isAuthenticated <==> !readFails && Truthy(Lookup(store.entries, TokenKey))
    ensures p.isAuthenticated ==> p.user == TokenUser(Lookup(store.entries, TokenKey))
    ensures !p.isAuthenticated ==> p.user == Null
  {
    p := new AuthProvider(store);
    p.CheckAuth(readFails);
  }

  /** A login is seen by the next mount; a logout is too. */
  method LoginSurvivesRemount(store: Store) returns (afterLogin: ContextView, afterLogout: ContextView)
    modifies store
    ensures afterLogin == ContextView(true, false, TokenUser(Str(SampleToken)))
    ensures afterLogout == ContextView(false, false, Null)
  {
    var p := Mount(store, false);
    var ok := p.Login(Null, false);
    var q := Mount(store, false);
    afterLogin := q.View();
    q.Logout(Completed);
    var r := Mount(store, false);
    afterLogout := r.View();
  }

  /** A logout whose store write is rejected signs the provider out, but the next mount signs it in again. */
  method RejectedLogoutReturnsOnRemount(store: Store) returns (afterLogout: ContextView, afterRemount: ContextView)
    modifies store
    ensures afterLogout == ContextView(false, false, Null)
    ensures afterRemount == ContextView(true, false, TokenUser(Str(SampleToken)))
  {
    var p := Mount(store, false);
    var ok := p.Login(Null, false);
    p.Logout(Rejected);
    afterLogout := p.View();
    var q := Mount(store, false);
    afterRemount := q.View();
  }
}
