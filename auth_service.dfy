/**
  `AuthService`: the OAuth 2.0 token lifecycle of the signed-in YouTube account.
  Authorization-code exchange (section 4.1.3 of RFC 6749), refresh with a
  refresh token (section 6 of RFC 6749) when the access token is within five
  minutes of expiry, logout, and restoring the saved session at startup. Every
  change of the session is written to the persistent store under 'auth_state'.

  The OAuth library's network calls are not modelled: their answers are
  parameters (`None` when the call threw), and so is the clock (`now`, in
  milliseconds).
*/
module Auth {

  import opened Wrappers
  import opened Values
  import opened ElectronMain

  /** The store key the session is saved under. */
  const AuthStateKey: string := "auth_state"

  /** Tokens are refreshed when fewer than five minutes (in milliseconds) remain. */
  const RefreshWindowMs: int := 5 * 60 * 1000

  datatype AuthTokens = AuthTokens(accessToken: string, refreshToken: string, expiryDate: int)

  /** The session: `user` is the profile Google returned (`Null` when there is none). */
  datatype AuthState = AuthState(isAuthenticated: bool, user: Value, tokens: Option<AuthTokens>)

  /**
    A token set as the OAuth library passes it around: the `tokens` answered by
    `getToken`, the `credentials` answered by `refreshAccessToken`, and the
    argument of `setCredentials`. An absent field is `None`.
  */
  datatype Credentials = Credentials(accessToken: Option<string>, refreshToken: Option<string>, expiryDate: Option<int>)

  datatype AuthError =
    | TokenRequestFailed  // the token endpoint call threw
    | InvalidTokens       // 'Invalid tokens received': no access token or no expiry

  function LoggedOut(): (r: AuthState)
  {
    AuthState(false, Null, None)
  }

  /** A token response the service accepts: a non-empty access token and a non-zero expiry. */
  predicate Usable(c: Credentials)
  {
    Present(c.accessToken) && PresentNum(c.expiryDate)
  }

  /** The tokens kept after an authorization-code exchange; a missing refresh token becomes ''. */
  function ExchangedTokens(c: Credentials): (r: AuthTokens)
    requires Usable(c)
    ensures Some(r.accessToken) == c.accessToken && Some(r.expiryDate) == c.expiryDate
    ensures Present(c.refreshToken) ==> Some(r.refreshToken) == c.refreshToken
    ensures !Present(c.refreshToken) ==> r.refreshToken == ""
  {
    AuthTokens(c.accessToken.value, if Present(c.refreshToken) then c.refreshToken.value else "", c.expiryDate.value)
  }

  /** The tokens kept after a refresh; the current refresh token is kept when the server sends none. */
  function RenewedTokens(current: AuthTokens, c: Credentials): (r: AuthTokens)
    requires Usable(c)
    ensures Some(r.accessToken) == c.accessToken && Some(r.expiryDate) == c.expiryDate
    ensures Present(c.refreshToken) ==> Some(r.refreshToken) == c.refreshToken
    ensures !Present(c.refreshToken) ==> r.refreshToken == current.refreshToken
  {
    AuthTokens(c.accessToken.value, if Present(c.refreshToken) then c.refreshToken.value else current.refreshToken, c.expiryDate.value)
  }

  /** The credentials the OAuth client is given to act with `t`. */
  function CredentialsOf(t: AuthTokens): (r: Credentials)
  {
    Credentials(Some(t.accessToken), Some(t.refreshToken), Some(t.expiryDate))
  }

  /** The outcome of `refreshTokenIfNeeded`. */
  datatype RefreshDecision =
    | NoTokens                    // no session: false
    | StillFresh                  // five minutes or more left: true, nothing done
    | Refreshed(tokens: AuthTokens) // refreshed and saved: true
    | RefreshFailed               // refresh threw or answered without token or expiry: false
  {
    predicate Ok()
    {
      StillFresh? || Refreshed?
    }
  }

  /** The freshness rule and the refresh outcome, given the refresh call's answer. */
  function DecideRefresh(tokens: Option<AuthTokens>, now: int, response: Option<Credentials>): (d: RefreshDecision)
    ensures d.NoTokens? <==> tokens.None?
    ensures d.StillFresh? <==> tokens.Some? && tokens.value.expiryDate - now >= RefreshWindowMs
    ensures d.Refreshed? <==> tokens.Some? && tokens.value.expiryDate - now < RefreshWindowMs &&
                              response.Some? && Usable(response.value)
    ensures d.Refreshed? ==> d.tokens.accessToken == response.value.accessToken.value &&
                             d.tokens.expiryDate == response.value.expiryDate.value
    ensures d.Refreshed? && !Present(response.value.refreshToken) ==> d.tokens.refreshToken == tokens.value.refreshToken
    ensures d.Refreshed? && Present(response.value.refreshToken) ==> d.tokens.refreshToken == response.value.refreshToken.value
    ensures d.Ok() ==> tokens.Some?
  {
    if tokens.None? then NoTokens
    else if tokens.value.expiryDate - now >= RefreshWindowMs then StillFresh
    else if response.Some? && Usable(response.value) then Refreshed(RenewedTokens(tokens.value, response.value))
    else RefreshFailed
  }

  /** The session after a refresh decision: only the tokens can change. */
  function AfterRefresh(s: AuthState, d: RefreshDecision): (r: AuthState)
    ensures r.isAuthenticated == s.isAuthenticated && r.user == s.user
    ensures d.Refreshed? ==> r.tokens == Some(d.tokens)
    ensures !d.Refreshed? ==> r == s
  {
    if d.Refreshed? then s.(tokens := Some(d.tokens)) else s
  }

  /** A refresh never touches the authenticated flag or the user, and keeps tokens unless it refreshed them. */
  lemma RefreshKeepsSession(s: AuthState, now: int, response: Option<Credentials>)
    ensures AfterRefresh(s, DecideRefresh(s.tokens, now, response)).isAuthenticated == s.isAuthenticated
    ensures AfterRefresh(s, DecideRefresh(s.tokens, now, response)).user == s.user
    ensures !DecideRefresh(s.tokens, now, response).Refreshed? ==> AfterRefresh(s, DecideRefresh(s.tokens, now, response)) == s
  {
  }

  /**
    A refresh that reports success leaves a session with tokens that are either
    not yet due or were just issued by the server.
  */
  lemma RefreshOkMeansUsableTokens(s: AuthState, now: int, response: Option<Credentials>)
    requires DecideRefresh(s.tokens, now, response).Ok()
    ensures AfterRefresh(s, DecideRefresh(s.tokens, now, response)).tokens.Some?
    ensures var t := AfterRefresh(s, DecideRefresh(s.tokens, now, response)).tokens.value;
            t.expiryDate - now >= RefreshWindowMs ||
            (response.Some? && Usable(response.value) && t.accessToken == response.value.accessToken.value)
  {
  }

  /** A refresh that is granted a token valid for five minutes or more is not repeated at the same instant. */
  lemma RefreshSettles(s: AuthState, now: int, response: Option<Credentials>, again: Option<Credentials>)
    requires DecideRefresh(s.tokens, now, response).Refreshed?
    requires response.value.expiryDate.value - now >= RefreshWindowMs
    ensures DecideRefresh(AfterRefresh(s, DecideRefresh(s.tokens, now, response)).tokens, now, again).StillFresh?
  {
  }

  // The session as it is saved in the store.

  function EncodeTokens(t: AuthTokens): (r: Value)
  {
    Record(map["accessToken" := Str(t.accessToken), "refreshToken" := Str(t.refreshToken), "expiryDate" := Num(t.expiryDate)])
  }

  /** The record `saveAuthState` stores: the three fields of the session, with null for no tokens. */
  function EncodeState(s: AuthState): (r: Value)
    ensures r.Record? && r.fields.Keys == {"isAuthenticated", "user", "tokens"}
    ensures r.fields["isAuthenticated"] == Bool(s.isAuthenticated) && r.fields["user"] == s.user
    ensures r.fields["tokens"] == Null <==> s.tokens.None?
  {
    Record(map[
      "isAuthenticated" := Bool(s.isAuthenticated),
      "user" := s.user,
      "tokens" := if s.tokens.Some? then EncodeTokens(s.tokens.value) else Null])
  }

  function DecodeTokens(v: Value): (r: Option<AuthTokens>)
  {
    if v.Record? && v.fields.Keys == {"accessToken", "refreshToken", "expiryDate"} &&
       v.fields["accessToken"].Str? && v.fields["refreshToken"].Str? && v.fields["expiryDate"].Num?
    then Some(AuthTokens(v.fields["accessToken"].s, v.fields["refreshToken"].s, v.fields["expiryDate"].n))
    else None
  }

  /** Reads a saved session back; any value of another shape is not a session. */
  function DecodeState(v: Value): (r: Option<AuthState>)
    ensures r.Some? ==> v.Record? && v.fields.Keys == {"isAuthenticated", "user", "tokens"}
    ensures r.Some? ==> v.fields["isAuthenticated"] == Bool(r.value.isAuthenticated) && v.fields["user"] == r.value.user
    ensures r.Some? ==> (v.fields["tokens"] == Null <==> r.value.tokens.None?)
  {
    if v.Record? && v.fields.Keys == {"isAuthenticated", "user", "tokens"} && v.fields["isAuthenticated"].Bool? &&
       (v.fields["tokens"] == Null || DecodeTokens(v.fields["tokens"]).Some?)
    then Some(AuthState(
      v.fields["isAuthenticated"].b,
      v.fields["user"],
      if v.fields["tokens"] == Null then None else DecodeTokens(v.fields["tokens"])))
    else None
  }

  /** A saved session reads back as itself. */
  lemma DecodeEncode(s: AuthState)
    ensures DecodeState(EncodeState(s)) == Some(s)
  {
    if s.tokens.Some? {
      var t := s.tokens.value;
      assert DecodeTokens(EncodeTokens(t)) == Some(t);
    }
  }

  /** Every value that reads as a session is exactly that session's saved form. */
  lemma EncodeDecode(v: Value)
    requires DecodeState(v).Some?
    ensures EncodeState(DecodeState(v).value) == v
  {
    var s := DecodeState(v).value;
    var f := v.fields;
    if s.tokens.Some? {
      var g := f["tokens"].fields;
      assert EncodeTokens(s.tokens.value).fields == g by {
        assert EncodeTokens(s.tokens.value).fields.Keys == g.Keys;
      }
    }
    assert EncodeState(s).fields.Keys == f.Keys;
    assert EncodeState(s).fields == f;
  }

  /** The stored value from which startup restores a session: a saved session that has tokens. */
  predicate Restorable(v: Value)
  {
    DecodeState(v).Some? && DecodeState(v).value.tokens.Some?
  }

  class AuthService {
    /** The session (`authState`). */
    var state: AuthState
    /** The credentials last given to the OAuth client. */
    var credentials: Credentials
    /** The persistent store the session is saved to. */
    const store: Store

    /** The session starts signed out; restoring the saved one is `LoadAuthState`. */
    constructor (store: Store)
      ensures state == LoggedOut() && !IsAuthenticated()
      ensures state.user == Null && state.tokens == None
      ensures credentials == Credentials(None, None, None)
      ensures this.store == store
    {
      state := LoggedOut();
      credentials := Credentials(None, None, None);
      this.store := store;
    }

    /** The store holds exactly the current session. */
    ghost predicate Persisted()
      reads this, store
    {
      Lookup(store.entries, AuthStateKey) == EncodeState(state)
    }

    /** `isAuthenticated()`: the flag is set and there are tokens. */
    function IsAuthenticated(): (r: bool)
      reads this
      ensures r ==> state.tokens.Some?
      ensures !state.isAuthenticated ==> !r
    {
      state.isAuthenticated && state.tokens.Some?
    }

    /** `saveAuthState`: writes the session under 'auth_state'. */
    method SaveAuthState()
      modifies store
      ensures store.entries == old(store.entries)[AuthStateKey := EncodeState(state)]
      ensures Persisted()
    {
      var _ := store.Set(AuthStateKey, EncodeState(state));
    }

    /**
      `exchangeCodeForTokens`: `response` is what the token endpoint answered for
      the code (None when the call threw) and `userInfo` what the profile request
      answered (`Null` when it failed).
    */
    method ExchangeCodeForTokens(response: Option<Credentials>, userInfo: Value) returns (r: Result<AuthTokens, AuthError>)
      modifies this, store
      ensures r.Failure? <==> !(response.Some? && Usable(response.value))
      ensures response.None? ==> r == Failure(TokenRequestFailed)
      ensures response.Some? && !Usable(response.value) ==> r == Failure(InvalidTokens)
      ensures r.Failure? ==> state == old(state) && credentials == old(credentials) && store.entries == old(store.entries)
      ensures r.Success? ==> r.value == ExchangedTokens(response.value)
      ensures r.Success? ==> state == AuthState(true, userInfo, Some(r.value)) && IsAuthenticated()
      ensures r.Success? ==> credentials == response.value
      ensures r.Success? ==> store.entries == old(store.entries)[AuthStateKey := EncodeState(state)] && Persisted()
    {
      if response.None? {
        return Failure(TokenRequestFailed);
      }
      var tokens := response.value;
      if !Present(tokens.accessToken) || !PresentNum(tokens.expiryDate) {
        return Failure(InvalidTokens);
      }
      var authTokens := AuthTokens(
        tokens.accessToken.value,
        if Present(tokens.refreshToken) then tokens.refreshToken.value else "",
        tokens.expiryDate.value);
      credentials := tokens;
      state := AuthState(true, userInfo, Some(authTokens));
      SaveAuthState();
      r := Success(authTokens);
    }

    /** `logout`: forgets the session and saves the signed-out state. */
    method Logout()
      modifies this, store
      ensures state == LoggedOut() && !IsAuthenticated()
      ensures credentials == old(credentials)
      ensures store.entries == old(store.entries)[AuthStateKey := EncodeState(LoggedOut())]
      ensures Persisted()
    {
      state := LoggedOut();
      SaveAuthState();
    }

    /**
      `refreshTokenIfNeeded` at time `now`; `response` is what the refresh call
      answered (None when it threw).
    */
    method RefreshTokenIfNeeded(now: int, response: Option<Credentials>) returns (ok: bool)
      modifies this, store
      ensures ok == DecideRefresh(old(state.tokens), now, response).Ok()
      ensures state == AfterRefresh(old(state), DecideRefresh(old(state.tokens), now, response))
      ensures credentials ==
        if old(state.tokens).Some? && old(state.tokens.value.expiryDate) - now < RefreshWindowMs
        then Credentials(None, Some(old(state.tokens.value.refreshToken)), None)
        else old(credentials)
      ensures store.entries ==
        if DecideRefresh(old(state.tokens), now, response).Refreshed?
        then old(store.entries)[AuthStateKey := EncodeState(state)]
        else old(store.entries)
      ensures old(Persisted()) ==> Persisted()
    {
      if state.tokens.None? {
        return false;
      }
      var expiryDate := state.tokens.value.expiryDate;
      if expiryDate - now < RefreshWindowMs {
        credentials := Credentials(None, Some(state.tokens.value.refreshToken), None);
        if response.None? {
          return false;
        }
        var c := response.value;
        if Present(c.accessToken) && PresentNum(c.expiryDate) {
          state := state.(tokens := Some(AuthTokens(
            c.accessToken.value,
            if Present(c.refreshToken) then c.refreshToken.value else state.tokens.value.refreshToken,
            c.expiryDate.value)));
          SaveAuthState();
          return true;
        }
        return false;
      }
      return true;
    }

    /** `getOAuth2Client`: refreshes if needed, then gives the client the session's tokens. */
    method GetOAuth2Client(now: int, response: Option<Credentials>) returns (client: Credentials)
      modifies this, store
      ensures ClientObtained(this, now, response)
      ensures client == credentials
    {
      var _ := RefreshTokenIfNeeded(now, response);
      if state.tokens.Some? {
        var t := state.tokens.value;
        credentials := Credentials(Some(t.accessToken), Some(t.refreshToken), Some(t.expiryDate));
      }
      client := credentials;
    }

    /**
      `loadAuthState` at time `now`: `readFails` says the store read threw, and
      `response` is what the refresh call answers if one is made.
    */
    method LoadAuthState(now: int, readFails: bool, response: Option<Credentials>)
      modifies this, store
      ensures readFails ==>
        && state == LoggedOut() && credentials == old(credentials)
        && store.entries == old(store.entries)[AuthStateKey := EncodeState(LoggedOut())]
      ensures !readFails && !Restorable(Lookup(old(store.entries), AuthStateKey)) ==>
        state == old(state) && credentials == old(credentials) && store.entries == old(store.entries)
      ensures !readFails && Restorable(Lookup(old(store.entries), AuthStateKey)) ==>
        var saved := DecodeState(Lookup(old(store.entries), AuthStateKey)).value;
        var d := DecideRefresh(saved.tokens, now, response);
        && state == (if d.Ok() then AfterRefresh(saved, d) else LoggedOut())
        && credentials == (
             if saved.tokens.value.expiryDate - now < RefreshWindowMs
             then Credentials(None, Some(saved.tokens.value.refreshToken), None)
             else old(credentials))
        && store.entries == old(store.entries)[AuthStateKey := EncodeState(state)]
      ensures readFails || Restorable(Lookup(old(store.entries), AuthStateKey)) ==> Persisted()
    {
      if readFails {
        Logout();
        return;
      }
      var stored := store.Get(AuthStateKey);
      var decoded := DecodeState(stored);
      if decoded.Some? && decoded.value.tokens.Some? {
        EncodeDecode(stored);
        state := decoded.value;
        assert Persisted();
        var ok := RefreshTokenIfNeeded(now, response);
        if !ok {
          Logout();
        }
      }
    }
  }

  /**
    The effect of `getOAuth2Client` on `a` at time `now`, given the refresh
    call's answer: the refresh step, then, when the session has tokens, the
    OAuth client holds exactly those tokens.
  */
  twostate predicate ClientObtained(a: AuthService, now: int, response: Option<Credentials>)
    reads a, a.store
  {
    && a.state == AfterRefresh(old(a.state), DecideRefresh(old(a.state.tokens), now, response))
    && a.store.entries ==
         (if DecideRefresh(old(a.state.tokens), now, response).Refreshed?
          then old(a.store.entries)[AuthStateKey := EncodeState(a.state)]
          else old(a.store.entries))
    && (a.state.tokens.Some? ==> a.credentials == CredentialsOf(a.state.tokens.value))
    && (a.state.tokens.None? ==> a.credentials == old(a.credentials))
    && (old(a.Persisted()) ==> a.Persisted())
  }

  /** Logging out twice leaves the same session and store as logging out once. */
  method LogoutTwice(auth: AuthService)
    modifies auth, auth.store
    ensures auth.state == LoggedOut()
    ensures auth.store.entries == old(auth.store.entries)[AuthStateKey := EncodeState(LoggedOut())]
  {
    auth.Logout();
    auth.Logout();
  }

  /** A session saved by a sign-in and not yet due for refresh is restored exactly by a later startup. */
  method SignInThenRestore(store: Store, response: Credentials, userInfo: Value, now: int)
    returns (restored: AuthState)
    requires Usable(response) && response.expiryDate.value - now >= RefreshWindowMs
    modifies store
    ensures restored == AuthState(true, userInfo, Some(ExchangedTokens(response)))
  {
    var first := new AuthService(store);
    var r := first.ExchangeCodeForTokens(Some(response), userInfo);
    var second := new AuthService(store);
    second.LoadAuthState(now, false, None);
    DecodeEncode(first.state);
    assert second.state == first.state;
    restored := second.state;
  }
}
