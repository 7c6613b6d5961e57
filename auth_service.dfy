/** The session adapter `KeycloakAuthService`: the state it reads and writes
    (session storage, local storage, the application store, the identity
    provider's token fields and the one-shot DOM sidecar) and one method per
    operation or provider callback. Provider results are inputs. */
module AuthService {
  import opened JsValues
  import opened Claims

  const AccessTokenKey: string := "accessToken"
  const RefreshTokenKey: string := "refreshToken"
  const IdTokenKey: string := "idToken"
  const TokenKeys: set<string> := {AccessTokenKey, RefreshTokenKey, IdTokenKey}

  /** Options passed to `keycloak.init`. */
  const CheckSso: string := "check-sso"
  const NativePromise: string := "native"
  /** Appended by `loginLevel4` to the provider's login URL. */
  const Level4Suffix: string := "&acr_values=Level4"
  /** The default `minValidity` of `updateToken`, in seconds. */
  const DefaultMinValidity: int := 10

  /** The configuration handed to the `Keycloak` constructor. */
  datatype ProviderConfig = ProviderConfig(url: string, realm: string, clientId: string)

  /** What `keycloak.init` was called with; a missing storage key is `null`. */
  datatype InitOptions = InitOptions(
    onLoad: string,
    promiseType: string,
    token: Option<string>,
    refreshToken: Option<string>,
    idToken: Option<string>)

  /** The token fields of the provider client. */
  datatype ProviderSession = ProviderSession(
    token: Option<string>,
    refreshToken: Option<string>,
    idToken: Option<string>,
    idTokenParsed: Option<IdTokenClaims>)

  const NoSession: ProviderSession := ProviderSession(None, None, None, None)

  /** The values dispatched with `setURLs`. */
  datatype Urls = Urls(altinnURL: Option<string>, eiendomsskattURL: Option<string>)

  /** The state of the element with id "keycloak": present or removed, and
      its `data-altinn` and `data-eiendomsskatt` attributes. */
  datatype SidecarState = SidecarState(present: bool, altinn: Option<string>, eiendomsskatt: Option<string>)

  /** The part of the application store the adapter touches. Each action
      dispatched sets one field; `getRepresentations` dispatches are counted;
      `hasNoRepresentatives` is the getter consulted before that dispatch. */
  datatype AppStore = AppStore(
    keycloakUpdateTokenSet: bool,
    loginLevel4FunctionSet: bool,
    loginError: bool,
    error: bool,
    urls: Option<Urls>,
    userInfo: Option<UserProfile>,
    hasNoRepresentatives: bool,
    representationRequests: nat)

  /** The navigation a `keycloak.login` or `keycloak.logout` call starts. */
  datatype Redirect = LoginRedirect(redirectUri: Option<string>) | LogoutRedirect(redirectUri: Option<string>)

  /** What the provider's `init` promise reports. */
  datatype InitOutcome = Authenticated(session: ProviderSession) | Anonymous | InitFailed

  /** What the provider's `updateToken` promise reports. */
  datatype RefreshOutcome = Refreshed(session: ProviderSession) | NotRefreshed | RefreshFailed

  /** How a callback body ends: normally, or with a `TypeError` from reading
      a property of a missing element or of missing claims. */
  datatype Completion = Returned | ThrewTypeError

  /** `sessionStorage.getItem(key)`: `null` for a missing key. */
  function GetItem(storage: map<string, string>, key: string): (v: Option<string>) {
    if key in storage then Some(storage[key]) else None
  }

  /** The three `sessionStorage.setItem` calls that persist the tokens. */
  function PersistTokens(storage: map<string, string>, token: Option<string>,
                         refreshToken: Option<string>, idToken: Option<string>): (r: map<string, string>)
    ensures r.Keys == storage.Keys + TokenKeys
    ensures r[AccessTokenKey] == StoredString(token)
    ensures r[RefreshTokenKey] == StoredString(refreshToken)
    ensures r[IdTokenKey] == StoredString(idToken)
    ensures forall k :: k in storage && k !in TokenKeys ==> r[k] == storage[k]
  {
    storage[AccessTokenKey := StoredString(token)]
           [RefreshTokenKey := StoredString(refreshToken)]
           [IdTokenKey := StoredString(idToken)]
  }

  /** The `init` options read from a storage: exactly the tokens persisted
      by the last successful authentication or refresh come back. */
  lemma PersistedTokensAreRestored(storage: map<string, string>, token: Option<string>,
                                   refreshToken: Option<string>, idToken: Option<string>)
    ensures var s := PersistTokens(storage, token, refreshToken, idToken);
      && GetItem(s, AccessTokenKey) == Some(StoredString(token))
      && GetItem(s, RefreshTokenKey) == Some(StoredString(refreshToken))
      && GetItem(s, IdTokenKey) == Some(StoredString(idToken))
  {
  }

  /** How `updateAccessTokenAndUserinfo` ends: a missing sidecar element or
      missing parsed claims make it throw a `TypeError`. */
  function AuthSuccessCompletion(sidecarPresent: bool, parsed: Option<IdTokenClaims>): (c: Completion) {
    if sidecarPresent && parsed.Some? then Returned else ThrewTypeError
  }

  /** The claims check at the end of `updateAccessTokenAndUserinfo`: valid
      claims publish the profile and, when the store knows no
      representatives, request them; invalid claims set the error flag. */
  function ClaimsCheckStore(s: AppStore, t: IdTokenClaims): (r: AppStore) {
    if IdTokenIsValid(t) then
      s.(userInfo := Some(ProfileFromClaims(t)),
         representationRequests := s.representationRequests + if s.hasNoRepresentatives then 1 else 0)
    else s.(error := true)
  }

  /** The store after `updateAccessTokenAndUserinfo`, in dispatch order:
      the step-up login function and a cleared login error, then (with the
      sidecar present) its URLs, then (with parsed claims) the claims check. */
  function AuthSuccessStore(s: AppStore, sidecar: SidecarState, parsed: Option<IdTokenClaims>): (r: AppStore) {
    var s1 := s.(loginLevel4FunctionSet := true, loginError := false);
    if !sidecar.present then s1
    else
      var s2 := s1.(urls := Some(Urls(sidecar.altinn, sidecar.eiendomsskatt)));
      if parsed.None? then s2 else ClaimsCheckStore(s2, parsed.value)
  }

  /** Whatever the sidecar and the claims: the login error is cleared, the
      step-up login function is registered, the URLs come from the sidecar
      when it is there, and the other store fields keep their values. */
  lemma AuthSuccessStoreAlways(s: AppStore, sidecar: SidecarState, parsed: Option<IdTokenClaims>)
    ensures var r := AuthSuccessStore(s, sidecar, parsed);
      && !r.loginError && r.loginLevel4FunctionSet
      && r.urls == (if sidecar.present then Some(Urls(sidecar.altinn, sidecar.eiendomsskatt)) else s.urls)
      && r.keycloakUpdateTokenSet == s.keycloakUpdateTokenSet
      && r.hasNoRepresentatives == s.hasNoRepresentatives
  {
  }

  /** Exactly one of two outcomes when the callback completes: the claims are
      valid and the profile is published with the error flag untouched, or
      they are not and the error flag is set with the profile untouched. When
      it throws, neither happens. Representations are requested exactly when
      a profile is published while the store knows no representatives. */
  lemma AuthSuccessStoreOutcome(s: AppStore, sidecar: SidecarState, parsed: Option<IdTokenClaims>)
    ensures var r := AuthSuccessStore(s, sidecar, parsed);
      && (AuthSuccessCompletion(sidecar.present, parsed) == Returned ==>
            var t := parsed.value;
            || (IdTokenIsValid(t) && r.userInfo == Some(ProfileFromClaims(t)) && r.error == s.error)
            || (!IdTokenIsValid(t) && r.error && r.userInfo == s.userInfo))
      && (AuthSuccessCompletion(sidecar.present, parsed) == ThrewTypeError ==>
            r.userInfo == s.userInfo && r.error == s.error)
      && (r.representationRequests != s.representationRequests <==>
            && AuthSuccessCompletion(sidecar.present, parsed) == Returned
            && IdTokenIsValid(parsed.value) && s.hasNoRepresentatives)
      && r.representationRequests - s.representationRequests in {0, 1}
  {
  }

  /** A profile that the callback publishes is well formed: level 3 or 4 and
      names in capitalised form. */
  lemma AuthSuccessStorePublishesWellFormed(s: AppStore, sidecar: SidecarState, parsed: Option<IdTokenClaims>)
    requires s.userInfo.Some? ==> WellFormedProfile(s.userInfo.value)
    ensures var r := AuthSuccessStore(s, sidecar, parsed);
      r.userInfo.Some? ==> WellFormedProfile(r.userInfo.value)
  {
    if sidecar.present && parsed.Some? && IdTokenIsValid(parsed.value) {
      ProfileFromValidClaims(parsed.value);
    }
  }

  class KeycloakAuthService {
    const config: ProviderConfig
    var sessionStorage: map<string, string>
    var localStorage: map<string, string>
    var store: AppStore
    // the provider client's fields
    var token: Option<string>
    var refreshToken: Option<string>
    var idToken: Option<string>
    var idTokenParsed: Option<IdTokenClaims>
    // the DOM element with id "keycloak"
    var sidecarPresent: bool
    var sidecarAltinn: Option<string>
    var sidecarEiendomsskatt: Option<string>
    // the calls made into the provider client
    var initRequest: Option<InitOptions>
    var refreshRequest: Option<int>
    var redirect: Option<Redirect>

    /** Every profile in the store is well formed. */
    ghost predicate Valid()
      reads this
    {
      store.userInfo.Some? ==> WellFormedProfile(store.userInfo.value)
    }

    ghost function Provider(): ProviderSession
      reads this
    {
      ProviderSession(token, refreshToken, idToken, idTokenParsed)
    }

    ghost function Sidecar(): SidecarState
      reads this
    {
      SidecarState(sidecarPresent, sidecarAltinn, sidecarEiendomsskatt)
    }

    /** The three token keys hold the provider's current tokens. */
    ghost predicate TokensPersisted()
      reads this
    {
      && GetItem(sessionStorage, AccessTokenKey) == Some(StoredString(token))
      && GetItem(sessionStorage, RefreshTokenKey) == Some(StoredString(refreshToken))
      && GetItem(sessionStorage, IdTokenKey) == Some(StoredString(idToken))
    }

    /** The calls into the provider client other than the one a method makes
        are as before. */
    twostate predicate RequestsUnchanged()
      reads this
    {
      initRequest == old(initRequest) && refreshRequest == old(refreshRequest) && redirect == old(redirect)
    }

    /** The effect of `logout(redirectUri)`: both storages empty, the
        provider's tokens cleared, a logout redirect started, and the store
        and the sidecar as they were. */
    twostate predicate LogoutEffect(redirectUri: Option<string>)
      reads this
    {
      && sessionStorage == map[] && localStorage == map[]
      && Provider() == NoSession
      && redirect == Some(LogoutRedirect(redirectUri))
      && store == old(store) && Sidecar() == old(Sidecar())
      && initRequest == old(initRequest) && refreshRequest == old(refreshRequest)
    }

    /** The effect of `updateAccessTokenAndUserinfo` on everything but the
        store: the tokens are persisted before anything can fail, and the
        sidecar is gone afterwards. */
    twostate predicate AuthSuccessEffect(c: Completion)
      reads this
    {
      && sessionStorage == PersistTokens(old(sessionStorage), old(token), old(refreshToken), old(idToken))
      && localStorage == old(localStorage)
      && token == old(token) && refreshToken == old(refreshToken) && idToken == old(idToken) && idTokenParsed == old(idTokenParsed)
      && initRequest == old(initRequest) && refreshRequest == old(refreshRequest) && redirect == old(redirect)
      && sidecarAltinn == old(sidecarAltinn) && sidecarEiendomsskatt == old(sidecarEiendomsskatt)
      && !sidecarPresent
      && c == AuthSuccessCompletion(old(sidecarPresent), old(idTokenParsed))
      && store == AuthSuccessStore(old(store), SidecarState(old(sidecarPresent), old(sidecarAltinn), old(sidecarEiendomsskatt)), old(idTokenParsed))
    }

    /** `new KeycloakAuthService(url, realm, clientId)` on a page whose
        storages, store and sidecar are as given. */
    constructor (url: string, realm: string, clientId: string,
                 session: map<string, string>, local: map<string, string>,
                 initialStore: AppStore,
                 sidecarPresent: bool, altinn: Option<string>, eiendomsskatt: Option<string>)
      requires initialStore.userInfo.Some? ==> WellFormedProfile(initialStore.userInfo.value)
      ensures Valid()
      ensures config == ProviderConfig(url, realm, clientId)
      ensures sessionStorage == session && localStorage == local && store == initialStore
      ensures Provider() == NoSession
      ensures Sidecar() == SidecarState(sidecarPresent, altinn, eiendomsskatt)
      ensures initRequest == None && refreshRequest == None && redirect == None
    {
      config := ProviderConfig(url, realm, clientId);
      this.sessionStorage := session;
      this.localStorage := local;
      store := initialStore;
      token, refreshToken, idToken, idTokenParsed := None, None, None, None;
      this.sidecarPresent, sidecarAltinn, sidecarEiendomsskatt := sidecarPresent, altinn, eiendomsskatt;
      initRequest, refreshRequest, redirect := None, None, None;
    }

    method SetProvider(s: ProviderSession)
      modifies this`token, this`refreshToken, this`idToken, this`idTokenParsed
      ensures Provider() == s
    {
      token, refreshToken, idToken, idTokenParsed := s.token, s.refreshToken, s.idToken, s.idTokenParsed;
    }

    /** `init`: registers `updateToken` with the store, starts the provider
        with the tokens found in session storage and reports whether a session
        was established. */
    method Init(outcome: InitOutcome) returns (result: Settled<bool>)
      requires Valid()
      modifies this
      ensures Valid()
      ensures store == old(store).(keycloakUpdateTokenSet := true)
      ensures initRequest == Some(InitOptions(CheckSso, NativePromise,
        GetItem(old(sessionStorage), AccessTokenKey),
        GetItem(old(sessionStorage), RefreshTokenKey),
        GetItem(old(sessionStorage), IdTokenKey)))
      ensures sessionStorage == old(sessionStorage) && localStorage == old(localStorage)
      ensures Sidecar() == old(Sidecar())
      ensures refreshRequest == old(refreshRequest) && redirect == old(redirect)
      ensures outcome.Authenticated? ==> result == Resolved(true) && Provider() == outcome.session
      ensures outcome.Anonymous? ==> result == Resolved(false) && Provider() == old(Provider())
      ensures outcome.InitFailed? ==> result == Rejected(RejectedWithFalse) && Provider() == old(Provider())
    {
      store := store.(keycloakUpdateTokenSet := true);
      initRequest := Some(InitOptions(CheckSso, NativePromise,
        GetItem(sessionStorage, AccessTokenKey),
        GetItem(sessionStorage, RefreshTokenKey),
        GetItem(sessionStorage, IdTokenKey)));
      match outcome
      case Authenticated(s) =>
        SetProvider(s);
        result := Resolved(true);
      case Anonymous =>
        result := Resolved(false);
      case InitFailed =>
        result := Rejected(RejectedWithFalse);
    }

    /** `login(redirectUri)`: starts the provider's login redirect. */
    method Login(redirectUri: Option<string>)
      modifies this`redirect
      ensures redirect == Some(LoginRedirect(redirectUri))
    {
      redirect := Some(LoginRedirect(redirectUri));
    }

    /** `loginLevel4`: logs out at the provider with a redirect to its login
        URL demanding "Level4". It calls the provider's `logout` directly, so
        neither storage is cleared. */
    method LoginLevel4(loginUrl: string)
      modifies this`redirect
      ensures redirect == Some(LogoutRedirect(Some(loginUrl + Level4Suffix)))
    {
      redirect := Some(LogoutRedirect(Some(loginUrl + Level4Suffix)));
    }

    /** `logout(redirectUri)`. */
    method Logout(redirectUri: Option<string>)
      requires Valid()
      modifies this
      ensures Valid()
      ensures LogoutEffect(redirectUri)
    {
      SetProvider(NoSession);
      localStorage := map[];
      sessionStorage := map[];
      redirect := Some(LogoutRedirect(redirectUri));
    }

    /** The three `sessionStorage.setItem` calls for the provider's current
        tokens. */
    method StoreTokens()
      modifies this`sessionStorage
      ensures sessionStorage == PersistTokens(old(sessionStorage), token, refreshToken, idToken)
    {
      sessionStorage := PersistTokens(sessionStorage, token, refreshToken, idToken);
    }

    /** The `setLoginLevel4Function` and `setLoginError(false)` dispatches. */
    method DispatchLoggedIn()
      requires Valid()
      modifies this`store
      ensures Valid()
      ensures store == old(store).(loginLevel4FunctionSet := true, loginError := false)
    {
      store := store.(loginLevel4FunctionSet := true);
      store := store.(loginError := false);
    }

    /** Reads the sidecar's URLs into the store and removes the element;
        `present` is false when there is no element to read. */
    method ConsumeSidecar() returns (present: bool)
      requires Valid()
      modifies this`store, this`sidecarPresent
      ensures Valid()
      ensures present == old(sidecarPresent) && !sidecarPresent
      ensures store == if present then old(store).(urls := Some(Urls(sidecarAltinn, sidecarEiendomsskatt))) else old(store)
    {
      present := sidecarPresent;
      if present {
        store := store.(urls := Some(Urls(sidecarAltinn, sidecarEiendomsskatt)));
        sidecarPresent := false;
      }
    }

    /** The claims check on `idTokenParsed`; missing claims throw. */
    method CheckClaims() returns (c: Completion)
      requires Valid()
      modifies this`store
      ensures Valid()
      ensures c == AuthSuccessCompletion(true, idTokenParsed)
      ensures store == if idTokenParsed.Some? then ClaimsCheckStore(old(store), idTokenParsed.value) else old(store)
    {
      if idTokenParsed.None? {
        // `idTokenIsValid(undefined)` reads `pid` of undefined
        return ThrewTypeError;
      }
      var t := idTokenParsed.value;
      if IdTokenIsValid(t) {
        ProfileFromValidClaims(t);
        store := store.(userInfo := Some(ProfileFromClaims(t)));
        if store.hasNoRepresentatives {
          store := store.(representationRequests := store.representationRequests + 1);
        }
      } else {
        store := store.(error := true);
      }
      c := Returned;
    }

    /** `updateAccessTokenAndUserinfo`. */
    method UpdateAccessTokenAndUserinfo() returns (c: Completion)
      requires Valid()
      modifies this
      ensures Valid()
      ensures AuthSuccessEffect(c)
    {
      StoreTokens();
      DispatchLoggedIn();
      var present := ConsumeSidecar();
      if !present {
        // `element` is null: `element.getAttribute` throws
        return ThrewTypeError;
      }
      c := CheckClaims();
    }

    /** `onAuthSuccess`: the provider's callback after a login. Whatever the
        claims, the tokens are persisted, the login error is cleared and the
        sidecar is consumed; then exactly one of "profile published" and
        "error flagged" happens, and representations are requested only with
        a profile. */
    method OnAuthSuccess() returns (c: Completion)
      requires Valid()
      modifies this
      ensures Valid()
      ensures AuthSuccessEffect(c)
      ensures TokensPersisted()
      ensures !store.loginError
      ensures !sidecarPresent
      ensures old(sidecarPresent) ==> store.urls == Some(Urls(sidecarAltinn, sidecarEiendomsskatt))
      ensures c == Returned <==> old(sidecarPresent) && idTokenParsed.Some?
      ensures c == Returned ==>
        var t := idTokenParsed.value;
        || (IdTokenIsValid(t) && store.userInfo == Some(ProfileFromClaims(t)) && store.error == old(store.error))
        || (!IdTokenIsValid(t) && store.error && store.userInfo == old(store.userInfo))
      ensures c == ThrewTypeError ==> store.userInfo == old(store.userInfo) && store.error == old(store.error)
      ensures store.representationRequests != old(store.representationRequests) <==>
        c == Returned && IdTokenIsValid(idTokenParsed.value) && store.hasNoRepresentatives
    {
      c := UpdateAccessTokenAndUserinfo();
    }

    /** `onAuthError`: the provider's callback after a failed login; it is
        `logout` with no redirect URI. */
    method OnAuthError()
      requires Valid()
      modifies this
      ensures Valid()
      ensures LogoutEffect(None)
    {
      Logout(None);
    }

    /** `onAuthRefreshSuccess`: re-persists the three tokens and changes
        nothing else. */
    method OnAuthRefreshSuccess()
      requires Valid()
      modifies this
      ensures Valid()
      ensures sessionStorage == PersistTokens(old(sessionStorage), token, refreshToken, idToken)
      ensures TokensPersisted()
      ensures store == old(store) && localStorage == old(localStorage)
      ensures Provider() == old(Provider()) && Sidecar() == old(Sidecar()) && RequestsUnchanged()
    {
      StoreTokens();
    }

    /** `onAuthRefreshError`: flags the login error and changes nothing else. */
    method OnAuthRefreshError()
      requires Valid()
      modifies this
      ensures Valid()
      ensures store == old(store).(loginError := true)
      ensures sessionStorage == old(sessionStorage) && localStorage == old(localStorage)
      ensures Provider() == old(Provider()) && Sidecar() == old(Sidecar()) && RequestsUnchanged()
    {
      store := store.(loginError := true);
    }

    /** `updateToken(minValidity)`: asks the provider to refresh a token that
        expires within `minValidity` seconds; resolves `true` whether or not
        it refreshed, persists the tokens exactly when it did, and rejects
        with an error, storage untouched, when the provider fails. */
    method UpdateToken(outcome: RefreshOutcome, minValidity: int := DefaultMinValidity)
      returns (result: Settled<bool>)
      requires Valid()
      modifies this
      ensures Valid()
      ensures refreshRequest == Some(minValidity)
      ensures result == if outcome.RefreshFailed? then Rejected(RejectedWithError) else Resolved(true)
      ensures outcome.Refreshed? ==>
        && Provider() == outcome.session
        && sessionStorage == PersistTokens(old(sessionStorage), token, refreshToken, idToken)
        && TokensPersisted()
      ensures !outcome.Refreshed? ==> Provider() == old(Provider()) && sessionStorage == old(sessionStorage)
      ensures store == old(store) && localStorage == old(localStorage) && Sidecar() == old(Sidecar())
      ensures initRequest == old(initRequest) && redirect == old(redirect)
    {
      refreshRequest := Some(minValidity);
      match outcome
      case Refreshed(s) =>
        SetProvider(s);
        StoreTokens();
        result := Resolved(true);
      case NotRefreshed =>
        result := Resolved(true);
      case RefreshFailed =>
        result := Rejected(RejectedWithError);
    }
  }
}
