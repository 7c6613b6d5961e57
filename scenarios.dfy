/** Page lifecycles driven through the adapter, as its callers and the
    identity provider drive it: each method loads a fresh page, runs the
    transitions in the order the provider fires them and reports what the
    application observes. */
module Scenarios {
  import opened JsValues
  import opened Claims
  import opened AuthService
  import Names

  /** A store as a fresh page has it, knowing no representatives. */
  const FreshStore: AppStore := AppStore(false, false, false, false, None, None, true, 0)

  /** The claims of a sample user, OLA NORDMANN, with the given `acr`. */
  function OlaClaims(acr: string): (t: IdTokenClaims) {
    IdTokenClaims(Some("01019012345"), Some("OLA"), Some("NORDMANN"), Some(acr), Some("ola@example.com"))
  }

  method LoadPage(session: map<string, string>) returns (service: KeycloakAuthService)
    ensures fresh(service) && service.Valid()
    ensures service.sessionStorage == session && service.store == FreshStore
    ensures service.sidecarPresent && service.Provider() == NoSession
  {
    service := new KeycloakAuthService("https://login.example", "realm", "client",
                                       session, map[], FreshStore,
                                       true, Some("https://altinn.example"), Some("https://skatt.example"));
  }

  /** Signing in with `acr` "Level4" publishes the normalised profile, sets
      no error and requests the representations once. */
  method SignInAtLevel4() returns (result: Settled<bool>, profile: Option<UserProfile>,
                                   error: bool, requests: nat)
    ensures result == Resolved(true)
    ensures profile == Some(UserProfile("01019012345", "Ola", "Nordmann", 4, Some("ola@example.com")))
    ensures !error && requests == 1
  {
    var service := LoadPage(map[]);
    var claims := OlaClaims(Level4);
    result := service.Init(Authenticated(ProviderSession(Some("at"), Some("rt"), Some("it"), Some(claims))));
    var c := service.OnAuthSuccess();
    Names.CapitalizeOla();
    Names.CapitalizeNordmann();
    ValidClaimsLevel(claims);
    profile, error, requests := service.store.userInfo, service.store.error, service.store.representationRequests;
  }

  /** Signing in with `acr` "Level2" publishes no profile and sets the error
      flag, while the tokens are still persisted. */
  method SignInAtLevel2() returns (profile: Option<UserProfile>, error: bool, accessToken: Option<string>)
    ensures profile == None && error
    ensures accessToken == Some("at")
  {
    var service := LoadPage(map[]);
    var r := service.Init(Authenticated(ProviderSession(Some("at"), Some("rt"), Some("it"), Some(OlaClaims("Level2")))));
    var c := service.OnAuthSuccess();
    profile, error := service.store.userInfo, service.store.error;
    accessToken := GetItem(service.sessionStorage, AccessTokenKey);
  }

  /** An anonymous visit with nothing persisted resolves `false`, hands the
      provider no tokens and publishes nothing. */
  method AnonymousVisit() returns (result: Settled<bool>, passed: Option<InitOptions>, store: AppStore)
    ensures result == Resolved(false)
    ensures passed == Some(InitOptions(CheckSso, NativePromise, None, None, None))
    ensures store == FreshStore.(keycloakUpdateTokenSet := true)
  {
    var service := LoadPage(map[]);
    result := service.Init(Anonymous);
    passed, store := service.initRequest, service.store;
  }

  /** Tokens refreshed on one page are the ones the next page load hands to
      the provider. */
  method ReloadAfterRefresh(persisted: map<string, string>, token: string, refreshToken: string, idToken: string)
    returns (refreshed: Settled<bool>, passed: Option<InitOptions>)
    ensures refreshed == Resolved(true)
    ensures passed == Some(InitOptions(CheckSso, NativePromise, Some(token), Some(refreshToken), Some(idToken)))
  {
    var page := LoadPage(persisted);
    refreshed := page.UpdateToken(Refreshed(ProviderSession(Some(token), Some(refreshToken), Some(idToken), None)));
    var next := LoadPage(page.sessionStorage);
    var r := next.Init(Anonymous);
    passed := next.initRequest;
  }

  /** After a logout the next page load finds no tokens to restore, whatever
      was persisted before. */
  method ReloadAfterLogout(persisted: map<string, string>) returns (passed: Option<InitOptions>)
    ensures passed == Some(InitOptions(CheckSso, NativePromise, None, None, None))
  {
    var page := LoadPage(persisted);
    var r := page.Init(Anonymous);
    page.Logout(Some("https://app.example"));
    var next := LoadPage(page.sessionStorage);
    r := next.Init(Anonymous);
    passed := next.initRequest;
  }
}
