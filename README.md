# KeycloakAuthService, modelled in Dafny

This project models the session adapter `KeycloakAuthService` of a Vue
single-page application. The adapter sits between the Keycloak identity
provider client and the application. It persists the provider's tokens in
`sessionStorage`. It validates the parsed ID-token claims and publishes a
normalised user profile (`brukerinfo`), or an error flag, to the application
store. It reads two provider URLs from a one-shot DOM element
(`id="keycloak"`) and removes that element. On logout it clears both browser
storages.

The project has six modules, one file each:

- `JsValues` (`js_values.dfy`): the JavaScript value behaviour the adapter
  depends on. Values can be missing (`undefined`/`null`). Claims are judged
  for truthiness. `Storage.setItem` coerces its value to a string, so
  `undefined` is stored as the text "undefined". A promise either resolves or
  rejects.
- `AsciiCase` (`ascii_case.dfy`): `toLowerCase`/`toUpperCase` restricted to
  ASCII.
- `Names` (`names.dfy`): `capitalizeFirstLetterOfNames` as the source writes
  it: a split/map/join chain over `split(' ')` and `join(' ')`. It is proved
  equal to an independent reference definition that gives the result one
  character at a time (`CapitalizedAt`). Length, spaces, case shape,
  idempotence and the fixed points all follow from that reference.
- `Claims` (`claims.dfy`): the claims record, `securityLevelFromAcr`,
  `securityLevelIsValid`, `idTokenIsValid`, and the profile built from valid
  claims.
- `AuthService` (`auth_service.dfy`): the class `KeycloakAuthService`. Its
  fields are the two storages (`map<string, string>`), the store record, the
  provider's `token`/`refreshToken`/`idToken`/`idTokenParsed`, the sidecar's
  presence flag and its two attribute values, and the calls made into the
  provider: the `init` options, the `updateToken` validity and the redirect
  started. There is one method per operation and callback. Provider results
  are method inputs. `init` takes authenticated, anonymous or failure.
  `updateToken` takes refreshed, not refreshed or failure. The store update
  of `updateAccessTokenAndUserinfo` is also given as a pure function,
  `AuthSuccessStore`, and the properties the source promises are lemmas about
  that function. The class invariant `Valid()` states that every profile in
  the store is well formed: it has a level of 3 or 4, and its names are
  non-empty and already capitalised.
- `Scenarios` (`scenarios.dfy`): whole page lifecycles driven through fresh
  service objects. They cover an "OLA NORDMANN" sign-in at Level4, a "Level2"
  sign-in, an anonymous visit, a reload after a token refresh, and a reload
  after logout.

Four behaviours of the code worth knowing:

- Only an `acr` that is exactly "Level3" or "Level4" passes validation. An
  `acr` that merely ends in 3 or 4 (for example "XLevel4") is rejected, even
  though `securityLevelFromAcr` would read 4 from it (`SuffixAloneIsRejected`).
- `logout` clears both storages and the provider's tokens. It does not touch
  the store, so the published profile stays there until the page navigates
  away.
- `loginLevel4` calls the provider's `logout` directly, not the adapter's.
  It clears neither storage.
- `updateAccessTokenAndUserinfo` dereferences the sidecar element and the
  parsed claims without checking them. When either is missing, the callback
  throws a `TypeError` after the writes that came before it. The model keeps
  that path (`Completion.ThrewTypeError`). It does not require the element
  to be present.

## Model

| member | source | states |
|---|---|---|
| Names.CapitalizeFirstLetterOfNames | src/auth/KeycloakAuthService.js:69-75 | `capitalizeFirstLetterOfNames`: the lower/split/map/join chain; its properties are in CapitalizeSpec, CapitalizeKeepsSpaces, CapitalizeCaseShape and CapitalizeIdempotent |
| Names.CapitalizeWord | src/auth/KeycloakAuthService.js:73 | `s.charAt(0).toUpperCase() + s.substring(1)`, empty for the empty piece; agrees with the reference on space-free pieces, as used in CapitalizeSpec |
| Names.CapitalizeWords | src/auth/KeycloakAuthService.js:73 | the `.map` step: one capitalised piece per piece, same count |
| Names.Join | src/auth/KeycloakAuthService.js:74 | `join(' ')`; undoes Split, see JoinSplit |
| AsciiCase.Lower | src/auth/KeycloakAuthService.js:71 | `toLowerCase` on ASCII, one character at a time; keeps the length; laws in CaseLaws |
| AsciiCase.ToLower | src/auth/KeycloakAuthService.js:71 | an upper-case ASCII letter becomes its lower-case letter; every other character is unchanged; laws in CaseLaws |
| AsciiCase.ToUpper | src/auth/KeycloakAuthService.js:73 | a lower-case ASCII letter becomes its upper-case letter; every other character is unchanged; laws in CaseLaws |
| Claims.SecurityLevelIsValid | src/auth/KeycloakAuthService.js:81-83 | `securityLevelIsValid`: `acr` truthy and strictly equal to "Level3" or "Level4"; see SecurityLevelIsValidExactly |
| Claims.IdTokenIsValid | src/auth/KeycloakAuthService.js:85-92 | `idTokenIsValid`: the truthiness conjunction; see IdTokenIsValidIff and SuffixAloneIsRejected |
| Claims.ProfileFromClaims | src/auth/KeycloakAuthService.js:111-117 | the `setBrukerinfo` literal, built only from valid claims; see ProfileFromValidClaims |
| JsValues.StoredString | src/auth/KeycloakAuthService.js:95-97 | the string `setItem` stores: the value itself, or "undefined" for a missing one |
| AuthService.GetItem | src/auth/KeycloakAuthService.js:38-40 | `sessionStorage.getItem`: the stored string, or null for a missing key; see PersistedTokensAreRestored |
| AuthService.ClaimsCheckStore | src/auth/KeycloakAuthService.js:110-123 | the claims check on the store; see AuthSuccessStoreOutcome and AuthSuccessStorePublishesWellFormed |
| AuthService.AuthSuccessStore | src/auth/KeycloakAuthService.js:98-123 | the store after `updateAccessTokenAndUserinfo`, in dispatch order; see AuthSuccessStoreAlways and AuthSuccessStoreOutcome |
| AuthService.AuthSuccessCompletion | src/auth/KeycloakAuthService.js:101-110 | the callback completes exactly when the sidecar element and the parsed claims are both there, and throws a `TypeError` otherwise |
| Names.Split | src/auth/KeycloakAuthService.js:72 | `split(' ')` yields at least one piece and no piece contains a space |
| Names.JoinSplit | src/auth/KeycloakAuthService.js:72-74 | joining the pieces of a split with single spaces gives back the split text |
| Names.CapitalizeSpec | src/auth/KeycloakAuthService.js:69-75 | the lower/split/map/join chain keeps the length, and at every index equals the reference: upper-case of the character at a word start (index 0 or after a space), lower-case elsewhere |
| Names.CapitalizeKeepsSpaces | src/auth/KeycloakAuthService.js:69-75 | capitalisation keeps the length; a space stays a space at the same index and no other character becomes one |
| Names.CapitalizeCaseShape | src/auth/KeycloakAuthService.js:69-75 | on ASCII letters and spaces the result is letters and spaces; every word-initial letter is upper-case and every other letter lower-case |
| Names.CapitalizeIdempotent | src/auth/KeycloakAuthService.js:69-75 | capitalising twice gives the same result as capitalising once |
| Names.CapitalizedIffFixedPoint | src/auth/KeycloakAuthService.js:69-75 | a text is unchanged by capitalisation exactly when it matches the reference, and every result does |
| Names.CapitalizeIs | src/auth/KeycloakAuthService.js:69-75 | any text that matches the reference at every index is the capitalisation |
| Names.CapitalizeOla | src/auth/KeycloakAuthService.js:69-75 | "OLA" becomes "Ola" |
| Names.CapitalizeNordmann | src/auth/KeycloakAuthService.js:69-75 | "NORDMANN" becomes "Nordmann" |
| Names.CapitalizeJaneAnn | src/auth/KeycloakAuthService.js:69-75 | "JANE ann" and "jane ann" both become "Jane Ann" |
| AsciiCase.CaseLaws | src/auth/KeycloakAuthService.js:71-73 | ASCII case mapping keeps letters letters, leaves the space and every other non-letter unchanged, and is idempotent; upper-casing after lower-casing equals upper-casing |
| Claims.SecurityLevelFromAcr | src/auth/KeycloakAuthService.js:77-79 | the level read from `acr` is a single decimal digit |
| Claims.SecurityLevelFromLastCharacter | src/auth/KeycloakAuthService.js:77-79 | only the last character of `acr` decides the level |
| Claims.SecurityLevelIsValidExactly | src/auth/KeycloakAuthService.js:81-83 | the level check holds exactly when `acr` is "Level3" or "Level4" |
| Claims.IdTokenIsValidIff | src/auth/KeycloakAuthService.js:85-92 | the claims are valid exactly when `pid`, `given_name` and `family_name` are present and non-empty and `acr` is "Level3" or "Level4" (both directions) |
| Claims.SuffixAloneIsRejected | src/auth/KeycloakAuthService.js:77-92 | "XLevel4" yields level 4 yet fails both validity checks |
| Claims.ValidClaimsLevel | src/auth/KeycloakAuthService.js:110-115 | on validated claims the level read from `acr` is 3 or 4, and 4 exactly for "Level4" |
| Claims.ProfileFromValidClaims | src/auth/KeycloakAuthService.js:111-117 | the profile built from valid claims is well formed (level 3 or 4, non-empty names already capitalised); names keep their length; `pid` and `email` are carried over |
| AuthService.PersistTokens | src/auth/KeycloakAuthService.js:95-97 | the three `setItem` calls add the three token keys; each holds the string coercion of the provider's value; every other key is kept |
| AuthService.PersistedTokensAreRestored | src/auth/KeycloakAuthService.js:38-40 | the tokens just persisted are read back by the `getItem` calls that feed `init` |
| AuthService.AuthSuccessStoreAlways | src/auth/KeycloakAuthService.js:98-108 | whatever the sidecar and the claims, the login error is cleared, the step-up function is registered, and the URLs come from the sidecar when it is present |
| AuthService.AuthSuccessStoreOutcome | src/auth/KeycloakAuthService.js:110-123 | if the callback completes, exactly one holds: the profile is published and the error flag is untouched, or the error flag is set and the profile is untouched; representations are requested (once) exactly when a profile is published and the store knows no representatives |
| AuthService.AuthSuccessStorePublishesWellFormed | src/auth/KeycloakAuthService.js:110-117 | the callback only ever publishes well-formed profiles |
| AuthService.KeycloakAuthService.constructor | src/auth/KeycloakAuthService.js:8-29 | records the provider configuration on a page with the given storages, store and sidecar; the provider holds no tokens |
| AuthService.KeycloakAuthService.Init | src/auth/KeycloakAuthService.js:31-52 | registers `updateToken` with the store; hands the provider the three persisted tokens (`null` where missing) with check-sso; resolves true when authenticated, resolves false when anonymous, rejects with `false` on failure; changes no storage |
| AuthService.KeycloakAuthService.Login | src/auth/KeycloakAuthService.js:54-56 | starts a login redirect to the given URI |
| AuthService.KeycloakAuthService.LoginLevel4 | src/auth/KeycloakAuthService.js:58-60 | starts a provider logout whose redirect is the login URL with "&acr_values=Level4" appended |
| AuthService.KeycloakAuthService.Logout | src/auth/KeycloakAuthService.js:62-67 | both storages are empty, the provider's tokens are cleared, and a logout redirect to the given URI is started, whatever the prior contents; store and sidecar unchanged |
| AuthService.KeycloakAuthService.StoreTokens | src/auth/KeycloakAuthService.js:95-97 | session storage becomes `PersistTokens` of the provider's current tokens |
| AuthService.KeycloakAuthService.DispatchLoggedIn | src/auth/KeycloakAuthService.js:98-99 | only the step-up function and `loginError := false` are dispatched |
| AuthService.KeycloakAuthService.ConsumeSidecar | src/auth/KeycloakAuthService.js:101-108 | with the element present, its two attributes are dispatched as the URLs and the element is removed; without it, nothing is dispatched |
| AuthService.KeycloakAuthService.CheckClaims | src/auth/KeycloakAuthService.js:110-123 | valid claims publish the profile, invalid claims set the error flag, missing claims throw |
| AuthService.KeycloakAuthService.UpdateAccessTokenAndUserinfo | src/auth/KeycloakAuthService.js:94-124 | tokens are persisted on every path, including the throwing ones; sidecar gone; store is `AuthSuccessStore` of the old store, sidecar and claims; provider and local storage untouched |
| AuthService.KeycloakAuthService.OnAuthSuccess | src/auth/KeycloakAuthService.js:126-128 | as `updateAccessTokenAndUserinfo`; the three keys hold the current tokens, `loginError` is false, the URLs come from the sidecar, and profile-or-error is exclusive |
| AuthService.KeycloakAuthService.OnAuthError | src/auth/KeycloakAuthService.js:130-132 | exactly the effect of `logout` with no redirect URI |
| AuthService.KeycloakAuthService.OnAuthRefreshSuccess | src/auth/KeycloakAuthService.js:134-138 | rewrites only the three token keys; store, local storage, provider and sidecar unchanged |
| AuthService.KeycloakAuthService.OnAuthRefreshError | src/auth/KeycloakAuthService.js:140-143 | sets only `loginError := true`; both storages unchanged |
| AuthService.KeycloakAuthService.UpdateToken | src/auth/KeycloakAuthService.js:150-165 | resolves true both when the provider refreshed and when it did not; persists the three new tokens when a refresh happened and leaves storage as it was otherwise; rejects with an error on provider failure; store untouched; `minValidity` defaults to 10 |
| Scenarios.SignInAtLevel4 | src/auth/KeycloakAuthService.js:94-128 | claims {pid "01019012345", "OLA", "NORDMANN", "Level4", "ola@example.com"} publish {"01019012345", "Ola", "Nordmann", 4, "ola@example.com"} with no error and one representations request |
| Scenarios.SignInAtLevel2 | src/auth/KeycloakAuthService.js:94-123 | with `acr` "Level2" no profile is published and the error flag is set; the access token is still persisted |
| Scenarios.AnonymousVisit | src/auth/KeycloakAuthService.js:31-52 | with nothing persisted and an anonymous provider, `init` resolves false, passes no tokens and only registers `updateToken` |
| Scenarios.ReloadAfterRefresh | src/auth/KeycloakAuthService.js:150-165 | the tokens of a refresh are the ones the next page load hands to the provider |
| Scenarios.ReloadAfterLogout | src/auth/KeycloakAuthService.js:62-67 | after a logout the next page load hands the provider no tokens, whatever was persisted before |

## Left out

- Claims.SecurityLevelFromAcr: returns `None` wherever the last character is not a decimal digit. JavaScript's `Number()` gives `NaN` there, or 0 for an empty `acr` or a whitespace last character. The function is only reached with a validated `acr`, so the profile never sees the difference.
- AsciiCase.ToLower, AsciiCase.ToUpper: only ASCII letters change case. Every non-ASCII letter is left unchanged, including Æ, Ø and Å, so "BJØRN" gives "BjØrn" where the program gives "Bjørn". Unicode case mapping, which can also change a string's length, is not modelled.
- The Keycloak client library is not part of this model. That covers the OIDC/OAuth2 token exchange, the refresh handshake, `createLoginUrl` (a parameter of `LoginLevel4`), and redirect navigation (a recorded `Redirect` value). `clearToken` is modelled as dropping all four provider token fields.
- Callback timing: the provider fires `onAuthSuccess` before its `init` promise resolves, and it may invoke its own callbacks during `updateToken`. The model makes each callback a separate transition, and the scenarios run them in the provider's order.
- Promises and asynchrony: each provider result is a synchronous method input. The bound functions dispatched with `setKeycloakUpdateToken` and `setLoginLevel4Function` are recorded as flags.
- `getRepresentations` is asynchronous and lives in the store module, which is not part of this model. Each dispatch is counted. `hasNoRepresentatives` is a store field that the adapter only reads.
- The DOM: only the sidecar's presence and its two attribute values are modelled.
- `console.error` in `onAuthRefreshError` (line 142): console output is not modelled.
- `src/main.js`: Vue bootstrap, icon registration and styles, with no session logic.
