/** The parsed ID-token claims the adapter inspects, the two validity
    predicates, the security level read off `acr`, and the user profile
    (`brukerinfo`) built from valid claims. */
module Claims {
  import opened JsValues
  import Names

  /** The fields of `keycloak.idTokenParsed` that the adapter reads; each may
      be missing. */
  datatype IdTokenClaims = IdTokenClaims(
    pid: Option<string>,
    givenName: Option<string>,
    familyName: Option<string>,
    acr: Option<string>,
    email: Option<string>)

  /** The profile dispatched with `setBrukerinfo`: `brukerId`, `fornavn`,
      `etternavn`, `sikkerhetsniva` and `email`. */
  datatype UserProfile = UserProfile(
    id: string,
    firstName: string,
    lastName: string,
    securityLevel: nat,
    email: Option<string>)

  const Level3: string := "Level3"
  const Level4: string := "Level4"

  /** `Number(acr.charAt(acr.length - 1))` where the last character is a
      decimal digit; `None` where it is not. */
  function SecurityLevelFromAcr(acr: string): (level: Option<nat>)
    ensures level.Some? ==> level.value <= 9
  {
    if |acr| > 0 && '0' <= acr[|acr| - 1] <= '9'
    then Some(acr[|acr| - 1] as int - '0' as int)
    else None
  }

  /** `securityLevelIsValid`: `acr` is present and is exactly one of the two
      accepted values. */
  predicate SecurityLevelIsValid(t: IdTokenClaims) {
    Truthy(t.acr) && (t.acr.value == Level3 || t.acr.value == Level4)
  }

  /** `idTokenIsValid`: `pid`, `given_name` and `family_name` are truthy and
      the security level is valid. */
  predicate IdTokenIsValid(t: IdTokenClaims) {
    Truthy(t.pid) && Truthy(t.givenName) && Truthy(t.familyName) && SecurityLevelIsValid(t)
  }

  /** The object literal dispatched with `setBrukerinfo`, only ever built from
      claims that passed `idTokenIsValid`. */
  function ProfileFromClaims(t: IdTokenClaims): (p: UserProfile)
    requires IdTokenIsValid(t)
  {
    var level := SecurityLevelFromAcr(t.acr.value);
    UserProfile(
      t.pid.value,
      Names.CapitalizeFirstLetterOfNames(t.givenName.value),
      Names.CapitalizeFirstLetterOfNames(t.familyName.value),
      if level.Some? then level.value else 0,
      t.email)
  }

  /** What every published profile satisfies: an identifier, two non-empty
      names already in capitalised form, and a level of 3 or 4. */
  predicate WellFormedProfile(p: UserProfile) {
    && p.id != ""
    && p.firstName != "" && Names.IsCapitalized(p.firstName)
    && p.lastName != "" && Names.IsCapitalized(p.lastName)
    && (p.securityLevel == 3 || p.securityLevel == 4)
  }

  /** Only the last character of `acr` decides the level. */
  lemma SecurityLevelFromLastCharacter(prefix: string, last: char)
    ensures SecurityLevelFromAcr(prefix + [last]) == SecurityLevelFromAcr([last])
  {
  }

  /** The level check accepts exactly "Level3" and "Level4". */
  lemma SecurityLevelIsValidExactly(t: IdTokenClaims)
    ensures SecurityLevelIsValid(t) <==> t.acr == Some(Level3) || t.acr == Some(Level4)
  {
  }

  /** Both directions of `idTokenIsValid`. */
  lemma IdTokenIsValidIff(t: IdTokenClaims)
    ensures IdTokenIsValid(t) <==>
      && t.pid.Some? && t.pid.value != ""
      && t.givenName.Some? && t.givenName.value != ""
      && t.familyName.Some? && t.familyName.value != ""
      && (t.acr == Some(Level3) || t.acr == Some(Level4))
  {
    SecurityLevelIsValidExactly(t);
  }

  /** An `acr` that only ends in the digit 4 is rejected, although the level
      read from it would be 4. */
  lemma SuffixAloneIsRejected(t: IdTokenClaims)
    requires t.acr == Some("XLevel4")
    ensures SecurityLevelFromAcr(t.acr.value) == Some(4)
    ensures !SecurityLevelIsValid(t) && !IdTokenIsValid(t)
  {
  }

  /** On validated claims the level is 3 or 4, and 4 exactly for "Level4". */
  lemma ValidClaimsLevel(t: IdTokenClaims)
    requires IdTokenIsValid(t)
    ensures SecurityLevelFromAcr(t.acr.value) == Some(3) || SecurityLevelFromAcr(t.acr.value) == Some(4)
    ensures SecurityLevelFromAcr(t.acr.value) == Some(4) <==> t.acr == Some(Level4)
  {
  }

  /** A profile built from valid claims is well formed, names keep their
      length, the level is 4 exactly for "Level4", and `pid` and `email` are
      carried over. */
  lemma ProfileFromValidClaims(t: IdTokenClaims)
    requires IdTokenIsValid(t)
    ensures WellFormedProfile(ProfileFromClaims(t))
    ensures ProfileFromClaims(t).id == t.pid.value
    ensures ProfileFromClaims(t).email == t.email
    ensures |ProfileFromClaims(t).firstName| == |t.givenName.value|
    ensures |ProfileFromClaims(t).lastName| == |t.familyName.value|
    ensures ProfileFromClaims(t).securityLevel == 4 <==> t.acr == Some(Level4)
  {
    ValidClaimsLevel(t);
    Names.CapitalizeKeepsSpaces(t.givenName.value);
    Names.CapitalizeKeepsSpaces(t.familyName.value);
    Names.CapitalizedIffFixedPoint(t.givenName.value);
    Names.CapitalizedIffFixedPoint(t.familyName.value);
  }
}
