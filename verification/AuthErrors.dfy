/** Classification of a failed token acquisition (auth_errors.py). */
module AuthErrors {
  import opened Wrappers

  datatype Category = InvalidGrant | ClaimsChallenge | NetworkError | DeviceCaBlocked | ConsentRequired | Unknown

  /** The error keys of a result dictionary; an absent list of codes is the empty one. */
  datatype MsalResult = MsalResult(error: Option<string>, description: Option<string>, suberror: Option<string>,
                                   codes: seq<int>, claims: Option<string>)

  datatype Classified = Classified(category: Category, claims: Option<string>, adminConsentUrl: Option<string>,
                                   rawError: Option<string>, rawDescription: Option<string>)

  const DEVICE_CODES := {53000, 53001, 530003}
  const DEVICE_MARKERS := ["AADSTS53000", "AADSTS53001", "AADSTS530003"]
  const CONSENT_CODE := 65001
  const CONSENT_MARKER := "AADSTS65001"

  predicate Contains(text: string, part: string) {
    exists i :: 0 <= i <= |text| && part <= text[i..]
  }

  function Text(s: Option<string>): string {
    match s case None => "" case Some(t) => t
  }

  predicate DeviceSignal(r: MsalResult) {
    (exists c :: c in r.codes && c in DEVICE_CODES) || (exists m :: m in DEVICE_MARKERS && Contains(Text(r.description), m))
  }

  predicate ConsentSignal(r: MsalResult) {
    r.suberror == Some("consent_required") || CONSENT_CODE in r.codes || Contains(Text(r.description), CONSENT_MARKER)
  }

  /** `consentUrl` is the composed admin-consent URL, present only when the caller supplied the
      tenant, the client id and the redirect URI. */
  function Classify(r: MsalResult, consentUrl: Option<string>): Classified {
    if DeviceSignal(r) then
      Classified(DeviceCaBlocked, None, None, r.error, r.description)
    else if ConsentSignal(r) then
      Classified(ConsentRequired, None, consentUrl, r.error, r.description)
    else if Text(r.claims) != "" then
      Classified(ClaimsChallenge, r.claims, None, r.error, r.description)
    else if r.error == Some("invalid_grant") then
      Classified(InvalidGrant, None, None, r.error, r.description)
    else
      Classified(Unknown, None, None, r.error, r.description)
  }

  // ---- what the answer is, in plain terms ------------------------------------------------------------------

  /** The description has the text somewhere in it. */
  ghost predicate Mentions(description: Option<string>, part: string) {
    description.Some? && exists pre, post :: description.value == pre + part + post
  }

  ghost predicate BlamesDevice(r: MsalResult) {
    || 53000 in r.codes || 53001 in r.codes || 530003 in r.codes
    || Mentions(r.description, "AADSTS53000") || Mentions(r.description, "AADSTS53001") || Mentions(r.description, "AADSTS530003")
  }

  ghost predicate AsksConsent(r: MsalResult) {
    r.suberror == Some("consent_required") || 65001 in r.codes || Mentions(r.description, "AADSTS65001")
  }

  ghost predicate HasClaims(r: MsalResult) {
    r.claims.Some? && r.claims.value != ""
  }

  lemma ContainsIff(description: Option<string>, part: string)
    requires part != ""
    ensures Contains(Text(description), part) <==> Mentions(description, part)
  {
    var d := Text(description);
    if i :| 0 <= i <= |d| && part <= d[i..] {
      assert d == d[..i] + part + d[i..][|part|..];
    }
    if Mentions(description, part) {
      var pre, post :| description.value == pre + part + post;
      assert d[|pre|..] == part + post;
    }
  }

  lemma SignalsIff(r: MsalResult)
    ensures DeviceSignal(r) <==> BlamesDevice(r)
    ensures ConsentSignal(r) <==> AsksConsent(r)
  {
    ContainsIff(r.description, "AADSTS53000");
    ContainsIff(r.description, "AADSTS53001");
    ContainsIff(r.description, "AADSTS530003");
    ContainsIff(r.description, "AADSTS65001");
    assert DEVICE_MARKERS[0] == "AADSTS53000" && DEVICE_MARKERS[1] == "AADSTS53001" && DEVICE_MARKERS[2] == "AADSTS530003";
  }

  /** Which category a failed result falls into: a device error before all else, then missing consent, then
      claims, whatever the error is called, then the two that remain. The claims are passed on for a
      challenge and the consent page for missing consent, and nothing else is. */
  lemma ClassifiedAs(r: MsalResult, consentUrl: Option<string>)
    ensures var c := Classify(r, consentUrl);
            && (c.category == DeviceCaBlocked <==> BlamesDevice(r))
            && (c.category == ConsentRequired <==> !BlamesDevice(r) && AsksConsent(r))
            && (c.category == ClaimsChallenge <==> !BlamesDevice(r) && !AsksConsent(r) && HasClaims(r))
            && (c.category == InvalidGrant <==> !BlamesDevice(r) && !AsksConsent(r) && !HasClaims(r) && r.error == Some("invalid_grant"))
            && (c.category == Unknown <==> !BlamesDevice(r) && !AsksConsent(r) && !HasClaims(r) && r.error != Some("invalid_grant"))
            && c.claims == (if c.category == ClaimsChallenge then r.claims else None)
            && c.adminConsentUrl == (if c.category == ConsentRequired then consentUrl else None)
            && c.rawError == r.error && c.rawDescription == r.description
  {
    SignalsIff(r);
  }

  /** The device test on the description is a substring test, so a description naming any code
      that merely begins with 53000 (say AADSTS530004) blocks the account too, whatever else the
      result says. */
  lemma DeviceMarkerIsAPrefixTest(r: MsalResult, pre: string, tail: string, consentUrl: Option<string>)
    requires r.description == Some(pre + "AADSTS53000" + tail)
    ensures Classify(r, consentUrl).category == DeviceCaBlocked
  {
    var d := Text(r.description);
    assert d[|pre|..] == "AADSTS53000" + tail;
    assert DEVICE_MARKERS[0] == "AADSTS53000" && Contains(d, DEVICE_MARKERS[0]);
  }
}
