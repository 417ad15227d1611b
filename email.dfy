/**
 * Identity resolution: the signed-in user's email as reported by the host
 * portal's profile, normalised for Azure AD guest accounts, with a fixed
 * fallback identifier when no email can be obtained.
 */
module Email {
  import opened Wrappers
  import opened Text

  /** The marker Azure AD inserts into the user principal name of a guest account. */
  const ExtMarker: string := "#EXT#"

  /** The identifier used when the profile lookup yields no email. */
  const FallbackUserEmail: string := "FALLBACK_USER_EMAIL"

  /**
   * Cuts a guest address at its first `#EXT#` marker; any other address is returned as it is.
   * The result is the longest prefix of `email` that stops before the first marker.
   */
  function ParseAzureAdEmail(email: string): (r: string)
    ensures r <= email
    ensures forall j :: 0 <= j < |r| ==> !OccursAt(email, ExtMarker, j)
    ensures !Contains(r, ExtMarker)
    ensures Contains(email, ExtMarker) ==> OccursAt(email, ExtMarker, |r|)
    ensures !Contains(email, ExtMarker) ==> r == email
  {
    if Contains(email, ExtMarker) then SplitHead(email, ExtMarker) else email
  }

  /** The properties in ParseAzureAdEmail's contract determine its result: any prefix cut at the first marker is that result. */
  lemma ParseAzureAdEmailUnique(email: string, r: string)
    requires r <= email
    requires forall j :: 0 <= j < |r| ==> !OccursAt(email, ExtMarker, j)
    requires OccursAt(email, ExtMarker, |r|) || r == email
    ensures r == ParseAzureAdEmail(email)
  {
    var p := ParseAzureAdEmail(email);
    if OccursAt(email, ExtMarker, |r|) {
      assert Contains(email, ExtMarker);
      assert !(|r| < |p|);
      assert !(|p| < |r|);
    }
  }

  /** Normalising twice is the same as normalising once. */
  lemma ParseAzureAdEmailIdempotent(email: string)
    ensures ParseAzureAdEmail(ParseAzureAdEmail(email)) == ParseAzureAdEmail(email)
  {
  }

  /** A string without any '#' holds no marker. */
  lemma NoHashNoMarker(s: string)
    requires '#' !in s
    ensures !Contains(s, ExtMarker)
  {
    forall i | 0 <= i <= |s| ensures !OccursAt(s, ExtMarker, i) {
      if i < |s| {
        assert s[i] in s;
      }
    }
  }

  /** A typical guest address loses everything from the marker on. */
  lemma ParseAzureAdEmailExample()
    ensures ParseAzureAdEmail("jane.doe_external#EXT#@tenant.onmicrosoft.com") == "jane.doe_external"
  {
    var e := "jane.doe_external#EXT#@tenant.onmicrosoft.com";
    assert e[17] == '#' && e[18] == 'E' && e[19] == 'X' && e[20] == 'T' && e[21] == '#';
    assert e[17..22] == ExtMarker;
    var cut := "jane.doe_external";
    assert e[..17] == cut;
    assert '#' !in cut;
    forall j | 0 <= j < 17 ensures !OccursAt(e, ExtMarker, j) {
      assert e[j] == cut[j];
      assert e[j..j + 5][0] == e[j];
    }
    ParseAzureAdEmailUnique(e, e[..17]);
  }

  /** What the host portal's profile carries: possibly an email. */
  datatype ProfileInfo = ProfileInfo(email: Option<string>)

  /** The outcome of asking the host portal for the profile: it failed, or it gave a profile or nothing. */
  datatype ProfileLookup = LookupFailed | Resolved(profile: Option<ProfileInfo>)

  /** The lookup produced a profile whose email is present and non-empty (truthy). */
  predicate HasEmail(lookup: ProfileLookup)
  {
    lookup.Resolved? && lookup.profile.Some? && lookup.profile.value.email.Some?
    && lookup.profile.value.email.value != ""
  }

  lemma FallbackHasNoMarker()
    ensures !Contains(FallbackUserEmail, ExtMarker)
  {
    assert '#' !in FallbackUserEmail;
    NoHashNoMarker(FallbackUserEmail);
  }

  /**
   * The user identifier the page works with: the normalised email when the
   * profile has one, the fixed fallback otherwise. It never fails.
   */
  function FetchUserEmail(lookup: ProfileLookup): (r: string)
    ensures HasEmail(lookup) ==> r == ParseAzureAdEmail(lookup.profile.value.email.value)
    ensures !HasEmail(lookup) ==> r == FallbackUserEmail
    ensures !Contains(r, ExtMarker)
  {
    match lookup
    case LookupFailed => FallbackHasNoMarker(); FallbackUserEmail
    case Resolved(profile) =>
      if profile.None? || profile.value.email.None? || profile.value.email.value == "" then
        FallbackHasNoMarker(); FallbackUserEmail
      else
        ParseAzureAdEmail(profile.value.email.value)
  }
}
