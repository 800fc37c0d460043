/**
 * The sign-in sheet's diagnostics: the snapshot kept of the last Apple
 * sign-in error and the alert text made from it, the label given to known
 * error codes, and the configuration values the diagnostics list shows.
 *
 * Bundle and Info.plist lookups are parameters (`None` when the key is
 * missing or of another type). String lengths count Unicode scalar values;
 * Swift counts grapheme clusters, which differs only for text with
 * combining sequences.
 */
module AuthDiagnostics {
  import opened Wrappers
  import opened Text

  const NotAvailable: string := "n/a"

  /** The error domain of `ASWebAuthenticationSessionError`. */
  const WebAuthDomain: string := "com.apple.AuthenticationServices.WebAuthenticationSession"

  /** The cases of `ASAuthorizationError.Code`; `FutureCase` stands for any the app was not built with. */
  datatype AuthorizationCode =
    | Unknown | Canceled | InvalidResponse | NotHandled | Failed | NotInteractive
    | MatchedExcludedCredential | CredentialImport | CredentialExport | PreferSignInWithApple
    | DeviceNotConfiguredForPasskeyCreation
    | FutureCase(rawValue: int)

  /** A sign-in error: an `ASAuthorizationError`, or any other `NSError` by domain and code. */
  datatype SignInError =
    | AuthorizationError(authorizationCode: AuthorizationCode)
    | OtherError(domain: string, code: int)

  function AuthorizationCaseName(c: AuthorizationCode): string {
    match c
    case Unknown => "unknown"
    case Canceled => "canceled"
    case InvalidResponse => "invalidResponse"
    case NotHandled => "notHandled"
    case Failed => "failed"
    case NotInteractive => "notInteractive"
    case MatchedExcludedCredential => "matchedExcludedCredential"
    case CredentialImport => "credentialImport"
    case CredentialExport => "credentialExport"
    case PreferSignInWithApple => "preferSignInWithApple"
    case DeviceNotConfiguredForPasskeyCreation => "deviceNotConfiguredForPasskeyCreation"
    case FutureCase(_) => "unknownFutureCase"
  }

  /**
   * The cases of `ASWebAuthenticationSessionError.Code` by raw value. The
   * imported enumeration accepts every raw value, so a code the app does
   * not know is a future case rather than no case.
   */
  function WebAuthCaseName(code: int): string {
    if code == 1 then "canceledLogin"
    else if code == 2 then "presentationContextNotProvided"
    else if code == 3 then "presentationContextInvalid"
    else "unknownFutureCase"
  }

  /**
   * `resolveCodeLabel`: the type-qualified case name of an authorization
   * error or of an error in the web-authentication domain, and nothing for
   * any other error.
   */
  function ResolveCodeLabel(e: SignInError): (r: Option<string>)
    ensures e.AuthorizationError? ==> r == Some("ASAuthorizationError." + AuthorizationCaseName(e.authorizationCode))
    ensures e.OtherError? ==> (r.Some? <==> e.domain == WebAuthDomain)
    ensures e.OtherError? && e.domain == WebAuthDomain ==>
      r == Some("ASWebAuthenticationSessionError." + WebAuthCaseName(e.code))
  {
    match e
    case AuthorizationError(code) => Some("ASAuthorizationError." + AuthorizationCaseName(code))
    case OtherError(domain, code) =>
      if domain == WebAuthDomain then Some("ASWebAuthenticationSessionError." + WebAuthCaseName(code)) else None
  }

  lemma CaseNamesDistinct(a: AuthorizationCode, b: AuthorizationCode)
    requires !a.FutureCase? && !b.FutureCase? && a != b
    ensures AuthorizationCaseName(a) != AuthorizationCaseName(b)
  {
  }

  /** Distinct known authorization codes get distinct labels. */
  lemma AuthorizationLabelsDistinct(a: AuthorizationCode, b: AuthorizationCode)
    requires !a.FutureCase? && !b.FutureCase? && a != b
    ensures ResolveCodeLabel(AuthorizationError(a)) != ResolveCodeLabel(AuthorizationError(b))
  {
    var p := "ASAuthorizationError.";
    var x, y := AuthorizationCaseName(a), AuthorizationCaseName(b);
    CaseNamesDistinct(a, b);
    assert (p + x)[|p|..] == x && (p + y)[|p|..] == y;
  }

  /** What the snapshot reads from a caught error. */
  datatype CaughtError = CaughtError(
    error: SignInError,
    localizedDescription: string,
    errorDescription: Option<string>,  // present when the error is a `LocalizedError` that has one
    failureReason: Option<string>,
    recoverySuggestion: Option<string>)

  /** `AppleSignInErrorSnapshot`, without its identifier and capture time. */
  datatype Snapshot = Snapshot(
    domain: string,
    code: int,
    codeLabel: Option<string>,
    message: string,
    failureReason: Option<string>,
    recoverySuggestion: Option<string>)

  /** The domain and code `NSError` bridging gives an authorization error; its codes are not modelled. */
  function ErrorDomain(e: SignInError): string {
    match e
    case AuthorizationError(_) => "com.apple.AuthenticationServices.AuthorizationError"
    case OtherError(domain, _) => domain
  }

  /** `init(error:)`, given the authorization error's raw code. */
  function SnapshotOf(c: CaughtError, authorizationRawCode: int): (s: Snapshot)
    ensures s.domain == ErrorDomain(c.error)
    ensures s.code == if c.error.OtherError? then c.error.code else authorizationRawCode
    ensures s.message == c.errorDescription.GetOr(c.localizedDescription)
    ensures s.codeLabel == ResolveCodeLabel(c.error)
    ensures s.failureReason == c.failureReason && s.recoverySuggestion == c.recoverySuggestion
  {
    Snapshot(
      ErrorDomain(c.error),
      if c.error.OtherError? then c.error.code else authorizationRawCode,
      ResolveCodeLabel(c.error),
      c.errorDescription.GetOr(c.localizedDescription),
      c.failureReason,
      c.recoverySuggestion)
  }

  predicate NonEmpty(s: Option<string>) {
    s.Some? && s.value != ""
  }

  /** The first alert line: domain and code in brackets, then the label if there is one. */
  function HeaderLine(s: Snapshot): string {
    "[" + s.domain + ":" + IntToString(s.code) + "]" + (if NonEmpty(s.codeLabel) then " " + s.codeLabel.value else "")
  }

  /** The alert's lines: the header, the message, and the failure reason when there is one. */
  function AlertLines(s: Snapshot): (lines: seq<string>)
    ensures |lines| == (if NonEmpty(s.failureReason) then 3 else 2)
    ensures lines[0] == HeaderLine(s) && lines[1] == s.message
    ensures NonEmpty(s.failureReason) ==> lines[2] == s.failureReason.value
  {
    [HeaderLine(s), s.message] + (if NonEmpty(s.failureReason) then [s.failureReason.value] else [])
  }

  /**
   * The alert for a caught error: its header names the error's domain, then
   * comes the message, then the error's failure reason when there is one.
   */
  lemma AlertShowsCaughtError(c: CaughtError, authorizationRawCode: int)
    ensures var lines := AlertLines(SnapshotOf(c, authorizationRawCode));
      && HasPrefix(lines[0], "[" + ErrorDomain(c.error) + ":")
      && lines[1] == c.errorDescription.GetOr(c.localizedDescription)
      && (NonEmpty(c.failureReason) <==> |lines| == 3)
      && (NonEmpty(c.failureReason) ==> lines[2] == c.failureReason.value)
  {
    var s := SnapshotOf(c, authorizationRawCode);
    var p := "[" + s.domain + ":";
    assert HeaderLine(s)[..|p|] == p;
  }

  /** `alertMessage`: builds the lines one by one and joins them with line breaks. */
  method AlertMessage(s: Snapshot) returns (text: string)
    ensures text == Join(AlertLines(s), "\n")
  {
    var lines: seq<string> := [];
    var bracket := "[" + s.domain + ":" + IntToString(s.code) + "]";
    if s.codeLabel.Some? && s.codeLabel.value != "" {
      lines := lines + [bracket + " " + s.codeLabel.value];
      assert lines[0] == HeaderLine(s);
    } else {
      lines := lines + [bracket];
      assert lines[0] == HeaderLine(s);
    }
    lines := lines + [s.message];
    if s.failureReason.Some? && s.failureReason.value != "" {
      lines := lines + [s.failureReason.value];
    }
    assert lines == AlertLines(s);
    text := Join(lines, "\n");
  }

  /** The recovery suggestion never reaches the alert. */
  lemma AlertIgnoresRecoverySuggestion(s: Snapshot, suggestion: Option<string>)
    ensures AlertLines(s.(recoverySuggestion := suggestion)) == AlertLines(s)
  {
  }

  /** The alert text is the header, a line break and the message, then the reason on its own line if any. */
  lemma AlertText(s: Snapshot)
    ensures Join(AlertLines(s), "\n") ==
      HeaderLine(s) + "\n" + s.message + (if NonEmpty(s.failureReason) then "\n" + s.failureReason.value else "")
  {
    var lines := AlertLines(s);
    if NonEmpty(s.failureReason) {
      assert lines[1..] == [s.message, s.failureReason.value];
      assert Join(lines[1..], "\n") == s.message + "\n" + s.failureReason.value;
    } else {
      assert lines[1..] == [s.message];
    }
  }

  // ---------------------------------------------------------------------
  // Configuration values

  /** `mask`: a long value shows its first ten and last four characters only. */
  function Mask(value: string): (r: string)
    ensures |value| <= 14 ==> r == value
    ensures |value| > 14 ==> |r| == 17 && r[..10] == value[..10] && r[10..13] == "..." && r[13..] == value[|value| - 4..]
  {
    if |value| <= 14 then value else value[..10] + "..." + value[|value| - 4..]
  }

  /** Masking a masked value changes nothing: the mask is as long as the shape it makes. */
  lemma MaskIdempotent(value: string)
    ensures Mask(Mask(value)) == Mask(value)
  {
    var r := Mask(value);
    if |value| > 14 {
      assert r == r[..10] + r[10..13] + r[13..];
    }
  }

  /** `bundleIdentifier` and the Info.plist strings: "n/a" when missing. */
  function OrNotAvailable(value: Option<string>): string {
    value.GetOr(NotAvailable)
  }

  /** The scheme of a URL: the text before its first colon, if it has one. */
  function UrlScheme(url: string): (r: Option<string>)
    ensures r.None? <==> ':' !in url
    ensures r.Some? ==> HasPrefix(url, r.value + ":") && ':' !in r.value
  {
    if url == [] then None
    else if url[0] == ':' then Some("")
    else
      match UrlScheme(url[1..])
      case None => None
      case Some(rest) => Some([url[0]] + rest)
  }

  /** A colon-free prefix followed by a colon is the scheme. */
  lemma {:induction false} UrlSchemeOfPrefix(scheme: string, rest: string)
    requires ':' !in scheme
    ensures UrlScheme(scheme + ":" + rest) == Some(scheme)
  {
    var url := scheme + ":" + rest;
    if scheme == [] {
      assert url[0] == ':';
    } else {
      assert url[0] == scheme[0] && scheme[0] != ':';
      assert url[1..] == scheme[1..] + ":" + rest;
      UrlSchemeOfPrefix(scheme[1..], rest);
      assert [scheme[0]] + scheme[1..] == scheme;
    }
  }

  /** `expectedCallbackScheme`: the bundle identifier, or "n/a". */
  function ExpectedCallbackScheme(bundleIdentifier: Option<string>): string {
    OrNotAvailable(bundleIdentifier)
  }

  /** What follows the scheme's colon in the redirect URL: the `callback` host after `//`. */
  const CallbackPath: string := "//callback"

  /**
   * `expectedRedirectURL`, "<bundle>://callback": a URL whose scheme is the
   * expected callback scheme, and whose remainder is the callback path
   * whatever the bundle.
   */
  function ExpectedRedirectURL(bundleIdentifier: Option<string>): (r: string)
    ensures ':' !in ExpectedCallbackScheme(bundleIdentifier) ==>
      && UrlScheme(r) == Some(ExpectedCallbackScheme(bundleIdentifier))
      && r[|ExpectedCallbackScheme(bundleIdentifier)| + 1..] == CallbackPath
    ensures bundleIdentifier.None? ==> UrlScheme(r) == Some(NotAvailable)
  {
    var scheme := ExpectedCallbackScheme(bundleIdentifier);
    var r := scheme + ":" + CallbackPath;
    if ':' in scheme then r
    else
      UrlSchemeOfPrefix(scheme, CallbackPath);
      assert r[|scheme| + 1..] == CallbackPath;
      r
  }

  /** `applicationIdentifier`: "team.bundle", or "n/a" when either part is. */
  function ApplicationIdentifier(buildTeamIdentifier: Option<string>, bundleIdentifier: Option<string>): (r: string)
    ensures r == NotAvailable <==>
      OrNotAvailable(buildTeamIdentifier) == NotAvailable || OrNotAvailable(bundleIdentifier) == NotAvailable
    ensures r != NotAvailable ==> r == OrNotAvailable(buildTeamIdentifier) + "." + OrNotAvailable(bundleIdentifier)
  {
    var team, bundle := OrNotAvailable(buildTeamIdentifier), OrNotAvailable(bundleIdentifier);
    if team == NotAvailable || bundle == NotAvailable then NotAvailable
    else
      var r := team + "." + bundle;
      assert r[|team|] == '.';
      r
  }

  /** The non-empty strings of a list, in order. */
  function NonEmptyOnly(s: seq<string>): (r: seq<string>)
    ensures forall k :: 0 <= k < |r| ==> r[k] != ""
    ensures forall x :: x in r <==> x in s && x != ""
  {
    if s == [] then []
    else (if s[0] != "" then [s[0]] else []) + NonEmptyOnly(s[1..])
  }

  /** Each non-empty string is kept as often as it occurs, and the empty string never. */
  lemma {:induction false} NonEmptyOnlyMultiset(s: seq<string>)
    ensures multiset(NonEmptyOnly(s)) == multiset(s)["" := 0]
  {
    if s != [] {
      NonEmptyOnlyMultiset(s[1..]);
      assert s == [s[0]] + s[1..];
    }
  }

  /**
   * Filtering distributes over concatenation, so the kept strings stay in
   * their input order: together with the one-element case this fixes the
   * result.
   */
  lemma {:induction false} NonEmptyOnlyAppend(a: seq<string>, b: seq<string>)
    ensures NonEmptyOnly(a + b) == NonEmptyOnly(a) + NonEmptyOnly(b)
  {
    if a == [] {
      assert a + b == b;
    } else {
      var head := if a[0] != "" then [a[0]] else [];
      assert a + b == [a[0]] + (a[1..] + b);
      NonEmptyOnlyCons(a[0], a[1..] + b);
      NonEmptyOnlyCons(a[0], a[1..]);
      assert [a[0]] + a[1..] == a;
      NonEmptyOnlyAppend(a[1..], b);
      assert head + (NonEmptyOnly(a[1..]) + NonEmptyOnly(b)) == (head + NonEmptyOnly(a[1..])) + NonEmptyOnly(b);
    }
  }

  /** One step of the filter: the first string is kept when it is non-empty. */
  lemma NonEmptyOnlyCons(x: string, s: seq<string>)
    ensures NonEmptyOnly([x] + s) == (if x != "" then [x] else []) + NonEmptyOnly(s)
  {
    assert ([x] + s)[0] == x && ([x] + s)[1..] == s;
  }

  /** The schemes of every URL type, flattened in order (`flatMap`). */
  function AllSchemes(urlTypes: seq<Option<seq<string>>>): seq<string> {
    if urlTypes == [] then [] else urlTypes[0].GetOr([]) + AllSchemes(urlTypes[1..])
  }

  /** `SchemesOf` is the source's `flatMap` followed by `filter`. */
  lemma {:induction false} SchemesOfIsFilteredFlatMap(urlTypes: seq<Option<seq<string>>>)
    ensures SchemesOf(urlTypes) == NonEmptyOnly(AllSchemes(urlTypes))
  {
    if urlTypes != [] {
      SchemesOfIsFilteredFlatMap(urlTypes[1..]);
      NonEmptyOnlyAppend(urlTypes[0].GetOr([]), AllSchemes(urlTypes[1..]));
    }
  }

  /**
   * The schemes of the URL types, in order, without empty ones. An entry is
   * `None` when it has no scheme list of strings.
   */
  function SchemesOf(urlTypes: seq<Option<seq<string>>>): (r: seq<string>)
    ensures forall k :: 0 <= k < |r| ==> r[k] != ""
  {
    if urlTypes == [] then []
    else NonEmptyOnly(urlTypes[0].GetOr([])) + SchemesOf(urlTypes[1..])
  }

  /** A scheme is listed exactly when it is non-empty and some URL type declares it. */
  lemma {:induction false} SchemesOfMembership(urlTypes: seq<Option<seq<string>>>, scheme: string)
    ensures scheme in SchemesOf(urlTypes) <==>
      scheme != "" && exists i :: 0 <= i < |urlTypes| && urlTypes[i].Some? && scheme in urlTypes[i].value
  {
    if urlTypes != [] {
      SchemesOfMembership(urlTypes[1..], scheme);
      if scheme != "" && (exists i :: 0 <= i < |urlTypes| && urlTypes[i].Some? && scheme in urlTypes[i].value) {
        var i :| 0 <= i < |urlTypes| && urlTypes[i].Some? && scheme in urlTypes[i].value;
        if i > 0 {
          assert urlTypes[1..][i - 1] == urlTypes[i];
        }
      }
      if (exists i :: 0 <= i < |urlTypes[1..]| && urlTypes[1..][i].Some? && scheme in urlTypes[1..][i].value) {
        var i :| 0 <= i < |urlTypes[1..]| && urlTypes[1..][i].Some? && scheme in urlTypes[1..][i].value;
        assert urlTypes[i + 1] == urlTypes[1..][i];
      }
    }
  }

  /** `configuredURLSchemes`: no URL types (or not a list of dictionaries) gives no schemes. */
  function ConfiguredURLSchemes(urlTypes: Option<seq<Option<seq<string>>>>): (r: seq<string>)
    ensures urlTypes.None? ==> r == []
    ensures urlTypes.Some? ==> r == SchemesOf(urlTypes.value)
  {
    if urlTypes.None? then [] else SchemesOf(urlTypes.value)
  }

  /** `DiagnosticRow`: an empty value shows as "n/a", so no row is ever blank. */
  function DiagnosticValue(value: string): (r: string)
    ensures r != ""
    ensures value != "" ==> r == value
    ensures value == "" ==> r == NotAvailable
  {
    if value == "" then NotAvailable else value
  }
}
