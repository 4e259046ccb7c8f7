/**
 * The environment-driven settings of the sync (event_sync/config.py): the ordered list of
 * configuration errors, `ensure_valid`, and the memoised parse of the Google credentials.
 * `json.loads` is not modelled: each configuration carries an abstract parser for it.
 */
module Config {
  import opened Wrappers
  import opened Text

  /** The part of a parsed credentials document the sync looks at: its member names. */
  datatype JsonDoc = JsonDoc(keys: set<string>)

  /** What `json.loads` makes of the raw credentials: a decode error or a JSON object. */
  datatype JsonParse = Malformed | Parsed(doc: JsonDoc)

  /** Python truthiness of an optional string: neither None nor empty. */
  predicate Present(s: Option<string>) {
    s.Some? && s.value != ""
  }

  const ApiKeyMissing := "WIX_API_KEY is missing"
  const SiteIdMissing := "WIX_SITE_ID is missing"
  const SheetIdMissing := "GOOGLE_SHEET_ID is missing"
  const CredentialsMissing := "GOOGLE_CREDENTIALS is missing"
  const CredentialsInvalid := "GOOGLE_CREDENTIALS is not valid JSON or missing client_email"

  /** The order in which the checks report; a credentials error of either kind comes last. */
  function Rank(message: string): nat {
    if message == ApiKeyMissing then 0
    else if message == SiteIdMissing then 1
    else if message == SheetIdMissing then 2
    else 3
  }

  /**
   * What the `google_credentials` property yields without its cache: None for missing or empty
   * raw text, for text that is not JSON, and for a document without `client_email`.
   */
  function ParsedCredentials(raw: Option<string>, parse: string -> JsonParse): (r: Option<JsonDoc>)
    ensures r.Some? <==> Present(raw) && parse(raw.value).Parsed? && "client_email" in parse(raw.value).doc.keys
    ensures r.Some? ==> r == Some(parse(raw.value).doc)
  {
    if !Present(raw) then None
    else match parse(raw.value)
      case Malformed => None
      case Parsed(doc) => if "client_email" in doc.keys then Some(doc) else None
  }

  /**
   * `validation_errors` given the settings and what `google_credentials` yields: one message per
   * missing setting, in the order API key, site id, sheet id, credentials, where present but
   * unusable credentials are reported as invalid instead of missing.
   */
  function ValidationErrorList(apiKey: Option<string>, siteId: Option<string>, sheetId: Option<string>,
                               raw: Option<string>, creds: Option<JsonDoc>): (errors: seq<string>)
    ensures |errors| <= 4
    ensures forall i, j :: 0 <= i < j < |errors| ==> Rank(errors[i]) < Rank(errors[j])
  {
    (if !Present(apiKey) then [ApiKeyMissing] else [])
    + (if !Present(siteId) then [SiteIdMissing] else [])
    + (if !Present(sheetId) then [SheetIdMissing] else [])
    + (if !Present(raw) then [CredentialsMissing]
       else if creds.None? then [CredentialsInvalid]
       else [])
  }

  /** The five messages are pairwise different. */
  lemma MessagesDistinct()
    ensures ApiKeyMissing != SiteIdMissing && ApiKeyMissing != SheetIdMissing && SiteIdMissing != SheetIdMissing
    ensures forall m :: m in [ApiKeyMissing, SiteIdMissing, SheetIdMissing] ==> m != CredentialsMissing && m != CredentialsInvalid
    ensures CredentialsMissing != CredentialsInvalid
  {
    assert ApiKeyMissing[4] == 'A' && SiteIdMissing[4] == 'S';
    assert |ApiKeyMissing| == |SiteIdMissing| == 22 && |SheetIdMissing| == 26;
    assert |CredentialsMissing| == 29 && |CredentialsInvalid| > 29;
  }

  /** The error list as its four parts. */
  lemma ErrorParts(apiKey: Option<string>, siteId: Option<string>, sheetId: Option<string>,
                   raw: Option<string>, creds: Option<JsonDoc>, m: string)
    ensures m in ValidationErrorList(apiKey, siteId, sheetId, raw, creds) <==>
      || (m == ApiKeyMissing && !Present(apiKey))
      || (m == SiteIdMissing && !Present(siteId))
      || (m == SheetIdMissing && !Present(sheetId))
      || (m == CredentialsMissing && !Present(raw))
      || (m == CredentialsInvalid && Present(raw) && creds.None?)
  {
    var a := if !Present(apiKey) then [ApiKeyMissing] else [];
    var b := if !Present(siteId) then [SiteIdMissing] else [];
    var c := if !Present(sheetId) then [SheetIdMissing] else [];
    var d := if !Present(raw) then [CredentialsMissing] else if creds.None? then [CredentialsInvalid] else [];
    assert ValidationErrorList(apiKey, siteId, sheetId, raw, creds) == a + b + c + d;
    InFour(a, b, c, d, m);
    assert m in a <==> m == ApiKeyMissing && !Present(apiKey);
    assert m in b <==> m == SiteIdMissing && !Present(siteId);
    assert m in c <==> m == SheetIdMissing && !Present(sheetId);
  }

  /** Each setting is reported exactly when it is missing. */
  lemma ReportedIffMissing(apiKey: Option<string>, siteId: Option<string>, sheetId: Option<string>,
                           raw: Option<string>, creds: Option<JsonDoc>)
    ensures var errors := ValidationErrorList(apiKey, siteId, sheetId, raw, creds);
      && (ApiKeyMissing in errors <==> !Present(apiKey))
      && (SiteIdMissing in errors <==> !Present(siteId))
      && (SheetIdMissing in errors <==> !Present(sheetId))
      && (CredentialsMissing in errors <==> !Present(raw))
      && (CredentialsInvalid in errors <==> Present(raw) && creds.None?)
  {
    MessagesDistinct();
    ErrorParts(apiKey, siteId, sheetId, raw, creds, ApiKeyMissing);
    ErrorParts(apiKey, siteId, sheetId, raw, creds, SiteIdMissing);
    ErrorParts(apiKey, siteId, sheetId, raw, creds, SheetIdMissing);
    ErrorParts(apiKey, siteId, sheetId, raw, creds, CredentialsMissing);
    ErrorParts(apiKey, siteId, sheetId, raw, creds, CredentialsInvalid);
  }

  /** Membership in four joined lists. */
  lemma InFour<T>(a: seq<T>, b: seq<T>, c: seq<T>, d: seq<T>, m: T)
    ensures m in a + b + c + d <==> m in a || m in b || m in c || m in d
  {
  }

  /** There is at most one credentials error. */
  lemma OneCredentialsError(apiKey: Option<string>, siteId: Option<string>, sheetId: Option<string>,
                            raw: Option<string>, creds: Option<JsonDoc>)
    ensures var errors := ValidationErrorList(apiKey, siteId, sheetId, raw, creds);
      !(CredentialsMissing in errors && CredentialsInvalid in errors)
  {
  }

  /** The configuration is valid exactly when every checked setting is present and the credentials parse. */
  lemma NoErrorsIff(apiKey: Option<string>, siteId: Option<string>, sheetId: Option<string>,
                    raw: Option<string>, creds: Option<JsonDoc>)
    ensures ValidationErrorList(apiKey, siteId, sheetId, raw, creds) == [] <==>
      Present(apiKey) && Present(siteId) && Present(sheetId) && Present(raw) && creds.Some?
  {
  }

  /** `ensure_valid` on a list of errors: ConfigError with the messages joined by "; " iff there is one. */
  function EnsureValidOf(errors: seq<string>): (r: Result<(), string>)
    ensures r.Err? <==> errors != []
    ensures r.Err? ==> r.error == Join(errors, "; ")
  {
    if errors != [] then Err(Join(errors, "; ")) else Ok(())
  }

  /** `AppConfig`: the settings, read once, and the credentials cache the property writes. */
  class AppConfig {
    const wixApiKey: Option<string>
    const wixAccountId: Option<string>
    const wixSiteId: Option<string>
    const googleSheetId: Option<string>
    const googleCredentialsRaw: Option<string>
    const sheetRange: string
    const timezone: string
    /** `json.loads`, given rather than modelled. */
    const parse: string -> JsonParse
    var credentialsCache: Option<JsonDoc>

    /** The cache holds nothing, or the one successful parse of the raw credentials. */
    predicate Valid()
      reads this
    {
      credentialsCache.None? || credentialsCache == ParsedCredentials(googleCredentialsRaw, parse)
    }

    /** `load_config`'s construction: the five settings, the default range and timezone, an empty cache. */
    constructor (apiKey: Option<string>, accountId: Option<string>, siteId: Option<string>,
                 sheetId: Option<string>, raw: Option<string>, parse: string -> JsonParse)
      ensures wixApiKey == apiKey && wixAccountId == accountId && wixSiteId == siteId
      ensures googleSheetId == sheetId && googleCredentialsRaw == raw && this.parse == parse
      ensures sheetRange == "Sheet1!A1:Z100" && timezone == "America/Toronto"
      ensures credentialsCache.None? && Valid()
    {
      wixApiKey := apiKey;
      wixAccountId := accountId;
      wixSiteId := siteId;
      googleSheetId := sheetId;
      googleCredentialsRaw := raw;
      this.parse := parse;
      sheetRange := "Sheet1!A1:Z100";
      timezone := "America/Toronto";
      credentialsCache := None;
    }

    /**
     * The `google_credentials` property: a cached document is returned as is; otherwise the raw
     * text is parsed, and only a successful parse is cached. Memoisation is invisible to callers:
     * the result is always the parse of the raw text.
     */
    method GoogleCredentials() returns (creds: Option<JsonDoc>)
      requires Valid()
      modifies this
      ensures Valid()
      ensures creds == ParsedCredentials(googleCredentialsRaw, parse)
      ensures credentialsCache == if old(credentialsCache).Some? then old(credentialsCache) else creds
    {
      if credentialsCache.Some? {
        return credentialsCache;
      }
      if !Present(googleCredentialsRaw) {
        return None;
      }
      var parsed := parse(googleCredentialsRaw.value);
      if parsed.Malformed? {
        return None;
      }
      if "client_email" !in parsed.doc.keys {
        return None;
      }
      credentialsCache := Some(parsed.doc);
      return Some(parsed.doc);
    }

    /** `validation_errors`: the checks in order; the credentials are parsed only when present. */
    method ValidationErrors() returns (errors: seq<string>)
      requires Valid()
      modifies this
      ensures Valid()
      ensures errors == ValidationErrorList(wixApiKey, wixSiteId, googleSheetId, googleCredentialsRaw,
                                            ParsedCredentials(googleCredentialsRaw, parse))
    {
      errors := [];
      if !Present(wixApiKey) {
        errors := errors + [ApiKeyMissing];
      }
      if !Present(wixSiteId) {
        errors := errors + [SiteIdMissing];
      }
      if !Present(googleSheetId) {
        errors := errors + [SheetIdMissing];
      }
      if !Present(googleCredentialsRaw) {
        errors := errors + [CredentialsMissing];
      } else {
        var creds := GoogleCredentials();
        if creds.None? {
          errors := errors + [CredentialsInvalid];
        }
      }
    }

    /** `ensure_valid`: raises ConfigError, listing every error, iff there is one. */
    method EnsureValid() returns (r: Result<(), string>)
      requires Valid()
      modifies this
      ensures Valid()
      ensures r == EnsureValidOf(ValidationErrorList(wixApiKey, wixSiteId, googleSheetId, googleCredentialsRaw,
                                                     ParsedCredentials(googleCredentialsRaw, parse)))
    {
      var errors := ValidationErrors();
      if errors != [] {
        return Err(Join(errors, "; "));
      }
      return Ok(());
    }
  }
}
