# Google Sheets → Wix event sync, modelled in Dafny

This project models the part of the event sync that makes decisions, without its network traffic. The sync reads event rows from a Google Sheet and creates the matching events, with their images and admission tickets, on a Wix site.

The model follows the package `event_sync` one module per file:

- **Utils** (`utils.py`): header normalisation, alias-based column mapping, multi-format date conversion and Drive file-id extraction.
- **Models** (`models.py`): the `EventRecord` validators.
- **Sheets** (`sheets.py`): the row loop of `fetch_events`.
- **Config** (`config.py`): the ordered validation errors and the memoised credentials parse.
- **Runtime** (`runtime.py`): `SyncRuntime`, a class with two caches, four counters and a memoised client.
- **Images** (`images.py`): the cache-driven download and upload, and the first-fit (scale, quality) search under the Wix size limit.
- **Description** (`orchestrator.py`): the plain-text to HTML description formatter.
- **Orchestrator** (`orchestrator.py`): the identity keys, the payload and ticket rules, and the create-or-skip loop.
- **Partition**: the success / failed / skipped lists, shared by both sync loops.

Four more modules cover the rest:

- **LegacySync**: the older script `sync_events.py`.
- **WixApi**: the Wix client's policy (`wix_client.py`). This covers the retry loop, the credential check, headers, the listing query, the ticket payload and the title search.
- **DevEvents** and **DevTickets**: the filtering, counting and defaulting logic of the developer tools.

Three modules support the rest:

- **Text**: the Python string operations the code relies on (`strip`, `lower`, `split`, `html.escape`, `int`/`float` on decimal text).
- **Constants**: `event_sync/constants.py` transcribed as data.
- **Wrappers**: `Option` and `Result`.

Everything the code receives from the network is a parameter of the model. This covers:

- the sheet values;
- the Drive download;
- the Wix listing, create and upload responses;
- the outcome of each HTTP attempt.

Each loop of the source is a method. It is proved equal to a specification function, and the properties the code promises are proved about those functions as lemmas. `SyncRuntime` is a class whose methods state their whole new state.

The legacy script carries its own copy of `extract_google_drive_file_id` (sync_events.py:212-225). It uses the same patterns in the same order as `event_sync/utils.py:46-54`, so `Utils.ExtractGoogleDriveFileId` stands for both.

## Model

| member | source | states |
|---|---|---|
| Text.LStrip | event_sync/orchestrator.py:68 | `str.lstrip()`: a suffix of the input that starts with no whitespace, after only whitespace was removed |
| Text.RStrip | event_sync/orchestrator.py:95 | `str.rstrip()`: a prefix of the input that ends with no whitespace, before only whitespace was removed |
| Text.Strip | event_sync/utils.py:13 | `str.strip()`: empty exactly for blank input, otherwise starts and ends with no whitespace |
| Text.StripIsSlice | event_sync/utils.py:13 | `str.strip()` returns the slice of the input that starts after its leading whitespace, with only whitespace before and after that slice |
| Text.StripIdempotent | event_sync/models.py:82-83 | stripping twice is stripping once |
| Text.Lower | event_sync/utils.py:13 | `str.lower()` on ASCII letters, character by character |
| Text.Upper | event_sync/models.py:55 | `str.upper()` on ASCII letters, character by character |
| Text.ReplaceChar | event_sync/utils.py:13 | `str.replace` of one character: every occurrence replaced and nothing else changed |
| Text.IndexOf | event_sync/orchestrator.py:206 | the first occurrence of a character, or the length when absent |
| Text.Split | event_sync/orchestrator.py:206-207 | `str.split(sep)`: at least one piece, and no piece holds the separator |
| Text.JoinSplit | event_sync/orchestrator.py:85 | joining the pieces of a split with the separator gives back the text |
| Text.SplitAt | event_sync/orchestrator.py:206-207 | text before the first separator is the first piece |
| Text.SpaceIndex | dev_tickets.py:30 | the end of the leading run of non-whitespace characters |
| Text.WordsAreWords | dev_tickets.py:30-31 | every piece of `str.split()` is a non-empty run of non-whitespace characters |
| Text.EscapeHtml | event_sync/orchestrator.py:111-118 | `html.escape`: the output holds no "<", ">", double or single quote |
| Text.EscapeRoundTrip | event_sync/orchestrator.py:111-118 | unescaping the escaped text gives it back, so escaping loses nothing |
| Text.NatToString | dev_tickets.py:62 | `str(i)`: decimal digits without a leading zero |
| Text.ParseIntOfNatToString | event_sync/sheets.py:83 | `int()` reads back a printed number |
| Text.ParseFloatOfNatToString | event_sync/sheets.py:77 | `float()` reads back a printed whole number |
| Text.StripUnchanged | event_sync/models.py:82-83 | a text that neither starts nor ends with whitespace is its own strip |
| Text.SplitNone | event_sync/orchestrator.py:207 | without the separator, the split is the whole text alone |
| Text.LeadingWord | dev_tickets.py:30 | a text starting with a non-space starts with a whole word |
| Text.NatToStringValue | dev_tickets.py:62 | the printed digits of a number have that number as value |
| Text.ParseUnsignedDecimal | event_sync/sheets.py:77 | `float()` on the unsigned decimal subset: never a negative value |
| Text.ParseUnsignedDigits | event_sync/sheets.py:77 | `float()` of a digit string is its decimal value |
| Utils.NormalizeHeader | event_sync/utils.py:10-13 | the result is the stripped header, character by character lower-cased with every space and hyphen turned into "_" |
| Utils.NormalizeHeaderAlphabet | event_sync/utils.py:10-13 | a normalised header holds no space, hyphen or upper-case ASCII letter and has no leading or trailing whitespace |
| Utils.NormalizeHeaderIdempotent | event_sync/utils.py:10-13 | normalising twice equals normalising once |
| Utils.NormalizedHeaders | event_sync/utils.py:19 | one normalised header per header, in order |
| Utils.FirstIndex | event_sync/utils.py:26 | `list.index`: the position of the first occurrence of the header |
| Utils.AliasMatch | event_sync/utils.py:23-27 | a found alias is a position inside the header row |
| Utils.AliasMatchFirst | event_sync/utils.py:23-27 | alias order beats header order: the earliest alias in the list that appears at all decides, at the first occurrence of its header |
| Utils.AliasMatchNone | event_sync/utils.py:23-27 | no column is found exactly when no alias of the field appears among the normalised headers |
| Utils.ColumnMapOf | event_sync/utils.py:16-29 | every mapped index is below the number of headers |
| Utils.BuildColumnMap | event_sync/utils.py:16-29 | the nested loop builds exactly the map of the specification function, and every index is in range |
| Utils.ColumnMapStep | event_sync/utils.py:22-27 | one more field adds its first alias match, or nothing when none matches |
| Utils.ColumnMapEntry | event_sync/utils.py:19-29 | with distinct field names, a field is mapped exactly when one of its aliases matches, and to that match's index |
| Utils.ColumnMapAbsent | event_sync/utils.py:22 | only fields of the mapping can be keys of the map |
| Utils.MonthToken | event_sync/utils.py:37 | an accepted `%m` token is a month 1 to 12 |
| Utils.DayToken | event_sync/utils.py:37 | an accepted `%d` token is a day 1 to 31 |
| Utils.YearToken | event_sync/utils.py:37 | an accepted `%Y` token is a year 0 to 9999 |
| Utils.ParseDate | event_sync/utils.py:37 | `strptime` with one of the four formats accepts only real calendar dates |
| Utils.ParseFirst | event_sync/utils.py:35-40 | the first format that parses gives a real calendar date |
| Utils.ParseFirstWins | event_sync/utils.py:35-40 | when format k is the first that parses, its date is the result |
| Utils.ParseFirstNone | event_sync/utils.py:35-43 | nothing is parsed exactly when every format fails |
| Utils.ConvertDateToIso | event_sync/utils.py:32-43 | a success is yyyy-mm-dd; a failure carries the "Unable to parse date" message for the input |
| Utils.ConvertDateFirstFormatWins | event_sync/utils.py:35-40 | the formats are tried MM/DD/YYYY, YYYY-MM-DD, MM-DD-YYYY, DD/MM/YYYY and the first that parses gives the ISO date |
| Utils.ConvertDateFails | event_sync/utils.py:41-43 | conversion raises exactly when none of the four formats parses |
| Utils.ConvertDateIdempotent | event_sync/utils.py:35-38 | converting a converted date again returns it unchanged |
| Utils.IsoParsesFirst | event_sync/utils.py:35-38 | an ISO date is read back as the same date by the format list |
| Utils.ParseFormatIso | event_sync/utils.py:37-38 | `%Y-%m-%d` parses what `strftime("%Y-%m-%d")` writes back to the same date |
| Utils.IsoIsNotSlashDate | event_sync/utils.py:35 | an ISO date never matches the first format MM/DD/YYYY |
| Utils.SlashDateMonthFirst | event_sync/utils.py:35-38 | "MM/DD/YYYY" is read month first, so "01/02/2026" is 2 January |
| Utils.SlashDateDayFirstFallback | event_sync/utils.py:35-40 | a day-first slash date with a day above 12 falls through to DD/MM/YYYY and still gives the right date |
| Utils.DayFirstNotMonthFirst | event_sync/utils.py:35 | a day above 12 in the first slot is rejected by MM/DD/YYYY |
| Utils.DayFirstParses | event_sync/utils.py:35 | DD/MM/YYYY reads a day-first date |
| Utils.NoDashFormat | event_sync/utils.py:35 | the two dashed formats reject text without "-" |
| Utils.IdRunLength | event_sync/utils.py:49 | the `[a-zA-Z0-9_-]+` run: all id characters, and stopped at the first other character |
| Utils.SearchFrom | event_sync/utils.py:49-53 | a `re.search` hit for a marker gives a non-empty id over the id alphabet |
| Utils.SearchFindsLeftmost | event_sync/utils.py:51-53 | `re.search` takes the leftmost occurrence of the marker |
| Utils.SearchNone | event_sync/utils.py:51-53 | a marker search fails exactly when the marker is followed by an id character nowhere |
| Utils.WholeId | event_sync/utils.py:49 | the `^...$` pattern gives a non-empty id over the id alphabet |
| Utils.ExtractGoogleDriveFileId | event_sync/utils.py:46-54 | any extracted id is non-empty and drawn from [A-Za-z0-9_-] |
| Utils.BareIdUnchanged | event_sync/utils.py:49-53 | a bare id is returned unchanged |
| Utils.FileLinkId | event_sync/utils.py:49-53 | the id after "/file/d/" in a share link is extracted, up to the first non-id character |
| Models.ValidateDate | event_sync/models.py:31-36 | accepted exactly when a value is given and its stripped text converts; the stored value is that ISO date |
| Models.ValidateDateFixedPoint | event_sync/models.py:31-36 | a stored date validates to itself |
| Models.HourToken | event_sync/models.py:45 | an accepted `%H` is an hour 0 to 23 |
| Models.MinuteToken | event_sync/models.py:45 | an accepted `%M` is a minute 0 to 59 |
| Models.PaddedClockTime | event_sync/models.py:45 | a two-digit "HH:MM" is accepted exactly when the hour is below 24 and the minute below 60, so "25:00" is rejected |
| Models.ValidateTime | event_sync/models.py:38-48 | accepted exactly when a value is given and its stripped text parses as 24-hour HH:MM; the stored value is that stripped text, verbatim |
| Models.ValidateTimeFixedPoint | event_sync/models.py:38-48 | a stored time validates to itself |
| Models.NormalizeRegistration | event_sync/models.py:50-62 | blank or missing gives "RSVP"; otherwise the trimmed, upper-cased value (TICKETS renamed TICKETING) is accepted exactly when it is one of the four types |
| Models.TicketsAlias | event_sync/models.py:55-57 | "tickets" in any case and padding becomes "TICKETING" |
| Models.NormalizeRegistrationFixedPoint | event_sync/models.py:50-62 | a normalised registration type normalises to itself |
| Models.ValidTypeKept | event_sync/models.py:50-62 | each of RSVP, TICKETING, EXTERNAL, NO_REGISTRATION is kept as is |
| Models.EnsureNonNegativePrice | event_sync/models.py:64-67 | `max(0, value)`: never negative, never below the input, and either the input or 0 |
| Models.EnsureCapacityPositive | event_sync/models.py:69-75 | accepted exactly when above zero, and then stored unchanged, so at least 1 |
| Models.EmptyToNone | event_sync/models.py:77-83 | None and whitespace-only become None; anything else is stripped and non-empty |
| Models.EmptyToNoneClean | event_sync/models.py:77-83 | the result is always a clean optional text |
| Models.CleanTextFixedPoint | event_sync/models.py:77-83 | a clean optional text is its own normalisation |
| Models.NewEventRecord | event_sync/models.py:16-83 | a record is built exactly when no field fails its validator (name and location non-empty included), else every failing field is reported |
| Models.NewEventRecordValid | event_sync/models.py:16-83 | every built record satisfies all stored-field constraints |
| Models.NewEventRecordRegistration | event_sync/models.py:50-62 | the stored registration type is the normalised input |
| Models.StoredFieldsPass | event_sync/models.py:16-83 | every stored field passes its validator again |
| Models.RevalidateRecord | event_sync/models.py:16-83 | re-validating a record's own fields rebuilds the same record |
| Sheets.MissingFields | event_sync/sheets.py:43 | a field is reported missing exactly when it is required and has no column |
| Sheets.PadRow | event_sync/sheets.py:54-55 | the row keeps its cells and is extended with "" up to the header width, never shortened |
| Sheets.PadCells | event_sync/sheets.py:54-55 | the in-place padding loop produces the padded row |
| Sheets.GetCol | event_sync/sheets.py:57-61 | the default for an unmapped field, an index past the row or an empty cell; otherwise the stripped cell |
| Sheets.ReadRow | event_sync/sheets.py:51-107 | one pass of the row loop yields exactly the record the row specification gives, or none |
| Sheets.ReadRows | event_sync/sheets.py:49-109 | the row loop appends exactly the records of the specification, in sheet order |
| Sheets.FetchEvents | event_sync/sheets.py:17-113 | the whole fetch returns or raises exactly what the fetch specification says |
| Sheets.ProcessRowsSnoc | event_sync/sheets.py:50-109 | one more row appends its record, if any, after the earlier ones |
| Sheets.ProcessRowsAppend | event_sync/sheets.py:50-109 | records come out in sheet order: the records of two runs of rows are those of each, concatenated |
| Sheets.ProcessRowsLength | event_sync/sheets.py:103-109 | rows that fail validation are dropped, so there are never more records than data rows |
| Sheets.ProcessRowsValid | event_sync/sheets.py:103-109 | every record returned passed `EventRecord` validation |
| Sheets.ProcessRowRecord | event_sync/sheets.py:87-109 | a kept row's record is the validated record of the keyword arguments built from it |
| Sheets.RowRegistration | event_sync/sheets.py:67-73 | the registration argument is the cell (default "RSVP") with "tickets" in any case renamed "TICKETING" |
| Sheets.FetchNoValues | event_sync/sheets.py:34-37 | an empty value list yields no records |
| Sheets.FetchMissingRequired | event_sync/sheets.py:39-45 | with a header row, the fetch fails exactly when one of the required fields has no matching header |
| Sheets.SkippedRows | event_sync/sheets.py:51-65 | empty rows, all-empty rows and rows with a blank event name give no record |
| Sheets.TicketsCellIsTicketing | event_sync/sheets.py:67-73 | a "TICKETS" cell in any letter case gives a "TICKETING" record |
| Sheets.BlankRegistrationIsRsvp | event_sync/sheets.py:67 | a blank or "RSVP" registration cell gives an "RSVP" record |
| Sheets.UnparsableCellsFallBack | event_sync/sheets.py:75-85 | an unparsable price becomes 0.0 and an unparsable capacity 100, without raising |
| Sheets.RowNumbers | event_sync/sheets.py:75-85 | price and capacity are the cell parses with their fallbacks |
| Sheets.BlankEndFallsBackOnStart | event_sync/sheets.py:92-93 | blank end date and end time fall back on the start date and start time |
| Config.ParsedCredentials | event_sync/config.py:56-69 | credentials exist exactly when the raw value is non-empty, parses as JSON and has a client_email key; then they are the parsed document |
| Config.ValidationErrorList | event_sync/config.py:35-49 | at most four errors, always in the order API key, site id, sheet id, credentials |
| Config.ErrorParts | event_sync/config.py:37-48 | a message is in the list exactly when its own check fails; the account id is never checked |
| Config.ReportedIffMissing | event_sync/config.py:35-49 | each of the five messages is reported exactly when its setting is missing, and the invalid-credentials message exactly when credentials are present but unusable |
| Config.OneCredentialsError | event_sync/config.py:43-48 | "missing" and "not valid JSON" are never both reported |
| Config.NoErrorsIff | event_sync/config.py:35-49 | the list is empty exactly when API key, site id, sheet id and usable credentials are all present |
| Config.EnsureValidOf | event_sync/config.py:51-54 | `ensure_valid` raises exactly for a non-empty list, with the errors joined by "; " |
| Config.AppConfig.constructor | event_sync/config.py:20-33 | the five settings as given, sheet range "Sheet1!A1:Z100", timezone "America/Toronto", no cached credentials |
| Config.AppConfig.GoogleCredentials | event_sync/config.py:56-69 | returns the parsed credentials; only a successful parse is cached, and a cached value is kept |
| Config.AppConfig.ValidationErrors | event_sync/config.py:35-49 | the error list for the object's settings, through the memoised credentials |
| Config.AppConfig.EnsureValid | event_sync/config.py:51-54 | raises exactly when the object's error list is non-empty, with that list joined |
| WixApi.OrElse | wix_client.py:34-41 | Python `a or b` on optional strings: a non-empty first value wins, else the second |
| WixApi.ResolveSettings | wix_client.py:28-42 | development mode exactly when asked for (explicitly or by ENV_MODE=development) and DEV_WIX_API_KEY is set; explicit values win; a missing key falls back on the mode's environment variable |
| WixApi.NoDevKeyMeansProduction | wix_client.py:33 | without DEV_WIX_API_KEY the client is always in production mode |
| WixApi.RequestFrom | wix_client.py:73-115 | the retry loop ends after at most three attempts |
| WixApi.RequestOutcome | wix_client.py:73-115 | a success is the last attempt's response; a raise is the last attempt's error; an early raise is not retryable; every attempt before the last was retryable |
| WixApi.Request | wix_client.py:65-118 | the loop over `attempt` computes exactly the recursive retry specification |
| WixApi.RetryStep | wix_client.py:87-115 | a retryable failure before the last attempt adds its backoff and defers to the next attempt |
| WixApi.FirstSuccessReturned | wix_client.py:73-83 | the first successful response, after retryable failures only, is returned after exactly that many attempts |
| WixApi.OtherHttpErrorNotRetried | wix_client.py:85-101 | an HTTP error other than 429 is re-raised at once, with no sleep and one attempt |
| WixApi.SleepsAreBackoff | wix_client.py:87-115 | the only sleeps possible are 1 s then 2 s; the commented 4 s step never occurs |
| WixApi.RateLimitedThrice | wix_client.py:87-101 | three 429s sleep 1 s and 2 s and the third is re-raised |
| WixApi.TimedOutThrice | wix_client.py:103-107 | timeouts retry at once without sleeping and the third is re-raised |
| WixApi.WixClient.constructor | wix_client.py:44-47 | a client holds the resolved key and site (both required), account id, mode and the Wix base URL |
| WixApi.WixClient.Headers | wix_client.py:51-63 | Authorization, wix-site-id and Content-Type always; wix-account-id exactly when an account id is set |
| WixApi.NewClient | wix_client.py:18-47 | raises "WIX_API_KEY and WIX_SITE_ID are required" exactly when the resolved key or site is missing; otherwise a new client with the resolved settings |
| WixApi.ListEventsQuery | wix_client.py:132-145 | paging carries the limit and offset; the status `$eq` filter is present exactly when a status is given; include_drafts has no effect |
| WixApi.TicketPayload | wix_client.py:320-338 | limitPerCheckout 10, the given price and currency, FEE_ADDED_AT_CHECKOUT; `limited` true and `quantity` the capacity exactly when the capacity is truthy |
| WixApi.SearchEventsByTitle | wix_client.py:349-352 | keeps exactly the events whose lower-cased title contains the lower-cased query |
| WixApi.SearchAppend | wix_client.py:352 | the filter keeps listing order |
| WixApi.SearchHead | wix_client.py:352-357 | the first matching event heads the search result |
| WixApi.GetEventByTitle | wix_client.py:354-357 | None exactly when nothing matches; otherwise the first matching event in listing order |
| WixApi.FirstMatchIsHead | wix_client.py:354-357 | the head of the search result is the first matching event |
| Runtime.SyncRuntime.constructor | event_sync/runtime.py:25-38 | no clients, no loaded credentials, both caches empty, all four counters 0 |
| Runtime.SyncRuntime.LoadCredentialsInfo | event_sync/runtime.py:43-49 | succeeds exactly when the configuration has usable credentials, returning them and keeping them; otherwise raises "GOOGLE_CREDENTIALS is missing or invalid"; caches, counters and client untouched |
| Runtime.SyncRuntime.GetWixClient | event_sync/runtime.py:51-58 | an existing client is returned as is; otherwise a new client is built from the configured key, site and account, kept on success, and the constructor's error is raised when key or site is missing; a client is returned exactly when one is kept or the settings resolve a key and a site |
| Runtime.SyncRuntime.GetCachedDriveFile | event_sync/runtime.py:81-82 | the cached download for the id, None for an unknown id |
| Runtime.SyncRuntime.CacheDriveFile | event_sync/runtime.py:84-85 | stores (or overwrites) the download for the id; every other id reads as before |
| Runtime.SyncRuntime.GetCachedWixMedia | event_sync/runtime.py:87-88 | the cached descriptor for the id, None for an unknown id |
| Runtime.SyncRuntime.CacheWixMedia | event_sync/runtime.py:90-91 | stores (or overwrites) the descriptor for the id; every other id reads as before |
| Runtime.SyncRuntime.RecordDriveHit | event_sync/runtime.py:93-94 | increments drive_hits by 1, the other counters unchanged |
| Runtime.SyncRuntime.RecordDriveMiss | event_sync/runtime.py:96-97 | increments drive_misses by 1, the other counters unchanged |
| Runtime.SyncRuntime.RecordWixHit | event_sync/runtime.py:99-100 | increments wix_hits by 1, the other counters unchanged |
| Runtime.SyncRuntime.RecordWixUpload | event_sync/runtime.py:102-103 | increments wix_uploads by 1, the other counters unchanged |
| Runtime.DriveCacheRoundTrip | event_sync/runtime.py:81-91 | a stored download reads back as itself, and the Wix media cache is left unchanged |
| Runtime.ClientMemoised | event_sync/runtime.py:51-58 | once a client is obtained, the next call returns the same instance |
| Images.DownloadFromGoogleDrive | event_sync/images.py:18-45 | a cached file is returned with only drive_hits incremented and no request; otherwise drive_misses is incremented and the fetched payload is cached and returned, or (None, None, None) is returned with nothing cached; nothing else in the runtime changes |
| Images.RFind | event_sync/images.py:91 | `str.rfind`: the last position of the character, -1 when absent |
| Images.Splitext | event_sync/images.py:91 | `os.path.splitext`: root and extension concatenate back to the path; an extension starts with "." and holds no "/" |
| Images.SplitextLastDot | event_sync/images.py:91 | the extension starts at the last dot of the final component, and only when something other than a dot precedes it there |
| Images.LastComponent | event_sync/images.py:91 | the text after the last "/" |
| Images.SplitextNoExtension | event_sync/images.py:91 | a final component with no dot past its leading dots has no extension |
| Images.JpegName | event_sync/images.py:91-92 | the target name always ends in ".jpg" |
| Images.FirstFit | event_sync/images.py:93-121 | the candidate found is a real (scale, quality) pair, its encoding fits the limit, and it is not before the search start |
| Images.FirstFitIsFirst | event_sync/images.py:96-128 | no earlier candidate in scale-major, quality-minor order fits; when none is found, no candidate fits at all |
| Images.SearchFrom | event_sync/images.py:96-121 | the bytes found fit the limit, and are found exactly when a fitting candidate exists |
| Images.SearchCandidates | event_sync/images.py:93-128 | the nested scale and quality loops return exactly the first fitting encoding, or none |
| Images.PrepareImageForWix | event_sync/images.py:48-128 | the method returns exactly the preparation the specification function gives |
| Images.SmallImageUnchanged | event_sync/images.py:55-59 | empty data gives (None, filename, mime type, False); data within the limit is returned unchanged with False |
| Images.ResizedFits | event_sync/images.py:91-121 | a resized result fits the limit, is "image/jpeg" and is named stem (or "event_image") plus ".jpg" |
| Images.PreparedFits | event_sync/images.py:48-128 | any bytes returned fit the limit and are the input itself unless resized |
| Images.UploadImageToWix | event_sync/images.py:131-185 | None for an empty URL or an unrecognised Drive id, with no state change; a cached descriptor is reused with only wix_hits incremented; otherwise a descriptor is returned exactly when the download has bytes, an "image/" mime type, a preparation that fits, a client and a successful upload. On that path the Drive cache and counters change as in the download, and a non-empty new descriptor is cached and counted in wix_uploads. The client is touched only once the download is ready to upload (line 173): then a client is built and kept exactly when one is available, and otherwise the kept client is unchanged. Whether a client is available is never changed |
| Description.MarkerTextSome | event_sync/orchestrator.py:67-72 | a bullet text is found exactly when the stripped line starts with one of the markers |
| Description.MarkerTextFirst | event_sync/orchestrator.py:69-71 | the first marker that matches decides, and the rest of the line after it is stripped |
| Description.PairMarkerText | event_sync/orchestrator.py:64-72 | with two-character markers ending in a space, a bullet is a marker character, a space and the stripped rest |
| Description.BulletMarkerShape | event_sync/orchestrator.py:64 | the five markers are "-", "*", "•", "–", "—", each followed by a space |
| Description.MarkersOfStripped | event_sync/orchestrator.py:64-72 | the bullet text of a left-stripped line: present exactly for a marker character and a space, and then the stripped rest |
| Description.ExtractBulletTextByMarkers | event_sync/orchestrator.py:67-72 | `_extract_bullet_text` left-strips the line and tries the markers in order |
| Description.ExtractBulletTextSome | event_sync/orchestrator.py:67-72 | a line has a bullet text exactly when, after leading whitespace, it starts with one of the markers |
| Description.BulletTextAfterMarker | event_sync/orchestrator.py:69-71 | the bullet text is the stripped rest after the matched marker |
| Description.ReplaceCrLfBlank | event_sync/orchestrator.py:81 | replacing CRLF and CR by LF keeps a text blank exactly when it was |
| Description.NormalizeNewlines | event_sync/orchestrator.py:81 | the normalised text has no carriage return and is blank exactly when the input is |
| Description.GroupFromFlatten | event_sync/orchestrator.py:89-98 | the paragraph loop keeps every non-blank line, right-stripped, in order, and nothing else |
| Description.GroupFromParagraphs | event_sync/orchestrator.py:89-98 | every paragraph collected is non-empty and holds only non-blank lines |
| Description.ParagraphsOfLines | event_sync/orchestrator.py:85-98 | blank lines only separate: the paragraphs hold exactly the non-blank lines in order, none empty |
| Description.CollectParagraphs | event_sync/orchestrator.py:86-98 | the `paragraphs`/`current` loop builds exactly the paragraph grouping of the specification |
| Description.ScanFromSome | event_sync/orchestrator.py:106-111 | the bullet scan succeeds exactly when every remaining line is a bullet |
| Description.ScanFromItems | event_sync/orchestrator.py:106-111 | on success, one escaped bullet text per line, appended in order |
| Description.EscapedLines | event_sync/orchestrator.py:118 | one escaped, stripped entry per paragraph line |
| Description.ListBlock | event_sync/orchestrator.py:113-116 | an all-bullet paragraph becomes `<ul>` with one `<li>` per line holding its escaped bullet text |
| Description.ParagraphBlock | event_sync/orchestrator.py:118-119 | any other paragraph becomes one `<p>` of its escaped, stripped lines joined with `<br/>` |
| Description.BlockKind | event_sync/orchestrator.py:102-119 | a paragraph's block starts with `<ul>` exactly when every line is a bullet, and with `<p>` otherwise |
| Description.RenderParagraph | event_sync/orchestrator.py:102-119 | the loop body computes exactly the block of the paragraph |
| Description.Blocks | event_sync/orchestrator.py:100-119 | one block per paragraph |
| Description.BlocksFirst | event_sync/orchestrator.py:100-119 | blocks come in paragraph order |
| Description.RenderBlocks | event_sync/orchestrator.py:100-119 | the block loop builds exactly the blocks of the specification |
| Description.FormatDescriptionAsHtml | event_sync/orchestrator.py:75-121 | the formatter computes exactly the specified HTML |
| Description.KeptNoneBlank | event_sync/orchestrator.py:82-85 | lines with no non-blank line join into a blank text |
| Description.DescriptionEmptyIffBlank | event_sync/orchestrator.py:78-83 | the HTML is "" exactly for empty or whitespace-only input, and otherwise starts with `<p>` or `<ul>` |
| Description.RenderedStartsWithTag | event_sync/orchestrator.py:85-121 | a non-blank normalised text renders to HTML that starts with `<p>` or `<ul>` |
| Partition.Select | event_sync/orchestrator.py:333-353 | a results list never has more names than there are events |
| Partition.PartitionSizes | event_sync/orchestrator.py:337-353 | every event lands in exactly one of success, failed and skipped |
| Partition.SelectEmptyIff | event_sync/orchestrator.py:390 | a results list is empty exactly when no event got its verdict |
| Partition.SelectMembers | event_sync/orchestrator.py:347-353 | a name is in a list exactly when an event of that name got the list's verdict |
| Partition.SelectSnoc | event_sync/orchestrator.py:347-353 | one more event appends its name to its own list only |
| Partition.SkipsMatchAll | event_sync/orchestrator.py:341-348 | the event-by-event skip rule gives: skipped exactly when the key is known |
| Partition.Record | event_sync/orchestrator.py:347-353 | the append of one verdict's name keeps the lists equal to the partition of the events so far |
| Orchestrator.Head5 | event_sync/orchestrator.py:207 | `[:5]`: the first five characters, or all of a shorter text |
| Orchestrator.SplitSecond | event_sync/orchestrator.py:207 | a start containing "T" splits into at least two pieces, so `[1]` exists |
| Orchestrator.KeyWithTime | event_sync/orchestrator.py:203-208 | a listed start "date T rest" gives the key of the title, the date and the first five characters of rest, joined by bars |
| Orchestrator.KeyWithoutTime | event_sync/orchestrator.py:205-208 | a listed start without "T" gives the key of the title, the whole start and "00:00", joined by bars |
| Orchestrator.KeysByMembers | event_sync/orchestrator.py:201-209 | a key is collected exactly when some listed event yields it |
| Orchestrator.ExistingKeysMembers | event_sync/orchestrator.py:201-209 | a key is known exactly when some listed event with a start yields it; events without a start add nothing |
| Orchestrator.CollectKeys | event_sync/orchestrator.py:199-209 | the loop over the listing collects exactly the specified key set |
| Orchestrator.GetExistingEventKeys | event_sync/orchestrator.py:196-215 | the keys of the listing exactly when a client is kept or can be built and the listing succeeds, and the empty set otherwise |
| Orchestrator.IsoHasNoT | event_sync/orchestrator.py:206 | a converted date has no "T", so splitting a stamp at "T" gives the date back |
| Orchestrator.ClockTimeShape | event_sync/orchestrator.py:207 | a sheet time has no "T" and three to five characters |
| Orchestrator.KeyTimesAgree | event_sync/orchestrator.py:339 | two desired keys for one name and date agree exactly when the times agree |
| Orchestrator.NaiveKey | event_sync/orchestrator.py:203-208 | an event stored with the naive stamp of lines 58-61 lists under the first five characters of "time:00Z" |
| Orchestrator.RecognisedIffPaddedHour | event_sync/orchestrator.py:203-208 | an event stored with the naive stamp of lines 58-61 is recognised by the desired key of line 339 on the next run exactly when its sheet time has five characters (a zero-padded hour) |
| Orchestrator.StoredDatesConvert | event_sync/orchestrator.py:231-232 | a validated record's dates always convert |
| Orchestrator.FetchedDatesConvert | event_sync/orchestrator.py:330-338 | every fetched record's dates convert, so key building cannot fail |
| Orchestrator.ValidRecordsConvert | event_sync/orchestrator.py:338 | valid records all have convertible dates |
| Orchestrator.TeaserMember | event_sync/orchestrator.py:253-255 | `shortDescription` is set exactly for a non-blank teaser, and is the teaser when it has no surrounding whitespace |
| Orchestrator.DetailMember | event_sync/orchestrator.py:257-260 | `detailedDescription` is set exactly for a non-blank description, and then starts with `<p>` or `<ul>` |
| Orchestrator.MainImageMember | event_sync/orchestrator.py:262-274 | `mainImage` is set exactly when the descriptor has an id and a non-zero width and height, and then carries those |
| Orchestrator.PayloadFixedMembers | event_sync/orchestrator.py:234-251 | the payload's title, address, registration type, venue type, TBD flag, timezone and stamped start and end |
| Orchestrator.BuildPayload | event_sync/orchestrator.py:234-274 | the dictionary built step by step is the specified payload |
| Orchestrator.PostEvent | event_sync/orchestrator.py:276-318 | the payload is sent exactly when a client exists; success exactly when a client was available before the call and the create succeeds; a General Admission ticket exactly when ticketing is due |
| Orchestrator.CreateWixEvent | event_sync/orchestrator.py:218-318 | no image work without an image URL; with one, the image is the upload's outcome given the caches and client availability before the call; the payload sent is the specified one with that image; success exactly when a client was available before the call and the create succeeds; ticket as in PostEvent; client availability is unchanged |
| Orchestrator.LookupKey | event_sync/orchestrator.py:338-339 | the key of an event is its name, ISO start date and start time, joined by bars |
| Orchestrator.AttemptCreate | event_sync/orchestrator.py:350-353 | an attempt succeeds exactly when a client was available before it and the create succeeds; client availability is unchanged |
| Orchestrator.CreateOrSkip | event_sync/orchestrator.py:337-355 | one verdict per event, Skip exactly for a known key, and otherwise Success exactly when a client was available before the loop and that event's create succeeded, else Failure; results the partition of the verdicts, one pause per event not skipped |
| Orchestrator.AttemptsMatchSnoc | event_sync/orchestrator.py:350-353 | appending a verdict that matches its create keeps every verdict matching its create |
| Orchestrator.NoFailureIff | event_sync/orchestrator.py:350-353 | no event failed exactly when every event with an unknown key had a client and a successful create |
| Orchestrator.SyncEvents | event_sync/orchestrator.py:321-393 | a failed fetch fails the run; after a fetch the keys are the listing's exactly when a client is available and the listing succeeds, and empty otherwise; true exactly when the fetch succeeded and no event failed, that is, exactly when every event with an unknown key had a client available and a successful create |
| LegacySync.PadRow | sync_events.py:122-124 | the padding loop gives the row extended with empty cells to twelve columns |
| LegacySync.ConvertAllErrPrefix | sync_events.py:121-152 | once one row fails to convert, later rows do not change the error raised |
| LegacySync.FetchEventsFromSheet | sync_events.py:102-152 | the row loop computes exactly the specified fetch: an error for the service or a bad number, [] for no rows, otherwise one event per row |
| LegacySync.ConvertAllOkIff | sync_events.py:121-145 | the conversion succeeds exactly when every row converts, and then gives one event per row in order |
| LegacySync.ConvertPaddedOk | sync_events.py:141-142 | a padded row converts exactly when its price and capacity cells parse or are empty |
| LegacySync.ConvertRowsOkIff | sync_events.py:121-145 | the fetch succeeds exactly when every row's numbers parse, and then gives each row's event in order |
| LegacySync.BadNumberAbortsFetch | sync_events.py:141-152 | one row with an unparsable price or capacity makes the whole fetch fail |
| LegacySync.RowCells | sync_events.py:127-145 | columns are read by position; empty price is 0.0, empty capacity 100, empty type RSVP, and exactly "TICKETS" becomes TICKETING |
| LegacySync.LowerCaseTicketsKept | sync_events.py:128-130 | the legacy comparison is case-sensitive: "tickets" is passed through unchanged |
| LegacySync.GetExistingEventKeys | sync_events.py:187-209 | the keys of title and date, joined by a bar, of every listed event with a start, or the empty set when the listing fails |
| LegacySync.FirstBar | sync_events.py:201-202 | the first bar of a key follows the title when the title has none |
| LegacySync.BarKeyInjective | sync_events.py:409 | keys built as in lines 201-202 and 409 are equal exactly when both parts are, for titles without a bar |
| LegacySync.KeyMatchIff | sync_events.py:197-202 | a listed event matches the sheet key of line 409 exactly when it has a start, the same title, and the same date before "T" |
| LegacySync.CreateWixEvent | sync_events.py:298-372 | the payload has the naive stamps and the fixed timezone; its `mainImage.id` is the whole file descriptor dictionary `upload_image_to_wix` returns (despite its `str` annotation), set exactly when the event has an image URL and the descriptor is non-empty; success exactly when the create succeeds; a ticket exactly when ticketing is due |
| LegacySync.CreatedEventRecognised | sync_events.py:312-318 | an event created from a sheet row is recognised as existing by the keys of lines 197-202 and 409 on the next run |
| LegacySync.AttemptCreate | sync_events.py:418-421 | an attempt succeeds exactly when the create succeeds |
| LegacySync.AttemptsMatchSnoc | sync_events.py:418-421 | appending a verdict that agrees with its create outcome keeps all verdicts in agreement |
| LegacySync.SkipOrCreate | sync_events.py:411-421 | Skip exactly for a known key, otherwise Success exactly when the create succeeds |
| LegacySync.CreateOrSkip | sync_events.py:407-424 | one verdict per event, Skip exactly for a known key, Success exactly when the create succeeded, the results the partition of the verdicts, one pause per event not skipped |
| LegacySync.SyncEvents | sync_events.py:375-448 | a failed fetch gives false with no events; otherwise the events and keys are the specified ones; every non-skip verdict is Success exactly when that event's create succeeded; true exactly when the fetch succeeded and every event with an unknown key was created |
| LegacySync.NoFailureIff | sync_events.py:411-444 | no event failed exactly when every event whose key is not already in Wix had a successful create |
| LegacySync.Failing | sync_events.py:55-73 | at most one failing name per check |
| LegacySync.FailingEmptyIff | sync_events.py:55-73 | nothing fails exactly when every check passes |
| LegacySync.ValidateCredentials | sync_events.py:43-85 | the failing names are the specified ones, and the result is true exactly when none fails |
| LegacySync.ValidIffAllPresent | sync_events.py:47-73 | valid exactly when the four settings are non-empty and the credentials are a JSON object with `client_email` |
| DevEvents.TestEventData | dev_events.py:105-148 | the body of `create_test_event`: its title and venue, a start `days_from_now` days ahead, an end `duration_hours` after the start, Toronto time, and the registration the type maps to |
| DevEvents.InitialTypeIffValid | dev_events.py:110-148 | a `registration` member is sent exactly for RSVP, TICKETS, EXTERNAL and NO_REGISTRATION; TICKETS is sent as TICKETING, the others unchanged, and "TICKETS" itself is never sent |
| DevEvents.AcceptedType | dev_events.py:599-608 | the `create` command accepts exactly the four types after upper-casing, "RSVP" by default |
| DevEvents.AcceptedTypesRegister | dev_events.py:599-610 | every type the command accepts leads to a registration in lines 131-148, and "tickets" to TICKETING |
| DevEvents.SelectForDelete | dev_events.py:245-256 | the filter loop keeps exactly the selection of the specification, in listing order |
| DevEvents.SelectedMembers | dev_events.py:245-256 | an event is selected exactly when it is listed, its title contains the pattern case-insensitively (when a pattern is given) and it is a DRAFT (when drafts only) |
| DevEvents.PatternSelectsSearch | dev_events.py:249 | the pattern filter is the client's title search |
| DevEvents.NoFilterSelectsAll | dev_events.py:245-256 | without pattern and drafts filter every listed event is selected |
| DevEvents.Ids | dev_events.py:278-296 | one delete call per selected event, with its id, in order |
| DevEvents.Deleted | dev_events.py:281-295 | never more deletions than attempts |
| DevEvents.DeleteEach | dev_events.py:278-299 | one call per selected event; deleted counts the calls that returned true, and deleted + failed equals the number selected; one pause each |
| DevEvents.ConfirmAndDelete | dev_events.py:258-299 | no selection or no confirm means no delete call; otherwise every selected event is attempted and deleted + failed equals the selection's size |
| DevEvents.BulkDeleteEvents | dev_events.py:238-301 | selects as specified; without confirm makes no call; with confirm calls delete once per selected event; deleted + failed equals the calls, and deleted counts exactly the calls that returned true |
| DevEvents.DeleteAllDrafts | dev_events.py:304-306 | selects exactly the listed DRAFT events; deletes nothing without confirm; with confirm calls delete once per selected event, and deleted counts exactly the calls that returned true |
| DevEvents.DeleteTestEvents | dev_events.py:309-311 | selects exactly the events the title search for "test" returns; deletes nothing without confirm; with confirm calls delete once per selected event, and deleted counts exactly the calls that returned true |
| DevEvents.SelectedAfterMembers | dev_events.py:337-349 | an event is selected exactly when it is listed and its start is present, parses and is on or after the cutoff |
| DevEvents.SelectAfter | dev_events.py:337-349 | the date filter loop keeps exactly that selection, in listing order |
| DevEvents.DeleteEventsAfterDate | dev_events.py:314-396 | returns before listing exactly when the cutoff is not YYYY-MM-DD; otherwise selects by date, calls nothing without confirm; deleted + failed equals the calls, and deleted counts exactly the calls that returned true |
| DevEvents.CreatedAmong | dev_events.py:428-429 | never more created events than attempts |
| DevEvents.SampleRequest | dev_events.py:413-426 | the i-th sample uses template i mod 5, title "-test- <name> #<i+1>", i + 1 days ahead, two hours long |
| DevEvents.CreateSampleEvents | dev_events.py:399-436 | exactly `count` requests (none for a negative count), the i-th being the i-th sample at the clock reading of its own call; the created events are the successful ones, so at most `count` |
| DevEvents.SamplesCycle | dev_events.py:413 | samples five apart share location and registration |
| DevEvents.SamplesAreTestEvents | dev_events.py:403-436 | every sample's title is matched by the "test" search that `delete_test_events` (lines 309-311) uses |
| DevTickets.WordsOfWord | dev_tickets.py:30 | `str.split()` of a single word is that word |
| DevTickets.WordsCons | dev_tickets.py:30-31 | `str.split()` of a word, a space and a rest is the word followed by the rest's words |
| DevTickets.SplitNameTwo | dev_tickets.py:29-33 | a name with a space and at least two words gives its first and second words |
| DevTickets.SplitTwoWords | dev_tickets.py:29-33 | "first rest" gives first name `first` and last name the rest's first word |
| DevTickets.TrailingSpaceRaises | dev_tickets.py:31 | "Ann " holds a space but one word, so `split()[1]` raises |
| DevTickets.SplitNameTotal | dev_tickets.py:29-33 | the evidently intended split: agrees with the code wherever the code does not raise; a name of fewer than two words gets the default last name, and a name with no words is kept whole as the first name |
| DevTickets.TrailingSpaceTotal | dev_tickets.py:31 | the intended split of "Ann " is ("Ann", "User") |
| DevTickets.CreateTestRsvp | dev_tickets.py:18-49 | the request carries the event, the email, the guest count and the contact named by the corrected split, which is the as-written split wherever that does not raise; a name without a space keeps the whole name and last name "User"; the result is the call's outcome |
| DevTickets.BulkNameSplits | dev_tickets.py:62 | "Test User i" never raises and splits into "Test" and "User" |
| DevTickets.BulkRsvp | dev_tickets.py:61-65 | the i-th bulk request: contact "Test" "User" at "testuser<i>@example.com", one guest |
| DevTickets.Kept | dev_tickets.py:65-67 | only non-empty responses are kept, never more than the calls |
| DevTickets.CreateBulkRsvps | dev_tickets.py:52-75 | requests 1 to `count` in order (none for a negative count); results are the non-empty responses, so at most `count` |
| DevTickets.BuyerInfoOf | dev_tickets.py:150-156 | `buyerInfo` is named by the corrected split with default last name "Buyer": the as-written split wherever that does not raise, a last name that is "Buyer" or a word of the name, and a name without a space kept whole |
| DevTickets.TwoWordBuyer | dev_tickets.py:150-156 | a two-word buyer name gives those two words |
| DevTickets.DefaultBuyer | dev_tickets.py:150-156 | the default buyer "Test Buyer" gives "Test" and "Buyer" |
| DevTickets.AddTicketCommand | dev_tickets.py:244-254 | through `add_ticket_to_event` (lines 113-128): an error without an event id or for a non-numeric price; otherwise the ticket uses the given or default name "General Admission", price 25.0 and currency "CAD", and no quantity, so it is unlimited |

## Left out

- Network and client I/O (`requests`, the Sheets and Drive service builders in event_sync/runtime.py:60-76, event_sync/sheets.py:22-32 and event_sync/images.py:26-36): every response is a parameter of the model.
- The two-phase upload PUT in wix_client.py:269-298: the upload outcome is a parameter.
- Timezone conversion in `_wix_timestamp` (event_sync/orchestrator.py:34-56) needs the IANA timezone database. The payload stamp is a function parameter, and only the naive fallback (event_sync/orchestrator.py:58-61) is modelled, as `NaiveTimestamp`.
- Pillow decoding and JPEG compression (event_sync/images.py:70-110): an abstract encoder from (scale, quality) to bytes, plus a flag for whether the image opens at all.
- Images.PrepareImageForWix: the encoder is total. Errors raised outside the `try` blocks propagate in the source and are not modelled: the RGB conversion, the resizing and the fallback save without `optimize` (event_sync/images.py:87-109). A missing Pillow (event_sync/images.py:68-74) returns what an unreadable image returns, so the `decodable` flag stands for both.
- JSON parsing of the credentials (event_sync/config.py:63, sync_events.py:63): an abstract parse result, which is either a decode error or an object.
- Config.ParsedCredentials, Config.AppConfig.GoogleCredentials and LegacySync.ValidateCredentials: credentials that decode to a JSON value other than an object are not modelled. For a string or a list, the `client_email` test at event_sync/config.py:64 and sync_events.py:64 is a substring or element test, and such a value would be returned as the credentials. For a number, a boolean or null, the test raises TypeError, which nothing catches.
- Floating point: prices are exact reals. The model does not capture `str(price)`, "%.2f" formatting or the MB arithmetic in log lines.
- Text.ParseFloat and Text.ParseInt: `float()` and `int()` are modelled on surrounding whitespace, an optional `+` or `-` sign and ASCII digits (with one decimal point for `float()`). Exponents, `inf` and `nan`, underscores between digits (`int("1_000")`, `float("1_0.5")`) and non-ASCII decimal digits are rejected by the model, though Python accepts them.
- Sheets.RowNumbers, LegacySync.PriceOf and LegacySync.CapacityOf: they inherit that limit, so a price or capacity cell written with an exponent, underscores or non-ASCII digits falls back to the default (or is an error in the legacy script), where Python would read a number.
- Utils.ParseDate: `strptime`'s numeric fields are read as ASCII digits only, whereas Python's `\d` also matches other Unicode decimal digits.
- Logging, `print` and `time.sleep`: sleeps are recorded as values (the retry backoff) or counted (one pause per attempted create).
- `iter_events` is called at event_sync/orchestrator.py:202 but is not defined in wix_client.py. The Wix event listing is a sequence given to the model.
- tests/test_wix_client.py expects `list_events` to truncate its result. The code does not (wix_client.py:152), so the model follows the code.
- `strftime`: only the `%Y-%m-%d` output of a valid calendar date is modelled, with a year padded to four digits.
- DevEvents.TestEventData: start and end are seconds from the clock reading. The model does not capture the `strftime('%Y-%m-%dT%H:%M:%S') + 'Z'` text of dev_events.py:119-120, which labels local time as UTC.
- Case mapping: `lower()` and `upper()` cover ASCII letters only, with no Unicode case mapping.
- `validate_credentials` in event_sync/orchestrator.py:124-163: its logic is that of `sync_events.py:43-85`, which `LegacySync.ValidateCredentials` models.
- `test_wix_connection`, `list_wix_events` and the `main` dispatch of `sync_events.py`: they only print.
- `event_sync/cli.py` and `event_sync/logging_utils.py`: argument parsing and logging set-up.
- The commands of the developer tools that only forward one call and print (list, get, update, publish, search, check-tickets, list-rsvps, list-orders), and the scripts `test_capacity_fix.py`, `test_ticket_automation.py` and `inspect_tickets.py`, which drive the live API.
- Legacy `download_from_google_drive` and `upload_image_to_wix` (sync_events.py:228-295): what the upload returns is given to the model as an outcome. It is either None or the file descriptor dictionary that `WixClient.upload_image` returns (wix_client.py:293-295), not a media id string.
- Orchestrator.CreateWixEvent: a ticket failure is not modelled separately. As in the source it does not change the result, so the model returns the ticket definition it would request.

## Findings

| source | as written | input that shows it | evidently intended | confidence | as-written member | corrected member |
|---|---|---|---|---|---|---|
| dev_tickets.py:31 (and 153) | the last name is `name.split()[1]` whenever the name contains a space | "Ann " has a space but only one word, so `split()[1]` raises IndexError | a name with fewer than two words falls back on the default last name ("User", or "Buyer" at line 153) | not executed | DevTickets.TrailingSpaceRaises | DevTickets.SplitNameTotal |
