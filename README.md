# CIE ID SDK for iOS — a Dafny model of `CIEIDSdk`

This project models the core of the iOS SDK class `CIEIDSdk`. The class
authenticates a holder of the Italian electronic identity card (CIE) over NFC
and reports the outcome through one completion handler. The model covers three
parts of it:

- **The birth-date decoder** (`extractDateOfBirth`, `getFullYear`,
  `monthCodeToNumber`) and the subject-field extraction of
  `x509CertificateToJSON`. These are pure functions in `fiscal_code.dfy` and
  `identity.dfy`. The decoder stops at the `(year, month, day)` components it
  hands to `DateComponents`.
- **The status-word switch** of `startReading`, in `status_words.dfy`. It
  decides the error code and the new `attemptsLeft` from the card's ISO/IEC
  7816-4 status word (section 5.1.3 of ISO/IEC 7816-4:2005: `63Cx` carries the
  retry counter x, `6983` means the authentication method is blocked).
- **The SDK object** as the class `Sdk.CieIdSdk` in `sdk.dfy`. It has one
  method per event: `Start`/`Post`, `DidDetect`, `ConnectResult`,
  `AuthResponse`, `Invalidated`, plus `SetAlertMessage`. Its fields are
  `attemptsLeft`, the prompt table `alertMessages`, and flags for the reader
  session, the ISO 7816 tag and the tag reader. Ghost logs record every
  completion-handler call, every `invalidate` call and every authentication
  request sent to the card.

`alerts.dfy` holds `AlertMessageKey`, its raw values and the default
prompts. `query_parameters.dfy` holds the first-match lookup of
`QueryParameters`. `wrappers.dfy` holds `Option`.

What the model takes as inputs:

- The wall clock is the parameter `currentYear`. It is the `.year` component
  of `Calendar.current`, whatever calendar that is.
- `Calendar.current.date(from:)` followed by `DateFormatter` is a function
  parameter `format: DateParts -> Option<string>`. That Foundation code is not
  part of this model, so nothing is claimed about which components it accepts.
- `ErrorHelper.decodeError` and `ErrorHelper.nativeError` are function
  parameters, and the values of `ErrorHelper.TAG_ERROR_NFC_NOT_SUPPORTED` and
  `ErrorHelper.TAG_ERROR_SESSION_INVALIDATED` are string parameters (all four
  are fields of the `ErrorHelper` datatype).
- CoreNFC becomes method parameters: whether reading is available, the kinds
  of the detected tags, whether connecting succeeded, and the status word and
  parsed certificate of the card's answer.
- X.509 parsing is an input: `Certificate` is either `Unparseable` or the
  subject's given-name, surname and common-name values.

Where the source would crash, the pure functions return
`Trapped(IndexPastEnd | YearNotNumeric | DayNotNumeric)`. The class methods
instead require that no trap happens. Traps include a string index past the
end (lines 217-225), a force-unwrapped `Int(...)` (lines 218 and 228),
`tags[0]` on an empty list (line 163), `self.cieTag!` and `self.pin!`
(lines 192 and 314), and `data!` (line 327).

Client methods at the end of `sdk.dfy` replay these scenarios from
the contracts alone. They have no postcondition of their own, only assertions:

- a wrong PIN with one attempt left,
- a success after a wrong PIN, which keeps the counter at 1,
- a blocked PIN,
- two tags at once,
- no NFC,
- a rejected card followed by an invalidation,
- a successful read of any certificate that decodes to a record, and of
  `RSSMRA85M01H501Z` in particular.

Where one might expect otherwise, the model follows the code:

- Success is the word `0` (line 322), not `9000`.
- `split(separator: "/")` drops empty segments. So the fiscal code is the
  first non-empty segment, and a leading `/` is skipped. It is not "the text
  before the first `/`".
- A fiscal code of 5 to 10 characters, or one with a non-numeric year or day
  field, crashes.
- Day values 32 to 40 become -8 to 0, and month letters M, N and O become
  13 to 15. All of them are handed on to the calendar. There is no decode
  failure of their own.
- `attemptsLeft` is overwritten, not decremented: `63C2` after `63C1` raises
  it from 1 back to 2 (`StatusWords.AttemptsCanRise`).
- The reader session is never released (the resets at lines 175, 186 and 317
  are commented out). So an invalidation after a final report calls the same
  handler a second time (`Sdk.SecondReportScenario`). A successful read whose
  certificate does not parse reports `(nil, nil)`. There is no
  "exactly once" guarantee, and none is claimed.
- A second `start` replaces the handler and the session. It is not rejected.
- An unknown status word is reported as `decodeError(sw)`, whatever that
  text is.

## Model

| member | source | states |
|---|---|---|
| `FiscalCode.ParseInt` | ciesdk/iociesdkios/CIEIDSdk.swift:218 | `Int(_:)` both ways: a result needs an optional sign followed by ASCII digits within the 64-bit range, every such string parses to its decimal value, negated after `-`, and a digit string outside the 64-bit range gives `nil`; a negative result needs a leading `-`; the magnitude is below 10 to the power of the text's length |
| `FiscalCode.ParseTwoChars` | ciesdk/iociesdkios/CIEIDSdk.swift:217-228 | on a two-character field: two digits give 10·a+b, `+d`/`-d` give ±d, anything else is `nil` (both ways); every result is in -9..99 |
| `FiscalCode.GetFullYear` | ciesdk/iociesdkios/CIEIDSdk.swift:247-257 | the full year is congruent to the two-digit year modulo 100; for 0..99 it lies in (currentYear-100, currentYear] |
| `FiscalCode.GetFullYearUnique` | ciesdk/iociesdkios/CIEIDSdk.swift:247-257 | the window is exact: any year congruent to `y` in (currentYear-100, currentYear] is the one `getFullYear` returns |
| `FiscalCode.IndexOf` | ciesdk/iociesdkios/CIEIDSdk.swift:261 | `firstIndex(of:)`: `nil` exactly when the character is absent; otherwise the position of its first occurrence |
| `FiscalCode.MonthCodeToNumber` | ciesdk/iociesdkios/CIEIDSdk.swift:259-265 | the result is in 1..15; the table letter at position result-1 is the code; a character outside the table gives 1 |
| `FiscalCode.MonthCodeOfLetter` | ciesdk/iociesdkios/CIEIDSdk.swift:260-262 | each of the 15 letters `A`..`O` decodes to its own 1-based position, so M, N and O give 13, 14 and 15 |
| `FiscalCode.AdjustDay` | ciesdk/iociesdkios/CIEIDSdk.swift:227-230 | the day is left alone exactly when it is at most 31, and every larger value loses exactly 40; the result is at most 31 exactly when the field is at most 71 |
| `FiscalCode.DayRule` | ciesdk/iociesdkios/CIEIDSdk.swift:227-230 | days up to 31 are unchanged and every day above 31 loses exactly 40; so 41..71 map to 1..31, 32..40 to -8..0, and 72..99 to 32..59 |
| `FiscalCode.ExtractDateOfBirth` | ciesdk/iociesdkios/CIEIDSdk.swift:207-236 | `nil` exactly when the code has fewer than 5 characters; a trap exactly when it has 5..10 characters or a non-numeric year or day field; otherwise the year is `getFullYear` of `Int` of characters 6-7 (signs included), the month comes from character 8 and the day from characters 9-10 after the day rule |
| `FiscalCode.ExtractTraps` | ciesdk/iociesdkios/CIEIDSdk.swift:209-229 | which trap comes first: index past the end below 8 characters, then a non-numeric year, then index past the end below 11, then a non-numeric day |
| `FiscalCode.DecodeWellFormed` | ciesdk/iociesdkios/CIEIDSdk.swift:216-236 | with digits at 6-7 and 9-10, the year is the one of the century window with the last two digits at 6-7, the month is the letter at 8, and the day is characters 9-10 after the day rule |
| `Identity.Split` | ciesdk/iociesdkios/CIEIDSdk.swift:279 | `split(separator:)` gives only non-empty segments and none contains the separator |
| `Identity.SplitConcat` | ciesdk/iociesdkios/CIEIDSdk.swift:279 | gluing the segments back together gives the input with every separator removed |
| `Identity.SplitEmptyIff` | ciesdk/iociesdkios/CIEIDSdk.swift:279 | there is no segment exactly when the string has only separators (the empty string included) |
| `Identity.SplitWithoutSeparator` | ciesdk/iociesdkios/CIEIDSdk.swift:279 | a non-empty string without a separator is its own single segment |
| `Identity.FirstSegmentShape` | ciesdk/iociesdkios/CIEIDSdk.swift:279 | the first segment is a maximal run: only separators come before it, and a separator or the end comes after it |
| `Identity.FirstOrEmpty` | ciesdk/iociesdkios/CIEIDSdk.swift:275-276 | `?.first ?? ""`: the first value, or "" when the attribute is absent |
| `Identity.TaxId` | ciesdk/iociesdkios/CIEIDSdk.swift:277-279 | the tax id, when present, is non-empty and free of `/` |
| `Identity.TaxIdOfSuffixedName` | ciesdk/iociesdkios/CIEIDSdk.swift:279-280 | a common name `code/suffix`, where `code` is non-empty and has no `/`, yields `code` |
| `Identity.BirthDateText` | ciesdk/iociesdkios/CIEIDSdk.swift:238-244 | with the `?? ""` of line 281: a code under 5 characters gives ""; it traps exactly when the decoder traps; decoded components give the formatter's text, or "" when it gives `nil`, and a non-empty text always comes from the formatter |
| `Identity.PidFromSubject` | ciesdk/iociesdkios/CIEIDSdk.swift:274-282 | name and surname are the first given-name and surname values or ""; the fiscal code is the tax id or "", never containing `/`; the birth date is the tax id's birth-date text, or "" without a tax id; it traps exactly when the tax id's decoding traps, which needs at least 5 characters |
| `Identity.MissingFieldsDefault` | ciesdk/iociesdkios/CIEIDSdk.swift:275-282 | a missing given name or surname becomes ""; a missing or all-`/` common name leaves both the fiscal code and the birth date "" |
| `Identity.FiscalCodeFromCommonName` | ciesdk/iociesdkios/CIEIDSdk.swift:277-280 | the fiscal code is "" exactly when the common name has only `/`; otherwise it is the first maximal run after leading `/`; a common name without `/` is taken whole |
| `Identity.CertificateToCieData` | ciesdk/iociesdkios/CIEIDSdk.swift:269-299 | an unparseable certificate gives `nil`; a parsed one traps exactly when its `PidData` does, and otherwise gives the record with the fixed second-factor URL and the subject's `PidData` |
| `Identity.SampleFiscalCode` | ciesdk/iociesdkios/CIEIDSdk.swift:216-236 | read in 2026, `RSSMRA85M01H501Z` gives year 1985, month 13 and day 1 |
| `Identity.SampleCertificate` | ciesdk/iociesdkios/CIEIDSdk.swift:269-291 | a common name `RSSMRA85M01H501Z/1234567890` gives that fiscal code, the subject's names, and the formatter's text for 1985-13-01 |
| `Alerts.RawValue` | ciesdk/iociesdkios/CIEIDSdk.swift:53-63 | a raw value is the case name: non-empty, starting with a lower-case letter |
| `Alerts.FromRawValue` | ciesdk/iociesdkios/CIEIDSdk.swift:109 | `AlertMessageKey(rawValue:)` returns the key whose raw value is the string, and `nil` exactly when no key has it |
| `Alerts.RawValueRoundTrip` | ciesdk/iociesdkios/CIEIDSdk.swift:53-63 | every key's raw value reads back as that key |
| `Alerts.FromRawValueExact` | ciesdk/iociesdkios/CIEIDSdk.swift:109 | `AlertMessageKey(rawValue:)` gives a key exactly when that key's raw value is the string |
| `Alerts.DefaultMessage` | ciesdk/iociesdkios/CIEIDSdk.swift:95-104 | every key has a non-empty default prompt |
| `Alerts.DefaultMessagesDistinct` | ciesdk/iociesdkios/CIEIDSdk.swift:95-104 | no two keys share a default prompt |
| `Alerts.WithAlertMessage` | ciesdk/iociesdkios/CIEIDSdk.swift:107-113 | a valid raw value sets that entry to the new text; every other entry is unchanged; no key is added for an invalid one |
| `StatusWords.Classify` | ciesdk/iociesdkios/CIEIDSdk.swift:320-353 | an unrecognised word is carried as it is; a PIN error is `63C0 + n` with n in 1..2 |
| `StatusWords.ErrorCode` | ciesdk/iociesdkios/CIEIDSdk.swift:320-353 | there is no error code exactly on success; an unrecognised word reports `decodeError(sw)` |
| `StatusWords.ClassifyTable` | ciesdk/iociesdkios/CIEIDSdk.swift:320-353 | the whole table, both ways: 0 is the only word without a code, and it leaves the counter; `63C0`/`6983` lock (counter 0, `ON_CARD_PIN_LOCKED`); `63C1`/`63C2` give `ON_PIN_ERROR` with counter 1/2; every other word gives `decodeError(sw)` and leaves the counter |
| `StatusWords.AttemptsAfter` | ciesdk/iociesdkios/CIEIDSdk.swift:331-343 | only a lock or a PIN error changes the counter, and a PIN error sets it to the card's own count |
| `StatusWords.RetryCounterWords` | ciesdk/iociesdkios/CIEIDSdk.swift:330-346 | against ISO/IEC 7816-4 `63Cx`: for x ≤ 2 the counter becomes x whatever it was; x = 3..15 is not handled and leaves it unchanged |
| `StatusWords.AttemptsStayInRange` | ciesdk/iociesdkios/CIEIDSdk.swift:331-343 | the counter stays within 0..3 |
| `StatusWords.AttemptsCanRise` | ciesdk/iociesdkios/CIEIDSdk.swift:336-346 | the counter is overwritten, not decremented: `63C1` then `63C2` leaves 2 |
| `Sdk.InvalidationMessage` | ciesdk/iociesdkios/CIEIDSdk.swift:328-350 | only success invalidates without a message |
| `Sdk.InvalidationTable` | ciesdk/iociesdkios/CIEIDSdk.swift:328-350 | word by word: 0 gives none; `63C0`/`6983` give the `cardLocked` prompt; `63C1` gives `wrongPin1AttemptLeft` and `63C2` `wrongPin2AttemptLeft`; any other word gives `nativeError(decodeError(sw))` |
| `Sdk.CieIdSdk.constructor` | ciesdk/iociesdkios/CIEIDSdk.swift:81-91 | `attemptsLeft` is 3; all nine keys hold their default text; there is no session, tag, reader or handler; the logs are empty |
| `Sdk.CieIdSdk.InitMessages` | ciesdk/iociesdkios/CIEIDSdk.swift:93-105 | every key is present with its default text |
| `Sdk.CieIdSdk.SetAlertMessage` | ciesdk/iociesdkios/CIEIDSdk.swift:107-113 | the table becomes `WithAlertMessage` of the old one; an unknown key leaves it unchanged; nothing else changes |
| `Sdk.CieIdSdk.Start` | ciesdk/iociesdkios/CIEIDSdk.swift:115-131 | stores a new handler; without NFC reports ErrorHelper's `TAG_ERROR_NFC_NOT_SUPPORTED` to it and creates no session; with NFC opens a session showing the reading instructions and reports nothing |
| `Sdk.CieIdSdk.Post` | ciesdk/iociesdkios/CIEIDSdk.swift:133-139 | keeps the URL and PIN, then behaves as `Start` |
| `Sdk.CieIdSdk.Invalidated` | ciesdk/iociesdkios/CIEIDSdk.swift:150-160 | with a session: one invalidation carrying ErrorHelper's text and one report of ErrorHelper's `TAG_ERROR_SESSION_INVALIDATED`, even after an earlier final report; without a session: nothing |
| `Sdk.CieIdSdk.DidDetect` | ciesdk/iociesdkios/CIEIDSdk.swift:162-179 | several tags only change the prompt to the `moreTags` text; a non-ISO 7816 tag invalidates with the `invalidCard` text and reports `ON_TAG_DISCOVERED_NOT_CIE`; an ISO 7816 tag is kept and nothing is reported |
| `Sdk.CieIdSdk.ConnectResult` | ciesdk/iociesdkios/CIEIDSdk.swift:181-193 | a failed connection invalidates with the `tagLost` text and reports `ON_TAG_LOST`; a successful one shows the in-progress prompt, makes a tag reader and, through `startReading`, sends one request to `BASE_URL_IDP` with the PIN and empty data |
| `Sdk.CieIdSdk.StartReading` | ciesdk/iociesdkios/CIEIDSdk.swift:302-314 | with a tag reader, one request to `BASE_URL_IDP` with the PIN and empty data; without one, no request |
| `Sdk.CieIdSdk.AuthResponse` | ciesdk/iociesdkios/CIEIDSdk.swift:314-353 | the counter, the reported code and the invalidation message follow the `Classify` table; on success the payload is the decoded certificate record (possibly `nil`) and the prompt shows reading success |
| `QueryParameters.FirstMatch` | ciesdk/iociesdkios/CIEIDSdk.swift:21 | the index found names the item, and no earlier item has that name; `nil` when no item has it |
| `QueryParameters.Lookup` | ciesdk/iociesdkios/CIEIDSdk.swift:20-22 | a value found is carried by an item of that name; a name no item has gives `nil` |
| `QueryParameters.LookupFindsFirst` | ciesdk/iociesdkios/CIEIDSdk.swift:20-22 | the subscript yields `v` exactly when some item is `(name, v)` and no earlier item has that name; a first match without a value gives `nil` |
| `QueryParameters.LookupIgnoresLater` | ciesdk/iociesdkios/CIEIDSdk.swift:20-22 | items after a first match never change the answer |

## Left out

- CoreNFC: creating, beginning and invalidating `NFCTagReaderSession`, `connect(to:)`, showing alerts, and dispatching delegate calls. Their outcomes are method parameters, and the ghost logs record the calls.
- `hasNFCFeature` and `tagReaderSessionDidBecomeActive`: the first only returns CoreNFC's availability flag, which `Start` takes as a parameter; the second only logs.
- `CIETagReader.post`, the APDU transport. `CIETagReader` is not part of this model. A request is logged as sent, and its answer arrives through `AuthResponse`.
- `ErrorHelper.decodeError`, `ErrorHelper.nativeError` and the constants `TAG_ERROR_NFC_NOT_SUPPORTED` and `TAG_ERROR_SESSION_INVALIDATED`. ErrorHelper is not part of this model, so their values are unknown and are fields of the `ErrorHelper` parameter.
- `error as! NFCReaderError` (line 154), a CoreNFC cast. The NFC error code comes in as a 16-bit value, which stands for `UInt16(...)`.
- X.509 DER parsing, `JSONEncoder` and `String(data:encoding:)`. The certificate subject is an input, and the payload is the `CieData` value instead of its JSON text.
- `cfDataToBase64`: CFData and Foundation's base64 encoder.
- `URLComponents` query parsing. `QueryParameters` starts from the list of query items.
- `Calendar.current.date(from:)` and `DateFormatter`. They are one opaque `format` parameter, so the model does not say whether month 13-15 or a day ≤ 0 gives `nil`.
- Swift `String` works on grapheme clusters and compares by canonical equivalence. The model indexes and compares `seq<char>` code point by code point. That is the same for the ASCII text of a fiscal code. It differs for arbitrary certificate text: to `split(separator: "/")` a `/` followed by a combining mark is not a separator, and `==` in `first(where:)` and in `AlertMessageKey(rawValue:)` treats canonically equivalent strings as equal.
- `attemptsLeft` is a public field that callers may assign. The model's invariant `0 ≤ attemptsLeft ≤ 3` covers only the SDK's own updates.
- The relative order of an invalidation and a completion within one event. They are kept in two separate logs.
- Logging (`Log.debug`, `print`).
