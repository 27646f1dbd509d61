/**
  The `CIEIDSdk` object (CIEIDSdk.swift lines 66-356) as a class whose methods
  are the events the NFC framework delivers. The framework itself is not part
  of this model: whether reading is available, the kinds of the detected tags,
  the result of connecting, and the status word and certificate of the card's
  answer are the methods' parameters. The completion handler's calls, the
  session's `invalidate` calls and the authentication requests sent over the
  card channel are kept in ghost logs.
 */
module Sdk {
  import opened Wrappers
  import opened FiscalCode
  import opened Identity
  import opened Alerts
  import opened StatusWords

  /** `Constants.BASE_URL_IDP` (line 34). */
  const BaseUrlIdp: string := "https://collaudo.idserver.servizicie.interno.gov.it/idp/"

  const NotCieCode: string := "ON_TAG_DISCOVERED_NOT_CIE"
  const TagLostCode: string := "ON_TAG_LOST"

  /** The cases of `NFCTag`. */
  datatype TagKind = FeliCa | Iso7816 | Iso15693 | MiFare

  /** `ErrorHelper`, which is not part of this model: `decodeError`,
      `nativeError`, and the values of the constants
      `TAG_ERROR_NFC_NOT_SUPPORTED` and `TAG_ERROR_SESSION_INVALIDATED`. */
  datatype ErrorHelper = ErrorHelper(
    decodeError: StatusWord -> string,
    nativeError: string -> string,
    nfcNotSupported: string,
    sessionInvalidated: string)

  /** One call of a completion handler: the handler is numbered by the `start`
      call that stored it. */
  datatype Completion = Completion(handler: nat, errorCode: Option<string>, payload: Option<CieData>)

  /** One `CIETagReader.post` call: endpoint, PIN and request data. */
  datatype AuthRequest = AuthRequest(url: string, pin: string, data: string)

  /** The message the session is invalidated with after the card's answer:
      none on success, the prompt for a lock or a PIN error, and ErrorHelper's
      text for any other word (lines 328-350). */
  function InvalidationMessage(v: Verdict, messages: map<AlertMessageKey, string>, helper: ErrorHelper): (r: Option<string>)
    requires Complete(messages)
    ensures r.None? <==> v.Success?
  {
    match v
    case Success => None
    case PinLocked => Some(messages[CardLocked])
    case WrongPin(n) => Some(if n == 1 then messages[WrongPin1AttemptLeft] else messages[WrongPin2AttemptLeft])
    case CardError(w) => Some(helper.nativeError(helper.decodeError(w)))
  }

  /** The invalidation messages of the switch, word by word (lines 328-350). */
  lemma InvalidationTable(sw: StatusWord, messages: map<AlertMessageKey, string>, helper: ErrorHelper)
    requires Complete(messages)
    ensures sw == 0 ==> InvalidationMessage(Classify(sw), messages, helper) == None
    ensures sw == 0x63C0 || sw == 0x6983 ==> InvalidationMessage(Classify(sw), messages, helper) == Some(messages[CardLocked])
    ensures sw == 0x63C1 ==> InvalidationMessage(Classify(sw), messages, helper) == Some(messages[WrongPin1AttemptLeft])
    ensures sw == 0x63C2 ==> InvalidationMessage(Classify(sw), messages, helper) == Some(messages[WrongPin2AttemptLeft])
    ensures sw !in {0, 0x63C0, 0x63C1, 0x63C2, 0x6983} ==>
      InvalidationMessage(Classify(sw), messages, helper) == Some(helper.nativeError(helper.decodeError(sw)))
  {
  }

  class CieIdSdk {
    var attemptsLeft: int
    var alertMessages: map<AlertMessageKey, string>
    var url: Option<string>
    var pin: Option<string>
    /** `readerSession != nil` */
    var hasSession: bool
    /** the `alertMessage` of the reader session */
    var sessionAlert: string
    /** `cieTag != nil` */
    var hasCieTag: bool
    /** `cieTagReader != nil` */
    var hasTagReader: bool

    /** How many handlers `start` has stored; the current one is the last. */
    ghost var handlers: nat
    ghost var completions: seq<Completion>
    ghost var invalidations: seq<Option<string>>
    ghost var requests: seq<AuthRequest>

    /** What the events keep: a full prompt table (so no force unwrap of a
        message traps), a counter within 0..3, a handler for every session. */
    ghost predicate Valid()
      reads this
    {
      Complete(alertMessages) &&
      0 <= attemptsLeft <= 3 &&
      (hasSession ==> handlers > 0) &&
      (hasTagReader ==> hasCieTag) &&
      (forall c :: c in completions ==> 1 <= c.handler <= handlers)
    }

    /** `init` (lines 81-91) */
    constructor ()
      ensures Valid()
      ensures attemptsLeft == 3
      ensures Complete(alertMessages) && forall key :: alertMessages[key] == DefaultMessage(key)
      ensures url == None && pin == None
      ensures !hasSession && !hasCieTag && !hasTagReader
      ensures handlers == 0 && completions == [] && invalidations == [] && requests == []
    {
      attemptsLeft := 3;
      hasCieTag := false;
      hasTagReader := false;
      url := None;
      pin := None;
      hasSession := false;
      sessionAlert := "";
      alertMessages := map[];
      handlers := 0;
      completions := [];
      invalidations := [];
      requests := [];
      new;
      InitMessages();
    }

    /** `initMessages` (lines 93-105): the default text under every key. */
    method InitMessages()
      modifies this`alertMessages
      ensures forall key :: key in alertMessages && alertMessages[key] == DefaultMessage(key)
    {
      // Swift dictionaries are values: filling a copy and storing it is the same
      // as the nine in-place subscript assignments.
      var messages := alertMessages;
      messages := messages[ReadingInstructions := DefaultMessage(ReadingInstructions)];
      messages := messages[MoreTags := DefaultMessage(MoreTags)];
      messages := messages[ReadingInProgress := DefaultMessage(ReadingInProgress)];
      messages := messages[ReadingSuccess := DefaultMessage(ReadingSuccess)];
      messages := messages[InvalidCard := DefaultMessage(InvalidCard)];
      messages := messages[TagLost := DefaultMessage(TagLost)];
      messages := messages[CardLocked := DefaultMessage(CardLocked)];
      messages := messages[WrongPin1AttemptLeft := DefaultMessage(WrongPin1AttemptLeft)];
      messages := messages[WrongPin2AttemptLeft := DefaultMessage(WrongPin2AttemptLeft)];
      alertMessages := messages;
      forall key: AlertMessageKey
        ensures key in alertMessages && alertMessages[key] == DefaultMessage(key)
      {
        match key
        case ReadingInstructions =>
        case MoreTags =>
        case ReadingInProgress =>
        case ReadingSuccess =>
        case InvalidCard =>
        case TagLost =>
        case CardLocked =>
        case WrongPin1AttemptLeft =>
        case WrongPin2AttemptLeft =>
      }
    }

    /** `setAlertMessage` (lines 107-113) */
    method SetAlertMessage(key: string, value: string)
      requires Valid()
      modifies this`alertMessages
      ensures Valid()
      ensures alertMessages == WithAlertMessage(old(alertMessages), key, value)
      ensures FromRawValue(key).None? ==> alertMessages == old(alertMessages)
    {
      var maybeKey := FromRawValue(key);
      if maybeKey.Some? {
        alertMessages := alertMessages[maybeKey.value := value];
      }
    }

    /** `start` (lines 115-131): store the handler, then either report that NFC
        is missing or open a session showing the reading instructions. */
    method Start(nfcAvailable: bool, helper: ErrorHelper)
      requires Valid()
      modifies this`handlers, this`completions, this`hasSession, this`sessionAlert
      ensures Valid()
      ensures handlers == old(handlers) + 1
      ensures !nfcAvailable ==>
        completions == old(completions) + [Completion(handlers, Some(helper.nfcNotSupported), None)] &&
        hasSession == old(hasSession) && sessionAlert == old(sessionAlert)
      ensures nfcAvailable ==>
        completions == old(completions) && hasSession && sessionAlert == alertMessages[ReadingInstructions]
    {
      handlers := handlers + 1;
      if !nfcAvailable {
        completions := completions + [Completion(handlers, Some(helper.nfcNotSupported), None)];
        return;
      }
      hasSession := true;
      sessionAlert := alertMessages[ReadingInstructions];
    }

    /** `post` (lines 133-139): keep the URL and the PIN, then `start`. */
    method Post(url: string, pin: string, nfcAvailable: bool, helper: ErrorHelper)
      requires Valid()
      modifies this`url, this`pin, this`handlers, this`completions, this`hasSession, this`sessionAlert
      ensures Valid()
      ensures this.url == Some(url) && this.pin == Some(pin)
      ensures handlers == old(handlers) + 1
      ensures !nfcAvailable ==>
        completions == old(completions) + [Completion(handlers, Some(helper.nfcNotSupported), None)] &&
        hasSession == old(hasSession) && sessionAlert == old(sessionAlert)
      ensures nfcAvailable ==>
        completions == old(completions) && hasSession && sessionAlert == alertMessages[ReadingInstructions]
    {
      this.pin := Some(pin);
      this.url := Some(url);
      Start(nfcAvailable, helper);
    }

    /** `tagReaderSession(_:didInvalidateWithError:)` (lines 150-160): with a
        session, invalidate it with ErrorHelper's text for the NFC error code
        and report the invalidation, even after an earlier final report. */
    method Invalidated(nfcErrorCode: StatusWord, helper: ErrorHelper)
      requires Valid()
      modifies this`invalidations, this`completions
      ensures Valid()
      ensures hasSession ==>
        invalidations == old(invalidations) + [Some(helper.nativeError(helper.decodeError(nfcErrorCode)))] &&
        completions == old(completions) + [Completion(handlers, Some(helper.sessionInvalidated), None)]
      ensures !hasSession ==> invalidations == old(invalidations) && completions == old(completions)
    {
      if hasSession {
        var errorMessage := helper.nativeError(helper.decodeError(nfcErrorCode));
        invalidations := invalidations + [Some(errorMessage)];
        completions := completions + [Completion(handlers, Some(helper.sessionInvalidated), None)];
      }
    }

    /** `tagReaderSession(_:didDetect:)` (lines 162-179): several tags only
        change the prompt; a tag that is not ISO 7816 ends the session with
        `ON_TAG_DISCOVERED_NOT_CIE`; an ISO 7816 tag is kept and connected to. */
    method DidDetect(tags: seq<TagKind>)
      requires Valid() && hasSession
      requires |tags| > 0
      modifies this`sessionAlert, this`hasCieTag, this`completions, this`invalidations
      ensures Valid()
      ensures |tags| > 1 ==>
        sessionAlert == alertMessages[MoreTags] && hasCieTag == old(hasCieTag) &&
        completions == old(completions) && invalidations == old(invalidations)
      ensures |tags| == 1 && tags[0] != Iso7816 ==>
        sessionAlert == old(sessionAlert) && hasCieTag == old(hasCieTag) &&
        invalidations == old(invalidations) + [Some(alertMessages[InvalidCard])] &&
        completions == old(completions) + [Completion(handlers, Some(NotCieCode), None)]
      ensures |tags| == 1 && tags[0] == Iso7816 ==>
        sessionAlert == old(sessionAlert) && hasCieTag &&
        completions == old(completions) && invalidations == old(invalidations)
    {
      if |tags| > 1 {
        sessionAlert := alertMessages[MoreTags];
        return;
      }
      match tags[0]
      case Iso7816 =>
        hasCieTag := true;
      case _ =>
        invalidations := invalidations + [Some(alertMessages[InvalidCard])];
        completions := completions + [Completion(handlers, Some(NotCieCode), None)];
    }

    /** The `connect(to:)` callback (lines 181-193): a failed connection ends
        the session with `ON_TAG_LOST`; otherwise the prompt changes, a tag
        reader is made for the kept tag, and `startReading` sends the request.
        `self.cieTag!` traps when no tag is kept. */
    method ConnectResult(ok: bool)
      requires Valid() && hasSession
      requires ok ==> hasCieTag && pin.Some?
      modifies this`sessionAlert, this`hasTagReader, this`completions, this`invalidations, this`requests
      ensures Valid()
      ensures !ok ==>
        invalidations == old(invalidations) + [Some(alertMessages[TagLost])] &&
        completions == old(completions) + [Completion(handlers, Some(TagLostCode), None)] &&
        sessionAlert == old(sessionAlert) && hasTagReader == old(hasTagReader) && requests == old(requests)
      ensures ok ==>
        sessionAlert == alertMessages[ReadingInProgress] && hasTagReader &&
        requests == old(requests) + [AuthRequest(BaseUrlIdp, pin.value, "")] &&
        completions == old(completions) && invalidations == old(invalidations)
    {
      if !ok {
        invalidations := invalidations + [Some(alertMessages[TagLost])];
        completions := completions + [Completion(handlers, Some(TagLostCode), None)];
        return;
      }
      sessionAlert := alertMessages[ReadingInProgress];
      hasTagReader := true;
      StartReading();
    }

    /** `startReading` up to the request (lines 302-314): with a tag reader,
        one authentication request to `BASE_URL_IDP` with the PIN and empty
        data; `cieTagReader?.post` does nothing without one. `self.pin!` is
        evaluated, and traps when unset, only when there is a reader. */
    method StartReading()
      requires Valid()
      requires hasTagReader ==> pin.Some?
      modifies this`requests
      ensures Valid()
      ensures hasTagReader ==> requests == old(requests) + [AuthRequest(BaseUrlIdp, pin.value, "")]
      ensures !hasTagReader ==> requests == old(requests)
    {
      var params := "";
      if hasTagReader {
        requests := requests + [AuthRequest(BaseUrlIdp, pin.value, params)];
      }
    }

    /** The `post` callback of `startReading` (lines 314-353): the card's status
        word, through the table of `Classify`, gives the counter, the error
        code and the invalidation message; on success the payload is the record
        decoded from the certificate, which may be `nil`. `data!` traps when the
        successful answer carries no data, and so does a fiscal code the decoder
        traps on. */
    method AuthResponse(sw: StatusWord, data: Option<Certificate>, calendar: Calendar, helper: ErrorHelper)
      requires Valid() && hasSession
      requires sw == 0 ==> data.Some? && CertificateToCieData(data.value, calendar).Ok?
      modifies this`attemptsLeft, this`sessionAlert, this`completions, this`invalidations
      ensures Valid()
      ensures attemptsLeft == AttemptsAfter(Classify(sw), old(attemptsLeft))
      ensures completions == old(completions) +
        [Completion(handlers, ErrorCode(Classify(sw), helper.decodeError),
                    if sw == 0 then CertificateToCieData(data.value, calendar).value else None)]
      ensures invalidations == old(invalidations) + [InvalidationMessage(Classify(sw), alertMessages, helper)]
      ensures sessionAlert == if sw == 0 then alertMessages[ReadingSuccess] else old(sessionAlert)
    {
      if sw == 0 {
        sessionAlert := alertMessages[ReadingSuccess];
        var payload := CertificateToCieData(data.value, calendar).value;
        completions := completions + [Completion(handlers, None, payload)];
        invalidations := invalidations + [None];
      } else if sw == 0x63C0 || sw == 0x6983 {
        attemptsLeft := 0;
        invalidations := invalidations + [Some(alertMessages[CardLocked])];
        completions := completions + [Completion(handlers, Some(PinLockedCode), None)];
      } else if sw == 0x63C1 {
        attemptsLeft := 1;
        completions := completions + [Completion(handlers, Some(PinErrorCode), None)];
        invalidations := invalidations + [Some(alertMessages[WrongPin1AttemptLeft])];
      } else if sw == 0x63C2 {
        attemptsLeft := 2;
        completions := completions + [Completion(handlers, Some(PinErrorCode), None)];
        invalidations := invalidations + [Some(alertMessages[WrongPin2AttemptLeft])];
      } else {
        completions := completions + [Completion(handlers, Some(helper.decodeError(sw)), None)];
        invalidations := invalidations + [Some(helper.nativeError(helper.decodeError(sw)))];
      }
    }
  }

  // ---------------------------------------------------------------------------
  // Clients: what a caller can conclude from the contracts above alone.

  /** A wrong PIN with one attempt left: one `ON_PIN_ERROR` report, counter 1. */
  method WrongPinScenario(calendar: Calendar, helper: ErrorHelper) {
    var sdk := new CieIdSdk();
    assert sdk.attemptsLeft == 3;
    sdk.Post("https://example.org/login", "12345678", true, helper);
    sdk.DidDetect([Iso7816]);
    sdk.ConnectResult(true);
    assert sdk.requests == [AuthRequest(BaseUrlIdp, "12345678", "")];
    sdk.AuthResponse(0x63C1, None, calendar, helper);
    assert sdk.attemptsLeft == 1;
    assert sdk.completions == [Completion(1, Some("ON_PIN_ERROR"), None)];
  }

  /** A success after a wrong PIN leaves the counter where the wrong PIN put
      it: the source does not reset it to 3. */
  method RetryAfterWrongPinScenario(calendar: Calendar, helper: ErrorHelper) {
    var sdk := new CieIdSdk();
    sdk.Post("https://example.org/login", "12345678", true, helper);
    sdk.DidDetect([Iso7816]);
    sdk.ConnectResult(true);
    sdk.AuthResponse(0x63C1, None, calendar, helper);
    sdk.AuthResponse(0, Some(Unparseable), calendar, helper);
    assert sdk.attemptsLeft == 1;
    assert sdk.completions == [Completion(1, Some("ON_PIN_ERROR"), None), Completion(1, None, None)];
  }

  /** A blocked PIN (`6983`): one `ON_CARD_PIN_LOCKED` report, counter 0. */
  method PinBlockedScenario(calendar: Calendar, helper: ErrorHelper) {
    var sdk := new CieIdSdk();
    sdk.Post("https://example.org/login", "12345678", true, helper);
    sdk.DidDetect([Iso7816]);
    sdk.ConnectResult(true);
    sdk.AuthResponse(0x6983, None, calendar, helper);
    assert sdk.attemptsLeft == 0;
    assert sdk.completions == [Completion(1, Some("ON_CARD_PIN_LOCKED"), None)];
    assert sdk.invalidations == [Some(DefaultMessage(CardLocked))];
  }

  /** Two tags at once: no report, the session stays, only the prompt changes. */
  method TwoTagsScenario(helper: ErrorHelper) {
    var sdk := new CieIdSdk();
    sdk.Post("https://example.org/login", "12345678", true, helper);
    sdk.DidDetect([Iso7816, MiFare]);
    assert sdk.completions == [];
    assert sdk.hasSession && !sdk.hasCieTag;
    assert sdk.sessionAlert == DefaultMessage(MoreTags);
  }

  /** Without NFC, `TAG_ERROR_NFC_NOT_SUPPORTED` and no session. */
  method NoNfcScenario(helper: ErrorHelper) {
    var sdk := new CieIdSdk();
    sdk.Post("https://example.org/login", "12345678", false, helper);
    assert !sdk.hasSession;
    assert sdk.completions == [Completion(1, Some(helper.nfcNotSupported), None)];
  }

  /** The session is never released, so the invalidation that follows a
      rejected card reaches the same handler a second time. */
  method SecondReportScenario(helper: ErrorHelper) {
    var sdk := new CieIdSdk();
    sdk.Post("https://example.org/login", "12345678", true, helper);
    sdk.DidDetect([FeliCa]);
    sdk.Invalidated(200, helper);
    assert sdk.completions == [
      Completion(1, Some("ON_TAG_DISCOVERED_NOT_CIE"), None),
      Completion(1, Some(helper.sessionInvalidated), None)
    ];
  }

  /** A successful read: the one report carries the record decoded from the
      card's certificate, and the counter is left as it was. */
  method SuccessScenario(certificate: Certificate, calendar: Calendar, record: CieData, helper: ErrorHelper)
    requires CertificateToCieData(certificate, calendar) == Ok(Some(record))
  {
    var sdk := new CieIdSdk();
    sdk.Post("https://example.org/login", "12345678", true, helper);
    sdk.DidDetect([Iso7816]);
    sdk.ConnectResult(true);
    sdk.AuthResponse(0, Some(certificate), calendar, helper);
    assert sdk.completions == [Completion(1, None, Some(record))];
    assert sdk.attemptsLeft == 3;
  }

  /** The card whose common name is `RSSMRA85M01H501Z/...`, read in 2026: the
      fiscal code is the first segment, and the components given to the
      calendar carry month 13 for the letter M. */
  method SampleSuccessScenario(format: DateParts -> Option<string>, helper: ErrorHelper) {
    var subject := Subject(["MARIO"], ["ROSSI"], ["RSSMRA85M01H501Z" + "/" + "1234567890"]);
    var pid := PidData("MARIO", "ROSSI", "RSSMRA85M01H501Z", format(DateParts(1985, 13, 1)).GetOr(""));
    SampleCertificate(format);
    SuccessScenario(Parsed(subject), Calendar(2026, format), CieData(SecondFactorUrl, pid), helper);
  }


}
