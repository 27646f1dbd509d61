/**
  `AlertMessageKey` (CIEIDSdk.swift lines 53-63) with its string raw values,
  and the default prompt texts `initMessages` installs (lines 93-105).
 */
module Alerts {
  import opened Wrappers

  datatype AlertMessageKey =
    | ReadingInstructions
    | MoreTags
    | ReadingInProgress
    | ReadingSuccess
    | InvalidCard
    | TagLost
    | CardLocked
    | WrongPin1AttemptLeft
    | WrongPin2AttemptLeft

  /** The Swift raw value: the case name. */
  function RawValue(key: AlertMessageKey): (r: string)
    ensures r != [] && 'a' <= r[0] <= 'z'
  {
    match key
    case ReadingInstructions => "readingInstructions"
    case MoreTags => "moreTags"
    case ReadingInProgress => "readingInProgress"
    case ReadingSuccess => "readingSuccess"
    case InvalidCard => "invalidCard"
    case TagLost => "tagLost"
    case CardLocked => "cardLocked"
    case WrongPin1AttemptLeft => "wrongPin1AttemptLeft"
    case WrongPin2AttemptLeft => "wrongPin2AttemptLeft"
  }

  /** `AlertMessageKey(rawValue:)`: the key whose raw value is `s`, if any. */
  function FromRawValue(s: string): (r: Option<AlertMessageKey>)
    ensures r.Some? ==> RawValue(r.value) == s
    ensures r.None? ==> forall key :: RawValue(key) != s
  {
    if s == "readingInstructions" then Some(ReadingInstructions)
    else if s == "moreTags" then Some(MoreTags)
    else if s == "readingInProgress" then Some(ReadingInProgress)
    else if s == "readingSuccess" then Some(ReadingSuccess)
    else if s == "invalidCard" then Some(InvalidCard)
    else if s == "tagLost" then Some(TagLost)
    else if s == "cardLocked" then Some(CardLocked)
    else if s == "wrongPin1AttemptLeft" then Some(WrongPin1AttemptLeft)
    else if s == "wrongPin2AttemptLeft" then Some(WrongPin2AttemptLeft)
    else None
  }

  /** Every key's raw value reads back as that key. */
  lemma RawValueRoundTrip(key: AlertMessageKey)
    ensures FromRawValue(RawValue(key)) == Some(key)
  {
  }

  /** `AlertMessageKey(rawValue:)` finds a key exactly when that key's raw
      value is the string. */
  lemma FromRawValueExact(s: string)
    ensures forall key :: RawValue(key) == s <==> FromRawValue(s) == Some(key)
  {
    forall key
      ensures RawValue(key) == s ==> FromRawValue(s) == Some(key)
    {
      RawValueRoundTrip(key);
    }
  }

  /** A prompt table with an entry for every key. */
  ghost predicate Complete(messages: map<AlertMessageKey, string>) {
    forall key: AlertMessageKey :: key in messages
  }

  const ReadingInstructionsText: string := "Tieni la tua carta d’identità elettronica sul retro dell’iPhone, nella parte in alto."
  const MoreTagsText: string := "Sono stati individuate più carte NFC. Per favore avvicina una carta alla volta."
  const ReadingInProgressText: string := "Lettura in corso, tieni ferma la carta ancora per qualche secondo..."
  const ReadingSuccessText: string := "Lettura avvenuta con successo.\nPuoi rimuovere la carta mentre completiamo la verifica dei dati."
  const InvalidCardText: string := "La carta utilizzata non sembra essere una Carta di Identità Elettronica (CIE)."
  const TagLostText: string := "Hai rimosso la carta troppo presto."
  const CardLockedText: string := "Carta CIE bloccata"
  const WrongPin1AttemptLeftText: string := "PIN errato, hai ancora 1 tentativo"
  const WrongPin2AttemptLeftText: string := "PIN errato, hai ancora 2 tentativi"

  /** The text `initMessages` stores under each key. */
  function DefaultMessage(key: AlertMessageKey): (r: string)
    ensures r != []
  {
    match key
    case ReadingInstructions => ReadingInstructionsText
    case MoreTags => MoreTagsText
    case ReadingInProgress => ReadingInProgressText
    case ReadingSuccess => ReadingSuccessText
    case InvalidCard => InvalidCardText
    case TagLost => TagLostText
    case CardLocked => CardLockedText
    case WrongPin1AttemptLeft => WrongPin1AttemptLeftText
    case WrongPin2AttemptLeft => WrongPin2AttemptLeftText
  }

  /** No two keys share a default prompt. */
  lemma DefaultMessagesDistinct(a: AlertMessageKey, b: AlertMessageKey)
    ensures DefaultMessage(a) == DefaultMessage(b) ==> a == b
  {
  }

  /** `setAlertMessage` on the table: a raw value naming a key replaces that
      entry alone; any other string leaves the table as it is. */
  function WithAlertMessage(messages: map<AlertMessageKey, string>, key: string, value: string): (m: map<AlertMessageKey, string>)
    ensures forall k :: k in m <==> k in messages || RawValue(k) == key
    ensures forall k :: k in messages && RawValue(k) != key ==> m[k] == messages[k]
    ensures forall k :: RawValue(k) == key ==> k in m && m[k] == value
  {
    FromRawValueExact(key);
    match FromRawValue(key)
    case Some(k) => messages[k := value]
    case None => messages
  }
}
