/**
  The `switch(error)` of `startReading` (CIEIDSdk.swift lines 320-353): the
  status word the card returns for the authentication command decides the
  error code given to the caller and the new `attemptsLeft`. In ISO/IEC
  7816-4 (section 5.1.3, status bytes) `63Cx` reports a retry counter of x and
  `6983` an authentication method that is blocked; the source takes 0, not
  `9000`, as success.
 */
module StatusWords {
  import opened Wrappers

  /** The 16-bit status word. */
  type StatusWord = w: int | 0 <= w < 0x1_0000

  const Ok: StatusWord := 0
  const RetryCounterZero: StatusWord := 0x63C0
  const RetryCounterOne: StatusWord := 0x63C1
  const RetryCounterTwo: StatusWord := 0x63C2
  const AuthenticationBlocked: StatusWord := 0x6983

  const PinLockedCode: string := "ON_CARD_PIN_LOCKED"
  const PinErrorCode: string := "ON_PIN_ERROR"

  /** The branch of the switch a word takes. */
  datatype Verdict = Success | PinLocked | WrongPin(attemptsLeft: nat) | CardError(word: StatusWord)

  function Classify(sw: StatusWord): (v: Verdict)
    ensures v.CardError? ==> v.word == sw
    ensures v.WrongPin? ==> 1 <= v.attemptsLeft <= 2 && sw == RetryCounterZero + v.attemptsLeft
  {
    if sw == Ok then Success
    else if sw == RetryCounterZero || sw == AuthenticationBlocked then PinLocked
    else if sw == RetryCounterOne then WrongPin(1)
    else if sw == RetryCounterTwo then WrongPin(2)
    else CardError(sw)
  }

  /** The first argument of the completion call; `decodeError` stands for
      `ErrorHelper.decodeError`, which is not part of this model. */
  function ErrorCode(v: Verdict, decodeError: StatusWord -> string): (code: Option<string>)
    ensures code.None? <==> v.Success?
    ensures v.CardError? ==> code == Some(decodeError(v.word))
  {
    match v
    case Success => None
    case PinLocked => Some(PinLockedCode)
    case WrongPin(_) => Some(PinErrorCode)
    case CardError(w) => Some(decodeError(w))
  }

  /** `attemptsLeft` after the switch: overwritten with the card's own count
      on a PIN error or lock, otherwise left as it was. */
  function AttemptsAfter(v: Verdict, attempts: int): (r: int)
    ensures r != attempts ==> v.PinLocked? || v.WrongPin?
    ensures v.WrongPin? ==> r == v.attemptsLeft
  {
    match v
    case PinLocked => 0
    case WrongPin(n) => n
    case _ => attempts
  }

  /** The table, both ways: which words give which code and counter. */
  lemma ClassifyTable(sw: StatusWord, attempts: int, decodeError: StatusWord -> string)
    ensures ErrorCode(Classify(sw), decodeError) == None <==> sw == 0
    ensures sw == 0 ==> AttemptsAfter(Classify(sw), attempts) == attempts
    ensures ErrorCode(Classify(sw), decodeError) == Some(PinLockedCode) && AttemptsAfter(Classify(sw), attempts) == 0
      <== sw == 0x63C0 || sw == 0x6983
    ensures Classify(sw) == PinLocked <==> sw == 0x63C0 || sw == 0x6983
    ensures Classify(sw) == WrongPin(1) <==> sw == 0x63C1
    ensures Classify(sw) == WrongPin(2) <==> sw == 0x63C2
    ensures sw == 0x63C1 ==> ErrorCode(Classify(sw), decodeError) == Some(PinErrorCode) && AttemptsAfter(Classify(sw), attempts) == 1
    ensures sw == 0x63C2 ==> ErrorCode(Classify(sw), decodeError) == Some(PinErrorCode) && AttemptsAfter(Classify(sw), attempts) == 2
    ensures sw !in {0, 0x63C0, 0x63C1, 0x63C2, 0x6983} ==>
      ErrorCode(Classify(sw), decodeError) == Some(decodeError(sw)) && AttemptsAfter(Classify(sw), attempts) == attempts
  {
  }

  /** Against ISO/IEC 7816-4's retry counter `63Cx`: for x up to 2 the counter
      becomes x whatever it was; x from 3 to 15 is not singled out and leaves
      the counter unchanged. */
  lemma RetryCounterWords(x: nat, attempts: int)
    requires x <= 15
    ensures x <= 2 ==> AttemptsAfter(Classify(0x63C0 + x), attempts) == x
    ensures x >= 3 ==> Classify(0x63C0 + x) == CardError(0x63C0 + x)
    ensures x >= 3 ==> AttemptsAfter(Classify(0x63C0 + x), attempts) == attempts
  {
  }

  /** The counter stays within 0..3 whatever the card says. */
  lemma AttemptsStayInRange(sw: StatusWord, attempts: int)
    requires 0 <= attempts <= 3
    ensures 0 <= AttemptsAfter(Classify(sw), attempts) <= 3
  {
  }

  /** The counter is overwritten, not decremented: `63C2` after `63C1` raises
      it from 1 back to 2. */
  lemma AttemptsCanRise()
    ensures AttemptsAfter(Classify(0x63C2), AttemptsAfter(Classify(0x63C1), 3)) == 2
    ensures AttemptsAfter(Classify(0x63C1), 3) == 1
  {
  }
}
