/**
  The identity record built by `x509CertificateToJSON` (CIEIDSdk.swift lines
  269-299) from the certificate subject: given name, surname, and the fiscal
  code taken from the common name, with the birth date decoded from it.
  Parsing the DER certificate and encoding JSON are foreign code; the subject
  values come in as data and the record stays a value.
 */
module Identity {
  import opened Wrappers
  import opened FiscalCode

  /** `PidData` (lines 46-51); every field defaults to "". */
  datatype PidData = PidData(name: string, surname: string, fiscalCode: string, birthDate: string)

  /** `CieData` (lines 41-44). */
  datatype CieData = CieData(url: string, pidData: PidData)


  /** The URL written into every `CieData` (line 285). */
  const SecondFactorUrl: string := "https://collaudo.idserver.servizicie.interno.gov.it/idp/Authn/X509MobileTLS13Second?"

  /** The values the certificate subject holds for the three OIDs the source
      asks for; an empty sequence stands for an absent attribute. */
  datatype Subject = Subject(givenNames: seq<string>, surnames: seq<string>, commonNames: seq<string>)

  /** What `X509Certificate(data:)` makes of the response bytes. */
  datatype Certificate = Unparseable | Parsed(subject: Subject)

  /** The clock and `Calendar.current.date(from:)` + `DateFormatter`, which are
      not part of this model: `format` says whether the components make a date
      and, if so, what its "yyyy-MM-dd" text is. */
  datatype Calendar = Calendar(currentYear: nat, format: DateParts -> Option<string>)

  // ---------------------------------------------------------------------------
  // `split(separator:)` with its default of omitting empty subsequences

  /** Length of the longest prefix of `s` free of `sep`. */
  function SegmentEnd(s: string, sep: char): (n: nat)
    ensures n <= |s|
    ensures forall i :: 0 <= i < n ==> s[i] != sep
    ensures n < |s| ==> s[n] == sep
  {
    if s == [] || s[0] == sep then 0 else 1 + SegmentEnd(s[1..], sep)
  }

  function Split(s: string, sep: char): (parts: seq<string>)
    ensures forall i :: 0 <= i < |parts| ==> parts[i] != [] && sep !in parts[i]
    decreases |s|
  {
    if s == [] then []
    else if s[0] == sep then Split(s[1..], sep)
    else
      var n := SegmentEnd(s, sep);
      [s[..n]] + Split(s[n..], sep)
  }

  function Concat(parts: seq<string>): string {
    if parts == [] then [] else parts[0] + Concat(parts[1..])
  }

  function RemoveChar(s: string, c: char): (r: string)
    ensures c !in r
  {
    if s == [] then [] else (if s[0] == c then [] else [s[0]]) + RemoveChar(s[1..], c)
  }

  lemma {:induction false} RemoveCharAppend(a: string, b: string, c: char)
    ensures RemoveChar(a + b, c) == RemoveChar(a, c) + RemoveChar(b, c)
    decreases |a|
  {
    if a != [] {
      assert (a + b)[1..] == a[1..] + b;
      RemoveCharAppend(a[1..], b, c);
    } else {
      assert a + b == b;
    }
  }

  lemma {:induction false} RemoveCharAbsent(s: string, c: char)
    requires c !in s
    ensures RemoveChar(s, c) == s
    decreases |s|
  {
    if s != [] {
      RemoveCharAbsent(s[1..], c);
    }
  }

  /** Split loses nothing but separators: gluing the segments together gives
      the input with every separator removed. */
  lemma {:induction false} SplitConcat(s: string, sep: char)
    ensures Concat(Split(s, sep)) == RemoveChar(s, sep)
    decreases |s|
  {
    if s == [] {
    } else if s[0] == sep {
      SplitConcat(s[1..], sep);
    } else {
      var n := SegmentEnd(s, sep);
      var parts := Split(s, sep);
      assert parts[1..] == Split(s[n..], sep);
      SplitConcat(s[n..], sep);
      assert s == s[..n] + s[n..];
      RemoveCharAppend(s[..n], s[n..], sep);
      RemoveCharAbsent(s[..n], sep);
    }
  }

  /** No segment at all exactly when the string is made of separators only
      (the empty string included). */
  lemma {:induction false} SplitEmptyIff(s: string, sep: char)
    ensures Split(s, sep) == [] <==> forall i :: 0 <= i < |s| ==> s[i] == sep
    decreases |s|
  {
    if s != [] && s[0] == sep {
      SplitEmptyIff(s[1..], sep);
      assert forall i :: 1 <= i < |s| ==> s[i] == s[1..][i - 1];
    }
  }

  /** A non-empty string without a separator is its own single segment. */
  lemma SplitWithoutSeparator(s: string, sep: char)
    requires s != [] && sep !in s
    ensures Split(s, sep) == [s]
  {
    var n := SegmentEnd(s, sep);
    assert n == |s|;
    assert s[n..] == [];
    assert s[..n] == s;
  }

  /** The first segment is the first maximal run of non-separators: only
      separators come before it, and a separator or the end comes after it. */
  lemma {:induction false} FirstSegmentShape(s: string, sep: char)
    requires Split(s, sep) != []
    ensures exists i :: FirstRunAt(s, sep, i, Split(s, sep)[0])
    decreases |s|
  {
    var first := Split(s, sep)[0];
    if s[0] == sep {
      FirstSegmentShape(s[1..], sep);
      var i: nat :| FirstRunAt(s[1..], sep, i, first);
      assert s[i + 1..i + 1 + |first|] == s[1..][i..i + |first|];
      assert FirstRunAt(s, sep, i + 1, first);
    } else {
      assert FirstRunAt(s, sep, 0, first);
    }
  }

  /** `seg` sits at `i` in `s`, with only separators before it and a separator
      or the end of `s` after it. */
  ghost predicate FirstRunAt(s: string, sep: char, i: nat, seg: string) {
    i + |seg| <= |s| && s[i..i + |seg|] == seg &&
    (forall j :: 0 <= j < i ==> s[j] == sep) &&
    (i + |seg| == |s| || s[i + |seg|] == sep)
  }

  // ---------------------------------------------------------------------------
  // The subject fields (lines 274-282)

  /** `values?.first ?? ""` */
  function FirstOrEmpty(values: seq<string>): (r: string)
    ensures values == [] ==> r == ""
    ensures values != [] ==> r == values[0]
  {
    if values == [] then "" else values[0]
  }

  /** `commonName?.split(separator: "/").first` */
  function TaxId(commonNames: seq<string>): (r: Option<string>)
    ensures r.Some? ==> r.value != [] && '/' !in r.value
  {
    if commonNames == [] then None
    else
      var parts := Split(commonNames[0], '/');
      if parts == [] then None else Some(parts[0])
  }

  /** The birth-date text (line 281): the formatter's text for decoded
      components, "" when the decoder or the formatter gives `nil`. */
  function BirthDateText(fiscalCode: string, calendar: Calendar): (r: Outcome<string>)
    ensures |fiscalCode| < 5 ==> r == Ok("")
    ensures r.Trapped? <==> ExtractDateOfBirth(fiscalCode, calendar.currentYear).Trapped?
    ensures r.Ok? && r.value != "" ==>
      var decoded := ExtractDateOfBirth(fiscalCode, calendar.currentYear);
      decoded.Ok? && decoded.value.Some? && calendar.format(decoded.value.value) == Some(r.value)
    ensures
      var decoded := ExtractDateOfBirth(fiscalCode, calendar.currentYear);
      decoded.Ok? && decoded.value.Some? ==> r == Ok(calendar.format(decoded.value.value).GetOr(""))
  {
    match ExtractDateOfBirth(fiscalCode, calendar.currentYear)
    case Trapped(t) => Trapped(t)
    case Ok(None) => Ok("")
    case Ok(Some(parts)) => Ok(calendar.format(parts).GetOr(""))
  }

  /** The `PidData` of a parsed certificate, or the trap the fiscal-code
      decoder runs into. */
  function PidFromSubject(subject: Subject, calendar: Calendar): (r: Outcome<PidData>)
    ensures r.Ok? ==> '/' !in r.value.fiscalCode
    ensures r.Ok? && |r.value.fiscalCode| < 5 ==> r.value.birthDate == ""
    ensures r.Trapped? ==> TaxId(subject.commonNames).Some? && 5 <= |TaxId(subject.commonNames).value|
    ensures r.Trapped? <==>
      TaxId(subject.commonNames).Some? &&
      ExtractDateOfBirth(TaxId(subject.commonNames).value, calendar.currentYear).Trapped?
    ensures r.Ok? ==>
      r.value.name == FirstOrEmpty(subject.givenNames) &&
      r.value.surname == FirstOrEmpty(subject.surnames) &&
      r.value.fiscalCode == TaxId(subject.commonNames).GetOr("")
    ensures r.Ok? && TaxId(subject.commonNames).None? ==> r.value.birthDate == ""
    ensures r.Ok? && TaxId(subject.commonNames).Some? ==>
      BirthDateText(TaxId(subject.commonNames).value, calendar) == Ok(r.value.birthDate)
  {
    var pid := PidData(FirstOrEmpty(subject.givenNames), FirstOrEmpty(subject.surnames), "", "");
    match TaxId(subject.commonNames)
    case None => Ok(pid)
    case Some(taxId) =>
      match BirthDateText(taxId, calendar)
      case Trapped(t) => Trapped(t)
      case Ok(birthDate) => Ok(pid.(fiscalCode := taxId, birthDate := birthDate))
  }

  /** Missing subject attributes become "": a missing given name or surname,
      and a common name that is missing or holds only separators, which leaves
      both the fiscal code and the birth date empty. */
  lemma MissingFieldsDefault(subject: Subject, calendar: Calendar)
    ensures subject.commonNames == [] || (forall i :: 0 <= i < |subject.commonNames[0]| ==> subject.commonNames[0][i] == '/') ==>
      PidFromSubject(subject, calendar) ==
        Ok(PidData(FirstOrEmpty(subject.givenNames), FirstOrEmpty(subject.surnames), "", ""))
    ensures PidFromSubject(subject, calendar).Ok? && subject.givenNames == [] ==>
      PidFromSubject(subject, calendar).value.name == ""
    ensures PidFromSubject(subject, calendar).Ok? && subject.surnames == [] ==>
      PidFromSubject(subject, calendar).value.surname == ""
  {
    if subject.commonNames != [] {
      SplitEmptyIff(subject.commonNames[0], '/');
    }
  }

  /** The fiscal code is the first segment of the common name, with leading
      separators skipped; a common name without '/' is taken whole. */
  lemma FiscalCodeFromCommonName(subject: Subject, calendar: Calendar)
    requires subject.commonNames != []
    requires PidFromSubject(subject, calendar).Ok?
    ensures
      var cn := subject.commonNames[0];
      var code := PidFromSubject(subject, calendar).value.fiscalCode;
      (code == "" <==> forall i :: 0 <= i < |cn| ==> cn[i] == '/') &&
      (code != "" ==> exists i :: FirstRunAt(cn, '/', i, code)) &&
      (cn != "" && '/' !in cn ==> code == cn)
  {
    var cn := subject.commonNames[0];
    SplitEmptyIff(cn, '/');
    if Split(cn, '/') != [] {
      FirstSegmentShape(cn, '/');
    }
    if cn != "" && '/' !in cn {
      SplitWithoutSeparator(cn, '/');
    }
  }

  /** `x509CertificateToJSON` up to the JSON text: `None` for a certificate
      that does not parse, otherwise the record with the fixed URL. */
  function CertificateToCieData(certificate: Certificate, calendar: Calendar): (r: Outcome<Option<CieData>>)
    ensures certificate.Unparseable? ==> r == Ok(None)
    ensures r.Ok? && r.value.Some? ==> r.value.value.url == SecondFactorUrl
    ensures r.Ok? && r.value.Some? ==> PidFromSubject(certificate.subject, calendar) == Ok(r.value.value.pidData)
    ensures certificate.Parsed? ==> (r.Trapped? <==> PidFromSubject(certificate.subject, calendar).Trapped?)
    ensures certificate.Parsed? && PidFromSubject(certificate.subject, calendar).Ok? ==>
      r == Ok(Some(CieData(SecondFactorUrl, PidFromSubject(certificate.subject, calendar).value)))
  {
    match certificate
    case Unparseable => Ok(None)
    case Parsed(subject) =>
      match PidFromSubject(subject, calendar)
      case Trapped(t) => Trapped(t)
      case Ok(pid) => Ok(Some(CieData(SecondFactorUrl, pid)))
  }

  /** A common name made of a fiscal code and a '/'-suffix yields that code. */
  lemma TaxIdOfSuffixedName(code: string, suffix: string)
    requires code != [] && '/' !in code
    ensures TaxId([code + "/" + suffix]) == Some(code)
  {
    var cn := code + "/" + suffix;
    var n := SegmentEnd(cn, '/');
    assert cn[..|code|] == code;
    assert cn[|code|] == '/';
    assert n == |code|;
  }

  /** A worked case: read in 2026, `RSSMRA85M01H501Z` gives 1985, month 13
      (M is the thirteenth letter of the source's table) and day 1. */
  lemma SampleFiscalCode()
    ensures ExtractDateOfBirth("RSSMRA85M01H501Z", 2026) == Ok(Some(DateParts(1985, 13, 1)))
  {
    var code := "RSSMRA85M01H501Z";
    assert code[6..8] == "85";
    assert code[9..11] == "01";
    ParseTwoChars("85");
    ParseTwoChars("01");
    assert MonthCodes[12] == code[8];
    MonthCodeOfLetter(12);
  }

  /** The same card end to end: the common name `RSSMRA85M01H501Z/1234567890`
      gives that fiscal code and the subject's names, under the fixed URL. */
  lemma SampleCertificate(format: DateParts -> Option<string>)
    ensures
      var subject := Subject(["MARIO"], ["ROSSI"], ["RSSMRA85M01H501Z" + "/" + "1234567890"]);
      var pid := PidData("MARIO", "ROSSI", "RSSMRA85M01H501Z", format(DateParts(1985, 13, 1)).GetOr(""));
      CertificateToCieData(Parsed(subject), Calendar(2026, format)) == Ok(Some(CieData(SecondFactorUrl, pid)))
  {
    TaxIdOfSuffixedName("RSSMRA85M01H501Z", "1234567890");
    SampleFiscalCode();
  }
}
