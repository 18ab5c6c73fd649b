/**
 * The Aadhaar field sanitiser: two functions that bring the OCR field bag
 * returned by the recognition provider and the user-declared KYC record into
 * bags with the same five fields (documentNumber, name, dateOfBirth,
 * firstIssueDate, address) so that they can be compared.
 */
module AadharSanitiser {
  import opened Wrappers
  import opened JsText

  /** The OCR noise mark the sanitiser deletes from names and addresses. */
  const Caret: char := '^'

  /** The separator placed between the declared address parts. */
  const AddressSeparator: string := ", "

  /**
   * The OCR field bag as the provider returns it. A field the provider left
   * out is `None` (JavaScript `undefined`).
   */
  datatype OcrFields = OcrFields(
    documentNumber: Option<string>,
    name: Option<string>,
    dateOfBirth: Option<string>,
    firstIssueDate: Option<string>,
    address: Option<string>)

  /** The declared residence address; a part the user left out is `None`. */
  datatype PostalAddress = PostalAddress(
    line1: Option<string>,
    line2: Option<string>,
    city: Option<string>,
    state: Option<string>,
    zipcode: Option<string>)

  /**
   * The declared KYC record combined with the authenticated user, as far as
   * the sanitiser reads it. `D` is the stored date type; `userName` is the
   * user's display name.
   */
  datatype KycRecord<D> = KycRecord(
    idNumber: Option<string>,
    userName: string,
    dob: D,
    idIssueDate: D,
    address: Option<PostalAddress>)

  /** The canonical bag both sanitisers return; `Date` is how dates are held. */
  datatype FieldBag<Date> = FieldBag(
    documentNumber: string,
    name: string,
    dateOfBirth: Date,
    firstIssueDate: Date,
    address: string)

  /**
   * Reading a string method or a property of a field that is `undefined`
   * throws a TypeError; `field` names the record field that was missing.
   */
  datatype SanitizeError = UndefinedField(field: string)

  /** `s.replace(/\^/g, "").trim()`: the name and address clean-up. */
  function CleanText(s: string): (r: string)
    ensures Caret !in r
    ensures NoEdgeWhiteSpace(r)
    ensures TrimmedFrom(r, RemoveAll(s, Caret))
  {
    var stripped := RemoveAll(s, Caret);
    var r := Trim(stripped);
    if Caret in r then TrimKeepsCharacters(stripped, Caret); r else r
  }

  /** Cleaning a cleaned text changes nothing. */
  lemma CleanTextIdempotent(s: string)
    ensures CleanText(CleanText(s)) == CleanText(s)
  {
    TrimNoEdge(CleanText(s));
  }

  /** `sanitizeAadharData`: the OCR side. */
  function SanitizeAadharData(ocr: OcrFields): (r: Result<FieldBag<Option<string>>, SanitizeError>)
    ensures r.Err? <==> ocr.documentNumber.None? || ocr.name.None? || ocr.address.None?
    ensures r.Err? ==> r.error == UndefinedField(
      if ocr.documentNumber.None? then "documentNumber"
      else if ocr.name.None? then "name"
      else "address")
    ensures r.Ok? ==>
      && TrimmedFrom(r.value.documentNumber, ocr.documentNumber.value)
      && NoEdgeWhiteSpace(r.value.name) && Caret !in r.value.name
      && TrimmedFrom(r.value.name, RemoveAll(ocr.name.value, Caret))
      && r.value.dateOfBirth == ocr.dateOfBirth
      && r.value.firstIssueDate == ocr.firstIssueDate
      && NoEdgeWhiteSpace(r.value.address) && Caret !in r.value.address
      && TrimmedFrom(r.value.address, RemoveAll(ocr.address.value, Caret))
  {
    match ocr.documentNumber
    case None => Err(UndefinedField("documentNumber"))
    case Some(documentNumber) =>
      match ocr.name
      case None => Err(UndefinedField("name"))
      case Some(name) =>
        match ocr.address
        case None => Err(UndefinedField("address"))
        case Some(address) =>
          Ok(FieldBag(Trim(documentNumber), CleanText(name), ocr.dateOfBirth,
                      ocr.firstIssueDate, CleanText(address)))
  }

  /** A sanitised bag read back as provider output. */
  function AsOcrFields(b: FieldBag<Option<string>>): OcrFields {
    OcrFields(Some(b.documentNumber), Some(b.name), b.dateOfBirth, b.firstIssueDate, Some(b.address))
  }

  /** Sanitising sanitised OCR output gives it back unchanged. */
  lemma SanitizeAadharDataIdempotent(ocr: OcrFields)
    requires SanitizeAadharData(ocr).Ok?
    ensures SanitizeAadharData(AsOcrFields(SanitizeAadharData(ocr).value)) == SanitizeAadharData(ocr)
  {
    TrimIdempotent(ocr.documentNumber.value);
    CleanTextIdempotent(ocr.name.value);
    CleanTextIdempotent(ocr.address.value);
  }

  /** The parts of a declared address in the order the sanitiser writes them. */
  function AddressParts(a: PostalAddress): (parts: seq<string>)
    ensures |parts| == 5
  {
    [Render(a.line1), Render(a.line2), Render(a.city), Render(a.state), Render(a.zipcode)]
  }

  /** Joining five pieces puts the separator between each adjacent pair. */
  lemma JoinFive(a: string, b: string, c: string, d: string, e: string, sep: string)
    ensures Join([a, b, c, d, e], sep) == a + sep + b + sep + c + sep + d + sep + e
  {
    assert [a, b, c, d, e][1..] == [b, c, d, e];
    assert [b, c, d, e][1..] == [c, d, e];
    assert [c, d, e][1..] == [d, e];
    assert [d, e][1..] == [e];
    assert Join([e], sep) == e;
    var de := Join([d, e], sep);
    assert de == d + sep + e;
    var cde := Join([c, d, e], sep);
    assert cde == c + sep + d + sep + e;
    var bcde := Join([b, c, d, e], sep);
    assert bcde == b + sep + c + sep + d + sep + e;
  }

  /** The template literal `${line1}, ${line2}, ${city}, ${state}, ${zipcode}`. */
  function ComposeAddress(a: PostalAddress): (r: string)
    ensures r == Join(AddressParts(a), AddressSeparator)
  {
    JoinFive(Render(a.line1), Render(a.line2), Render(a.city), Render(a.state), Render(a.zipcode), ", ");
    Render(a.line1) + ", " + Render(a.line2) + ", " + Render(a.city) + ", " +
    Render(a.state) + ", " + Render(a.zipcode)
  }

  /**
   * When no part contains the separator, splitting the composed address on
   * it yields the five parts verbatim, in order: exactly four separators,
   * and no part trimmed or stripped of carets.
   */
  lemma ComposeAddressSplits(a: PostalAddress)
    requires forall k :: 0 <= k < 5 ==> !Contains(AddressParts(a)[k], AddressSeparator)
    ensures Split(ComposeAddress(a), AddressSeparator) == AddressParts(a)
  {
    SplitJoin(AddressParts(a), AddressSeparator);
  }

  /** `sanitizeModKycDataAadhar`: the declared side; `formatDate` is the date formatter. */
  function SanitizeModKycDataAadhar<D, R>(k: KycRecord<D>, formatDate: D -> R): (r: Result<FieldBag<R>, SanitizeError>)
    ensures r.Err? <==> k.idNumber.None? || k.address.None?
    ensures r.Err? ==> r.error == UndefinedField(if k.idNumber.None? then "idNumber" else "address")
    ensures r.Ok? ==>
      && TrimmedFrom(r.value.documentNumber, k.idNumber.value)
      && NoEdgeWhiteSpace(r.value.name) && Caret !in r.value.name
      && TrimmedFrom(r.value.name, RemoveAll(k.userName, Caret))
      && r.value.dateOfBirth == formatDate(k.dob)
      && r.value.firstIssueDate == formatDate(k.idIssueDate)
      && r.value.address == Join(AddressParts(k.address.value), AddressSeparator)
  {
    match k.idNumber
    case None => Err(UndefinedField("idNumber"))
    case Some(idNumber) =>
      match k.address
      case None => Err(UndefinedField("address"))
      case Some(address) =>
        Ok(FieldBag(Trim(idNumber), CleanText(k.userName), formatDate(k.dob),
                    formatDate(k.idIssueDate), ComposeAddress(address)))
  }

  /**
   * Feeding the sanitised document number and name back in as the declared
   * ones reproduces them: declared-side normalisation is idempotent.
   */
  lemma SanitizeModKycDataAadharIdempotent<D, R>(k: KycRecord<D>, formatDate: D -> R)
    requires SanitizeModKycDataAadhar(k, formatDate).Ok?
    ensures var b := SanitizeModKycDataAadhar(k, formatDate).value;
            SanitizeModKycDataAadhar(k.(idNumber := Some(b.documentNumber), userName := b.name), formatDate) == Ok(b)
  {
    TrimIdempotent(k.idNumber.value);
    CleanTextIdempotent(k.userName);
  }

  /** The user's display name, "firstName lastName". */
  function DisplayName(firstName: string, lastName: string): string {
    firstName + " " + lastName
  }

  /**
   * A display name built from two non-empty, caret-free names without
   * white space at their ends survives the declared-side clean-up unchanged.
   */
  lemma DisplayNameIsClean(firstName: string, lastName: string)
    requires firstName != [] && lastName != []
    requires Caret !in firstName && Caret !in lastName
    requires NoEdgeWhiteSpace(firstName) && NoEdgeWhiteSpace(lastName)
    ensures CleanText(DisplayName(firstName, lastName)) == DisplayName(firstName, lastName)
  {
    var n := DisplayName(firstName, lastName);
    assert Caret !in n;
    assert n[0] == firstName[0] && n[|n| - 1] == lastName[|lastName| - 1];
    TrimNoEdge(n);
  }
}
