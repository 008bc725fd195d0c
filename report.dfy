/** The request the bot posts to the main group, as send_request_to_main_group
    assembles it from a user's answers (its dry-run half, which the confirm
    step also uses for the preview). */
module Report {
  import opened Text
  import opened Context

  /** What is filled into the 'request' template, and the photo sent with it. */
  datatype Request = Request(
    category: string,
    area: Option<string>,
    address: string,
    details: string,
    photo: Option<PhotoSize>)

  const FireKeyword := "пожар"
  const FireArea := "в секции"
  const NoDetails := "не указано"

  /** A category counts as a fire report when its lower-cased text mentions 'пожар'. */
  predicate IsFire(category: string) {
    Contains(Lower(category), FireKeyword)
  }

  /** `str(...)` of an integer answer that may be missing. */
  function ShowInt(v: Option<int>): string {
    match v
    case None => "None"
    case Some(i) => IntToString(i)
  }

  /** One optional piece of the address: present only when its value is truthy. */
  function AddressPart(v: Option<int>, prefix: string): string {
    if TruthyInt(v) then prefix + IntToString(v.value) else ""
  }

  /** The address line: street and house, then section, floor, flat,
      storeroom and parking in that order, each only when set and non-zero. */
  function Address(street: string, a: Answers): string {
    "ул\\. " + street + ", дом " + ShowInt(a.house)
    + AddressPart(a.section, ", секция ")
    + AddressPart(a.floor, ", этаж ")
    + AddressPart(a.flat, ", кв\\. ")
    + AddressPart(a.storeroom, ", кл\\. ")
    + AddressPart(a.parking, ", мм\\. ")
  }

  /** The optional pieces of the address, in the order they are appended. */
  datatype Part = Section | Floor | Flat | Storeroom | Parking

  function PartValue(a: Answers, p: Part): Option<int> {
    match p
    case Section => a.section
    case Floor => a.floor
    case Flat => a.flat
    case Storeroom => a.storeroom
    case Parking => a.parking
  }

  /** The answers without the value of one optional piece. */
  function WithoutPart(a: Answers, p: Part): (b: Answers)
    ensures PartValue(b, p).None?
    ensures forall q :: q != p ==> PartValue(b, q) == PartValue(a, q)
  {
    match p
    case Section => a.(section := None)
    case Floor => a.(floor := None)
    case Flat => a.(flat := None)
    case Storeroom => a.(storeroom := None)
    case Parking => a.(parking := None)
  }

  /** A falsy value (a missing key, or 0 as for a ground floor) adds nothing to
      the address: the address is the same as without that value. */
  lemma {:induction false} FalsyPartIsOmitted(street: string, a: Answers, p: Part)
    requires !TruthyInt(PartValue(a, p))
    ensures Address(street, a) == Address(street, WithoutPart(a, p))
  {
    match p
    case Section => assert AddressPart(a.section, ", секция ") == "";
    case Floor => assert AddressPart(a.floor, ", этаж ") == "";
    case Flat => assert AddressPart(a.flat, ", кв\\. ") == "";
    case Storeroom => assert AddressPart(a.storeroom, ", кл\\. ") == "";
    case Parking => assert AddressPart(a.parking, ", мм\\. ") == "";
  }

  /** A truthy non-negative piece shows its number in decimal, which reads
      back as that number. */
  lemma {:induction false} AddressPartShowsNumber(v: Option<int>, prefix: string)
    requires TruthyInt(v) && v.value >= 0
    ensures var p := AddressPart(v, prefix);
      p == prefix + NatToString(v.value) && ParseDigits(p[|prefix|..]) == v.value
  {
    ParseNatToString(v.value);
    var p := AddressPart(v, prefix);
    assert p[|prefix|..] == NatToString(v.value);
  }

  /** The photo sent with the request: the stored one, when its file id is truthy. */
  function PhotoOf(a: Answers): (p: Option<PhotoSize>)
    ensures p.Some? <==> a.photo.Some? && a.photo.value.fileId != []
    ensures p.Some? ==> p == a.photo
  {
    if a.photo.Some? && a.photo.value.fileId != [] then a.photo else None
  }

  /** send_request_to_main_group up to the template: `.lower()` on a missing
      category raises first, then the concatenation with a missing street. */
  function AssembleRequest(a: Answers): (r: Result<Request, Crash>)
    ensures r.Err? <==> a.category.None? || a.street.None?
    ensures r.Err? ==> r.error == (if a.category.None? then NoCategory else NoStreet)
  {
    match a.category
    case None => Err(NoCategory)
    case Some(category) =>
      match a.street
      case None => Err(NoStreet)
      case Some(street) =>
        Ok(Request(
          category,
          if IsFire(category) then Some(FireArea) else a.problemArea,
          Address(street, a),
          match a.details case Some(d) => d case None => NoDetails,
          PhotoOf(a)))
  }

  /** What the request holds: the category; for a fire report the area reads
      'в секции' whatever problem area was recorded; the address; the details
      or 'не указано'; the photo when one was recorded. */
  lemma RequestFields(a: Answers)
    requires a.category.Some? && a.street.Some?
    ensures AssembleRequest(a).Ok?
    ensures var r := AssembleRequest(a).value;
      && r.category == a.category.value
      && r.address == Address(a.street.value, a)
      && (IsFire(r.category) ==> r.area == Some(FireArea))
      && (!IsFire(r.category) ==> r.area == a.problemArea)
      && (a.details.Some? ==> r.details == a.details.value)
      && (a.details.None? ==> r.details == NoDetails)
      && (r.photo.Some? <==> a.photo.Some? && a.photo.value.fileId != [])
  {
  }
}
