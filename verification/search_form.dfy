/**
 * The search form's record (`searchData` in FlightsApp) and the two pure
 * updates applied to it: the single-field edit of `handleInputChange` and
 * the origin/destination exchange of `swapLocations`.
 */
module SearchForm {

  /** The trip-type toggle; the component stores it as "roundtrip" or "oneway". */
  datatype TripKind = RoundTrip | OneWay

  /** The query being edited. Dates are the raw strings of the date inputs. */
  datatype SearchData = SearchData(
    from: string,
    to: string,
    departDate: string,
    returnDate: string,
    passengers: int,
    tripType: TripKind)

  /** The value the form starts with. */
  const EmptyQuery := SearchData("", "", "", "", 1, RoundTrip)

  /** The six keys `handleInputChange` is called with. */
  datatype Field = From | To | DepartDate | ReturnDate | Passengers | TripType

  /** A field's value, tagged by its kind. */
  datatype Value = Text(text: string) | Count(count: int) | Kind(kind: TripKind)

  /**
   * One call `handleInputChange(field, value)`: every call site passes a
   * string for the four text fields, the parsed option of the passenger
   * select, and "roundtrip" or "oneway" for the trip type.
   */
  datatype Edit =
    | SetFrom(text: string)
    | SetTo(text: string)
    | SetDepartDate(text: string)
    | SetReturnDate(text: string)
    | SetPassengers(count: int)
    | SetTripType(kind: TripKind)

  function FieldOf(e: Edit): Field {
    match e
    case SetFrom(_) => From
    case SetTo(_) => To
    case SetDepartDate(_) => DepartDate
    case SetReturnDate(_) => ReturnDate
    case SetPassengers(_) => Passengers
    case SetTripType(_) => TripType
  }

  function ValueOf(e: Edit): Value {
    match e
    case SetFrom(t) => Text(t)
    case SetTo(t) => Text(t)
    case SetDepartDate(t) => Text(t)
    case SetReturnDate(t) => Text(t)
    case SetPassengers(n) => Count(n)
    case SetTripType(k) => Kind(k)
  }

  /** Reads one field of the record by key, as `searchData[field]` does. */
  function Read(d: SearchData, f: Field): Value {
    match f
    case From => Text(d.from)
    case To => Text(d.to)
    case DepartDate => Text(d.departDate)
    case ReturnDate => Text(d.returnDate)
    case Passengers => Count(d.passengers)
    case TripType => Kind(d.tripType)
  }

  /**
   * The updater of `handleInputChange`: a copy of the previous record in
   * which only the named key holds the new value.
   */
  function ApplyEdit(d: SearchData, e: Edit): (r: SearchData)
    ensures forall f :: Read(r, f) == if f == FieldOf(e) then ValueOf(e) else Read(d, f)
  {
    match e
    case SetFrom(t) => d.(from := t)
    case SetTo(t) => d.(to := t)
    case SetDepartDate(t) => d.(departDate := t)
    case SetReturnDate(t) => d.(returnDate := t)
    case SetPassengers(n) => d.(passengers := n)
    case SetTripType(k) => d.(tripType := k)
  }

  /** Two records that agree on every key are the same record. */
  lemma {:induction false} SameFieldsSameData(d1: SearchData, d2: SearchData)
    requires forall f :: Read(d1, f) == Read(d2, f)
    ensures d1 == d2
  {
    assert Read(d1, From) == Read(d2, From);
    assert Read(d1, To) == Read(d2, To);
    assert Read(d1, DepartDate) == Read(d2, DepartDate);
    assert Read(d1, ReturnDate) == Read(d2, ReturnDate);
    assert Read(d1, Passengers) == Read(d2, Passengers);
    assert Read(d1, TripType) == Read(d2, TripType);
  }

  /**
   * The frame property of ApplyEdit pins its result down completely: any
   * record with that property is the one `handleInputChange` produces.
   */
  lemma EditIsDeterminedByFrame(d: SearchData, e: Edit, r: SearchData)
    requires forall f :: Read(r, f) == if f == FieldOf(e) then ValueOf(e) else Read(d, f)
    ensures r == ApplyEdit(d, e)
  {
    SameFieldsSameData(r, ApplyEdit(d, e));
  }

  /** Writing a key with the value it already holds changes nothing. */
  lemma EditOfCurrentValueIsIdentity(d: SearchData, e: Edit)
    requires Read(d, FieldOf(e)) == ValueOf(e)
    ensures ApplyEdit(d, e) == d
  {
  }

  /** The later of two edits to the same key wins. */
  lemma LastEditWins(d: SearchData, e1: Edit, e2: Edit)
    requires FieldOf(e1) == FieldOf(e2)
    ensures ApplyEdit(ApplyEdit(d, e1), e2) == ApplyEdit(d, e2)
  {
  }

  /** Edits to different keys commute. */
  lemma EditsOfDistinctFieldsCommute(d: SearchData, e1: Edit, e2: Edit)
    requires FieldOf(e1) != FieldOf(e2)
    ensures ApplyEdit(ApplyEdit(d, e1), e2) == ApplyEdit(ApplyEdit(d, e2), e1)
  {
  }

  /**
   * The updater of `swapLocations`: a copy of the previous record whose
   * origin is the old destination and whose destination is the old origin.
   */
  function Swapped(d: SearchData): (r: SearchData)
    ensures Read(r, From) == Read(d, To) && Read(r, To) == Read(d, From)
    ensures forall f :: f != From && f != To ==> Read(r, f) == Read(d, f)
  {
    d.(from := d.to, to := d.from)
  }

  /** Swapping twice gives back the original record. */
  lemma SwapIsInvolution(d: SearchData)
    ensures Swapped(Swapped(d)) == d
  {
  }

  /** The keys a search cannot go without. */
  const RequiredFields: set<Field> := {From, To, DepartDate}

  /**
   * The check at the start of `handleSearch`: none of the required keys may
   * hold the empty string, which JavaScript treats as false.
   */
  predicate RequiredFilled(d: SearchData)
    ensures RequiredFilled(d) <==> forall f :: f in RequiredFields ==> Read(d, f) != Text("")
  {
    |d.from| > 0 && |d.to| > 0 && |d.departDate| > 0
  }

  /**
   * Validation reads only origin, destination and departure date: the return
   * date, passenger count and trip type never affect it.
   */
  lemma ValidationIgnoresOptionalFields(d1: SearchData, d2: SearchData)
    requires d1.from == d2.from && d1.to == d2.to && d1.departDate == d2.departDate
    ensures RequiredFilled(d1) <==> RequiredFilled(d2)
  {
  }

  /** A round trip without a return date still passes validation. */
  lemma ReturnDateNotRequired(d: SearchData)
    requires d.tripType == RoundTrip && d.returnDate == ""
    requires d.from != "" && d.to != "" && d.departDate != ""
    ensures RequiredFilled(d)
  {
  }

  /** Swapping never changes the outcome of validation. */
  lemma SwapKeepsValidation(d: SearchData)
    ensures RequiredFilled(Swapped(d)) <==> RequiredFilled(d)
  {
  }
}
