/** The request shapes of a multi-bill claim and their checks: field bounds
    on each bill, the travel-mode rule for travel bills, and the trip-date
    rules. Dates are day numbers. */
module ExpenseSchemas {

  import opened Wrappers

  const CategoryValues: seq<string> := ["travel", "food", "medical", "accommodation", "communication", "other"]

  const TravelModeValues: seq<string> := ["bus", "train", "flight_economy", "flight_business", "cab", "own_vehicle"]

  datatype BillItem = BillItem(
    category: string,
    amount: real,
    expenseDate: int,
    description: string,
    travelMode: Option<string>,
    vendorName: Option<string>)

  datatype SchemaError =
    | UnknownCategory
    | AmountNotPositive
    | DescriptionTooShort
    | DescriptionTooLong
    | UnknownTravelMode
    | TravelModeRequired
    | NoBills
    | TripPurposeTooLong
    | TripEndBeforeStart
    | BillOutsideTrip(index: nat)

  /** The field constraints of `BillItemCreate`, each reported. */
  function BillFieldErrors(item: BillItem): (errors: seq<SchemaError>)
    ensures |errors| == 0 <==>
      item.category in CategoryValues && item.amount > 0.0 && 10 <= |item.description| <= 500 &&
      (item.travelMode.Some? ==> item.travelMode.value in TravelModeValues)
  {
    (if item.category in CategoryValues then [] else [UnknownCategory]) +
    (if item.amount > 0.0 then [] else [AmountNotPositive]) +
    (if |item.description| < 10 then [DescriptionTooShort] else []) +
    (if |item.description| > 500 then [DescriptionTooLong] else []) +
    (if item.travelMode.Some? && item.travelMode.value !in TravelModeValues then [UnknownTravelMode] else [])
  }

  /** `BillItemCreate` with `validate_travel_fields`: the field errors, or,
      when the fields pass, the after-validator's travel-mode rule. */
  function ValidateBillItem(item: BillItem): (errors: seq<SchemaError>)
    ensures |errors| == 0 <==> |BillFieldErrors(item)| == 0 && (item.category == "travel" ==> item.travelMode.Some?)
    ensures TravelModeRequired in errors ==> item.category == "travel" && item.travelMode.None?
    ensures item.category != "travel" ==> errors == BillFieldErrors(item)
  {
    var fieldErrors := BillFieldErrors(item);
    if |fieldErrors| > 0 then fieldErrors
    else if item.category == "travel" && item.travelMode.None? then [TravelModeRequired]
    else []
  }

  /** The position of the first bill dated outside `[start, end]`. */
  function FirstOutside(bills: seq<BillItem>, start: int, end: int): (i: Option<nat>)
    ensures i.Some? ==> i.value < |bills| && !(start <= bills[i.value].expenseDate <= end)
    ensures i.Some? ==> forall j :: 0 <= j < i.value ==> start <= bills[j].expenseDate <= end
    ensures i.None? <==> forall j :: 0 <= j < |bills| ==> start <= bills[j].expenseDate <= end
  {
    if |bills| == 0 then None
    else if !(start <= bills[0].expenseDate <= end) then Some(0)
    else
      match FirstOutside(bills[1..], start, end)
      case None => None
      case Some(k) => Some(k + 1)
  }

  /** `MultiBillExpenseCreate` over bills that passed their own checks: the
      list bounds, then `validate_dates` (the order of the two trip rules,
      then the first bill outside the trip). Pydantic reports all field
      errors together; here the first is reported. */
  function ValidateMultiBill(tripStart: Option<int>, tripEnd: Option<int>, tripPurpose: Option<string>, bills: seq<BillItem>): (error: Option<SchemaError>)
    ensures error.None? <==>
      |bills| > 0 && (tripPurpose.Some? ==> |tripPurpose.value| <= 500) &&
      (tripStart.Some? && tripEnd.Some? ==>
        tripStart.value <= tripEnd.value && forall j :: 0 <= j < |bills| ==> tripStart.value <= bills[j].expenseDate <= tripEnd.value)
    ensures error == Some(TripEndBeforeStart) ==> tripStart.Some? && tripEnd.Some? && tripEnd.value < tripStart.value
    ensures error.Some? && error.value.BillOutsideTrip? ==>
      tripStart.Some? && tripEnd.Some? && error.value.index < |bills| &&
      !(tripStart.value <= bills[error.value.index].expenseDate <= tripEnd.value)
  {
    if |bills| == 0 then Some(NoBills)
    else if tripPurpose.Some? && |tripPurpose.value| > 500 then Some(TripPurposeTooLong)
    else if tripStart.Some? && tripEnd.Some? && tripEnd.value < tripStart.value then Some(TripEndBeforeStart)
    else if tripStart.Some? && tripEnd.Some? then
      match FirstOutside(bills, tripStart.value, tripEnd.value)
      case None => None
      case Some(i) => Some(BillOutsideTrip(i))
    else None
  }

  /** With one trip date missing the bill dates are not checked at all. */
  lemma OneTripDateChecksNoBill(tripStart: Option<int>, tripEnd: Option<int>, bills: seq<BillItem>, moved: seq<BillItem>)
    requires tripStart.None? || tripEnd.None?
    requires |bills| > 0 && |moved| > 0
    ensures ValidateMultiBill(tripStart, tripEnd, None, bills) == ValidateMultiBill(tripStart, tripEnd, None, moved) == None
  {
  }

  /** A one-day trip is accepted: the end may equal the start. */
  lemma SameDayTrip(day: int, bills: seq<BillItem>)
    requires |bills| > 0
    requires forall j :: 0 <= j < |bills| ==> bills[j].expenseDate == day
    ensures ValidateMultiBill(Some(day), Some(day), None, bills).None?
  {
  }
}
