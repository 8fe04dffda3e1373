/**
  The request schema: an item and a receipt as submitted (every field a
  string, as in the JSON body), the field patterns and validators, the cents
  value of the two money fields, and the constraints on the two responses.
*/
module Schema {
  import opened Wrappers
  import opened Chars
  import opened Numerals
  import opened StrPTime

  datatype Item = Item(shortDescription: string, price: string)

  datatype Receipt = Receipt(
    retailer: string,
    purchaseDate: string,
    purchaseTime: string,
    items: seq<Item>,
    total: string)

  // ---------------------------------------------------------------- patterns

  /** `^[\w\s\-]+$`: a description holds no `&`, and no `.` either. */
  predicate MatchesDescription(s: string): (b: bool)
    ensures b ==> s != [] && '&' !in s && '.' !in s
  {
    |s| > 0 && forall i :: 0 <= i < |s| ==> IsWordChar(s[i]) || IsPatternSpace(s[i]) || s[i] == '-'
  }

  /** `^[\w\s\-&]+$`: the description pattern with `&` added. */
  predicate MatchesRetailer(s: string): (b: bool)
    ensures MatchesDescription(s) ==> b
    ensures b && '&' !in s ==> MatchesDescription(s)
  {
    |s| > 0 && forall i :: 0 <= i < |s| ==> IsWordChar(s[i]) || IsPatternSpace(s[i]) || s[i] == '-' || s[i] == '&'
  }

  /**
    `^\d+\.\d{2}$`: at least one digit, a dot, exactly two digits. An
    accepted amount carries no sign, and its one dot has two digits after it.
  */
  predicate MatchesAmount(s: string): (b: bool)
    ensures b ==> '-' !in s && '+' !in s && 4 <= |s|
    ensures b ==> forall i :: 0 <= i < |s| && s[i] == '.' ==> i == |s| - 3
  {
    |s| >= 4 && s[|s| - 3] == '.' && forall i :: 0 <= i < |s| && i != |s| - 3 ==> IsDigit(s[i])
  }

  // ------------------------------------------------------------------- money

  /** The whole number of cents an amount matching the pattern stands for. */
  function CentsOf(s: string): nat
    requires MatchesAmount(s)
  {
    assert AllDigits(s[..|s| - 3]) && AllDigits(s[|s| - 2..]);
    Value(s[..|s| - 3]) * 100 + Value(s[|s| - 2..])
  }

  /** An amount of cents rendered as dollars, a dot and two cent digits. */
  function FormatCents(c: nat): string
  {
    Digits(c / 100, 1) + "." + Digits(c % 100, 2)
  }

  /** Every amount of cents renders to a string the pattern accepts, and reads back unchanged. */
  lemma FormatCentsRoundTrip(c: nat)
    ensures MatchesAmount(FormatCents(c)) && CentsOf(FormatCents(c)) == c
  {
    var d, f := Digits(c / 100, 1), Digits(c % 100, 2);
    var s := FormatCents(c);
    DigitsWidth(c % 100, 2);
    ValueOfDigits(c / 100, 1);
    ValueOfDigits(c % 100, 2);
    assert s == d + "." + f;
    assert s[..|s| - 3] == d;
    assert s[|s| - 2..] == f;
  }

  /**
    `float(s)` in cents, on the strings that look like amounts with an
    optional sign (`[+-]?\d+\.\d{2}`); None where the model has no value.
  */
  function ParseSignedCents(s: string): (r: Option<int>)
    ensures MatchesAmount(s) ==> r == Some(CentsOf(s))
  {
    if |s| > 0 && s[0] == '-' && MatchesAmount(s[1..]) then Some(-(CentsOf(s[1..]) as int))
    else if |s| > 0 && s[0] == '+' && MatchesAmount(s[1..]) then Some(CentsOf(s[1..]))
    else if MatchesAmount(s) then Some(CentsOf(s))
    else None
  }

  /** `Item.get_price_as_float`: the price in cents, negative values clamped to 0. */
  function PriceAsCents(item: Item): (c: nat)
    requires ParseSignedCents(item.price).Some?
    ensures c >= ParseSignedCents(item.price).value
    ensures c == 0 || c == ParseSignedCents(item.price).value
  {
    var v := ParseSignedCents(item.price).value;
    if v < 0 then 0 else v
  }

  /** `Receipt.get_total_as_float`: the total in cents, negative values clamped to 0. */
  function TotalAsCents(r: Receipt): (c: nat)
    requires ParseSignedCents(r.total).Some?
    ensures c >= ParseSignedCents(r.total).value
    ensures c == 0 || c == ParseSignedCents(r.total).value
  {
    var v := ParseSignedCents(r.total).value;
    if v < 0 then 0 else v
  }

  /** The clamp fires only for a leading minus sign, which the amount pattern never lets through. */
  lemma ClampOnlyForMinusSign(s: string)
    requires ParseSignedCents(s).Some? && ParseSignedCents(s).value < 0
    ensures s[0] == '-' && !MatchesAmount(s)
  {
  }

  /** For a price the pattern accepts, the clamp is unreachable and the value is its cents. */
  lemma PriceClampUnreachable(item: Item)
    requires MatchesAmount(item.price)
    ensures ParseSignedCents(item.price).Some? && PriceAsCents(item) == CentsOf(item.price)
  {
  }

  /** For a total the pattern accepts, the clamp is unreachable and the value is its cents. */
  lemma TotalClampUnreachable(r: Receipt)
    requires MatchesAmount(r.total)
    ensures ParseSignedCents(r.total).Some? && TotalAsCents(r) == CentsOf(r.total)
  {
  }

  // ------------------------------------------------------- date and time

  const PurchaseDateMessage: string :=
    "Invalid purchaseDate format. Examples of accepted formats: "
    + "January 1, 2022 | 1 February 2022 | 01/01/2022 | 2022-01-01 | 01 01 22 | 01 01 2022"

  const PurchaseTimeMessage: string := "Invalid purchaseTime format. Must be HH:MM in 24-hour format"

  /** Some accepted date format parses `s`. */
  predicate IsPurchaseDate(s: string)
  {
    exists k :: 0 <= k < |DateFormats| && Parse(s, DateFormats[k]).Some?
  }

  /** The first accepted format, from the `k`-th on, that parses `s`. */
  function FirstDateFormat(s: string, k: nat): (r: Option<nat>)
    requires k <= |DateFormats|
    ensures r.Some? ==> k <= r.value < |DateFormats| && Parse(s, DateFormats[r.value]).Some?
    ensures r.Some? ==> forall j :: k <= j < r.value ==> Parse(s, DateFormats[j]).None?
    ensures r.None? ==> forall j :: k <= j < |DateFormats| ==> Parse(s, DateFormats[j]).None?
    decreases |DateFormats| - k
  {
    if k == |DateFormats| then None
    else if Parse(s, DateFormats[k]).Some? then Some(k)
    else FirstDateFormat(s, k + 1)
  }

  /** `Receipt.validate_purchase_date`: the value unchanged when some format parses it. */
  function ValidatePurchaseDate(s: string): (r: Result<string, string>)
    ensures r.Ok? <==> IsPurchaseDate(s)
    ensures r.Ok? ==> r.value == s
    ensures r.Err? ==> r.error == PurchaseDateMessage
  {
    if FirstDateFormat(s, 0).Some? then Ok(s) else Err(PurchaseDateMessage)
  }

  /** A purchase date of fewer than five characters is rejected with the date message. */
  lemma ShortDateInvalid(s: string)
    requires |s| < 5
    ensures !IsPurchaseDate(s) && ValidatePurchaseDate(s) == Err(PurchaseDateMessage)
  {
    ShortDateRejected(s);
  }

  predicate IsPurchaseTime(s: string) { Parse(s, TimeFormat).Some? }

  /** `Receipt.validate_purchase_time`: the value unchanged when %H:%M parses it. */
  function ValidatePurchaseTime(s: string): (r: Result<string, string>)
    ensures r.Ok? <==> exists p: nat :: ClockShape(s, p)
    ensures r.Ok? ==> r.value == s
    ensures r.Err? ==> r.error == PurchaseTimeMessage
  {
    TimeParseIff(s);
    if Parse(s, TimeFormat).Some? then Ok(s) else Err(PurchaseTimeMessage)
  }

  // --------------------------------------------------------------- validity

  predicate ValidItem(item: Item)
  {
    MatchesDescription(item.shortDescription) && MatchesAmount(item.price)
  }

  predicate ValidReceipt(r: Receipt)
  {
    && MatchesRetailer(r.retailer)
    && IsPurchaseDate(r.purchaseDate)
    && IsPurchaseTime(r.purchaseTime)
    && |r.items| >= 1
    && (forall i :: 0 <= i < |r.items| ==> ValidItem(r.items[i]))
    && MatchesAmount(r.total)
  }

  /** A valid receipt's total and prices read as numbers, each the number of cents written. */
  lemma ValidReceiptAmounts(r: Receipt)
    requires ValidReceipt(r)
    ensures ParseSignedCents(r.total).Some? && TotalAsCents(r) == CentsOf(r.total)
    ensures forall i :: 0 <= i < |r.items| ==>
      ParseSignedCents(r.items[i].price).Some? && PriceAsCents(r.items[i]) == CentsOf(r.items[i].price)
  {
    TotalClampUnreachable(r);
    forall i | 0 <= i < |r.items|
      ensures ParseSignedCents(r.items[i].price).Some? && PriceAsCents(r.items[i]) == CentsOf(r.items[i].price)
    {
      PriceClampUnreachable(r.items[i]);
    }
  }

  /** One rule a submission breaks, with the position of the offending item where there is one. */
  datatype Violation =
    | RetailerPattern
    | PurchaseDateFormat
    | PurchaseTimeFormat
    | DescriptionPattern(index: nat)
    | PricePattern(index: nat)
    | ItemsTooShort
    | TotalPattern

  /** The violations of the items from position `k` on, in item order. */
  function ItemViolations(items: seq<Item>, k: nat): (vs: seq<Violation>)
    requires k <= |items|
    ensures vs == [] <==> forall i :: k <= i < |items| ==> ValidItem(items[i])
    decreases |items| - k
  {
    if k == |items| then []
    else
      (if MatchesDescription(items[k].shortDescription) then [] else [DescriptionPattern(k)])
      + (if MatchesAmount(items[k].price) then [] else [PricePattern(k)])
      + ItemViolations(items, k + 1)
  }

  /** Every violation of a submission, field by field in declaration order. */
  function Violations(r: Receipt): (vs: seq<Violation>)
    ensures vs == [] <==> ValidReceipt(r)
  {
    (if MatchesRetailer(r.retailer) then [] else [RetailerPattern])
    + (if ValidatePurchaseDate(r.purchaseDate).Ok? then [] else [PurchaseDateFormat])
    + (if ValidatePurchaseTime(r.purchaseTime).Ok? then [] else [PurchaseTimeFormat])
    + ItemViolations(r.items, 0)
    + (if |r.items| >= 1 then [] else [ItemsTooShort])
    + (if MatchesAmount(r.total) then [] else [TotalPattern])
  }

  /** Schema validation: the submission unchanged, or all its violations at once. */
  function Validate(r: Receipt): (res: Result<Receipt, seq<Violation>>)
    ensures res.Ok? <==> ValidReceipt(r)
    ensures res.Ok? ==> res.value == r
    ensures res.Err? ==> |res.error| > 0
  {
    var vs := Violations(r);
    if vs == [] then Ok(r) else Err(vs)
  }

  // -------------------------------------------------------------- responses

  /** `GetPointsResponse`: points must be at least 0. */
  predicate IsPointsResponse(points: int) { points >= 0 }

  /** `PostReceiptResponse`: the id must match `^\S+$`. */
  predicate IsIdResponse(id: string)
  {
    |id| > 0 && forall i :: 0 <= i < |id| ==> !IsPatternSpace(id[i])
  }
}
