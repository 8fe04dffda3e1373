/**
  The receipts of the service's API tests, with their validation outcome and
  their points, and the store scenario those tests drive: post a receipt, read
  its points back, and ask for an id that was never issued.
*/
/** The receipts posted by the service's API tests. */
module TestData {
  import opened Schema

  const Gatorade := Item("Gatorade", "2.25")
  const MountainDew := Item("Mountain Dew 12PK", "6.49")
  const EmilsPizza := Item("Emils Cheese Pizza", "12.25")
  const KnorrChicken := Item("Knorr Creamy Chicken", "1.26")
  const Doritos := Item("Doritos Nacho Cheese", "3.35")
  const Klarbrunn := Item("   Klarbrunn 12-PK 12 FL OZ  ", "12.00")
  const Pepsi := Item("Pepsi - 12-oz", "1.25")
  const Dasani := Item("Dasani", "1.40")

  const GoodReceipt1 := Receipt("M&M Corner Market", "2022-03-20", "14:33", [Gatorade, Gatorade, Gatorade, Gatorade], "9.00")
  const GoodReceipt2 := Receipt("Target", "2022-01-01", "13:01", [MountainDew, EmilsPizza, KnorrChicken, Doritos, Klarbrunn], "35.35")
  const GoodReceipt3 := Receipt("Walgreens", "2022-01-02", "08:13", [Pepsi, Dasani], "2.65")
  const GoodReceipt4 := Receipt("Target", "2022-01-02", "13:13", [Pepsi], "1.25")

  /** The first good receipt with a purchase date no format accepts. */
  const BadReceipt1 := GoodReceipt1.(purchaseDate := "2")
  /** The second good receipt with a retailer name the pattern rejects. */
  const BadReceipt2 := GoodReceipt2.(retailer := "Target^^")
}

module Examples {
  import opened Wrappers
  import opened Chars
  import opened Numerals
  import opened StrPTime
  import opened Schema
  import opened Scoring
  import opened Store
  import opened TestData

  // ------------------------------------------ fields, stated on their characters

  /** A `YYYY-MM-DD` date that %Y-%m-%d parses to the year, month and day written in it. */
  lemma IsoDateParsed(s: string, y: nat, m: nat, d: nat)
    requires IsoShaped(s)
    requires y == 1000 * DigitValue(s[0]) + 100 * DigitValue(s[1]) + 10 * DigitValue(s[2]) + DigitValue(s[3])
    requires m == 10 * DigitValue(s[5]) + DigitValue(s[6]) && d == 10 * DigitValue(s[8]) + DigitValue(s[9])
    requires IsCalendarStamp(Stamp(y, m, d, 0, 0))
    ensures Parse(s, IsoDate) == Some(Stamp(y, m, d, 0, 0))
  {
    IsoFields(s);
    assert 1 <= Value(s[5..7]) <= 12 && 1 <= Value(s[8..10]) <= 31;
    IsoDateMatches(s);
    assert Match(s, 0, IsoDate, Unset) == Some(Stamp(y, m, d, 0, 0));
  }

  /** The year, month and day of a `dddd-dd-dd` string, digit by digit. */
  lemma IsoFields(s: string)
    requires IsoShaped(s)
    ensures Value(s[0..4]) == 1000 * DigitValue(s[0]) + 100 * DigitValue(s[1]) + 10 * DigitValue(s[2]) + DigitValue(s[3])
    ensures Value(s[5..7]) == 10 * DigitValue(s[5]) + DigitValue(s[6])
    ensures Value(s[8..10]) == 10 * DigitValue(s[8]) + DigitValue(s[9])
  {
    FourDigitValue(s[0..4]);
    TwoDigitValue(s[5..7]);
    TwoDigitValue(s[8..10]);
  }

  /** Such a date is accepted, and earns 6 points exactly when its day is odd. */
  lemma IsoDateOf(r: Receipt, y: nat, m: nat, d: nat)
    requires IsoShaped(r.purchaseDate)
    requires var s := r.purchaseDate;
      y == 1000 * DigitValue(s[0]) + 100 * DigitValue(s[1]) + 10 * DigitValue(s[2]) + DigitValue(s[3])
    requires var s := r.purchaseDate;
      m == 10 * DigitValue(s[5]) + DigitValue(s[6]) && d == 10 * DigitValue(s[8]) + DigitValue(s[9])
    requires IsCalendarStamp(Stamp(y, m, d, 0, 0))
    ensures IsPurchaseDate(r.purchaseDate)
    ensures DatePoints(r) == if d % 2 == 1 then 6 else 0
  {
    IsoDateParsed(r.purchaseDate, y, m, d);
    assert DateFormats[3] == IsoDate;
    assert Parse(r.purchaseDate, DateFormats[3]).Some?;
    IsoDatePoints(r);
  }

  /** An `HH:MM` time is accepted, and earns 10 points from 14:01 through 15:59. */
  lemma ClockOf(r: Receipt, h: nat, m: nat)
    requires var s := r.purchaseTime;
      |s| == 5 && s[2] == ':' && IsDigit(s[0]) && IsDigit(s[1]) && IsDigit(s[3]) && IsDigit(s[4])
    requires var s := r.purchaseTime;
      h == 10 * DigitValue(s[0]) + DigitValue(s[1]) <= 23 && m == 10 * DigitValue(s[3]) + DigitValue(s[4]) <= 59
    ensures IsPurchaseTime(r.purchaseTime)
    ensures TimePoints(r) == if (h == 14 && m >= 1) || h == 15 then 10 else 0
  {
    var s := r.purchaseTime;
    TwoDigitValue(s[..2]);
    TwoDigitValue(s[3..]);
    assert ClockShape(s, 2);
    TimePointsWindow(r, 2);
  }

  /** The window is open at both ends: 14:00 and 16:00 earn nothing. */
  lemma WindowEndsExcluded(r: Receipt)
    requires r.purchaseTime == "14:00" || r.purchaseTime == "16:00"
    ensures IsPurchaseTime(r.purchaseTime) && TimePoints(r) == 0
  {
    if r.purchaseTime == "14:00" {
      ClockOf(r, 14, 0);
    } else {
      ClockOf(r, 16, 0);
    }
  }

  // -------------------------------------- the date examples of the format message
  // Each example date the validation message lists, read by its own format:
  // every one of them is accepted, and its day, the first, earns 6 points.

  /** The renderings the example dates are made of. */
  lemma SampleDigits()
    ensures Digits(1, 1) == "1" && Digits(1, 2) == "01" && Digits(22, 2) == "22"
    ensures Digits(2022, 4) == "2022"
  {
    assert Digits(0, 1) == "0" && Digits(2, 1) == "2";
    assert Digits(20, 2) == "20";
    assert Digits(202, 3) == "202";
  }

  /** A date some format reads as a calendar date with an odd day is accepted and earns 6 points. */
  lemma OddDateOf(r: Receipt, k: nat, y: nat, m: nat, d: nat)
    requires k < |DateFormats| && Parse(r.purchaseDate, DateFormats[k]) == Some(Stamp(y, m, d, 0, 0))
    requires d % 2 == 1
    ensures IsPurchaseDate(r.purchaseDate) && DatePoints(r) == 6
  {
    assert OddDayUnder(r.purchaseDate, k);
  }

  /** "January 1, 2022", read by %B %d, %Y. */
  lemma SpelledMonthFirst(r: Receipt)
    requires r.purchaseDate == "January 1, 2022"
    ensures Parse(r.purchaseDate, MonthNameDayYear) == Some(Stamp(2022, 1, 1, 0, 0))
    ensures IsPurchaseDate(r.purchaseDate) && DatePoints(r) == 6
  {
    assert LowerAll("January") == MonthNames[0];
    SampleDigits();
    assert r.purchaseDate == "January" + " " + Digits(1, 1) + ", " + Digits(2022, 4);
    NameDayYearRoundTrip("January", 2022, 1, 1);
    assert DateFormats[0] == MonthNameDayYear;
    OddDateOf(r, 0, 2022, 1, 1);
  }

  /** "1 February 2022", read by %d %B %Y with a one-digit day. */
  lemma SpelledMonthSecond(r: Receipt)
    requires r.purchaseDate == "1 February 2022"
    ensures Parse(r.purchaseDate, DayMonthNameYear) == Some(Stamp(2022, 2, 1, 0, 0))
    ensures IsPurchaseDate(r.purchaseDate) && DatePoints(r) == 6
  {
    SecondOfFebruaryMatches(r.purchaseDate);
    assert DateFormats[1] == DayMonthNameYear;
    OddDateOf(r, 1, 2022, 2, 1);
  }

  /** The fields of "1 February 2022", directive by directive. */
  lemma SecondOfFebruaryMatches(s: string)
    requires s == "1 February 2022"
    ensures Match(s, 0, DayMonthNameYear, Unset) == Some(Stamp(2022, 2, 1, 0, 0))
  {
    var t1 := Unset.(day := 1);
    var rest := [Lit(' '), MonthName, Lit(' '), Year4];
    assert s[0..1] == "1" && Value(s[0..1]) == 1;
    assert DayMonthNameYear == [DayOfMonth] + rest;
    MatchNumberStep(s, 0, DayOfMonth, 1, rest, Unset);
    assert rest == [Lit(' ')] + rest[1..];
    MatchLitStep(s, 1, ' ', rest[1..], t1);
    FebruaryYearMatches(s, t1);
  }

  /** The month name and the year of "1 February 2022". */
  lemma FebruaryYearMatches(s: string, t: Stamp)
    requires s == "1 February 2022"
    ensures Match(s, 2, [MonthName, Lit(' '), Year4], t) == Some(t.(month := 2, year := 2022))
  {
    var tail := [Lit(' '), Year4];
    assert s[2..10] == "February";
    assert LowerAll("February") == MonthNames[1];
    assert [MonthName, Lit(' '), Year4] == [MonthName] + tail;
    MatchNameStep(s, 2, 1, 10, tail, t, t.(month := 2));
    YearOfFebruary(s, t.(month := 2));
  }

  /** The year of "1 February 2022", after the month name. */
  lemma YearOfFebruary(s: string, t: Stamp)
    requires s == "1 February 2022"
    ensures Match(s, 10, [Lit(' '), Year4], t) == Some(t.(year := 2022))
  {
    assert s[11..] == "2022";
    FourDigitValue(s[11..]);
    assert Value(s[11..]) == 2022;
    SpaceYearTail(s, 10, t);
  }

  /** "01/01/2022", read by %m/%d/%Y. */
  lemma SlashedFirst(r: Receipt)
    requires r.purchaseDate == "01/01/2022"
    ensures Parse(r.purchaseDate, MonthDayYearSlashed) == Some(Stamp(2022, 1, 1, 0, 0))
    ensures IsPurchaseDate(r.purchaseDate) && DatePoints(r) == 6
  {
    SampleDigits();
    assert r.purchaseDate == Digits(1, 2) + "/" + Digits(1, 2) + "/" + Digits(2022, 4);
    SlashedDateRoundTrip(2022, 1, 1);
    assert DateFormats[2] == MonthDayYearSlashed;
    OddDateOf(r, 2, 2022, 1, 1);
  }

  /** "01 01 22", read by %d %m %y: the year 22 stands for 2022. */
  lemma ShortYearFirst(r: Receipt)
    requires r.purchaseDate == "01 01 22"
    ensures Parse(r.purchaseDate, DayMonthShortYear) == Some(Stamp(2022, 1, 1, 0, 0))
    ensures IsPurchaseDate(r.purchaseDate) && DatePoints(r) == 6
  {
    SampleDigits();
    assert r.purchaseDate == Digits(1, 2) + " " + Digits(1, 2) + " " + Digits(2022 % 100, 2);
    DayMonthShortYearRoundTrip(2022, 1, 1);
    assert DateFormats[4] == DayMonthShortYear;
    OddDateOf(r, 4, 2022, 1, 1);
  }

  /** "01 01 2022", read by %d %m %Y. */
  lemma SpacedFirst(r: Receipt)
    requires r.purchaseDate == "01 01 2022"
    ensures Parse(r.purchaseDate, DayMonthYear) == Some(Stamp(2022, 1, 1, 0, 0))
    ensures IsPurchaseDate(r.purchaseDate) && DatePoints(r) == 6
  {
    SampleDigits();
    assert r.purchaseDate == Digits(1, 2) + " " + Digits(1, 2) + " " + Digits(2022, 4);
    DayMonthYearRoundTrip(2022, 1, 1);
    assert DateFormats[5] == DayMonthYear;
    OddDateOf(r, 5, 2022, 1, 1);
  }

  /** The total's points, read off its two cent digits. */
  lemma TotalOf(r: Receipt)
    requires MatchesAmount(r.total)
    ensures var n := |r.total|;
      var v := 10 * DigitValue(r.total[n - 2]) + DigitValue(r.total[n - 1]);
      TotalPoints(r) == if v == 0 then 75 else if v % 25 == 0 then 25 else 0
  {
    var n := |r.total|;
    var c0, c1 := r.total[n - 2], r.total[n - 1];
    assert r.total[n - 2..] == [c0, c1];
    TotalPointsByCentDigits(r);
    CentDigits(c0, c1);
  }

  /**
    An item whose description the pattern accepts, whose price is the
    rendering of `cents`, and whose description has non-blank characters
    exactly from position `i` to position `j - 1`, earns `p`: a fifth of
    its price rounded up when the stripped length is a multiple of 3.
  */
  lemma ItemScore(item: Item, cents: nat, i: nat, j: nat, p: nat)
    requires MatchesDescription(item.shortDescription)
    requires item.price == FormatCents(cents)
    requires i < j <= |item.shortDescription|
    requires forall k :: 0 <= k < i ==> IsSpace(item.shortDescription[k])
    requires forall k :: j <= k < |item.shortDescription| ==> IsSpace(item.shortDescription[k])
    requires !IsSpace(item.shortDescription[i]) && !IsSpace(item.shortDescription[j - 1])
    requires p == if (j - i) % 3 == 0 then (cents + 499) / 500 else 0
    ensures ValidItem(item) && ParseSignedCents(item.price).Some?
    ensures ItemPoints(item) == p
  {
    FormatCentsRoundTrip(cents);
    StripBetween(item.shortDescription, i, j);
  }

  // ----------------------------------------------------------------- items
  // Each item's description is checked against the pattern on its own, then
  // ItemScore gives its validity and its points.

  lemma GatoradeDescription(item: Item)
    requires item == Gatorade
    ensures MatchesDescription(item.shortDescription)
  {
  }

  lemma GatoradeItem(item: Item)
    requires item == Gatorade
    ensures ValidItem(item) && ParseSignedCents(item.price).Some? && ItemPoints(item) == 0
  {
    GatoradeDescription(item);
    ItemScore(item, 225, 0, 8, 0);
  }

  lemma MountainDewDescription(item: Item)
    requires item == MountainDew
    ensures MatchesDescription(item.shortDescription)
  {
  }

  lemma MountainDewItem(item: Item)
    requires item == MountainDew
    ensures ValidItem(item) && ParseSignedCents(item.price).Some? && ItemPoints(item) == 0
  {
    MountainDewDescription(item);
    ItemScore(item, 649, 0, 17, 0);
  }

  lemma EmilsPizzaDescription(item: Item)
    requires item == EmilsPizza
    ensures MatchesDescription(item.shortDescription)
  {
  }

  /** "Emils Cheese Pizza" has 18 characters; a fifth of 12.25 is 2.45, rounded up to 3. */
  lemma EmilsPizzaItem(item: Item)
    requires item == EmilsPizza
    ensures ValidItem(item) && ParseSignedCents(item.price).Some? && ItemPoints(item) == 3
  {
    EmilsPizzaDescription(item);
    ItemScore(item, 1225, 0, 18, 3);
  }

  lemma KnorrChickenDescription(item: Item)
    requires item == KnorrChicken
    ensures MatchesDescription(item.shortDescription)
  {
  }

  lemma KnorrChickenItem(item: Item)
    requires item == KnorrChicken
    ensures ValidItem(item) && ParseSignedCents(item.price).Some? && ItemPoints(item) == 0
  {
    KnorrChickenDescription(item);
    ItemScore(item, 126, 0, 20, 0);
  }

  lemma DoritosDescription(item: Item)
    requires item == Doritos
    ensures MatchesDescription(item.shortDescription)
  {
  }

  lemma DoritosItem(item: Item)
    requires item == Doritos
    ensures ValidItem(item) && ParseSignedCents(item.price).Some? && ItemPoints(item) == 0
  {
    DoritosDescription(item);
    ItemScore(item, 335, 0, 20, 0);
  }

  lemma KlarbrunnDescription(item: Item)
    requires item == Klarbrunn
    ensures MatchesDescription(item.shortDescription)
  {
  }

  lemma KlarbrunnLayout(item: Item)
    requires item == Klarbrunn
    ensures item.price == FormatCents(1200) && |item.shortDescription| == 29
    ensures forall k :: 0 <= k < 3 ==> IsSpace(item.shortDescription[k])
    ensures forall k :: 27 <= k < |item.shortDescription| ==> IsSpace(item.shortDescription[k])
    ensures !IsSpace(item.shortDescription[3]) && !IsSpace(item.shortDescription[26])
  {
  }

  /** Stripped of 3 leading and 2 trailing spaces the description has 24 characters; a fifth of 12.00 is 2.40, rounded up to 3. */
  lemma KlarbrunnItem(item: Item)
    requires item == Klarbrunn
    ensures ValidItem(item) && ParseSignedCents(item.price).Some? && ItemPoints(item) == 3
  {
    KlarbrunnDescription(item);
    KlarbrunnLayout(item);
    ItemScore(item, 1200, 3, 27, 3);
  }

  lemma PepsiDescription(item: Item)
    requires item == Pepsi
    ensures MatchesDescription(item.shortDescription)
  {
  }

  lemma PepsiItem(item: Item)
    requires item == Pepsi
    ensures ValidItem(item) && ParseSignedCents(item.price).Some? && ItemPoints(item) == 0
  {
    PepsiDescription(item);
    ItemScore(item, 125, 0, 13, 0);
  }

  lemma DasaniDescription(item: Item)
    requires item == Dasani
    ensures MatchesDescription(item.shortDescription)
  {
  }

  /** "Dasani" has 6 characters; a fifth of 1.40 is 0.28, rounded up to 1. */
  lemma DasaniItem(item: Item)
    requires item == Dasani
    ensures ValidItem(item) && ParseSignedCents(item.price).Some? && ItemPoints(item) == 1
  {
    DasaniDescription(item);
    ItemScore(item, 140, 0, 6, 1);
  }

  // -------------------------------------------------------------- receipts

  /** "M&M Corner Market": the ampersand and the two spaces earn nothing. */
  lemma CornerMarketPoints(name: string)
    requires name == "M&M Corner Market"
    ensures RetailerPoints(name) == 14
  {
    AmpersandScoresNothing(name);
    FirstSpaceScoresNothing("MM Corner Market");
    SecondSpaceScoresNothing("MMCorner Market");
    RetailerPointsAllAlnum("MMCornerMarket");
  }

  lemma AmpersandScoresNothing(name: string)
    requires name == "M&M Corner Market"
    ensures RetailerPoints(name) == RetailerPoints("MM Corner Market")
  {
    SeparatorScoresNothing("M", '&', "M Corner Market");
    assert "M" + ['&'] + "M Corner Market" == name;
    assert "M" + "M Corner Market" == "MM Corner Market";
  }

  lemma FirstSpaceScoresNothing(name: string)
    requires name == "MM Corner Market"
    ensures RetailerPoints(name) == RetailerPoints("MMCorner Market")
  {
    SeparatorScoresNothing("MM", ' ', "Corner Market");
    assert "MM" + [' '] + "Corner Market" == name;
    assert "MM" + "Corner Market" == "MMCorner Market";
  }

  lemma SecondSpaceScoresNothing(name: string)
    requires name == "MMCorner Market"
    ensures RetailerPoints(name) == RetailerPoints("MMCornerMarket")
  {
    SeparatorScoresNothing("MMCorner", ' ', "Market");
    assert "MMCorner" + [' '] + "Market" == name;
    assert "MMCorner" + "Market" == "MMCornerMarket";
  }

  // A list of items that all pass validation and whose description points
  // add up to `points`, built one item at a time.

  predicate ScoredItems(items: seq<Item>, points: nat)
  {
    && PricesParse(items)
    && (forall k :: 0 <= k < |items| ==> ValidItem(items[k]))
    && DescriptionPoints(items) == points
  }

  /** One item with its points. */
  lemma Scored1(a: Item, pa: nat)
    requires ValidItem(a) && ParseSignedCents(a.price).Some? && ItemPoints(a) == pa
    ensures ScoredItems([a], pa)
  {
    assert [a][..0] == [];
  }

  /** Adding one item adds its points. */
  lemma ScoredSnoc(init: seq<Item>, x: Item, t: nat, p: nat)
    requires ScoredItems(init, t)
    requires ValidItem(x) && ParseSignedCents(x.price).Some? && ItemPoints(x) == p
    ensures ScoredItems(init + [x], t + p)
  {
    var items := init + [x];
    assert items[..|items| - 1] == init;
    assert forall k :: 0 <= k < |items| ==> items[k] == if k < |init| then init[k] else x;
  }

  lemma Scored2(a: Item, b: Item, pa: nat, pb: nat)
    requires ValidItem(a) && ParseSignedCents(a.price).Some? && ItemPoints(a) == pa
    requires ValidItem(b) && ParseSignedCents(b.price).Some? && ItemPoints(b) == pb
    ensures ScoredItems([a] + [b], pa + pb)
  {
    Scored1(a, pa);
    ScoredSnoc([a], b, pa, pb);
  }

  lemma Scored4(a: Item, b: Item, c: Item, d: Item, pa: nat, pb: nat, pc: nat, pd: nat)
    requires ValidItem(a) && ParseSignedCents(a.price).Some? && ItemPoints(a) == pa
    requires ValidItem(b) && ParseSignedCents(b.price).Some? && ItemPoints(b) == pb
    requires ValidItem(c) && ParseSignedCents(c.price).Some? && ItemPoints(c) == pc
    requires ValidItem(d) && ParseSignedCents(d.price).Some? && ItemPoints(d) == pd
    ensures ScoredItems([a] + [b] + [c] + [d], pa + pb + pc + pd)
  {
    Scored2(a, b, pa, pb);
    ScoredSnoc([a] + [b], c, pa + pb, pc);
    ScoredSnoc([a] + [b] + [c], d, pa + pb + pc, pd);
  }

  lemma Scored5(a: Item, b: Item, c: Item, d: Item, e: Item, pa: nat, pb: nat, pc: nat, pd: nat, pe: nat)
    requires ValidItem(a) && ParseSignedCents(a.price).Some? && ItemPoints(a) == pa
    requires ValidItem(b) && ParseSignedCents(b.price).Some? && ItemPoints(b) == pb
    requires ValidItem(c) && ParseSignedCents(c.price).Some? && ItemPoints(c) == pc
    requires ValidItem(d) && ParseSignedCents(d.price).Some? && ItemPoints(d) == pd
    requires ValidItem(e) && ParseSignedCents(e.price).Some? && ItemPoints(e) == pe
    ensures ScoredItems([a] + [b] + [c] + [d] + [e], pa + pb + pc + pd + pe)
  {
    Scored4(a, b, c, d, pa, pb, pc, pd);
    ScoredSnoc([a] + [b] + [c] + [d], e, pa + pb + pc + pd, pe);
  }

  /** A receipt whose fields pass validation, with the points each rule gives it. */
  lemma ReceiptScore(r: Receipt, retailer: nat, total: nat, descriptions: nat, date: nat, time: nat)
    requires MatchesRetailer(r.retailer) && RetailerPoints(r.retailer) == retailer
    requires IsPurchaseDate(r.purchaseDate) && DatePoints(r) == date
    requires IsPurchaseTime(r.purchaseTime) && TimePoints(r) == time
    requires |r.items| >= 1 && ScoredItems(r.items, descriptions)
    requires MatchesAmount(r.total) && TotalPoints(r) == total
    ensures ValidReceipt(r)
    ensures ReceiptPoints(r) == retailer + total + (|r.items| / 2) * 5 + descriptions + date + time
  {
  }

  // Each receipt: its items, then each field on its own, then the sum.

  lemma GoodReceipt1Items(items: seq<Item>)
    requires items == GoodReceipt1.items
    ensures ScoredItems(items, 0)
  {
    assert items == [Gatorade] + [Gatorade] + [Gatorade] + [Gatorade];
    GatoradeItem(Gatorade);
    Scored4(Gatorade, Gatorade, Gatorade, Gatorade, 0, 0, 0, 0);
  }

  lemma GoodReceipt1Date(r: Receipt)
    requires r == GoodReceipt1
    ensures IsPurchaseDate(r.purchaseDate) && DatePoints(r) == 0
  {
    IsoDateOf(r, 2022, 3, 20);
  }

  lemma GoodReceipt1Time(r: Receipt)
    requires r == GoodReceipt1
    ensures IsPurchaseTime(r.purchaseTime) && TimePoints(r) == 10
  {
    ClockOf(r, 14, 33);
  }

  lemma GoodReceipt1Total(r: Receipt)
    requires r == GoodReceipt1
    ensures MatchesAmount(r.total) && TotalPoints(r) == 75
  {
    TotalOf(r);
  }

  lemma GoodReceipt1Retailer(r: Receipt)
    requires r == GoodReceipt1
    ensures MatchesRetailer(r.retailer) && RetailerPoints(r.retailer) == 14
  {
    CornerMarketPoints(r.retailer);
  }

  /** 14 for the name, 50 + 25 for a round total, 10 for two pairs of items, 10 for 14:33. */
  lemma GoodReceipt1Points(r: Receipt)
    requires r == GoodReceipt1
    ensures ValidReceipt(r) && ReceiptPoints(r) == 109
  {
    GoodReceipt1Items(r.items);
    GoodReceipt1Date(r);
    GoodReceipt1Time(r);
    GoodReceipt1Total(r);
    GoodReceipt1Retailer(r);
    ReceiptScore(r, 14, 75, 0, 0, 10);
  }

  lemma GoodReceipt2Items(items: seq<Item>)
    requires items == GoodReceipt2.items
    ensures ScoredItems(items, 6)
  {
    assert items == [MountainDew] + [EmilsPizza] + [KnorrChicken] + [Doritos] + [Klarbrunn];
    MountainDewItem(MountainDew);
    EmilsPizzaItem(EmilsPizza);
    KnorrChickenItem(KnorrChicken);
    DoritosItem(Doritos);
    KlarbrunnItem(Klarbrunn);
    Scored5(MountainDew, EmilsPizza, KnorrChicken, Doritos, Klarbrunn, 0, 3, 0, 0, 3);
  }

  lemma GoodReceipt2Date(r: Receipt)
    requires r == GoodReceipt2
    ensures IsPurchaseDate(r.purchaseDate) && DatePoints(r) == 6
  {
    IsoDateOf(r, 2022, 1, 1);
  }

  lemma GoodReceipt2Time(r: Receipt)
    requires r == GoodReceipt2
    ensures IsPurchaseTime(r.purchaseTime) && TimePoints(r) == 0
  {
    ClockOf(r, 13, 1);
  }

  lemma GoodReceipt2Total(r: Receipt)
    requires r == GoodReceipt2
    ensures MatchesAmount(r.total) && TotalPoints(r) == 0
  {
    TotalOf(r);
  }

  lemma GoodReceipt2Retailer(r: Receipt)
    requires r == GoodReceipt2
    ensures MatchesRetailer(r.retailer) && RetailerPoints(r.retailer) == 6
  {
    RetailerPointsAllAlnum(r.retailer);
  }

  /** 6 for the name, 10 for two pairs of items, 3 + 3 for two descriptions, 6 for the odd day. */
  lemma GoodReceipt2Points(r: Receipt)
    requires r == GoodReceipt2
    ensures ValidReceipt(r) && ReceiptPoints(r) == 28
  {
    GoodReceipt2Items(r.items);
    GoodReceipt2Date(r);
    GoodReceipt2Time(r);
    GoodReceipt2Total(r);
    GoodReceipt2Retailer(r);
    ReceiptScore(r, 6, 0, 6, 6, 0);
  }

  lemma GoodReceipt3Items(items: seq<Item>)
    requires items == GoodReceipt3.items
    ensures ScoredItems(items, 1)
  {
    assert items == [Pepsi] + [Dasani];
    PepsiItem(Pepsi);
    DasaniItem(Dasani);
    Scored2(Pepsi, Dasani, 0, 1);
  }

  lemma GoodReceipt3Date(r: Receipt)
    requires r == GoodReceipt3
    ensures IsPurchaseDate(r.purchaseDate) && DatePoints(r) == 0
  {
    IsoDateOf(r, 2022, 1, 2);
  }

  lemma GoodReceipt3Time(r: Receipt)
    requires r == GoodReceipt3
    ensures IsPurchaseTime(r.purchaseTime) && TimePoints(r) == 0
  {
    ClockOf(r, 8, 13);
  }

  lemma GoodReceipt3Total(r: Receipt)
    requires r == GoodReceipt3
    ensures MatchesAmount(r.total) && TotalPoints(r) == 0
  {
    TotalOf(r);
  }

  lemma GoodReceipt3Retailer(r: Receipt)
    requires r == GoodReceipt3
    ensures MatchesRetailer(r.retailer) && RetailerPoints(r.retailer) == 9
  {
    RetailerPointsAllAlnum(r.retailer);
  }

  /** 9 for the name, 5 for one pair of items, 1 for "Dasani". */
  lemma GoodReceipt3Points(r: Receipt)
    requires r == GoodReceipt3
    ensures ValidReceipt(r) && ReceiptPoints(r) == 15
  {
    GoodReceipt3Items(r.items);
    GoodReceipt3Date(r);
    GoodReceipt3Time(r);
    GoodReceipt3Total(r);
    GoodReceipt3Retailer(r);
    ReceiptScore(r, 9, 0, 1, 0, 0);
  }

  lemma GoodReceipt4Items(items: seq<Item>)
    requires items == GoodReceipt4.items
    ensures ScoredItems(items, 0)
  {
    PepsiItem(Pepsi);
    Scored1(Pepsi, 0);
  }

  lemma GoodReceipt4Date(r: Receipt)
    requires r == GoodReceipt4
    ensures IsPurchaseDate(r.purchaseDate) && DatePoints(r) == 0
  {
    IsoDateOf(r, 2022, 1, 2);
  }

  lemma GoodReceipt4Time(r: Receipt)
    requires r == GoodReceipt4
    ensures IsPurchaseTime(r.purchaseTime) && TimePoints(r) == 0
  {
    ClockOf(r, 13, 13);
  }

  lemma GoodReceipt4Total(r: Receipt)
    requires r == GoodReceipt4
    ensures MatchesAmount(r.total) && TotalPoints(r) == 25
  {
    TotalOf(r);
  }

  lemma GoodReceipt4Retailer(r: Receipt)
    requires r == GoodReceipt4
    ensures MatchesRetailer(r.retailer) && RetailerPoints(r.retailer) == 6
  {
    RetailerPointsAllAlnum(r.retailer);
  }

  /** 6 for the name, 25 for a total that is a multiple of 0.25. */
  lemma GoodReceipt4Points(r: Receipt)
    requires r == GoodReceipt4
    ensures ValidReceipt(r) && ReceiptPoints(r) == 31
  {
    GoodReceipt4Items(r.items);
    GoodReceipt4Date(r);
    GoodReceipt4Time(r);
    GoodReceipt4Total(r);
    GoodReceipt4Retailer(r);
    ReceiptScore(r, 6, 25, 0, 0, 0);
  }

  // ------------------------------------------------------------ bad receipts

  /** A valid receipt whose date is replaced by a string too short for any format. */
  lemma DateOnlyViolation(g: Receipt, date: string)
    requires ValidReceipt(g) && |date| < 5
    ensures Violations(g.(purchaseDate := date)) == [PurchaseDateFormat]
  {
    ShortDateInvalid(date);
  }

  /** A valid receipt whose retailer is replaced by a name the pattern rejects. */
  lemma RetailerOnlyViolation(g: Receipt, name: string)
    requires ValidReceipt(g) && !MatchesRetailer(name)
    ensures Violations(g.(retailer := name)) == [RetailerPattern]
  {
  }

  lemma CaretsRejected(name: string)
    requires name == "Target^^"
    ensures !MatchesRetailer(name)
  {
    assert name[6] == '^';
  }

  /** "2" is no date: the submission is rejected for its date alone. */
  lemma BadReceipt1Rejected(r: Receipt)
    requires r == BadReceipt1
    ensures Violations(r) == [PurchaseDateFormat] && Validate(r) == Err([PurchaseDateFormat])
  {
    GoodReceipt1Points(GoodReceipt1);
    DateOnlyViolation(GoodReceipt1, "2");
  }

  /** "Target^^" breaks the retailer pattern: the submission is rejected for its name alone. */
  lemma BadReceipt2Rejected(r: Receipt)
    requires r == BadReceipt2
    ensures Violations(r) == [RetailerPattern] && Validate(r) == Err([RetailerPattern])
  {
    GoodReceipt2Points(GoodReceipt2);
    CaretsRejected("Target^^");
    RetailerOnlyViolation(GoodReceipt2, "Target^^");
  }

  // ------------------------------------------------------------ the store
  // The API tests, each against a store in any valid state. The id stands
  // for the UUID the service draws; the tests never see its value.

  /**
    A submission as the API receives it: validated first, and stored under
    `id` only when it passes.
  */
  method Submit(store: ReceiptProcessor, r: Receipt, id: string) returns (res: Result<string, seq<Violation>>)
    requires store.Valid() && id !in store.receipts && IsIdResponse(id)
    modifies store
    ensures store.Valid()
    ensures res == (if ValidReceipt(r) then Ok(id) else Err(Violations(r)))
    ensures store.receipts == if ValidReceipt(r) then old(store.receipts)[id := r] else old(store.receipts)
    ensures store.points == old(store.points)
  {
    var checked := Validate(r);
    if checked.Ok? {
      var receiptId := store.ProcessReceipt(r, id);
      res := Ok(receiptId);
    } else {
      res := Err(checked.error);
    }
  }

  /** Post a valid receipt, then read its points back under the id the post returned. */
  method PostThenGet(store: ReceiptProcessor, r: Receipt, id: string) returns (posted: Result<string, seq<Violation>>, got: Option<int>)
    requires store.Valid() && ValidReceipt(r)
    requires id !in store.receipts && IsIdResponse(id)
    modifies store
    ensures store.Valid()
    ensures store.receipts == old(store.receipts)[id := r]
    ensures posted == Ok(id) && got == Some(ReceiptPoints(r))
  {
    posted := Submit(store, r, id);
    got := store.GetTotalPoints(posted.value);
  }

  /** `test_good_receipt_1`: the post returns the new id and the points read back are 109. */
  method TestGoodReceipt1(store: ReceiptProcessor, id: string) returns (posted: Result<string, seq<Violation>>, got: Option<int>)
    requires store.Valid() && id !in store.receipts && IsIdResponse(id)
    modifies store
    ensures posted == Ok(id) && got == Some(109)
  {
    GoodReceipt1Points(GoodReceipt1);
    posted, got := PostThenGet(store, GoodReceipt1, id);
  }

  /** `test_good_receipt_2`: the post returns the new id and the points read back are 28. */
  method TestGoodReceipt2(store: ReceiptProcessor, id: string) returns (posted: Result<string, seq<Violation>>, got: Option<int>)
    requires store.Valid() && id !in store.receipts && IsIdResponse(id)
    modifies store
    ensures posted == Ok(id) && got == Some(28)
  {
    GoodReceipt2Points(GoodReceipt2);
    posted, got := PostThenGet(store, GoodReceipt2, id);
  }

  /** `test_good_receipt_3`: the post returns the new id and the points read back are 15. */
  method TestGoodReceipt3(store: ReceiptProcessor, id: string) returns (posted: Result<string, seq<Violation>>, got: Option<int>)
    requires store.Valid() && id !in store.receipts && IsIdResponse(id)
    modifies store
    ensures posted == Ok(id) && got == Some(15)
  {
    GoodReceipt3Points(GoodReceipt3);
    posted, got := PostThenGet(store, GoodReceipt3, id);
  }

  /** `test_good_receipt_4`: the post returns the new id and the points read back are 31. */
  method TestGoodReceipt4(store: ReceiptProcessor, id: string) returns (posted: Result<string, seq<Violation>>, got: Option<int>)
    requires store.Valid() && id !in store.receipts && IsIdResponse(id)
    modifies store
    ensures posted == Ok(id) && got == Some(31)
  {
    GoodReceipt4Points(GoodReceipt4);
    posted, got := PostThenGet(store, GoodReceipt4, id);
  }

  /**
    `test_bad_receipt_1`: the post is refused with the one violation, nothing
    is stored, and the id "None" the test then asks for is unknown.
  */
  method TestBadReceipt1(store: ReceiptProcessor, id: string) returns (posted: Result<string, seq<Violation>>, got: Option<int>)
    requires store.Valid() && id !in store.receipts && IsIdResponse(id)
    requires "None" !in store.receipts
    modifies store
    ensures posted == Err([PurchaseDateFormat]) && got == None
    ensures store.receipts == old(store.receipts) && store.points == old(store.points)
  {
    BadReceipt1Rejected(BadReceipt1);
    posted := Submit(store, BadReceipt1, id);
    got := store.GetTotalPoints("None");
  }

  /**
    `test_bad_receipt_2`: the post is refused with the one violation, nothing
    is stored, and the id "None" the test then asks for is unknown.
  */
  method TestBadReceipt2(store: ReceiptProcessor, id: string) returns (posted: Result<string, seq<Violation>>, got: Option<int>)
    requires store.Valid() && id !in store.receipts && IsIdResponse(id)
    requires "None" !in store.receipts
    modifies store
    ensures posted == Err([RetailerPattern]) && got == None
    ensures store.receipts == old(store.receipts) && store.points == old(store.points)
  {
    BadReceipt2Rejected(BadReceipt2);
    posted := Submit(store, BadReceipt2, id);
    got := store.GetTotalPoints("None");
  }
}
