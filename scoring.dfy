/**
  The six points rules of `ReceiptProcessor` and their sum. Each rule is a
  function; the three rules the service computes with an accumulating loop
  also have a method with that loop, proved equal to the function.
*/
module Scoring {
  import opened Wrappers
  import opened Chars
  import opened Numerals
  import opened StrPTime
  import opened Schema

  // ------------------------------------------------- rule 1: retailer name

  /** One point per alphanumeric character of the retailer name. */
  function RetailerPoints(name: string): (p: nat)
    ensures p <= |name|
  {
    if name == [] then 0
    else RetailerPoints(name[..|name| - 1]) + (if IsAlnum(name[|name| - 1]) then 1 else 0)
  }

  /** The positions of `name` holding an alphanumeric character. */
  function AlnumPositions(name: string): set<nat>
  {
    set i: nat | i < |name| && IsAlnum(name[i])
  }

  /** The retailer points are the number of alphanumeric characters of the name. */
  lemma {:induction false} RetailerPointsCountsAlnum(name: string)
    ensures RetailerPoints(name) == |AlnumPositions(name)|
  {
    if name != [] {
      var n := |name| - 1;
      var init := name[..n];
      RetailerPointsCountsAlnum(init);
      if IsAlnum(name[n]) {
        assert AlnumPositions(name) == AlnumPositions(init) + {n};
      } else {
        assert AlnumPositions(name) == AlnumPositions(init);
      }
    }
  }

  lemma {:induction false} RetailerPointsAppend(a: string, b: string)
    ensures RetailerPoints(a + b) == RetailerPoints(a) + RetailerPoints(b)
    decreases |b|
  {
    if b == [] {
      assert a + b == a;
    } else {
      var n := |b| - 1;
      assert (a + b)[..|a + b| - 1] == a + b[..n];
      RetailerPointsAppend(a, b[..n]);
    }
  }

  /** A name made only of letters and digits earns one point per character. */
  lemma {:induction false} RetailerPointsAllAlnum(name: string)
    requires forall i :: 0 <= i < |name| ==> IsAlnum(name[i])
    ensures RetailerPoints(name) == |name|
  {
    if name != [] {
      RetailerPointsAllAlnum(name[..|name| - 1]);
    }
  }

  /** Space, hyphen, ampersand and underscore earn nothing: removing one leaves the points unchanged. */
  lemma SeparatorScoresNothing(a: string, c: char, b: string)
    requires c == ' ' || c == '-' || c == '&' || c == '_'
    ensures RetailerPoints(a + [c] + b) == RetailerPoints(a + b)
  {
    RetailerPointsAppend(a + [c], b);
    RetailerPointsAppend(a, [c]);
    RetailerPointsAppend(a, b);
    assert [c][..0] == [];
  }

  /** `calculate_points_from_retailer`. */
  method CalculatePointsFromRetailer(r: Receipt) returns (points: nat)
    ensures points == RetailerPoints(r.retailer)
  {
    points := 0;
    for i := 0 to |r.retailer|
      invariant points == RetailerPoints(r.retailer[..i])
    {
      assert r.retailer[..i + 1][..i] == r.retailer[..i];
      if IsAlnum(r.retailer[i]) {
        points := points + 1;
      }
    }
    assert r.retailer[..|r.retailer|] == r.retailer;
  }

  // ----------------------------------------------------- rule 2: the total

  /** 50 points for a round-dollar total, 25 more for a multiple of a quarter. */
  function TotalPoints(r: Receipt): (p: nat)
    requires ParseSignedCents(r.total).Some?
    ensures p == 0 || p == 25 || p == 75
  {
    var cents := TotalAsCents(r);
    (if cents % 100 == 0 then 50 else 0) + (if cents % 25 == 0 then 25 else 0)
  }

  /** The three possible scores, each with the exact condition on the cents that gives it. */
  lemma TotalPointsByCents(r: Receipt)
    requires ParseSignedCents(r.total).Some?
    ensures var c := TotalAsCents(r);
      && (TotalPoints(r) == 75 <==> c % 100 == 0)
      && (TotalPoints(r) == 25 <==> c % 25 == 0 && c % 100 != 0)
      && (TotalPoints(r) == 0 <==> c % 25 != 0)
  {
  }

  /** On the written total: 75 when its cents read "00", 25 when they read "25", "50" or "75", else 0. */
  lemma TotalPointsByCentDigits(r: Receipt)
    requires MatchesAmount(r.total)
    ensures var cents := r.total[|r.total| - 2..];
      TotalPoints(r) == if cents == "00" then 75 else if cents in {"25", "50", "75"} then 25 else 0
  {
    var s := r.total;
    var c0, c1 := s[|s| - 2], s[|s| - 1];
    assert s[|s| - 2..] == [c0, c1];
    TotalCentsByDigits(r);
    CentDigits(c0, c1);
  }

  /** The total in cents agrees with its last two digits modulo 100. */
  lemma TotalCentsByDigits(r: Receipt)
    requires MatchesAmount(r.total)
    ensures var s := r.total;
      var v := 10 * DigitValue(s[|s| - 2]) + DigitValue(s[|s| - 1]);
      && ParseSignedCents(s).Some?
      && TotalAsCents(r) % 100 == v && TotalAsCents(r) % 25 == v % 25
  {
    var s := r.total;
    var cents := s[|s| - 2..];
    TwoDigitValue(cents);
    TotalClampUnreachable(r);
    CentsModulo(Value(s[..|s| - 3]), Value(cents));
  }

  /** Whole dollars never change the cents modulo 100 or 25. */
  lemma CentsModulo(dollars: nat, v: nat)
    requires v < 100
    ensures (dollars * 100 + v) % 100 == v && (dollars * 100 + v) % 25 == v % 25
  {
    assert dollars * 100 + v == (dollars * 4) * 25 + v;
  }

  lemma CentDigits(c0: char, c1: char)
    requires IsDigit(c0) && IsDigit(c1)
    ensures var v := 10 * DigitValue(c0) + DigitValue(c1);
      && (v == 0 <==> [c0, c1] == "00")
      && (v % 25 == 0 && v != 0 <==> [c0, c1] in {"25", "50", "75"})
  {
  }

  // ------------------------------------------------ rule 3: number of items

  /** Five points for every two items: the largest multiple of 5 whose double is at most 5 per item. */
  function ItemCountPoints(r: Receipt): (p: nat)
    ensures p % 5 == 0 && 2 * p <= 5 * |r.items| < 2 * p + 10
  {
    (|r.items| / 2) * 5
  }

  /** Adding two items adds five points; fewer than two items earn nothing. */
  lemma ItemCountPointsPerPair(r: Receipt, a: Item, b: Item)
    ensures ItemCountPoints(r.(items := r.items + [a, b])) == ItemCountPoints(r) + 5
    ensures |r.items| <= 1 ==> ItemCountPoints(r) == 0
  {
  }

  // --------------------------------------------- rule 4: item descriptions

  /** The position of the first non-whitespace character at or after `i`, or `|s|` if there is none. */
  function SkipLeading(s: string, i: nat): (k: nat)
    requires i <= |s|
    ensures i <= k <= |s|
    ensures forall p :: i <= p < k ==> IsSpace(s[p])
    ensures k == |s| || !IsSpace(s[k])
    decreases |s| - i
  {
    if i < |s| && IsSpace(s[i]) then SkipLeading(s, i + 1) else i
  }

  /** The position just after the last non-whitespace character before `j`, or `lo` if there is none from `lo` on. */
  function SkipTrailing(s: string, lo: nat, j: nat): (k: nat)
    requires lo <= j <= |s|
    ensures lo <= k <= j
    ensures forall p :: k <= p < j ==> IsSpace(s[p])
    ensures k == lo || !IsSpace(s[k - 1])
    decreases j
  {
    if lo < j && IsSpace(s[j - 1]) then SkipTrailing(s, lo, j - 1) else j
  }

  /**
    `str.strip()`: leading and trailing whitespace removed, interior
    whitespace kept. StripBetween and StripOfWhitespace below pin down
    exactly which part of `s` is kept.
  */
  function Strip(s: string): (r: string)
    ensures |r| <= |s|
    ensures r == [] || (!IsSpace(r[0]) && !IsSpace(r[|r| - 1]))
  {
    var i := SkipLeading(s, 0);
    s[i..SkipTrailing(s, i, |s|)]
  }

  /**
    Strip keeps exactly the part from the first to the last non-whitespace
    character.
  */
  lemma StripBetween(s: string, i: nat, j: nat)
    requires i < j <= |s|
    requires forall k :: 0 <= k < i ==> IsSpace(s[k])
    requires forall k :: j <= k < |s| ==> IsSpace(s[k])
    requires !IsSpace(s[i]) && !IsSpace(s[j - 1])
    ensures Strip(s) == s[i..j]
  {
  }

  /** A description made only of whitespace strips to nothing. */
  lemma StripOfWhitespace(s: string)
    requires forall i :: 0 <= i < |s| ==> IsSpace(s[i])
    ensures Strip(s) == []
  {
  }

  /** `math.ceil(c / 100 * 0.2)`: the least whole number of points worth at least a fifth of the price. */
  function CeilFifth(cents: nat): (k: nat)
    ensures 500 * k >= cents
    ensures k == 0 || 500 * (k - 1) < cents
  {
    (cents + 499) / 500
  }

  /** The points one item earns: a fifth of its price, rounded up, when its stripped description length is a multiple of 3. */
  function ItemPoints(item: Item): (p: nat)
    requires ParseSignedCents(item.price).Some?
    ensures p == 0 || p == CeilFifth(PriceAsCents(item))
    ensures p > 0 ==> |Strip(item.shortDescription)| % 3 == 0
  {
    if |Strip(item.shortDescription)| % 3 == 0 then CeilFifth(PriceAsCents(item)) else 0
  }

  /** A description of whitespace alone strips to length 0, a multiple of 3, so the item earns a fifth of its price. */
  lemma BlankDescriptionScores(item: Item)
    requires ParseSignedCents(item.price).Some?
    requires forall i :: 0 <= i < |item.shortDescription| ==> IsSpace(item.shortDescription[i])
    ensures ItemPoints(item) == CeilFifth(PriceAsCents(item))
  {
    StripOfWhitespace(item.shortDescription);
  }

  predicate PricesParse(items: seq<Item>)
  {
    forall i :: 0 <= i < |items| ==> ParseSignedCents(items[i].price).Some?
  }

  /** The description points of a sequence of items: the sum of their item points. */
  function DescriptionPoints(items: seq<Item>): (p: nat)
    requires PricesParse(items)
    ensures p == 0 <==> forall item :: item in items ==> ItemPoints(item) == 0
  {
    if items == [] then 0
    else
      assert items == items[..|items| - 1] + [items[|items| - 1]];
      DescriptionPoints(items[..|items| - 1]) + ItemPoints(items[|items| - 1])
  }

  /** Appending one item adds its points. */
  lemma DescriptionPointsSnoc(a: seq<Item>, x: Item)
    requires PricesParse(a) && ParseSignedCents(x.price).Some?
    ensures PricesParse(a + [x])
    ensures DescriptionPoints(a + [x]) == DescriptionPoints(a) + ItemPoints(x)
  {
    var ax := a + [x];
    assert forall i :: 0 <= i < |ax| ==> ax[i] == if i < |a| then a[i] else x;
    assert ax[..|ax| - 1] == a;
  }

  /** The points of a prefix one item longer add that item's points. */
  lemma DescriptionPointsPrefix(items: seq<Item>, i: nat)
    requires PricesParse(items) && i < |items|
    ensures PricesParse(items[..i]) && PricesParse(items[..i + 1])
    ensures DescriptionPoints(items[..i + 1]) == DescriptionPoints(items[..i]) + ItemPoints(items[i])
  {
    assert items[..i + 1] == items[..i] + [items[i]];
    DescriptionPointsSnoc(items[..i], items[i]);
  }

  /** The description points of a list are the sum over any split of it. */
  lemma {:induction false} DescriptionPointsAppend(a: seq<Item>, b: seq<Item>)
    requires PricesParse(a) && PricesParse(b)
    ensures PricesParse(a + b)
    ensures DescriptionPoints(a + b) == DescriptionPoints(a) + DescriptionPoints(b)
    decreases |b|
  {
    if b == [] {
      assert a + b == a;
    } else {
      var n := |b| - 1;
      var init, x := b[..n], b[n];
      assert b == init + [x];
      assert a + b == (a + init) + [x];
      assert PricesParse(init);
      DescriptionPointsAppend(a, init);
      DescriptionPointsSnoc(a + init, x);
      DescriptionPointsSnoc(init, x);
    }
  }

  /** Only items whose stripped description length is a multiple of 3 earn anything. */
  lemma {:induction false} DescriptionPointsZero(items: seq<Item>)
    requires PricesParse(items)
    requires forall i :: 0 <= i < |items| ==> |Strip(items[i].shortDescription)| % 3 != 0
    ensures DescriptionPoints(items) == 0
  {
    if items != [] {
      DescriptionPointsZero(items[..|items| - 1]);
    }
  }

  /** `calculate_points_from_item_description` with its default multiplier 0.2. */
  method CalculatePointsFromItemDescription(r: Receipt) returns (points: nat)
    requires PricesParse(r.items)
    ensures points == DescriptionPoints(r.items)
  {
    points := 0;
    for i := 0 to |r.items|
      invariant points == DescriptionPoints(r.items[..i])
    {
      var item := r.items[i];
      DescriptionPointsPrefix(r.items, i);
      if |Strip(item.shortDescription)| % 3 == 0 {
        points := points + CeilFifth(PriceAsCents(item));
      }
    }
    assert r.items[..|r.items|] == r.items;
  }

  // ----------------------------------------------------- rule 5: odd day

  /** Format `k` parses the date and its day is odd. */
  predicate OddDayUnder(s: string, k: nat)
    requires k < |DateFormats|
  {
    Parse(s, DateFormats[k]).Some? && Parse(s, DateFormats[k]).value.day % 2 == 1
  }

  /**
    Trying the formats from the `k`-th on: 6 points at the first one that
    parses the date with an odd day; a parse with an even day goes on to the
    next format.
  */
  function DatePointsFrom(s: string, k: nat): (p: nat)
    requires k <= |DateFormats|
    ensures p == 0 || p == 6
    ensures p == 6 <==> exists j :: k <= j < |DateFormats| && OddDayUnder(s, j)
    decreases |DateFormats| - k
  {
    if k == |DateFormats| then 0
    else if OddDayUnder(s, k) then 6
    else DatePointsFrom(s, k + 1)
  }

  /** 6 exactly when some accepted format reads the date with an odd day; such a date is valid. */
  function DatePoints(r: Receipt): (p: nat)
    ensures p == 0 || p == 6
    ensures p == 6 <==> exists k :: 0 <= k < |DateFormats| && OddDayUnder(r.purchaseDate, k)
    ensures p == 6 ==> IsPurchaseDate(r.purchaseDate)
  {
    DatePointsFrom(r.purchaseDate, 0)
  }

  /** A `dddd-dd-dd` date scores 6 exactly when %Y-%m-%d parses it with an odd day. */
  lemma IsoDatePoints(r: Receipt)
    requires IsoShaped(r.purchaseDate)
    ensures var parsed := Parse(r.purchaseDate, IsoDate);
      DatePoints(r) == if parsed.Some? && parsed.value.day % 2 == 1 then 6 else 0
  {
    IsoShapedOnlyIsoDate(r.purchaseDate);
    assert DateFormats[3] == IsoDate;
  }

  /** A calendar date written `YYYY-MM-DD` scores 6 points exactly when its day is odd. */
  lemma RenderedIsoDatePoints(r: Receipt, y: nat, m: nat, d: nat)
    requires IsCalendarStamp(Stamp(y, m, d, 0, 0))
    requires r.purchaseDate == Digits(y, 4) + "-" + Digits(m, 2) + "-" + Digits(d, 2)
    ensures DatePoints(r) == if d % 2 == 1 then 6 else 0
  {
    DigitsWidth(y, 4);
    DigitsWidth(m, 2);
    DigitsWidth(d, 2);
    IsoShape(Digits(y, 4), Digits(m, 2), Digits(d, 2));
    IsoDateRoundTrip(y, m, d);
    IsoDatePoints(r);
  }

  /** `calculate_points_from_purchase_date`. */
  method CalculatePointsFromPurchaseDate(r: Receipt) returns (points: nat)
    ensures points == DatePoints(r)
  {
    points := 0;
    var k := 0;
    while k < |DateFormats|
      invariant 0 <= k <= |DateFormats|
      invariant points == 0 && DatePoints(r) == DatePointsFrom(r.purchaseDate, k)
    {
      var parsed := Parse(r.purchaseDate, DateFormats[k]);
      if parsed.Some? && parsed.value.day % 2 == 1 {
        points := points + 6;
        break;
      }
      k := k + 1;
    }
  }

  // ---------------------------------------------------- rule 6: afternoon

  /** 10 points for a purchase strictly after 14:00 and strictly before 16:00. */
  function TimePoints(r: Receipt): (p: nat)
    requires IsPurchaseTime(r.purchaseTime)
    ensures p == 0 || p == 10
  {
    var t := Parse(r.purchaseTime, TimeFormat).value;
    if 14 * 60 < t.hour * 60 + t.minute < 16 * 60 then 10 else 0
  }

  /** On the written time: 10 points exactly for 14:01 through 15:59. */
  lemma TimePointsWindow(r: Receipt, p: nat)
    requires ClockShape(r.purchaseTime, p)
    ensures IsPurchaseTime(r.purchaseTime)
    ensures var h, m := Value(r.purchaseTime[..p]), Value(r.purchaseTime[p + 1..]);
      TimePoints(r) == if (h == 14 && m >= 1) || h == 15 then 10 else 0
  {
    TimeParseIff(r.purchaseTime);
  }

  // ------------------------------------------------------------------ sum

  /** `sum_of_points`: the six rules added up. */
  function ReceiptPoints(r: Receipt): (p: int)
    requires ValidReceipt(r)
    ensures IsPointsResponse(p)
  {
    TotalClampUnreachable(r);
    assert PricesParse(r.items) by {
      forall i | 0 <= i < |r.items| ensures ParseSignedCents(r.items[i].price).Some? {
        PriceClampUnreachable(r.items[i]);
      }
    }
    RetailerPoints(r.retailer) + TotalPoints(r) + ItemCountPoints(r)
      + DescriptionPoints(r.items) + DatePoints(r) + TimePoints(r)
  }

  /** `sum_of_points`, calling the rule implementations. */
  method SumOfPoints(r: Receipt) returns (points: int)
    requires ValidReceipt(r)
    ensures points == ReceiptPoints(r)
  {
    TotalClampUnreachable(r);
    forall i | 0 <= i < |r.items| ensures ParseSignedCents(r.items[i].price).Some? {
      PriceClampUnreachable(r.items[i]);
    }
    var retailer := CalculatePointsFromRetailer(r);
    var description := CalculatePointsFromItemDescription(r);
    var date := CalculatePointsFromPurchaseDate(r);
    points := retailer + TotalPoints(r) + ItemCountPoints(r) + description + date + TimePoints(r);
  }
}
