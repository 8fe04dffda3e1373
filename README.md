# Receipt points: a verified model

This project models the core of a small receipt-points web service. A client
posts a receipt (retailer name, purchase date and time, a list of items with
short descriptions and prices, a total). The service validates the receipt,
stores it under a fresh id, and on request returns the points it earns under
six rules:

- one point per alphanumeric character of the retailer name;
- 50 points for a round-dollar total, plus 25 for a multiple of 0.25;
- 5 points per pair of items;
- for each item whose stripped description length is a multiple of 3, a
  fifth of its price rounded up;
- 6 points for an odd purchase day;
- 10 points for a purchase time strictly between 14:00 and 16:00.

Layout:

- `wrappers.dfy`: `Option` and `Result`.
- `chars.dfy`: ASCII character classes, for both the regex classes and
  Python's `str` methods.
- `numerals.dfy`: decimal digit strings and their values.
- `strptime.dfy`: the part of `datetime.strptime` the service uses. It covers
  the seven formats, the matcher and the calendar checks.
- `schema.py` → `schema.dfy`: field patterns, money as integer cents, the
  negative-amount clamps, the date and time validators, the list of
  violations, and the response constraints.
- `receipt_processor.py` → `scoring.dfy`: one function per rule and their sum.
  The rules the source writes as accumulating loops also get a method with
  that loop, proved equal to the function.
- `receipt_processor.py` → `store.dfy`: the `ReceiptProcessor` class with its
  `receipts` and `points` maps and its lazy points cache.
- `examples.dfy`: the receipts from the API tests, with their validation
  outcome and points, and the tests as store scenarios.

Money is a whole number of cents. Amounts must match `^\d+\.\d{2}$`, so
every accepted value has this form, and the float tests of the source become
exact integer tests:

- `is_integer()` becomes `c % 100 == 0`;
- `(x * 100) % 25 == 0` becomes `c % 25 == 0`;
- `ceil(x * 0.2)` becomes `(c + 499) / 500`.

Three behaviours of the code are easy to miss, and the model follows the code in each:

- Points are computed lazily, on the first lookup, and then cached. They are
  not computed at submission. Because the cache test is `if not points`, a
  cached 0 is computed again on every lookup. The answer is still the same
  each time (`Store.ReceiptProcessor.LookUpTwice`).
- `%H:%M` accepts one-digit hours and minutes, such as `8:5`. It is not
  limited to strict `HH:MM` (`StrPTime.TimeParseIff`).
- "M&M Corner Market" has 14 alphanumeric characters, not 16. The first test
  receipt totals 109 only with 14 (`Examples.CornerMarketPoints`).

## Model

| member | source | states |
|---|---|---|
| StrPTime.MonthNameFrom | app/core/schemas/schema.py:35-36 | `%B`: the index found names a month whose name fits in the rest of the text |
| StrPTime.MonthNameFound | app/core/schemas/schema.py:35-36 | `%B`: the month name found stands at the position, matched case-insensitively, and no other month name does; when none is found, no month name stands there |
| StrPTime.Parse | app/core/schemas/schema.py:44 | a successful `strptime` yields a real calendar date and time: month 1-12, a day within the month with leap years counted, hour 0-23, minute 0-59 |
| StrPTime.MatchConsumes | app/core/schemas/schema.py:44 | every directive consumes at least one character, so a format with n directives needs at least n characters |
| StrPTime.MatchLitStep | app/core/schemas/schema.py:44 | the matcher, at a literal: the character is consumed when it is there, and matching goes on from the next position |
| StrPTime.MatchNumberStep | app/core/schemas/schema.py:44 | the matcher, at a numeric directive: the whole run of digits is consumed when its width and value are in range, and the field is set to its value |
| StrPTime.MatchNameStep | app/core/schemas/schema.py:35-36 | the matcher, at `%B`: where a month name stands, in any letter case, it is consumed and the month is set to its number |
| StrPTime.ShortDateRejected | app/core/schemas/schema.py:34-47 | no accepted date format parses a string shorter than five characters |
| StrPTime.NumberTooWide | app/core/schemas/schema.py:37-40 | a numeric field fails on a run of digits wider than it allows |
| StrPTime.NoMonthNameAtDigit | app/core/schemas/schema.py:35-36 | `%B` fails on a digit |
| StrPTime.IsoShapedOnlyIsoDate | app/core/schemas/schema.py:34-41 | a `dddd-dd-dd` string is refused by every format except `%Y-%m-%d` |
| StrPTime.IsoDateMatches | app/core/schemas/schema.py:38 | a `dddd-dd-dd` string with month and day in range matches `%Y-%m-%d` and reads year, month and day off its digits |
| StrPTime.IsoDateRoundTrip | app/core/schemas/schema.py:38 | any calendar date written as `YYYY-MM-DD` parses back to that date |
| StrPTime.TimeParseIff | app/core/schemas/schema.py:54-60 | `%H:%M` accepts exactly one or two digits, a colon, then one or two digits, with hour ≤ 23 and minute ≤ 59, and reads the hour and minute off them |
| StrPTime.ClockMatches | app/core/schemas/schema.py:57 | a clock-shaped string matches `%H:%M` with its hour and minute |
| StrPTime.ClockShapeOfMatch | app/core/schemas/schema.py:57 | whatever `%H:%M` matches is clock-shaped |
| StrPTime.TimeRoundTrip | app/core/schemas/schema.py:57 | any hour ≤ 23 and minute ≤ 59 written as `HH:MM` parse back to themselves |
| StrPTime.SlashedDateRoundTrip | app/core/schemas/schema.py:37 | any calendar date written as `MM/DD/YYYY` parses back to that date |
| StrPTime.DayMonthYearRoundTrip | app/core/schemas/schema.py:40 | any calendar date written as `DD MM YYYY` parses back to that date |
| StrPTime.ShortYearWindow | app/core/schemas/schema.py:39 | `%y` reads 00-68 as 2000-2068 and 69-99 as 1969-1999, so every year from 1969 through 2068 is read back from its last two digits |
| StrPTime.DayMonthShortYearRoundTrip | app/core/schemas/schema.py:39 | any calendar date from 1969 through 2068 written as `DD MM YY` parses back to that date |
| StrPTime.NameDayYearRoundTrip | app/core/schemas/schema.py:35 | any calendar date written as its month name in any letter case, the unpadded day, a comma and the four-digit year parses back to that date |
| StrPTime.DayNameYearRoundTrip | app/core/schemas/schema.py:36 | any calendar date written as the two-digit day, its month name in any letter case and the four-digit year parses back to that date |
| Schema.FormatCentsRoundTrip | app/core/schemas/schema.py:14 | every whole number of cents, written as dollars with two decimals, matches the amount pattern and reads back as the same number |
| Schema.ParseSignedCents | app/core/schemas/schema.py:18 | `float()` of a pattern-valid amount is its value in cents |
| Schema.MatchesDescription | app/core/schemas/schema.py:13 | an accepted description is non-empty and holds no `&` and no `.` |
| Schema.MatchesRetailer | app/core/schemas/schema.py:25 | every accepted description is an accepted retailer name, and an accepted name without `&` is an accepted description: the patterns differ by `&` alone |
| Schema.MatchesAmount | app/core/schemas/schema.py:14 | an accepted amount (price, and total at line 29) carries no sign, has at least four characters, and its only dot is the third character from the end |
| Schema.PriceAsCents | app/core/schemas/schema.py:16-21 | the price in cents is the parsed value raised to 0 when negative: never below that value, and either 0 or that value |
| Schema.TotalAsCents | app/core/schemas/schema.py:62-67 | the same for the total |
| Schema.ClampOnlyForMinusSign | app/core/schemas/schema.py:19-20 | only a string with a leading minus reaches the clamp, and no such string matches the pattern |
| Schema.PriceClampUnreachable | app/core/schemas/schema.py:16-21 | for a pattern-valid price the clamp never fires: the price in cents is its written value |
| Schema.TotalClampUnreachable | app/core/schemas/schema.py:62-67 | the same for the total |
| Schema.ValidReceiptAmounts | app/core/schemas/schema.py:12-29 | in a receipt that passes validation, the total and every item price read as numbers, each the number of cents written |
| Schema.FirstDateFormat | app/core/schemas/schema.py:42-47 | the search returns the first format that parses, and no earlier format parses; it fails only when no format parses |
| Schema.ValidatePurchaseDate | app/core/schemas/schema.py:31-52 | accepts exactly the dates some format parses and returns them unchanged; otherwise fails with the purchase-date message |
| Schema.ShortDateInvalid | app/core/schemas/schema.py:31-52 | a date shorter than five characters, such as "2", is refused with the purchase-date message |
| Schema.ValidatePurchaseTime | app/core/schemas/schema.py:54-60 | accepts exactly the clock-shaped times and returns them unchanged; otherwise fails with the purchase-time message |
| Schema.ItemViolations | app/core/schemas/schema.py:12-14 | no violation is reported exactly when every item's description and price match their patterns |
| Schema.Violations | app/core/schemas/schema.py:24-60 | no violation is reported exactly when the receipt is valid: every field pattern, the date and time validators, and at least one item |
| Schema.Validate | app/core/schemas/schema.py:24-60 | validation accepts exactly the valid receipts and returns them unchanged; a refusal carries at least one violation |
| Scoring.RetailerPoints | app/core/services/receipt_processor.py:18-25 | retailer points never exceed the length of the name |
| Scoring.RetailerPointsCountsAlnum | app/core/services/receipt_processor.py:18-25 | retailer points equal the number of positions holding an alphanumeric character |
| Scoring.RetailerPointsAppend | app/core/services/receipt_processor.py:21-23 | the points of a concatenation are the sum of the parts' points |
| Scoring.RetailerPointsAllAlnum | app/core/services/receipt_processor.py:21-23 | an all-alphanumeric name scores its length |
| Scoring.SeparatorScoresNothing | app/core/services/receipt_processor.py:22 | a space, `-`, `&` or `_` adds nothing |
| Scoring.CalculatePointsFromRetailer | app/core/services/receipt_processor.py:18-25 | the counting loop returns the retailer points |
| Scoring.TotalPoints | app/core/services/receipt_processor.py:27-38 | the total scores 0, 25 or 75, never 50 |
| Scoring.TotalPointsByCents | app/core/services/receipt_processor.py:33-36 | 75 exactly for a whole-dollar total, 25 exactly for another multiple of 25 cents, 0 otherwise |
| Scoring.TotalCentsByDigits | app/core/services/receipt_processor.py:33-36 | modulo 100 and 25, the total in cents agrees with its last two written digits |
| Scoring.TotalPointsByCentDigits | app/core/services/receipt_processor.py:27-38 | on the written total: 75 for cents "00", 25 for "25", "50" or "75", else 0 |
| Scoring.ItemCountPointsPerPair | app/core/services/receipt_processor.py:40-43 | two more items add 5 points; one item or none scores 0 |
| Scoring.ItemCountPoints | app/core/services/receipt_processor.py:40-43 | 5 points per whole pair of items: a multiple of 5, at most 5 for every 2 items, and less than 5 short of that |
| Scoring.ItemPoints | app/core/services/receipt_processor.py:51-53 | an item earns 0 or a fifth of its price rounded up, and earns something only when its stripped description length is a multiple of 3 |
| Scoring.SkipLeading | app/core/services/receipt_processor.py:52 | the leading whitespace skipped by `strip()` ends at the first non-whitespace character |
| Scoring.SkipTrailing | app/core/services/receipt_processor.py:52 | the trailing whitespace cut by `strip()` starts after the last non-whitespace character |
| Scoring.Strip | app/core/services/receipt_processor.py:52 | `strip()` never lengthens a string, and its result is empty or starts and ends with non-whitespace |
| Scoring.StripBetween | app/core/services/receipt_processor.py:52 | `strip()` returns exactly the part between the leading and trailing whitespace |
| Scoring.StripOfWhitespace | app/core/services/receipt_processor.py:52 | an all-whitespace string strips to nothing |
| Scoring.CeilFifth | app/core/services/receipt_processor.py:53 | the least whole number at least a fifth of the price |
| Scoring.BlankDescriptionScores | app/core/services/receipt_processor.py:52-53 | an all-whitespace description strips to length 0, a multiple of 3, so the item earns a fifth of its price |
| Scoring.DescriptionPoints | app/core/services/receipt_processor.py:45-55 | the description points are 0 exactly when every item earns 0 |
| Scoring.DescriptionPointsSnoc | app/core/services/receipt_processor.py:51-54 | one more item adds its own points to the sum |
| Scoring.DescriptionPointsAppend | app/core/services/receipt_processor.py:51-53 | description points of joined item lists add up |
| Scoring.DescriptionPointsZero | app/core/services/receipt_processor.py:51-53 | items whose stripped lengths are never multiples of 3 earn nothing |
| Scoring.CalculatePointsFromItemDescription | app/core/services/receipt_processor.py:45-55 | the loop over the items returns the description points |
| Scoring.DatePointsFrom | app/core/services/receipt_processor.py:68-75 | 6 exactly when some remaining format parses the date with an odd day, else 0; an even-day parse does not stop the search |
| Scoring.DatePoints | app/core/services/receipt_processor.py:57-77 | 0 or 6; 6 exactly when some accepted format reads the date with an odd day, and such a date passes validation |
| Scoring.IsoDatePoints | app/core/services/receipt_processor.py:57-77 | a `dddd-dd-dd` date scores 6 exactly when `%Y-%m-%d` parses it with an odd day |
| Scoring.RenderedIsoDatePoints | app/core/services/receipt_processor.py:57-77 | a calendar date written `YYYY-MM-DD` scores 6 exactly when its day is odd |
| Scoring.CalculatePointsFromPurchaseDate | app/core/services/receipt_processor.py:57-77 | the loop over the formats, stopping at the first odd-day parse, returns the date points |
| Scoring.TimePoints | app/core/services/receipt_processor.py:79-89 | the time scores 0 or 10 |
| Scoring.TimePointsWindow | app/core/services/receipt_processor.py:82-87 | 10 exactly from 14:01 through 15:59, both ends of the window excluded |
| Scoring.ReceiptPoints | app/core/services/receipt_processor.py:94-103 | the points of a valid receipt are never negative, as the points response requires |
| Scoring.SumOfPoints | app/core/services/receipt_processor.py:94-103 | `sum_of_points` returns the sum of the six rules |
| Store.StoreKeepsInvariant | app/core/services/receipt_processor.py:108 | storing a valid receipt under an unused id keeps the cache invariant: every cached id is stored, and its cached value is its receipt's points |
| Store.CacheKeepsInvariant | app/core/services/receipt_processor.py:121 | caching a stored receipt's points keeps that invariant |
| Store.CachedIsPoints | app/core/services/receipt_processor.py:114 | a cached value is the points of its stored receipt |
| Store.ReceiptProcessor.constructor | app/core/services/receipt_processor.py:9-14 | both maps start empty |
| Store.ReceiptProcessor.ProcessReceipt | app/core/services/receipt_processor.py:105-110 | adds exactly the new id, mapped to the receipt; the cache is unchanged; the id returned is the one stored and is a valid id response |
| Store.ReceiptProcessor.GetTotalPoints | app/core/services/receipt_processor.py:112-124 | None exactly for an id never stored; otherwise that receipt's points, which are then cached; the receipts are unchanged |
| Store.ReceiptProcessor.ComputeAndCache | app/core/services/receipt_processor.py:116-122 | computes the stored receipt's points and caches them |
| Store.ReceiptProcessor.LookUpTwice | app/core/services/receipt_processor.py:112-124 | two lookups give the same answer, zero-point receipts included |
| Examples.ItemScore | app/core/services/receipt_processor.py:51-53 | an item with a valid description, a rendered price and a known whitespace frame earns a fifth of its price, rounded up, when the stripped length is a multiple of 3 |
| Examples.CornerMarketPoints | app/tests/test_api.py:10 | "M&M Corner Market" scores 14 |
| Examples.EmilsPizzaItem | app/tests/test_api.py:44-45 | "Emils Cheese Pizza" at 12.25 is valid and earns 3 |
| Examples.KlarbrunnItem | app/tests/test_api.py:56-57 | "   Klarbrunn 12-PK 12 FL OZ  " at 12.00 strips to 24 characters and earns 3 |
| Examples.WindowEndsExcluded | app/core/services/receipt_processor.py:83-86 | 14:00 and 16:00 are valid times that earn nothing |
| Examples.SpelledMonthFirst | app/core/schemas/schema.py:49-52 | "January 1, 2022", the first example of the date message, is read by `%B %d, %Y` as 1 January 2022, is valid and earns 6 |
| Examples.SpelledMonthSecond | app/core/schemas/schema.py:49-52 | "1 February 2022" is read by `%d %B %Y` as 1 February 2022, is valid and earns 6 |
| Examples.SlashedFirst | app/core/schemas/schema.py:49-52 | "01/01/2022" is read by `%m/%d/%Y` as 1 January 2022, is valid and earns 6 |
| Examples.ShortYearFirst | app/core/schemas/schema.py:49-52 | "01 01 22" is read by `%d %m %y` as 1 January 2022, is valid and earns 6 |
| Examples.SpacedFirst | app/core/schemas/schema.py:49-52 | "01 01 2022" is read by `%d %m %Y` as 1 January 2022, is valid and earns 6 |
| Examples.GoodReceipt1Points | app/tests/test_api.py:85-93 | the first test receipt is valid and scores 109 |
| Examples.GoodReceipt2Points | app/tests/test_api.py:95-103 | the second test receipt is valid and scores 28 |
| Examples.GoodReceipt3Points | app/tests/test_api.py:105-113 | the third test receipt is valid and scores 15 |
| Examples.GoodReceipt4Points | app/tests/test_api.py:115-123 | the fourth test receipt is valid and scores 31 |
| Examples.DateOnlyViolation | app/core/schemas/schema.py:31-52 | a valid receipt given a date shorter than five characters has that date as its only violation |
| Examples.RetailerOnlyViolation | app/core/schemas/schema.py:25 | a valid receipt given a name the pattern refuses has that name as its only violation |
| Examples.BadReceipt1Rejected | app/tests/test_api.py:128-151 | the first bad receipt is refused for its date "2" alone |
| Examples.BadReceipt2Rejected | app/tests/test_api.py:153-180 | the second bad receipt is refused for the name "Target^^" alone |
| Examples.Submit | app/main.py:13-21 | a posted receipt is validated first; only a valid one is stored, and the post returns its id; an invalid one returns its violations and leaves the store as it was |
| Examples.PostThenGet | app/tests/test_api.py:85-93 | posting a valid receipt and reading it back returns its id and its points |
| Examples.TestGoodReceipt1 | app/tests/test_api.py:85-93 | against any valid store: the post returns the id, and the points read back are 109 |
| Examples.TestGoodReceipt2 | app/tests/test_api.py:95-103 | the same with 28 |
| Examples.TestGoodReceipt3 | app/tests/test_api.py:105-113 | the same with 15 |
| Examples.TestGoodReceipt4 | app/tests/test_api.py:115-123 | the same with 31 |
| Examples.TestBadReceipt1 | app/tests/test_api.py:183-191 | the post is refused with the date violation, nothing is stored, and the id "None" is unknown |
| Examples.TestBadReceipt2 | app/tests/test_api.py:193-201 | the post is refused with the retailer violation, nothing is stored, and the id "None" is unknown |

## Left out

- Character classes are ASCII only. In the source these are Unicode-aware:
  the regex classes `\w`, `\s` and `\d` of the item, retailer and amount
  patterns; `\S` of the id pattern; the digits that the numeric `strptime`
  directives accept; the case-insensitive month-name match of `%B`; and the
  `str` methods `isalnum()` and `strip()`.
- `float()` is modelled only on strings of the form `[+-]?digits.dd`. That
  covers every amount the patterns let through, and the minus sign that
  reaches the clamp.
- Scoring.CeilFifth: computes on exact cents. The source multiplies a binary
  floating-point price by the float 0.2, and that rounding is not modelled.
- Scoring.TotalPoints: the same holds for `is_integer()` and `(x * 100) % 25`
  on the float total.
- `strptime` is modelled only in the C locale, with English month names. Its
  format whitespace, which matches runs of whitespace, is modelled as one
  exact character. The space-padded day ` 1` that `%d` also accepts is not
  modelled.
- StrPTime.DayNameYearRoundTrip: stated for two-digit days only. The
  one-digit day that `%d %B %Y` also reads is shown on "1 February 2022"
  (`Examples.SpelledMonthSecond`), not for every date.
- StrPTime.NameDayYearRoundTrip: stated for the unpadded day only; a
  zero-padded day such as "January 01, 2022" is also read but not stated.
- Pydantic reports every violation at once in an error text. The model lists
  the violations as values. The error texts and the HTTP status mapping of
  `app/main.py` (400, 404, 500) are not part of this model.
- `uuid.uuid4()` is randomness. The id is a parameter, required to be unused
  and free of whitespace.
- `app/schemas.py` is an older copy of the schema that the service does not
  import, and it is not part of this model.
- Concurrent requests on the shared store are not modelled.
