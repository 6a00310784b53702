/** The deterministic helpers of the AI bill analyser: the trip-date check,
    the per-day breakdown of a multi-bill claim, the daily-limit check over it,
    the combined recommendation, the grade-limit check the analyser attaches
    to every reading, and the extraction of the JSON object from the model's
    reply. The model call itself, OCR and `json.loads` are outside the model:
    a reading of a bill arrives as an `AiReading`. */
module AiService {

  import opened Wrappers
  import opened Strings
  import opened Settings
  import opened ValidationService

  // ---------------------------------------------------------------------
  // Bill date against the trip

  datatype DateCheck = DateCheck(isValid: bool, violation: Option<string>)

  /** `_validate_bill_date`: with both trip bounds the date must lie between
      them, bounds included; with either bound missing nothing is checked. */
  function ValidateBillDate(expenseDate: int, tripStart: Option<int>, tripEnd: Option<int>): (r: DateCheck)
    ensures r.isValid <==> tripStart.None? || tripEnd.None? || tripStart.value <= expenseDate <= tripEnd.value
    ensures r.isValid <==> r.violation.None?
    ensures r.violation.Some? ==> r.violation.value == "date_mismatch"
  {
    if tripStart.None? || tripEnd.None? then DateCheck(true, None)
    else if tripStart.value <= expenseDate <= tripEnd.value then DateCheck(true, None)
    else DateCheck(false, Some("date_mismatch"))
  }

  // ---------------------------------------------------------------------
  // Per-day breakdown

  /** One analysed bill, as far as the breakdown reads it. */
  datatype Bill = Bill(expenseDate: int, category: string, amount: real)

  datatype DaySummary = DaySummary(
    date: int,
    totalAmount: real,
    foodAmount: real,
    travelAmount: real,
    accommodationAmount: real,
    otherAmount: real,
    billCount: nat,
    bills: seq<Bill>)

  function Total(bills: seq<Bill>): real
  {
    if |bills| == 0 then 0.0 else Total(bills[..|bills| - 1]) + bills[|bills| - 1].amount
  }

  /** Sum of the amounts of the bills whose category is exactly `category`. */
  function CategoryTotal(bills: seq<Bill>, category: string): real
  {
    if |bills| == 0 then 0.0
    else CategoryTotal(bills[..|bills| - 1], category) + (if bills[|bills| - 1].category == category then bills[|bills| - 1].amount else 0.0)
  }

  predicate IsOther(category: string)
  {
    category != "food" && category != "travel" && category != "accommodation"
  }

  /** Sum of the amounts of the bills in none of the three named categories. */
  function OtherTotal(bills: seq<Bill>): real
  {
    if |bills| == 0 then 0.0
    else OtherTotal(bills[..|bills| - 1]) + (if IsOther(bills[|bills| - 1].category) then bills[|bills| - 1].amount else 0.0)
  }

  /** The four category sums split the total: every bill is counted in
      exactly one of them. */
  lemma {:induction false} CategorySplit(bills: seq<Bill>)
    ensures CategoryTotal(bills, "food") + CategoryTotal(bills, "travel") + CategoryTotal(bills, "accommodation") + OtherTotal(bills)
         == Total(bills)
  {
    if |bills| > 0 {
      CategorySplit(bills[..|bills| - 1]);
    }
  }

  /** `_calculate_day_summary` */
  function CalculateDaySummary(date: int, bills: seq<Bill>): (s: DaySummary)
    ensures s.date == date && s.bills == bills && s.billCount == |bills|
    ensures s.foodAmount + s.travelAmount + s.accommodationAmount + s.otherAmount == s.totalAmount
    ensures (forall i :: 0 <= i < |bills| ==> bills[i].category != "food") ==> s.foodAmount == 0.0
  {
    CategorySplit(bills);
    NoneOfCategory(bills, "food");
    DaySummary(date, Total(bills), CategoryTotal(bills, "food"), CategoryTotal(bills, "travel"),
               CategoryTotal(bills, "accommodation"), OtherTotal(bills), |bills|, bills)
  }

  lemma {:induction false} NoneOfCategory(bills: seq<Bill>, category: string)
    ensures (forall i :: 0 <= i < |bills| ==> bills[i].category != category) ==> CategoryTotal(bills, category) == 0.0
  {
    if |bills| > 0 {
      NoneOfCategory(bills[..|bills| - 1], category);
    }
  }

  /** The bills dated `date`, in order. */
  function BillsOn(bills: seq<Bill>, date: int): seq<Bill>
  {
    if |bills| == 0 then []
    else
      var init := BillsOn(bills[..|bills| - 1], date);
      if bills[|bills| - 1].expenseDate == date then init + [bills[|bills| - 1]] else init
  }

  /** A day's bills are exactly the bills of that date. */
  lemma {:induction false} BillsOnMembers(bills: seq<Bill>, date: int)
    ensures forall b :: b in BillsOn(bills, date) <==> b in bills && b.expenseDate == date
  {
    if |bills| > 0 {
      BillsOnMembers(bills[..|bills| - 1], date);
      assert forall b :: b in bills <==> b in bills[..|bills| - 1] || b == bills[|bills| - 1];
    }
  }

  /** The distinct bill dates, in order of first appearance: the keys of the
      insertion-ordered dict the grouping fills. */
  function GroupKeys(bills: seq<Bill>): seq<int>
  {
    if |bills| == 0 then []
    else
      var init := GroupKeys(bills[..|bills| - 1]);
      var d := bills[|bills| - 1].expenseDate;
      if d in init then init else init + [d]
  }

  /** The keys are the bill dates, each listed once. */
  lemma {:induction false} GroupKeysDistinctDates(bills: seq<Bill>)
    ensures forall d :: d in GroupKeys(bills) <==> exists i :: 0 <= i < |bills| && bills[i].expenseDate == d
    ensures forall i, j :: 0 <= i < j < |GroupKeys(bills)| ==> GroupKeys(bills)[i] != GroupKeys(bills)[j]
  {
    if |bills| > 0 {
      GroupKeysDistinctDates(bills[..|bills| - 1]);
      assert forall i :: 0 <= i < |bills| - 1 ==> bills[..|bills| - 1][i] == bills[i];
    }
  }

  /** The grouping loop of `_calculate_per_day_breakdown`: the dict from
      date to the bills of that date, its keys in insertion order. */
  method GroupByDate(bills: seq<Bill>) returns (keys: seq<int>, groups: map<int, seq<Bill>>)
    ensures keys == GroupKeys(bills)
    ensures forall d :: d in groups <==> d in keys
    ensures forall d :: d in groups ==> groups[d] == BillsOn(bills, d)
  {
    keys := [];
    groups := map[];
    var i := 0;
    while i < |bills|
      invariant 0 <= i <= |bills|
      invariant keys == GroupKeys(bills[..i])
      invariant forall d :: d in groups <==> d in keys
      invariant forall d :: d in groups ==> groups[d] == BillsOn(bills[..i], d)
    {
      var b := bills[i];
      assert bills[..i + 1] == bills[..i] + [b];
      GroupKeysSnoc(bills[..i], b);
      BillsOnSnoc(bills[..i], b);
      if b.expenseDate !in groups {
        NoBillsOn(bills[..i], b.expenseDate);
        keys := keys + [b.expenseDate];
        groups := groups[b.expenseDate := [b]];
      } else {
        groups := groups[b.expenseDate := groups[b.expenseDate] + [b]];
      }
      i := i + 1;
    }
    assert bills[..i] == bills;
  }

  lemma GroupKeysSnoc(bills: seq<Bill>, b: Bill)
    ensures GroupKeys(bills + [b]) == if b.expenseDate in GroupKeys(bills) then GroupKeys(bills) else GroupKeys(bills) + [b.expenseDate]
  {
    assert (bills + [b])[..|bills|] == bills;
  }

  lemma BillsOnSnoc(bills: seq<Bill>, b: Bill)
    ensures forall d :: BillsOn(bills + [b], d) == BillsOn(bills, d) + (if b.expenseDate == d then [b] else [])
  {
    assert (bills + [b])[..|bills|] == bills;
  }

  /** The trip loop of `_calculate_per_day_breakdown`: one summary per day
      from `start` to `end`, in order. */
  method TripBreakdown(bills: seq<Bill>, start: int, end: int) returns (breakdown: seq<DaySummary>)
    ensures |breakdown| == if start <= end then end - start + 1 else 0
    ensures forall k :: 0 <= k < |breakdown| ==> breakdown[k] == CalculateDaySummary(start + k, BillsOn(bills, start + k))
  {
    breakdown := [];
    var current := start;
    while current <= end
      invariant current == start + |breakdown|
      invariant start <= end ==> current <= end + 1
      invariant start > end ==> current == start
      invariant forall k :: 0 <= k < |breakdown| ==> breakdown[k] == CalculateDaySummary(start + k, BillsOn(bills, start + k))
      decreases end - current
    {
      var dayBills := BillsOn(bills, current);
      breakdown := breakdown + [CalculateDaySummary(current, dayBills)];
      current := current + 1;
    }
  }

  /** `_calculate_per_day_breakdown`. Without both trip dates the bills are
      grouped by date, one summary per distinct date in order of first
      appearance; with both, one summary per day of the trip, in order, each
      over the bills of that day (none for an inverted range). */
  method CalculatePerDayBreakdown(bills: seq<Bill>, tripStart: Option<int>, tripEnd: Option<int>) returns (breakdown: seq<DaySummary>)
    ensures tripStart.None? || tripEnd.None? ==>
      |breakdown| == |GroupKeys(bills)| &&
      forall k :: 0 <= k < |breakdown| ==>
        breakdown[k] == CalculateDaySummary(GroupKeys(bills)[k], BillsOn(bills, GroupKeys(bills)[k]))
    ensures tripStart.Some? && tripEnd.Some? ==>
      |breakdown| == (if tripStart.value <= tripEnd.value then tripEnd.value - tripStart.value + 1 else 0) &&
      forall k :: 0 <= k < |breakdown| ==>
        breakdown[k] == CalculateDaySummary(tripStart.value + k, BillsOn(bills, tripStart.value + k))
  {
    if tripStart.None? || tripEnd.None? {
      var keys, groups := GroupByDate(bills);
      breakdown := [];
      var k := 0;
      while k < |keys|
        invariant 0 <= k <= |keys|
        invariant |breakdown| == k
        invariant forall j :: 0 <= j < k ==> breakdown[j] == CalculateDaySummary(keys[j], BillsOn(bills, keys[j]))
      {
        breakdown := breakdown + [CalculateDaySummary(keys[k], groups[keys[k]])];
        k := k + 1;
      }
    } else {
      breakdown := TripBreakdown(bills, tripStart.value, tripEnd.value);
    }
  }

  /** Sum of the group sizes over `keys`. */
  function GroupSizes(bills: seq<Bill>, keys: seq<int>): nat
  {
    if |keys| == 0 then 0 else GroupSizes(bills, keys[..|keys| - 1]) + |BillsOn(bills, keys[|keys| - 1])|
  }

  lemma {:induction false} GroupSizesAppendBill(bills: seq<Bill>, b: Bill, keys: seq<int>)
    requires forall i, j :: 0 <= i < j < |keys| ==> keys[i] != keys[j]
    ensures GroupSizes(bills + [b], keys) == GroupSizes(bills, keys) + (if b.expenseDate in keys then 1 else 0)
  {
    assert (bills + [b])[..|bills|] == bills;
    if |keys| > 0 {
      var init := keys[..|keys| - 1];
      GroupSizesAppendBill(bills, b, init);
      assert b.expenseDate in keys <==> b.expenseDate in init || b.expenseDate == keys[|keys| - 1];
      if b.expenseDate == keys[|keys| - 1] {
        assert b.expenseDate !in init;
      }
    }
  }

  /** Grouping by date loses and duplicates no bill: the group sizes add up
      to the number of bills. */
  lemma {:induction false} GroupSizesCountBills(bills: seq<Bill>)
    ensures GroupSizes(bills, GroupKeys(bills)) == |bills|
  {
    if |bills| > 0 {
      var init := bills[..|bills| - 1];
      var b := bills[|bills| - 1];
      assert bills == init + [b];
      GroupSizesCountBills(init);
      GroupKeysDistinctDates(init);
      GroupSizesAppendBill(init, b, GroupKeys(init));
      if b.expenseDate !in GroupKeys(init) {
        var keys := GroupKeys(bills);
        assert keys == GroupKeys(init) + [b.expenseDate];
        assert keys[..|keys| - 1] == GroupKeys(init);
        NoBillsOn(init, b.expenseDate);
      }
    }
  }

  lemma NoBillsOn(bills: seq<Bill>, d: int)
    requires d !in GroupKeys(bills)
    ensures BillsOn(bills, d) == []
  {
    GroupKeysDistinctDates(bills);
    BillsOnMembers(bills, d);
    if |BillsOn(bills, d)| > 0 {
      assert BillsOn(bills, d)[0] in BillsOn(bills, d);
    }
  }

  /** Each bill lies in the group of exactly one key. */
  lemma EveryBillInOneGroup(bills: seq<Bill>, b: Bill)
    requires b in bills
    ensures exists k :: 0 <= k < |GroupKeys(bills)| && b in BillsOn(bills, GroupKeys(bills)[k])
    ensures forall j, k ::
              (0 <= j < |GroupKeys(bills)| && 0 <= k < |GroupKeys(bills)| &&
               b in BillsOn(bills, GroupKeys(bills)[j]) && b in BillsOn(bills, GroupKeys(bills)[k])) ==> j == k
  {
    var keys := GroupKeys(bills);
    GroupKeysDistinctDates(bills);
    forall d { BillsOnMembers(bills, d); }
    var i :| 0 <= i < |bills| && bills[i] == b;
    assert b.expenseDate in keys;
    var k :| 0 <= k < |keys| && keys[k] == b.expenseDate;
    assert b in BillsOn(bills, keys[k]);
  }

  /** With both trip dates a bill appears in the breakdown exactly when its
      date passes `_validate_bill_date`, and then under one day only. */
  lemma TripDaysCoverValidBills(bills: seq<Bill>, start: int, end: int, b: Bill)
    requires b in bills
    ensures ValidateBillDate(b.expenseDate, Some(start), Some(end)).isValid <==>
      exists d :: start <= d <= end && b in BillsOn(bills, d)
    ensures forall d1, d2 :: b in BillsOn(bills, d1) && b in BillsOn(bills, d2) ==> d1 == d2
  {
    forall d { BillsOnMembers(bills, d); }
    if start <= b.expenseDate <= end {
      assert b in BillsOn(bills, b.expenseDate);
    }
  }

  // ---------------------------------------------------------------------
  // Daily limits

  datatype LimitBreach = LimitBreach(category: string, amount: real, limit: real, excess: real)

  datatype DayViolation = DayViolation(date: int, violations: seq<LimitBreach>, totalExcess: real)

  /** `EXPENSE_RULES.get(grade, {}).get(category, {}).get("max_per_day", fallback)` */
  function DailyLimit(rules: RuleTable, grade: string, category: string, fallback: real): (limit: real)
    ensures LookupRule(rules, grade, category).None? ==> limit == fallback
    ensures LookupRule(rules, grade, category).Some? && LookupRule(rules, grade, category).value.maxPerDay.Some? ==>
      limit == LookupRule(rules, grade, category).value.maxPerDay.value
  {
    match LookupRule(rules, grade, category)
    case None => fallback
    case Some(rule) => rule.maxPerDay.UnwrapOr(fallback)
  }

  function FoodLimit(rules: RuleTable, grade: string): real
  {
    DailyLimit(rules, grade, "food", 500.0)
  }

  function TravelLimit(rules: RuleTable, grade: string): real
  {
    DailyLimit(rules, grade, "travel", 2000.0)
  }

  /** A day over one of its two daily limits (both strict). */
  predicate Over(day: DaySummary, foodLimit: real, travelLimit: real)
  {
    day.foodAmount > foodLimit || day.travelAmount > travelLimit
  }

  function DayBreaches(day: DaySummary, foodLimit: real, travelLimit: real): (breaches: seq<LimitBreach>)
    ensures |breaches| > 0 <==> Over(day, foodLimit, travelLimit)
    ensures forall i :: 0 <= i < |breaches| ==> breaches[i].excess > 0.0
    ensures forall i :: 0 <= i < |breaches| ==> breaches[i].excess == breaches[i].amount - breaches[i].limit
  {
    (if day.foodAmount > foodLimit then [LimitBreach("food", day.foodAmount, foodLimit, day.foodAmount - foodLimit)] else []) +
    (if day.travelAmount > travelLimit then [LimitBreach("travel", day.travelAmount, travelLimit, day.travelAmount - travelLimit)] else [])
  }

  function ExcessSum(breaches: seq<LimitBreach>): real
  {
    if |breaches| == 0 then 0.0 else ExcessSum(breaches[..|breaches| - 1]) + breaches[|breaches| - 1].excess
  }

  lemma {:induction false} PositiveExcesses(breaches: seq<LimitBreach>)
    requires forall i :: 0 <= i < |breaches| ==> breaches[i].excess > 0.0
    ensures |breaches| > 0 ==> ExcessSum(breaches) > 0.0
    ensures ExcessSum(breaches) >= 0.0
  {
    if |breaches| > 0 {
      PositiveExcesses(breaches[..|breaches| - 1]);
    }
  }

  function DayViolationFor(day: DaySummary, foodLimit: real, travelLimit: real): DayViolation
  {
    var breaches := DayBreaches(day, foodLimit, travelLimit);
    DayViolation(day.date, breaches, ExcessSum(breaches))
  }

  /** The report of `_check_daily_limits` for given limits: the days over a
      limit, in order. */
  function DailyViolations(days: seq<DaySummary>, foodLimit: real, travelLimit: real): seq<DayViolation>
  {
    if |days| == 0 then []
    else
      var init := DailyViolations(days[..|days| - 1], foodLimit, travelLimit);
      var day := days[|days| - 1];
      if Over(day, foodLimit, travelLimit) then init + [DayViolationFor(day, foodLimit, travelLimit)] else init
  }

  /** The report lists every day over a limit, only such days, and for each a
      positive total excess that is the sum of its breaches' excesses. */
  lemma {:induction false} DailyViolationsSound(days: seq<DaySummary>, foodLimit: real, travelLimit: real)
    ensures forall d :: d in days && Over(d, foodLimit, travelLimit) ==>
              DayViolationFor(d, foodLimit, travelLimit) in DailyViolations(days, foodLimit, travelLimit)
    ensures forall v :: v in DailyViolations(days, foodLimit, travelLimit) ==>
              exists d :: d in days && Over(d, foodLimit, travelLimit) && v == DayViolationFor(d, foodLimit, travelLimit)
    ensures forall v :: v in DailyViolations(days, foodLimit, travelLimit) ==>
              |v.violations| > 0 && v.totalExcess > 0.0 && v.totalExcess == ExcessSum(v.violations)
  {
    if |days| > 0 {
      var init := days[..|days| - 1];
      var day := days[|days| - 1];
      DailyViolationsSound(init, foodLimit, travelLimit);
      assert forall d :: d in days <==> d in init || d == day;
      PositiveExcesses(DayBreaches(day, foodLimit, travelLimit));
    }
  }

  /** A day is reported exactly when it is over a limit. */
  lemma DayReportedIffOver(days: seq<DaySummary>, foodLimit: real, travelLimit: real, day: DaySummary)
    requires day in days
    ensures DayViolationFor(day, foodLimit, travelLimit) in DailyViolations(days, foodLimit, travelLimit) <==> Over(day, foodLimit, travelLimit)
  {
    DailyViolationsSound(days, foodLimit, travelLimit);
  }

  /** `_check_daily_limits`: the daily ceilings of the grade (500 for food and
      2000 for travel when the table has none), then one report entry per day
      over either ceiling, listing each breach and the sum of the excesses. */
  method CheckDailyLimits(rules: RuleTable, breakdown: seq<DaySummary>, grade: string) returns (violations: seq<DayViolation>)
    ensures violations == DailyViolations(breakdown, FoodLimit(rules, grade), TravelLimit(rules, grade))
  {
    var foodLimit := FoodLimit(rules, grade);
    var travelLimit := TravelLimit(rules, grade);
    violations := [];
    var i := 0;
    while i < |breakdown|
      invariant 0 <= i <= |breakdown|
      invariant violations == DailyViolations(breakdown[..i], foodLimit, travelLimit)
    {
      var day := breakdown[i];
      var dayViolations: seq<LimitBreach> := [];
      if day.foodAmount > foodLimit {
        dayViolations := dayViolations + [LimitBreach("food", day.foodAmount, foodLimit, day.foodAmount - foodLimit)];
      }
      if day.travelAmount > travelLimit {
        dayViolations := dayViolations + [LimitBreach("travel", day.travelAmount, travelLimit, day.travelAmount - travelLimit)];
      }
      assert dayViolations == DayBreaches(day, foodLimit, travelLimit);
      if |dayViolations| > 0 {
        violations := violations + [DayViolation(day.date, dayViolations, ExcessSum(dayViolations))];
      }
      assert breakdown[..i + 1][..i] == breakdown[..i];
      i := i + 1;
    }
    assert breakdown[..i] == breakdown;
  }

  /** Grade A's daily ceilings come from its table entries; an unknown grade
      falls back to 500 for food and 2000 for travel. */
  lemma DailyLimitFallbacks(grade: string)
    ensures FoodLimit(ExpenseRules, "A") == 500.0 && TravelLimit(ExpenseRules, "A") == 1500.0
    ensures grade !in ExpenseRules ==> FoodLimit(ExpenseRules, grade) == 500.0 && TravelLimit(ExpenseRules, grade) == 2000.0
  {
  }

  // ---------------------------------------------------------------------
  // Combined recommendation and averages

  datatype Recommendation = Approve | Review | Reject

  function RecommendationName(r: Recommendation): string
  {
    match r
    case Approve => "APPROVE"
    case Review => "REVIEW"
    case Reject => "REJECT"
  }

  /** How many readings carry exactly `rec`. */
  function CountOf(recs: seq<Option<string>>, rec: string): (n: nat)
    ensures n > 0 <==> Some(rec) in recs
    ensures n <= |recs|
  {
    if |recs| == 0 then 0
    else
      assert forall r :: r in recs <==> r in recs[..|recs| - 1] || r == recs[|recs| - 1];
      CountOf(recs[..|recs| - 1], rec) + (if recs[|recs| - 1] == Some(rec) then 1 else 0)
  }

  /** `_generate_combined_recommendation`, over each bill's
      `ai_analysis.get("recommendation")` and the number of days over a limit. */
  function GenerateCombinedRecommendation(recs: seq<Option<string>>, dailyViolations: nat): (r: Recommendation)
    ensures r == Reject <==> Some("REJECT") in recs || dailyViolations > 0
    ensures r == Review <==> !(Some("REJECT") in recs || dailyViolations > 0) && Some("REVIEW") in recs
    ensures r == Approve <==> Some("REJECT") !in recs && Some("REVIEW") !in recs && dailyViolations == 0
  {
    if CountOf(recs, "REJECT") > 0 || dailyViolations > 0 then Reject
    else if CountOf(recs, "REVIEW") > 0 then Review
    else Approve
  }

  /** Rank of a recommendation: APPROVE < REVIEW < REJECT. */
  function Severity(r: Recommendation): nat
  {
    match r
    case Approve => 0
    case Review => 1
    case Reject => 2
  }

  /** The severity a single reading contributes: unknown values and missing
      ones count as APPROVE. */
  function ReadingSeverity(rec: Option<string>): nat
  {
    if rec == Some("REJECT") then 2 else if rec == Some("REVIEW") then 1 else 0
  }

  function MaxSeverity(recs: seq<Option<string>>): nat
  {
    if |recs| == 0 then 0
    else
      var m := MaxSeverity(recs[..|recs| - 1]);
      var s := ReadingSeverity(recs[|recs| - 1]);
      if s > m then s else m
  }

  /** The combined recommendation is the worst single reading, raised to
      REJECT by any day over its limit. */
  lemma {:induction false} CombinedIsWorst(recs: seq<Option<string>>, dailyViolations: nat)
    ensures Severity(GenerateCombinedRecommendation(recs, dailyViolations)) ==
      (if dailyViolations > 0 then 2 else MaxSeverity(recs))
  {
    MaxSeverityIsWorst(recs);
  }

  lemma {:induction false} MaxSeverityIsWorst(recs: seq<Option<string>>)
    ensures MaxSeverity(recs) == 2 <==> Some("REJECT") in recs
    ensures MaxSeverity(recs) >= 1 <==> Some("REJECT") in recs || Some("REVIEW") in recs
    ensures MaxSeverity(recs) <= 2
  {
    if |recs| > 0 {
      MaxSeverityIsWorst(recs[..|recs| - 1]);
      assert forall r :: r in recs <==> r in recs[..|recs| - 1] || r == recs[|recs| - 1];
    }
  }

  function DayTotals(days: seq<DaySummary>): real
  {
    if |days| == 0 then 0.0 else DayTotals(days[..|days| - 1]) + days[|days| - 1].totalAmount
  }

  lemma {:induction false} DayTotalsBounded(days: seq<DaySummary>, lo: real, hi: real)
    requires forall i :: 0 <= i < |days| ==> lo <= days[i].totalAmount <= hi
    ensures lo * |days| as real <= DayTotals(days) <= hi * |days| as real
  {
    if |days| > 0 {
      DayTotalsBounded(days[..|days| - 1], lo, hi);
    }
  }

  /** `_calculate_average_per_day` (without the rounding to two places): 0
      for no days, otherwise the day totals spread evenly over the days. */
  function AveragePerDay(days: seq<DaySummary>): (avg: real)
    ensures |days| == 0 ==> avg == 0.0
    ensures |days| > 0 ==> avg * |days| as real == DayTotals(days)
  {
    if |days| == 0 then 0.0 else DayTotals(days) / |days| as real
  }

  /** The average lies between the smallest and the largest day total. */
  lemma {:induction false} AverageBetween(days: seq<DaySummary>, lo: real, hi: real)
    requires |days| > 0
    requires forall i :: 0 <= i < |days| ==> lo <= days[i].totalAmount <= hi
    ensures lo <= AveragePerDay(days) <= hi
  {
    DayTotalsBounded(days, lo, hi);
    var n := |days| as real;
    var avg := AveragePerDay(days);
    assert avg * n == DayTotals(days);
    assert (avg - lo) * n >= 0.0;
    assert (hi - avg) * n >= 0.0;
  }

  // ---------------------------------------------------------------------
  // Grade limits as the analyser checks them

  /** `_check_limits`: the same rule as `validate_expense_limits`, over the
      application's rule table. */
  function CheckLimits(category: string, amount: real, grade: string, travelMode: Option<string>): (v: LimitVerdict)
    ensures v.isValid <==> v.error.None?
    ensures grade !in ExpenseRules ==> v.isValid
    ensures v.error.Some? && v.error.value.AmountOverCeiling? ==> amount > v.error.value.ceiling
  {
    ValidateExpenseLimits(ExpenseRules, grade, category, amount, travelMode)
  }

  /** Grade A travel: 1000 by bus passes, 2000 is over the ceiling of 1500, and
      business-class flight is not an allowed mode. */
  lemma CheckLimitsGradeATravel()
    ensures CheckLimits("travel", 1000.0, "A", Some("bus")) == LimitVerdict(true, None)
    ensures CheckLimits("travel", 2000.0, "A", Some("bus")) == LimitVerdict(false, Some(AmountOverCeiling(1500.0)))
    ensures CheckLimits("travel", 1000.0, "A", Some("flight_business")).error.value.ModeNotAllowed?
  {
  }

  // ---------------------------------------------------------------------
  // The model's reply

  /** The dict `_get_fallback_analysis` returns. */
  datatype FallbackAnalysis = FallbackAnalysis(
    isAuthentic: Option<bool>,
    confidenceScore: int,
    recommendation: string,
    recommendationReason: string,
    summary: string,
    redFlags: seq<string>,
    aiError: string)

  /** `_get_fallback_analysis`: an analysis that sends the bill to manual
      review and records why. */
  function GetFallbackAnalysis(errorMessage: string): (f: FallbackAnalysis)
    ensures f.recommendation == "REVIEW" && f.confidenceScore == 0 && f.isAuthentic.None?
    ensures f.aiError == errorMessage
    ensures StartsWith(f.recommendationReason, "Manual review required: ")
    ensures |f.redFlags| == 1
  {
    FallbackAnalysis(None, 0, "REVIEW", "Manual review required: " + errorMessage,
                     "AI analysis could not be completed. Manual review required.", ["AI analysis failed"], errorMessage)
  }

  /** What `_parse_ai_response` goes on with: the text of the JSON object to
      decode, or the fallback analysis when there is none. */
  datatype ParsedResponse = JsonText(json: string) | Fallback(analysis: FallbackAnalysis)

  /** The reply stripped, without a leading ```json or ``` fence and a
      trailing ``` fence, stripped again. */
  function StripFences(text: string): (cleaned: string)
    ensures forall c :: c in cleaned ==> c in text
  {
    var s0 := Strip(text);
    StripChars(text);
    var s1 := if StartsWith(s0, "```json") then s0[7..] else if StartsWith(s0, "```") then s0[3..] else s0;
    assert forall c :: c in s1 ==> c in s0;
    var s2 := if EndsWith(s1, "```") then s1[..|s1| - 3] else s1;
    assert forall c :: c in s2 ==> c in s1;
    StripChars(s2);
    Strip(s2)
  }

  /** Strip leaves text that begins and ends with a backquote as it is. */
  lemma BackquotedIsStripped(t: string)
    requires |t| > 0 && t[0] == '`' && t[|t| - 1] == '`'
    ensures Strip(t) == t
  {
    TrimStartNoop(t);
    TrimEndNoop(t);
  }

  /** A reply wrapped in a ```json fence comes out as the wrapped text,
      stripped. */
  lemma {:induction false} JsonFencedReplyUnwrapped(x: string)
    ensures StripFences("```json" + x + "```") == Strip(x)
  {
    var t := "```json" + x + "```";
    BackquotedIsStripped(t);
    assert StartsWith(t, "```json");
    var s1 := t[7..];
    assert s1 == x + "```";
    assert EndsWith(s1, "```");
    assert s1[..|s1| - 3] == x;
  }

  /** A reply wrapped in a bare ``` fence, around text that does not itself
      start with "json", comes out as the wrapped text, stripped. */
  lemma {:induction false} BareFencedReplyUnwrapped(x: string)
    requires !StartsWith(x, "json")
    ensures StripFences("```" + x + "```") == Strip(x)
  {
    var t := "```" + x + "```";
    BackquotedIsStripped(t);
    if |x| >= 4 {
      assert t[3..7] == x[..4] != "json";
      assert t[..7][3..] == t[3..7];
    } else if |x| > 0 {
      assert t[..7][3 + |x|] == '`';
    }
    assert !StartsWith(t, "```json");
    assert StartsWith(t, "```");
    var s1 := t[3..];
    assert s1 == x + "```";
    assert EndsWith(s1, "```");
    assert s1[..|s1| - 3] == x;
  }

  /** A reply with no fence at either end, once stripped, is only stripped. */
  lemma {:induction false} UnfencedReplyStripped(text: string)
    requires !StartsWith(Strip(text), "```") && !EndsWith(Strip(text), "```")
    ensures StripFences(text) == Strip(text)
  {
    var s0 := Strip(text);
    if |s0| >= 7 {
      assert s0[..7][..3] == s0[..3];
    }
    assert !StartsWith(s0, "```json");
    StripIdempotent(text);
  }

  /** A `{` somewhere before a `}`. */
  predicate HasBraceSpan(s: string)
  {
    exists i, j :: 0 <= i < j < |s| && s[i] == '{' && s[j] == '}'
  }

  /** The slice from the first `{` to the last `}`, when a `{` precedes a `}`. */
  function ExtractJson(cleaned: string): (json: Option<string>)
    ensures json.None? <==> !HasBraceSpan(cleaned)
    ensures json.Some? ==>
      |json.value| >= 2 && json.value[0] == '{' && json.value[|json.value| - 1] == '}' &&
      exists k :: 0 <= k && k + |json.value| <= |cleaned| && cleaned[k..k + |json.value|] == json.value &&
        '{' !in cleaned[..k] && '}' !in cleaned[k + |json.value|..]
  {
    var start := Find(cleaned, '{');
    var last := RFind(cleaned, '}');
    if start.None? || last.None? || last.value + 1 <= start.value then
      None
    else
      var s := start.value;
      var e := last.value + 1;
      assert cleaned[s] == '{' && cleaned[e - 1] == '}' && s < e - 1;
      assert cleaned[s..e][0] == '{' && cleaned[s..e][e - s - 1] == '}';
      Some(cleaned[s..e])
  }

  /** `_parse_ai_response` up to `json.loads`: the object text of the cleaned
      reply, or the fallback "No JSON in AI response" when it has no `{`
      before a `}` (in particular when the reply has no braces at all). */
  function ParseAiResponse(text: string): (r: ParsedResponse)
    ensures r.Fallback? <==> !HasBraceSpan(StripFences(text))
    ensures r.Fallback? ==> r.analysis == GetFallbackAnalysis("No JSON in AI response")
    ensures r.JsonText? ==> Some(r.json) == ExtractJson(StripFences(text))
    ensures '{' !in text || '}' !in text ==> r.Fallback?
  {
    match ExtractJson(StripFences(text))
    case None => Fallback(GetFallbackAnalysis("No JSON in AI response"))
    case Some(json) => JsonText(json)
  }

  /** A reply without braces, such as plain prose, falls back to manual review. */
  lemma ProseFallsBack()
    ensures ParseAiResponse("This is not JSON at all") == Fallback(GetFallbackAnalysis("No JSON in AI response"))
    ensures ParseAiResponse("This is not JSON at all").analysis.recommendation == "REVIEW"
  {
    assert '{' !in "This is not JSON at all";
  }

  // ---------------------------------------------------------------------
  // A bill reading as the routes see it

  /** The fields of the decoded reply the claim routes read. */
  datatype AiReading = AiReading(
    recommendation: Option<string>,
    billNumber: Option<string>,
    vendorName: Option<string>,
    billDate: Option<int>,
    travelMode: Option<string>)

  /** `analyze_bill`'s result: the reading, and the `is_within_limits` tuple
      it attaches, absent when the analysis raised and fell back. */
  datatype BillAnalysis = BillAnalysis(reading: AiReading, limitCheck: Option<LimitVerdict>)

  /** `analyze_bill` around its two outcomes: `reading` is the decoded reply
      (`None` when the call raised), and the limit check is made with the
      travel mode the model read off the bill. */
  function AnalyzeBill(reading: Option<AiReading>, category: string, amount: real, grade: string): (a: BillAnalysis)
    ensures reading.None? ==> a.reading.recommendation == Some("REVIEW") && a.limitCheck.None?
    ensures reading.Some? ==> a.reading == reading.value
    ensures reading.Some? ==> a.limitCheck == Some(CheckLimits(category, amount, grade, reading.value.travelMode))
  {
    match reading
    case None => BillAnalysis(AiReading(Some(GetFallbackAnalysis("").recommendation), None, None, None, None), None)
    case Some(r) => BillAnalysis(r, Some(CheckLimits(category, amount, grade, r.travelMode)))
  }
}
