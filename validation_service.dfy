/** Grade-based limit checks over the expense rule table: the per-claim
    ceiling and, for travel, the allow-list of travel modes. The check fails
    open: a grade or category the table does not know is within limits. */
module ValidationService {

  import opened Wrappers
  import opened Strings
  import opened Settings

  datatype LimitViolation =
    | AmountOverCeiling(ceiling: real)
    | ModeNotAllowed(mode: string, allowedModes: seq<string>)

  /** `(is_valid, error_message)`; the message text itself is not modelled,
      only which rule produced it. */
  datatype LimitVerdict = LimitVerdict(isValid: bool, error: Option<LimitViolation>)

  /** Python truthiness of an optional number: present and non-zero. */
  predicate Truthy(x: Option<real>)
  {
    x.Some? && x.value != 0.0
  }

  /** `validate_expense_limits`: the ceiling first, then the travel mode. */
  function ValidateExpenseLimits(rules: RuleTable, grade: string, category: string, amount: real, travelMode: Option<string>): (v: LimitVerdict)
    ensures v.isValid <==> v.error.None?
    ensures LookupRule(rules, grade, category).None? ==> v.isValid
    ensures v.error.Some? && v.error.value.AmountOverCeiling? ==>
      LookupRule(rules, grade, category).Some? &&
      LookupRule(rules, grade, category).value.maxAmount == Some(v.error.value.ceiling) &&
      v.error.value.ceiling != 0.0 && amount > v.error.value.ceiling
    ensures v.error.Some? && v.error.value.ModeNotAllowed? ==>
      category == "travel" && travelMode == Some(v.error.value.mode) &&
      LookupRule(rules, grade, category).Some? &&
      v.error.value.allowedModes == LookupRule(rules, grade, category).value.allowedModes &&
      |v.error.value.allowedModes| > 0 && v.error.value.mode !in v.error.value.allowedModes
  {
    match LookupRule(rules, grade, category)
    case None => LimitVerdict(true, None)
    case Some(rule) =>
      if Truthy(rule.maxAmount) && amount > rule.maxAmount.value then
        LimitVerdict(false, Some(AmountOverCeiling(rule.maxAmount.value)))
      else if category == "travel" && Given(travelMode)
              && |rule.allowedModes| > 0 && travelMode.value !in rule.allowedModes then
        LimitVerdict(false, Some(ModeNotAllowed(travelMode.value, rule.allowedModes)))
      else
        LimitVerdict(true, None)
  }

  /** The ceiling is strict: an amount equal to it passes, one above it fails,
      and a missing or zero ceiling is never checked. */
  lemma CeilingIsStrict(rules: RuleTable, grade: string, category: string, amount: real, travelMode: Option<string>)
    requires LookupRule(rules, grade, category).Some?
    ensures var rule := LookupRule(rules, grade, category).value;
            var v := ValidateExpenseLimits(rules, grade, category, amount, travelMode);
            (Truthy(rule.maxAmount) && amount > rule.maxAmount.value ==> v.error == Some(AmountOverCeiling(rule.maxAmount.value))) &&
            (!Truthy(rule.maxAmount) || amount <= rule.maxAmount.value ==> v.error.None? || v.error.value.ModeNotAllowed?)
  {
  }

  /** An over-ceiling claim with a bad travel mode reports the ceiling. */
  lemma CeilingBeforeMode(rules: RuleTable, grade: string, amount: real, mode: string)
    requires LookupRule(rules, grade, "travel").Some?
    requires Truthy(LookupRule(rules, grade, "travel").value.maxAmount)
    requires amount > LookupRule(rules, grade, "travel").value.maxAmount.value
    ensures ValidateExpenseLimits(rules, grade, "travel", amount, Some(mode)).error.value.AmountOverCeiling?
  {
  }

  /** Within the ceiling, a travel claim with a given mode and a non-empty
      allow-list is refused exactly when the mode is not on the list; other
      categories never look at the mode. */
  lemma ModeCheck(rules: RuleTable, grade: string, category: string, amount: real, mode: string)
    requires LookupRule(rules, grade, category).Some?
    requires var rule := LookupRule(rules, grade, category).value;
             !Truthy(rule.maxAmount) || amount <= rule.maxAmount.value
    ensures var rule := LookupRule(rules, grade, category).value;
            ValidateExpenseLimits(rules, grade, category, amount, Some(mode)).isValid <==>
              (category != "travel" || mode == "" || |rule.allowedModes| == 0 || mode in rule.allowedModes)
  {
  }

  /** `get_category_limit`: the category's ceiling, or `None`. */
  function GetCategoryLimit(rules: RuleTable, grade: string, category: string): (limit: Option<real>)
    ensures grade !in rules ==> limit.None?
    ensures limit.Some? ==> LookupRule(rules, grade, category).Some? && LookupRule(rules, grade, category).value.maxAmount == limit
    ensures LookupRule(rules, grade, category).Some? ==> limit == LookupRule(rules, grade, category).value.maxAmount
    ensures LookupRule(rules, grade, category).None? ==> limit.None?
  {
    match LookupRule(rules, grade, category)
    case None => None
    case Some(rule) => rule.maxAmount
  }

  /** `get_allowed_travel_modes`: the travel allow-list, or the empty list. */
  function GetAllowedTravelModes(rules: RuleTable, grade: string): (modes: seq<string>)
    ensures grade !in rules ==> modes == []
    ensures LookupRule(rules, grade, "travel").Some? ==> modes == LookupRule(rules, grade, "travel").value.allowedModes
  {
    match LookupRule(rules, grade, "travel")
    case None => []
    case Some(rule) => rule.allowedModes
  }

  /** A mode on the allow-list returned for a grade passes the travel check. */
  lemma AllowedModePasses(rules: RuleTable, grade: string, amount: real, mode: string)
    requires mode in GetAllowedTravelModes(rules, grade)
    requires GetCategoryLimit(rules, grade, "travel").None? || amount <= GetCategoryLimit(rules, grade, "travel").value
    ensures ValidateExpenseLimits(rules, grade, "travel", amount, Some(mode)).isValid
  {
  }

  datatype ExpenseItem = ExpenseItem(category: string, amount: real, travelMode: Option<string>)

  datatype BatchEntry = BatchEntry(index: nat, valid: bool, error: Option<LimitViolation>)

  datatype BatchReport = BatchReport(allValid: bool, entries: seq<BatchEntry>, totalViolations: nat)

  function EntryFor(rules: RuleTable, grade: string, item: ExpenseItem, index: nat): BatchEntry
  {
    var v := ValidateExpenseLimits(rules, grade, item.category, item.amount, item.travelMode);
    BatchEntry(index, v.isValid, v.error)
  }

  /** Number of entries that failed. */
  function Violations(entries: seq<BatchEntry>): nat
  {
    if |entries| == 0 then 0
    else Violations(entries[..|entries| - 1]) + (if entries[|entries| - 1].valid then 0 else 1)
  }

  /** No violation counted exactly when every entry passed. */
  lemma {:induction false} NoViolationsIffAllValid(entries: seq<BatchEntry>)
    ensures Violations(entries) == 0 <==> forall i :: 0 <= i < |entries| ==> entries[i].valid
  {
    if |entries| > 0 {
      NoViolationsIffAllValid(entries[..|entries| - 1]);
    }
  }

  /** `validate_multiple_expenses`: one entry per item, in order, numbered by
      position; the violation count and the overall flag agree with them. */
  method ValidateMultipleExpenses(rules: RuleTable, items: seq<ExpenseItem>, grade: string) returns (report: BatchReport)
    ensures |report.entries| == |items|
    ensures forall i :: 0 <= i < |items| ==> report.entries[i] == EntryFor(rules, grade, items[i], i)
    ensures report.totalViolations == Violations(report.entries)
    ensures report.allValid <==> forall i :: 0 <= i < |items| ==> report.entries[i].valid
  {
    report := BatchReport(true, [], 0);
    var idx := 0;
    while idx < |items|
      invariant 0 <= idx <= |items|
      invariant |report.entries| == idx
      invariant forall i :: 0 <= i < idx ==> report.entries[i] == EntryFor(rules, grade, items[i], i)
      invariant report.totalViolations == Violations(report.entries)
      invariant report.allValid <==> report.totalViolations == 0
    {
      var item := items[idx];
      var v := ValidateExpenseLimits(rules, grade, item.category, item.amount, item.travelMode);
      var entry := BatchEntry(idx, v.isValid, v.error);
      assert entry == EntryFor(rules, grade, item, idx);
      var entries := report.entries + [entry];
      assert entries[..|entries| - 1] == report.entries;
      report := report.(entries := entries);
      if !v.isValid {
        report := report.(allValid := false, totalViolations := report.totalViolations + 1);
      }
      idx := idx + 1;
    }
    NoViolationsIffAllValid(report.entries);
  }
}
