/** Claim admission: the decisions `create_expense_claim` (one bill, or a
    self-declaration without one) and `create_multi_bill_claim` make before a
    claim is stored, and the rows an admitted claim starts with. What the
    route learns from outside (this month's self-declared claims, the AI
    reading of each bill, each file's content hash, the new row id, the
    expense number, the clock) arrives as parameters. */
module ClaimAdmission {

  import opened Wrappers
  import opened Strings
  import opened Models
  import opened SelfDeclarationLimits
  import opened FileHandler
  import opened DuplicateDetector
  import opened AiService
  import opened ClaimStore
  import opened ApprovalRoutes

  /** A date field of the form: absent or empty, not in YYYY-MM-DD form, or a day. */
  datatype DateText = Blank | Malformed | Day(day: int)

  /** An uploaded bill: its name and size, the hash of its content (`None`
      when it could not be read), and the AI's reading of it (`None` when
      the analysis raised). */
  datatype Upload = Upload(filename: string, size: nat, fileHash: Option<string>, reading: Option<AiReading>)

  /** Why a claim is refused. */
  datatype ClaimError =
    | NoClaimPermission
    | CategoryNeedsBill
    | OverSelfDeclarationLimit(perClaim: real)
    | MonthlyCountReached(maxCount: real)
    | MonthlyTotalExceeded(monthlyTotal: real, remaining: real)
    | DescriptionTooShort
    | ReasonMissing
    | BillRequired
    | InvalidDate
    | InvalidFile(error: FileError)
    | DuplicateBlocked(original: Expense)
    | InvalidAmount(bill: nat)
    | LengthMismatch
    | InvalidTripDates
    | InvalidBillDate(bill: nat)
    | BillOutsideTrip(bill: nat)
    | DuplicatesBlocked(bills: seq<nat>)
    | RecordRefused

  // ---------------------------------------------------------------------
  // The rows a new claim starts with

  /** The manager slot a new claim opens, assigned to `manager`. */
  function ManagerSlot(e: Expense, manager: User): ApprovalRecord
  {
    ApprovalRecord(e.id, manager.id, ManagerLevel, Pending, None, None)
  }

  /** A stored claim waiting at the manager level. */
  predicate AwaitsManager(e: Expense)
  {
    e.status == Submitted && e.currentApproverLevel == Some(LevelName(ManagerLevel))
  }

  /** The rows of a stored claim: when an active manager exists, one
      pending MANAGER record assigned to the first of them and one alert
      (of the given template) to that manager; otherwise neither. */
  function Opened(e: Expense, users: seq<User>, alert: string): (rows: Rows)
    ensures rows.expense == Some(e)
    ensures FirstActive(users, Manager).None? ==> rows.approvals == [] && rows.outbox == []
    ensures FirstActive(users, Manager).Some? ==>
      rows.approvals == [ManagerSlot(e, FirstActive(users, Manager).value)] &&
      rows.outbox == [Notification(FirstActive(users, Manager).value.id, ExpenseSubmitted, Some(e.id), Template(alert))]
    ensures AwaitsManager(e) ==> Consistent(rows)
  {
    match FirstActive(users, Manager)
    case None => Rows(Some(e), [], [])
    case Some(m) => Rows(Some(e), [ManagerSlot(e, m)], [Notification(m.id, ExpenseSubmitted, Some(e.id), Template(alert))])
  }

  /** A claim opened while a manager is active can be approved by any
      manager; one opened while none is can never be decided by anyone. */
  lemma OpenedClaimDecisions(e: Expense, users: seq<User>, alert: string, caller: User, comments: Option<string>,
                             later: seq<User>, generated: Option<string>, now: int)
    requires AwaitsManager(e)
    ensures FirstActive(users, Manager).Some? && caller.role == Manager ==>
      ApproveStep(Opened(e, users, alert), e.id, caller, comments, later, now).Ok? &&
      RejectStep(Opened(e, users, alert), e.id, caller, comments, generated, now).Ok?
    ensures FirstActive(users, Manager).None? ==>
      ApproveStep(Opened(e, users, alert), e.id, caller, comments, later, now).Err? &&
      RejectStep(Opened(e, users, alert), e.id, caller, comments, generated, now).Err?
  {
    var rows := Opened(e, users, alert);
    if FirstActive(users, Manager).Some? && caller.role == Manager {
      assert Slot(rows.approvals[0], e.id, ManagerLevel);
    }
  }

  // ---------------------------------------------------------------------
  // Self-declaration

  /** The six self-declaration checks, in the order the route makes them;
      the first that fails refuses the claim. `count` and `total` are the
      employee's self-declared claims created this month. */
  function SelfDeclarationRefusal(grade: string, category: string, amount: real, description: string,
                                  noBillReason: Option<string>, count: nat, total: real): (refusal: Option<ClaimError>)
    ensures refusal.None? <==>
      !IsCategoryForbidden(category) &&
      amount <= GetSelfDeclarationLimit(grade, "per_claim") &&
      (count as real) < GetSelfDeclarationLimit(grade, "max_count") &&
      total + amount <= GetSelfDeclarationLimit(grade, "monthly_total") &&
      |description| >= 50 && Given(noBillReason)
  {
    var perClaim := GetSelfDeclarationLimit(grade, "per_claim");
    var maxCount := GetSelfDeclarationLimit(grade, "max_count");
    var monthly := GetSelfDeclarationLimit(grade, "monthly_total");
    if IsCategoryForbidden(category) then Some(CategoryNeedsBill)
    else if amount > perClaim then Some(OverSelfDeclarationLimit(perClaim))
    else if count as real >= maxCount then Some(MonthlyCountReached(maxCount))
    else if total + amount > monthly then Some(MonthlyTotalExceeded(monthly, monthly - total))
    else if |description| < 50 then Some(DescriptionTooShort)
    else if !Given(noBillReason) then Some(ReasonMissing)
    else None
  }

  /** Each refusal names the first check that failed: every earlier check passed. */
  lemma SelfDeclarationOrder(grade: string, category: string, amount: real, description: string,
                             noBillReason: Option<string>, count: nat, total: real)
    ensures var r := SelfDeclarationRefusal(grade, category, amount, description, noBillReason, count, total);
            var perClaim := GetSelfDeclarationLimit(grade, "per_claim");
            var maxCount := GetSelfDeclarationLimit(grade, "max_count");
            var monthly := GetSelfDeclarationLimit(grade, "monthly_total");
            (IsCategoryForbidden(category) ==> r == Some(CategoryNeedsBill)) &&
            (!IsCategoryForbidden(category) && amount > perClaim ==> r == Some(OverSelfDeclarationLimit(perClaim))) &&
            (!IsCategoryForbidden(category) && amount <= perClaim && count as real >= maxCount ==>
               r == Some(MonthlyCountReached(maxCount))) &&
            (!IsCategoryForbidden(category) && amount <= perClaim && count as real < maxCount && total + amount > monthly ==>
               r == Some(MonthlyTotalExceeded(monthly, monthly - total))) &&
            (r == Some(DescriptionTooShort) <==>
               !IsCategoryForbidden(category) && amount <= perClaim && count as real < maxCount &&
               total + amount <= monthly && |description| < 50) &&
            (r == Some(ReasonMissing) <==>
               !IsCategoryForbidden(category) && amount <= perClaim && count as real < maxCount &&
               total + amount <= monthly && |description| >= 50 && !Given(noBillReason))
  {
  }

  /** A self-declaration that passes keeps the month within the grade's
      limits: one more claim stays within the count, and the month's total
      with this claim stays within the monthly limit, which no single
      claim's own limit reaches. */
  lemma SelfDeclarationKeepsMonthWithinLimits(grade: string, category: string, amount: real, description: string,
                                              noBillReason: Option<string>, count: nat, total: real)
    requires SelfDeclarationRefusal(grade, category, amount, description, noBillReason, count, total).None?
    ensures (count + 1) as real <= GetSelfDeclarationLimit(grade, "max_count") == 3.0
    ensures total + amount <= GetSelfDeclarationLimit(grade, "monthly_total")
    ensures amount <= GetSelfDeclarationLimit(grade, "per_claim") < GetSelfDeclarationLimit(grade, "monthly_total")
    ensures Lower(category) != "accommodation"
  {
    TiersOrdered();
    assert TierName(grade) in Limits;
  }

  // ---------------------------------------------------------------------
  // One bill, or a self-declaration

  /** The form fields of `create_expense_claim` the decision reads. */
  datatype ClaimForm = ClaimForm(
    category: string,
    amount: real,
    expenseDate: DateText,
    description: string,
    travelMode: Option<string>,
    isSelfDeclaration: bool,
    noBillReason: Option<string>,
    billFile: Option<Upload>)

  /** What the route learns besides the form: the stored claims, this
      month's self-declared count and total, the new row's id and expense
      number, the timestamp the self-declaration hash is made of, and now. */
  datatype Surroundings = Surroundings(
    prior: seq<Expense>,
    monthCount: nat,
    monthTotal: real,
    newId: nat,
    expenseNumber: string,
    stamp: string,
    now: int)

  /** The reading a self-declaration stands in for the AI's. */
  function SelfDeclaredReading(form: ClaimForm, date: int): AiReading
  {
    AiReading(Some("REVIEW"), Some("SELF-DECL"), Some("Not Provided"), Some(date), form.travelMode)
  }

  /** The stored claim: submitted now at the MANAGER level, with the
      category stripped and lower-cased, the form's travel mode or else the
      one read off the bill, the reading's bill number and vendor, its
      recommendation or "REVIEW", and the duplicate verdict's hash, status
      and original. */
  function NewClaim(user: User, form: ClaimForm, env: Surroundings, date: int, reading: AiReading,
                    withinLimits: bool, v: DuplicateVerdict): (e: Expense)
    ensures AwaitsManager(e) && e.submittedAt == Some(env.now)
    ensures e.id == env.newId && e.employeeId == user.id && e.amount == form.amount && e.expenseDate == date
    ensures e.category == Lower(Strip(form.category))
    ensures e.duplicateCheckStatus == (if v.isDuplicate then "suspected" else "clean")
  {
    Expense(env.newId, env.expenseNumber, user.id, Lower(Strip(form.category)), form.amount, date, form.description,
            if Given(form.travelMode) then form.travelMode else reading.travelMode,
            reading.billNumber, reading.vendorName, Some(reading.recommendation.UnwrapOr("REVIEW")),
            withinLimits, form.isSelfDeclaration, if form.isSelfDeclaration then form.noBillReason else None,
            v.fileHash, if v.isDuplicate then "suspected" else "clean",
            if v.original.Some? then Some(v.original.value.id) else None,
            Submitted, Some(LevelName(ManagerLevel)), Some(env.now), None, None, None, None)
  }

  /** The duplicate verdict of a bill: the full check against the stored
      claims with what the AI read off it. */
  function BillVerdict(prior: seq<Expense>, file: Upload, a: BillAnalysis, employeeId: nat): DuplicateVerdict
  {
    PerformFullCheck(prior, file.fileHash, a.reading.billNumber, a.reading.vendorName, a.reading.billDate, employeeId, None)
  }

  /** A bill's verdict carries the file's hash, names an original exactly
      when it is a duplicate, and a duplicate that does not block was found
      by the bill details. */
  lemma BillVerdictFacts(prior: seq<Expense>, file: Upload, a: BillAnalysis, employeeId: nat)
    ensures var v := BillVerdict(prior, file, a, employeeId);
            v.fileHash == file.fileHash && (v.isDuplicate <==> v.original.Some?) &&
            (v.isDuplicate && !v.shouldBlock ==> v.duplicateType == Some(BillDetails))
  {
  }

  /** `create_expense_claim`: the permission, the self-declaration checks,
      the bill requirement, the date, the upload, then the duplicate check
      that blocks; on success the rows of the new claim. */
  function CreateExpenseClaim(user: User, form: ClaimForm, env: Surroundings, users: seq<User>): (r: Result<Rows, ClaimError>)
    ensures !user.canClaimExpenses ==> r == Err(NoClaimPermission)
    ensures r.Ok? ==> r.value.expense.Some? && AwaitsManager(r.value.expense.value) && Consistent(r.value)
  {
    if !user.canClaimExpenses then Err(NoClaimPermission)
    else if form.isSelfDeclaration &&
            SelfDeclarationRefusal(user.grade, form.category, form.amount, form.description,
                                   form.noBillReason, env.monthCount, env.monthTotal).Some? then
      Err(SelfDeclarationRefusal(user.grade, form.category, form.amount, form.description,
                                 form.noBillReason, env.monthCount, env.monthTotal).value)
    else if !form.isSelfDeclaration && form.billFile.None? then Err(BillRequired)
    else if !form.expenseDate.Day? then Err(InvalidDate)
    else if form.isSelfDeclaration then
      var date := form.expenseDate.day;
      var e := NewClaim(user, form, env, date, SelfDeclaredReading(form, date), true, NoDuplicate(Some("SELF-" + env.stamp)));
      Ok(Opened(e, users, "self_declaration_alert"))
    else
      var file := form.billFile.value;
      var check := ValidateFile(file.filename, file.size);
      if !check.isValid then Err(InvalidFile(check.error.value))
      else
        var a := AnalyzeBill(file.reading, form.category, form.amount, user.grade);
        var v := BillVerdict(env.prior, file, a, user.id);
        if v.shouldBlock then Err(DuplicateBlocked(v.original.value))
        else
          var withinLimits := if a.limitCheck.Some? then a.limitCheck.value.isValid else true;
          var e := NewClaim(user, form, env, form.expenseDate.day, a.reading, withinLimits, v);
          Ok(Opened(e, users, if v.isDuplicate then "duplicate_alert" else "new_claim"))
  }

  /** The refusals that come before any file is looked at, in order. */
  lemma ClaimRefusalOrder(user: User, form: ClaimForm, env: Surroundings, users: seq<User>)
    requires user.canClaimExpenses
    ensures var refusal := SelfDeclarationRefusal(user.grade, form.category, form.amount, form.description,
                                                  form.noBillReason, env.monthCount, env.monthTotal);
            var r := CreateExpenseClaim(user, form, env, users);
            (form.isSelfDeclaration && refusal.Some? ==> r == Err(refusal.value)) &&
            (!form.isSelfDeclaration && form.billFile.None? ==> r == Err(BillRequired)) &&
            (form.isSelfDeclaration ==> (r.Ok? <==> refusal.None? && form.expenseDate.Day?)) &&
            (!form.expenseDate.Day? ==> r.Err?)
  {
  }

  /** A bill whose hash matches one of the employee's submitted or approved
      claims is refused, naming the first such claim, and nothing is stored. */
  lemma ExactDuplicateRefused(user: User, form: ClaimForm, env: Surroundings, users: seq<User>)
    requires user.canClaimExpenses && !form.isSelfDeclaration && form.billFile.Some? && form.expenseDate.Day?
    requires ValidateFile(form.billFile.value.filename, form.billFile.value.size).isValid
    requires var h := form.billFile.value.fileHash;
             h.Some? && h.value != "" && CheckDuplicateByHash(env.prior, h.value, user.id, None).Some?
    ensures CreateExpenseClaim(user, form, env, users) ==
            Err(DuplicateBlocked(CheckDuplicateByHash(env.prior, form.billFile.value.fileHash.value, user.id, None).value))
  {
  }

  /** The claim an admitted bill produces, and the verdict it records. */
  lemma AdmittedBill(user: User, form: ClaimForm, env: Surroundings, users: seq<User>)
    returns (a: BillAnalysis, v: DuplicateVerdict, e: Expense)
    requires !form.isSelfDeclaration
    requires CreateExpenseClaim(user, form, env, users).Ok?
    ensures form.billFile.Some? && form.expenseDate.Day?
    ensures a == AnalyzeBill(form.billFile.value.reading, form.category, form.amount, user.grade)
    ensures v == BillVerdict(env.prior, form.billFile.value, a, user.id) && !v.shouldBlock
    ensures e == NewClaim(user, form, env, form.expenseDate.day, a.reading,
                          if a.limitCheck.Some? then a.limitCheck.value.isValid else true, v)
    ensures CreateExpenseClaim(user, form, env, users).value.expense == Some(e)
  {
    var file := form.billFile.value;
    assert ValidateFile(file.filename, file.size).isValid;
    a := AnalyzeBill(file.reading, form.category, form.amount, user.grade);
    v := BillVerdict(env.prior, file, a, user.id);
    e := NewClaim(user, form, env, form.expenseDate.day, a.reading,
                  if a.limitCheck.Some? then a.limitCheck.value.isValid else true, v);
  }

  /** What an admitted bill claim records: the claim is "suspected" exactly
      when the full check found a duplicate (which then did not block), and
      it links that original; the hash is the file's. */
  lemma BillClaimRecordsVerdict(user: User, form: ClaimForm, env: Surroundings, users: seq<User>)
    requires !form.isSelfDeclaration
    requires CreateExpenseClaim(user, form, env, users).Ok?
    ensures var e := CreateExpenseClaim(user, form, env, users).value.expense.value;
            var file := form.billFile.value;
            var a := AnalyzeBill(file.reading, form.category, form.amount, user.grade);
            var v := BillVerdict(env.prior, file, a, user.id);
            !v.shouldBlock &&
            (e.duplicateCheckStatus == "suspected" <==> v.isDuplicate) &&
            (v.isDuplicate ==> v.duplicateType == Some(BillDetails) && e.duplicateOf == Some(v.original.value.id)) &&
            e.fileHash == file.fileHash && !e.isSelfDeclaration && e.declarationReason.None?
  {
    var a, v, e := AdmittedBill(user, form, env, users);
    BillVerdictFacts(env.prior, form.billFile.value, a, user.id);
    NewClaimKeepsVerdict(user, form, env, form.expenseDate.day, a.reading,
                         if a.limitCheck.Some? then a.limitCheck.value.isValid else true, v);
  }

  /** The new claim records the verdict: "suspected" exactly for a
      duplicate, the original it found, and the verdict's hash. */
  lemma NewClaimKeepsVerdict(user: User, form: ClaimForm, env: Surroundings, date: int, reading: AiReading,
                             withinLimits: bool, v: DuplicateVerdict)
    requires v.isDuplicate <==> v.original.Some?
    ensures var e := NewClaim(user, form, env, date, reading, withinLimits, v);
            (e.duplicateCheckStatus == "suspected" <==> v.isDuplicate) &&
            (v.isDuplicate ==> e.duplicateOf == Some(v.original.value.id)) &&
            e.fileHash == v.fileHash && e.isSelfDeclaration == form.isSelfDeclaration &&
            (!form.isSelfDeclaration ==> e.declarationReason.None?)
  {
    assert "suspected" != "clean";
  }

  /** An admitted bill claim is within limits unless the AI's reading came
      back and the grade's limits refuse it. */
  lemma BillClaimWithinLimits(user: User, form: ClaimForm, env: Surroundings, users: seq<User>)
    requires !form.isSelfDeclaration
    requires CreateExpenseClaim(user, form, env, users).Ok?
    ensures var e := CreateExpenseClaim(user, form, env, users).value.expense.value;
            var reading := form.billFile.value.reading;
            e.isWithinLimits <==> reading.None? || CheckLimits(form.category, form.amount, user.grade, reading.value.travelMode).isValid
  {
    var a, v, e := AdmittedBill(user, form, env, users);
  }

  /** What an admitted self-declaration records: no duplicate check, a
      "SELF-" hash, the reason, and a recommendation of REVIEW. */
  lemma SelfDeclarationRecords(user: User, form: ClaimForm, env: Surroundings, users: seq<User>)
    requires form.isSelfDeclaration
    requires CreateExpenseClaim(user, form, env, users).Ok?
    ensures var e := CreateExpenseClaim(user, form, env, users).value.expense.value;
            e.isSelfDeclaration && e.declarationReason == form.noBillReason && Given(e.declarationReason) &&
            e.duplicateCheckStatus == "clean" && e.duplicateOf.None? &&
            e.fileHash == Some("SELF-" + env.stamp) && e.aiRecommendation == Some("REVIEW") &&
            e.billNumber == Some("SELF-DECL") && e.isWithinLimits && e.travelMode == form.travelMode
  {
  }

  // ---------------------------------------------------------------------
  // Several bills: the amounts

  /** Python `float()` on an unsigned amount: digits, optionally a dot and
      more digits, with at least one digit in all. */
  function ParseUnsigned(s: string): (v: Option<real>)
    ensures v.Some? ==> v.value >= 0.0
    ensures |s| > 0 && AllDigits(s) ==> v == Some(DecimalValue(s) as real)
  {
    match Find(s, '.')
    case None => if |s| > 0 && AllDigits(s) then Some(DecimalValue(s) as real) else None
    case Some(k) =>
      var whole := s[..k];
      var fraction := s[k + 1..];
      if |whole| + |fraction| > 0 && AllDigits(whole) && AllDigits(fraction) then
        Some(DecimalValue(whole) as real + DecimalValue(fraction) as real / Pow10(|fraction|) as real)
      else None
  }

  /** Python `float()` on the amounts a form carries: an optional sign, then
      an unsigned amount. */
  function ParseAmount(s: string): (v: Option<real>)
    ensures |s| > 0 && AllDigits(s) ==> v == Some(DecimalValue(s) as real)
    ensures |s| > 0 && s[0] == '-' ==> v.None? || v.value <= 0.0
  {
    if |s| > 0 && (s[0] == '-' || s[0] == '+') then
      match ParseUnsigned(s[1..])
      case None => None
      case Some(x) => Some(if s[0] == '-' then -x else x)
    else ParseUnsigned(s)
  }

  /** Reading back a whole number written in decimal gives that number. */
  lemma AmountRoundTrip(n: nat)
    ensures ParseAmount(NatToDecimal(n)) == Some(n as real)
  {
    DecimalRoundTrip(n);
  }

  /** Reading back rupees and two digits of paise gives the amount. */
  lemma {:induction false} AmountWithPaise(rupees: nat, paise: nat)
    requires paise < 100
    ensures ParseAmount(NatToDecimal(rupees) + "." + ZeroPadded(paise, 2)) == Some(rupees as real + paise as real / 100.0)
  {
    var whole, fraction := NatToDecimal(rupees), ZeroPadded(paise, 2);
    DecimalLength(paise, 2, 100);
    assert |fraction| == 2;
    assert Pow10(|fraction|) == 100;
    ZeroPaddedValue(paise, 2);
    DecimalRoundTrip(rupees);
    PointedAmount(whole, fraction);
    Hundredths(DecimalValue(whole), DecimalValue(fraction), Pow10(|fraction|), rupees, paise);
  }

  /** The same rupees and paise give the same amount. */
  lemma Hundredths(w: nat, f: nat, scale: nat, rupees: nat, paise: nat)
    requires w == rupees && f == paise && scale == 100
    ensures w as real + f as real / scale as real == rupees as real + paise as real / 100.0
  {
  }

  /** Digits, a dot and more digits read as the whole part plus the
      fraction scaled by its number of digits. */
  lemma {:induction false} PointedAmount(whole: string, fraction: string)
    requires |whole| > 0 && AllDigits(whole) && AllDigits(fraction)
    ensures ParseAmount(whole + "." + fraction) ==
            Some(DecimalValue(whole) as real + DecimalValue(fraction) as real / Pow10(|fraction|) as real)
  {
    var s := whole + "." + fraction;
    assert s[0] == whole[0];
    assert s[..|whole|] == whole && s[|whole|] == '.' && s[|whole| + 1..] == fraction;
    assert '.' !in whole by {
      assert forall i :: 0 <= i < |whole| ==> IsDigit(whole[i]);
    }
    assert Find(s, '.') == Some(|whole|);
    assert ParseAmount(s) == ParseUnsigned(s);
  }

  /** How `float(amt.strip())` reads each piece of the amounts field. */
  function Readings(pieces: seq<string>): (readings: seq<Option<real>>)
    ensures |readings| == |pieces|
    ensures forall i :: 0 <= i < |pieces| ==> readings[i] == ParseAmount(Strip(pieces[i]))
  {
    seq(|pieces|, i requires 0 <= i < |pieces| => ParseAmount(Strip(pieces[i])))
  }

  /** A reading that is a positive number. */
  predicate Positive(reading: Option<real>)
  {
    reading.Some? && reading.value > 0.0
  }

  /** The amounts read, in order, or the number (counted from 1) of the
      first reading that is not a positive number. */
  function AmountList(readings: seq<Option<real>>): (r: Result<seq<real>, nat>)
    ensures r.Ok? <==> forall i :: 0 <= i < |readings| ==> Positive(readings[i])
    ensures r.Ok? ==> (|r.value| == |readings| &&
      forall i :: 0 <= i < |readings| ==> readings[i] == Some(r.value[i]) && r.value[i] > 0.0)
    ensures r.Err? ==> (1 <= r.error <= |readings| && !Positive(readings[r.error - 1]) &&
      forall i :: 0 <= i < r.error - 1 ==> Positive(readings[i]))
  {
    if |readings| == 0 then Ok([])
    else
      var n := |readings| - 1;
      assert forall i :: 0 <= i < n ==> readings[..n][i] == readings[i];
      match AmountList(readings[..n])
      case Err(k) => Err(k)
      case Ok(values) =>
        if Positive(readings[n]) then Ok(values + [readings[n].value])
        else Err(n + 1)
  }

  /** The amounts the form's field gives, split on commas. */
  function Amounts(amounts: string): (r: Result<seq<real>, nat>)
    ensures r.Ok? ==> |r.value| == Count(amounts, ',') + 1
    ensures r.Err? ==> 1 <= r.error <= Count(amounts, ',') + 1
  {
    AmountList(Readings(Split(amounts, ',')))
  }

  /** The amount-parsing loop: the field split on commas, each piece
      stripped and read, stopping at the first piece that is not a positive
      number. */
  method ParseAmounts(amounts: string) returns (r: Result<seq<real>, nat>)
    ensures r == Amounts(amounts)
  {
    var pieces := Split(amounts, ',');
    r := ParsePieces(pieces);
  }

  method ParsePieces(pieces: seq<string>) returns (r: Result<seq<real>, nat>)
    ensures r == AmountList(Readings(pieces))
  {
    ghost var readings := Readings(pieces);
    var parsed: seq<real> := [];
    var i := 0;
    while i < |pieces|
      invariant 0 <= i <= |pieces|
      invariant AmountList(readings[..i]) == Ok(parsed)
    {
      var cleaned := ParseAmount(Strip(pieces[i]));
      assert cleaned == readings[i];
      if !Positive(cleaned) {
        FirstRefusal(readings, i);
        return Err(i + 1);
      }
      AmountListExtends(readings, i, parsed);
      parsed := parsed + [cleaned.value];
      i := i + 1;
    }
    assert readings[..i] == readings;
    r := Ok(parsed);
  }

  /** One more positive reading adds its amount to the list. */
  lemma AmountListExtends(readings: seq<Option<real>>, i: nat, parsed: seq<real>)
    requires i < |readings| && Positive(readings[i])
    requires AmountList(readings[..i]) == Ok(parsed)
    ensures AmountList(readings[..i + 1]) == Ok(parsed + [readings[i].value])
  {
    assert readings[..i + 1][..i] == readings[..i];
  }

  /** When every reading before `i` is positive and reading `i` is not, the
      list is refused at bill `i + 1`. */
  lemma FirstRefusal(readings: seq<Option<real>>, i: nat)
    requires i < |readings| && !Positive(readings[i])
    requires AmountList(readings[..i]).Ok?
    ensures AmountList(readings) == Err(i + 1)
  {
    assert forall k :: 0 <= k < i ==> readings[..i][k] == readings[k];
  }

  // ---------------------------------------------------------------------
  // Several bills: the trip, the bill dates and the files

  /** A trip: its first and its last day. */
  datatype Trip = Trip(start: int, end: int)

  /** The days a trip lasts, both ends counted. */
  function Duration(t: Trip): int
  {
    t.end - t.start + 1
  }

  /** The trip the form names: none unless both dates are filled in;
      refused when either does not parse or the end comes before the start. */
  function TripRange(start: DateText, end: DateText): (r: Result<Option<Trip>, ClaimError>)
    ensures (start.Blank? || end.Blank?) ==> r == Ok(None)
    ensures !start.Blank? && !end.Blank? ==> (r.Ok? <==> start.Day? && end.Day? && start.day <= end.day)
    ensures r.Err? ==> r.error == InvalidTripDates
    ensures r.Ok? && r.value.Some? ==>
      (start == Day(r.value.value.start) && end == Day(r.value.value.end) && Duration(r.value.value) >= 1)
  {
    if start.Blank? || end.Blank? then Ok(None)
    else if !start.Day? || !end.Day? || end.day < start.day then Err(InvalidTripDates)
    else Ok(Some(Trip(start.day, end.day)))
  }

  /** A day within the trip, when there is one. */
  predicate InTrip(day: int, trip: Option<Trip>)
  {
    trip.None? || trip.value.start <= day <= trip.value.end
  }

  /** Why bill number `bill` is refused for its date, if it is. */
  function DateRefusal(date: DateText, trip: Option<Trip>, bill: nat): Option<ClaimError>
  {
    if !date.Day? then Some(InvalidBillDate(bill))
    else if !InTrip(date.day, trip) then Some(BillOutsideTrip(bill))
    else None
  }

  /** The bill dates, or the refusal of the first bill whose date does not
      parse or falls outside the trip. */
  function BillDates(dates: seq<DateText>, trip: Option<Trip>): (r: Result<seq<int>, ClaimError>)
    ensures r.Ok? <==> forall i :: 0 <= i < |dates| ==> DateRefusal(dates[i], trip, i + 1).None?
    ensures r.Ok? ==> (|r.value| == |dates| &&
      forall i :: 0 <= i < |dates| ==> dates[i] == Day(r.value[i]) && InTrip(r.value[i], trip))
    ensures r.Err? ==>
      exists i :: 0 <= i < |dates| && DateRefusal(dates[i], trip, i + 1) == Some(r.error) &&
        forall k :: 0 <= k < i ==> DateRefusal(dates[k], trip, k + 1).None?
  {
    if |dates| == 0 then Ok([])
    else
      var n := |dates| - 1;
      assert forall i :: 0 <= i < n ==> dates[..n][i] == dates[i];
      match BillDates(dates[..n], trip)
      case Err(e) => Err(e)
      case Ok(days) =>
        match DateRefusal(dates[n], trip, n + 1)
        case Some(e) => Err(e)
        case None => Ok(days + [dates[n].day])
  }

  /** When the dates before bill `i + 1` are accepted and its own is not,
      the dates are refused for that bill. */
  lemma FirstDateRefusal(dates: seq<DateText>, trip: Option<Trip>, i: nat)
    requires i < |dates| && DateRefusal(dates[i], trip, i + 1).Some?
    requires BillDates(dates[..i], trip).Ok?
    ensures BillDates(dates, trip) == Err(DateRefusal(dates[i], trip, i + 1).value)
  {
    assert forall k :: 0 <= k < i ==> dates[..i][k] == dates[k];
  }

  /** The date-parsing loop: each bill's date parsed and checked against
      the trip, stopping at the first that fails. */
  method ParseBillDates(dates: seq<DateText>, trip: Option<Trip>) returns (r: Result<seq<int>, ClaimError>)
    ensures r == BillDates(dates, trip)
  {
    var parsed: seq<int> := [];
    var i := 0;
    while i < |dates|
      invariant 0 <= i <= |dates|
      invariant BillDates(dates[..i], trip) == Ok(parsed)
    {
      var date := dates[i];
      if !date.Day? {
        FirstDateRefusal(dates, trip, i);
        return Err(InvalidBillDate(i + 1));
      }
      if trip.Some? && !(trip.value.start <= date.day <= trip.value.end) {
        FirstDateRefusal(dates, trip, i);
        return Err(BillOutsideTrip(i + 1));
      }
      assert dates[..i + 1][..i] == dates[..i];
      parsed := parsed + [date.day];
      i := i + 1;
    }
    assert dates[..i] == dates;
    r := Ok(parsed);
  }

  /** Why a file is refused when it is. */
  function FileRefusal(file: Upload): Option<FileError>
  {
    ValidateFile(file.filename, file.size).error
  }

  /** The first value present, if any is. */
  function FirstSome<T>(xs: seq<Option<T>>): (r: Option<T>)
    ensures r.None? <==> forall i :: 0 <= i < |xs| ==> xs[i].None?
    ensures r.Some? ==> exists i :: 0 <= i < |xs| && xs[i] == r && forall k :: 0 <= k < i ==> xs[k].None?
  {
    if |xs| == 0 then None
    else
      var n := |xs| - 1;
      assert forall i :: 0 <= i < n ==> xs[..n][i] == xs[i];
      if FirstSome(xs[..n]).Some? then FirstSome(xs[..n]) else xs[n]
  }

  /** The error of the first file that fails validation, if any does. */
  function FirstFileError(files: seq<Upload>): (err: Option<FileError>)
    ensures err.None? <==> forall i :: 0 <= i < |files| ==> FileRefusal(files[i]).None?
    ensures err.Some? ==>
      exists i :: 0 <= i < |files| && FileRefusal(files[i]) == err &&
        forall k :: 0 <= k < i ==> FileRefusal(files[k]).None?
  {
    FirstSome(Refusals(files))
  }

  /** What validation says of each file, in order. */
  function Refusals(files: seq<Upload>): (refusals: seq<Option<FileError>>)
    ensures |refusals| == |files|
    ensures forall i :: 0 <= i < |files| ==> refusals[i] == FileRefusal(files[i])
  {
    seq(|files|, i requires 0 <= i < |files| => FileRefusal(files[i]))
  }

  // ---------------------------------------------------------------------
  // Several bills: the bills, their duplicates and their recommendations

  /** The bills as the route keeps them: the parsed date, the category as
      typed, and the amount. */
  function ClaimBills(dates: seq<int>, categories: seq<string>, amounts: seq<real>): (bills: seq<Bill>)
    requires |categories| == |dates| && |amounts| == |dates|
    ensures |bills| == |dates|
    ensures forall i :: 0 <= i < |dates| ==> bills[i] == Bill(dates[i], categories[i], amounts[i])
  {
    seq(|dates|, i requires 0 <= i < |dates| => Bill(dates[i], categories[i], amounts[i]))
  }

  /** `sum(amounts)` */
  function Sum(xs: seq<real>): real
  {
    if |xs| == 0 then 0.0 else Sum(xs[..|xs| - 1]) + xs[|xs| - 1]
  }

  /** The bills' total is the sum of the amounts. */
  lemma {:induction false} ClaimBillsTotal(dates: seq<int>, categories: seq<string>, amounts: seq<real>)
    requires |categories| == |dates| && |amounts| == |dates|
    ensures Total(ClaimBills(dates, categories, amounts)) == Sum(amounts)
  {
    if |dates| > 0 {
      var n := |dates| - 1;
      assert ClaimBills(dates, categories, amounts)[..n] == ClaimBills(dates[..n], categories[..n], amounts[..n]);
      ClaimBillsTotal(dates[..n], categories[..n], amounts[..n]);
    }
  }

  /** Each bill analysed with its own category and amount and the user's grade. */
  function Analyses(files: seq<Upload>, categories: seq<string>, amounts: seq<real>, grade: string): (a: seq<BillAnalysis>)
    requires |categories| == |files| && |amounts| == |files|
    ensures |a| == |files|
  {
    if |files| == 0 then []
    else
      var n := |files| - 1;
      Analyses(files[..n], categories[..n], amounts[..n], grade) + [AnalyzeBill(files[n].reading, categories[n], amounts[n], grade)]
  }

  /** Analysing one more bill of the form. */
  lemma AnalysesStep(files: seq<Upload>, categories: seq<string>, amounts: seq<real>, grade: string, i: nat)
    requires |categories| == |files| && |amounts| == |files| && i < |files|
    ensures Analyses(files[..i + 1], categories[..i + 1], amounts[..i + 1], grade) ==
            Analyses(files[..i], categories[..i], amounts[..i], grade) + [AnalyzeBill(files[i].reading, categories[i], amounts[i], grade)]
  {
    assert files[..i + 1][..i] == files[..i];
    assert categories[..i + 1][..i] == categories[..i];
    assert amounts[..i + 1][..i] == amounts[..i];
  }

  /** Each bill checked on its own against the stored claims: the bills of
      the same submission are not compared with each other. */
  function Verdicts(prior: seq<Expense>, files: seq<Upload>, a: seq<BillAnalysis>, employeeId: nat): (v: seq<DuplicateVerdict>)
    requires |a| == |files|
    ensures |v| == |files|
  {
    if |files| == 0 then []
    else
      var n := |files| - 1;
      Verdicts(prior, files[..n], a[..n], employeeId) + [BillVerdict(prior, files[n], a[n], employeeId)]
  }

  /** Checking one more bill of the form. */
  lemma VerdictsStep(prior: seq<Expense>, files: seq<Upload>, a: seq<BillAnalysis>, employeeId: nat, i: nat)
    requires i < |files| && |a| == i + 1
    ensures Verdicts(prior, files[..i + 1], a, employeeId) ==
            Verdicts(prior, files[..i], a[..i], employeeId) + [BillVerdict(prior, files[i], a[i], employeeId)]
  {
    assert files[..i + 1][..i] == files[..i];
  }

  /** Every verdict carries the hash of its own bill's file. */
  lemma {:induction false} VerdictsKeepHashes(prior: seq<Expense>, files: seq<Upload>, a: seq<BillAnalysis>, employeeId: nat)
    requires |a| == |files|
    ensures var v := Verdicts(prior, files, a, employeeId);
            forall i :: 0 <= i < |files| ==> v[i].fileHash == files[i].fileHash
  {
    if |files| > 0 {
      var n := |files| - 1;
      VerdictsKeepHashes(prior, files[..n], a[..n], employeeId);
      BillVerdictFacts(prior, files[n], a[n], employeeId);
    }
  }

  /** The numbers, counted from 1, of the bills whose flag is set, in order. */
  function BillNumbers(flags: seq<bool>): (bills: seq<nat>)
    ensures |bills| <= |flags|
  {
    if |flags| == 0 then []
    else
      var n := |flags| - 1;
      BillNumbers(flags[..n]) + (if flags[n] then [n + 1] else [])
  }

  predicate Increasing(bills: seq<nat>)
  {
    forall i, j :: 0 <= i < j < |bills| ==> bills[i] < bills[j]
  }

  /** The numbered bills are exactly the flagged ones, in increasing order. */
  lemma {:induction false} BillNumbersMembers(flags: seq<bool>)
    ensures forall k :: k in BillNumbers(flags) <==> 1 <= k <= |flags| && flags[k - 1]
    ensures Increasing(BillNumbers(flags))
  {
    if |flags| > 0 {
      var n := |flags| - 1;
      BillNumbersMembers(flags[..n]);
      assert forall i :: 0 <= i < n ==> flags[..n][i] == flags[i];
      var init := BillNumbers(flags[..n]);
      forall i | 0 <= i < |init|
        ensures init[i] <= n
      {
        assert init[i] in init;
      }
      var bills := BillNumbers(flags);
      assert bills == init + (if flags[n] then [n + 1] else []);
      forall i, j | 0 <= i < j < |bills|
        ensures bills[i] < bills[j]
      {
        if j < |init| {
          assert bills[i] == init[i] && bills[j] == init[j];
        } else {
          assert bills[i] == init[i] && bills[j] == n + 1;
        }
      }
    }
  }

  /** One more flag numbers one more bill when it is set. */
  lemma BillNumbersAppend(flags: seq<bool>, b: bool)
    ensures BillNumbers(flags + [b]) == BillNumbers(flags) + (if b then [|flags| + 1] else [])
  {
    assert (flags + [b])[..|flags|] == flags;
  }

  /** Numbering one more flag of a list. */
  lemma BillNumbersStep(flags: seq<bool>, i: nat)
    requires i < |flags|
    ensures BillNumbers(flags[..i + 1]) == BillNumbers(flags[..i]) + (if flags[i] then [i + 1] else [])
  {
    assert flags[..i + 1] == flags[..i] + [flags[i]];
    BillNumbersAppend(flags[..i], flags[i]);
  }

  /** Which bills the full check blocks. */
  function Blocking(v: seq<DuplicateVerdict>): (flags: seq<bool>)
    ensures |flags| == |v| && forall i :: 0 <= i < |v| ==> flags[i] == v[i].shouldBlock
  {
    seq(|v|, i requires 0 <= i < |v| => v[i].shouldBlock)
  }

  /** Which bills the full check flags as duplicates. */
  function Suspicion(v: seq<DuplicateVerdict>): (flags: seq<bool>)
    ensures |flags| == |v| && forall i :: 0 <= i < |v| ==> flags[i] == v[i].isDuplicate
  {
    seq(|v|, i requires 0 <= i < |v| => v[i].isDuplicate)
  }

  /** `.get("recommendation", "REVIEW")` on each bill's analysis. */
  function RecommendationsRead(a: seq<BillAnalysis>): (recs: seq<string>)
    ensures |recs| == |a|
    ensures forall i :: 0 <= i < |a| ==> recs[i] == a[i].reading.recommendation.UnwrapOr("REVIEW")
  {
    seq(|a|, i requires 0 <= i < |a| => a[i].reading.recommendation.UnwrapOr("REVIEW"))
  }

  /** The recommendations as readings that are all present. */
  function Present(recs: seq<string>): (readings: seq<Option<string>>)
    ensures |readings| == |recs|
    ensures forall i :: 0 <= i < |recs| ==> readings[i] == Some(recs[i])
  {
    seq(|recs|, i requires 0 <= i < |recs| => Some(recs[i]))
  }

  /** A present reading occurs exactly when its value does. */
  lemma PresentMembers(recs: seq<string>, x: string)
    ensures Some(x) in Present(recs) <==> x in recs
  {
    if x in recs {
      var i :| 0 <= i < |recs| && recs[i] == x;
      assert Present(recs)[i] == Some(x);
    }
  }

  /** The route's combining loop: REJECT at the first bill that reads
      REJECT, else REVIEW when any bill reads REVIEW, else APPROVE. It agrees
      with the AI service's combination of the same readings, with no daily
      violations, and reports a rejection exactly when one was read. */
  method CombineRecommendations(recs: seq<string>) returns (combined: string, hasRejections: bool)
    ensures combined == RecommendationName(GenerateCombinedRecommendation(Present(recs), 0))
    ensures hasRejections <==> "REJECT" in recs
  {
    PresentMembers(recs, "REJECT");
    PresentMembers(recs, "REVIEW");
    combined := "APPROVE";
    hasRejections := false;
    var i := 0;
    while i < |recs|
      invariant 0 <= i <= |recs|
      invariant "REJECT" !in recs[..i] && !hasRejections
      invariant combined == if "REVIEW" in recs[..i] then "REVIEW" else "APPROVE"
    {
      var rec := recs[i];
      assert recs[..i + 1] == recs[..i] + [rec];
      if rec == "REJECT" {
        hasRejections := true;
        combined := "REJECT";
        break;
      } else if rec == "REVIEW" {
        combined := "REVIEW";
      }
      i := i + 1;
    }
    if !hasRejections {
      assert recs[..i] == recs;
    }
  }

  /** A bill whose reading lacks a recommendation counts as REVIEW for the
      route, while the AI service's own combination lets it pass as APPROVE. */
  lemma MissingRecommendationIsReview(a: BillAnalysis)
    requires a.reading.recommendation.None?
    ensures GenerateCombinedRecommendation(Present(RecommendationsRead([a])), 0) == Review
    ensures GenerateCombinedRecommendation([a.reading.recommendation], 0) == Approve
  {
    assert Present(RecommendationsRead([a])) == [Some("REVIEW")];
  }

  // ---------------------------------------------------------------------
  // Several bills: the per-day breakdown

  /** One entry of the route's per-day breakdown. */
  datatype RouteDay = RouteDay(date: int, totalAmount: real, foodAmount: real, travelAmount: real, billCount: nat)

  /** The route's entry for one day, from the bills of that day. */
  function DayEntry(bills: seq<Bill>, date: int): RouteDay
  {
    var dayBills := BillsOn(bills, date);
    RouteDay(date, Total(dayBills), CategoryTotal(dayBills, "food"), CategoryTotal(dayBills, "travel"), |dayBills|)
  }

  /** The route's entry for a day carries the figures the AI service's day
      summary computes for the same bills. */
  lemma DayEntryAgreesWithSummary(bills: seq<Bill>, date: int)
    ensures var d := DayEntry(bills, date);
            var s := CalculateDaySummary(date, BillsOn(bills, date));
            d.date == s.date && d.totalAmount == s.totalAmount && d.foodAmount == s.foodAmount &&
            d.travelAmount == s.travelAmount && d.billCount == s.billCount
  {
  }

  /** The days of a trip that has any, first to last. */
  function DayCount(trip: Trip): nat
  {
    if Duration(trip) > 0 then Duration(trip) else 0
  }

  /** The route's breakdown over a trip: one entry per day. */
  function TripDays(bills: seq<Bill>, trip: Trip): (days: seq<RouteDay>)
    ensures |days| == DayCount(trip)
    ensures forall k :: 0 <= k < |days| ==> days[k] == DayEntry(bills, trip.start + k)
  {
    seq(DayCount(trip), k requires 0 <= k < DayCount(trip) => DayEntry(bills, trip.start + k))
  }

  /** The breakdown loop: from the first day of the trip to the last, one
      entry per day. */
  method RouteBreakdown(bills: seq<Bill>, trip: Trip) returns (days: seq<RouteDay>)
    ensures days == TripDays(bills, trip)
  {
    days := [];
    var current := trip.start;
    while current <= trip.end
      invariant current == trip.start + |days|
      invariant |days| <= DayCount(trip)
      invariant forall k :: 0 <= k < |days| ==> days[k] == DayEntry(bills, trip.start + k)
      decreases trip.end - current
    {
      var dayBills := BillsOn(bills, current);
      days := days + [RouteDay(current, Total(dayBills), CategoryTotal(dayBills, "food"), CategoryTotal(dayBills, "travel"), |dayBills|)];
      current := current + 1;
    }
  }

  /** Sum of the daily totals of a breakdown. */
  function DaysTotal(days: seq<RouteDay>): real
  {
    if |days| == 0 then 0.0 else DaysTotal(days[..|days| - 1]) + days[|days| - 1].totalAmount
  }

  /** Sum of the totals of the `n` days from `start`. */
  function DayTotals(bills: seq<Bill>, start: int, n: nat): real
  {
    if n == 0 then 0.0 else DayTotals(bills, start, n - 1) + Total(BillsOn(bills, start + n - 1))
  }

  lemma {:induction false} BreakdownTotals(days: seq<RouteDay>, bills: seq<Bill>, start: int, k: nat)
    requires k <= |days|
    requires forall j :: 0 <= j < |days| ==> days[j].totalAmount == Total(BillsOn(bills, start + j))
    ensures DaysTotal(days[..k]) == DayTotals(bills, start, k)
  {
    if k > 0 {
      assert days[..k][..k - 1] == days[..k - 1];
      BreakdownTotals(days, bills, start, k - 1);
    }
  }

  /** One more bill adds its amount to the day it is dated, when that day is
      among the `n` counted. */
  lemma {:induction false} DayTotalsAppend(bills: seq<Bill>, b: Bill, start: int, n: nat)
    ensures DayTotals(bills + [b], start, n) ==
            DayTotals(bills, start, n) + (if start <= b.expenseDate < start + n then b.amount else 0.0)
  {
    if n > 0 {
      DayTotalsAppend(bills, b, start, n - 1);
      var d := start + n - 1;
      assert (bills + [b])[..|bills|] == bills;
      var on := BillsOn(bills, d);
      if b.expenseDate == d {
        assert BillsOn(bills + [b], d) == on + [b];
        assert (on + [b])[..|on|] == on;
      } else {
        assert BillsOn(bills + [b], d) == on;
      }
    }
  }

  /** When every bill falls within the `n` days from `start`, the day
      totals add up to the bills' total. */
  lemma {:induction false} DayTotalsCoverBills(bills: seq<Bill>, start: int, n: nat)
    requires forall i :: 0 <= i < |bills| ==> start <= bills[i].expenseDate < start + n
    ensures DayTotals(bills, start, n) == Total(bills)
  {
    if |bills| == 0 {
      NoBillsNoTotals(start, n);
    } else {
      var init := bills[..|bills| - 1];
      var last := bills[|bills| - 1];
      assert bills == init + [last];
      DayTotalsCoverBills(init, start, n);
      DayTotalsAppend(init, last, start, n);
    }
  }

  lemma {:induction false} NoBillsNoTotals(start: int, n: nat)
    ensures DayTotals([], start, n) == 0.0
  {
    if n > 0 {
      NoBillsNoTotals(start, n - 1);
    }
  }

  /** When every bill lies within the trip, the breakdown's daily totals
      add up to the bills' total. */
  lemma TripDaysCoverBills(bills: seq<Bill>, trip: Trip)
    requires forall i :: 0 <= i < |bills| ==> InTrip(bills[i].expenseDate, Some(trip))
    ensures DaysTotal(TripDays(bills, trip)) == Total(bills)
  {
    var days := TripDays(bills, trip);
    BreakdownTotals(days, bills, trip.start, |days|);
    assert days[..|days|] == days;
    DayTotalsCoverBills(bills, trip.start, DayCount(trip));
  }

  /** When every bill date lies within the trip, the breakdown's daily
      totals add up to the claim's amount. */
  lemma BreakdownCoversClaim(dates: seq<int>, categories: seq<string>, amounts: seq<real>, trip: Trip)
    requires |categories| == |dates| && |amounts| == |dates|
    requires forall i :: 0 <= i < |dates| ==> InTrip(dates[i], Some(trip))
    ensures DaysTotal(TripDays(ClaimBills(dates, categories, amounts), trip)) == Sum(amounts)
  {
    var bills := ClaimBills(dates, categories, amounts);
    assert forall i :: 0 <= i < |bills| ==> bills[i].expenseDate == dates[i];
    TripDaysCoverBills(bills, trip);
    ClaimBillsTotal(dates, categories, amounts);
  }

  /** `total_amount / trip_duration_days` before rounding; zero without a trip. */
  function AveragePerDay(total: real, trip: Option<Trip>): (average: real)
    ensures trip.Some? && Duration(trip.value) > 0 ==> average * Duration(trip.value) as real == total
    ensures trip.None? ==> average == 0.0
  {
    if trip.Some? && Duration(trip.value) > 0 then total / Duration(trip.value) as real else 0.0
  }

  // ---------------------------------------------------------------------
  // Several bills: the claim

  /** The form fields of `create_multi_bill_claim` the decision reads; an
      absent list of travel modes is empty. */
  datatype MultiForm = MultiForm(
    tripStart: DateText,
    tripEnd: DateText,
    categories: seq<string>,
    amounts: string,
    expenseDates: seq<DateText>,
    descriptions: seq<string>,
    travelModes: seq<string>,
    files: seq<Upload>)

  /** An admitted multi-bill claim: its rows, and what the route reports
      beside them (the trip, the per-day breakdown, the average per day
      before rounding, and the numbers of the bills flagged as duplicates). */
  datatype MultiClaim = MultiClaim(
    rows: Rows,
    trip: Option<Trip>,
    perDay: seq<RouteDay>,
    averagePerDay: real,
    flagged: seq<nat>)

  /** "<n> bills: " and the first three descriptions joined by ", ", with
      "..." when there are more. */
  function MultiDescription(descriptions: seq<string>): string
  {
    var shown := if |descriptions| > 3 then descriptions[..3] else descriptions;
    NatToDecimal(|descriptions|) + " bills: " + Join(shown, ", ") + (if |descriptions| > 3 then "..." else "")
  }

  /** The stored multi-bill claim: the first bill's category (stripped and
      lower-cased) and date, the sum of the amounts, the first travel mode
      for a travel claim, the combined recommendation, within limits unless
      a bill was read as REJECT, the first bill's hash, and "suspected" when
      any bill was flagged; submitted now at the MANAGER level. */
  function MultiBillRecord(user: User, form: MultiForm, env: Surroundings, amounts: seq<real>, dates: seq<int>,
                           combined: string, hasRejections: bool, v: seq<DuplicateVerdict>): (e: Expense)
    requires |form.categories| > 0 && |dates| > 0 && |v| > 0
    ensures AwaitsManager(e) && e.submittedAt == Some(env.now)
    ensures e.id == env.newId && e.employeeId == user.id && e.amount == Sum(amounts) && e.expenseDate == dates[0]
    ensures e.duplicateCheckStatus == "suspected" <==> exists i :: 0 <= i < |v| && v[i].isDuplicate
    ensures e.aiRecommendation == Some(combined) && e.isWithinLimits == !hasRejections
    ensures e.fileHash == v[0].fileHash && e.duplicateOf.None? && !e.isSelfDeclaration
  {
    var suspected := exists i :: 0 <= i < |v| && v[i].isDuplicate;
    Expense(env.newId, env.expenseNumber, user.id, Lower(Strip(form.categories[0])), Sum(amounts), dates[0],
            MultiDescription(form.descriptions),
            if form.categories[0] == "travel" && |form.travelModes| > 0 then Some(form.travelModes[0]) else None,
            None, None, Some(combined), !hasRejections, false, None,
            v[0].fileHash, if suspected then "suspected" else "clean", None,
            Submitted, Some(LevelName(ManagerLevel)), Some(env.now), None, None, None, None)
  }

  /** The part of `create_multi_bill_claim` after every field has been
      accepted: analysis and the duplicate check of each bill, the refusal
      when any bill is blocked, and otherwise the claim. */
  function AdmitBills(user: User, form: MultiForm, env: Surroundings, users: seq<User>,
                      amounts: seq<real>, trip: Option<Trip>, dates: seq<int>): (r: Result<MultiClaim, ClaimError>)
    requires |amounts| > 0
    requires |form.categories| == |amounts| && |dates| == |amounts| && |form.files| == |amounts|
  {
    var a := Analyses(form.files, form.categories, amounts, user.grade);
    RuleOnBills(user, form, env, users, amounts, trip, dates, a, Verdicts(env.prior, form.files, a, user.id))
  }

  /** The ruling on bills already analysed and checked: refused naming the
      blocked bills, if any, and otherwise the claim. */
  function RuleOnBills(user: User, form: MultiForm, env: Surroundings, users: seq<User>,
                       amounts: seq<real>, trip: Option<Trip>, dates: seq<int>,
                       a: seq<BillAnalysis>, v: seq<DuplicateVerdict>): Result<MultiClaim, ClaimError>
    requires |amounts| > 0
    requires |form.categories| == |amounts| && |dates| == |amounts| && |a| == |amounts| && |v| == |amounts|
  {
    var blocked := BillNumbers(Blocking(v));
    if |blocked| > 0 then Err(DuplicatesBlocked(blocked))
    else Ok(AcceptedBills(user, form, env, users, amounts, trip, dates, a, v))
  }

  /** The claim made of bills none of which is blocked. */
  function AcceptedBills(user: User, form: MultiForm, env: Surroundings, users: seq<User>,
                         amounts: seq<real>, trip: Option<Trip>, dates: seq<int>,
                         a: seq<BillAnalysis>, v: seq<DuplicateVerdict>): (c: MultiClaim)
    requires |amounts| > 0
    requires |form.categories| == |amounts| && |dates| == |amounts| && |a| == |amounts| && |v| == |amounts|
    ensures c.rows.expense.Some? && AwaitsManager(c.rows.expense.value) && Consistent(c.rows)
    ensures c.rows.expense.value == MultiBillRecord(user, form, env, amounts, dates,
              RecommendationName(GenerateCombinedRecommendation(Present(RecommendationsRead(a)), 0)),
              "REJECT" in RecommendationsRead(a), v)
    ensures c.trip == trip && c.flagged == BillNumbers(Suspicion(v))
    ensures c.perDay == if trip.Some? then TripDays(ClaimBills(dates, form.categories, amounts), trip.value) else []
    ensures c.averagePerDay == AveragePerDay(Sum(amounts), trip)
  {
    var recs := RecommendationsRead(a);
    var combined := RecommendationName(GenerateCombinedRecommendation(Present(recs), 0));
    var e := MultiBillRecord(user, form, env, amounts, dates, combined, "REJECT" in recs, v);
    var flagged := BillNumbers(Suspicion(v));
    var bills := ClaimBills(dates, form.categories, amounts);
    MultiClaim(Opened(e, users, if |flagged| > 0 then "multi_bill_duplicate_alert" else "new_multi_bill_claim"),
               trip, if trip.Some? then TripDays(bills, trip.value) else [],
               AveragePerDay(Sum(amounts), trip), flagged)
  }

  /** `create_multi_bill_claim` as intended: the permission, the amounts,
      the matching list lengths, the trip, the bill dates, the files, then
      the duplicate check; on success the claim. */
  function CreateMultiBillClaim(user: User, form: MultiForm, env: Surroundings, users: seq<User>): (r: Result<MultiClaim, ClaimError>)
    ensures !user.canClaimExpenses ==> r == Err(NoClaimPermission)
    ensures user.canClaimExpenses && Amounts(form.amounts).Err? ==> r == Err(InvalidAmount(Amounts(form.amounts).error))
    ensures r.Ok? ==> Amounts(form.amounts).Ok? && |Amounts(form.amounts).value| > 0 &&
                      |form.categories| == |form.expenseDates| == |form.descriptions| == |form.files| ==
                      |Amounts(form.amounts).value|
  {
    if !user.canClaimExpenses then Err(NoClaimPermission)
    else
      match Amounts(form.amounts)
      case Err(k) => Err(InvalidAmount(k))
      case Ok(amounts) =>
        var n := |amounts|;
        if |form.categories| != n || |form.expenseDates| != n || |form.descriptions| != n || |form.files| != n then
          Err(LengthMismatch)
        else AdmitFields(user, form, env, users, amounts)
  }

  /** The part of `create_multi_bill_claim` after the amounts: the trip, the
      bill dates and the files, then the bills. */
  function AdmitFields(user: User, form: MultiForm, env: Surroundings, users: seq<User>, amounts: seq<real>): Result<MultiClaim, ClaimError>
    requires |amounts| > 0
    requires |form.categories| == |amounts| && |form.expenseDates| == |amounts| && |form.files| == |amounts|
  {
    match TripRange(form.tripStart, form.tripEnd)
    case Err(e) => Err(e)
    case Ok(trip) =>
      match BillDates(form.expenseDates, trip)
      case Err(e) => Err(e)
      case Ok(dates) =>
        match FirstFileError(form.files)
        case Some(error) => Err(InvalidFile(error))
        case None => AdmitBills(user, form, env, users, amounts, trip, dates)
  }

  /** The refusals before any bill is analysed, in order. */
  lemma MultiBillRefusalOrder(user: User, form: MultiForm, env: Surroundings, users: seq<User>)
    requires user.canClaimExpenses && Amounts(form.amounts).Ok?
    ensures var amounts := Amounts(form.amounts).value;
            var r := CreateMultiBillClaim(user, form, env, users);
            var n := |amounts|;
            var lengthsMatch := |form.categories| == n && |form.expenseDates| == n && |form.descriptions| == n && |form.files| == n;
            (!lengthsMatch ==> r == Err(LengthMismatch)) &&
            (lengthsMatch && TripRange(form.tripStart, form.tripEnd).Err? ==> r == Err(InvalidTripDates)) &&
            (lengthsMatch && TripRange(form.tripStart, form.tripEnd).Ok? &&
             BillDates(form.expenseDates, TripRange(form.tripStart, form.tripEnd).value).Err? ==>
               r == Err(BillDates(form.expenseDates, TripRange(form.tripStart, form.tripEnd).value).error)) &&
            ((lengthsMatch && TripRange(form.tripStart, form.tripEnd).Ok? &&
              BillDates(form.expenseDates, TripRange(form.tripStart, form.tripEnd).value).Ok? &&
              FirstFileError(form.files).Some?) ==>
               r == Err(InvalidFile(FirstFileError(form.files).value)))
  {
  }

  /** Some bill is numbered exactly when some flag is set. */
  lemma SomeBillNumbered(flags: seq<bool>)
    ensures |BillNumbers(flags)| > 0 <==> exists i :: 0 <= i < |flags| && flags[i]
  {
    BillNumbersMembers(flags);
    if i :| 0 <= i < |flags| && flags[i] {
      assert i + 1 in BillNumbers(flags);
    }
  }

  /** Once every field is accepted, the submission is refused exactly when
      some bill is blocked, and the refusal names every blocked bill and
      no other. */
  lemma BlockedBillsRefuseClaim(user: User, form: MultiForm, env: Surroundings, users: seq<User>,
                                amounts: seq<real>, trip: Option<Trip>, dates: seq<int>,
                                a: seq<BillAnalysis>, v: seq<DuplicateVerdict>)
    requires |amounts| > 0
    requires |form.categories| == |amounts| && |dates| == |amounts| && |a| == |amounts| && |v| == |amounts|
    ensures var r := RuleOnBills(user, form, env, users, amounts, trip, dates, a, v);
            (r.Err? <==> exists i :: 0 <= i < |v| && v[i].shouldBlock) &&
            (r.Err? ==> (r.error.DuplicatesBlocked? &&
               forall k :: k in r.error.bills <==> 1 <= k <= |v| && v[k - 1].shouldBlock))
  {
    BlockedBillNumbers(v);
  }

  /** The numbers of the blocked bills, stated on the verdicts themselves:
      there are some exactly when some bill is blocked. */
  lemma BlockedBillNumbers(v: seq<DuplicateVerdict>)
    ensures forall k :: k in BillNumbers(Blocking(v)) <==> 1 <= k <= |v| && v[k - 1].shouldBlock
    ensures |BillNumbers(Blocking(v))| > 0 <==> exists i :: 0 <= i < |v| && v[i].shouldBlock
  {
    BillNumbersMembers(Blocking(v));
    SomeBillNumbered(Blocking(v));
  }

  /** The analyses of a form's bills, when its amounts parse and its lists
      match; none otherwise. */
  function FormAnalyses(user: User, form: MultiForm): (a: seq<BillAnalysis>)
  {
    match Amounts(form.amounts)
    case Err(_) => []
    case Ok(amounts) =>
      if |form.categories| == |amounts| && |form.files| == |amounts| then
        Analyses(form.files, form.categories, amounts, user.grade)
      else []
  }

  /** The duplicate verdicts on a form's bills, as `FormAnalyses` reads them. */
  function FormVerdicts(user: User, form: MultiForm, env: Surroundings): (v: seq<DuplicateVerdict>)
  {
    var a := FormAnalyses(user, form);
    if |a| == |form.files| then Verdicts(env.prior, form.files, a, user.id) else []
  }

  /** The intermediate values of an admitted multi-bill claim. */
  lemma AdmittedBills(user: User, form: MultiForm, env: Surroundings, users: seq<User>)
    returns (amounts: seq<real>, trip: Option<Trip>, dates: seq<int>, a: seq<BillAnalysis>, v: seq<DuplicateVerdict>)
    requires CreateMultiBillClaim(user, form, env, users).Ok?
    ensures user.canClaimExpenses
    ensures Amounts(form.amounts) == Ok(amounts) && |amounts| > 0
    ensures |form.categories| == |amounts| && |form.expenseDates| == |amounts| &&
            |form.descriptions| == |amounts| && |form.files| == |amounts|
    ensures TripRange(form.tripStart, form.tripEnd) == Ok(trip)
    ensures BillDates(form.expenseDates, trip) == Ok(dates) && |dates| == |amounts|
    ensures FirstFileError(form.files).None?
    ensures a == Analyses(form.files, form.categories, amounts, user.grade)
    ensures v == Verdicts(env.prior, form.files, a, user.id)
    ensures forall i :: 0 <= i < |v| ==> !v[i].shouldBlock
    ensures CreateMultiBillClaim(user, form, env, users) == Ok(AcceptedBills(user, form, env, users, amounts, trip, dates, a, v))
  {
    amounts := Amounts(form.amounts).value;
    trip := TripRange(form.tripStart, form.tripEnd).value;
    dates := BillDates(form.expenseDates, trip).value;
    a := Analyses(form.files, form.categories, amounts, user.grade);
    v := Verdicts(env.prior, form.files, a, user.id);
    assert CreateMultiBillClaim(user, form, env, users) == RuleOnBills(user, form, env, users, amounts, trip, dates, a, v);
    BlockedBillsRefuseClaim(user, form, env, users, amounts, trip, dates, a, v);
  }

  /** The analyses and verdicts `FormAnalyses` and `FormVerdicts` read from
      a form whose amounts parse and whose lists match. */
  lemma FormReadings(user: User, form: MultiForm, env: Surroundings, amounts: seq<real>)
    requires Amounts(form.amounts) == Ok(amounts)
    requires |form.categories| == |amounts| && |form.files| == |amounts|
    ensures FormAnalyses(user, form) == Analyses(form.files, form.categories, amounts, user.grade)
    ensures FormVerdicts(user, form, env) == Verdicts(env.prior, form.files, FormAnalyses(user, form), user.id)
  {
  }

  /** An admitted multi-bill claim: one amount per comma-separated piece,
      every bill dated within the trip and every file valid; the claim waits
      for the manager in consistent rows, its amount is the sum of the
      amounts, and the per-day breakdown covers the trip's days. */
  lemma MultiBillClaimAdmitted(user: User, form: MultiForm, env: Surroundings, users: seq<User>)
    requires CreateMultiBillClaim(user, form, env, users).Ok?
    ensures var c := CreateMultiBillClaim(user, form, env, users).value;
            var amounts := Amounts(form.amounts).value;
            |form.files| == Count(form.amounts, ',') + 1 &&
            (forall i :: 0 <= i < |form.files| ==> FileRefusal(form.files[i]).None?) &&
            (forall i :: 0 <= i < |form.expenseDates| ==>
               form.expenseDates[i].Day? && InTrip(form.expenseDates[i].day, c.trip)) &&
            c.rows.expense.Some? && AwaitsManager(c.rows.expense.value) && Consistent(c.rows) &&
            c.rows.expense.value.amount == Sum(amounts) &&
            c.rows.expense.value.id == env.newId && c.rows.expense.value.employeeId == user.id &&
            (c.trip.Some? ==> |c.perDay| == Duration(c.trip.value)) &&
            (c.trip.None? ==> c.perDay == [] && c.averagePerDay == 0.0)
  {
    var amounts, trip, dates, a, v := AdmittedBills(user, form, env, users);
    forall i | 0 <= i < |form.expenseDates|
      ensures form.expenseDates[i].Day? && InTrip(form.expenseDates[i].day, trip)
    {
      assert DateRefusal(form.expenseDates[i], trip, i + 1).None?;
    }
  }

  /** When the claim has a trip, the per-day breakdown adds up to the
      claim's amount: every bill falls on one of the trip's days. */
  lemma MultiBillBreakdownCoversAmount(user: User, form: MultiForm, env: Surroundings, users: seq<User>)
    requires CreateMultiBillClaim(user, form, env, users).Ok?
    requires CreateMultiBillClaim(user, form, env, users).value.trip.Some?
    ensures var c := CreateMultiBillClaim(user, form, env, users).value;
            c.rows.expense.Some? && DaysTotal(c.perDay) == c.rows.expense.value.amount
  {
    var amounts, trip, dates, a, v := AdmittedBills(user, form, env, users);
    assert forall i :: 0 <= i < |dates| ==> InTrip(dates[i], trip);
    BreakdownCoversClaim(dates, form.categories, amounts, trip.value);
  }

  /** What an admitted multi-bill claim records of its bills: no bill is
      blocked; the claim is "suspected" exactly when some bill was flagged;
      the recommendation is the
      combination of the bills' readings (a missing one read as REVIEW); and
      the claim is within limits exactly when no bill was read as REJECT. */
  lemma MultiBillClaimRecords(user: User, form: MultiForm, env: Surroundings, users: seq<User>)
    requires CreateMultiBillClaim(user, form, env, users).Ok?
    ensures var c := CreateMultiBillClaim(user, form, env, users).value;
            var v := FormVerdicts(user, form, env);
            var recs := RecommendationsRead(FormAnalyses(user, form));
            c.rows.expense.Some? && |form.files| > 0 &&
            var e := c.rows.expense.value;
            (forall i :: 0 <= i < |v| ==> !v[i].shouldBlock) &&
            (e.duplicateCheckStatus == "suspected" <==> exists i :: 0 <= i < |v| && v[i].isDuplicate) &&
            e.aiRecommendation == Some(RecommendationName(GenerateCombinedRecommendation(Present(recs), 0))) &&
            (e.isWithinLimits <==> "REJECT" !in recs) &&
            e.fileHash == form.files[0].fileHash && e.duplicateOf.None? && !e.isSelfDeclaration
  {
    var amounts, trip, dates, a, v := AdmittedBills(user, form, env, users);
    FormReadings(user, form, env, amounts);
    assert "suspected" != "clean";
    VerdictsKeepHashes(env.prior, form.files, a, user.id);
  }

  /** The flagged numbers of an admitted multi-bill claim are exactly the
      bills the full check read as duplicates, in bill order. */
  lemma MultiBillFlaggedBills(user: User, form: MultiForm, env: Surroundings, users: seq<User>)
    requires CreateMultiBillClaim(user, form, env, users).Ok?
    ensures var c := CreateMultiBillClaim(user, form, env, users).value;
            var v := FormVerdicts(user, form, env);
            (forall k :: k in c.flagged <==> 1 <= k <= |v| && v[k - 1].isDuplicate) && Increasing(c.flagged)
  {
    AdmittedFlagged(user, form, env, users);
    SuspectedBillNumbers(FormVerdicts(user, form, env));
  }

  /** The flagged numbers of an admitted multi-bill claim, as numbered from
      the verdicts. */
  lemma AdmittedFlagged(user: User, form: MultiForm, env: Surroundings, users: seq<User>)
    requires CreateMultiBillClaim(user, form, env, users).Ok?
    ensures CreateMultiBillClaim(user, form, env, users).value.flagged == BillNumbers(Suspicion(FormVerdicts(user, form, env)))
  {
    var amounts, trip, dates, a, v := AdmittedBills(user, form, env, users);
    FormReadings(user, form, env, amounts);
  }

  /** The numbers of the flagged bills, stated on the verdicts themselves. */
  lemma SuspectedBillNumbers(v: seq<DuplicateVerdict>)
    ensures forall k :: k in BillNumbers(Suspicion(v)) <==> 1 <= k <= |v| && v[k - 1].isDuplicate
    ensures Increasing(BillNumbers(Suspicion(v)))
  {
    BillNumbersMembers(Suspicion(v));
  }

  // ---------------------------------------------------------------------
  // Several bills: the route's steps

  /** `create_multi_bill_claim` step by step as intended, with its loops:
      the amounts, the bill dates, the files, then each bill's analysis and
      duplicate check. */
  method SubmitMultiBillClaim(user: User, form: MultiForm, env: Surroundings, users: seq<User>)
    returns (r: Result<MultiClaim, ClaimError>)
    ensures r == CreateMultiBillClaim(user, form, env, users)
  {
    if !user.canClaimExpenses {
      return Err(NoClaimPermission);
    }
    var parsed := ParseAmounts(form.amounts);
    if parsed.Err? {
      return Err(InvalidAmount(parsed.error));
    }
    var amounts := parsed.value;
    var n := |amounts|;
    if |form.categories| != n || |form.expenseDates| != n || |form.descriptions| != n || |form.files| != n {
      return Err(LengthMismatch);
    }
    assert CreateMultiBillClaim(user, form, env, users) == AdmitFields(user, form, env, users, amounts);
    var range := TripRange(form.tripStart, form.tripEnd);
    if range.Err? {
      return Err(range.error);
    }
    var trip := range.value;
    var checked := ParseBillDates(form.expenseDates, trip);
    if checked.Err? {
      return Err(checked.error);
    }
    var fileError := FirstFileError(form.files);
    if fileError.Some? {
      return Err(InvalidFile(fileError.value));
    }
    r := ScreenBills(user, form, env, users, amounts, trip, checked.value);
  }

  /** The accepted bills screened: the refusal when some bill is blocked,
      or else the combined recommendation, the per-day breakdown and the
      claim. */
  method ScreenBills(user: User, form: MultiForm, env: Surroundings, users: seq<User>,
                     amounts: seq<real>, trip: Option<Trip>, dates: seq<int>)
    returns (r: Result<MultiClaim, ClaimError>)
    requires |amounts| > 0
    requires |form.categories| == |amounts| && |dates| == |amounts| && |form.files| == |amounts|
    ensures r == AdmitBills(user, form, env, users, amounts, trip, dates)
  {
    var analyses, verdicts, blocked, flagged := CheckBills(user, form, env, amounts);
    if |blocked| > 0 {
      return Err(DuplicatesBlocked(blocked));
    }
    var combined, hasRejections := CombineRecommendations(RecommendationsRead(analyses));
    var perDay: seq<RouteDay> := [];
    if trip.Some? {
      perDay := RouteBreakdown(ClaimBills(dates, form.categories, amounts), trip.value);
    }
    var e := MultiBillRecord(user, form, env, amounts, dates, combined, hasRejections, verdicts);
    var alert := if |flagged| > 0 then "multi_bill_duplicate_alert" else "new_multi_bill_claim";
    r := Ok(MultiClaim(Opened(e, users, alert), trip, perDay, AveragePerDay(Sum(amounts), trip), flagged));
    assert r == Ok(AcceptedBills(user, form, env, users, amounts, trip, dates, analyses, verdicts));
  }

  /** The loop over the accepted bills: each analysed and checked for
      duplicates, and the blocked and the flagged bills collected by
      number. The route notes a bill's number in the same pass; the
      numbering here runs over the verdicts after them, which gives the
      same lists since a verdict never depends on the numbers. */
  method CheckBills(user: User, form: MultiForm, env: Surroundings, amounts: seq<real>)
    returns (analyses: seq<BillAnalysis>, verdicts: seq<DuplicateVerdict>, blocked: seq<nat>, flagged: seq<nat>)
    requires |form.categories| == |amounts| && |form.files| == |amounts|
    ensures analyses == Analyses(form.files, form.categories, amounts, user.grade)
    ensures verdicts == Verdicts(env.prior, form.files, analyses, user.id)
    ensures blocked == BillNumbers(Blocking(verdicts)) && flagged == BillNumbers(Suspicion(verdicts))
  {
    analyses := [];
    verdicts := [];
    var i := 0;
    while i < |form.files|
      invariant 0 <= i <= |form.files|
      invariant analyses == Analyses(form.files[..i], form.categories[..i], amounts[..i], user.grade)
      invariant verdicts == Verdicts(env.prior, form.files[..i], analyses, user.id)
    {
      var analysis := AnalyzeBill(form.files[i].reading, form.categories[i], amounts[i], user.grade);
      var verdict := BillVerdict(env.prior, form.files[i], analysis, user.id);
      AnalysesStep(form.files, form.categories, amounts, user.grade, i);
      VerdictsStep(env.prior, form.files, analyses + [analysis], user.id, i);
      assert (analyses + [analysis])[..i] == analyses;
      analyses := analyses + [analysis];
      verdicts := verdicts + [verdict];
      i := i + 1;
    }
    assert form.files[..i] == form.files && form.categories[..i] == form.categories && amounts[..i] == amounts;
    blocked, flagged := NumberBills(verdicts);
  }

  /** The numbers of the blocked and of the flagged bills, bill by bill. */
  method NumberBills(verdicts: seq<DuplicateVerdict>) returns (blocked: seq<nat>, flagged: seq<nat>)
    ensures blocked == BillNumbers(Blocking(verdicts)) && flagged == BillNumbers(Suspicion(verdicts))
  {
    ghost var blocks := Blocking(verdicts);
    ghost var suspicions := Suspicion(verdicts);
    blocked := [];
    flagged := [];
    var i := 0;
    while i < |verdicts|
      invariant 0 <= i <= |verdicts|
      invariant blocked == BillNumbers(blocks[..i]) && flagged == BillNumbers(suspicions[..i])
    {
      BillNumbersStep(blocks, i);
      BillNumbersStep(suspicions, i);
      if verdicts[i].shouldBlock {
        blocked := blocked + [i + 1];
      }
      if verdicts[i].isDuplicate {
        flagged := flagged + [i + 1];
      }
      i := i + 1;
    }
    assert blocks[..i] == blocks && suspicions[..i] == suspicions;
  }

  // ---------------------------------------------------------------------
  // The stored record as the route writes it

  /** The attributes the expense model declares: its columns and its
      relationships. The declarative constructor accepts exactly these as
      keyword arguments and raises `TypeError` for any other. */
  const ExpenseColumns: set<string> := {
    "id", "expense_number", "employee_id", "category", "amount", "currency", "expense_date", "description",
    "travel_mode", "travel_from", "travel_to", "bill_file_path", "bill_file_name", "bill_number", "vendor_name",
    "is_self_declaration", "declaration_reason", "no_bill_category",
    "ai_analysis", "ai_summary", "ai_recommendation", "ai_confidence_score", "is_valid_bill", "has_gst",
    "has_required_stamps", "is_within_limits", "validation_errors",
    "file_hash", "duplicate_check_status", "duplicate_of_expense_id", "duplicate_detected_at",
    "status", "current_approver_level", "rejection_reason", "rejected_by", "rejected_at",
    "created_at", "updated_at", "submitted_at", "approved_at", "paid_at",
    "employee", "approvals", "audit_logs"}

  /** The keywords `create_expense_claim` passes to the constructor. */
  const SingleClaimKeywords: set<string> := {
    "expense_number", "employee_id", "category", "amount", "currency", "expense_date", "description",
    "travel_mode", "travel_from", "travel_to", "bill_file_path", "bill_file_name", "bill_number", "vendor_name",
    "ai_analysis", "ai_summary", "ai_recommendation", "ai_confidence_score", "is_valid_bill", "has_gst",
    "has_required_stamps", "is_within_limits", "validation_errors", "status", "current_approver_level",
    "submitted_at", "is_self_declaration", "declaration_reason", "no_bill_category",
    "file_hash", "duplicate_check_status", "duplicate_of_expense_id", "duplicate_detected_at"}

  /** The keywords `create_multi_bill_claim` passes to the constructor. */
  const MultiBillKeywords: set<string> := {
    "expense_number", "employee_id", "trip_start_date", "trip_end_date", "trip_purpose", "trip_duration_days",
    "is_multi_bill", "bill_count", "bill_files", "category", "amount", "currency", "expense_date", "description",
    "travel_mode", "travel_from", "travel_to", "bill_file_path", "bill_file_name",
    "ai_analysis", "ai_summary", "ai_recommendation", "ai_confidence_score", "per_day_breakdown",
    "average_per_day", "is_within_limits", "is_within_daily_limits", "validation_errors",
    "status", "current_approver_level", "submitted_at",
    "file_hash", "duplicate_check_status", "duplicate_of_expense_id", "duplicate_detected_at"}

  /** The constructor builds a record from these keywords. */
  predicate ConstructorAccepts(keywords: set<string>)
  {
    keywords <= ExpenseColumns
  }

  /** Every keyword the single-claim route passes is an attribute of the model. */
  lemma SingleClaimKeywordsAccepted()
    ensures ConstructorAccepts(SingleClaimKeywords)
  {
  }

  /** The multi-bill route passes keywords the model does not declare: the
      trip fields, the multi-bill fields and the per-day fields. */
  lemma MultiBillKeywordsRefused()
    ensures !ConstructorAccepts(MultiBillKeywords)
    ensures "trip_start_date" in MultiBillKeywords - ExpenseColumns
  {
    assert "trip_start_date" in MultiBillKeywords;
    assert "trip_start_date" !in ExpenseColumns;
  }

  /** `create_multi_bill_claim` as written: the same checks, after which the
      constructor raises, the session is rolled back and the route answers
      with a server error, so no claim is stored. */
  function CreateMultiBillClaimAsWritten(user: User, form: MultiForm, env: Surroundings, users: seq<User>): (r: Result<MultiClaim, ClaimError>)
    ensures r.Ok? ==> ConstructorAccepts(MultiBillKeywords)
  {
    var intended := CreateMultiBillClaim(user, form, env, users);
    if intended.Ok? && !ConstructorAccepts(MultiBillKeywords) then Err(RecordRefused) else intended
  }

  /** As written, the route never stores a claim: every submission it would
      have admitted ends in the constructor's refusal, and every other
      submission is refused for the reason the intended route gives. */
  lemma MultiBillNeverStored(user: User, form: MultiForm, env: Surroundings, users: seq<User>)
    ensures CreateMultiBillClaimAsWritten(user, form, env, users).Err?
    ensures CreateMultiBillClaim(user, form, env, users).Ok? ==>
      CreateMultiBillClaimAsWritten(user, form, env, users) == Err(RecordRefused)
    ensures CreateMultiBillClaim(user, form, env, users).Err? ==>
      CreateMultiBillClaimAsWritten(user, form, env, users) == CreateMultiBillClaim(user, form, env, users)
  {
    MultiBillKeywordsRefused();
  }
}
