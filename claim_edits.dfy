/** Changing or withdrawing a stored claim: `update_expense` and
    `delete_expense`. Both are open only to the claim's own employee and
    only while the claim's status is submitted, whatever level it waits at.
    An attempt on a claim in any other status is refused and leaves an
    alert for the first active manager. */
module ClaimEdits {

  import opened Wrappers
  import opened Strings
  import opened Models
  import opened FileHandler
  import opened AiService
  import opened ClaimStore
  import opened ClaimAdmission

  /** Why an edit is refused. */
  datatype EditError =
    | ExpenseNotFound
    | NotOwner
    | NotEditable(status: ExpenseStatus)
    | BadDateFormat
    | FileRejected(error: FileError)

  /** The rows after a call, and the error when it was refused: a refusal
      of a decided claim still leaves its alert behind. */
  datatype Outcome = Outcome(rows: Rows, error: Option<EditError>)

  /** The optional fields of an update. Text fields count only when given
      and non-empty; the amount counts whenever it is present. */
  datatype EditForm = EditForm(
    category: Option<string>,
    amount: Option<real>,
    expenseDate: DateText,
    description: Option<string>,
    travelMode: Option<string>,
    billFile: Option<Upload>)

  // ---------------------------------------------------------------------
  // The guards both routes share

  /** The alert a refused attempt leaves: one row for the first active
      manager. Its text formats the claim's submission time, so a claim
      without one makes the formatting raise, and the handler around it
      swallows the error: no row. */
  function AttemptAlerts(e: Expense, users: seq<User>, template: string): (alerts: seq<Notification>)
    ensures |alerts| <= 1
    ensures |alerts| == 1 <==> FirstActive(users, Manager).Some? && e.submittedAt.Some?
    ensures |alerts| == 1 ==>
      alerts[0].userId == FirstActive(users, Manager).value.id && alerts[0].kind == ExpenseRejected &&
      alerts[0].expenseId == Some(e.id) && alerts[0].message == Template(template)
  {
    match FirstActive(users, Manager)
    case None => []
    case Some(m) =>
      if e.submittedAt.None? then []
      else [Notification(m.id, ExpenseRejected, Some(e.id), Template(template))]
  }

  /** The checks in order: the claim exists, the caller owns it, its status
      is submitted. `None` lets the call go on; otherwise the outcome of the
      refusal. */
  function Guard(rows: Rows, expenseId: nat, caller: User, users: seq<User>, template: string): (r: Option<Outcome>)
    ensures r.None? <==>
      rows.expense.Some? && rows.expense.value.id == expenseId &&
      rows.expense.value.employeeId == caller.id && rows.expense.value.status == Submitted
    ensures r.Some? ==> r.value.error.Some?
  {
    if rows.expense.None? || rows.expense.value.id != expenseId then Some(Outcome(rows, Some(ExpenseNotFound)))
    else
      var e := rows.expense.value;
      if e.employeeId != caller.id then Some(Outcome(rows, Some(NotOwner)))
      else if e.status != Submitted then
        Some(Outcome(rows.(outbox := rows.outbox + AttemptAlerts(e, users, template)), Some(NotEditable(e.status))))
      else None
  }

  // ---------------------------------------------------------------------
  // update_expense

  /** The form's fields laid over the claim, in the route's order: the
      category (trimmed and lower-cased), the amount, the date (a date not
      in YYYY-MM-DD form refuses the update), the description, the travel
      mode. */
  function EditedFields(e: Expense, form: EditForm): (r: Result<Expense, EditError>)
    ensures r.Err? <==> form.expenseDate.Malformed?
    ensures r.Err? ==> r.error == BadDateFormat
    ensures r.Ok? ==>
      r.value.(category := e.category, amount := e.amount, expenseDate := e.expenseDate,
               description := e.description, travelMode := e.travelMode) == e
    ensures r.Ok? ==> r.value.category == (if Given(form.category) then Lower(Strip(form.category.value)) else e.category)
    ensures r.Ok? ==> r.value.amount == form.amount.UnwrapOr(e.amount)
    ensures r.Ok? ==> r.value.expenseDate == (if form.expenseDate.Day? then form.expenseDate.day else e.expenseDate)
    ensures r.Ok? ==> r.value.description == (if Given(form.description) then form.description.value else e.description)
    ensures r.Ok? ==> r.value.travelMode == (if Given(form.travelMode) then form.travelMode else e.travelMode)
  {
    if form.expenseDate.Malformed? then Err(BadDateFormat)
    else
      Ok(e.(category := if Given(form.category) then Lower(Strip(form.category.value)) else e.category,
            amount := form.amount.UnwrapOr(e.amount),
            expenseDate := if form.expenseDate.Day? then form.expenseDate.day else e.expenseDate,
            description := if Given(form.description) then form.description.value else e.description,
            travelMode := if Given(form.travelMode) then form.travelMode else e.travelMode))
  }

  /** A new bill's reading laid over the claim: the bill number, the vendor,
      the recommendation (a missing one read as REVIEW) and whether the
      claim is within limits, all from an analysis made with the claim's
      already updated category and amount. The content hash and the
      duplicate status are left as they were. */
  function Reanalysed(e: Expense, file: Upload, grade: string): (r: Expense)
    ensures r.(billNumber := e.billNumber, vendorName := e.vendorName, aiRecommendation := e.aiRecommendation,
               isWithinLimits := e.isWithinLimits) == e
    ensures var a := AnalyzeBill(file.reading, e.category, e.amount, grade);
            r.billNumber == a.reading.billNumber && r.vendorName == a.reading.vendorName &&
            r.aiRecommendation == Some(a.reading.recommendation.UnwrapOr("REVIEW")) &&
            (r.isWithinLimits <==> a.limitCheck.None? || a.limitCheck.value.isValid)
  {
    var a := AnalyzeBill(file.reading, e.category, e.amount, grade);
    e.(billNumber := a.reading.billNumber, vendorName := a.reading.vendorName,
       aiRecommendation := Some(a.reading.recommendation.UnwrapOr("REVIEW")),
       isWithinLimits := if a.limitCheck.Some? then a.limitCheck.value.isValid else true)
  }

  /** The claim after an update that passed the guards: the fields, then a
      new bill (its file checked, then read again). */
  function EditedClaim(e: Expense, form: EditForm, grade: string): (r: Result<Expense, EditError>)
    ensures EditedFields(e, form).Err? ==> r == EditedFields(e, form)
    ensures r.Ok? ==> r.value.id == e.id && r.value.status == e.status &&
                      r.value.currentApproverLevel == e.currentApproverLevel
  {
    var edited :- EditedFields(e, form);
    if form.billFile.None? then Ok(edited)
    else
      var file := form.billFile.value;
      var check := ValidateFile(file.filename, file.size);
      if !check.isValid then Err(FileRejected(check.error.value))
      else Ok(Reanalysed(edited, file, grade))
  }

  /** `update_expense` as a function of the rows before the call: the
      guards, then the edit. Only a call that completes changes the claim. */
  function UpdateStep(rows: Rows, expenseId: nat, caller: User, form: EditForm, users: seq<User>): Outcome
  {
    match Guard(rows, expenseId, caller, users, "update_attempt_alert")
    case Some(refused) => refused
    case None =>
      match EditedClaim(rows.expense.value, form, caller.grade)
      case Err(error) => Outcome(rows, Some(error))
      case Ok(edited) => Outcome(rows.(expense := Some(edited)), None)
  }

  // ---------------------------------------------------------------------
  // delete_expense

  /** The notifications that do not name the claim. */
  function Unrelated(outbox: seq<Notification>, expenseId: nat): (kept: seq<Notification>)
    ensures forall n :: n in kept <==> n in outbox && n.expenseId != Some(expenseId)
    ensures |kept| <= |outbox|
  {
    if |outbox| == 0 then []
    else
      var last := outbox[|outbox| - 1];
      Unrelated(outbox[..|outbox| - 1], expenseId) + (if last.expenseId == Some(expenseId) then [] else [last])
  }

  /** The approval records of other claims. */
  function OtherClaims(approvals: seq<ApprovalRecord>, expenseId: nat): (kept: seq<ApprovalRecord>)
    ensures forall r :: r in kept <==> r in approvals && r.expenseId != expenseId
  {
    if |approvals| == 0 then []
    else
      var last := approvals[|approvals| - 1];
      OtherClaims(approvals[..|approvals| - 1], expenseId) + (if last.expenseId == expenseId then [] else [last])
  }

  /** `delete_expense` as a function of the rows before the call: the
      guards, then the claim's notifications, its approval records and the
      claim itself are removed. */
  function DeleteStep(rows: Rows, expenseId: nat, caller: User, users: seq<User>): Outcome
  {
    match Guard(rows, expenseId, caller, users, "delete_attempt_alert")
    case Some(refused) => refused
    case None => Outcome(Rows(None, OtherClaims(rows.approvals, expenseId), Unrelated(rows.outbox, expenseId)), None)
  }

  // ---------------------------------------------------------------------
  // What the routes promise

  /** Both routes go through only for the owner of a submitted claim; a
      decided claim is refused with its status, and nothing but the alert
      is added; the other refusals change nothing at all. */
  lemma {:induction false} EditsNeedSubmitted(rows: Rows, expenseId: nat, caller: User, form: EditForm, users: seq<User>)
    ensures var u := UpdateStep(rows, expenseId, caller, form, users);
            var d := DeleteStep(rows, expenseId, caller, users);
            (u.error.None? || d.error.None? ==>
               rows.expense.Some? && rows.expense.value.id == expenseId &&
               rows.expense.value.employeeId == caller.id && rows.expense.value.status == Submitted)
    ensures rows.expense.Some? && rows.expense.value.id == expenseId && rows.expense.value.employeeId == caller.id &&
            rows.expense.value.status != Submitted ==>
      var e := rows.expense.value;
      UpdateStep(rows, expenseId, caller, form, users) ==
        Outcome(rows.(outbox := rows.outbox + AttemptAlerts(e, users, "update_attempt_alert")), Some(NotEditable(e.status))) &&
      DeleteStep(rows, expenseId, caller, users) ==
        Outcome(rows.(outbox := rows.outbox + AttemptAlerts(e, users, "delete_attempt_alert")), Some(NotEditable(e.status)))
    ensures rows.expense.None? || rows.expense.value.id != expenseId ==>
      UpdateStep(rows, expenseId, caller, form, users) == Outcome(rows, Some(ExpenseNotFound)) &&
      DeleteStep(rows, expenseId, caller, users) == Outcome(rows, Some(ExpenseNotFound))
    ensures rows.expense.Some? && rows.expense.value.id == expenseId && rows.expense.value.employeeId != caller.id ==>
      UpdateStep(rows, expenseId, caller, form, users) == Outcome(rows, Some(NotOwner)) &&
      DeleteStep(rows, expenseId, caller, users) == Outcome(rows, Some(NotOwner))
  {
    var g := Guard(rows, expenseId, caller, users, "update_attempt_alert");
    var h := Guard(rows, expenseId, caller, users, "delete_attempt_alert");
    assert g.None? <==> h.None?;
  }

  /** An update that goes through changes the claim's own fields only: its
      approval records and notifications stay, and so do its identity, its
      status and level, its content hash and its duplicate status, even when
      a new bill replaces the old one. Without a new bill the analysis
      fields stay too. A refused update leaves the claim as it was. */
  lemma UpdateChangesOnlyFields(rows: Rows, expenseId: nat, caller: User, form: EditForm, users: seq<User>)
    ensures var u := UpdateStep(rows, expenseId, caller, form, users);
            u.rows.approvals == rows.approvals && u.rows.expense.Some? == rows.expense.Some? &&
            (u.error.Some? ==> u.rows.expense == rows.expense)
    ensures var u := UpdateStep(rows, expenseId, caller, form, users);
            u.error.None? ==>
              var e := rows.expense.value;
              var e2 := u.rows.expense.value;
              u.rows.outbox == rows.outbox &&
              e2.id == e.id && e2.employeeId == e.employeeId && e2.expenseNumber == e.expenseNumber &&
              e2.status == e.status && e2.currentApproverLevel == e.currentApproverLevel &&
              e2.fileHash == e.fileHash && e2.duplicateCheckStatus == e.duplicateCheckStatus &&
              e2.submittedAt == e.submittedAt &&
              (form.billFile.None? ==>
                 e2.billNumber == e.billNumber && e2.vendorName == e.vendorName &&
                 e2.aiRecommendation == e.aiRecommendation && e2.isWithinLimits == e.isWithinLimits)
  {
  }

  /** The fields of an update, laid over a claim that already carries
      them, change nothing. */
  lemma EditedFieldsSettled(e: Expense, x: Expense, form: EditForm)
    requires EditedFields(e, form).Ok?
    requires var edited := EditedFields(e, form).value;
             x.category == edited.category && x.amount == edited.amount && x.expenseDate == edited.expenseDate &&
             x.description == edited.description && x.travelMode == edited.travelMode
    ensures EditedFields(x, form) == Ok(x)
  {
    if Given(form.category) {
      LowerStripIdempotent(form.category.value);
    }
  }

  /** Reading the same bill again, with the same category and amount,
      gives the same fields. */
  lemma ReanalysedSettled(e: Expense, file: Upload, grade: string)
    ensures Reanalysed(Reanalysed(e, file, grade), file, grade) == Reanalysed(e, file, grade)
  {
    var x := Reanalysed(e, file, grade);
    assert x.category == e.category && x.amount == e.amount;
  }

  /** Sending the same update again, once it has gone through, changes
      nothing more. */
  lemma UpdateIdempotent(rows: Rows, expenseId: nat, caller: User, form: EditForm, users: seq<User>)
    requires UpdateStep(rows, expenseId, caller, form, users).error.None?
    ensures var once := UpdateStep(rows, expenseId, caller, form, users);
            UpdateStep(once.rows, expenseId, caller, form, users) == once
  {
    var e := rows.expense.value;
    var edited := EditedFields(e, form).value;
    var once := UpdateStep(rows, expenseId, caller, form, users);
    if form.billFile.None? {
      assert once.rows == rows.(expense := Some(edited));
      EditedFieldsSettled(e, edited, form);
    } else {
      var file := form.billFile.value;
      var x := Reanalysed(edited, file, caller.grade);
      assert once.rows == rows.(expense := Some(x));
      EditedFieldsSettled(e, x, form);
      ReanalysedSettled(edited, file, caller.grade);
    }
  }

  /** Removing a claim's records from records that all belong to it
      leaves none. */
  lemma {:induction false} OtherClaimsOfOwnRecords(approvals: seq<ApprovalRecord>, expenseId: nat)
    requires forall k :: 0 <= k < |approvals| ==> approvals[k].expenseId == expenseId
    ensures OtherClaims(approvals, expenseId) == []
  {
    if |approvals| > 0 {
      OtherClaimsOfOwnRecords(approvals[..|approvals| - 1], expenseId);
    }
  }

  /** A deletion that goes through leaves no claim, no approval record of
      it and no notification that names it, and keeps everything else. */
  lemma DeleteRemovesClaim(rows: Rows, expenseId: nat, caller: User, users: seq<User>)
    requires DeleteStep(rows, expenseId, caller, users).error.None?
    ensures var after := DeleteStep(rows, expenseId, caller, users).rows;
            after.expense.None? &&
            (forall r :: r in after.approvals <==> r in rows.approvals && r.expenseId != expenseId) &&
            (forall n :: n in after.outbox <==> n in rows.outbox && n.expenseId != Some(expenseId))
    ensures Consistent(rows) ==> DeleteStep(rows, expenseId, caller, users).rows.approvals == []
  {
    if Consistent(rows) {
      OtherClaimsOfOwnRecords(rows.approvals, expenseId);
    }
  }

  /** A deleted claim can be neither changed nor deleted again. */
  lemma DeletedClaimIsGone(rows: Rows, expenseId: nat, caller: User, users: seq<User>,
                           other: User, form: EditForm)
    requires DeleteStep(rows, expenseId, caller, users).error.None?
    ensures var after := DeleteStep(rows, expenseId, caller, users).rows;
            UpdateStep(after, expenseId, other, form, users).error == Some(ExpenseNotFound) &&
            DeleteStep(after, expenseId, other, users).error == Some(ExpenseNotFound)
  {
  }

  /** Changing a claim's fields other than its identity, status and level
      keeps the workflow's invariant, and so does adding notifications. */
  lemma FieldsKeepConsistent(rows: Rows, x: Expense)
    requires Consistent(rows) && rows.expense.Some?
    requires x.id == rows.expense.value.id && x.status == rows.expense.value.status
    requires x.currentApproverLevel == rows.expense.value.currentApproverLevel
    ensures Consistent(rows.(expense := Some(x)))
    ensures forall more :: Consistent(rows.(outbox := rows.outbox + more))
  {
  }

  /** An update keeps the workflow's invariant over the claim's rows. */
  lemma UpdatePreservesConsistent(rows: Rows, expenseId: nat, caller: User, form: EditForm, users: seq<User>)
    requires Consistent(rows)
    ensures Consistent(UpdateStep(rows, expenseId, caller, form, users).rows)
  {
    UpdateChangesOnlyFields(rows, expenseId, caller, form, users);
  }

  /** A deletion keeps the workflow's invariant over the claim's rows. */
  lemma DeletePreservesConsistent(rows: Rows, expenseId: nat, caller: User, users: seq<User>)
    requires Consistent(rows)
    ensures Consistent(DeleteStep(rows, expenseId, caller, users).rows)
  {
    if DeleteStep(rows, expenseId, caller, users).error.None? {
      DeleteRemovesClaim(rows, expenseId, caller, users);
    }
  }

  // ---------------------------------------------------------------------
  // The routes, changing the rows in place

  /** The alert of a refused attempt, added to the rows. */
  method SendAttemptAlert(store: Store, e: Expense, users: seq<User>, template: string)
    modifies store
    ensures store.State() == old(store.State()).(outbox := old(store.outbox) + AttemptAlerts(e, users, template))
  {
    var manager := FirstActive(users, Manager);
    if manager.Some? && e.submittedAt.Some? {
      store.outbox := store.outbox + [Notification(manager.value.id, ExpenseRejected, Some(e.id), Template(template))];
    }
  }

  /** The form's fields assigned one by one to a working copy of the claim. */
  method ApplyFields(e: Expense, form: EditForm) returns (r: Result<Expense, EditError>)
    ensures r == EditedFields(e, form)
  {
    var edited := e;
    if Given(form.category) {
      edited := edited.(category := Lower(Strip(form.category.value)));
    }
    if form.amount.Some? {
      edited := edited.(amount := form.amount.value);
    }
    match form.expenseDate {
      case Blank =>
      case Malformed =>
        return Err(BadDateFormat);
      case Day(d) =>
        edited := edited.(expenseDate := d);
    }
    if Given(form.description) {
      edited := edited.(description := form.description.value);
    }
    if Given(form.travelMode) {
      edited := edited.(travelMode := form.travelMode);
    }
    r := Ok(edited);
  }

  /** The new bill read again and its reading assigned field by field. */
  method ReadNewBill(e: Expense, file: Upload, grade: string) returns (x: Expense)
    ensures x == Reanalysed(e, file, grade)
  {
    var a := AnalyzeBill(file.reading, e.category, e.amount, grade);
    x := e.(billNumber := a.reading.billNumber);
    x := x.(vendorName := a.reading.vendorName);
    x := x.(aiRecommendation := Some(a.reading.recommendation.UnwrapOr("REVIEW")));
    x := x.(isWithinLimits := if a.limitCheck.Some? then a.limitCheck.value.isValid else true);
  }

  /** The guards, in the route's order; a decided claim gets its alert. */
  method CheckEditable(store: Store, expenseId: nat, caller: User, users: seq<User>, template: string)
    returns (refusal: Option<EditError>)
    modifies store
    ensures var g := Guard(old(store.State()), expenseId, caller, users, template);
            (g.Some? ==> store.State() == g.value.rows && refusal == g.value.error) &&
            (g.None? ==> store.State() == old(store.State()) && refusal.None?)
    ensures old(store.Valid()) ==> store.Valid()
  {
    if store.expense.None? || store.expense.value.id != expenseId {
      return Some(ExpenseNotFound);
    }
    var e := store.expense.value;
    if e.employeeId != caller.id {
      return Some(NotOwner);
    }
    if e.status != Submitted {
      ghost var before := store.State();
      SendAttemptAlert(store, e, users, template);
      if Consistent(before) {
        FieldsKeepConsistent(before, e);
      }
      return Some(NotEditable(e.status));
    }
    refusal := None;
  }

  /** The edit on a working copy of the claim. */
  method ApplyEdit(e: Expense, form: EditForm, grade: string) returns (r: Result<Expense, EditError>)
    ensures r == EditedClaim(e, form, grade)
  {
    r := ApplyFields(e, form);
    if r.Err? || form.billFile.None? {
      return;
    }
    var file := form.billFile.value;
    var check := ValidateFile(file.filename, file.size);
    if !check.isValid {
      return Err(FileRejected(check.error.value));
    }
    var x := ReadNewBill(r.value, file, grade);
    r := Ok(x);
  }

  /** `update_expense`: the guards, then the edit on a working copy of the
      claim, which is stored only when every step went through. */
  method UpdateExpense(store: Store, expenseId: nat, caller: User, form: EditForm, users: seq<User>)
    returns (r: Result<Expense, EditError>)
    modifies store
    ensures var step := UpdateStep(old(store.State()), expenseId, caller, form, users);
            store.State() == step.rows &&
            (step.error.Some? ==> r == Err(step.error.value)) &&
            (step.error.None? ==> r == Ok(store.expense.value))
    ensures old(store.Valid()) ==> store.Valid()
  {
    ghost var before := store.State();
    var refusal := CheckEditable(store, expenseId, caller, users, "update_attempt_alert");
    if refusal.Some? {
      return Err(refusal.value);
    }
    r := ApplyEdit(store.expense.value, form, caller.grade);
    if r.Ok? {
      store.expense := Some(r.value);
    }
    if r.Ok? && Consistent(before) {
      FieldsKeepConsistent(before, r.value);
    }
  }

  /** `delete_expense`: the guards, then the claim's notifications, its
      approval records, and the claim. */
  method DeleteExpense(store: Store, expenseId: nat, caller: User, users: seq<User>)
    returns (r: Result<string, EditError>)
    modifies store
    ensures var step := DeleteStep(old(store.State()), expenseId, caller, users);
            store.State() == step.rows &&
            (step.error.Some? ==> r == Err(step.error.value)) &&
            (step.error.None? ==> r == Ok(old(store.expense).value.expenseNumber))
    ensures old(store.Valid()) ==> store.Valid()
  {
    ghost var before := store.State();
    var refusal := CheckEditable(store, expenseId, caller, users, "delete_attempt_alert");
    if refusal.Some? {
      return Err(refusal.value);
    }
    var expenseNumber := store.expense.value.expenseNumber;
    store.outbox := Unrelated(store.outbox, expenseId);
    store.approvals := OtherClaims(store.approvals, expenseId);
    store.expense := None;
    r := Ok(expenseNumber);
    if Consistent(before) {
      DeletePreservesConsistent(before, expenseId, caller, users);
    }
  }
}
