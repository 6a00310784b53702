/** The live two-level approval routes: a manager decides first, then
    finance. Approvers do not own their records: any approver at a level
    may take the pending record of that level. A decision marks that
    record, moves the claim on (to the finance level, to approved, or to
    rejected) and notifies the people concerned. */
module ApprovalRoutes {

  import opened Wrappers
  import opened Strings
  import opened Models
  import opened UserModel
  import opened NotificationService
  import opened ClaimStore

  /** `level_map`: the approval level a role acts at; only managers and
      finance users have one. */
  function CallerLevel(role: Role): (level: Option<ApprovalLevel>)
    ensures level == Some(ManagerLevel) <==> role == Manager
    ensures level == Some(FinanceLevel) <==> role == Finance
    ensures level.None? <==> role != Manager && role != Finance
  {
    match role
    case Manager => Some(ManagerLevel)
    case Finance => Some(FinanceLevel)
    case _ => None
  }

  /** The routes' gate is narrower than the `approve_expense` permission:
      whoever passes it holds the permission, but HR and admin users hold
      the permission without passing it. */
  lemma GateWithinPermission(u: User)
    ensures CallerLevel(u.role).Some? ==> HasPermission(u, "approve_expense")
    ensures (u.role == Hr || u.role == Admin) ==> HasPermission(u, "approve_expense") && CallerLevel(u.role).None?
  {
  }

  // ---------------------------------------------------------------------
  // The pending list

  datatype PendingListing = NoRights | Listing(records: seq<ApprovalRecord>)

  /** The pending records of one level, in table order. */
  function PendingOfLevel(approvals: seq<ApprovalRecord>, level: ApprovalLevel): (found: seq<ApprovalRecord>)
    ensures |found| <= |approvals|
    ensures forall r :: r in found <==> r in approvals && IsPending(r) && r.level == level
  {
    if |approvals| == 0 then []
    else
      var rest := PendingOfLevel(approvals[1..], level);
      assert forall r :: r in approvals <==> r == approvals[0] || r in approvals[1..];
      if IsPending(approvals[0]) && approvals[0].level == level then [approvals[0]] + rest else rest
  }

  /** Newest first: the records in reverse creation order. */
  function NewestFirst(records: seq<ApprovalRecord>): (r: seq<ApprovalRecord>)
    ensures |r| == |records|
    ensures forall k :: 0 <= k < |r| ==> r[k] == records[|records| - 1 - k]
  {
    seq(|records|, k requires 0 <= k < |records| => records[|records| - 1 - k])
  }

  /** `.offset(skip).limit(limit)` */
  function Page(records: seq<ApprovalRecord>, skip: nat, limit: nat): (page: seq<ApprovalRecord>)
    ensures |page| <= limit
    ensures skip <= |records| ==> page == records[skip..if skip + limit <= |records| then skip + limit else |records|]
    ensures skip >= |records| ==> page == []
  {
    var start := if skip <= |records| then skip else |records|;
    var end := if skip + limit <= |records| then skip + limit else |records|;
    records[start..end]
  }

  /** `get_pending_approvals`: users without a level get no list at all;
      the others get the pending records of their level, newest first,
      one page of them. */
  function GetPendingApprovals(approvals: seq<ApprovalRecord>, caller: Role, skip: nat, limit: nat): (r: PendingListing)
    ensures r.NoRights? <==> CallerLevel(caller).None?
    ensures r.Listing? ==> |r.records| <= limit
    ensures r.Listing? ==> forall x :: x in r.records ==> x in approvals && IsPending(x) && x.level == CallerLevel(caller).value
    ensures r.Listing? ==> r.records == Page(NewestFirst(PendingOfLevel(approvals, CallerLevel(caller).value)), skip, limit)
  {
    match CallerLevel(caller)
    case None => NoRights
    case Some(level) =>
      var all := NewestFirst(PendingOfLevel(approvals, level));
      var page := Page(all, skip, limit);
      assert forall x :: x in page ==> x in all;
      Listing(page)
  }

  /** A first page large enough for the level lists every pending record
      of the level and nothing else. */
  lemma {:induction false} FirstPageListsAllPending(approvals: seq<ApprovalRecord>, caller: Role, limit: nat)
    requires CallerLevel(caller).Some?
    requires |PendingOfLevel(approvals, CallerLevel(caller).value)| <= limit
    ensures var r := GetPendingApprovals(approvals, caller, 0, limit);
            r.Listing? &&
            forall x :: x in r.records <==> x in approvals && IsPending(x) && x.level == CallerLevel(caller).value
  {
    var level := CallerLevel(caller).value;
    var pending := PendingOfLevel(approvals, level);
    var all := NewestFirst(pending);
    assert Page(all, 0, limit) == all;
    forall x
      ensures x in all <==> x in pending
    {
      if x in all {
        var k :| 0 <= k < |all| && all[k] == x;
        assert pending[|pending| - 1 - k] == x;
      }
      if x in pending {
        var k :| 0 <= k < |pending| && pending[k] == x;
        assert all[|pending| - 1 - k] == x;
      }
    }
  }

  /** A first page of at least one record is empty exactly when the level
      has no pending record, and otherwise opens with the newest of them. */
  lemma {:induction false} FirstPageOpensWithNewest(approvals: seq<ApprovalRecord>, caller: Role, limit: nat)
    requires CallerLevel(caller).Some? && limit > 0
    ensures var r := GetPendingApprovals(approvals, caller, 0, limit);
            var pending := PendingOfLevel(approvals, CallerLevel(caller).value);
            r.Listing? &&
            (|r.records| == 0 <==> !exists x :: x in approvals && IsPending(x) && x.level == CallerLevel(caller).value) &&
            (|r.records| > 0 ==> r.records[0] == pending[|pending| - 1])
  {
    var level := CallerLevel(caller).value;
    var pending := PendingOfLevel(approvals, level);
    if |pending| > 0 {
      assert pending[0] in pending;
    }
  }

  // ---------------------------------------------------------------------
  // Decisions as functions of the rows

  datatype DecisionError = ExpenseNotFound | NoApprovalRights | NoPendingApproval(level: ApprovalLevel)

  /** The record a decision takes: pending, at the caller's level, for this claim. */
  predicate Slot(r: ApprovalRecord, expenseId: nat, level: ApprovalLevel)
  {
    r.expenseId == expenseId && r.level == level && IsPending(r)
  }

  /** `.first()` of the pending-record query: the first slot in table order. */
  function PendingAt(approvals: seq<ApprovalRecord>, expenseId: nat, level: ApprovalLevel): (i: Option<nat>)
    ensures i.Some? ==> i.value < |approvals| && Slot(approvals[i.value], expenseId, level)
    ensures i.Some? ==> forall k :: 0 <= k < i.value ==> !Slot(approvals[k], expenseId, level)
    ensures i.None? ==> forall k :: 0 <= k < |approvals| ==> !Slot(approvals[k], expenseId, level)
  {
    if |approvals| == 0 then None
    else if Slot(approvals[0], expenseId, level) then Some(0)
    else
      match PendingAt(approvals[1..], expenseId, level)
      case None => None
      case Some(k) => Some(k + 1)
  }

  /** The decided record: the caller becomes its approver, with the verdict,
      the comments and the time of review. */
  function Decided(r: ApprovalRecord, caller: User, verdict: ApprovalStatus, comments: Option<string>, now: int): ApprovalRecord
  {
    r.(approverId := caller.id, status := verdict, comments := comments, reviewedAt := Some(now))
  }

  /** The finance record a manager approval opens, assigned to the first
      finance user. */
  function FinanceSlot(e: Expense, finance: User): ApprovalRecord
  {
    ApprovalRecord(e.id, finance.id, FinanceLevel, Pending, None, None)
  }

  /** The review request one finance user receives. */
  function FinanceAlert(e: Expense, u: User): Notification
  {
    Notification(u.id, ExpenseSubmitted, Some(e.id), Template("finance_review_request"))
  }

  function FinanceAlerts(e: Expense, finance: seq<User>): (alerts: seq<Notification>)
    ensures |alerts| == |finance|
    ensures forall k :: 0 <= k < |finance| ==> alerts[k] == FinanceAlert(e, finance[k])
  {
    seq(|finance|, k requires 0 <= k < |finance| => FinanceAlert(e, finance[k]))
  }

  /** The message the employee receives after an approval at `level`. */
  function ApprovalMessage(e: Expense, approverName: string, level: ApprovalLevel, comments: Option<string>): string
  {
    "Your expense claim " + e.expenseNumber + " has been approved by " + approverName +
    (if e.status == Approved then ". Your reimbursement is ready for processing." else " at " + LevelName(level) + " level.") +
    (if Given(comments) then " Comment: " + comments.value else "")
  }

  function ApprovalNotice(e: Expense, approverName: string, level: ApprovalLevel, comments: Option<string>): Notification
  {
    Notification(e.employeeId, ExpenseApproved, Some(e.id), Text(ApprovalMessage(e, approverName, level, comments)))
  }

  /** Whether a manager approval hands the claim on to finance. */
  predicate GoesToFinance(level: ApprovalLevel, users: seq<User>)
  {
    level == ManagerLevel && |ActiveWithRole(users, Finance)| > 0
  }

  /** The checks both decisions make, in order: the claim exists, the caller
      has a level, a slot is pending at that level. On success, the claim
      and the index of the slot. */
  function Admit(rows: Rows, expenseId: nat, caller: User): (r: Result<(Expense, ApprovalLevel, nat), DecisionError>)
    ensures rows.expense.None? || rows.expense.value.id != expenseId ==> r == Err(ExpenseNotFound)
    ensures rows.expense.Some? && rows.expense.value.id == expenseId && CallerLevel(caller.role).None? ==>
      r == Err(NoApprovalRights)
    ensures rows.expense.Some? && rows.expense.value.id == expenseId && CallerLevel(caller.role).Some? ==>
      (r.Ok? <==> PendingAt(rows.approvals, expenseId, CallerLevel(caller.role).value).Some?)
    ensures r.Err? && r.error.NoPendingApproval? ==> r.error.level == CallerLevel(caller.role).value
    ensures r.Ok? ==>
      (Some(r.value.0) == rows.expense && Some(r.value.1) == CallerLevel(caller.role) &&
       Some(r.value.2) == PendingAt(rows.approvals, expenseId, r.value.1))
  {
    if rows.expense.None? || rows.expense.value.id != expenseId then Err(ExpenseNotFound)
    else
      match CallerLevel(caller.role)
      case None => Err(NoApprovalRights)
      case Some(level) =>
        match PendingAt(rows.approvals, expenseId, level)
        case None => Err(NoPendingApproval(level))
        case Some(i) => Ok((rows.expense.value, level, i))
  }

  /** `approve_expense` as a function of the rows before the call. */
  function ApproveStep(rows: Rows, expenseId: nat, caller: User, comments: Option<string>, users: seq<User>, now: int): Result<Rows, DecisionError>
  {
    var (e, level, i) :- Admit(rows, expenseId, caller);
    Ok(AcceptAt(rows, e, level, i, caller, comments, users, now))
  }

  /** The rows after an admitted approval of claim `e` through slot `i` at
      `level`. */
  function AcceptAt(rows: Rows, e: Expense, level: ApprovalLevel, i: nat, caller: User, comments: Option<string>,
                    users: seq<User>, now: int): Rows
    requires i < |rows.approvals|
  {
    var decided := rows.approvals[i := Decided(rows.approvals[i], caller, Accepted, comments, now)];
    if GoesToFinance(level, users) then
      var finance := ActiveWithRole(users, Finance);
      var moved := e.(currentApproverLevel := Some(LevelName(FinanceLevel)));
      Rows(Some(moved), decided + [FinanceSlot(e, finance[0])],
           rows.outbox + FinanceAlerts(moved, finance) + [ApprovalNotice(moved, caller.fullName, level, comments)])
    else
      var approved := e.(status := Approved, approvedAt := Some(now), currentApproverLevel := None);
      Rows(Some(approved), decided, rows.outbox + [ApprovalNotice(approved, caller.fullName, level, comments)])
  }

  /** Python's `str()` of an optional comment. */
  function Rendered(comments: Option<string>): string
  {
    if comments.Some? then comments.value else "None"
  }

  /** The rejection reason: the generator's text, or, when the generator
      raised, a line naming the level and the comments. */
  function RejectionReason(generated: Option<string>, level: ApprovalLevel, comments: Option<string>): (reason: string)
    ensures generated.Some? ==> reason == generated.value
    ensures generated.None? ==> StartsWith(reason, "Rejected by " + LevelName(level) + ": ")
    ensures generated.None? && comments.Some? ==> EndsWith(reason, comments.value)
  {
    if generated.Some? then generated.value
    else
      var head := "Rejected by " + LevelName(level) + ": ";
      var reason := head + Rendered(comments);
      assert reason[..|head|] == head;
      assert reason[|reason| - |Rendered(comments)|..] == Rendered(comments);
      reason
  }

  /** `reject_expense` as a function of the rows before the call. The
      generated reason is a parameter: `None` when the generator raised. */
  function RejectStep(rows: Rows, expenseId: nat, caller: User, comments: Option<string>, generated: Option<string>, now: int): Result<Rows, DecisionError>
  {
    var (e, level, i) :- Admit(rows, expenseId, caller);
    var reason := RejectionReason(generated, level, comments);
    var decided := rows.approvals[i := Decided(rows.approvals[i], caller, Declined, comments, now)];
    var rejected := e.(status := Rejected, rejectionReason := Some(reason), rejectedBy := Some(caller.id),
                       rejectedAt := Some(now), currentApproverLevel := None);
    Ok(Rows(Some(rejected), decided, rows.outbox + [NotifyExpenseRejected(rejected, reason)]))
  }

  /** `reject_expense` as written: the service object has no
      `generate_rejection_reason`, so the call raises, the `except` takes
      over, and the reason is always the fallback line. */
  function RejectStepAsWritten(rows: Rows, expenseId: nat, caller: User, comments: Option<string>, now: int): Result<Rows, DecisionError>
  {
    RejectStep(rows, expenseId, caller, comments, None, now)
  }

  /** As written, no generated reason ever reaches the claim or the
      employee: the stored reason is the level and the comments, whatever
      the generator would have said. */
  lemma {:induction false} GeneratedReasonNeverStored(rows: Rows, expenseId: nat, caller: User, comments: Option<string>,
                                                      generated: string, now: int)
    requires RejectStepAsWritten(rows, expenseId, caller, comments, now).Ok?
    requires !StartsWith(generated, "Rejected by ")
    ensures var after := RejectStepAsWritten(rows, expenseId, caller, comments, now).value;
            var level := CallerLevel(caller.role).value;
            after.expense.value.rejectionReason == Some("Rejected by " + LevelName(level) + ": " + Rendered(comments)) &&
            after.expense.value.rejectionReason != Some(generated) &&
            after.outbox[|after.outbox| - 1].message != Text(generated)
  {
    var level := CallerLevel(caller.role).value;
    RejectCloses(rows, expenseId, caller, comments, None, now);
    var reason := RejectionReason(None, level, comments);
    var head := "Rejected by " + LevelName(level) + ": ";
    assert reason == head + Rendered(comments);
    assert reason[..|"Rejected by "|] == "Rejected by ";
    if |generated| >= |"Rejected by "| {
      assert generated != reason;
    }
  }

  /** With a generator that answers, its text is the stored reason and the
      employee's notice. */
  lemma GeneratedReasonStored(rows: Rows, expenseId: nat, caller: User, comments: Option<string>, generated: string, now: int)
    requires RejectStep(rows, expenseId, caller, comments, Some(generated), now).Ok?
    ensures var after := RejectStep(rows, expenseId, caller, comments, Some(generated), now).value;
            after.expense.value.rejectionReason == Some(generated) &&
            after.outbox[|after.outbox| - 1] == Notification(rows.expense.value.employeeId, ExpenseRejected, Some(expenseId), Text(generated))
  {
    RejectCloses(rows, expenseId, caller, comments, Some(generated), now);
  }

  // ---------------------------------------------------------------------
  // What the decisions promise

  /** Both decisions refuse in the same order, with the same errors. */
  lemma {:induction false} DecisionsRefuseAlike(rows: Rows, expenseId: nat, caller: User, comments: Option<string>,
                                                users: seq<User>, generated: Option<string>, now: int)
    ensures ApproveStep(rows, expenseId, caller, comments, users, now).Err? <==> Admit(rows, expenseId, caller).Err?
    ensures RejectStep(rows, expenseId, caller, comments, generated, now).Err? <==> Admit(rows, expenseId, caller).Err?
    ensures Admit(rows, expenseId, caller).Err? ==>
      ApproveStep(rows, expenseId, caller, comments, users, now).error == Admit(rows, expenseId, caller).error &&
      RejectStep(rows, expenseId, caller, comments, generated, now).error == Admit(rows, expenseId, caller).error
  {
  }

  /** An approval marks the slot it took as approved by the caller and
      leaves every other existing record as it was. */
  lemma ApproveMarksSlot(rows: Rows, expenseId: nat, caller: User, comments: Option<string>, users: seq<User>, now: int)
    requires ApproveStep(rows, expenseId, caller, comments, users, now).Ok?
    ensures var after := ApproveStep(rows, expenseId, caller, comments, users, now).value;
            var i := PendingAt(rows.approvals, expenseId, CallerLevel(caller.role).value).value;
            |after.approvals| >= |rows.approvals| &&
            after.approvals[i] == Decided(rows.approvals[i], caller, Accepted, comments, now) &&
            after.approvals[i].approverId == caller.id && after.approvals[i].status == Accepted &&
            (forall k :: 0 <= k < |rows.approvals| && k != i ==> after.approvals[k] == rows.approvals[k])
  {
  }

  /** A manager approval with an active finance user keeps the claim
      submitted, opens exactly one finance record for the first finance
      user, moves the claim to the finance level and notifies every finance
      user, then the employee. */
  lemma ManagerApprovalHandsOn(rows: Rows, expenseId: nat, caller: User, comments: Option<string>, users: seq<User>, now: int)
    requires ApproveStep(rows, expenseId, caller, comments, users, now).Ok?
    requires caller.role == Manager && |ActiveWithRole(users, Finance)| > 0
    ensures var after := ApproveStep(rows, expenseId, caller, comments, users, now).value;
            var finance := ActiveWithRole(users, Finance);
            after.expense.value.status == rows.expense.value.status &&
            after.expense.value.currentApproverLevel == Some("FINANCE") &&
            |after.approvals| == |rows.approvals| + 1 &&
            after.approvals[|rows.approvals|] == ApprovalRecord(expenseId, finance[0].id, FinanceLevel, Pending, None, None) &&
            |after.outbox| == |rows.outbox| + |finance| + 1 &&
            (forall k :: 0 <= k < |finance| ==> after.outbox[|rows.outbox| + k].userId == finance[k].id) &&
            after.outbox[|after.outbox| - 1].userId == rows.expense.value.employeeId
  {
    var admitted := Admit(rows, expenseId, caller).value;
    assert ApproveStep(rows, expenseId, caller, comments, users, now).value ==
      AcceptAt(rows, admitted.0, ManagerLevel, admitted.2, caller, comments, users, now);
    AcceptHandsOn(rows, admitted.0, admitted.2, caller, comments, users, now);
  }

  /** `ManagerApprovalHandsOn` for an admitted claim `e` and slot `i`. */
  lemma AcceptHandsOn(rows: Rows, e: Expense, i: nat, caller: User, comments: Option<string>, users: seq<User>, now: int)
    requires i < |rows.approvals| && |ActiveWithRole(users, Finance)| > 0
    ensures var after := AcceptAt(rows, e, ManagerLevel, i, caller, comments, users, now);
            var finance := ActiveWithRole(users, Finance);
            after.expense.value.status == e.status &&
            after.expense.value.currentApproverLevel == Some("FINANCE") &&
            |after.approvals| == |rows.approvals| + 1 &&
            after.approvals[|rows.approvals|] == ApprovalRecord(e.id, finance[0].id, FinanceLevel, Pending, None, None) &&
            |after.outbox| == |rows.outbox| + |finance| + 1 &&
            (forall k :: 0 <= k < |finance| ==> after.outbox[|rows.outbox| + k].userId == finance[k].id) &&
            after.outbox[|after.outbox| - 1].userId == e.employeeId
  {
    var finance := ActiveWithRole(users, Finance);
    var moved := e.(currentApproverLevel := Some(LevelName(FinanceLevel)));
    HandOnOutbox(rows.outbox, FinanceAlerts(moved, finance), ApprovalNotice(moved, caller.fullName, ManagerLevel, comments), finance);
  }

  /** The outbox after a hand-on: the alerts, one per finance user in order,
      then the employee's notice. */
  lemma HandOnOutbox(before: seq<Notification>, alerts: seq<Notification>, notice: Notification, finance: seq<User>)
    requires |alerts| == |finance|
    requires forall k :: 0 <= k < |finance| ==> alerts[k].userId == finance[k].id
    ensures var after := before + alerts + [notice];
            |after| == |before| + |finance| + 1 &&
            (forall k :: 0 <= k < |finance| ==> after[|before| + k].userId == finance[k].id) &&
            after[|after| - 1] == notice
  {
  }

  /** A finance approval, or a manager approval with no active finance
      user, approves the claim outright: status approved, the approval
      time set, no level left, and no new record. */
  lemma FinalApproval(rows: Rows, expenseId: nat, caller: User, comments: Option<string>, users: seq<User>, now: int)
    requires ApproveStep(rows, expenseId, caller, comments, users, now).Ok?
    requires caller.role == Finance || (caller.role == Manager && |ActiveWithRole(users, Finance)| == 0)
    ensures var after := ApproveStep(rows, expenseId, caller, comments, users, now).value;
            after.expense.value.status == Approved && after.expense.value.approvedAt == Some(now) &&
            after.expense.value.currentApproverLevel.None? &&
            |after.approvals| == |rows.approvals| &&
            after.outbox == rows.outbox + [ApprovalNotice(after.expense.value, caller.fullName, CallerLevel(caller.role).value, comments)]
  {
  }

  /** A rejection at either level marks the slot as rejected by the caller
      and closes the claim: status rejected, rejected by the caller at
      `now`, with the reason, no level left, and the employee told the
      reason. */
  lemma RejectCloses(rows: Rows, expenseId: nat, caller: User, comments: Option<string>, generated: Option<string>, now: int)
    requires RejectStep(rows, expenseId, caller, comments, generated, now).Ok?
    ensures var after := RejectStep(rows, expenseId, caller, comments, generated, now).value;
            var level := CallerLevel(caller.role).value;
            var i := PendingAt(rows.approvals, expenseId, level).value;
            var reason := RejectionReason(generated, level, comments);
            |after.approvals| == |rows.approvals| &&
            after.approvals[i].status == Declined && after.approvals[i].approverId == caller.id &&
            (forall k :: 0 <= k < |rows.approvals| && k != i ==> after.approvals[k] == rows.approvals[k]) &&
            after.expense.value.status == Rejected && after.expense.value.rejectedBy == Some(caller.id) &&
            after.expense.value.rejectedAt == Some(now) && after.expense.value.rejectionReason == Some(reason) &&
            after.expense.value.currentApproverLevel.None? &&
            after.outbox == rows.outbox + [Notification(rows.expense.value.employeeId, ExpenseRejected, Some(expenseId), Text(reason))]
  {
  }

  /** In consistent rows the slot a decision takes is the only pending
      record, so deciding it leaves nothing pending. */
  lemma DecidingLeavesNonePending(rows: Rows, i: nat)
    requires Consistent(rows) && i < |rows.approvals| && IsPending(rows.approvals[i])
    ensures forall k :: 0 <= k < |rows.approvals| && k != i ==> !IsPending(rows.approvals[k])
  {
  }

  /** Approval keeps the rows consistent. */
  lemma {:induction false} ApprovePreservesConsistent(rows: Rows, expenseId: nat, caller: User, comments: Option<string>, users: seq<User>, now: int)
    requires Consistent(rows)
    requires ApproveStep(rows, expenseId, caller, comments, users, now).Ok?
    ensures Consistent(ApproveStep(rows, expenseId, caller, comments, users, now).value)
  {
    var (e, level, i) := Admit(rows, expenseId, caller).value;
    AcceptPreservesConsistent(rows, e, level, i, caller, comments, users, now);
  }

  /** `ApprovePreservesConsistent` for an admitted claim `e` and pending
      slot `i`. */
  lemma {:induction false} AcceptPreservesConsistent(rows: Rows, e: Expense, level: ApprovalLevel, i: nat, caller: User,
                                                     comments: Option<string>, users: seq<User>, now: int)
    requires Consistent(rows) && rows.expense == Some(e)
    requires i < |rows.approvals| && IsPending(rows.approvals[i])
    ensures Consistent(AcceptAt(rows, e, level, i, caller, comments, users, now))
  {
    DecidingLeavesNonePending(rows, i);
    var after := AcceptAt(rows, e, level, i, caller, comments, users, now);
    var decided := rows.approvals[i := Decided(rows.approvals[i], caller, Accepted, comments, now)];
    assert forall k :: 0 <= k < |decided| ==> !IsPending(decided[k]) && decided[k].expenseId == e.id;
    if GoesToFinance(level, users) {
      var slot := FinanceSlot(e, ActiveWithRole(users, Finance)[0]);
      var moved := e.(currentApproverLevel := Some(LevelName(FinanceLevel)));
      assert after == Rows(Some(moved), decided + [slot], after.outbox);
      DecidedThenOpenConsistent(decided, moved, [slot], after.outbox);
    } else {
      var approved := e.(status := Approved, approvedAt := Some(now), currentApproverLevel := None);
      assert after == Rows(Some(approved), decided + [], after.outbox);
      DecidedThenOpenConsistent(decided, approved, [], after.outbox);
    }
  }

  /** Rows whose records are all decided, followed by at most one open
      record for the current level of a submitted claim, are consistent. */
  lemma DecidedThenOpenConsistent(decided: seq<ApprovalRecord>, e: Expense, open: seq<ApprovalRecord>, outbox: seq<Notification>)
    requires forall k :: 0 <= k < |decided| ==> !IsPending(decided[k]) && decided[k].expenseId == e.id
    requires |open| <= 1
    requires forall k :: 0 <= k < |open| ==> open[k].expenseId == e.id
    requires forall k :: 0 <= k < |open| && IsPending(open[k]) ==>
      e.status == Submitted && e.currentApproverLevel == Some(LevelName(open[k].level))
    ensures Consistent(Rows(Some(e), decided + open, outbox))
  {
    var all := decided + open;
    assert forall k :: 0 <= k < |all| && IsPending(all[k]) ==> k == |decided| && all[k] == open[0];
  }

  /** Rejection keeps the rows consistent. */
  lemma {:induction false} RejectPreservesConsistent(rows: Rows, expenseId: nat, caller: User, comments: Option<string>, generated: Option<string>, now: int)
    requires Consistent(rows)
    requires RejectStep(rows, expenseId, caller, comments, generated, now).Ok?
    ensures Consistent(RejectStep(rows, expenseId, caller, comments, generated, now).value)
  {
    var (e, level, i) := Admit(rows, expenseId, caller).value;
    DecidingLeavesNonePending(rows, i);
  }

  /** Every successful decision turns exactly one pending record into a
      decided one, and creates at most one new pending record: the finance
      record of a manager approval. */
  lemma {:induction false} DecisionConsumesOneSlot(rows: Rows, expenseId: nat, caller: User, comments: Option<string>,
                                                   users: seq<User>, generated: Option<string>, now: int)
    ensures ApproveStep(rows, expenseId, caller, comments, users, now).Ok? ==>
      PendingCount(ApproveStep(rows, expenseId, caller, comments, users, now).value.approvals) + 1 ==
      PendingCount(rows.approvals) + (if GoesToFinance(CallerLevel(caller.role).value, users) then 1 else 0)
    ensures RejectStep(rows, expenseId, caller, comments, generated, now).Ok? ==>
      PendingCount(RejectStep(rows, expenseId, caller, comments, generated, now).value.approvals) + 1 ==
      PendingCount(rows.approvals)
  {
    var admitted := Admit(rows, expenseId, caller);
    if admitted.Ok? {
      var (e, level, i) := admitted.value;
      var accepted := Decided(rows.approvals[i], caller, Accepted, comments, now);
      var declined := Decided(rows.approvals[i], caller, Declined, comments, now);
      PendingCountUpdate(rows.approvals, i, accepted);
      PendingCountUpdate(rows.approvals, i, declined);
      if GoesToFinance(level, users) {
        var decided := rows.approvals[i := accepted];
        var slot := FinanceSlot(e, ActiveWithRole(users, Finance)[0]);
        assert (decided + [slot])[..|decided|] == decided;
      }
    }
  }

  /** Once a claim is approved or rejected, every further decision on it is
      refused for want of a pending record, and changes nothing. */
  lemma DecidedClaimIsClosed(rows: Rows, caller: User, comments: Option<string>, users: seq<User>, generated: Option<string>, now: int)
    requires Consistent(rows) && rows.expense.Some?
    requires rows.expense.value.status == Approved || rows.expense.value.status == Rejected
    ensures ApproveStep(rows, rows.expense.value.id, caller, comments, users, now).Err?
    ensures RejectStep(rows, rows.expense.value.id, caller, comments, generated, now).Err?
  {
    ClosedClaimHasNoPending(rows);
  }

  /** The finance record a manager approval opens is the one a finance
      approval then takes, which approves the claim. */
  lemma ManagerThenFinance(rows: Rows, manager: User, financeUser: User, comments: Option<string>, users: seq<User>, now: int, later: int)
    requires Consistent(rows) && rows.expense.Some?
    requires manager.role == Manager && financeUser.role == Finance && |ActiveWithRole(users, Finance)| > 0
    requires ApproveStep(rows, rows.expense.value.id, manager, comments, users, now).Ok?
    ensures var mid := ApproveStep(rows, rows.expense.value.id, manager, comments, users, now).value;
            var last := ApproveStep(mid, rows.expense.value.id, financeUser, comments, users, later);
            last.Ok? && last.value.expense.value.status == Approved && Consistent(last.value)
  {
    var id := rows.expense.value.id;
    var mid := ApproveStep(rows, id, manager, comments, users, now).value;
    ApprovePreservesConsistent(rows, id, manager, comments, users, now);
    var (e, level, i) := Admit(rows, id, manager).value;
    DecidingLeavesNonePending(rows, i);
    var n := |rows.approvals|;
    assert Slot(mid.approvals[n], id, FinanceLevel);
    assert PendingAt(mid.approvals, id, FinanceLevel).Some?;
    ApprovePreservesConsistent(mid, id, financeUser, comments, users, later);
  }

  // ---------------------------------------------------------------------
  // The routes, updating the rows in place

  /** `approve_expense`: the checks, then the record, the claim and the
      notifications changed in the order the route changes them. A refused
      call changes nothing. */
  method ApproveExpense(store: Store, expenseId: nat, caller: User, comments: Option<string>, users: seq<User>, now: int)
    returns (r: Result<Expense, DecisionError>)
    modifies store
    ensures var step := ApproveStep(old(store.State()), expenseId, caller, comments, users, now);
            (step.Err? ==> r == Err(step.error) && store.State() == old(store.State())) &&
            (step.Ok? ==> store.State() == step.value && r == Ok(step.value.expense.value))
    ensures old(store.Valid()) ==> store.Valid()
  {
    ghost var before := store.State();
    var admitted := Admit(store.State(), expenseId, caller);
    if admitted.Err? {
      return Err(admitted.error);
    }
    var (e, level, i) := admitted.value;
    store.approvals := store.approvals[i := Decided(store.approvals[i], caller, Accepted, comments, now)];
    if GoesToFinance(level, users) {
      var finance := ActiveWithRole(users, Finance);
      store.approvals := store.approvals + [FinanceSlot(e, finance[0])];
      e := e.(currentApproverLevel := Some(LevelName(FinanceLevel)));
      store.expense := Some(e);
      AlertFinance(store, e, finance);
    } else {
      e := e.(status := Approved, approvedAt := Some(now), currentApproverLevel := None);
      store.expense := Some(e);
    }
    store.outbox := store.outbox + [ApprovalNotice(e, caller.fullName, level, comments)];
    r := Ok(e);
    if Consistent(before) {
      ApprovePreservesConsistent(before, expenseId, caller, comments, users, now);
    }
  }

  /** The loop of `approve_expense` that queues one review request per
      finance user, in order. */
  method AlertFinance(store: Store, e: Expense, finance: seq<User>)
    modifies store
    ensures store.State() == old(store.State()).(outbox := old(store.outbox) + FinanceAlerts(e, finance))
  {
    var j := 0;
    while j < |finance|
      invariant 0 <= j <= |finance|
      invariant store.State() == old(store.State()).(outbox := old(store.outbox) + FinanceAlerts(e, finance[..j]))
    {
      assert FinanceAlerts(e, finance[..j + 1]) == FinanceAlerts(e, finance[..j]) + [FinanceAlert(e, finance[j])];
      store.outbox := store.outbox + [FinanceAlert(e, finance[j])];
      j := j + 1;
    }
    assert finance[..j] == finance;
  }

  /** `reject_expense`: the checks, the reason, then the record, the claim
      and the employee's notification. A refused call changes nothing. */
  method RejectExpense(store: Store, expenseId: nat, caller: User, comments: Option<string>, generated: Option<string>, now: int)
    returns (r: Result<Expense, DecisionError>)
    modifies store
    ensures var step := RejectStep(old(store.State()), expenseId, caller, comments, generated, now);
            (step.Err? ==> r == Err(step.error) && store.State() == old(store.State())) &&
            (step.Ok? ==> store.State() == step.value && r == Ok(step.value.expense.value))
    ensures old(store.Valid()) ==> store.Valid()
  {
    ghost var before := store.State();
    var admitted := Admit(store.State(), expenseId, caller);
    if admitted.Err? {
      return Err(admitted.error);
    }
    var (e, level, i) := admitted.value;
    var reason := RejectionReason(generated, level, comments);
    store.approvals := store.approvals[i := Decided(store.approvals[i], caller, Declined, comments, now)];
    e := e.(status := Rejected, rejectionReason := Some(reason), rejectedBy := Some(caller.id),
            rejectedAt := Some(now), currentApproverLevel := None);
    store.expense := Some(e);
    store.outbox := store.outbox + [NotifyExpenseRejected(e, reason)];
    r := Ok(e);
    if Consistent(before) {
      RejectPreservesConsistent(before, expenseId, caller, comments, generated, now);
    }
  }
}
