/** The older expense service and its three-level status flow: manager
    review, then HR review, then finance review, then approved. It keeps
    the claim's status and current level in step by hand and notifies
    through the notification service. It is separate from the live
    two-level approval routes and shares no state with them. */
module ExpenseService {

  import opened Wrappers
  import opened Strings
  import opened Models
  import opened ExpenseModel
  import opened NotificationService

  /** `status_flow`: the status an approval moves a claim to. */
  function NextStatus(s: ExpenseStatus): (next: Option<ExpenseStatus>)
    ensures next.Some? <==> InReview(s)
    ensures s == ManagerReview ==> next == Some(HrReview)
    ensures s == HrReview ==> next == Some(FinanceReview)
    ensures s == FinanceReview ==> next == Some(Approved)
  {
    match s
    case ManagerReview => Some(HrReview)
    case HrReview => Some(FinanceReview)
    case FinanceReview => Some(Approved)
    case _ => None
  }

  /** `next_status.replace("_review", "")`: the status names hold the
      marker at most once, at their end. */
  function ReviewLevel(s: ExpenseStatus): (level: string)
    ensures s == HrReview ==> level == "hr"
    ensures s == FinanceReview ==> level == "finance"
    ensures s == ManagerReview ==> level == "manager"
    ensures !InReview(s) ==> level == StatusName(s)
  {
    var name := StatusName(s);
    if EndsWith(name, "_review") then name[..|name| - 7] else name
  }

  /** The claim after an approval, or `None` when its status is outside
      the flow. Reaching approved stamps the time and clears the level;
      any other step sets the level to the new status without "_review". */
  function Advance(e: Expense, now: int): (r: Option<Expense>)
    ensures r.None? <==> !InReview(e.status)
    ensures r.Some? ==> Some(r.value.status) == NextStatus(e.status)
    ensures r.Some? && r.value.status == Approved ==> r.value.approvedAt == Some(now) && r.value.currentApproverLevel.None?
    ensures r.Some? && r.value.status != Approved ==>
      r.value.currentApproverLevel == Some(ReviewLevel(r.value.status)) && r.value.approvedAt == e.approvedAt
    ensures r.Some? ==> r.value.(status := e.status, approvedAt := e.approvedAt, currentApproverLevel := e.currentApproverLevel) == e
  {
    match NextStatus(e.status)
    case None => None
    case Some(next) =>
      if next == Approved then Some(e.(status := next, approvedAt := Some(now), currentApproverLevel := None))
      else Some(e.(status := next, currentApproverLevel := Some(ReviewLevel(next))))
  }

  /** The level each non-final step sets is the approver level the expense
      model names for the status being left, and it names the role that may
      approve the new status. */
  lemma AdvanceAgreesWithModel(e: Expense, now: int)
    requires e.status == ManagerReview || e.status == HrReview
    ensures Advance(e, now).value.currentApproverLevel == GetNextApproverLevel(e.status)
    ensures CanBeApprovedBy(Advance(e, now).value.status, Advance(e, now).value.currentApproverLevel.value)
  {
  }

  /** Three approvals take a claim from manager review to approved. */
  lemma {:induction false} ThreeApprovalsApprove(e: Expense, t1: int, t2: int, t3: int)
    requires e.status == ManagerReview
    ensures var e1 := Advance(e, t1).value;
            var e2 := Advance(e1, t2).value;
            var e3 := Advance(e2, t3);
            e1.currentApproverLevel == Some("hr") && e2.currentApproverLevel == Some("finance") &&
            e3.Some? && e3.value.status == Approved && e3.value.approvedAt == Some(t3) &&
            Advance(e3.value, t3).None?
  {
    var e1 := Advance(e, t1).value;
    assert e1.status == HrReview;
    var e2 := Advance(e1, t2).value;
    assert e2.status == FinanceReview;
  }

  /** A claim submitted through this service is in status submitted, which
      the flow does not contain: the service's own approval never moves it. */
  lemma SubmittedIsStuck(e: Expense, now: int, later: int)
    ensures Advance(SubmittedClaim(e, now), later).None?
  {
  }

  /** The HR level is not in the notification service's table, so the step
      into HR review notifies no approver, while the step into finance
      review does reach finance users. */
  lemma HrReviewersNotNotified(e: Expense, now: int)
    requires e.status == ManagerReview || e.status == HrReview
    ensures e.status == ManagerReview ==> LevelRole(Advance(e, now).value.currentApproverLevel).None?
    ensures e.status == HrReview ==> LevelRole(Advance(e, now).value.currentApproverLevel) == Some(Finance)
  {
  }

  /** `submit_expense`'s new claim: submitted now, at the "manager" level. */
  function SubmittedClaim(e: Expense, now: int): (s: Expense)
    ensures s.status == Submitted && s.submittedAt == Some(now) && s.currentApproverLevel == Some("manager")
    ensures LevelRole(s.currentApproverLevel) == Some(Manager)
  {
    e.(status := Submitted, submittedAt := Some(now), currentApproverLevel := Some("manager"))
  }

  /** `reject_expense`'s claim: rejected from any status, with the reason,
      the time, and no level left. */
  function RejectedClaim(e: Expense, reason: string, now: int): (r: Expense)
    ensures r.status == Rejected && r.rejectionReason == Some(reason) && r.rejectedAt == Some(now)
    ensures r.currentApproverLevel.None? && !InReview(r.status)
    ensures Advance(r, now).None?
  {
    e.(status := Rejected, rejectionReason := Some(reason), rejectedAt := Some(now), currentApproverLevel := None)
  }

  /** One claim as the service changes it, with the notifications it adds. */
  class LegacyClaim {
    var expense: Expense
    var outbox: seq<Notification>

    constructor (e: Expense)
      ensures expense == e && outbox == []
    {
      expense := e;
      outbox := [];
    }

    /** `submit_expense`: the claim is submitted and the active managers
        are asked to review it. */
    method Submit(users: seq<User>, now: int)
      modifies this
      ensures expense == SubmittedClaim(old(expense), now)
      ensures outbox == old(outbox) + ApprovalRequests(users, expense)
    {
      expense := expense.(status := Submitted);
      expense := expense.(submittedAt := Some(now));
      expense := expense.(currentApproverLevel := Some("manager"));
      var requests := NotifyApprovalRequired(users, expense);
      outbox := outbox + requests;
    }

    /** `approve_expense`: outside the flow nothing changes; otherwise the
        claim advances, its employee is told, and unless the claim is now
        approved the approvers of the new level are asked to review it. */
    method Approve(users: seq<User>, approverName: string, comments: Option<string>, now: int) returns (advanced: bool)
      modifies this
      ensures advanced <==> Advance(old(expense), now).Some?
      ensures !advanced ==> expense == old(expense) && outbox == old(outbox)
      ensures advanced ==> expense == Advance(old(expense), now).value
      ensures advanced ==> outbox == old(outbox) + [ApprovedNotice(expense, approverName, comments)] +
                                     (if expense.status == Approved then [] else ApprovalRequests(users, expense))
    {
      var next := NextStatus(expense.status);
      if next.None? {
        return false;
      }
      expense := expense.(status := next.value);
      if next.value == Approved {
        expense := expense.(approvedAt := Some(now), currentApproverLevel := None);
      } else {
        expense := expense.(currentApproverLevel := Some(ReviewLevel(next.value)));
      }
      outbox := outbox + [ApprovedNotice(expense, approverName, comments)];
      if next.value != Approved {
        var requests := NotifyApprovalRequired(users, expense);
        outbox := outbox + requests;
      }
      advanced := true;
    }

    /** `reject_expense`: the claim is rejected and its employee is told
        the reason. */
    method Reject(reason: string, now: int)
      modifies this
      ensures expense == RejectedClaim(old(expense), reason, now)
      ensures outbox == old(outbox) + [NotifyExpenseRejected(expense, reason)]
    {
      expense := expense.(status := Rejected);
      expense := expense.(rejectionReason := Some(reason));
      expense := expense.(rejectedAt := Some(now));
      expense := expense.(currentApproverLevel := None);
      outbox := outbox + [NotifyExpenseRejected(expense, reason)];
    }
  }
}
