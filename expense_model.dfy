/** The behaviour the stored expense record carries itself: the column
    defaults of a new claim and the two lookups of the older three-level
    status flow (manager review, HR review, finance review). */
module ExpenseModel {

  import opened Wrappers
  import opened Models

  /** The three review statuses of the older flow. */
  predicate InReview(status: ExpenseStatus)
  {
    status == ManagerReview || status == HrReview || status == FinanceReview
  }

  /** `get_next_approver_level`: who looks at a claim next, by status; the
      statuses outside the table have no next approver. */
  function GetNextApproverLevel(status: ExpenseStatus): (level: Option<string>)
    ensures level.Some? <==> status == Submitted || status == ManagerReview || status == HrReview
    ensures status == Submitted ==> level == Some("manager")
    ensures status == ManagerReview ==> level == Some("hr")
    ensures status == HrReview ==> level == Some("finance")
  {
    match status
    case Submitted => Some("manager")
    case ManagerReview => Some("hr")
    case HrReview => Some("finance")
    case _ => None
  }

  /** The approvers listed for a review status: its own role and "admin". */
  function ApproverRoles(status: ExpenseStatus): seq<string>
  {
    match status
    case ManagerReview => ["manager", "admin"]
    case HrReview => ["hr", "admin"]
    case FinanceReview => ["finance", "admin"]
    case _ => []
  }

  /** `can_be_approved_by` */
  function CanBeApprovedBy(status: ExpenseStatus, role: string): (ok: bool)
    ensures !InReview(status) ==> !ok
    ensures InReview(status) && role == "admin" ==> ok
    ensures ok && role != "admin" ==> StatusName(status) == role + "_review"
  {
    role in ApproverRoles(status)
  }

  /** In each review status exactly one role besides "admin" may approve:
      the one the status is named after. */
  lemma OneReviewerPerStatus(status: ExpenseStatus, role: string, other: string)
    requires InReview(status)
    requires role != "admin" && other != "admin"
    requires CanBeApprovedBy(status, role) && CanBeApprovedBy(status, other)
    ensures role == other
  {
    assert StatusName(status) == role + "_review" && StatusName(status) == other + "_review";
    assert role == StatusName(status)[..|StatusName(status)| - 7];
    assert other == StatusName(status)[..|StatusName(status)| - 7];
  }

  /** Every review status has a role besides "admin" that may approve it. */
  lemma ReviewerExists(status: ExpenseStatus)
    requires InReview(status)
    ensures exists role :: role != "admin" && CanBeApprovedBy(status, role)
  {
    assert CanBeApprovedBy(status, ApproverRoles(status)[0]);
  }

  /** A claim with the column defaults: a draft, not within limits, not yet
      checked for duplicates, not self-declared, at no approver level and
      with no decision recorded. */
  function NewExpense(id: nat, expenseNumber: string, employeeId: nat, category: string, amount: real,
                      expenseDate: int, description: string): (e: Expense)
    ensures e.status == Draft && !e.isWithinLimits && e.duplicateCheckStatus == "not_checked"
    ensures !e.isSelfDeclaration && e.currentApproverLevel.None? && e.duplicateOf.None?
    ensures e.submittedAt.None? && e.approvedAt.None? && e.rejectedAt.None? && e.rejectedBy.None?
    ensures e.id == id && e.employeeId == employeeId && e.amount == amount
  {
    Expense(id, expenseNumber, employeeId, category, amount, expenseDate, description,
            None, None, None, None, false, false, None, None, "not_checked", None,
            Draft, None, None, None, None, None, None)
  }

  /** A new claim can be approved by nobody until it reaches a review status. */
  lemma NewExpenseNotApprovable(id: nat, expenseNumber: string, employeeId: nat, category: string, amount: real,
                                expenseDate: int, description: string, role: string)
    ensures !CanBeApprovedBy(NewExpense(id, expenseNumber, employeeId, category, amount, expenseDate, description).status, role)
    ensures GetNextApproverLevel(NewExpense(id, expenseNumber, employeeId, category, amount, expenseDate, description).status).None?
  {
  }
}
