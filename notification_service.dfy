/** The notification service: who is told when a claim needs review, and
    the messages an employee receives when a claim is decided. Creating a
    notification adds a row to the session; here each operation returns the
    rows it adds. Message texts that only format the claim for display are
    kept as template names. */
module NotificationService {

  import opened Wrappers
  import opened Strings
  import opened Models

  /** The service's table from approver level to role: only the lower-case
      names "manager" and "finance" are in it. */
  function LevelRole(level: Option<string>): (role: Option<Role>)
    ensures role.Some? <==> level == Some("manager") || level == Some("finance")
    ensures role.Some? ==> Some(RoleName(role.value)) == level
  {
    if level == Some("manager") then Some(Manager)
    else if level == Some("finance") then Some(Finance)
    else None
  }

  /** The levels the approval routes store are upper case, so the table
      maps none of them, and neither does a cleared level. */
  lemma RouteLevelsUnmapped(l: ApprovalLevel)
    ensures LevelRole(Some(LevelName(l))).None?
    ensures LevelRole(None).None?
  {
  }

  /** The row `notify_approval_required` adds for one approver. */
  function ApprovalRequiredFor(expense: Expense, approver: User): (n: Notification)
    ensures n.userId == approver.id && n.kind == ApprovalRequired && n.expenseId == Some(expense.id)
  {
    Notification(approver.id, ApprovalRequired, Some(expense.id), Template("approval_required"))
  }

  predicate DistinctIds(users: seq<User>)
  {
    forall i, j :: 0 <= i < j < |users| ==> users[i].id != users[j].id
  }

  /** Selecting the active users of a role keeps distinct ids distinct. */
  lemma {:induction false} ActiveWithRoleDistinct(users: seq<User>, role: Role)
    requires DistinctIds(users)
    ensures DistinctIds(ActiveWithRole(users, role))
  {
    if |users| > 0 {
      var rest := ActiveWithRole(users[1..], role);
      ActiveWithRoleDistinct(users[1..], role);
      if users[0].role == role && users[0].isActive {
        HeadIdNotInTail(users);
        assert forall u :: u in rest ==> u.id != users[0].id;
        DistinctCons(users[0], rest);
      }
    }
  }

  /** With distinct ids, no later user shares the first user's id. */
  lemma HeadIdNotInTail(users: seq<User>)
    requires DistinctIds(users) && |users| > 0
    ensures forall u :: u in users[1..] ==> u.id != users[0].id
  {
    forall u | u in users[1..]
      ensures u.id != users[0].id
    {
      var k :| 0 <= k < |users| - 1 && users[1..][k] == u;
      assert users[k + 1] == u;
    }
  }

  /** A user whose id no user of `rest` has, in front of `rest` with
      distinct ids, keeps the ids distinct. */
  lemma DistinctCons(u: User, rest: seq<User>)
    requires DistinctIds(rest)
    requires forall v :: v in rest ==> v.id != u.id
    ensures DistinctIds([u] + rest)
  {
    var found := [u] + rest;
    forall i, j | 0 <= i < j < |found|
      ensures found[i].id != found[j].id
    {
      assert found[j] == rest[j - 1] && rest[j - 1] in rest;
      if i > 0 {
        assert found[i] == rest[i - 1];
      }
    }
  }

  /** The rows `notify_approval_required` adds: one APPROVAL_REQUIRED row
      per active user whose role the claim's current level names, in table
      order; none when the level is not in the table. */
  function ApprovalRequests(users: seq<User>, expense: Expense): (requests: seq<Notification>)
    ensures LevelRole(expense.currentApproverLevel).None? ==> requests == []
    ensures LevelRole(expense.currentApproverLevel).Some? ==>
      var approvers := ActiveWithRole(users, LevelRole(expense.currentApproverLevel).value);
      |requests| == |approvers| &&
      forall i :: 0 <= i < |requests| ==> requests[i] == ApprovalRequiredFor(expense, approvers[i])
  {
    match LevelRole(expense.currentApproverLevel)
    case None => []
    case Some(role) =>
      var approvers := ActiveWithRole(users, role);
      seq(|approvers|, i requires 0 <= i < |approvers| => ApprovalRequiredFor(expense, approvers[i]))
  }

  /** Every request goes to an active user of the level's role, every such
      user receives one, and when user ids are distinct nobody receives two. */
  lemma ApprovalRequestRecipients(users: seq<User>, expense: Expense)
    ensures forall n :: n in ApprovalRequests(users, expense) ==>
      n.kind == ApprovalRequired && n.expenseId == Some(expense.id) &&
      exists u :: u in users && u.id == n.userId && u.isActive && Some(RoleName(u.role)) == expense.currentApproverLevel
    ensures forall u :: u in users && u.isActive && LevelRole(expense.currentApproverLevel) == Some(u.role) ==>
      exists n :: n in ApprovalRequests(users, expense) && n.userId == u.id
    ensures DistinctIds(users) ==>
      var requests := ApprovalRequests(users, expense);
      forall i, j :: 0 <= i < j < |requests| ==> requests[i].userId != requests[j].userId
  {
    var requests := ApprovalRequests(users, expense);
    var role := LevelRole(expense.currentApproverLevel);
    if role.Some? {
      var approvers := ActiveWithRole(users, role.value);
      forall n | n in requests
        ensures exists u :: u in users && u.id == n.userId && u.isActive && Some(RoleName(u.role)) == expense.currentApproverLevel
      {
        var k :| 0 <= k < |requests| && requests[k] == n;
        assert approvers[k] in users;
      }
      forall u | u in users && u.isActive && role == Some(u.role)
        ensures exists n :: n in requests && n.userId == u.id
      {
        var k :| 0 <= k < |approvers| && approvers[k] == u;
        assert requests[k].userId == u.id;
      }
      if DistinctIds(users) {
        ActiveWithRoleDistinct(users, role.value);
      }
    }
  }

  /** `notify_approval_required`: the rows added one approver at a time. */
  method NotifyApprovalRequired(users: seq<User>, expense: Expense) returns (created: seq<Notification>)
    ensures created == ApprovalRequests(users, expense)
  {
    var role := LevelRole(expense.currentApproverLevel);
    if role.None? {
      return [];
    }
    var approvers := ActiveWithRole(users, role.value);
    if |approvers| == 0 {
      return [];
    }
    created := [];
    var i := 0;
    while i < |approvers|
      invariant 0 <= i <= |approvers|
      invariant |created| == i
      invariant forall k :: 0 <= k < i ==> created[k] == ApprovalRequiredFor(expense, approvers[k])
    {
      created := created + [ApprovalRequiredFor(expense, approvers[i])];
      i := i + 1;
    }
  }

  /** The message `notify_expense_approved` sends. */
  function ApprovedMessage(expenseNumber: string, approverName: string, comments: Option<string>): string
  {
    var base := "Your expense claim " + expenseNumber + " has been approved by " + approverName + ".";
    if Given(comments) then base + " Comments: " + comments.value else base
  }

  /** The approved message always opens with the claim and the approver,
      and is longer than that opening exactly when comments were given. */
  lemma ApprovedMessageShape(expenseNumber: string, approverName: string, comments: Option<string>)
    ensures var base := "Your expense claim " + expenseNumber + " has been approved by " + approverName + ".";
            var m := ApprovedMessage(expenseNumber, approverName, comments);
            StartsWith(m, base) && (Given(comments) <==> |m| > |base|)
  {
    var base := "Your expense claim " + expenseNumber + " has been approved by " + approverName + ".";
    var m := ApprovedMessage(expenseNumber, approverName, comments);
    assert m[..|base|] == base;
  }

  /** `notify_expense_approved`: the one row it adds, for the claim's employee. */
  function ApprovedNotice(expense: Expense, approverName: string, comments: Option<string>): (n: Notification)
    ensures n.userId == expense.employeeId && n.kind == ExpenseApproved && n.expenseId == Some(expense.id)
  {
    Notification(expense.employeeId, ExpenseApproved, Some(expense.id), Text(ApprovedMessage(expense.expenseNumber, approverName, comments)))
  }

  /** `notify_expense_rejected`: one row for the claim's employee whose
      message is the rejection reason itself. */
  function NotifyExpenseRejected(expense: Expense, rejectionReason: string): (n: Notification)
    ensures n.userId == expense.employeeId && n.expenseId == Some(expense.id)
    ensures n.kind == ExpenseRejected && n.message == Text(rejectionReason)
  {
    Notification(expense.employeeId, ExpenseRejected, Some(expense.id), Text(rejectionReason))
  }

  /** The type `notify_expense_status` gives a status string. */
  function StatusKind(newStatus: string): (kind: NotificationType)
    ensures kind == ExpenseApproved <==> newStatus == "approved"
    ensures kind == ExpenseRejected <==> newStatus == "rejected"
    ensures kind != ExpenseApproved && kind != ExpenseRejected ==> kind == SystemNotice
  {
    if newStatus == "approved" then ExpenseApproved
    else if newStatus == "rejected" then ExpenseRejected
    else SystemNotice
  }

  /** `notify_expense_status`: one row for the claim's employee with the
      given message; only "approved" and "rejected" have types of their own. */
  function NotifyExpenseStatus(expense: Expense, newStatus: string, message: string): (n: Notification)
    ensures n.userId == expense.employeeId && n.expenseId == Some(expense.id) && n.message == Text(message)
    ensures n.kind == StatusKind(newStatus)
  {
    Notification(expense.employeeId, StatusKind(newStatus), Some(expense.id), Text(message))
  }

  /** The status notification for "approved" or "rejected" has the type the
      dedicated notification for that decision has. */
  lemma StatusAgreesWithDecision(expense: Expense, reason: string)
    ensures NotifyExpenseStatus(expense, "rejected", reason) == NotifyExpenseRejected(expense, reason)
    ensures NotifyExpenseStatus(expense, "approved", reason).kind == ExpenseApproved
  {
  }
}
