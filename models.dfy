/** The stored records the service works on: users, expense claims, approval
    records and notifications, with the enumerations their columns use.
    Dates are day numbers, instants are seconds; both come from the caller. */
module Models {

  import opened Wrappers

  datatype Role = Employee | Manager | Hr | Finance | Admin

  /** The value a role is stored and compared under. */
  function RoleName(r: Role): string
  {
    match r
    case Employee => "employee"
    case Manager => "manager"
    case Hr => "hr"
    case Finance => "finance"
    case Admin => "admin"
  }

  /** `UserRole(value)`: the role whose value is exactly `s`. */
  function ParseRole(s: string): (r: Option<Role>)
    ensures r.Some? ==> RoleName(r.value) == s
    ensures r.None? ==> forall role: Role :: RoleName(role) != s
  {
    if s == "employee" then Some(Employee)
    else if s == "manager" then Some(Manager)
    else if s == "hr" then Some(Hr)
    else if s == "finance" then Some(Finance)
    else if s == "admin" then Some(Admin)
    else None
  }

  lemma ParseRoleName(r: Role)
    ensures ParseRole(RoleName(r)) == Some(r)
  {
  }

  datatype User = User(
    id: nat,
    username: string,
    email: string,
    fullName: string,
    employeeCode: string,
    role: Role,
    grade: string,
    isActive: bool,
    canClaimExpenses: bool,
    hashedPassword: string,
    isPasswordSet: bool,
    accountStatus: string,
    invitationToken: Option<string>,
    invitationExpiresAt: Option<int>,
    resetToken: Option<string>,
    resetTokenExpiresAt: Option<int>)

  datatype ExpenseStatus = Draft | Submitted | ManagerReview | HrReview | FinanceReview | Approved | Rejected | Paid

  function StatusName(s: ExpenseStatus): string
  {
    match s
    case Draft => "draft"
    case Submitted => "submitted"
    case ManagerReview => "manager_review"
    case HrReview => "hr_review"
    case FinanceReview => "finance_review"
    case Approved => "approved"
    case Rejected => "rejected"
    case Paid => "paid"
  }

  /** A stored expense claim. Fields the model does not reason about (file
      paths, AI free text, timestamps other than the decision times) are left
      out. `currentApproverLevel` is a free string column: the live routes
      write "MANAGER"/"FINANCE", the older service "manager"/"hr"/"finance". */
  datatype Expense = Expense(
    id: nat,
    expenseNumber: string,
    employeeId: nat,
    category: string,
    amount: real,
    expenseDate: int,
    description: string,
    travelMode: Option<string>,
    billNumber: Option<string>,
    vendorName: Option<string>,
    aiRecommendation: Option<string>,
    isWithinLimits: bool,
    isSelfDeclaration: bool,
    declarationReason: Option<string>,
    fileHash: Option<string>,
    duplicateCheckStatus: string,
    duplicateOf: Option<nat>,
    status: ExpenseStatus,
    currentApproverLevel: Option<string>,
    submittedAt: Option<int>,
    approvedAt: Option<int>,
    rejectedAt: Option<int>,
    rejectedBy: Option<nat>,
    rejectionReason: Option<string>)

  /** The two levels of the live approval chain, stored as "MANAGER" and "FINANCE". */
  datatype ApprovalLevel = ManagerLevel | FinanceLevel

  function LevelName(l: ApprovalLevel): string
  {
    match l
    case ManagerLevel => "MANAGER"
    case FinanceLevel => "FINANCE"
  }

  /** Stored as "PENDING", "APPROVED" and "REJECTED". */
  datatype ApprovalStatus = Pending | Accepted | Declined

  datatype ApprovalRecord = ApprovalRecord(
    expenseId: nat,
    approverId: nat,
    level: ApprovalLevel,
    status: ApprovalStatus,
    comments: Option<string>,
    reviewedAt: Option<int>)

  datatype NotificationType = ExpenseSubmitted | ExpenseApproved | ExpenseRejected | ApprovalRequired | CommentAdded | SystemNotice

  /** A notification's message: the exact text where the model builds it, or
      the name of the template the service fills in. */
  datatype Message = Text(text: string) | Template(name: string)

  datatype Notification = Notification(
    userId: nat,
    kind: NotificationType,
    expenseId: Option<nat>,
    message: Message)

  /** The first user in table order with the role who is active, as the
      routes' `.filter(role, is_active).first()` query finds. */
  function FirstActive(users: seq<User>, role: Role): (u: Option<User>)
    ensures u.Some? ==> u.value in users && u.value.role == role && u.value.isActive
    ensures u.None? ==> forall i :: 0 <= i < |users| ==> !(users[i].role == role && users[i].isActive)
  {
    if |users| == 0 then None
    else if users[0].role == role && users[0].isActive then Some(users[0])
    else FirstActive(users[1..], role)
  }

  /** All active users with the role, in table order. */
  function ActiveWithRole(users: seq<User>, role: Role): (found: seq<User>)
    ensures forall u :: u in found ==> u in users && u.role == role && u.isActive
    ensures forall u :: u in users && u.role == role && u.isActive ==> u in found
    ensures |found| > 0 <==> FirstActive(users, role).Some?
    ensures |found| > 0 ==> found[0] == FirstActive(users, role).value
  {
    if |users| == 0 then []
    else if users[0].role == role && users[0].isActive then [users[0]] + ActiveWithRole(users[1..], role)
    else ActiveWithRole(users[1..], role)
  }
}
