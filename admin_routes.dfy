/** The administrator's user management: numbering new employees, creating
    an invited user, and the switches on an existing user (active, claim
    permission, role). Every change to a user is a change to one row of the
    users table; the table here is a sequence of rows in a class. */
module AdminRoutes {

  import opened Wrappers
  import opened Strings
  import opened Settings
  import opened Models
  import opened UserModel

  // ---------------------------------------------------------------------
  // generate_next_employee_id

  /** The longest run of decimal digits at the start of `s`, as `\d+`
      matches it. */
  function LeadingDigits(s: string): (ds: string)
    ensures AllDigits(ds) && |ds| <= |s| && ds == s[..|ds|]
    ensures |ds| < |s| ==> !IsDigit(s[|ds|])
  {
    if |s| == 0 || !IsDigit(s[0]) then "" else [s[0]] + LeadingDigits(s[1..])
  }

  lemma {:induction false} LeadingDigitsOfDigits(s: string)
    requires AllDigits(s)
    ensures LeadingDigits(s) == s
  {
    if |s| > 0 {
      LeadingDigitsOfDigits(s[1..]);
    }
  }

  /** The number an employee code carries: "EMP" followed by at least one
      digit; the digits are read up to the first non-digit. Any other code
      carries none. */
  function EmployeeNumber(code: string): (n: Option<nat>)
    ensures n.Some? ==> StartsWith(code, "EMP") && |code| > 3 && IsDigit(code[3])
    ensures StartsWith(code, "EMP") && |code| > 3 && IsDigit(code[3]) ==> n.Some?
  {
    if StartsWith(code, "EMP") && |LeadingDigits(code[3..])| > 0 then Some(DecimalValue(LeadingDigits(code[3..])))
    else None
  }

  /** The numbers of the codes that carry one, in table order. */
  function EmployeeNumbers(codes: seq<string>): (ns: seq<nat>)
    ensures |ns| <= |codes|
  {
    if |codes| == 0 then []
    else
      var last := codes[|codes| - 1];
      EmployeeNumbers(codes[..|codes| - 1]) + (match EmployeeNumber(last) case Some(n) => [n] case None => [])
  }

  lemma {:induction false} EmployeeNumbersMembers(codes: seq<string>)
    ensures forall n :: n in EmployeeNumbers(codes) <==> exists c :: c in codes && EmployeeNumber(c) == Some(n)
  {
    if |codes| > 0 {
      var init := codes[..|codes| - 1];
      EmployeeNumbersMembers(init);
      assert codes == init + [codes[|codes| - 1]];
    }
  }

  function Max(ns: seq<nat>): (m: nat)
    requires |ns| > 0
    ensures m in ns && forall k :: 0 <= k < |ns| ==> ns[k] <= m
  {
    if |ns| == 1 then ns[0]
    else
      var rest := Max(ns[..|ns| - 1]);
      if ns[|ns| - 1] > rest then ns[|ns| - 1] else rest
  }

  /** One more than the highest number in use, or 1 when none is. */
  function NextEmployeeNumber(codes: seq<string>): (next: nat)
    ensures next >= 1
  {
    var ns := EmployeeNumbers(codes);
    if |ns| == 0 then 1 else Max(ns) + 1
  }

  /** `f"EMP{next_number:03d}"` */
  function NextEmployeeId(codes: seq<string>): (code: string)
    ensures StartsWith(code, "EMP") && |code| >= 6
  {
    "EMP" + ZeroPadded(NextEmployeeNumber(codes), 3)
  }

  /** The new code carries the number it was built from, and that number
      is above every number in use, so the code equals no existing code. */
  lemma NextEmployeeIdFresh(codes: seq<string>)
    ensures EmployeeNumber(NextEmployeeId(codes)) == Some(NextEmployeeNumber(codes))
    ensures forall c :: c in codes && EmployeeNumber(c).Some? ==> EmployeeNumber(c).value < NextEmployeeNumber(codes)
    ensures forall c :: c in codes ==> c != NextEmployeeId(codes)
  {
    var code := NextEmployeeId(codes);
    var digits := ZeroPadded(NextEmployeeNumber(codes), 3);
    assert code[3..] == digits;
    LeadingDigitsOfDigits(digits);
    ZeroPaddedValue(NextEmployeeNumber(codes), 3);
    EmployeeNumbersMembers(codes);
    var ns := EmployeeNumbers(codes);
    forall c | c in codes && EmployeeNumber(c).Some?
      ensures EmployeeNumber(c).value < NextEmployeeNumber(codes)
    {
      assert EmployeeNumber(c).value in ns;
    }
  }

  /** With no numbered code the first code is EMP001, and a code that
      carries no number does not change the next one. */
  lemma NextEmployeeIdStart(codes: seq<string>, other: string)
    requires forall c :: c in codes ==> EmployeeNumber(c).None?
    ensures NextEmployeeId(codes) == "EMP001"
    ensures EmployeeNumber(other).None? ==> NextEmployeeId(codes + [other]) == NextEmployeeId(codes)
  {
    NoEmployeeNumbers(codes);
    assert NatToDecimal(1) == "1";
    assert (codes + [other])[..|codes|] == codes;
  }

  lemma {:induction false} NoEmployeeNumbers(codes: seq<string>)
    requires forall c :: c in codes ==> EmployeeNumber(c).None?
    ensures EmployeeNumbers(codes) == []
  {
    if |codes| > 0 {
      var init := codes[..|codes| - 1];
      assert forall c :: c in init ==> c in codes;
      assert codes[|codes| - 1] in codes;
      NoEmployeeNumbers(init);
    }
  }

  /** `generate_next_employee_id` over the employee codes of the users
      table: the numbers are collected one code at a time. */
  method GenerateNextEmployeeId(codes: seq<string>) returns (code: string)
    ensures code == NextEmployeeId(codes)
  {
    var numbers: seq<nat> := [];
    var i := 0;
    while i < |codes|
      invariant 0 <= i <= |codes|
      invariant numbers == EmployeeNumbers(codes[..i])
    {
      assert codes[..i + 1][..i] == codes[..i];
      var n := EmployeeNumber(codes[i]);
      if n.Some? {
        numbers := numbers + [n.value];
      }
      i := i + 1;
    }
    assert codes[..i] == codes;
    var next := 1;
    if |numbers| > 0 {
      next := Max(numbers) + 1;
    }
    code := "EMP" + ZeroPadded(next, 3);
  }

  /** The employee codes of a table, in table order. */
  function Codes(users: seq<User>): (codes: seq<string>)
    ensures |codes| == |users| && forall i :: 0 <= i < |users| ==> codes[i] == users[i].employeeCode
  {
    seq(|users|, i requires 0 <= i < |users| => users[i].employeeCode)
  }

  // ---------------------------------------------------------------------
  // Guards shared by the routes

  datatype AdminError =
    | NotAdministrator
    | UserNotFound
    | OwnAccount
    | UsernameTaken
    | EmailTaken
    | InvalidRole
    | InvalidGrade

  /** `filter(User.id == user_id).first()` */
  function FindUser(users: seq<User>, userId: nat): (r: Option<nat>)
    ensures r.Some? ==> r.value < |users| && users[r.value].id == userId
    ensures r.Some? ==> forall k :: 0 <= k < r.value ==> users[k].id != userId
    ensures r.None? ==> forall k :: 0 <= k < |users| ==> users[k].id != userId
  {
    if |users| == 0 then None
    else if users[0].id == userId then Some(0)
    else
      match FindUser(users[1..], userId)
      case None => None
      case Some(k) => Some(k + 1)
  }

  /** Changing a row's other columns keeps the lookup by id. */
  lemma FindUserAfterUpdate(users: seq<User>, i: nat, u: User, userId: nat)
    requires i < |users| && u.id == users[i].id
    ensures FindUser(users[i := u], userId) == FindUser(users, userId)
  {
    var after := FindUser(users[i := u], userId);
    var before := FindUser(users, userId);
    if after.Some? {
      assert users[after.value].id == userId;
    }
    if before.Some? {
      assert users[i := u][before.value].id == userId;
    }
  }

  // ---------------------------------------------------------------------
  // toggle_user_active, toggle_claim_permission, update_user_role

  /** The table after `toggle_user_active`: the target's active flag is
      flipped; nobody may switch their own account. */
  function ToggleActive(users: seq<User>, userId: nat, caller: User): (r: Result<seq<User>, AdminError>)
  {
    if caller.role != Admin then Err(NotAdministrator)
    else
      match FindUser(users, userId)
      case None => Err(UserNotFound)
      case Some(i) =>
        if users[i].id == caller.id then Err(OwnAccount)
        else Ok(users[i := users[i].(isActive := !users[i].isActive)])
  }

  /** The table after `toggle_claim_permission`: the target's claim
      permission is flipped; an administrator may flip their own. */
  function ToggleClaim(users: seq<User>, userId: nat, caller: User): (r: Result<seq<User>, AdminError>)
  {
    if caller.role != Admin then Err(NotAdministrator)
    else
      match FindUser(users, userId)
      case None => Err(UserNotFound)
      case Some(i) => Ok(users[i := users[i].(canClaimExpenses := !users[i].canClaimExpenses)])
  }

  /** The table after `update_user_role`: the lower-cased name must be a
      role; nobody may change their own role. */
  function ChangeRole(users: seq<User>, userId: nat, newRole: string, caller: User): (r: Result<seq<User>, AdminError>)
  {
    if caller.role != Admin then Err(NotAdministrator)
    else
      match FindUser(users, userId)
      case None => Err(UserNotFound)
      case Some(i) =>
        if users[i].id == caller.id then Err(OwnAccount)
        else
          match ParseRole(Lower(newRole))
          case None => Err(InvalidRole)
          case Some(role) => Ok(users[i := users[i].(role := role)])
  }

  /** The three switches refuse a caller who is not an administrator and an
      unknown user; the active flag and the role refuse the caller's own
      row; each change touches the one column of the one row. */
  lemma SwitchesEffect(users: seq<User>, userId: nat, newRole: string, caller: User)
    ensures caller.role != Admin ==>
      ToggleActive(users, userId, caller) == Err(NotAdministrator) &&
      ToggleClaim(users, userId, caller) == Err(NotAdministrator) &&
      ChangeRole(users, userId, newRole, caller) == Err(NotAdministrator)
    ensures caller.role == Admin && (forall k :: 0 <= k < |users| ==> users[k].id != userId) ==>
      ToggleActive(users, userId, caller) == Err(UserNotFound) &&
      ToggleClaim(users, userId, caller) == Err(UserNotFound) &&
      ChangeRole(users, userId, newRole, caller) == Err(UserNotFound)
    ensures caller.role == Admin && userId == caller.id && FindUser(users, userId).Some? ==>
      ToggleActive(users, userId, caller) == Err(OwnAccount) &&
      ChangeRole(users, userId, newRole, caller) == Err(OwnAccount) &&
      ToggleClaim(users, userId, caller).Ok?
    ensures ToggleActive(users, userId, caller).Ok? ==>
      var i := FindUser(users, userId).value;
      var after := ToggleActive(users, userId, caller).value;
      |after| == |users| && after[i].isActive == !users[i].isActive &&
      after[i].(isActive := users[i].isActive) == users[i] &&
      forall k :: 0 <= k < |users| && k != i ==> after[k] == users[k]
    ensures ToggleClaim(users, userId, caller).Ok? ==>
      var i := FindUser(users, userId).value;
      var after := ToggleClaim(users, userId, caller).value;
      |after| == |users| && after[i].canClaimExpenses == !users[i].canClaimExpenses &&
      after[i].(canClaimExpenses := users[i].canClaimExpenses) == users[i] &&
      forall k :: 0 <= k < |users| && k != i ==> after[k] == users[k]
    ensures ChangeRole(users, userId, newRole, caller).Ok? ==>
      var i := FindUser(users, userId).value;
      var after := ChangeRole(users, userId, newRole, caller).value;
      ParseRole(Lower(newRole)) == Some(after[i].role) &&
      after[i].(role := users[i].role) == users[i] &&
      forall k :: 0 <= k < |users| && k != i ==> after[k] == users[k]
  {
  }

  /** Toggling twice gives back the table, for either switch. */
  lemma {:induction false} TogglesAreInvolutions(users: seq<User>, userId: nat, caller: User)
    ensures ToggleActive(users, userId, caller).Ok? ==>
      ToggleActive(ToggleActive(users, userId, caller).value, userId, caller) == Ok(users)
    ensures ToggleClaim(users, userId, caller).Ok? ==>
      ToggleClaim(ToggleClaim(users, userId, caller).value, userId, caller) == Ok(users)
  {
    var found := FindUser(users, userId);
    if found.Some? {
      var i := found.value;
      var flipped := users[i := users[i].(isActive := !users[i].isActive)];
      FindUserAfterUpdate(users, i, flipped[i], userId);
      assert flipped[i := flipped[i].(isActive := !flipped[i].isActive)] == users;
      var switched := users[i := users[i].(canClaimExpenses := !users[i].canClaimExpenses)];
      FindUserAfterUpdate(users, i, switched[i], userId);
      assert switched[i := switched[i].(canClaimExpenses := !switched[i].canClaimExpenses)] == users;
    }
  }

  /** Deactivating a user shuts them out of logging in; activating alone
      lets them in only once their password is set and the account is
      active. */
  lemma DeactivatedCannotLogin(users: seq<User>, userId: nat, caller: User)
    requires ToggleActive(users, userId, caller).Ok?
    ensures var i := FindUser(users, userId).value;
            var after := ToggleActive(users, userId, caller).value;
            users[i].isActive ==> !CanLogin(after[i])
  {
  }

  // ---------------------------------------------------------------------
  // create_new_user

  /** The fields of the creation request the model keeps. */
  datatype CreateUserRequest = CreateUserRequest(
    username: string,
    email: string,
    fullName: string,
    role: string,
    grade: string,
    canClaimExpenses: bool)

  /** How long an invitation stays open: seven days, in seconds. */
  const InvitationLifetime: int := 7 * 24 * 60 * 60

  /** The user `create_new_user` adds, or why it refuses. The new row's id,
      the invitation token and the hash of the temporary password come
      from outside (the database, the token generator, the hasher).
      `localNow` is the reading of `datetime.now()`: the server's local wall
      clock, on the same scale of seconds as the UTC instants that
      `is_invitation_valid` compares the expiry against. */
  function NewUser(users: seq<User>, caller: User, request: CreateUserRequest,
                   newId: nat, token: string, tempHash: string, localNow: int): (r: Result<User, AdminError>)
  {
    if caller.role != Admin then Err(NotAdministrator)
    else
      var code := NextEmployeeId(Codes(users));
      if exists k :: 0 <= k < |users| && users[k].username == request.username then Err(UsernameTaken)
      else if exists k :: 0 <= k < |users| && users[k].email == request.email then Err(EmailTaken)
      else
        match ParseRole(Lower(request.role))
        case None => Err(InvalidRole)
        case Some(role) =>
          if Upper(request.grade) !in Grades then Err(InvalidGrade)
          else Ok(Invited(request, newId, code, role, token, tempHash, localNow))
  }

  /** The row `create_user` adds: inactive, waiting for a password, with the
      invitation open for seven days from `localNow`. */
  function Invited(request: CreateUserRequest, newId: nat, code: string, role: Role,
                   token: string, tempHash: string, localNow: int): User
  {
    User(newId, request.username, request.email, request.fullName, code, role, Upper(request.grade),
         false, request.canClaimExpenses, tempHash, false, "pending_setup",
         Some(token), Some(localNow + InvitationLifetime), None, None)
  }

  /** The refusals come in the route's order: a caller who is not an
      administrator, a username already in use, an email already in use, an
      unknown role, an unknown grade. */
  lemma NewUserRefusals(users: seq<User>, caller: User, request: CreateUserRequest,
                        newId: nat, token: string, tempHash: string, localNow: int)
    ensures caller.role != Admin ==> NewUser(users, caller, request, newId, token, tempHash, localNow) == Err(NotAdministrator)
    ensures caller.role == Admin && (exists u :: u in users && u.username == request.username) ==>
      NewUser(users, caller, request, newId, token, tempHash, localNow) == Err(UsernameTaken)
    ensures caller.role == Admin && (forall u :: u in users ==> u.username != request.username) &&
            (exists u :: u in users && u.email == request.email) ==>
      NewUser(users, caller, request, newId, token, tempHash, localNow) == Err(EmailTaken)
    ensures caller.role == Admin && (forall u :: u in users ==> u.username != request.username && u.email != request.email) ==>
      (ParseRole(Lower(request.role)).None? ==> NewUser(users, caller, request, newId, token, tempHash, localNow) == Err(InvalidRole)) &&
      (ParseRole(Lower(request.role)).Some? && Upper(request.grade) !in Grades ==>
         NewUser(users, caller, request, newId, token, tempHash, localNow) == Err(InvalidGrade))
  {
    if caller.role == Admin && (exists u :: u in users && u.username == request.username) {
      var u :| u in users && u.username == request.username;
      var k :| 0 <= k < |users| && users[k] == u;
    }
    if caller.role == Admin && (forall u :: u in users ==> u.username != request.username) {
      assert !exists k :: 0 <= k < |users| && users[k].username == request.username by {
        forall k | 0 <= k < |users| ensures users[k].username != request.username {
          assert users[k] in users;
        }
      }
      if exists u :: u in users && u.email == request.email {
        var u :| u in users && u.email == request.email;
        var k :| 0 <= k < |users| && users[k] == u;
      }
      if forall u :: u in users ==> u.email != request.email {
        assert !exists k :: 0 <= k < |users| && users[k].email == request.email by {
          forall k | 0 <= k < |users| ensures users[k].email != request.email {
            assert users[k] in users;
          }
        }
      }
    }
  }

  /** A created user is inactive, waiting for a password, unable to log in,
      with a fresh employee code, an unused username and email. The
      invitation is open at a UTC instant `t` exactly when `t` is before the
      local reading plus seven days: on a server whose clock runs `offset`
      seconds ahead of UTC (`localNow == now + offset`), seven days plus the
      offset from its creation. */
  lemma NewUserEffect(users: seq<User>, caller: User, request: CreateUserRequest,
                      newId: nat, token: string, tempHash: string, localNow: int, t: int)
    requires NewUser(users, caller, request, newId, token, tempHash, localNow).Ok?
    ensures var u := NewUser(users, caller, request, newId, token, tempHash, localNow).value;
      caller.role == Admin &&
      !u.isActive && !u.isPasswordSet && u.accountStatus == "pending_setup" && !CanLogin(u) &&
      u.invitationToken == Some(token) && u.invitationExpiresAt == Some(localNow + InvitationLifetime) &&
      (IsInvitationValid(u, t) <==> Given(Some(token)) && t < localNow + InvitationLifetime) &&
      u.resetToken.None? &&
      Some(u.role) == ParseRole(Lower(request.role)) && u.grade in Grades &&
      (forall v :: v in users ==> v.employeeCode != u.employeeCode && v.username != u.username && v.email != u.email)
  {
    var code := NextEmployeeId(Codes(users));
    var role := ParseRole(Lower(request.role)).value;
    var u := Invited(request, newId, code, role, token, tempHash, localNow);
    assert NewUser(users, caller, request, newId, token, tempHash, localNow).value == u;
    assert forall k :: 0 <= k < |users| ==> users[k].username != request.username && users[k].email != request.email;
    NextEmployeeIdFresh(Codes(users));
    forall v | v in users
      ensures v.employeeCode != code && v.username != request.username && v.email != request.email
    {
      var k :| 0 <= k < |users| && users[k] == v;
      assert Codes(users)[k] == v.employeeCode;
    }
  }

  /** The users table as the routes change it. */
  class UserTable {
    var users: seq<User>

    constructor (rows: seq<User>)
      ensures users == rows
    {
      users := rows;
    }

    /** `toggle_user_active` */
    method ToggleUserActive(userId: nat, caller: User) returns (r: Result<bool, AdminError>)
      modifies this
      ensures var step := ToggleActive(old(users), userId, caller);
              (step.Err? ==> r == Err(step.error) && users == old(users)) &&
              (step.Ok? ==> users == step.value && r == Ok(users[FindUser(old(users), userId).value].isActive))
    {
      if caller.role != Admin {
        return Err(NotAdministrator);
      }
      var found := FindUser(users, userId);
      if found.None? {
        return Err(UserNotFound);
      }
      var i := found.value;
      if users[i].id == caller.id {
        return Err(OwnAccount);
      }
      users := users[i := users[i].(isActive := !users[i].isActive)];
      r := Ok(users[i].isActive);
    }

    /** `toggle_claim_permission` */
    method ToggleClaimPermission(userId: nat, caller: User) returns (r: Result<bool, AdminError>)
      modifies this
      ensures var step := ToggleClaim(old(users), userId, caller);
              (step.Err? ==> r == Err(step.error) && users == old(users)) &&
              (step.Ok? ==> users == step.value && r == Ok(users[FindUser(old(users), userId).value].canClaimExpenses))
    {
      if caller.role != Admin {
        return Err(NotAdministrator);
      }
      var found := FindUser(users, userId);
      if found.None? {
        return Err(UserNotFound);
      }
      var i := found.value;
      users := users[i := users[i].(canClaimExpenses := !users[i].canClaimExpenses)];
      r := Ok(users[i].canClaimExpenses);
    }

    /** `update_user_role`: an unknown role name leaves the row as it was. */
    method UpdateUserRole(userId: nat, newRole: string, caller: User) returns (r: Result<Role, AdminError>)
      modifies this
      ensures var step := ChangeRole(old(users), userId, newRole, caller);
              (step.Err? ==> r == Err(step.error) && users == old(users)) &&
              (step.Ok? ==> users == step.value && r == Ok(users[FindUser(old(users), userId).value].role))
    {
      if caller.role != Admin {
        return Err(NotAdministrator);
      }
      var found := FindUser(users, userId);
      if found.None? {
        return Err(UserNotFound);
      }
      var i := found.value;
      if users[i].id == caller.id {
        return Err(OwnAccount);
      }
      var role := ParseRole(Lower(newRole));
      if role.None? {
        return Err(InvalidRole);
      }
      users := users[i := users[i].(role := role.value)];
      r := Ok(role.value);
    }

    /** `create_new_user`: the employee code is generated first, then the
        checks run in order, then the row is added. */
    method CreateNewUser(caller: User, request: CreateUserRequest, newId: nat, token: string, tempHash: string, localNow: int)
      returns (r: Result<User, AdminError>)
      modifies this
      ensures r == NewUser(old(users), caller, request, newId, token, tempHash, localNow)
      ensures r.Err? ==> users == old(users)
      ensures r.Ok? ==> users == old(users) + [r.value]
    {
      if caller.role != Admin {
        return Err(NotAdministrator);
      }
      var code := GenerateNextEmployeeId(Codes(users));
      if exists k :: 0 <= k < |users| && users[k].username == request.username {
        return Err(UsernameTaken);
      }
      if exists k :: 0 <= k < |users| && users[k].email == request.email {
        return Err(EmailTaken);
      }
      var role := ParseRole(Lower(request.role));
      if role.None? {
        return Err(InvalidRole);
      }
      var grade := Upper(request.grade);
      if grade !in Grades {
        return Err(InvalidGrade);
      }
      var created := User(newId, request.username, request.email, request.fullName, code, role.value, grade,
                          false, request.canClaimExpenses, tempHash, false, "pending_setup",
                          Some(token), Some(localNow + InvitationLifetime), None, None);
      users := users + [created];
      r := Ok(created);
    }
  }
}
