/** The account lifecycle routes: logging in, setting the first password
    from an invitation, asking for a one-time code, and resetting the
    password with it. An account created by an administrator waits for its
    password; setting it activates the account; a reset code works once.
    Expiries are stored from the server's local clock (`datetime.now()`)
    and checked against the UTC clock (`datetime.utcnow()`); the two
    readings are separate parameters. Password hashing and its check are
    outside the model: a hash arrives as a string and the result of checking
    a password or a code against the stored hash arrives as a boolean. */
module AuthRoutes {

  import opened Wrappers
  import opened Strings
  import opened Models
  import opened UserModel
  import opened AdminRoutes

  datatype AuthError =
    | RequestInvalid
    | PasswordsDiffer
    | InvalidInvitationToken
    | InvitationExpired
    | PasswordAlreadySet
    | AccountInactive
    | OtpEmailFailed
    | EmailNotFound
    | NoResetRequest
    | OtpExpired
    | InvalidOtp
    | BadCredentials
    | NotActivated

  /** A route's effect: the users table after it and the refusal, if any.
      Two routes change the table and still refuse. */
  datatype Step = Step(users: seq<User>, error: Option<AuthError>)

  // ---------------------------------------------------------------------
  // generate_otp

  /** The code built from six draws of `random.randint(0, 9)`. */
  function Otp(draws: seq<nat>): (otp: string)
    requires |draws| == 6 && forall k :: 0 <= k < 6 ==> draws[k] < 10
    ensures |otp| == 6 && AllDigits(otp)
    ensures forall k :: 0 <= k < 6 ==> DigitValue(otp[k]) == draws[k]
  {
    seq(6, k requires 0 <= k < 6 => DigitChar(draws[k]))
  }

  /** Every string of six digits is the code of some draws, so the codes are
      exactly the six-digit strings. */
  lemma OtpCoversAllCodes(code: string)
    requires |code| == 6 && AllDigits(code)
    ensures var draws := seq(6, k requires 0 <= k < 6 => DigitValue(code[k]));
            (forall k :: 0 <= k < 6 ==> draws[k] < 10) && Otp(draws) == code
  {
    var draws := seq(6, k requires 0 <= k < 6 => DigitValue(code[k]));
    assert forall k :: 0 <= k < 6 ==> DigitChar(draws[k]) == code[k];
  }

  // ---------------------------------------------------------------------
  // Request bodies and lookups

  /** The length bounds of the password fields. */
  predicate PasswordLengthOk(p: string)
  {
    8 <= |p| <= 100
  }

  /** `SetPasswordRequest`'s field bounds. */
  predicate SetPasswordRequestOk(token: string, password: string, confirm: string)
  {
    |token| >= 32 && PasswordLengthOk(password) && PasswordLengthOk(confirm)
  }

  /** `VerifyOTPRequest`'s field bounds: a code of exactly six characters. */
  predicate ResetRequestOk(otp: string, password: string, confirm: string)
  {
    |otp| == 6 && PasswordLengthOk(password) && PasswordLengthOk(confirm)
  }

  /** Any code `generate_otp` makes fits the request it is sent back in. */
  lemma GeneratedOtpFitsRequest(draws: seq<nat>, password: string)
    requires |draws| == 6 && forall k :: 0 <= k < 6 ==> draws[k] < 10
    requires PasswordLengthOk(password)
    ensures ResetRequestOk(Otp(draws), password, password)
  {
  }

  /** `filter(User.invitation_token == token).first()` */
  function FindByToken(users: seq<User>, token: string): (r: Option<nat>)
    ensures r.Some? ==> r.value < |users| && users[r.value].invitationToken == Some(token)
    ensures r.Some? ==> forall k :: 0 <= k < r.value ==> users[k].invitationToken != Some(token)
    ensures r.None? ==> forall k :: 0 <= k < |users| ==> users[k].invitationToken != Some(token)
  {
    if |users| == 0 then None
    else if users[0].invitationToken == Some(token) then Some(0)
    else
      match FindByToken(users[1..], token)
      case None => None
      case Some(k) => Some(k + 1)
  }

  /** `filter(User.email == email).first()` */
  function FindByEmail(users: seq<User>, email: string): (r: Option<nat>)
    ensures r.Some? ==> r.value < |users| && users[r.value].email == email
    ensures r.Some? ==> forall k :: 0 <= k < r.value ==> users[k].email != email
    ensures r.None? ==> forall k :: 0 <= k < |users| ==> users[k].email != email
  {
    if |users| == 0 then None
    else if users[0].email == email then Some(0)
    else
      match FindByEmail(users[1..], email)
      case None => None
      case Some(k) => Some(k + 1)
  }

  /** Changing a row without changing its email keeps the lookup by email. */
  lemma FindByEmailAfterUpdate(users: seq<User>, i: nat, u: User, email: string)
    requires i < |users| && u.email == users[i].email
    ensures FindByEmail(users[i := u], email) == FindByEmail(users, email)
  {
    var after := FindByEmail(users[i := u], email);
    var before := FindByEmail(users, email);
    if after.Some? {
      assert users[after.value].email == email;
    }
    if before.Some? {
      assert users[i := u][before.value].email == email;
    }
  }

  // ---------------------------------------------------------------------
  // login

  /** `filter((User.username == name) | (User.email == name)).first()` */
  function FindByLogin(users: seq<User>, name: string): (r: Option<nat>)
    ensures r.Some? ==> r.value < |users| && (users[r.value].username == name || users[r.value].email == name)
    ensures r.Some? ==> forall k :: 0 <= k < r.value ==> users[k].username != name && users[k].email != name
    ensures r.None? ==> forall k :: 0 <= k < |users| ==> users[k].username != name && users[k].email != name
  {
    if |users| == 0 then None
    else if users[0].username == name || users[0].email == name then Some(0)
    else
      match FindByLogin(users[1..], name)
      case None => None
      case Some(k) => Some(k + 1)
  }

  /** `authenticate_user`: the row found by username or email, provided the
      password matches its hash and the account is active. `passwordMatches`
      is the hash check of the given password against the found row. */
  function Authenticate(users: seq<User>, name: string, passwordMatches: bool): (r: Option<User>)
    ensures r.Some? <==> FindByLogin(users, name).Some? && passwordMatches && users[FindByLogin(users, name).value].isActive
    ensures r.Some? ==> r.value == users[FindByLogin(users, name).value] && r.value.isActive
  {
    match FindByLogin(users, name)
    case None => None
    case Some(i) => if !passwordMatches || !users[i].isActive then None else Some(users[i])
  }

  /** `login`: credentials that name no active user with that password are
      refused as bad credentials; an authenticated user who may not log in
      yet is refused as not activated. Only an active account can get the
      second answer, because authentication already turns the others away. */
  function Login(users: seq<User>, name: string, passwordMatches: bool): (r: Result<User, AuthError>)
    ensures var found := FindByLogin(users, name);
            r.Ok? <==> found.Some? && passwordMatches && CanLogin(users[found.value])
    ensures r.Ok? ==> r.value == users[FindByLogin(users, name).value]
    ensures var found := FindByLogin(users, name);
            r == Err(NotActivated) <==>
              found.Some? && passwordMatches && users[found.value].isActive && !CanLogin(users[found.value])
    ensures var found := FindByLogin(users, name);
            found.None? || !passwordMatches || !users[found.value].isActive ==> r == Err(BadCredentials)
  {
    match Authenticate(users, name, passwordMatches)
    case None => Err(BadCredentials)
    case Some(u) => if CanLogin(u) then Ok(u) else Err(NotActivated)
  }

  // ---------------------------------------------------------------------
  // set_password_from_invitation

  /** The row after its first password is set: active, with the new hash,
      and the invitation token gone. */
  function Activated(u: User, digest: string): (a: User)
  {
    u.(hashedPassword := digest, isPasswordSet := true, accountStatus := "active", isActive := true,
       invitationToken := None)
  }

  function SetPassword(users: seq<User>, token: string, password: string, confirm: string,
                       digest: string, now: int): Step
  {
    if !SetPasswordRequestOk(token, password, confirm) then Step(users, Some(RequestInvalid))
    else if password != confirm then Step(users, Some(PasswordsDiffer))
    else
      match FindByToken(users, token)
      case None => Step(users, Some(InvalidInvitationToken))
      case Some(i) =>
        if !IsInvitationValid(users[i], now) then Step(users, Some(InvitationExpired))
        else if users[i].isPasswordSet then Step(users, Some(PasswordAlreadySet))
        else Step(users[i := Activated(users[i], digest)], None)
  }

  /** The refusals, in the route's order, change nothing; success changes
      only the token holder's row, which can now log in and holds no token. */
  lemma SetPasswordEffect(users: seq<User>, token: string, password: string, confirm: string,
                          digest: string, now: int)
    ensures var s := SetPassword(users, token, password, confirm, digest, now);
            s.error.Some? ==> s.users == users
    ensures SetPasswordRequestOk(token, password, confirm) && password != confirm ==>
      SetPassword(users, token, password, confirm, digest, now).error == Some(PasswordsDiffer)
    ensures SetPasswordRequestOk(token, password, confirm) && password == confirm && FindByToken(users, token).None? ==>
      SetPassword(users, token, password, confirm, digest, now).error == Some(InvalidInvitationToken)
    ensures SetPasswordRequestOk(token, password, confirm) && password == confirm && FindByToken(users, token).Some? ==>
      var u := users[FindByToken(users, token).value];
      var e := SetPassword(users, token, password, confirm, digest, now).error;
      (!IsInvitationValid(u, now) ==> e == Some(InvitationExpired)) &&
      (IsInvitationValid(u, now) && u.isPasswordSet ==> e == Some(PasswordAlreadySet)) &&
      (IsInvitationValid(u, now) && !u.isPasswordSet ==> e.None?)
    ensures var s := SetPassword(users, token, password, confirm, digest, now);
            s.error.None? ==>
              var i := FindByToken(users, token).value;
              |s.users| == |users| && CanLogin(s.users[i]) && s.users[i].invitationToken.None? &&
              s.users[i].hashedPassword == digest && s.users[i].id == users[i].id && s.users[i].email == users[i].email &&
              forall k :: 0 <= k < |users| && k != i ==> s.users[k] == users[k]
  {
  }

  /** No two rows hold the same invitation token, as the column is unique. */
  predicate UniqueTokens(users: seq<User>)
  {
    forall j, k :: 0 <= j < k < |users| && users[j].invitationToken.Some? ==> users[j].invitationToken != users[k].invitationToken
  }

  /** An invitation works once: with the same request again, the token no
      longer finds any row. */
  lemma {:induction false} InvitationSingleUse(users: seq<User>, token: string, password: string, digest: string,
                                               now: int, later: int)
    requires UniqueTokens(users)
    requires SetPassword(users, token, password, password, digest, now).error.None?
    ensures SetPassword(SetPassword(users, token, password, password, digest, now).users, token, password, password, digest, later).error
            == Some(InvalidInvitationToken)
  {
    var i := FindByToken(users, token).value;
    var after := SetPassword(users, token, password, password, digest, now).users;
    forall k | 0 <= k < |after|
      ensures after[k].invitationToken != Some(token)
    {
      if k < i {
        assert users[k].invitationToken != Some(token);
      } else if k > i {
        assert users[i].invitationToken.Some?;
        assert users[i].invitationToken != users[k].invitationToken;
      }
    }
  }

  /** A name held only by the last row finds that row. */
  lemma LoginFindsLastRow(rows: seq<User>, name: string)
    requires |rows| > 0 && rows[|rows| - 1].username == name
    requires forall k :: 0 <= k < |rows| - 1 ==> rows[k].username != name && rows[k].email != name
    ensures FindByLogin(rows, name) == Some(|rows| - 1)
  {
  }

  /** An invitation token held only by the last row finds that row. */
  lemma TokenFindsLastRow(rows: seq<User>, token: string)
    requires |rows| > 0 && rows[|rows| - 1].invitationToken == Some(token)
    requires forall k :: 0 <= k < |rows| - 1 ==> rows[k].invitationToken != Some(token)
    ensures FindByToken(rows, token) == Some(|rows| - 1)
  {
  }

  /** A pending row appended to a table, holding a token and a username no
      other row has, is refused at login until its invitation is accepted in
      time, and let in afterwards. */
  lemma PendingRowLogsInAfterAcceptance(users: seq<User>, created: User, token: string,
                                        password: string, digest: string, t: int)
    requires !created.isActive && created.invitationToken == Some(token) && IsInvitationValid(created, t)
    requires !created.isPasswordSet
    requires SetPasswordRequestOk(token, password, password)
    requires forall u :: u in users ==> u.invitationToken != Some(token) &&
                                        u.username != created.username && u.email != created.username
    ensures var table := users + [created];
            var s := SetPassword(table, token, password, password, digest, t);
            Login(table, created.username, true) == Err(BadCredentials) &&
            s.error.None? && Login(s.users, created.username, true).Ok?
  {
    var table := users + [created];
    var name := created.username;
    assert forall k :: 0 <= k < |users| ==> table[k] == users[k] && users[k] in users;
    TokenFindsLastRow(table, token);
    LoginFindsLastRow(table, name);
    var s := SetPassword(table, token, password, password, digest, t);
    assert s.users == table[|users| := Activated(created, digest)];
    assert forall k :: 0 <= k < |users| ==> s.users[k] == users[k];
    LoginFindsLastRow(s.users, name);
  }

  /** An administrator's new user is turned away at login, even with the
      right password, until the invitation is accepted, and let in
      afterwards. The invitation is used at the UTC instant `t`, before the
      expiry stored from the local reading `localNow`. No existing user may
      have the new username as an email, since login looks up both. */
  lemma InvitedUserLogsInOnlyAfterSettingPassword(users: seq<User>, caller: User, request: CreateUserRequest,
                                                  newId: nat, token: string, tempHash: string, localNow: int,
                                                  password: string, digest: string, t: int)
    requires NewUser(users, caller, request, newId, token, tempHash, localNow).Ok?
    requires SetPasswordRequestOk(token, password, password)
    requires forall u :: u in users ==> u.invitationToken != Some(token) && u.email != request.username
    requires t < localNow + InvitationLifetime
    ensures var created := NewUser(users, caller, request, newId, token, tempHash, localNow).value;
            var table := users + [created];
            var s := SetPassword(table, token, password, password, digest, t);
            Login(table, request.username, true) == Err(BadCredentials) &&
            s.error.None? && Login(s.users, request.username, true).Ok?
  {
    var created := NewUser(users, caller, request, newId, token, tempHash, localNow).value;
    NewUserEffect(users, caller, request, newId, token, tempHash, localNow, t);
    assert created.username == request.username;
    PendingRowLogsInAfterAcceptance(users, created, token, password, digest, t);
  }

  // ---------------------------------------------------------------------
  // forgot_password

  /** How long a reset code is valid: fifteen minutes, in seconds. */
  const OtpLifetime: int := 15 * 60

  /** `forgot_password`: an unknown address gets the same answer as a known
      one and changes nothing; an inactive account is refused; otherwise the
      code's hash and its expiry are stored before the code is mailed, so a
      failed mail still leaves them stored. The expiry is computed from
      `localNow`, the reading of `datetime.now()` (the server's local wall
      clock), while `is_reset_token_valid` compares it with the UTC clock. */
  function ForgotPassword(users: seq<User>, email: string, digest: string, emailSent: bool, localNow: int): Step
  {
    match FindByEmail(users, email)
    case None => Step(users, None)
    case Some(i) =>
      if !users[i].isActive then Step(users, Some(AccountInactive))
      else
        var stored := users[i := users[i].(resetToken := Some(digest), resetTokenExpiresAt := Some(localNow + OtpLifetime))];
        Step(stored, if emailSent then None else Some(OtpEmailFailed))
  }

  /** The code is valid at a UTC instant `t` exactly when `t` is before the
      local reading plus fifteen minutes: on a server whose clock runs
      `offset` seconds ahead of UTC, fifteen minutes plus the offset after
      the request. */
  lemma ForgotPasswordEffect(users: seq<User>, email: string, digest: string, emailSent: bool, localNow: int, t: int)
    ensures FindByEmail(users, email).None? ==> ForgotPassword(users, email, digest, emailSent, localNow) == Step(users, None)
    ensures FindByEmail(users, email).Some? && !users[FindByEmail(users, email).value].isActive ==>
      ForgotPassword(users, email, digest, emailSent, localNow) == Step(users, Some(AccountInactive))
    ensures FindByEmail(users, email).Some? && users[FindByEmail(users, email).value].isActive ==>
      var i := FindByEmail(users, email).value;
      var s := ForgotPassword(users, email, digest, emailSent, localNow);
      (s.error.None? <==> emailSent) &&
      s.users[i].resetToken == Some(digest) && s.users[i].resetTokenExpiresAt == Some(localNow + OtpLifetime) &&
      (IsResetTokenValid(s.users[i], t) <==> |digest| > 0 && t < localNow + OtpLifetime) &&
      |s.users| == |users| && forall k :: 0 <= k < |users| && k != i ==> s.users[k] == users[k]
  {
  }

  // ---------------------------------------------------------------------
  // reset_password_with_otp

  /** A row with its reset code gone. */
  function CodeCleared(u: User): User
  {
    u.(resetToken := None, resetTokenExpiresAt := None)
  }

  /** `reset_password_with_otp`; `otpMatches` is the hash check of the code
      against the stored hash. */
  function ResetPassword(users: seq<User>, email: string, otp: string, password: string, confirm: string,
                         otpMatches: bool, digest: string, now: int): Step
  {
    if !ResetRequestOk(otp, password, confirm) then Step(users, Some(RequestInvalid))
    else if password != confirm then Step(users, Some(PasswordsDiffer))
    else
      match FindByEmail(users, email)
      case None => Step(users, Some(EmailNotFound))
      case Some(i) =>
        if !Given(users[i].resetToken) then Step(users, Some(NoResetRequest))
        else if !IsResetTokenValid(users[i], now) then Step(users[i := CodeCleared(users[i])], Some(OtpExpired))
        else if !otpMatches then Step(users, Some(InvalidOtp))
        else Step(users[i := CodeCleared(users[i]).(hashedPassword := digest)], None)
  }

  /** An expired code is cleared and refused; a wrong code is refused and
      kept; a right code sets the password and is cleared; the other
      refusals change nothing. */
  lemma ResetPasswordEffect(users: seq<User>, email: string, otp: string, password: string, confirm: string,
                            otpMatches: bool, digest: string, now: int)
    ensures var s := ResetPassword(users, email, otp, password, confirm, otpMatches, digest, now);
            s.error.Some? && s.error != Some(OtpExpired) ==> s.users == users
    ensures var s := ResetPassword(users, email, otp, password, confirm, otpMatches, digest, now);
            s.error == Some(OtpExpired) || s.error.None? ==>
              var i := FindByEmail(users, email).value;
              |s.users| == |users| &&
              s.users[i].resetToken.None? && s.users[i].resetTokenExpiresAt.None? &&
              (s.error.None? <==> IsResetTokenValid(users[i], now)) &&
              (s.error.None? ==> otpMatches && s.users[i].hashedPassword == digest) &&
              (s.error.Some? ==> s.users[i].hashedPassword == users[i].hashedPassword) &&
              forall k :: 0 <= k < |users| && k != i ==> s.users[k] == users[k]
    ensures ResetRequestOk(otp, password, confirm) && password == confirm && FindByEmail(users, email).Some? ==>
      var u := users[FindByEmail(users, email).value];
      var e := ResetPassword(users, email, otp, password, confirm, otpMatches, digest, now).error;
      (!Given(u.resetToken) ==> e == Some(NoResetRequest)) &&
      (Given(u.resetToken) && !IsResetTokenValid(u, now) ==> e == Some(OtpExpired)) &&
      (IsResetTokenValid(u, now) && !otpMatches ==> e == Some(InvalidOtp))
  {
  }

  /** A code works once, and an expired code is gone: after either, the
      next reset for the address finds no request. */
  lemma {:induction false} ResetCodeSingleUse(users: seq<User>, email: string, otp: string, password: string,
                                              otpMatches: bool, digest: string, now: int,
                                              otp2: string, matches2: bool, later: int)
    requires var e := ResetPassword(users, email, otp, password, password, otpMatches, digest, now).error;
             e.None? || e == Some(OtpExpired)
    requires ResetRequestOk(otp2, password, password)
    ensures var after := ResetPassword(users, email, otp, password, password, otpMatches, digest, now).users;
            ResetPassword(after, email, otp2, password, password, matches2, digest, later).error == Some(NoResetRequest)
  {
    var i := FindByEmail(users, email).value;
    var after := ResetPassword(users, email, otp, password, password, otpMatches, digest, now).users;
    FindByEmailAfterUpdate(users, i, after[i], email);
  }

  /** A code requested for an active account resets the password when it
      comes back, at the UTC instant `t`, before the expiry stored from the
      local reading `localNow`, and matches. */
  lemma {:induction false} ForgotThenReset(users: seq<User>, email: string, hashOfOtp: string, localNow: int,
                                           draws: seq<nat>, password: string, digest: string, t: int)
    requires |draws| == 6 && forall k :: 0 <= k < 6 ==> draws[k] < 10
    requires PasswordLengthOk(password) && |hashOfOtp| > 0
    requires FindByEmail(users, email).Some? && users[FindByEmail(users, email).value].isActive
    requires t < localNow + OtpLifetime
    ensures var asked := ForgotPassword(users, email, hashOfOtp, true, localNow);
            var s := ResetPassword(asked.users, email, Otp(draws), password, password, true, digest, t);
            asked.error.None? && s.error.None? &&
            s.users[FindByEmail(users, email).value].hashedPassword == digest
  {
    var i := FindByEmail(users, email).value;
    var asked := ForgotPassword(users, email, hashOfOtp, true, localNow);
    FindByEmailAfterUpdate(users, i, asked.users[i], email);
    GeneratedOtpFitsRequest(draws, password);
  }

  /** The expiry is read from the local clock and checked against the UTC
      clock. On a server at least fifteen minutes behind UTC
      (`offset <= -OtpLifetime`), a code requested at the UTC instant `now`
      has expired when it is issued: every reset with it, at any later
      instant and even with the right code, is refused as expired. */
  lemma {:induction false} OtpExpiredWhenIssuedBehindUtc(users: seq<User>, email: string, hashOfOtp: string,
                                                         now: int, offset: int, otp: string, password: string,
                                                         otpMatches: bool, digest: string, t: int)
    requires |hashOfOtp| > 0 && ResetRequestOk(otp, password, password)
    requires FindByEmail(users, email).Some? && users[FindByEmail(users, email).value].isActive
    requires offset <= -OtpLifetime && now <= t
    ensures var asked := ForgotPassword(users, email, hashOfOtp, true, now + offset);
            asked.error.None? &&
            ResetPassword(asked.users, email, otp, password, password, otpMatches, digest, t).error == Some(OtpExpired)
  {
    var i := FindByEmail(users, email).value;
    var asked := ForgotPassword(users, email, hashOfOtp, true, now + offset);
    FindByEmailAfterUpdate(users, i, asked.users[i], email);
  }

  /** With the expiry read from the same UTC clock the check uses, as
      intended, a code requested at `now` works for exactly fifteen minutes:
      a matching code is accepted at every instant of
      `[now, now + OtpLifetime)` and refused as expired from then on. */
  lemma {:induction false} OtpValidForLifetimeOnUtcClock(users: seq<User>, email: string, hashOfOtp: string,
                                                         now: int, otp: string, password: string,
                                                         digest: string, t: int)
    requires |hashOfOtp| > 0 && ResetRequestOk(otp, password, password)
    requires FindByEmail(users, email).Some? && users[FindByEmail(users, email).value].isActive
    requires now <= t
    ensures var asked := ForgotPassword(users, email, hashOfOtp, true, now);
            var e := ResetPassword(asked.users, email, otp, password, password, true, digest, t).error;
            (e.None? <==> t < now + OtpLifetime) && (e.Some? ==> e == Some(OtpExpired))
  {
    var i := FindByEmail(users, email).value;
    var asked := ForgotPassword(users, email, hashOfOtp, true, now);
    FindByEmailAfterUpdate(users, i, asked.users[i], email);
  }

  // ---------------------------------------------------------------------
  // The routes, changing the users table in place

  class Accounts {
    var users: seq<User>

    constructor (rows: seq<User>)
      ensures users == rows
    {
      users := rows;
    }

    /** `set_password_from_invitation` */
    method SetPasswordFromInvitation(token: string, password: string, confirm: string, digest: string, now: int)
      returns (error: Option<AuthError>)
      modifies this
      ensures var s := SetPassword(old(users), token, password, confirm, digest, now);
              users == s.users && error == s.error
    {
      if !SetPasswordRequestOk(token, password, confirm) {
        return Some(RequestInvalid);
      }
      if password != confirm {
        return Some(PasswordsDiffer);
      }
      var found := FindByToken(users, token);
      if found.None? {
        return Some(InvalidInvitationToken);
      }
      var i := found.value;
      if !IsInvitationValid(users[i], now) {
        return Some(InvitationExpired);
      }
      if users[i].isPasswordSet {
        return Some(PasswordAlreadySet);
      }
      var u := users[i];
      u := u.(hashedPassword := digest);
      u := u.(isPasswordSet := true);
      u := u.(accountStatus := "active");
      u := u.(isActive := true);
      u := u.(invitationToken := None);
      users := users[i := u];
      error := None;
    }

    /** `forgot_password`; the code's hash and whether the mail went out
        come from outside. */
    method RequestPasswordReset(email: string, digest: string, emailSent: bool, localNow: int)
      returns (error: Option<AuthError>)
      modifies this
      ensures var s := ForgotPassword(old(users), email, digest, emailSent, localNow);
              users == s.users && error == s.error
    {
      var found := FindByEmail(users, email);
      if found.None? {
        return None;
      }
      var i := found.value;
      if !users[i].isActive {
        return Some(AccountInactive);
      }
      users := users[i := users[i].(resetToken := Some(digest))];
      users := users[i := users[i].(resetTokenExpiresAt := Some(localNow + OtpLifetime))];
      error := if emailSent then None else Some(OtpEmailFailed);
    }

    /** `reset_password_with_otp` */
    method ResetPasswordWithOtp(email: string, otp: string, password: string, confirm: string,
                                otpMatches: bool, digest: string, now: int)
      returns (error: Option<AuthError>)
      modifies this
      ensures var s := ResetPassword(old(users), email, otp, password, confirm, otpMatches, digest, now);
              users == s.users && error == s.error
    {
      if !ResetRequestOk(otp, password, confirm) {
        return Some(RequestInvalid);
      }
      if password != confirm {
        return Some(PasswordsDiffer);
      }
      var found := FindByEmail(users, email);
      if found.None? {
        return Some(EmailNotFound);
      }
      var i := found.value;
      if !Given(users[i].resetToken) {
        return Some(NoResetRequest);
      }
      if !IsResetTokenValid(users[i], now) {
        users := users[i := CodeCleared(users[i])];
        return Some(OtpExpired);
      }
      if !otpMatches {
        return Some(InvalidOtp);
      }
      var u := users[i].(hashedPassword := digest);
      u := u.(resetToken := None, resetTokenExpiresAt := None);
      users := users[i := u];
      error := None;
    }
  }
}
