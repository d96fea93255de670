// The e-mail/password account state machine of
// authentication/graphql/mutation.py. user/graphql/user_schema.py repeats
// the same mutations; the differences are parameters here: which
// sanitize_input is used, and whether an anonymous caller gets an explicit
// "Authentication required." answer or the login_required refusal.
// The OTP value, the clock and the outcome of sending the e-mail are inputs.
module AuthMutations {
  import opened Common
  import opened Text
  import opened Validators
  import opened Otp
  import opened Accounts

  /** OTP_EXPIRATION_MINUTES and OTP_COOLDOWN_SECONDS from the settings module. */
  datatype Settings = Settings(otpExpirationMinutes: int, otpCooldownSeconds: int)

  /** Which sanitize_input the mutation module imports. */
  datatype Sanitizer = StripOnly | StripDroppingNul

  function Sanitize(k: Sanitizer, s: string): string
  {
    match k
    case StripOnly => SanitizeStripping(s)
    case StripDroppingNul => SanitizeDroppingNul(s)
  }

  /** How an anonymous caller is turned away. */
  datatype Guard = ExplicitCheck | LoginRequired

  function AnonymousMessage(g: Guard): string
  {
    match g
    case ExplicitCheck => "Authentication required."
    case LoginRequired => "You do not have permission to perform this action"
  }

  /** The payload of every mutation here; `tokens` stands for the JWT pair being issued. */
  datatype Reply = Reply(success: bool, message: string, errors: seq<string>, user: Option<Email>, tokens: bool, mfaRequired: bool)

  function Failure(message: string): Reply
  {
    Reply(false, message, [], None, false, false)
  }

  function WithOtp(u: User, otp: string, now: int): User
  {
    u.(otpSecret := Some(otp), otpCreatedAt := Some(now))
  }

  function ClearedOtp(u: User): User
  {
    u.(otpSecret := None, otpCreatedAt := None)
  }

  /**
   * The validation chain of RegisterUser: e-mail, first name, last name,
   * password, in that order; the first failing message is reported.
   */
  function RegistrationError(email: string, first: string, last: string, password: string): (r: Option<string>)
    ensures r.None? <==> ValidateEmail(email).ok && ValidateName(first, "First name").ok &&
                         ValidateName(last, "Last name").ok && ValidatePassword(password).ok
    ensures !ValidateEmail(email).ok ==> r == Some(ValidateEmail(email).message)
    ensures ValidateEmail(email).ok && !ValidateName(first, "First name").ok ==> r == Some(ValidateName(first, "First name").message)
    ensures r.Some? ==> r.value != []
  {
    var e := ValidateEmail(email);
    if !e.ok then Some(e.message)
    else
      var f := ValidateName(first, "First name");
      if !f.ok then Some(f.message)
      else
        var l := ValidateName(last, "Last name");
        if !l.ok then Some(l.message)
        else
          var p := ValidatePassword(password);
          if !p.ok then Some(p.message) else None
  }

  /** The row RegisterUser leaves behind: create_user's inactive, unverified user with the isNew OTP. */
  function RegisteredUser(email: Email, first: string, last: string, password: string, otp: string, now: int): User
  {
    User(email, first, last, Some(password), false, false, false, Some(otp), Some(now), "email", None)
  }

  method RegisterUser(db: Store, sanitizer: Sanitizer, rawEmail: string, rawFirst: string, rawLast: string,
                      password: string, otp: string, now: int, mailSent: bool, detail: string) returns (reply: Reply)
    requires db.Valid()
    modifies db`users, db`profiles, db`friends
    ensures db.Valid()
    ensures old(db.VerifiedAreActive()) ==> db.VerifiedAreActive()
    ensures var email := Lower(Sanitize(sanitizer, rawEmail));
            var first := Sanitize(sanitizer, rawFirst);
            var last := Sanitize(sanitizer, rawLast);
            var err := RegistrationError(email, first, last, password);
            var key := NormalizeEmail(email);
            var isNew := err.None? && email !in old(db.users) && key !in old(db.users);
            (reply.user.Some? <==> isNew) &&
            (err.Some? ==> reply == Reply(false, err.value, [err.value], None, false, false)) &&
            (err.None? && email in old(db.users) ==> reply == Reply(false, "User with this email already exists.", ["Email already registered."], None, false, false)) &&
            (err.None? && email !in old(db.users) && key in old(db.users) ==> reply == Reply(false, "", [detail], None, false, false)) &&
            (isNew ==> reply.user == Some(key) && reply.success == mailSent &&
                       db.users == old(db.users)[key := RegisteredUser(key, first, last, password, otp, now)] &&
                       db.profiles == old(db.profiles)[key := BlankProfile] &&
                       db.friends == old(db.friends)[key := {}]) &&
            (!isNew ==> db.users == old(db.users) && db.profiles == old(db.profiles) && db.friends == old(db.friends))
  {
    var email := Lower(Sanitize(sanitizer, rawEmail));
    var first := Sanitize(sanitizer, rawFirst);
    var last := Sanitize(sanitizer, rawLast);
    var err := RegistrationError(email, first, last, password);
    if err.Some? {
      return Reply(false, err.value, [err.value], None, false, false);
    }
    if email in db.users {
      return Reply(false, "User with this email already exists.", ["Email already registered."], None, false, false);
    }
    var created := CreateUser(email, Some(password), PasswordSignup.(firstName := first, lastName := last));
    var key := created.user.email;
    if key in db.users {
      // The normalised address is already taken: the save breaks the unique
      // e-mail and the except clause answers with the error text only.
      return Reply(false, "", [detail], None, false, false);
    }
    // A freshly created user has no OTP timestamp, so the cooldown test that follows create_user never fires.
    var u := WithOtp(created.user, otp, now);
    db.InsertNewUser(u);
    if mailSent {
      reply := Reply(true, "User registered successfully. OTP sent to your email for verification.", [], Some(key), false, false);
    } else {
      reply := Reply(false, "User registered, but failed to send OTP email.", ["Failed to send OTP email."], Some(key), false, false);
    }
  }

  /** RequestEmailVerificationOTP: unknown, already verified and cooling-down users are refused; otherwise the OTP pair is replaced. */
  method RequestEmailVerificationOtp(db: Store, email: Email, otp: string, now: int, mailSent: bool, settings: Settings)
      returns (reply: Reply)
    requires db.Valid()
    modifies db`users
    ensures db.Valid()
    ensures old(db.VerifiedAreActive()) ==> db.VerifiedAreActive()
    ensures var issued := email in old(db.users) && !old(db.users)[email].emailVerified &&
                          !InCooldown(old(db.users)[email].otpCreatedAt, now, settings.otpCooldownSeconds);
            (issued ==> db.users == old(db.users)[email := WithOtp(old(db.users)[email], otp, now)] && reply.success == mailSent) &&
            (!issued ==> db.users == old(db.users) && !reply.success)
    ensures email !in old(db.users) ==> reply.message == "User with this email does not exist."
    ensures email in old(db.users) && old(db.users)[email].emailVerified ==> reply.message == "Email is already verified."
  {
    if email !in db.users {
      return Failure("User with this email does not exist.");
    }
    var u := db.users[email];
    if u.emailVerified {
      return Failure("Email is already verified.");
    }
    if InCooldown(u.otpCreatedAt, now, settings.otpCooldownSeconds) {
      return Failure("Please wait before requesting a new OTP.");
    }
    db.users := db.users[email := WithOtp(u, otp, now)];
    if mailSent {
      reply := Reply(true, "OTP sent to your email.", [], None, false, false);
    } else {
      reply := Failure("Failed to send OTP email.");
    }
  }

  /** VerifyEmailOTP: a valid OTP on an unverified user verifies and activates it and clears the OTP pair; anything else changes nothing. */
  method VerifyEmailOtp(db: Store, email: Email, otp: string, now: int, settings: Settings) returns (reply: Reply)
    requires db.Valid()
    modifies db`users
    ensures db.Valid()
    ensures old(db.VerifiedAreActive()) ==> db.VerifiedAreActive()
    ensures var ok := email in old(db.users) && !old(db.users)[email].emailVerified &&
                      ValidOtp(old(db.users)[email].otpSecret, old(db.users)[email].otpCreatedAt, otp, settings.otpExpirationMinutes, now).valid;
            (reply.success <==> ok) && (reply.tokens <==> ok) &&
            (ok ==> db.users == old(db.users)[email := ClearedOtp(old(db.users)[email]).(emailVerified := true, isActive := true)]) &&
            (!ok ==> db.users == old(db.users))
    ensures email in old(db.users) && old(db.users)[email].emailVerified ==> reply.message == "Email is already verified."
  {
    if email !in db.users {
      return Failure("User with this email does not exist.");
    }
    var u := db.users[email];
    if u.emailVerified {
      return Failure("Email is already verified.");
    }
    var check := ValidOtp(u.otpSecret, u.otpCreatedAt, otp, settings.otpExpirationMinutes, now);
    if !check.valid {
      return Failure(check.message);
    }
    db.users := db.users[email := ClearedOtp(u).(emailVerified := true, isActive := true)];
    reply := Reply(true, "Email verified successfully.", [], Some(email), true, false);
  }

  /** check_password: an unusable password matches nothing. */
  predicate PasswordMatches(u: User, password: string)
  {
    u.password == Some(password)
  }

  /**
   * LoginUser: an unknown address and a wrong password give the same
   * "Invalid credentials."; an inactive account is refused before the
   * password is looked at; with MFA an OTP is issued instead of tokens.
   */
  method LoginUser(db: Store, email: Email, password: string, otp: string, now: int, mailSent: bool) returns (reply: Reply)
    requires db.Valid()
    modifies db`users
    ensures db.Valid()
    ensures old(db.VerifiedAreActive()) ==> db.VerifiedAreActive()
    ensures email !in old(db.users) ==> reply == Failure("Invalid credentials.")
    ensures email in old(db.users) && !old(db.users)[email].isActive ==> reply == Failure("Account is not active. Please verify your email.")
    ensures email in old(db.users) && old(db.users)[email].isActive && !PasswordMatches(old(db.users)[email], password) ==>
              reply == Failure("Invalid credentials.")
    ensures var admitted := email in old(db.users) && old(db.users)[email].isActive && PasswordMatches(old(db.users)[email], password);
            var mfa := admitted && old(db.users)[email].mfaEnabled;
            (mfa ==> db.users == old(db.users)[email := WithOtp(old(db.users)[email], otp, now)] &&
                     !reply.tokens && reply.success == mailSent && reply.mfaRequired == mailSent) &&
            (!mfa ==> db.users == old(db.users)) &&
            (admitted && !mfa ==> reply.success && reply.tokens && !reply.mfaRequired) &&
            (reply.tokens ==> admitted && !mfa)
  {
    if email !in db.users {
      return Failure("Invalid credentials.");
    }
    var u := db.users[email];
    if !u.isActive {
      return Failure("Account is not active. Please verify your email.");
    }
    if !PasswordMatches(u, password) {
      return Failure("Invalid credentials.");
    }
    if u.mfaEnabled {
      db.users := db.users[email := WithOtp(u, otp, now)];
      if mailSent {
        reply := Reply(true, "Two-factor OTP sent to your email.", [], None, false, true);
      } else {
        reply := Failure("Failed to send OTP email.");
      }
    } else {
      reply := Reply(true, "Login successful.", [], Some(email), true, false);
    }
  }

  /** VerifyMFAOTP: an active account with MFA on and a valid OTP gets tokens and its OTP pair cleared. */
  method VerifyMfaOtp(db: Store, email: Email, otp: string, now: int, settings: Settings) returns (reply: Reply)
    requires db.Valid()
    modifies db`users
    ensures db.Valid()
    ensures old(db.VerifiedAreActive()) ==> db.VerifiedAreActive()
    ensures var ok := email in old(db.users) && old(db.users)[email].isActive && old(db.users)[email].mfaEnabled &&
                      ValidOtp(old(db.users)[email].otpSecret, old(db.users)[email].otpCreatedAt, otp, settings.otpExpirationMinutes, now).valid;
            (reply.success <==> ok) && (reply.tokens <==> ok) &&
            (ok ==> db.users == old(db.users)[email := ClearedOtp(old(db.users)[email])]) &&
            (!ok ==> db.users == old(db.users))
    ensures email !in old(db.users) ==> reply.message == "Invalid credentials."
  {
    if email !in db.users {
      return Failure("Invalid credentials.");
    }
    var u := db.users[email];
    if !u.isActive {
      return Failure("Account is not active.");
    }
    if !u.mfaEnabled {
      return Failure("MFA is not enabled for this account.");
    }
    var check := ValidOtp(u.otpSecret, u.otpCreatedAt, otp, settings.otpExpirationMinutes, now);
    if !check.valid {
      return Failure(check.message);
    }
    db.users := db.users[email := ClearedOtp(u)];
    reply := Reply(true, "MFA verification successful.", [], Some(email), true, false);
  }

  /**
   * RequestMFAEnableOTP: the signed-in user must be verified, must not have
   * MFA yet, and must be past the cooldown; then the OTP pair is replaced.
   */
  method RequestMfaEnableOtp(db: Store, caller: Option<Email>, guard: Guard, otp: string, now: int, mailSent: bool, settings: Settings)
      returns (reply: Reply)
    requires db.Valid()
    requires caller.Some? ==> caller.value in db.users
    modifies db`users
    ensures db.Valid()
    ensures old(db.VerifiedAreActive()) ==> db.VerifiedAreActive()
    ensures caller.None? ==> reply == Failure(AnonymousMessage(guard))
    ensures var issued := caller.Some? && old(db.users)[caller.value].emailVerified && !old(db.users)[caller.value].mfaEnabled &&
                          !InCooldown(old(db.users)[caller.value].otpCreatedAt, now, settings.otpCooldownSeconds);
            (issued ==> db.users == old(db.users)[caller.value := WithOtp(old(db.users)[caller.value], otp, now)] && reply.success == mailSent) &&
            (!issued ==> db.users == old(db.users) && !reply.success)
  {
    if caller.None? {
      return Failure(AnonymousMessage(guard));
    }
    var email := caller.value;
    var u := db.users[email];
    if !u.emailVerified {
      return Failure("Email must be verified before enabling MFA.");
    }
    if u.mfaEnabled {
      return Failure("MFA is already enabled.");
    }
    if InCooldown(u.otpCreatedAt, now, settings.otpCooldownSeconds) {
      return Failure("Please wait before requesting a new OTP.");
    }
    db.users := db.users[email := WithOtp(u, otp, now)];
    if mailSent {
      reply := Reply(true, "OTP sent to your email to enable MFA.", [], None, false, false);
    } else {
      reply := Failure("Failed to send OTP email.");
    }
  }

  /** EnableMFA: only from MFA off and only with a valid OTP; the OTP pair is cleared. E-mail verification is not re-checked. */
  method EnableMfa(db: Store, caller: Option<Email>, guard: Guard, otp: string, now: int, settings: Settings) returns (reply: Reply)
    requires db.Valid()
    requires caller.Some? ==> caller.value in db.users
    modifies db`users
    ensures db.Valid()
    ensures old(db.VerifiedAreActive()) ==> db.VerifiedAreActive()
    ensures caller.None? ==> reply == Failure(AnonymousMessage(guard))
    ensures var ok := caller.Some? && !old(db.users)[caller.value].mfaEnabled &&
                      ValidOtp(old(db.users)[caller.value].otpSecret, old(db.users)[caller.value].otpCreatedAt, otp, settings.otpExpirationMinutes, now).valid;
            (reply.success <==> ok) &&
            (ok ==> db.users == old(db.users)[caller.value := ClearedOtp(old(db.users)[caller.value]).(mfaEnabled := true)]) &&
            (!ok ==> db.users == old(db.users))
  {
    if caller.None? {
      return Failure(AnonymousMessage(guard));
    }
    var email := caller.value;
    var u := db.users[email];
    if u.mfaEnabled {
      return Reply(false, "MFA is already enabled.", [], Some(email), false, false);
    }
    var check := ValidOtp(u.otpSecret, u.otpCreatedAt, otp, settings.otpExpirationMinutes, now);
    if !check.valid {
      return Reply(false, check.message, [], Some(email), false, false);
    }
    db.users := db.users[email := ClearedOtp(u).(mfaEnabled := true)];
    reply := Reply(true, "MFA enabled successfully.", [], Some(email), false, false);
  }

  /** DisableMFA: only from MFA on; the OTP pair is cleared. */
  method DisableMfa(db: Store, caller: Option<Email>, guard: Guard) returns (reply: Reply)
    requires db.Valid()
    requires caller.Some? ==> caller.value in db.users
    modifies db`users
    ensures db.Valid()
    ensures old(db.VerifiedAreActive()) ==> db.VerifiedAreActive()
    ensures caller.None? ==> reply == Failure(AnonymousMessage(guard))
    ensures var ok := caller.Some? && old(db.users)[caller.value].mfaEnabled;
            (reply.success <==> ok) &&
            (ok ==> db.users == old(db.users)[caller.value := ClearedOtp(old(db.users)[caller.value]).(mfaEnabled := false)]) &&
            (!ok ==> db.users == old(db.users))
  {
    if caller.None? {
      return Failure(AnonymousMessage(guard));
    }
    var email := caller.value;
    var u := db.users[email];
    if !u.mfaEnabled {
      return Reply(false, "MFA is not enabled.", [], Some(email), false, false);
    }
    db.users := db.users[email := ClearedOtp(u).(mfaEnabled := false)];
    reply := Reply(true, "MFA disabled successfully.", [], Some(email), false, false);
  }

  /** RequestMFAOTP (user/graphql/user_schema.py only): verified users with MFA on get a new OTP pair, with no cooldown. */
  method RequestMfaOtp(db: Store, caller: Option<Email>, otp: string, now: int, mailSent: bool) returns (reply: Reply)
    requires db.Valid()
    requires caller.Some? ==> caller.value in db.users
    modifies db`users
    ensures db.Valid()
    ensures old(db.VerifiedAreActive()) ==> db.VerifiedAreActive()
    ensures caller.None? ==> reply == Failure(AnonymousMessage(LoginRequired))
    ensures var issued := caller.Some? && old(db.users)[caller.value].emailVerified && old(db.users)[caller.value].mfaEnabled;
            (issued ==> db.users == old(db.users)[caller.value := WithOtp(old(db.users)[caller.value], otp, now)] && reply.success == mailSent) &&
            (!issued ==> db.users == old(db.users) && !reply.success)
  {
    if caller.None? {
      return Failure(AnonymousMessage(LoginRequired));
    }
    var email := caller.value;
    var u := db.users[email];
    if !u.emailVerified {
      return Failure("Email is not verified.");
    }
    if !u.mfaEnabled {
      return Failure("MFA is not enabled for this account.");
    }
    db.users := db.users[email := WithOtp(u, otp, now)];
    if mailSent {
      reply := Reply(true, "MFA OTP sent to your email.", [], None, false, false);
    } else {
      reply := Failure("Failed to send MFA OTP email.");
    }
  }
}
