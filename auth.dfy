/** Demo-mode authentication: the email and password validators, the ordered checks
    of a signup, and the in-memory user table that signup extends and login reads.
    SHA-256 is kept abstract: a digest determines the password it was made from. */
module Auth {
  import opened Common
  import opened Text

  // ---------------------------------------------------------------------------
  // Password digests
  // ---------------------------------------------------------------------------

  /** The hex digest of `password.encode()`, standing for the value itself. */
  datatype Digest = Sha256(input: string)

  /** `_hash_password`. */
  function HashPassword(password: string): Digest
  {
    Sha256(password)
  }

  // ---------------------------------------------------------------------------
  // `_validate_email`
  // ---------------------------------------------------------------------------

  /** `[a-zA-Z0-9._%+-]`. */
  predicate IsLocalChar(c: char)
  {
    IsAsciiLetter(c) || IsAsciiDigit(c) || c == '.' || c == '_' || c == '%' || c == '+' || c == '-'
  }

  /** `[a-zA-Z0-9.-]`. */
  predicate IsDomainChar(c: char)
  {
    IsAsciiLetter(c) || IsAsciiDigit(c) || c == '.' || c == '-'
  }

  /** `s` splits as local part `s[..at]`, '@', domain prefix `s[at+1..dot]`, '.',
      and a final run of at least two ASCII letters. */
  predicate ShapeAt(s: string, at: int, dot: int)
  {
    && 0 < at && at + 1 < dot && dot + 2 < |s| + 1 && dot < |s|
    && s[at] == '@' && s[dot] == '.'
    && |s| - (dot + 1) >= 2
    && (forall k :: 0 <= k < at ==> IsLocalChar(s[k]))
    && (forall k :: at < k < dot ==> IsDomainChar(s[k]))
    && (forall k :: dot < k < |s| ==> IsAsciiLetter(s[k]))
  }

  /** The regular expression read as a grammar: some split makes `ShapeAt` hold. */
  ghost predicate EmailShape(s: string)
  {
    exists at, dot :: ShapeAt(s, at, dot)
  }

  /** `re.match(pattern, email)`: `$` also matches before one final newline. */
  ghost predicate EmailPattern(email: string)
  {
    EmailShape(email) || (|email| > 0 && email[|email| - 1] == '\n' && EmailShape(email[..|email| - 1]))
  }

  /** The first position of `c` in `s`. */
  function FirstIndex(s: string, c: char): (r: Option<nat>)
    ensures r.Some? ==> r.value < |s| && s[r.value] == c && forall k :: 0 <= k < r.value ==> s[k] != c
    ensures r.None? ==> forall k :: 0 <= k < |s| ==> s[k] != c
  {
    if s == [] then None
    else if s[0] == c then Some(0)
    else match FirstIndex(s[1..], c)
      case None => None
      case Some(i) => Some(i + 1)
  }

  /** The last position of `c` in `s`. */
  function LastIndex(s: string, c: char): (r: Option<nat>)
    ensures r.Some? ==> r.value < |s| && s[r.value] == c && forall k :: r.value < k < |s| ==> s[k] != c
    ensures r.None? ==> forall k :: 0 <= k < |s| ==> s[k] != c
  {
    if s == [] then None
    else if s[|s| - 1] == c then Some(|s| - 1)
    else LastIndex(s[..|s| - 1], c)
  }

  /** `email` without one final newline. */
  function Body(email: string): string
  {
    if |email| > 0 && email[|email| - 1] == '\n' then email[..|email| - 1] else email
  }

  /** `_validate_email`: split at the first '@' and the last '.' and check the parts. */
  function ValidateEmail(email: string): bool
  {
    var b := Body(email);
    match (FirstIndex(b, '@'), LastIndex(b, '.'))
    case (Some(at), Some(dot)) => ShapeAt(b, at, dot)
    case _ => false
  }

  /** The validator accepts exactly the strings the pattern matches. */
  lemma ValidateEmailMatchesPattern(email: string)
    ensures ValidateEmail(email) <==> EmailPattern(email)
  {
    var b := Body(email);
    assert EmailPattern(email) <==> EmailShape(b);
    if EmailShape(b) {
      var at, dot :| ShapeAt(b, at, dot);
      ShapeFixesSplit(b, at, dot);
    }
  }

  /** A split that makes `ShapeAt` hold is the first '@' and the last '.'. */
  lemma ShapeFixesSplit(b: string, at: int, dot: int)
    requires ShapeAt(b, at, dot)
    ensures FirstIndex(b, '@') == Some(at) && LastIndex(b, '.') == Some(dot)
  {
    var f := FirstIndex(b, '@');
    assert f.Some? && f.value <= at;
    var l := LastIndex(b, '.');
    assert l.Some? && l.value >= dot;
  }

  /** A short address is accepted, also with one trailing newline. */
  lemma ShortAddressIsValid()
    ensures ValidateEmail("a@b.co")
    ensures ValidateEmail("a@b.co\n")
  {
    var e := "a@b.co";
    assert e[0] == 'a' && e[1] == '@' && e[2] == 'b' && e[3] == '.' && e[4] == 'c' && e[5] == 'o';
    assert ShapeAt(e, 1, 3);
    ShapeFixesSplit(e, 1, 3);
    assert Body("a@b.co\n") == e;
  }

  /** A one-letter ending, a second '@' and an empty local part are refused. */
  lemma MalformedAddressesAreRefused()
    ensures !ValidateEmail("a@b.c")
    ensures !ValidateEmail("a@b@c.de")
    ensures !ValidateEmail("@c.de")
  {
    var e := "a@b@c.de";
    assert e[3] == '@' && !IsDomainChar(e[3]);
    assert FirstIndex(e, '@') == Some(1);
    assert LastIndex(e, '.') == Some(5);
    assert FirstIndex("@c.de", '@') == Some(0);
    assert LastIndex("a@b.c", '.') == Some(3);
  }

  // ---------------------------------------------------------------------------
  // `_validate_password`
  // ---------------------------------------------------------------------------

  /** A `(bool, str)` pair the validators and `signup_user` return. */
  datatype Outcome = Outcome(ok: bool, message: string)

  const PasswordTooShort := "Password must be at least 6 characters long"
  const PasswordNeedsLetter := "Password must contain at least one letter"
  const PasswordNeedsNumber := "Password must contain at least one number"

  predicate HasAsciiLetter(s: string)
  {
    exists k :: 0 <= k < |s| && IsAsciiLetter(s[k])
  }

  predicate HasAsciiDigit(s: string)
  {
    exists k :: 0 <= k < |s| && IsAsciiDigit(s[k])
  }

  /** The checks run in order: length, then a letter, then a digit; the first that
      fails gives the message. */
  function ValidatePassword(password: string): (r: Outcome)
    ensures r.ok <==> |password| >= 6 && HasAsciiLetter(password) && HasAsciiDigit(password)
    ensures |password| < 6 ==> r.message == PasswordTooShort
    ensures |password| >= 6 && !HasAsciiLetter(password) ==> r.message == PasswordNeedsLetter
    ensures |password| >= 6 && HasAsciiLetter(password) && !HasAsciiDigit(password) ==>
      r.message == PasswordNeedsNumber
  {
    if |password| < 6 then Outcome(false, PasswordTooShort)
    else if !HasAsciiLetter(password) then Outcome(false, PasswordNeedsLetter)
    else if !HasAsciiDigit(password) then Outcome(false, PasswordNeedsNumber)
    else Outcome(true, "Password is valid")
  }

  // ---------------------------------------------------------------------------
  // The demo user table
  // ---------------------------------------------------------------------------

  /** One entry of `demo_users`. */
  datatype UserRecord = UserRecord(passwordHash: Digest, createdAt: string, role: string)

  type UserTable = map<string, UserRecord>

  /** The table `_init_demo_users` builds, with both timestamps `now`. */
  function DemoUsers(now: string): UserTable
  {
    map[
      "admin@disaster.com" := UserRecord(HashPassword("admin123"), now, "admin"),
      "user@disaster.com" := UserRecord(HashPassword("user123"), now, "user")]
  }

  /** The message of the first failing check of `signup_user`, before the table is
      consulted. */
  function SignupCheck(email: string, password: string, confirm: string): (r: Option<string>)
    ensures (email == "" || password == "") ==> r == Some("Email and password are required")
    ensures email != "" && password != "" && !ValidateEmail(email) ==> r == Some("Invalid email format")
    ensures email != "" && password != "" && ValidateEmail(email) && password != confirm ==>
      r == Some("Passwords do not match")
    ensures email != "" && password != "" && ValidateEmail(email) && password == confirm ==>
      r == if ValidatePassword(password).ok then None else Some(ValidatePassword(password).message)
  {
    if email == "" || password == "" then Some("Email and password are required")
    else if !ValidateEmail(email) then Some("Invalid email format")
    else if password != confirm then Some("Passwords do not match")
    else
      var check := ValidatePassword(password);
      if !check.ok then Some(check.message) else None
  }

  /** `_signup_demo_user` on a table: the outcome and the table afterwards. */
  function DemoSignup(users: UserTable, email: string, password: string, now: string): (UserTable, Outcome)
  {
    if email in users then (users, Outcome(false, "User already exists"))
    else (users[email := UserRecord(HashPassword(password), now, "user")],
          Outcome(true, "User created successfully in demo mode"))
  }

  /** `signup_user` in demo mode. */
  function Signup(users: UserTable, email: string, password: string, confirm: string, now: string): (UserTable, Outcome)
  {
    match SignupCheck(email, password, confirm)
    case Some(message) => (users, Outcome(false, message))
    case None => DemoSignup(users, email, password, now)
  }

  /** The session dictionary login returns; `NoSession` is the empty dictionary. */
  datatype SessionData = NoSession | Session(email: string, role: string, createdAt: string, demoMode: bool)

  datatype LoginOutcome = LoginOutcome(ok: bool, message: string, data: SessionData)

  /** `_login_demo_user` on a table: the account must exist and the digests agree. */
  function DemoLogin(users: UserTable, email: string, password: string): (r: LoginOutcome)
    ensures r.ok <==> email in users && users[email].passwordHash == HashPassword(password)
    ensures !r.ok ==> r.data == NoSession
    ensures r.ok ==> r.data == Session(email, users[email].role, users[email].createdAt, true)
  {
    if email !in users then LoginOutcome(false, "User not found", NoSession)
    else if users[email].passwordHash == HashPassword(password) then
      LoginOutcome(true, "Login successful",
        Session(email, users[email].role, users[email].createdAt, true))
    else LoginOutcome(false, "Invalid credentials", NoSession)
  }

  /** `login_user` in demo mode, on a table. */
  function Login(users: UserTable, email: string, password: string): (r: LoginOutcome)
    ensures r.ok <==>
      (email != "" && password != "" && email in users && users[email].passwordHash == HashPassword(password))
    ensures !r.ok ==> r.data == NoSession
    ensures r.ok ==> r.data == Session(email, users[email].role, users[email].createdAt, true)
  {
    if email == "" || password == "" then LoginOutcome(false, "Email and password are required", NoSession)
    else DemoLogin(users, email, password)
  }

  /** The demo-mode authenticator. */
  class SupabaseAuth {
    var demoUsers: UserTable

    /** `__init__` in demo mode, which calls `_init_demo_users`. */
    constructor(now: string)
      ensures demoUsers == DemoUsers(now)
    {
      demoUsers := DemoUsers(now);
    }

    /** `_init_demo_users`: the table is replaced by the two demo accounts. */
    method InitDemoUsers(now: string)
      modifies this
      ensures demoUsers == DemoUsers(now)
    {
      demoUsers := map[
        "admin@disaster.com" := UserRecord(HashPassword("admin123"), now, "admin"),
        "user@disaster.com" := UserRecord(HashPassword("user123"), now, "user")];
    }

    /** `signup_user`: the checks in order, then `_signup_demo_user`. */
    method SignupUser(email: string, password: string, confirm: string, now: string) returns (r: Outcome)
      modifies this
      ensures (demoUsers, r) == Signup(old(demoUsers), email, password, confirm, now)
    {
      if email == "" || password == "" {
        return Outcome(false, "Email and password are required");
      }
      if !ValidateEmail(email) {
        return Outcome(false, "Invalid email format");
      }
      if password != confirm {
        return Outcome(false, "Passwords do not match");
      }
      var check := ValidatePassword(password);
      if !check.ok {
        return Outcome(false, check.message);
      }
      r := SignupDemoUser(email, password, now);
    }

    /** `_signup_demo_user`. */
    method SignupDemoUser(email: string, password: string, now: string) returns (r: Outcome)
      modifies this
      ensures (demoUsers, r) == DemoSignup(old(demoUsers), email, password, now)
    {
      if email in demoUsers {
        return Outcome(false, "User already exists");
      }
      demoUsers := demoUsers[email := UserRecord(HashPassword(password), now, "user")];
      r := Outcome(true, "User created successfully in demo mode");
    }

    /** `login_user` followed by `_login_demo_user`; the table is only read. */
    method LoginUser(email: string, password: string) returns (r: LoginOutcome)
      ensures r == Login(demoUsers, email, password)
    {
      if email == "" || password == "" {
        return LoginOutcome(false, "Email and password are required", NoSession);
      }
      r := LoginDemoUser(email, password);
    }

    /** `_login_demo_user`. */
    method LoginDemoUser(email: string, password: string) returns (r: LoginOutcome)
      ensures r == DemoLogin(demoUsers, email, password)
    {
      if email !in demoUsers {
        return LoginOutcome(false, "User not found", NoSession);
      }
      var storedHash := demoUsers[email].passwordHash;
      var inputHash := HashPassword(password);
      if storedHash == inputHash {
        r := LoginOutcome(true, "Login successful",
          Session(email, demoUsers[email].role, demoUsers[email].createdAt, true));
      } else {
        r := LoginOutcome(false, "Invalid credentials", NoSession);
      }
    }
  }

  // ---------------------------------------------------------------------------
  // Properties of the table
  // ---------------------------------------------------------------------------

  /** A failed signup leaves the table as it was; a successful one adds exactly the
      new email, with role "user", and happens exactly when every check passes and
      the email is new. */
  lemma SignupChangesAtMostOneEntry(users: UserTable, email: string, password: string, confirm: string, now: string)
    ensures var (after, r) := Signup(users, email, password, confirm, now);
      && (r.ok <==> SignupCheck(email, password, confirm).None? && email !in users)
      && (!r.ok ==> after == users)
      && (r.ok ==> after == users[email := UserRecord(HashPassword(password), now, "user")])
  {
  }

  /** After a successful signup the same password logs in with role "user"; any
      other password is refused. */
  lemma SignupThenLogin(users: UserTable, email: string, password: string, confirm: string,
                        now: string, attempt: string)
    requires Signup(users, email, password, confirm, now).1.ok
    ensures var after := Signup(users, email, password, confirm, now).0;
      && Login(after, email, password).ok
      && Login(after, email, password).data.role == "user"
      && (attempt != password ==> !Login(after, email, attempt).ok)
  {
    assert email != "" && password != "";
  }

  /** Signing up an existing email is refused whatever the password, and the stored
      password is kept. */
  lemma DuplicateSignupRefused(users: UserTable, email: string, password: string, confirm: string, now: string)
    requires email in users
    ensures !Signup(users, email, password, confirm, now).1.ok
    ensures Signup(users, email, password, confirm, now).0 == users
  {
  }

  /** The initial table holds exactly the two demo accounts, which log in with their
      demo passwords. */
  lemma DemoUsersAreTheTwoAccounts(now: string)
    ensures DemoUsers(now).Keys == {"admin@disaster.com", "user@disaster.com"}
    ensures DemoUsers(now)["admin@disaster.com"].role == "admin"
    ensures DemoUsers(now)["user@disaster.com"].role == "user"
    ensures Login(DemoUsers(now), "admin@disaster.com", "admin123").data.role == "admin"
    ensures Login(DemoUsers(now), "user@disaster.com", "user123").ok
    ensures !Login(DemoUsers(now), "user@disaster.com", "admin123").ok
  {
  }

  /** Login messages: emptiness is checked before the table, then the email, then
      the digest. */
  lemma LoginMessages(users: UserTable, email: string, password: string)
    ensures email == "" || password == "" ==>
      Login(users, email, password).message == "Email and password are required"
    ensures email != "" && password != "" && email !in users ==>
      Login(users, email, password).message == "User not found"
    ensures email != "" && password != "" && email in users && password != users[email].passwordHash.input ==>
      Login(users, email, password).message == "Invalid credentials"
  {
  }
}
