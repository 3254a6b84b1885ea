/**
 * The landing page's account logic (js/index.js): the registration
 * validator, the email shape test, input trimming and role defaulting in
 * the two submit handlers, the storage writes after a successful login or
 * registration, and the role-to-dashboard table.
 */
module Auth {
  import opened Options
  import opened JsText
  import opened Collections

  // ---------------------------------------------------------------------
  // isValidEmail: /^[^\s@]+@[^\s@]+\.[^\s@]+$/
  // ---------------------------------------------------------------------

  /** A character of the class `[^\s@]`. */
  predicate Plain(c: char)
  {
    !IsSpace(c) && c != '@'
  }

  /** A match of `[^\s@]+`. */
  predicate Segment(t: string)
  {
    |t| > 0 && forall k :: 0 <= k < |t| ==> Plain(t[k])
  }

  /**
   * The regular expression read as a grammar: the string splits as
   * segment, '@', segment, '.', segment, with the '@' at `at` and the
   * '.' at `dot`.
   */
  ghost predicate MatchesAt(s: string, at: int, dot: int)
  {
    0 < at < dot < |s| - 1 && s[at] == '@' && s[dot] == '.' &&
    Segment(s[..at]) && Segment(s[at + 1..dot]) && Segment(s[dot + 1..])
  }

  ghost predicate EmailPattern(s: string)
  {
    exists at, dot :: MatchesAt(s, at, dot)
  }

  /** The domain has a '.' that is neither its first nor its last character. */
  predicate HasInnerDot(domain: string)
  {
    exists k :: 0 < k < |domain| - 1 && domain[k] == '.'
  }

  /**
   * `isValidEmail`: no whitespace, a non-empty local part before the first
   * '@', no second '@', and an inner '.' in the domain.
   */
  predicate IsValidEmail(email: string)
  {
    var at := IndexOf(email, '@');
    (forall k :: 0 <= k < |email| ==> !IsSpace(email[k])) &&
    at > 0 && '@' !in email[at + 1..] && HasInnerDot(email[at + 1..])
  }

  /** The first occurrence of `x` is at `i` when `s[i]` is `x` and `x` is not before it. */
  lemma IndexOfAt(s: string, x: char, i: int)
    requires 0 <= i < |s| && s[i] == x && x !in s[..i]
    ensures IndexOf(s, x) == i
  {
    var j := IndexOf(s, x);
    assert forall m :: 0 <= m < i ==> s[..i][m] == s[m];
  }

  /** Whatever `isValidEmail` accepts splits as the regular expression requires. */
  lemma ValidEmailMatches(s: string)
    requires IsValidEmail(s)
    ensures EmailPattern(s)
  {
    var at := IndexOf(s, '@');
    var domain := s[at + 1..];
    var k :| 0 < k < |domain| - 1 && domain[k] == '.';
    var dot := at + 1 + k;
    assert s[at + 1..dot] == domain[..k];
    assert s[dot + 1..] == domain[k + 1..];
    assert forall m :: 0 <= m < at ==> s[..at][m] == s[m];
    assert forall m :: 0 <= m < k ==> domain[..k][m] == domain[m] == s[at + 1 + m];
    assert forall m :: dot + 1 <= m < |s| ==> s[m] == s[dot + 1..][m - dot - 1];
    assert MatchesAt(s, at, dot);
  }

  /** Whatever the regular expression matches, `isValidEmail` accepts. */
  lemma MatchIsValidEmail(s: string, at: int, dot: int)
    requires MatchesAt(s, at, dot)
    ensures IsValidEmail(s)
  {
    assert forall m :: 0 <= m < at ==> s[..at][m] == s[m];
    IndexOfAt(s, '@', at);
    var domain := s[at + 1..];
    assert forall m :: 0 <= m < |domain| ==> domain[m] == s[at + 1 + m];
    assert forall m :: at < m < dot ==> s[m] == s[at + 1..dot][m - at - 1];
    assert forall m :: dot < m < |s| ==> s[m] == s[dot + 1..][m - dot - 1];
    assert forall m :: 0 <= m < |s| ==> Plain(s[m]) || m == at || m == dot;
    assert domain[dot - at - 1] == '.';
  }

  /** `isValidEmail` accepts exactly the strings the regular expression matches. */
  lemma EmailValidIffPattern(s: string)
    ensures IsValidEmail(s) <==> EmailPattern(s)
  {
    if IsValidEmail(s) {
      ValidEmailMatches(s);
    }
    if EmailPattern(s) {
      var at, dot :| MatchesAt(s, at, dot);
      MatchIsValidEmail(s, at, dot);
    }
  }

  /** A plain address passes. */
  lemma EmailAccepted()
    ensures IsValidEmail("a@b.co")
  {
    assert "a@b.co"[2..][1] == '.';
  }

  /** A missing local part, a second '@' or a trailing dot fail. */
  lemma EmailRejected()
    ensures !IsValidEmail("@b.co") && !IsValidEmail("a@b@c.d") && !IsValidEmail("a@bc.")
  {
  }

  // ---------------------------------------------------------------------
  // validateRegistrationForm
  // ---------------------------------------------------------------------

  datatype RegistrationError =
    | FirstNameRequired
    | LastNameRequired
    | EmailRequired
    | InvalidEmail
    | PasswordTooShort
    | PasswordMismatch

  /** `validateRegistrationForm`: the message of the first failed check, or `None` when all pass. */
  function ValidateRegistrationForm(firstName: string, lastName: string, email: string,
                                    password: string, confirmPassword: string): (r: Option<RegistrationError>)
    ensures r.None? <==>
              firstName != "" && lastName != "" && email != "" && IsValidEmail(email) &&
              |password| >= 8 && password == confirmPassword
  {
    if firstName == "" then Some(FirstNameRequired)
    else if lastName == "" then Some(LastNameRequired)
    else if email == "" then Some(EmailRequired)
    else if !IsValidEmail(email) then Some(InvalidEmail)
    else if password == "" || |password| < 8 then Some(PasswordTooShort)
    else if password != confirmPassword then Some(PasswordMismatch)
    else None
  }

  /** A check of the form: whether it passed, and the message it shows otherwise. */
  datatype Check = Check(passed: bool, error: RegistrationError)

  /** The checks in the order the form runs them. */
  function RegistrationChecks(firstName: string, lastName: string, email: string,
                              password: string, confirmPassword: string): seq<Check>
  {
    [Check(firstName != "", FirstNameRequired),
     Check(lastName != "", LastNameRequired),
     Check(email != "", EmailRequired),
     Check(IsValidEmail(email), InvalidEmail),
     Check(|password| >= 8, PasswordTooShort),
     Check(password == confirmPassword, PasswordMismatch)]
  }

  /**
   * The validator reports the first failing check, in the fixed order, and
   * passes exactly when every check passes.
   */
  lemma ValidationStopsAtFirstFailure(firstName: string, lastName: string, email: string,
                                      password: string, confirmPassword: string)
    ensures var cs := RegistrationChecks(firstName, lastName, email, password, confirmPassword);
            var r := ValidateRegistrationForm(firstName, lastName, email, password, confirmPassword);
            (r.None? <==> forall k :: 0 <= k < |cs| ==> cs[k].passed) &&
            (r.Some? ==> exists k :: 0 <= k < |cs| && !cs[k].passed && cs[k].error == r.value &&
                                     forall j :: 0 <= j < k ==> cs[j].passed)
  {
    var cs := RegistrationChecks(firstName, lastName, email, password, confirmPassword);
    var r := ValidateRegistrationForm(firstName, lastName, email, password, confirmPassword);
    if r.Some? {
      var k := if firstName == "" then 0 else if lastName == "" then 1 else if email == "" then 2
               else if !IsValidEmail(email) then 3 else if |password| < 8 then 4 else 5;
      assert !cs[k].passed && cs[k].error == r.value;
    }
  }

  // ---------------------------------------------------------------------
  // The submit handlers: trimming, role default, storage writes, redirect
  // ---------------------------------------------------------------------

  /** The registration form's fields as typed; `role` is the checked radio button, if any. */
  datatype RegisterForm = RegisterForm(
    firstName: string, middleName: string, lastName: string,
    email: string, password: string, confirmPassword: string, role: Option<string>)

  datatype RegisterRequest = RegisterRequest(
    firstName: string, middleName: string, lastName: string,
    email: string, password: string, role: string)

  /** `roleElement ? roleElement.value : 'user'`. */
  function RoleOf(checked: Option<string>): (role: string)
    ensures checked.None? ==> role == "user"
    ensures checked.Some? ==> role == checked.value
  {
    match checked
    case None => "user"
    case Some(value) => value
  }

  /**
   * The register handler up to the request: every field is trimmed, the
   * role defaults to 'user', and a failed validation sends nothing.
   */
  function PrepareRegistration(form: RegisterForm): (r: Result)
    ensures r.Rejected? <==>
              ValidateRegistrationForm(Trim(form.firstName), Trim(form.lastName), Trim(form.email),
                                       Trim(form.password), Trim(form.confirmPassword)).Some?
    ensures r.Send? ==> r.request == RegisterRequest(
              Trim(form.firstName), Trim(form.middleName), Trim(form.lastName),
              Trim(form.email), Trim(form.password), RoleOf(form.role))
  {
    var firstName := Trim(form.firstName);
    var middleName := Trim(form.middleName);
    var lastName := Trim(form.lastName);
    var email := Trim(form.email);
    var password := Trim(form.password);
    var confirmPassword := Trim(form.confirmPassword);
    var role := RoleOf(form.role);
    match ValidateRegistrationForm(firstName, lastName, email, password, confirmPassword)
    case Some(e) => Rejected(e)
    case None => Send(RegisterRequest(firstName, middleName, lastName, email, password, role))
  }

  datatype Result = Rejected(error: RegistrationError) | Send(request: RegisterRequest)

  /** A whitespace-only first name is trimmed away and rejected before anything else. */
  lemma BlankFirstNameRejected(form: RegisterForm)
    requires AllSpace(form.firstName)
    ensures PrepareRegistration(form) == Rejected(FirstNameRequired)
  {
    TrimEmptyIffAllSpace(form.firstName);
  }

  /**
   * Passwords are trimmed too: surrounding spaces do not count towards the
   * eight characters, and a sent password never starts or ends with whitespace.
   */
  lemma SentPasswordIsTrimmed(form: RegisterForm)
    requires PrepareRegistration(form).Send?
    ensures var p := PrepareRegistration(form).request.password;
            |p| >= 8 && Trimmed(p)
  {
  }

  /** The login request: trimmed credentials and the role, 'user' by default. */
  datatype LoginRequest = LoginRequest(email: string, password: string, role: string)

  function PrepareLogin(email: string, password: string, checkedRole: Option<string>): (r: LoginRequest)
    ensures r.email == Trim(email) && r.password == Trim(password)
    ensures checkedRole.None? ==> r.role == "user"
    ensures checkedRole.Some? ==> r.role == checkedRole.value
  {
    LoginRequest(Trim(email), Trim(password), RoleOf(checkedRole))
  }

  /** Preparing an already prepared request, with its role checked, gives it back unchanged. */
  lemma LoginIsStable(email: string, password: string, checkedRole: Option<string>)
    ensures var r := PrepareLogin(email, password, checkedRole);
            PrepareLogin(r.email, r.password, Some(r.role)) == r
  {
  }

  /** What the server answered: success with the user record, an error, or nothing (a thrown fetch). */
  datatype AuthResponse = Threw | Failed(message: string) | Succeeded(userJson: string, csrfToken: string)

  /**
   * `localStorage` after the response: a success stores the user record,
   * the role and the CSRF token; any other outcome leaves it as it was.
   */
  function StoreSession(storage: map<string, string>, response: AuthResponse, role: string): (s: map<string, string>)
    ensures !response.Succeeded? ==> s == storage
    ensures response.Succeeded? ==>
              s.Keys == storage.Keys + {"userData", "userRole", "csrf_token"} &&
              s["userData"] == response.userJson && s["userRole"] == role &&
              s["csrf_token"] == response.csrfToken &&
              forall k :: k in storage && k !in {"userData", "userRole", "csrf_token"} ==> s[k] == storage[k]
  {
    if response.Succeeded? then
      storage["userData" := response.userJson]["userRole" := role]["csrf_token" := response.csrfToken]
    else storage
  }

  const Dashboards: map<string, string> := map[
    "user" := "/user/home.html",
    "barangay" := "/barangay/dashboard.html",
    "dispatcher" := "/dispatcher/dashboard.html",
    "agency" := "/agency/dashboard.html",
    "admin" := "/admin/dashboard.html"
  ]

  /** `redirectToDashboard`: the role's page, or the citizen home page. */
  function RedirectToDashboard(role: string): (path: string)
    ensures path in Dashboards.Values
    ensures role in Dashboards ==> path == Dashboards[role]
    ensures role !in Dashboards ==> path == "/user/home.html"
  {
    LookupOr(Dashboards, role, "user")
  }

  /** Where a login ends up: the dashboard of the role sent, only after a success. */
  function LoginRedirect(request: LoginRequest, response: AuthResponse): (path: Option<string>)
    ensures path.Some? <==> response.Succeeded?
    ensures path.Some? ==> path.value == RedirectToDashboard(request.role)
  {
    if response.Succeeded? then Some(RedirectToDashboard(request.role)) else None
  }

  /** Without a checked role, a successful login sends and stores 'user' and lands on the citizen home page. */
  lemma DefaultRoleLogin(email: string, password: string, userJson: string, csrfToken: string)
    ensures PrepareLogin(email, password, None).role == "user"
    ensures LoginRedirect(PrepareLogin(email, password, None), Succeeded(userJson, csrfToken)) ==
            Some("/user/home.html")
  {
    assert RedirectToDashboard("user") == "/user/home.html";
  }
}
