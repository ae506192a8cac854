/**
 * The login / register screen: the credential validator and the submit
 * handler that either stores a session token, moves on to OTP entry, or
 * records the server's complaint under the `api` key.
 */
module Auth {
  import opened Outcomes
  import opened Session

  const EmailRequired := "Email is required"
  const EmailInvalid := "Email is invalid"
  const PasswordRequired := "Password is required"
  const PasswordTooShort := "Password must be at least 6 characters"
  const UsernameRequired := "Username is required"
  const GenericFailure := "An error occurred. Please try again."
  const MinPasswordLength := 6

  const DashboardRoute := "/dashboard"
  const VerifyOtpRoutePrefix := "/auth/verify-otp?email="

  /** The keys the validator may produce. */
  const FieldKeys: set<string> := {"email", "password", "username"}

  // ---------------------------------------------------------------------
  // The email pattern /\S+@\S+\.\S+/, unanchored, as RegExp.test sees it
  // ---------------------------------------------------------------------

  /** JavaScript's `\s`: the WhiteSpace and LineTerminator code points. */
  predicate IsSpace(c: char)
    ensures c == ' ' || c == '\t' || c == '\n' ==> IsSpace(c)
    ensures '!' <= c <= '~' ==> !IsSpace(c)
  {
    var n := c as int;
    || n == 0x20 || 0x09 <= n <= 0x0D || n == 0xA0 || n == 0x1680
    || 0x2000 <= n <= 0x200A || n == 0x2028 || n == 0x2029
    || n == 0x202F || n == 0x205F || n == 0x3000 || n == 0xFEFF
  }

  predicate AllNonSpace(s: string) {
    forall k :: 0 <= k < |s| ==> !IsSpace(s[k])
  }

  /**
   * The pattern matches with its `@` at index `at` and its `\.` at index
   * `dot`: one non-space character before `@` suffices for the first `\S+`,
   * the characters strictly between are the second `\S+`, and one non-space
   * character after the dot suffices for the third.
   */
  predicate EmailShapeAt(s: string, at: int, dot: int)
    ensures EmailShapeAt(s, at, dot) ==>
      && 1 <= at && at + 1 < dot < |s| - 1 && s[at] == '@' && s[dot] == '.'
      && forall k :: at - 1 <= k <= dot + 1 ==> !IsSpace(s[k])
  {
    && 1 <= at && at + 2 <= dot && dot + 1 < |s|
    && !IsSpace(s[at - 1]) && s[at] == '@'
    && AllNonSpace(s[at + 1..dot])
    && s[dot] == '.' && !IsSpace(s[dot + 1])
  }

  predicate MatchesEmailPattern(s: string)
    ensures MatchesEmailPattern(s) ==> |s| >= 5
    ensures MatchesEmailPattern(s) ==> exists k :: 0 < k < |s| - 1 && s[k] == '@'
  {
    exists at, dot | 0 <= at < |s| && 0 <= dot < |s| :: EmailShapeAt(s, at, dot)
  }

  /** `s.length`: JavaScript counts UTF-16 code units, two for a character outside the BMP. */
  function Utf16Length(s: string): (n: nat)
    ensures |s| <= n <= 2 * |s|
  {
    if s == [] then 0
    else (if s[0] as int >= 0x1_0000 then 2 else 1) + Utf16Length(s[1..])
  }

  /** For text inside the Basic Multilingual Plane the JavaScript length is the character count. */
  lemma {:induction false} Utf16LengthOfBmp(s: string)
    requires forall k :: 0 <= k < |s| ==> (s[k] as int) < 0x1_0000
    ensures Utf16Length(s) == |s|
  {
    if s != [] {
      Utf16LengthOfBmp(s[1..]);
    }
  }

  // ---------------------------------------------------------------------
  // validate (app/auth/page.js:19-31)
  // ---------------------------------------------------------------------

  /**
   * The field-to-message map built by `validate`. The three checks are
   * independent: each key depends on its own field only.
   */
  function Validate(email: string, username: string, password: string, isLogin: bool): (errs: map<string, string>)
    ensures errs.Keys <= FieldKeys
    ensures "email" in errs <==> email == "" || !MatchesEmailPattern(email)
    ensures "email" in errs ==> errs["email"] == (if email == "" then EmailRequired else EmailInvalid)
    ensures "password" in errs <==> Utf16Length(password) < MinPasswordLength
    ensures "password" in errs ==> errs["password"] == (if password == "" then PasswordRequired else PasswordTooShort)
    ensures "username" in errs <==> !isLogin && username == ""
    ensures "username" in errs ==> errs["username"] == UsernameRequired
  {
    var emailErrors :=
      if email == "" then map["email" := EmailRequired]
      else if !MatchesEmailPattern(email) then map["email" := EmailInvalid]
      else map[];
    var passwordErrors :=
      if password == "" then map["password" := PasswordRequired]
      else if Utf16Length(password) < MinPasswordLength then map["password" := PasswordTooShort]
      else map[];
    var usernameErrors :=
      if !isLogin && username == "" then map["username" := UsernameRequired] else map[];
    emailErrors + passwordErrors + usernameErrors
  }

  /** `validate()` returns true exactly when every field passes its rule. */
  lemma ValidateAcceptsIff(email: string, username: string, password: string, isLogin: bool)
    ensures Validate(email, username, password, isLogin) == map[] <==>
      && email != "" && MatchesEmailPattern(email)
      && Utf16Length(password) >= MinPasswordLength
      && (isLogin || username != "")
  {
  }

  /** In login mode the username is never looked at. */
  lemma LoginIgnoresUsername(email: string, u1: string, u2: string, password: string)
    ensures Validate(email, u1, password, true) == Validate(email, u2, password, true)
  {
  }

  /** The pattern is unanchored: a match anywhere survives any text around it. */
  lemma MatchSurvivesContext(prefix: string, s: string, suffix: string)
    requires MatchesEmailPattern(s)
    ensures MatchesEmailPattern(prefix + s + suffix)
  {
    var at, dot :| 0 <= at < |s| && 0 <= dot < |s| && EmailShapeAt(s, at, dot);
    var t := prefix + s + suffix;
    var p := |prefix|;
    assert t[p + at + 1..p + dot] == s[at + 1..dot];
    assert EmailShapeAt(t, p + at, p + dot);
  }

  /** Without an `@` nothing matches. */
  lemma NoAtSignNoMatch(s: string)
    requires forall k :: 0 <= k < |s| ==> s[k] != '@'
    ensures !MatchesEmailPattern(s)
  {
  }

  /** `"a@b.co"` passes the pattern; `"not-an-email"` is flagged as invalid. */
  lemma EmailExamples()
    ensures MatchesEmailPattern("a@b.co")
    ensures !MatchesEmailPattern("not-an-email")
    ensures Validate("not-an-email", "", "secret", true) == map["email" := EmailInvalid]
  {
    assert EmailShapeAt("a@b.co", 1, 3);
    var bad := "not-an-email";
    assert forall k :: 0 <= k < |bad| ==> bad[k] != '@';
    NoAtSignNoMatch(bad);
  }

  /** Password length boundary: five characters fail, six pass. */
  lemma PasswordBoundary()
    ensures Validate("a@b.co", "", "12345", true) == map["password" := PasswordTooShort]
    ensures Validate("a@b.co", "", "123456", true) == map[]
    ensures Validate("a@b.co", "", "", true) == map["password" := PasswordRequired]
  {
    EmailExamples();
    assert Utf16Length("12345") == 5;
    assert Utf16Length("123456") == 6;
  }

  /** `localStorage.setItem` stores `String(value)`: an absent token becomes the text "undefined". */
  function StoredText(token: Option<string>): (r: string)
    ensures token.Some? ==> r == token.value
    ensures token.None? ==> r == "undefined"
  {
    match token
    case Some(t) => t
    case None => "undefined"
  }

  /** The request body each mode posts. */
  datatype Credentials =
    | Login(email: string, password: string)
    | Register(email: string, username: string, password: string)

  // ---------------------------------------------------------------------
  // The screen's state and handlers (app/auth/page.js:9-73, 137)
  // ---------------------------------------------------------------------

  class AuthPage {
    var isLogin: bool
    var email: string
    var username: string
    var password: string
    var errors: map<string, string>
    var loading: bool
    /** The last `router.push` target, `None` while the screen stays put. */
    var route: Option<string>
    const store: SessionStore

    constructor (store: SessionStore)
      ensures this.store == store
      ensures isLogin && email == "" && username == "" && password == ""
      ensures errors == map[] && !loading && route == None
    {
      this.store := store;
      isLogin, email, username, password := true, "", "", "";
      errors, loading, route := map[], false, None;
    }

    /** The "Sign Up" / "Login" link: flips the mode and nothing else. */
    method ToggleMode()
      modifies this`isLogin
      ensures isLogin == !old(isLogin)
    {
      isLogin := !isLogin;
    }

    /**
     * `handleSubmit`, with `reply` the outcome of the login or register
     * request. `sent` is the request that was posted, `None` when validation
     * stopped the handler; `loadingAtCall` is `loading` while it was awaited.
     * A failure merges `api` into `errors` as they stood before the submit,
     * because the handler's closure captured that value.
     */
    method HandleSubmit(reply: Reply<Option<string>>) returns (sent: Option<Credentials>, ghost loadingAtCall: bool)
      modifies this`errors, this`loading, this`route, store`token
      ensures var fieldErrors := Validate(email, username, password, isLogin);
        fieldErrors != map[] ==>
          && sent == None && errors == fieldErrors
          && loading == old(loading) && route == old(route) && store.token == old(store.token)
      ensures Validate(email, username, password, isLogin) == map[] ==>
        && sent == Some(if isLogin then Login(email, password) else Register(email, username, password))
        && loadingAtCall && !loading
      ensures Validate(email, username, password, isLogin) == map[] && reply.Ok? ==>
        && errors == map[]
        && (isLogin ==> store.token == Some(StoredText(reply.data)) && route == Some(DashboardRoute))
        && (!isLogin ==> store.token == old(store.token) && route == Some(VerifyOtpRoutePrefix + email))
      ensures Validate(email, username, password, isLogin) == map[] && !reply.Ok? ==>
        && errors == old(errors)["api" := OrFallback(ServerMessage(reply), GenericFailure)]
        && route == old(route) && store.token == old(store.token)
    {
      var before := errors;
      var fieldErrors := Validate(email, username, password, isLogin);
      errors := fieldErrors;
      if fieldErrors != map[] {
        return None, false;
      }
      loading := true;
      sent := Some(if isLogin then Login(email, password) else Register(email, username, password));
      loadingAtCall := loading;
      match reply {
        case Ok(token) =>
          if isLogin {
            store.Save(StoredText(token));
            route := Some(DashboardRoute);
          } else {
            route := Some(VerifyOtpRoutePrefix + email);
          }
        case _ =>
          errors := before["api" := OrFallback(ServerMessage(reply), GenericFailure)];
      }
      loading := false;
    }
  }

  /** A login answered with token "T" leaves "T" in the store and opens the dashboard. */
  method LoginScenario()
  {
    var store := new SessionStore(None);
    var page := new AuthPage(store);
    page.email, page.password := "a@b.co", "secret";
    EmailExamples();
    assert Utf16Length("secret") == 6;
    var sent, _ := page.HandleSubmit(Ok(Some("T")));
    assert sent == Some(Login("a@b.co", "secret"));
    assert store.token == Some("T") && page.route == Some(DashboardRoute);
  }

  /** A login refused with 401 and a message leaves the store empty and shows the message. */
  method RejectedLoginScenario()
  {
    var store := new SessionStore(None);
    var page := new AuthPage(store);
    page.email, page.password := "a@b.co", "secret";
    EmailExamples();
    assert Utf16Length("secret") == 6;
    var _, _ := page.HandleSubmit(Rejected(401, Some("Invalid credentials")));
    assert store.token == None;
    assert page.errors == map["api" := "Invalid credentials"];
  }
}
