/** The session state shared by the application: the signed-in user, the professional
    flags set by a professional-code login, the test mode that signs in a stand-in user,
    the family mode, and the subscription flag. Browser storage is a string map. */
module AuthContext {
  import opened JsText

  datatype User = User(id: string, email: string, firstName: string, lastName: string)

  /** The stand-in user of test mode. */
  const TestUserId: string := "test-user-id"
  const TestUser: User := User(TestUserId, "test@dare.com", "Test", "User")

  const TestModeKey: string := "dare-test-mode"
  const ProfessionalCodeKey: string := "professionalCode"
  const FamilyModeKey: string := "family_auth_mode"
  const FamilyUserKey: string := "family_user_data"
  const FamilySessionKey: string := "family_session"
  const FamilyKeys: set<string> := {FamilyModeKey, FamilyUserKey, FamilySessionKey}

  /** `localStorage.getItem(key)`. */
  function GetItem(storage: map<string, string>, key: string): (item: Option<string>)
    ensures item.Some? <==> key in storage
    ensures item.Some? ==> item.value == storage[key]
  {
    if key in storage then Some(storage[key]) else None
  }

  // ------------------------------------------------------------------
  // Sign-up decision
  // ------------------------------------------------------------------

  datatype SignUpResponse = SignUpResponse(error: Option<string>, needsSubscription: bool)

  const AlreadyRegistered: string := "User already registered"

  /** signUp: an e-mail that already has a profile is refused before any account is
      created; otherwise the auth service's error is passed on, and only a patient needs
      to pick a subscription. */
  function SignUpDecision(profileExists: bool, authError: Option<string>, userType: Option<string>): (r: SignUpResponse)
    ensures profileExists ==> r == SignUpResponse(Some(AlreadyRegistered), false)
    ensures !profileExists ==> r.error == authError
    ensures !profileExists ==> (r.needsSubscription <==> userType == Some("patient"))
  {
    if profileExists then SignUpResponse(Some(AlreadyRegistered), false)
    else SignUpResponse(authError, userType == Some("patient"))
  }

  // ------------------------------------------------------------------
  // Professional-code login
  // ------------------------------------------------------------------

  /** The professional application found for a code. */
  datatype Application = Application(
    id: string, userId: Option<string>, email: string, status: string, codeExpiresAt: int)

  /** How a professional is authenticated: the password of an existing account, or a new
      account created with the code as password. */
  datatype AuthPath = SignInExisting | CreateAccount

  /** The answer of the auth service, or an exception. */
  datatype AuthAnswer = AuthOk | AuthError(message: string) | AuthThrew

  datatype LoginResult = LoginOk | LoginFailed(error: string)

  const InvalidCode: string := "Invalid professional code"
  const ExpiredCode: string := "Professional code has expired"
  const NotApproved: string := "Professional account not approved"
  const Unexpected: string := "An unexpected error occurred"

  function AuthPathFor(app: Application): (path: AuthPath)
    ensures path == SignInExisting <==> TruthyText(app.userId)
  {
    if TruthyText(app.userId) then SignInExisting else CreateAccount
  }

  /** The checks of signInWithProfessionalCode, in order: the code must be known, not
      expired at `now`, and approved, and then the authentication must succeed. */
  function ProfessionalLogin(found: Option<Application>, now: int, auth: AuthAnswer): (r: LoginResult)
  {
    if found.None? then LoginFailed(InvalidCode)
    else if found.value.codeExpiresAt < now then LoginFailed(ExpiredCode)
    else if found.value.status != "approved" then LoginFailed(NotApproved)
    else match auth
      case AuthOk => LoginOk
      case AuthError(message) => LoginFailed(message)
      case AuthThrew => LoginFailed(Unexpected)
  }

  /** The login succeeds exactly when the code is known, current and approved and the
      authentication succeeds; each failure reports the first check that failed. */
  lemma ProfessionalLoginOrder(found: Option<Application>, now: int, auth: AuthAnswer)
    ensures ProfessionalLogin(found, now, auth) == LoginOk <==>
              found.Some? && now <= found.value.codeExpiresAt && found.value.status == "approved" && auth == AuthOk
    ensures found.None? ==> ProfessionalLogin(found, now, auth) == LoginFailed(InvalidCode)
    ensures found.Some? && found.value.codeExpiresAt < now ==> ProfessionalLogin(found, now, auth) == LoginFailed(ExpiredCode)
    ensures found.Some? && now <= found.value.codeExpiresAt && found.value.status != "approved" ==>
              ProfessionalLogin(found, now, auth) == LoginFailed(NotApproved)
  {
  }

  /** An unknown code is reported as such whatever the clock and the auth service say;
      an expired code is reported as expired even when it is not approved. */
  lemma EarlierChecksWin(found: Option<Application>, now: int, auth1: AuthAnswer, auth2: AuthAnswer)
    requires found.None? || found.value.codeExpiresAt < now || found.value.status != "approved"
    ensures ProfessionalLogin(found, now, auth1) == ProfessionalLogin(found, now, auth2)
    ensures ProfessionalLogin(found, now, auth1).LoginFailed?
  {
  }

  // ------------------------------------------------------------------
  // The session state
  // ------------------------------------------------------------------

  datatype Auth = Auth(
    user: Option<User>, session: Option<string>, isProfessional: bool,
    professionalCode: Option<string>, professionalData: Option<Application>,
    isTestMode: bool, isFamilyMode: bool, hasSubscription: bool,
    storage: map<string, string>)

  /** The subscription the application sees: test mode counts as subscribed. */
  function EffectiveSubscription(a: Auth): (subscribed: bool)
    ensures a.isTestMode ==> subscribed
    ensures !a.isTestMode ==> subscribed == a.hasSubscription
  {
    a.isTestMode || a.hasSubscription
  }

  function BoolText(b: bool): (text: string)
    ensures text == "true" <==> b
  {
    if b then "true" else "false"
  }

  /** toggleTestMode: flip the mode and persist it. Turning it on grants the
      subscription and signs in the stand-in user when nobody is signed in; turning it
      off signs the stand-in user out and drops the subscription, and leaves a real user
      alone. */
  function ToggleTestMode(a: Auth): (b: Auth)
    ensures b.isTestMode == !a.isTestMode
    ensures b.storage == a.storage[TestModeKey := BoolText(b.isTestMode)]
    ensures b.isTestMode ==> b.hasSubscription && b.user.Some?
    ensures b.isTestMode ==> b.user == if a.user.None? then Some(TestUser) else a.user
    ensures !b.isTestMode && a.user.Some? && a.user.value.id == TestUserId ==>
              b.user == None && b.session == None && !b.hasSubscription
    ensures !b.isTestMode && !(a.user.Some? && a.user.value.id == TestUserId) ==>
              b.user == a.user && b.session == a.session && b.hasSubscription == a.hasSubscription
    ensures b.isTestMode ==> b.session == a.session
    ensures b.isProfessional == a.isProfessional && b.professionalCode == a.professionalCode
    ensures b.professionalData == a.professionalData && b.isFamilyMode == a.isFamilyMode
  {
    var on := !a.isTestMode;
    var stored := a.(isTestMode := on, storage := a.storage[TestModeKey := BoolText(on)]);
    if on then
      stored.(hasSubscription := true, user := if a.user.None? then Some(TestUser) else a.user)
    else if a.user.Some? && a.user.value.id == TestUserId then
      stored.(user := None, session := None, hasSubscription := false)
    else stored
  }

  /** signOut: on success the professional flags, the family mode and the three family
      keys are cleared; on error nothing changes. The user and session are cleared by the
      auth service's state-change notification, which is not part of this step. */
  function SignOut(a: Auth, failed: bool): (b: Auth)
    ensures failed ==> b == a
    ensures !failed ==> !b.isProfessional && b.professionalData == None && !b.isFamilyMode
    ensures !failed ==> (forall k :: k in b.storage <==> k in a.storage && k !in FamilyKeys)
    ensures !failed ==> (forall k :: k in b.storage ==> b.storage[k] == a.storage[k])
    ensures b.user == a.user && b.session == a.session && b.isTestMode == a.isTestMode
    ensures b.hasSubscription == a.hasSubscription && b.professionalCode == a.professionalCode
  {
    if failed then a
    else a.(isProfessional := false, professionalData := None, isFamilyMode := false,
            storage := a.storage - FamilyKeys)
  }

  /** A professional-code login records the code, the flag and the application only
      when it succeeds. */
  function AfterProfessionalLogin(a: Auth, code: string, found: Option<Application>, now: int, auth: AuthAnswer): (b: Auth)
    ensures ProfessionalLogin(found, now, auth).LoginFailed? ==> b == a
    ensures ProfessionalLogin(found, now, auth) == LoginOk ==>
              b == a.(professionalCode := Some(code), isProfessional := true, professionalData := found)
  {
    if ProfessionalLogin(found, now, auth) == LoginOk then
      a.(professionalCode := Some(code), isProfessional := true, professionalData := found)
    else a
  }

  /** Turning test mode on and off again, with nobody signed in, signs the stand-in user in
      and out again: the mode, the user and the session are back where they started. */
  lemma {:induction false} ToggleTwiceWithoutUser(a: Auth)
    requires !a.isTestMode && a.user.None?
    ensures var b := ToggleTestMode(ToggleTestMode(a));
            !b.isTestMode && b.user == None && b.session == None && !b.hasSubscription &&
            !EffectiveSubscription(b) && b.storage == a.storage[TestModeKey := "false"]
  {
    var on := ToggleTestMode(a);
    assert on.user == Some(TestUser) && on.isTestMode;
    var off := ToggleTestMode(on);
    assert off.storage == on.storage[TestModeKey := "false"];
    assert on.storage[TestModeKey := "true"][TestModeKey := "false"] == a.storage[TestModeKey := "false"];
  }

  /** A real user is never signed out by test mode. */
  lemma ToggleKeepsRealUser(a: Auth)
    requires a.user.Some? && a.user.value.id != TestUserId
    ensures ToggleTestMode(a).user == a.user
    ensures ToggleTestMode(ToggleTestMode(a)).user == a.user
  {
  }

  /** While test mode is on the application sees a subscription. */
  lemma TestModeIsSubscribed(a: Auth)
    requires !a.isTestMode
    ensures EffectiveSubscription(ToggleTestMode(a))
  {
  }

  /** The initial state read from storage: the test mode, family mode and stored
      professional code survive a reload. */
  function InitialAuth(storage: map<string, string>): (a: Auth)
    ensures a.isTestMode <==> GetItem(storage, TestModeKey) == Some("true")
    ensures a.isFamilyMode <==> GetItem(storage, FamilyModeKey) == Some("true")
    ensures a.professionalCode == GetItem(storage, ProfessionalCodeKey)
    ensures a.user == None && a.session == None && !a.isProfessional && !a.hasSubscription
  {
    Auth(None, None, false, GetItem(storage, ProfessionalCodeKey), None,
         GetItem(storage, TestModeKey) == Some("true"), GetItem(storage, FamilyModeKey) == Some("true"),
         false, storage)
  }

  /** Reloading after toggling test mode brings the new mode back. */
  lemma TestModePersists(a: Auth)
    ensures InitialAuth(ToggleTestMode(a).storage).isTestMode == ToggleTestMode(a).isTestMode
  {
  }

  class AuthProvider {
    var user: Option<User>
    var session: Option<string>
    var isProfessional: bool
    var professionalCode: Option<string>
    var professionalData: Option<Application>
    var isTestMode: bool
    var isFamilyMode: bool
    var hasSubscription: bool
    var storage: map<string, string>

    function State(): Auth
      reads this
    {
      Auth(user, session, isProfessional, professionalCode, professionalData,
           isTestMode, isFamilyMode, hasSubscription, storage)
    }

    constructor (stored: map<string, string>)
      ensures State() == InitialAuth(stored)
    {
      user, session, isProfessional := None, None, false;
      professionalCode, professionalData := GetItem(stored, ProfessionalCodeKey), None;
      isTestMode := GetItem(stored, TestModeKey) == Some("true");
      isFamilyMode := GetItem(stored, FamilyModeKey) == Some("true");
      hasSubscription, storage := false, stored;
    }

    /** The subscription flag the provider exposes. */
    function Subscribed(): (subscribed: bool)
      reads this
    {
      EffectiveSubscription(State())
    }

    method Toggle()
      modifies this
      ensures State() == ToggleTestMode(old(State()))
    {
      var newTestMode := !isTestMode;
      isTestMode := newTestMode;
      storage := storage[TestModeKey := BoolText(newTestMode)];
      if newTestMode {
        hasSubscription := true;
        if user.None? {
          user := Some(TestUser);
        }
      } else if user.Some? && user.value.id == TestUserId {
        user := None;
        session := None;
        hasSubscription := false;
      }
    }

    /** The test-mode effect: in test mode with nobody signed in, the stand-in user is
        signed in with a subscription. */
    method TestModeEffect()
      modifies this
      ensures isTestMode && old(user).None? ==> State() == old(State()).(user := Some(TestUser), hasSubscription := true)
      ensures !(isTestMode && old(user).None?) ==> State() == old(State())
    {
      if isTestMode && user.None? {
        user := Some(TestUser);
        hasSubscription := true;
      }
    }

    method SignOutWith(failed: bool) returns (error: bool)
      modifies this
      ensures error == failed
      ensures State() == SignOut(old(State()), failed)
    {
      if !failed {
        isProfessional := false;
        professionalData := None;
        storage := storage - FamilyKeys;
        isFamilyMode := false;
      }
      return failed;
    }

    /** signInWithProfessionalCode with the backend's answers as inputs: the application
        found for the code, the clock and the authentication result. */
    method SignInWithProfessionalCode(code: string, found: Option<Application>, now: int, auth: AuthAnswer)
      returns (result: LoginResult, path: Option<AuthPath>)
      modifies this
      ensures result == ProfessionalLogin(found, now, auth)
      ensures State() == AfterProfessionalLogin(old(State()), code, found, now, auth)
      ensures path.Some? <==> found.Some? && now <= found.value.codeExpiresAt && found.value.status == "approved"
      ensures path.Some? ==> path.value == AuthPathFor(found.value)
      ensures result == LoginOk ==> professionalCode == Some(code) && isProfessional
    {
      path := None;
      if found.None? {
        return LoginFailed(InvalidCode), path;
      }
      var app := found.value;
      if app.codeExpiresAt < now {
        return LoginFailed(ExpiredCode), path;
      }
      if app.status != "approved" {
        return LoginFailed(NotApproved), path;
      }
      path := Some(AuthPathFor(app));
      match auth {
        case AuthError(message) => return LoginFailed(message), path;
        case AuthThrew => return LoginFailed(Unexpected), path;
        case AuthOk =>
      }
      professionalCode := Some(code);
      isProfessional := true;
      professionalData := found;
      return LoginOk, path;
    }
  }
}
