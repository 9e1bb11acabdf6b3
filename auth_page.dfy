/** The sign-in page: patient sign-in and sign-up, the family access form and the
    professional-code form. Messages are translation keys or texts passed through from
    the backend; the page's storage is a string map. */
module AuthPage {
  import opened JsText
  import AuthContext

  /** A message shown on the page: a translation key, a text from the backend, or two
      translated keys joined by a space. */
  datatype Message = Key(key: string) | Text(text: string) | Keys(first: string, second: string)

  // ------------------------------------------------------------------
  // Patient sign-in
  // ------------------------------------------------------------------

  const InvalidCredentials: string := "Invalid login credentials"
  const EmailNotConfirmed: string := "Email not confirmed"

  /** The message shown for a sign-in error: the two known errors are recognised anywhere
      in the message, the credentials error first, and anything else is shown as is. */
  function SignInError(message: string): (shown: Message)
    ensures Includes(message, InvalidCredentials) ==> shown == Key("auth.invalidCredentials")
    ensures !Includes(message, InvalidCredentials) && Includes(message, EmailNotConfirmed) ==>
              shown == Key("auth.emailNotConfirmed")
    ensures !Includes(message, InvalidCredentials) && !Includes(message, EmailNotConfirmed) ==>
              shown == Text(message)
  {
    if Includes(message, InvalidCredentials) then Key("auth.invalidCredentials")
    else if Includes(message, EmailNotConfirmed) then Key("auth.emailNotConfirmed")
    else Text(message)
  }

  /** Any message that contains one of the known errors, wherever it occurs, is mapped to
      its own message and never passed through. */
  lemma SignInErrorRecognisesContext(before: string, after: string)
    ensures SignInError(before + InvalidCredentials + after) == Key("auth.invalidCredentials")
  {
    var m := before + InvalidCredentials + after;
    assert OccursAt(m, InvalidCredentials, |before|) by {
      assert m[|before|..|before| + |InvalidCredentials|] == InvalidCredentials;
    }
    IncludesAt(m, InvalidCredentials);
  }

  /** The result of signIn: no error, an error message, or an exception. */
  datatype SignInAnswer = SignedIn | SignInFailed(message: string) | SignInThrew

  // ------------------------------------------------------------------
  // Patient sign-up
  // ------------------------------------------------------------------

  /** The minimum password length. */
  const MinPasswordLength: nat := 6

  datatype SignUpForm = SignUpForm(email: string, password: string, confirmPassword: string,
                                   firstName: string, lastName: string)

  const EmptySignUpForm: SignUpForm := SignUpForm("", "", "", "", "")

  /** The sign-up checks, in order: the two passwords must agree, then be at least six
      characters long. */
  function SignUpCheck(password: string, confirmPassword: string): (error: Option<Message>)
    ensures error == Some(Key("auth.passwordMismatch")) <==> password != confirmPassword
    ensures error == Some(Key("auth.passwordTooShort")) <==>
              password == confirmPassword && |password| < MinPasswordLength
    ensures error == None <==> password == confirmPassword && |password| >= MinPasswordLength
  {
    if password != confirmPassword then Some(Key("auth.passwordMismatch"))
    else if |password| < MinPasswordLength then Some(Key("auth.passwordTooShort"))
    else None
  }

  /** A mismatch is reported even for a short password: the mismatch check comes first. */
  lemma MismatchBeforeLength(password: string, confirmPassword: string)
    requires password != confirmPassword && |password| < MinPasswordLength
    ensures SignUpCheck(password, confirmPassword) == Some(Key("auth.passwordMismatch"))
  {
  }

  /** The message shown for a sign-up error. */
  function SignUpError(message: string): (shown: Message)
    ensures Includes(message, AuthContext.AlreadyRegistered) ==> shown == Key("auth.userAlreadyExists")
    ensures !Includes(message, AuthContext.AlreadyRegistered) ==> shown == Text(message)
  {
    if Includes(message, AuthContext.AlreadyRegistered) then Key("auth.userAlreadyExists") else Text(message)
  }

  /** An e-mail that already has a profile is reported as an existing user. */
  lemma ExistingProfileIsReported(authError: Option<string>, userType: Option<string>)
    ensures var r := AuthContext.SignUpDecision(true, authError, userType);
            r.error.Some? && SignUpError(r.error.value) == Key("auth.userAlreadyExists")
  {
    assert Includes(AuthContext.AlreadyRegistered, AuthContext.AlreadyRegistered) by {
      assert AuthContext.AlreadyRegistered <= AuthContext.AlreadyRegistered;
    }
  }

  /** What the page asks the auth service to create. */
  datatype SignUpRequest = SignUpRequest(email: string, password: string, firstName: string,
                                         lastName: string, userType: string)

  /** The answer of signUp, or an exception with its message if it is an Error. */
  datatype SignUpAnswer = Answered(response: AuthContext.SignUpResponse) | SignUpThrew(errorMessage: Option<string>)

  // ------------------------------------------------------------------
  // Family access
  // ------------------------------------------------------------------

  const AccessCodeLength: nat := 8
  const BadAccessCode: string := "Please enter a valid 8-character access code"
  const MissingPhone: string := "Please enter your phone number"

  datatype FamilyCheck = FamilyOk(accessCode: string, phone: string) | FamilyRejected(error: string)

  /** The family form's checks, made before any lookup: the trimmed, upper-cased code must
      have exactly eight characters, then the trimmed phone must not be empty. */
  function FamilyAccessCheck(patientCode: string, phone: string): (r: FamilyCheck)
    ensures r == FamilyRejected(BadAccessCode) <==> |Trim(patientCode)| != AccessCodeLength
    ensures r == FamilyRejected(MissingPhone) <==> |Trim(patientCode)| == AccessCodeLength && Trim(phone) == ""
    ensures r.FamilyOk? <==> |Trim(patientCode)| == AccessCodeLength && Trim(phone) != ""
    ensures r.FamilyOk? ==> r.accessCode == ToUpper(Trim(patientCode)) && r.phone == Trim(phone)
  {
    var accessCode := ToUpper(Trim(patientCode));
    var phoneNumber := Trim(phone);
    if accessCode == "" || |accessCode| != AccessCodeLength then FamilyRejected(BadAccessCode)
    else if phoneNumber == "" then FamilyRejected(MissingPhone)
    else FamilyOk(accessCode, phoneNumber)
  }

  /** An accepted code is eight characters with no lower-case letter and no surrounding
      whitespace: upper-casing or trimming it again changes nothing. */
  lemma AccessCodeIsCanonical(patientCode: string, phone: string)
    requires FamilyAccessCheck(patientCode, phone).FamilyOk?
    ensures var code := FamilyAccessCheck(patientCode, phone).accessCode;
            |code| == AccessCodeLength && (forall i :: 0 <= i < |code| ==> !('a' <= code[i] <= 'z')) &&
            ToUpper(code) == code
    ensures var code := FamilyAccessCheck(patientCode, phone).accessCode;
            !IsJsWhitespace(code[0]) && !IsJsWhitespace(code[|code| - 1]) && Trim(code) == code
  {
    var t := Trim(patientCode);
    var code := ToUpper(t);
    ToUpperIdempotent(t);
    ToUpperKeepsWhitespace(t);
    assert IsJsWhitespace(code[0]) <==> IsJsWhitespace(t[0]);
    assert IsJsWhitespace(code[|code| - 1]) <==> IsJsWhitespace(t[|t| - 1]);
    TrimKeepsTrimmed(code);
  }

  /** `full_name.split(' ')[0]` and `full_name.split(' ').slice(1).join(' ')`. */
  function SplitFullName(fullName: string): (names: (string, string))
  {
    var parts := Split(fullName, ' ');
    (parts[0], Join(parts[1..], ' '))
  }

  /** The first name has no space; first name, a space and the last name rebuild any name
      that contains a space, and a name without a space is all first name. */
  lemma SplitFullNameRebuilds(fullName: string)
    ensures ' ' !in SplitFullName(fullName).0
    ensures ' ' in fullName ==> SplitFullName(fullName).0 + " " + SplitFullName(fullName).1 == fullName
    ensures ' ' !in fullName ==> SplitFullName(fullName) == (fullName, "")
  {
    var parts := Split(fullName, ' ');
    SplitCount(fullName, ' ');
    JoinSplit(fullName, ' ');
    if ' ' in fullName {
      assert Join(parts, ' ') == parts[0] + [' '] + Join(parts[1..], ' ');
    } else {
      SplitWithoutSeparator(fullName, ' ');
    }
  }

  /** The patient found for the access code and the family member found for the phone. */
  datatype PatientProfile = PatientProfile(userId: string, firstName: string, lastName: string)
  datatype FamilyMember = FamilyMember(id: string, fullName: string, phone: string, permissionLevel: string)

  /** The family session stored on success. */
  datatype FamilySession = FamilySession(
    familyMemberId: string, familyMemberName: string, familyMemberPhone: string,
    patientUserId: string, patientName: string, accessCode: string, permissionLevel: string,
    loginTime: string)

  /** The stand-in user stored for the family member: the patient's id, the member's phone as
      e-mail and the member's name split in two. */
  datatype FamilyUser = FamilyUser(id: string, email: string, firstName: string, lastName: string)

  const InvalidAccessCode: string := "Invalid access code"
  const NoFamilyAccess: string := "No family access found for this phone number. Please check your number or ask the patient to add you."

  // ------------------------------------------------------------------
  // Professional code
  // ------------------------------------------------------------------

  const ProfessionalCodeKey: string := "professionalCode"

  /** The result of the code login, or an exception. */
  datatype CodeLoginAnswer = CodeLoginOk | CodeLoginFailed(error: Option<string>) | CodeLoginThrew

  class AuthForm {
    var error: Option<Message>
    var success: Option<Message>
    var showPlanSelection: bool
    var signUpForm: SignUpForm
    var professionalCode: string
    var storage: map<string, string>
    /** The family session and family user written to storage as JSON. */
    var familySession: Option<FamilySession>
    var familyUser: Option<FamilyUser>

    /** handlePatientSignIn: the mapped error, or navigation to the home page. */
    method PatientSignIn(answer: SignInAnswer) returns (navigate: bool)
      modifies this
      ensures navigate <==> answer == SignedIn
      ensures answer == SignedIn ==> error == Some(Text(""))
      ensures answer.SignInFailed? ==> error == Some(SignInError(answer.message))
      ensures answer == SignInThrew ==> error == Some(Key("auth.connectionError"))
      ensures success == old(success) && showPlanSelection == old(showPlanSelection)
      ensures signUpForm == old(signUpForm) && professionalCode == old(professionalCode)
      ensures storage == old(storage) && familySession == old(familySession) && familyUser == old(familyUser)
    {
      error := Some(Text(""));
      match answer {
        case SignedIn => return true;
        case SignInFailed(message) =>
          error := Some(SignInError(message));
          return false;
        case SignInThrew =>
          error := Some(Key("auth.connectionError"));
          return false;
      }
    }

    /** handlePatientSignUp. A form that fails the checks shows the error and asks nothing
        of the auth service; otherwise the request is made and `answer` is its result. On
        success the form is emptied and plan selection opens iff a subscription is needed. */
    method PatientSignUp(answer: SignUpAnswer) returns (request: Option<SignUpRequest>)
      modifies this
      ensures var f := old(signUpForm);
              request.None? <==> SignUpCheck(f.password, f.confirmPassword).Some?
      ensures var f := old(signUpForm);
              SignUpCheck(f.password, f.confirmPassword).Some? ==>
                error == SignUpCheck(f.password, f.confirmPassword) && success == None &&
                signUpForm == old(signUpForm) && showPlanSelection == old(showPlanSelection)
      ensures var f := old(signUpForm);
              request.Some? ==> request.value == SignUpRequest(f.email, f.password, f.firstName, f.lastName, "patient")
      ensures request.Some? && answer.Answered? && answer.response.error.Some? ==>
                error == Some(SignUpError(answer.response.error.value)) && success == None &&
                signUpForm == old(signUpForm) && showPlanSelection == old(showPlanSelection)
      ensures request.Some? && answer.Answered? && answer.response.error.None? ==>
                error == None && signUpForm == EmptySignUpForm &&
                (answer.response.needsSubscription ==>
                   showPlanSelection && success == Some(Keys("auth.registrationSuccess", "auth.choosePlan"))) &&
                (!answer.response.needsSubscription ==>
                   showPlanSelection == old(showPlanSelection) &&
                   success == Some(Keys("auth.registrationSuccess", "auth.confirmEmail")))
      ensures request.Some? && answer.SignUpThrew? ==>
                error == Some(if answer.errorMessage.Some? then Text(answer.errorMessage.value) else Key("auth.registrationError")) &&
                success == None && signUpForm == old(signUpForm) && showPlanSelection == old(showPlanSelection)
      ensures professionalCode == old(professionalCode) && storage == old(storage)
      ensures familySession == old(familySession) && familyUser == old(familyUser)
    {
      error := None;
      success := None;
      var check := SignUpCheck(signUpForm.password, signUpForm.confirmPassword);
      if check.Some? {
        error := check;
        return None;
      }
      request := Some(SignUpRequest(signUpForm.email, signUpForm.password, signUpForm.firstName,
                                    signUpForm.lastName, "patient"));
      match answer {
        case SignUpThrew(message) =>
          error := if message.Some? then Some(Text(message.value)) else Some(Key("auth.registrationError"));
        case Answered(response) =>
          if response.error.Some? {
            error := Some(SignUpError(response.error.value));
          } else {
            if response.needsSubscription {
              showPlanSelection := true;
              success := Some(Keys("auth.registrationSuccess", "auth.choosePlan"));
            } else {
              success := Some(Keys("auth.registrationSuccess", "auth.confirmEmail"));
            }
            signUpForm := EmptySignUpForm;
          }
      }
    }

    /** handleFamilyAccess with the two lookups as inputs: the patient found for the
        trimmed, upper-cased code, and the family member found for that patient and phone.
        The lookups are only made once the form passes its checks. */
    method FamilyAccess(patientCode: string, phone: string, profile: Option<PatientProfile>,
                        member: Option<FamilyMember>, now: string) returns (granted: bool)
      modifies this
      ensures var check := FamilyAccessCheck(patientCode, phone);
              check.FamilyRejected? ==> error == Some(Text(check.error)) && !granted
      ensures FamilyAccessCheck(patientCode, phone).FamilyOk? && profile.None? ==>
                error == Some(Text(InvalidAccessCode)) && !granted
      ensures FamilyAccessCheck(patientCode, phone).FamilyOk? && profile.Some? && member.None? ==>
                error == Some(Text(NoFamilyAccess)) && !granted
      ensures granted <==> FamilyAccessCheck(patientCode, phone).FamilyOk? && profile.Some? && member.Some?
      ensures !granted ==> storage == old(storage) && familySession == old(familySession) && familyUser == old(familyUser)
      ensures granted ==>
                var check := FamilyAccessCheck(patientCode, phone);
                var p := profile.value;
                var m := member.value;
                error == None &&
                storage == old(storage)[AuthContext.FamilyModeKey := "true"] &&
                familySession == Some(FamilySession(m.id, m.fullName, m.phone, p.userId,
                                                    p.firstName + " " + p.lastName, check.accessCode,
                                                    m.permissionLevel, now)) &&
                familyUser == Some(FamilyUser(p.userId, m.phone, SplitFullName(m.fullName).0, SplitFullName(m.fullName).1))
      ensures success == old(success) && showPlanSelection == old(showPlanSelection)
      ensures signUpForm == old(signUpForm) && professionalCode == old(professionalCode)
    {
      error := None;
      var check := FamilyAccessCheck(patientCode, phone);
      if check.FamilyRejected? {
        error := Some(Text(check.error));
        return false;
      }
      if profile.None? {
        error := Some(Text(InvalidAccessCode));
        return false;
      }
      if member.None? {
        error := Some(Text(NoFamilyAccess));
        return false;
      }
      var p, m := profile.value, member.value;
      familySession := Some(FamilySession(m.id, m.fullName, m.phone, p.userId, p.firstName + " " + p.lastName,
                                          check.accessCode, m.permissionLevel, now));
      storage := storage[AuthContext.FamilyModeKey := "true"];
      var names := SplitFullName(m.fullName);
      familyUser := Some(FamilyUser(p.userId, m.phone, names.0, names.1));
      return true;
    }

    /** handleSubmit of the professional-code form: the code is stored before the login and
        removed again when the login reports a failure. */
    method ProfessionalSubmit(answer: CodeLoginAnswer) returns (navigate: bool)
      modifies this
      ensures navigate <==> answer == CodeLoginOk
      ensures answer == CodeLoginOk ==> storage == old(storage)[ProfessionalCodeKey := old(professionalCode)] && error == None
      ensures answer.CodeLoginFailed? ==>
                storage == old(storage)[ProfessionalCodeKey := old(professionalCode)] - {ProfessionalCodeKey} &&
                error == Some(Text(if TruthyText(answer.error) then answer.error.value else "Failed to sign in"))
      ensures answer == CodeLoginThrew ==>
                storage == old(storage)[ProfessionalCodeKey := old(professionalCode)] &&
                error == Some(Key("auth.connectionError"))
      ensures success == old(success) && showPlanSelection == old(showPlanSelection)
      ensures signUpForm == old(signUpForm) && professionalCode == old(professionalCode)
      ensures familySession == old(familySession) && familyUser == old(familyUser)
    {
      error := None;
      storage := storage[ProfessionalCodeKey := professionalCode];
      match answer {
        case CodeLoginOk => return true;
        case CodeLoginFailed(message) =>
          error := Some(Text(if TruthyText(message) then message.value else "Failed to sign in"));
          storage := storage - {ProfessionalCodeKey};
          return false;
        case CodeLoginThrew =>
          error := Some(Key("auth.connectionError"));
          return false;
      }
    }
  }
}
