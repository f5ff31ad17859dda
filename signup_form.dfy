/** The sign-up form: its nine fields, the sanitising inputs, and the submission chain
    that reports the first failing check or hands the record to the session's `signup`.
    "Today" is passed in twice: once for the form's own age check and once for the
    session's, since each reads the clock for itself. */
module SignupForm {
  import opened Common
  import opened Calendar
  import opened Records
  import opened Validators
  import opened Session

  /** The form record. An empty date field is `None`. */
  datatype SignupFields = SignupFields(
    name: string,
    email: string,
    password: string,
    confirmPassword: string,
    aadhaarNumber: string,
    panNumber: string,
    nationality: string,
    mobileNumber: string,
    dateOfBirth: Option<Date>)

  /** The empty form, with India preselected as nationality. */
  const InitialSignupFields: SignupFields := SignupFields("", "", "", "", "", "", "India", "", None)

  const FillAllFields: string := "Please fill in all fields"
  const PasswordsDiffer: string := "Passwords do not match"
  const PasswordTooShort: string := "Password must be at least 6 characters long"
  const InvalidAadhaar: string := "Please enter a valid 12-digit Aadhaar number"
  const InvalidPan: string := "Please enter a valid PAN number (e.g., ABCDE1234F)"
  const InvalidMobile: string := "Please enter a valid 10-digit mobile number"
  const TooYoung: string := "You must be at least 15 years old to create an account"
  const SignupFailed: string := "Failed to create account. Please try again."

  /** The shortest password the form accepts. */
  const MinimumPasswordLength: int := 6

  predicate AnyFieldEmpty(f: SignupFields) {
    f.name == [] || f.email == [] || f.password == [] || f.confirmPassword == []
    || f.aadhaarNumber == [] || f.panNumber == [] || f.nationality == []
    || f.mobileNumber == [] || f.dateOfBirth.None?
  }

  /** The outcome of each check, in the order `handleSubmit` makes them. */
  function SignupChecks(f: SignupFields, today: Date): (checks: seq<bool>)
    ensures |checks| == |SignupMessages|
  {
    [ !AnyFieldEmpty(f),
      f.password == f.confirmPassword,
      |f.password| >= MinimumPasswordLength,
      ValidAadhaar(f.aadhaarNumber),
      ValidPan(f.panNumber),
      ValidMobile(f.mobileNumber),
      !Underage(f.dateOfBirth, today) ]
  }

  /** The message each check reports when it fails. */
  const SignupMessages: seq<string> :=
    [FillAllFields, PasswordsDiffer, PasswordTooShort, InvalidAadhaar, InvalidPan, InvalidMobile, TooYoung]

  /** The message of the first failing check, or `None` when every check passes. */
  function FirstFailure(checks: seq<bool>, messages: seq<string>): (r: Option<string>)
    requires |checks| == |messages|
    ensures r.None? <==> forall k :: 0 <= k < |checks| ==> checks[k]
    ensures r.Some? ==> exists k :: 0 <= k < |checks| && !checks[k] && r.value == messages[k]
                                    && forall j :: 0 <= j < k ==> checks[j]
  {
    if checks == [] then None
    else if !checks[0] then Some(messages[0])
    else
      var r := FirstFailure(checks[1..], messages[1..]);
      if r.Some? then
        var k :| 0 <= k < |checks| - 1 && !checks[1..][k] && r.value == messages[1..][k]
                 && forall j :: 0 <= j < k ==> checks[1..][j];
        assert !checks[k + 1] && r.value == messages[k + 1];
        assert forall j :: 0 <= j < k + 1 ==> checks[j] by {
          forall j | 0 <= j < k + 1 ensures checks[j] {
            if j > 0 { assert checks[j] == checks[1..][j - 1]; }
          }
        }
        r
      else
        assert forall k :: 0 <= k < |checks| ==> checks[k] by {
          forall k | 0 <= k < |checks| ensures checks[k] {
            if k > 0 { assert checks[k] == checks[1..][k - 1]; }
          }
        }
        None
  }

  /** The error `handleSubmit` reports for the record `f`, or `None` when it calls `signup`. */
  function SignupError(f: SignupFields, today: Date): Option<string> {
    FirstFailure(SignupChecks(f, today), SignupMessages)
  }

  /** The form lets a record through exactly when it is complete, the passwords agree and
      are long enough, the three numbers are well formed and the applicant is old enough. */
  lemma SignupErrorNoneIff(f: SignupFields, today: Date)
    ensures SignupError(f, today).None? <==>
              !AnyFieldEmpty(f) && f.password == f.confirmPassword && |f.password| >= MinimumPasswordLength
              && ValidAadhaar(f.aadhaarNumber) && ValidPan(f.panNumber) && ValidMobile(f.mobileNumber)
              && Age(f.dateOfBirth.value, today) >= MinimumAge
  {
    var checks := SignupChecks(f, today);
    if SignupError(f, today).None? {
      assert checks[0] && checks[1] && checks[2] && checks[3] && checks[4] && checks[5] && checks[6];
    }
  }

  /** A complete record is never refused for a missing field; the first message is
      reported exactly when some field is empty. */
  lemma EmptyFieldReportedFirst(f: SignupFields, today: Date)
    ensures SignupError(f, today) == Some(FillAllFields) <==> AnyFieldEmpty(f)
  {
    var checks := SignupChecks(f, today);
    if AnyFieldEmpty(f) {
      assert !checks[0];
    }
  }

  /** The request `signup` receives: the form record without the confirmation. */
  function RequestOf(f: SignupFields): (req: SignupRequest)
    ensures req.email == f.email && req.password == f.password && req.name == f.name
    ensures req.dateOfBirth == f.dateOfBirth
  {
    SignupRequest(f.email, f.password, f.name, f.aadhaarNumber, f.panNumber,
                  f.nationality, f.mobileNumber, f.dateOfBirth)
  }

  /** When the form and the session read the same day, a record the form lets through is
      always accepted by `signup`, so the failure message is never shown. */
  lemma FormAgreesWithSession(f: SignupFields, today: Date)
    requires SignupError(f, today).None?
    ensures NewAccount(RequestOf(f), today).Some?
    ensures NewAccount(RequestOf(f), today).value.age == Some(Age(f.dateOfBirth.value, today))
  {
    SignupErrorNoneIff(f, today);
  }

  /** The three numbers hold only what their sanitising inputs can produce. */
  predicate Sanitised(f: SignupFields) {
    AllDigits(f.aadhaarNumber) && |f.aadhaarNumber| <= 12
    && AllDigits(f.mobileNumber) && |f.mobileNumber| <= 10
    && |f.panNumber| <= 10 && (forall i :: 0 <= i < |f.panNumber| ==> !IsLower(f.panNumber[i]))
  }

  /** On sanitised input the Aadhaar check is a length check. */
  lemma SanitisedAadhaarCheck(f: SignupFields)
    requires Sanitised(f)
    ensures ValidAadhaar(f.aadhaarNumber) <==> |f.aadhaarNumber| == 12
  {
  }

  /** The fields typed in freely; the numbers go through their sanitising inputs. */
  datatype TextField = Name | Email | Password | ConfirmPassword | Nationality

  /** `handleInputChange(field, value)`: the record with one field replaced. */
  function WithText(f: SignupFields, field: TextField, value: string): (r: SignupFields)
    ensures r.aadhaarNumber == f.aadhaarNumber && r.panNumber == f.panNumber
    ensures r.mobileNumber == f.mobileNumber && r.dateOfBirth == f.dateOfBirth
    ensures Sanitised(f) ==> Sanitised(r)
  {
    match field
    case Name => f.(name := value)
    case Email => f.(email := value)
    case Password => f.(password := value)
    case ConfirmPassword => f.(confirmPassword := value)
    case Nationality => f.(nationality := value)
  }

  /** The sign-up form's state: the record, the error line and the session it signs up. */
  class SignupFormState {
    var fields: SignupFields
    var error: string
    const session: SessionManager

    /** The numbers in the record are as the sanitising inputs leave them. */
    ghost predicate Valid()
      reads this
    {
      Sanitised(fields)
    }

    constructor (session: SessionManager)
      ensures Valid() && this.session == session
      ensures fields == InitialSignupFields && error == []
    {
      this.session := session;
      fields := InitialSignupFields;
      error := [];
    }

    method InputChange(field: TextField, value: string)
      requires Valid()
      modifies this`fields
      ensures Valid() && fields == WithText(old(fields), field, value)
    {
      fields := WithText(fields, field, value);
    }

    /** The Aadhaar input: digits only, at most twelve. */
    method AadhaarInput(raw: string)
      requires Valid()
      modifies this`fields
      ensures Valid() && fields == old(fields).(aadhaarNumber := SanitiseDigits(raw, 12))
    {
      fields := fields.(aadhaarNumber := SanitiseDigits(raw, 12));
    }

    /** The PAN input: upper-cased, at most ten characters. */
    method PanInput(raw: string)
      requires Valid()
      modifies this`fields
      ensures Valid() && fields == old(fields).(panNumber := SanitisePan(raw))
    {
      fields := fields.(panNumber := SanitisePan(raw));
    }

    /** The mobile input: digits only, at most ten. */
    method MobileInput(raw: string)
      requires Valid()
      modifies this`fields
      ensures Valid() && fields == old(fields).(mobileNumber := SanitiseDigits(raw, 10))
    {
      fields := fields.(mobileNumber := SanitiseDigits(raw, 10));
    }

    method DateOfBirthInput(date: Option<Date>)
      requires Valid()
      modifies this`fields
      ensures Valid() && fields == old(fields).(dateOfBirth := date)
    {
      fields := fields.(dateOfBirth := date);
    }

    /** `handleSubmit`: clear the error, run the checks in order and stop at the first
        that fails, reporting its message; when all pass, call `signup` with the record
        and report a refusal. */
    method HandleSubmit(formToday: Date, sessionToday: Date)
      requires session.Valid()
      modifies this`error, session`user, session`isLoading, session.store`user
      ensures session.Valid()
      ensures SignupError(fields, formToday).Some? ==>
                error == SignupError(fields, formToday).value
                && session.user == old(session.user) && session.isLoading == old(session.isLoading)
      ensures SignupError(fields, formToday).None? ==>
                !session.isLoading
                && (if Underage(fields.dateOfBirth, sessionToday) then
                      error == SignupFailed && session.user == old(session.user)
                    else
                      error == [] && session.user == NewAccount(RequestOf(fields), sessionToday))
    {
      error := [];
      var f := fields;
      ghost var checks := SignupChecks(f, formToday);
      if AnyFieldEmpty(f) {
        assert !checks[0];
        error := FillAllFields;
        return;
      }
      if f.password != f.confirmPassword {
        assert checks[0] && !checks[1];
        error := PasswordsDiffer;
        return;
      }
      if |f.password| < MinimumPasswordLength {
        assert checks[0] && checks[1] && !checks[2];
        error := PasswordTooShort;
        return;
      }
      if !ValidAadhaar(f.aadhaarNumber) {
        assert checks[0] && checks[1] && checks[2] && !checks[3];
        error := InvalidAadhaar;
        return;
      }
      if !ValidPan(f.panNumber) {
        assert checks[0] && checks[1] && checks[2] && checks[3] && !checks[4];
        error := InvalidPan;
        return;
      }
      if !ValidMobile(f.mobileNumber) {
        assert checks[0] && checks[1] && checks[2] && checks[3] && checks[4] && !checks[5];
        error := InvalidMobile;
        return;
      }
      if Age(f.dateOfBirth.value, formToday) < MinimumAge {
        assert checks[0] && checks[1] && checks[2] && checks[3] && checks[4] && checks[5] && !checks[6];
        error := TooYoung;
        return;
      }
      assert checks[0] && checks[1] && checks[2] && checks[3] && checks[4] && checks[5] && checks[6];
      var ok := session.Signup(RequestOf(f), sessionToday);
      if !ok {
        error := SignupFailed;
      }
    }
  }
}
