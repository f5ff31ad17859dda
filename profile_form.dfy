/** The profile page: a form record filled from the session's user, the editing flag, the
    error and success lines, and the save and cancel handlers. */
module ProfileForm {
  import opened Common
  import opened Calendar
  import opened Records
  import opened Validators
  import opened Session

  /** The editable record. An empty date field is `None`. */
  datatype ProfileFields = ProfileFields(
    name: string,
    email: string,
    aadhaarNumber: string,
    panNumber: string,
    nationality: string,
    mobileNumber: string,
    dateOfBirth: Option<Date>)

  const NameAndEmailRequired: string := "Name and email are required"
  const InvalidAadhaar: string := "Please enter a valid 12-digit Aadhaar number"
  const InvalidPan: string := "Please enter a valid PAN number (e.g., ABCDE1234F)"
  const InvalidMobile: string := "Please enter a valid 10-digit mobile number"
  const TooYoung: string := "You must be at least 15 years old"
  const ProfileSaved: string := "Profile updated successfully!"
  const ProfileSaveFailed: string := "Failed to update profile. Please try again."

  /** `value || fallback`: an absent or empty text reads as the fallback. */
  function TextOr(value: Option<string>, fallback: string): (r: string)
    ensures value.Some? && value.value != [] ==> r == value.value
    ensures value.None? || value.value == [] ==> r == fallback
  {
    if value.Some? && value.value != [] then value.value else fallback
  }

  /** The record the page starts from and `handleCancel` restores: each field of the
      current user, an absent or empty one read as empty, except the nationality, which
      then reads as India. */
  function FormOf(user: Option<User>): (f: ProfileFields)
    ensures user.None? ==> f == ProfileFields([], [], [], [], "India", [], None)
    ensures f.nationality != []
  {
    match user
    case None => ProfileFields([], [], [], [], "India", [], None)
    case Some(u) =>
      ProfileFields(u.name, u.email, TextOr(u.aadhaarNumber, []), TextOr(u.panNumber, []),
                    TextOr(u.nationality, "India"), TextOr(u.mobileNumber, []), u.dateOfBirth)
  }

  /** The error `handleSave` reports for the record `f`, or `None` when it calls
      `updateProfile`: name and email must be present; a number that is filled in must be
      well formed; a date of birth that is filled in must give the minimum age. */
  function ProfileError(f: ProfileFields, today: Date): (r: Option<string>)
    ensures r.None? <==>
              f.name != [] && f.email != []
              && (f.aadhaarNumber == [] || ValidAadhaar(f.aadhaarNumber))
              && (f.panNumber == [] || ValidPan(f.panNumber))
              && (f.mobileNumber == [] || ValidMobile(f.mobileNumber))
              && !Underage(f.dateOfBirth, today)
    ensures f.name == [] || f.email == [] ==> r == Some(NameAndEmailRequired)
  {
    if f.name == [] || f.email == [] then Some(NameAndEmailRequired)
    else if f.aadhaarNumber != [] && !ValidAadhaar(f.aadhaarNumber) then Some(InvalidAadhaar)
    else if f.panNumber != [] && !ValidPan(f.panNumber) then Some(InvalidPan)
    else if f.mobileNumber != [] && !ValidMobile(f.mobileNumber) then Some(InvalidMobile)
    else if f.dateOfBirth.Some? && Age(f.dateOfBirth.value, today) < MinimumAge then Some(TooYoung)
    else None
  }

  /** The patch `updateProfile` receives: every field of the form, none of id and age. */
  function PatchOf(f: ProfileFields): (p: ProfilePatch)
    ensures p.id.None? && p.age.None?
    ensures p.dateOfBirth == Some(f.dateOfBirth)
  {
    ProfilePatch(None, Some(f.email), Some(f.name), Some(f.aadhaarNumber), Some(f.panNumber),
                 Some(f.nationality), Some(f.mobileNumber), Some(f.dateOfBirth), None)
  }

  /** When the page and the session read the same day, a record the page lets through is
      accepted by `updateProfile`. */
  lemma PageAgreesWithSession(f: ProfileFields, base: User, today: Date)
    requires ProfileError(f, today).None?
    ensures Updated(base, PatchOf(f), today).Some?
  {
  }

  /** Saving a record and reading the form back from the saved user gives the record again
      (a nationality left empty comes back as India). */
  lemma SavedFormRoundTrip(f: ProfileFields, base: User, today: Date)
    requires ProfileError(f, today).None? && f.nationality != []
    ensures FormOf(Updated(base, PatchOf(f), today)) == f
  {
    UpdatedFields(base, PatchOf(f), today);
    var u := Updated(base, PatchOf(f), today).value;
    assert u.aadhaarNumber == Some(f.aadhaarNumber) && u.panNumber == Some(f.panNumber);
    assert u.nationality == Some(f.nationality) && u.mobileNumber == Some(f.mobileNumber);
  }

  /** The fields typed in freely; the numbers go through their sanitising inputs and the
      date through its own. */
  datatype TextField = Name | Email | Nationality

  /** `handleInputChange(field, value)` on a free-text field: that field becomes `value`
      and no other field changes. */
  function WithText(f: ProfileFields, field: TextField, value: string): (r: ProfileFields)
    ensures r.name == (if field == Name then value else f.name)
    ensures r.email == (if field == Email then value else f.email)
    ensures r.nationality == (if field == Nationality then value else f.nationality)
    ensures r.aadhaarNumber == f.aadhaarNumber && r.panNumber == f.panNumber
    ensures r.mobileNumber == f.mobileNumber && r.dateOfBirth == f.dateOfBirth
  {
    match field
    case Name => f.(name := value)
    case Email => f.(email := value)
    case Nationality => f.(nationality := value)
  }

  /** Typing in a free-text field changes none of the checks on the numbers and the date,
      so it cannot make a record the page accepted fail on them. */
  lemma WithTextKeepsNumberChecks(f: ProfileFields, field: TextField, value: string, today: Date)
    requires ProfileError(f, today).None?
    requires field == Nationality || value != []
    ensures ProfileError(WithText(f, field, value), today).None?
  {
  }

  /** The profile page's state. */
  class ProfilePage {
    var formData: ProfileFields
    var isEditing: bool
    var error: string
    var success: string
    const session: SessionManager

    /** The page opens, not editing, on the current user's record. */
    constructor (session: SessionManager)
      ensures this.session == session
      ensures formData == FormOf(session.user) && !isEditing && error == [] && success == []
    {
      this.session := session;
      formData := FormOf(session.user);
      isEditing := false;
      error := [];
      success := [];
    }

    /** The Edit button. */
    method ToggleEditing()
      modifies this`isEditing
      ensures isEditing == !old(isEditing)
    {
      isEditing := !isEditing;
    }

    /** `handleInputChange` on the name, email or nationality field. */
    method InputChange(field: TextField, value: string)
      modifies this`formData
      ensures formData == WithText(old(formData), field, value)
    {
      formData := WithText(formData, field, value);
    }

    /** `handleInputChange` on the date-of-birth field; an empty date is `None`. */
    method DateOfBirthInput(date: Option<Date>)
      modifies this`formData
      ensures formData == old(formData).(dateOfBirth := date)
    {
      formData := formData.(dateOfBirth := date);
    }

    /** The sanitising Aadhaar, PAN and mobile inputs. */
    method AadhaarInput(raw: string)
      modifies this`formData
      ensures formData == old(formData).(aadhaarNumber := SanitiseDigits(raw, 12))
    {
      formData := formData.(aadhaarNumber := SanitiseDigits(raw, 12));
    }

    method PanInput(raw: string)
      modifies this`formData
      ensures formData == old(formData).(panNumber := SanitisePan(raw))
    {
      formData := formData.(panNumber := SanitisePan(raw));
    }

    method MobileInput(raw: string)
      modifies this`formData
      ensures formData == old(formData).(mobileNumber := SanitiseDigits(raw, 10))
    {
      formData := formData.(mobileNumber := SanitiseDigits(raw, 10));
    }

    /** `handleSave`: clear both lines, run the checks in order and stop at the first that
        fails; otherwise call `updateProfile` with the whole record, then leave editing on
        success or report the refusal. */
    method HandleSave(pageToday: Date, sessionToday: Date)
      requires session.Valid()
      modifies this`isEditing, this`error, this`success, session`user, session`isLoading, session.store`user
      ensures session.Valid()
      ensures ProfileError(formData, pageToday).Some? ==>
                error == ProfileError(formData, pageToday).value && success == []
                && isEditing == old(isEditing)
                && session.user == old(session.user) && session.isLoading == old(session.isLoading)
      ensures ProfileError(formData, pageToday).None? ==>
                var updated := Updated(old(session.user).GetOr(NoUser), PatchOf(formData), sessionToday);
                !session.isLoading
                && (if updated.Some? then
                      session.user == updated && success == ProfileSaved && error == [] && !isEditing
                    else
                      session.user == old(session.user) && error == ProfileSaveFailed && success == []
                      && isEditing == old(isEditing))
    {
      error := [];
      success := [];
      var f := formData;
      if f.name == [] || f.email == [] {
        error := NameAndEmailRequired;
        return;
      }
      if f.aadhaarNumber != [] && !ValidAadhaar(f.aadhaarNumber) {
        error := InvalidAadhaar;
        return;
      }
      if f.panNumber != [] && !ValidPan(f.panNumber) {
        error := InvalidPan;
        return;
      }
      if f.mobileNumber != [] && !ValidMobile(f.mobileNumber) {
        error := InvalidMobile;
        return;
      }
      if f.dateOfBirth.Some? {
        var age := Age(f.dateOfBirth.value, pageToday);
        if age < MinimumAge {
          error := TooYoung;
          return;
        }
      }
      var ok := session.UpdateProfile(PatchOf(f), sessionToday);
      if ok {
        success := ProfileSaved;
        isEditing := false;
      } else {
        error := ProfileSaveFailed;
      }
    }

    /** `handleCancel`: the record goes back to the current user's, editing ends, and both
        lines are cleared. */
    method HandleCancel()
      modifies this`formData, this`isEditing, this`error, this`success
      ensures formData == FormOf(session.user) && !isEditing && error == [] && success == []
    {
      formData := FormOf(session.user);
      isEditing := false;
      error := [];
      success := [];
    }
  }
}
