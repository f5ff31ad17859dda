/** The authentication context: the session's user, its loading flag and the stored `user`
    record, moved between anonymous and authenticated by `login`, `signup`,
    `updateProfile` and `logout`. Each handler is one atomic step; the simulated latency
    is not modelled, so the loading flag is only ever observed after a handler returns. */
module Session {
  import opened Common
  import opened Calendar
  import opened Records

  /** The fields the sign-up form hands to `signup`. An empty date field is `None`. */
  datatype SignupRequest = SignupRequest(
    email: string,
    password: string,
    name: string,
    aadhaarNumber: string,
    panNumber: string,
    nationality: string,
    mobileNumber: string,
    dateOfBirth: Option<Date>)

  /** A partial user record, as `updateProfile` receives it: `None` is a key left out.
      A supplied date of birth is `Some(None)` when it is the empty string. */
  datatype ProfilePatch = ProfilePatch(
    id: Option<string>,
    email: Option<string>,
    name: Option<string>,
    aadhaarNumber: Option<string>,
    panNumber: Option<string>,
    nationality: Option<string>,
    mobileNumber: Option<string>,
    dateOfBirth: Option<Option<Date>>,
    age: Option<int>)

  /** A patch that supplies nothing. */
  const NoChanges: ProfilePatch := ProfilePatch(None, None, None, None, None, None, None, None, None)

  /** What spreading a partial record over no user at all leaves: the required keys read
      as empty strings, the optional ones absent. */
  const NoUser: User := User("", "", "", None, None, None, None, None, None)

  /** The record `login` creates: id "1", the given email, and as name the part of the
      email before its first '@'. */
  function LoginUser(email: string): (u: User)
    ensures u.id == "1" && u.email == email
    ensures u.name <= email && '@' !in u.name && (u.name == email || email[|u.name|] == '@')
    ensures u.aadhaarNumber.None? && u.panNumber.None? && u.nationality.None?
    ensures u.mobileNumber.None? && u.dateOfBirth.None? && u.age.None?
  {
    User("1", email, BeforeFirst(email, '@'), None, None, None, None, None, None)
  }

  /** The record `signup` creates, or `None` when the date of birth gives an age below
      the minimum (an empty date gives no age and is let through). */
  function NewAccount(req: SignupRequest, today: Date): (u: Option<User>)
    ensures u.None? <==> Underage(req.dateOfBirth, today)
    ensures u.Some? ==>
              u.value.id == "1" && u.value.email == req.email && u.value.name == req.name
              && u.value.aadhaarNumber == Some(req.aadhaarNumber)
              && u.value.panNumber == Some(req.panNumber)
              && u.value.nationality == Some(req.nationality)
              && u.value.mobileNumber == Some(req.mobileNumber)
              && u.value.dateOfBirth == req.dateOfBirth
              && u.value.age == AgeOf(req.dateOfBirth, today)
  {
    var age := AgeOf(req.dateOfBirth, today);
    if age.Some? && age.value < MinimumAge then None
    else
      Some(User("1", req.email, req.name, Some(req.aadhaarNumber), Some(req.panNumber),
                Some(req.nationality), Some(req.mobileNumber), req.dateOfBirth, age))
  }

  /** No account `signup` creates records an age below the minimum. */
  lemma NewAccountOfAge(req: SignupRequest, today: Date)
    requires NewAccount(req, today).Some?
    ensures NewAccount(req, today).value.age.Some? ==> NewAccount(req, today).value.age.value >= MinimumAge
    ensures req.dateOfBirth.Some? ==>
              !Before(today, Anniversary(req.dateOfBirth.value, MinimumAge))
  {
    if req.dateOfBirth.Some? {
      AgeAtLeast(req.dateOfBirth.value, today, MinimumAge);
    }
  }

  /** A supplied value replaces the kept one. */
  function Override<T>(kept: T, supplied: Option<T>): T {
    if supplied.Some? then supplied.value else kept
  }

  /** The patch carries a non-empty date of birth (the truthiness test `updateProfile` makes). */
  predicate SuppliesBirthDate(patch: ProfilePatch) {
    patch.dateOfBirth.Some? && patch.dateOfBirth.value.Some?
  }

  /** `updateProfile` on the record `base`: `None` when a supplied non-empty date of birth
      gives an age below the minimum; otherwise the patch spread over `base`, with the
      age recomputed from a supplied non-empty date of birth. */
  function Updated(base: User, patch: ProfilePatch, today: Date): (r: Option<User>)
    ensures r.None? <==> SuppliesBirthDate(patch) && Underage(patch.dateOfBirth.value, today)
  {
    if SuppliesBirthDate(patch) && Age(patch.dateOfBirth.value.value, today) < MinimumAge then None
    else
      var age := if SuppliesBirthDate(patch) then Some(Age(patch.dateOfBirth.value.value, today))
                 else Override(base.age, if patch.age.Some? then Some(Some(patch.age.value)) else None);
      Some(User(
        Override(base.id, patch.id),
        Override(base.email, patch.email),
        Override(base.name, patch.name),
        Override(base.aadhaarNumber, if patch.aadhaarNumber.Some? then Some(patch.aadhaarNumber) else None),
        Override(base.panNumber, if patch.panNumber.Some? then Some(patch.panNumber) else None),
        Override(base.nationality, if patch.nationality.Some? then Some(patch.nationality) else None),
        Override(base.mobileNumber, if patch.mobileNumber.Some? then Some(patch.mobileNumber) else None),
        Override(base.dateOfBirth, patch.dateOfBirth),
        age))
  }

  /** Field by field: a supplied field wins, an unsupplied one is kept, and the age changes
      only with a non-empty date of birth (then to the computed age, at least the minimum)
      or with an explicitly supplied age. */
  lemma UpdatedFields(base: User, patch: ProfilePatch, today: Date)
    requires Updated(base, patch, today).Some?
    ensures var u := Updated(base, patch, today).value;
            (u.id == if patch.id.Some? then patch.id.value else base.id)
            && (u.email == if patch.email.Some? then patch.email.value else base.email)
            && (u.name == if patch.name.Some? then patch.name.value else base.name)
            && (u.aadhaarNumber == if patch.aadhaarNumber.Some? then patch.aadhaarNumber else base.aadhaarNumber)
            && (u.panNumber == if patch.panNumber.Some? then patch.panNumber else base.panNumber)
            && (u.nationality == if patch.nationality.Some? then patch.nationality else base.nationality)
            && (u.mobileNumber == if patch.mobileNumber.Some? then patch.mobileNumber else base.mobileNumber)
            && (u.dateOfBirth == if patch.dateOfBirth.Some? then patch.dateOfBirth.value else base.dateOfBirth)
    ensures var u := Updated(base, patch, today).value;
            if SuppliesBirthDate(patch) then
              u.age == AgeOf(patch.dateOfBirth.value, today) && u.age.value >= MinimumAge
            else
              u.age == if patch.age.Some? then Some(patch.age.value) else base.age
  {
  }

  /** An empty patch changes nothing. */
  lemma UpdatedByNothing(base: User, today: Date)
    ensures Updated(base, NoChanges, today) == Some(base)
  {
  }

  /** Applying the same patch twice is applying it once. */
  lemma UpdatedTwice(base: User, patch: ProfilePatch, today: Date)
    requires Updated(base, patch, today).Some?
    ensures Updated(Updated(base, patch, today).value, patch, today) == Updated(base, patch, today)
  {
  }

  /** The session: the current user (`None` when anonymous), the loading flag, and the
      store holding the saved `user` record. */
  class SessionManager {
    var user: Option<User>
    var isLoading: bool
    const store: LocalStore

    /** The stored record is the session's user; a missing key is the anonymous session. */
    ghost predicate Valid()
      reads this, store
    {
      store.user == user
    }

    /** The provider's start: the saved record when there is one, otherwise anonymous;
        loading ends. */
    constructor (store: LocalStore)
      ensures this.store == store && Valid()
      ensures user == store.user && !isLoading
    {
      this.store := store;
      user := store.user;
      isLoading := false;
    }

    /** `login`: any credentials are accepted; the mock user is set and saved. */
    method Login(email: string, password: string) returns (ok: bool)
      requires Valid()
      modifies this`user, this`isLoading, store`user
      ensures Valid() && ok && !isLoading
      ensures user == Some(LoginUser(email))
    {
      isLoading := true;
      var mockUser := LoginUser(email);
      user := Some(mockUser);
      store.user := Some(mockUser);
      isLoading := false;
      ok := true;
    }

    /** `signup`: refused, with nothing changed, when the date of birth gives an age below
        the minimum; otherwise the new account becomes the saved user. */
    method Signup(req: SignupRequest, today: Date) returns (ok: bool)
      requires Valid()
      modifies this`user, this`isLoading, store`user
      ensures Valid() && !isLoading
      ensures ok <==> !Underage(req.dateOfBirth, today)
      ensures ok ==> user == NewAccount(req, today)
      ensures !ok ==> user == old(user)
    {
      isLoading := true;
      var account := NewAccount(req, today);
      if account.None? {
        isLoading := false;
        return false;
      }
      user := account;
      store.user := account;
      isLoading := false;
      ok := true;
    }

    /** `updateProfile`: refused, with nothing changed, when a supplied non-empty date of
        birth gives an age below the minimum; otherwise the patch is spread over the
        current user (over an empty record when anonymous) and saved. */
    method UpdateProfile(patch: ProfilePatch, today: Date) returns (ok: bool)
      requires Valid()
      modifies this`user, this`isLoading, store`user
      ensures Valid() && !isLoading
      ensures ok <==> !(SuppliesBirthDate(patch) && Underage(patch.dateOfBirth.value, today))
      ensures ok ==> user == Updated(old(user).GetOr(NoUser), patch, today)
      ensures !ok ==> user == old(user)
    {
      isLoading := true;
      var updated := Updated(user.GetOr(NoUser), patch, today);
      if updated.None? {
        isLoading := false;
        return false;
      }
      user := updated;
      store.user := updated;
      isLoading := false;
      ok := true;
    }

    /** `logout`: the session becomes anonymous and the saved record is removed. The new
        state does not depend on the old one, so a second `logout` changes nothing. */
    method Logout()
      requires Valid()
      modifies this`user, store`user
      ensures Valid() && user.None?
    {
      user := None;
      store.user := None;
    }
  }
}
