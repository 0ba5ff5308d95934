/** Accounts: the user row and the rules the account manager applies when
    it builds one. */
module Accounts {
  import opened Common
  import opened Choices

  /** A stored account. The password hash is not modelled, only whether the
      account has a usable password. */
  datatype User = User(
    email: string,
    userType: string,
    firstName: string,
    lastName: string,
    phoneNumber: string,
    isStaff: bool,
    isSuperuser: bool,
    isActive: bool,
    usablePassword: bool)

  /** The keyword arguments a caller may pass when creating an account;
      `None` means the caller did not pass that keyword. */
  datatype UserFields = UserFields(
    userType: Option<string>,
    firstName: Option<string>,
    lastName: Option<string>,
    phoneNumber: Option<string>,
    isStaff: Option<bool>,
    isSuperuser: Option<bool>,
    isActive: Option<bool>)

  /** No keyword arguments at all. */
  const NoFields := UserFields(None, None, None, None, None, None, None)

  /** Dictionary `setdefault`: keeps a value the caller passed, otherwise
      supplies `d`. */
  function SetDefault<T>(o: Option<T>, d: T): Option<T> {
    if o.Some? then o else Some(d)
  }

  /** The keyword arguments with which an administrator account is created:
      staff, superuser, active and the admin role, each only where the caller
      did not say otherwise. */
  function AdminDefaults(f: UserFields): (r: UserFields)
    ensures f.isStaff.Some? ==> r.isStaff == f.isStaff
    ensures f.isSuperuser.Some? ==> r.isSuperuser == f.isSuperuser
    ensures f.isActive.Some? ==> r.isActive == f.isActive
    ensures f.userType.Some? ==> r.userType == f.userType
    ensures f.isStaff.None? ==> r.isStaff == Some(true)
    ensures f.isSuperuser.None? ==> r.isSuperuser == Some(true)
    ensures f.isActive.None? ==> r.isActive == Some(true)
    ensures f.userType.None? ==> r.userType == Some(UserTypeCode(AdminUser))
    ensures r.firstName == f.firstName && r.lastName == f.lastName
    ensures r.phoneNumber == f.phoneNumber
  {
    f.(isStaff := SetDefault(f.isStaff, true),
       isSuperuser := SetDefault(f.isSuperuser, true),
       isActive := SetDefault(f.isActive, true),
       userType := SetDefault(f.userType, UserTypeCode(AdminUser)))
  }

  /** Applying the administrator defaults a second time changes nothing. */
  lemma AdminDefaultsIdempotent(f: UserFields)
    ensures AdminDefaults(AdminDefaults(f)) == AdminDefaults(f)
  {
  }

  /** The account built from an (already normalized) email, an optional raw
      password and the keyword arguments: each field the caller passed is
      stored as given; the others take the column defaults (not staff, not
      superuser, active, empty strings). Without a password the account gets
      an unusable one. */
  function NewUser(email: string, password: Option<string>, f: UserFields): (u: User)
    ensures u.email == email
    ensures f.userType.Some? ==> u.userType == f.userType.value
    ensures f.firstName.Some? ==> u.firstName == f.firstName.value
    ensures f.lastName.Some? ==> u.lastName == f.lastName.value
    ensures f.phoneNumber.Some? ==> u.phoneNumber == f.phoneNumber.value
    ensures f.isStaff.Some? ==> u.isStaff == f.isStaff.value
    ensures f.isSuperuser.Some? ==> u.isSuperuser == f.isSuperuser.value
    ensures f.isActive.Some? ==> u.isActive == f.isActive.value
    ensures f.userType.None? ==> u.userType == ""
    ensures f.firstName.None? ==> u.firstName == ""
    ensures f.lastName.None? ==> u.lastName == ""
    ensures f.phoneNumber.None? ==> u.phoneNumber == ""
    ensures f.isStaff.None? ==> !u.isStaff
    ensures f.isSuperuser.None? ==> !u.isSuperuser
    ensures f.isActive.None? ==> u.isActive
    ensures u.usablePassword <==> password.Some?
  {
    User(
      email := email,
      userType := f.userType.GetOr(""),
      firstName := f.firstName.GetOr(""),
      lastName := f.lastName.GetOr(""),
      phoneNumber := f.phoneNumber.GetOr(""),
      isStaff := f.isStaff.GetOr(false),
      isSuperuser := f.isSuperuser.GetOr(false),
      isActive := f.isActive.GetOr(true),
      usablePassword := password.Some?)
  }

  /** An administrator created without any keyword arguments is an active
      staff superuser with the admin role; one for which the caller passed
      `is_staff=False` keeps that value. */
  lemma SuperuserFlags(email: string, password: Option<string>)
    ensures var u := NewUser(email, password, AdminDefaults(NoFields));
      u.isStaff && u.isSuperuser && u.isActive && ParseUserType(u.userType) == Some(AdminUser)
    ensures !NewUser(email, password, AdminDefaults(NoFields.(isStaff := Some(false)))).isStaff
  {
  }
}
