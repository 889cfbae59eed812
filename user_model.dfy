/** The user document of models/user.js: its fields, the `role` enum with
    its default, and the defaults of a newly created account. */
module UserModel {
  import opened Common

  /** The `role` enum admits exactly "user" and "root". */
  datatype Role = RegularUser | Root

  function RoleName(r: Role): string
  {
    match r
    case RegularUser => "user"
    case Root => "root"
  }

  /** The enum validator on `role`. */
  function ParseRole(s: string): (r: Option<Role>)
    ensures r.Some? <==> s == "user" || s == "root"
    ensures r.Some? ==> RoleName(r.value) == s
  {
    if s == "user" then Some(RegularUser)
    else if s == "root" then Some(Root)
    else None
  }

  const DEFAULT_PROFILE_PIC_URL := "https://www.gravatar.com/avatar/?d=mp"

  /** A user document. Optional fields are `Option`s; `isDisabled` is the
      flag the controllers read and write. `createdAt` is the creation
      timestamp in milliseconds. */
  datatype User = User(
    name: string,
    email: string,
    password: string,
    username: string,
    profilePicUrl: string,
    role: Role,
    isVerified: bool,
    verificationToken: Option<string>,
    resetPasswordToken: Option<string>,
    resetPasswordExpire: Option<int>,
    isDisabled: bool,
    createdAt: int)

  /** `User.create` with the four fields sign-up passes: every other field
      takes its schema default (role "user", not verified, no verification
      or reset token). */
  function NewUser(name: string, username: string, email: string, password: string, now: int): (u: User)
    ensures u.name == name && u.username == username && u.email == email && u.password == password
    ensures RoleName(u.role) == "user" && u.profilePicUrl == DEFAULT_PROFILE_PIC_URL
    ensures !u.isVerified && !u.isDisabled
    ensures u.verificationToken.None? && u.resetPasswordToken.None? && u.resetPasswordExpire.None?
    ensures u.createdAt == now
  {
    User(name, email, password, username, DEFAULT_PROFILE_PIC_URL, RegularUser,
         false, None, None, None, false, now)
  }

  /** "admin" is not a value the role enum admits, so no stored user has
      that role. */
  lemma AdminIsNotARole(u: User)
    ensures ParseRole("admin").None?
    ensures RoleName(u.role) != "admin"
  {
  }
}
