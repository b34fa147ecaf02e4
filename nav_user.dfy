/**
 * The account entry of the sidebar: which of the loading, logged-in and
 * logged-out views is shown, and the name, email, avatar and initials the
 * logged-in view derives from the session's user.
 */
module NavUser {
  import opened Wrappers
  import opened Text

  datatype Status = Loading | Authenticated | Unauthenticated

  /** Missing fields are None; `null` and `undefined` alike. */
  datatype User = User(name: Option<string>, email: Option<string>, image: Option<string>)

  datatype Session = Session(user: Option<User>)

  datatype View = LoadingView | LoggedIn(user: User) | LoggedOut

  function SelectView(status: Status, session: Option<Session>): (v: View)
    ensures status == Loading <==> v == LoadingView
    ensures v.LoggedIn? <==> status == Authenticated && session.Some? && session.value.user.Some?
    ensures v.LoggedIn? ==> v.user == session.value.user.value
  {
    if status == Loading then LoadingView
    else if status == Authenticated && session.Some? && session.value.user.Some? then LoggedIn(session.value.user.value)
    else LoggedOut
  }

  /** `value || fallback` on an optional string. */
  function OrDefault(value: Option<string>, fallback: string): (r: string)
    ensures value.Some? && value.value != "" ==> r == value.value
    ensures value.None? || value.value == "" ==> r == fallback
  {
    if value.Some? && value.value != "" then value.value else fallback
  }

  /** `user.name || "Utilizator"`. */
  function DisplayName(u: User): (r: string)
    ensures r != ""
    ensures u.name.Some? && u.name.value != "" ==> r == u.name.value
    ensures u.name.None? || u.name.value == "" ==> r == "Utilizator"
  {
    OrDefault(u.name, "Utilizator")
  }

  /** `user.email || "Fără email"`. */
  function DisplayEmail(u: User): (r: string)
    ensures r != ""
    ensures u.email.Some? && u.email.value != "" ==> r == u.email.value
    ensures u.email.None? || u.email.value == "" ==> r == "Fără email"
  {
    OrDefault(u.email, "Fără email")
  }

  /** `user.image || undefined`. */
  function AvatarSource(u: User): (r: Option<string>)
    ensures r.None? <==> u.image.None? || u.image.value == ""
    ensures r.Some? ==> r == u.image
  {
    if u.image.Some? && u.image.value != "" then u.image else None
  }

  /** `userName.slice(0, 2).toUpperCase()`. */
  function Initials(name: string): (r: string)
    ensures |r| == if |name| < 2 then |name| else 2
    ensures forall i :: 0 <= i < |r| ==> r[i] == UpperChar(name[i]) && !IsAsciiLower(r[i])
  {
    Upper(name[..if |name| < 2 then |name| else 2])
  }

  /** The fallback avatar shows one or two upper-case characters, never none. */
  lemma InitialsOfUser(u: User)
    ensures 1 <= |Initials(DisplayName(u))| <= 2
    ensures u.name.None? ==> Initials(DisplayName(u)) == "UT"
  {
  }

  function DropdownSide(isMobile: bool): (r: string)
    ensures r == "bottom" || r == "right"
    ensures r == "bottom" <==> isMobile
  {
    if isMobile then "bottom" else "right"
  }
}
