/** The header's role-dependent profile link and the avatar's fallback initial. */
module Header {
  import opened Strings
  import Users

  /** `getProfileHref`: one profile page per known role, `#` for anything else. */
  function ProfileHref(identity: string): string {
    if identity == Users.ADMIN then "/admin/profile"
    else if identity == Users.STAFF then "/staff/profile"
    else if identity == Users.STUDENT then "/student/profile"
    else if identity == Users.PARENT then "/parent/profile"
    else "#"
  }

  predicate IsKnownRole(identity: string) {
    identity in {Users.ADMIN, Users.STAFF, Users.STUDENT, Users.PARENT}
  }

  /** A real profile link is produced exactly for the four roles, and the four links differ. */
  lemma ProfileHrefIsPerRole(identity: string, other: string)
    ensures ProfileHref(identity) != "#" <==> IsKnownRole(identity)
    ensures IsKnownRole(identity) && IsKnownRole(other) && identity != other
            ==> ProfileHref(identity) != ProfileHref(other)
  {
  }

  /** `name.charAt(0).toUpperCase()`: empty for an empty name. */
  function AvatarInitial(name: string): (initial: string)
    ensures |initial| == if name == "" then 0 else 1
  {
    if name == "" then "" else [ToUpper(name[0])]
  }

  /** Taking the first character and uppercasing it is the same as uppercasing and then taking it. */
  lemma AvatarInitialIsUpperPrefix(name: string)
    ensures AvatarInitial(name) == Upper(name)[..if name == "" then 0 else 1]
  {
  }

  /** A user produced by `useUser` always has a one-character avatar initial. */
  lemma SelectedUserHasInitial(data: Users.MeResponse)
    ensures |AvatarInitial(Users.Select(data).name)| == 1
  {
  }
}
