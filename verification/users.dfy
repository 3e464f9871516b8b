/**
 * The signed-in user: the profile returned by `auth/me` and the projection that
 * `useUser` applies to it (unwrap the optional `user` envelope, derive a display
 * name). `identity` is kept as the string the backend sends, so that the role
 * checks elsewhere can be stated for identities outside the four known roles.
 */
module Users {
  import opened Wrappers

  const ADMIN := "ADMIN"
  const STAFF := "STAFF"
  const STUDENT := "STUDENT"
  const PARENT := "PARENT"

  datatype UserProfile = UserProfile(
    id: string,
    email: string,
    firstName: string,
    lastName: string,
    identity: string,
    isActive: bool,
    permissions: Option<seq<string>>)

  /** `{ ...profile, name }`: every profile field, plus the derived name. */
  datatype User = User(profile: UserProfile, name: string) {
    function Identity(): string { profile.identity }
    function Permissions(): Option<seq<string>> { profile.permissions }
  }

  /** The `auth/me` body: either a bare profile or one wrapped as `{ user: profile }`. */
  datatype MeResponse = MeResponse(user: Option<UserProfile>, bare: UserProfile)

  const UNKNOWN_USER := "Unknown User"

  /** `firstName && lastName ? first + ' ' + last : (email || 'Unknown User')`. */
  function DisplayName(p: UserProfile): (name: string)
    ensures name != ""
  {
    if p.firstName != "" && p.lastName != "" then p.firstName + " " + p.lastName
    else if p.email != "" then p.email
    else UNKNOWN_USER
  }

  /** The `select` projection of `useUser`. */
  function Select(data: MeResponse): (u: User)
    ensures u.profile == (if data.user.Some? then data.user.value else data.bare)
    ensures u.name == DisplayName(u.profile) && u.name != ""
  {
    var profile := if data.user.Some? then data.user.value else data.bare;
    User(profile, DisplayName(profile))
  }

  /** Index of the first space in `s`, or `|s|` when there is none. */
  function FirstSpace(s: string): (k: nat)
    ensures k <= |s|
    ensures forall i :: 0 <= i < k ==> s[i] != ' '
    ensures k < |s| ==> s[k] == ' '
  {
    if s == [] || s[0] == ' ' then 0 else 1 + FirstSpace(s[1..])
  }

  /**
   * When both parts are present and the first name has no space, the display
   * name splits back at its first space into first and last name.
   */
  lemma DisplayNameSplitsBack(p: UserProfile)
    requires p.firstName != "" && p.lastName != ""
    requires ' ' !in p.firstName
    ensures var n := DisplayName(p);
            var k := FirstSpace(n);
            k < |n| && n[..k] == p.firstName && n[k + 1..] == p.lastName
  {
    var n := DisplayName(p);
    var f := |p.firstName|;
    assert n[f] == ' ';
    assert forall i :: 0 <= i < f ==> n[i] == p.firstName[i];
    var k := FirstSpace(n);
    assert k == f;
    assert n[..f] == p.firstName;
    assert n[f + 1..] == p.lastName;
  }

  /** Without both name parts the display name falls back to the email, then to a fixed text. */
  lemma DisplayNameFallback(p: UserProfile)
    requires p.firstName == "" || p.lastName == ""
    ensures DisplayName(p) == (if p.email != "" then p.email else UNKNOWN_USER)
  {
  }
}
