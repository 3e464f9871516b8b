/**
 * `hasPermission`: a permission list grants a required permission when it holds
 * it exactly, or when it holds a wildcard entry `p.*` and the required string
 * starts with `p`. There is no check that the match ends at a dot.
 */
module Permissions {
  import opened Wrappers
  import opened Strings

  /** An entry `p.*` grants every required string that starts with `p`. */
  predicate WildcardCovers(entry: string, required: string) {
    EndsWith(entry, ".*") && StartsWith(required, entry[..|entry| - 2])
  }

  /** `entries.some(p => WildcardCovers(p, required))`, scanned left to right. */
  function AnyWildcardCovers(entries: seq<string>, required: string): bool {
    if entries == [] then false
    else WildcardCovers(entries[0], required) || AnyWildcardCovers(entries[1..], required)
  }

  function HasPermission(permissions: Option<seq<string>>, required: string): bool {
    match permissions
    case None => false
    case Some(entries) => required in entries || AnyWildcardCovers(entries, required)
  }

  /** The reference reading of the rule: some entry is the required string or a covering wildcard. */
  ghost predicate Grants(entries: seq<string>, required: string) {
    exists i :: 0 <= i < |entries| && (entries[i] == required || WildcardCovers(entries[i], required))
  }

  lemma {:induction false} AnyWildcardCoversIff(entries: seq<string>, required: string)
    ensures AnyWildcardCovers(entries, required)
            <==> exists i :: 0 <= i < |entries| && WildcardCovers(entries[i], required)
  {
    if entries != [] {
      AnyWildcardCoversIff(entries[1..], required);
      if AnyWildcardCovers(entries[1..], required) {
        var i :| 0 <= i < |entries[1..]| && WildcardCovers(entries[1..][i], required);
        assert WildcardCovers(entries[i + 1], required);
      }
      forall i | 1 <= i < |entries| && WildcardCovers(entries[i], required)
        ensures AnyWildcardCovers(entries[1..], required)
      {
        assert entries[1..][i - 1] == entries[i];
      }
    }
  }

  /** The list-scanning implementation agrees with the reference rule; undefined grants nothing. */
  lemma HasPermissionIff(permissions: Option<seq<string>>, required: string)
    ensures HasPermission(permissions, required) <==> permissions.Some? && Grants(permissions.value, required)
  {
    if permissions.Some? {
      var entries := permissions.value;
      AnyWildcardCoversIff(entries, required);
      if required in entries {
        var i :| 0 <= i < |entries| && entries[i] == required;
      }
    }
  }

  /** Any exact member of the list is granted. */
  lemma ExactEntryGrants(entries: seq<string>, required: string)
    requires required in entries
    ensures HasPermission(Some(entries), required)
  {
  }

  /** An entry `p.*` grants every string that starts with `p`, dot or no dot. */
  lemma WildcardGrantsPrefix(entries: seq<string>, p: string, required: string)
    requires p + ".*" in entries
    requires StartsWith(required, p)
    ensures HasPermission(Some(entries), required)
  {
    var i :| 0 <= i < |entries| && entries[i] == p + ".*";
    assert entries[i][..|entries[i]| - 2] == p;
    assert WildcardCovers(entries[i], required);
    HasPermissionIff(Some(entries), required);
  }

  /** For instance `users.*` grants `usersX`, not only `users.<something>`. */
  lemma WildcardHasNoDotBoundary()
    ensures HasPermission(Some(["users.*"]), "usersX")
  {
    assert "users" + ".*" == "users.*";
    WildcardGrantsPrefix(["users.*"], "users", "usersX");
  }

  /** The entry `.*` grants every required string. */
  lemma DotStarGrantsEverything(entries: seq<string>, required: string)
    requires ".*" in entries
    ensures HasPermission(Some(entries), required)
  {
    assert "" + ".*" == ".*";
    WildcardGrantsPrefix(entries, "", required);
  }

  /** An entry without the `.*` suffix grants only its own string. */
  lemma PlainEntryGrantsOnlyItself(entry: string, required: string)
    requires !EndsWith(entry, ".*")
    ensures HasPermission(Some([entry]), required) <==> required == entry
  {
    HasPermissionIff(Some([entry]), required);
  }

  /** Adding entries never revokes a grant. */
  lemma GrantIsMonotone(entries: seq<string>, more: seq<string>, required: string)
    requires forall e :: e in entries ==> e in more
    requires HasPermission(Some(entries), required)
    ensures HasPermission(Some(more), required)
  {
    HasPermissionIff(Some(entries), required);
    var i :| 0 <= i < |entries| && (entries[i] == required || WildcardCovers(entries[i], required));
    assert entries[i] in more;
    var j :| 0 <= j < |more| && more[j] == entries[i];
    HasPermissionIff(Some(more), required);
  }
}
