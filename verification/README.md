# ERP frontend core, modelled in Dafny

This project models the decision logic of the ERP web frontend, a React and
Next.js client for a school ERP backend. The modelled parts are:

- **Access control.** `hasPermission` does exact or `prefix.*` wildcard
  matching. The sidebar's visibility test, the permission guard and the
  role-gated shell decide what gets rendered.
- **Navigation.** The sidebar resolves the active menu link with a depth-first,
  longest-prefix search, and derives the active, child-active and
  initially-opened flags of each group.
- **Authentication screens.**
  - Login: validators and role-based landing routes.
  - Change password: strength scoring and colour banding, requirements,
    validators and the submit outcome.
  - Password reset: the confirmation page's token guard and view selection,
    and the request page's email pattern and "check your email" flag.
  - The `useUser` projection and the header's profile link and avatar initial.
- **Academic-session context.** A small state machine holds the selected
  session, the initialised flag and the copy kept in local storage.
- **Dynamic fields.**
  - The service picks POST or PATCH and shapes the payload for each.
  - The definition builder has a snake_case validator, label-to-name slugs,
    defaults for a new definition, the DROPDOWN rule and the save request.
- **Student form.**
  - It loads the visible dynamic definitions in priority order, the
    de-duplicated master types and the sorted master-data lists.
  - It flattens a stored student into `master_<TYPE>` / `dyn_<name>` form
    keys, and validates the form.
  - It builds the API payload with its renames and its `{fieldId, value}` list,
    and decides where a submission goes.
  - It also covers dropdown option sources and the department → class →
    section resets.

Modelling choices:

- Code that builds values becomes functions with lemmas. Components that keep
  state and change it on events become classes whose methods are proved
  against those functions; each method has one event handler.
- Loops become `for` loops with invariants: the menu traversal, the record
  flattening, the master-data fill and the dynamic-value collection. The
  password strength is a method of four sequential `if`s, as in the source.
- The plain JavaScript objects of the student form become maps from keys to a
  small `Json.Value` type. An absent key reads as `undefined`.
- The submission payload is a record with one optional member per key of the
  object literal.

Behaviour worth knowing, as the code is written: a stored student's core
record carries `academicSessionId`, which the flattening copies under that
name, while the payload's `academicSessionId` and `admissionSessionId` both
read the form's `admissionSessionId`. An edit therefore sends the session
selected in the session context (the blank form's value), not the stored
one, unless the record itself has an `admissionSessionId`
(`StudentForm.EditSendsFormSession`).

## Model

| member | source | states |
|---|---|---|
| Permissions.HasPermission | src/utils/permissions.ts:2-9 | `hasPermission`: no contract of its own; `HasPermissionIff` ties it to the reference `Grants` |
| Permissions.AnyWildcardCoversIff | src/utils/permissions.ts:7 | the wildcard test holds iff some entry ends in `.*` and the required string starts with that entry minus the suffix |
| Permissions.HasPermissionIff | src/utils/permissions.ts:2-9 | granted iff a list is present and the required string is an exact entry or covered by a wildcard entry; an undefined list grants nothing |
| Permissions.ExactEntryGrants | src/utils/permissions.ts:6 | any exact member of the list is granted |
| Permissions.WildcardGrantsPrefix | src/utils/permissions.ts:7 | an entry `p.*` grants every string that starts with `p` |
| Permissions.WildcardHasNoDotBoundary | src/utils/permissions.ts:7 | `users.*` also grants `usersX` (no dot boundary) |
| Permissions.DotStarGrantsEverything | src/utils/permissions.ts:7 | an entry `.*` grants every required string |
| Permissions.PlainEntryGrantsOnlyItself | src/utils/permissions.ts:6-7 | an entry without `.*` grants exactly its own string |
| Permissions.GrantIsMonotone | src/utils/permissions.ts:5-8 | adding entries never revokes a grant |
| Sidebar.Links | src/components/Shell/Sidebar.tsx:26-41 | the truthy links of the tree in depth-first pre-order; `LinksSound` and `LinksComplete` state what it holds |
| Sidebar.Scan | src/components/Shell/Sidebar.tsx:29-34 | the best-so-far fold over the links; `ScanFindsLongest` states its invariant |
| Sidebar.Traverse | src/components/Shell/Sidebar.tsx:26-41 | the recursive loop leaves the best-so-far state equal to a left-to-right scan of the tree's links in depth-first pre-order |
| Sidebar.BestMatch | src/components/Shell/Sidebar.tsx:22-45 | the longest-match result from an empty start; specified by `BestMatchIsMatchingNodeLink`, `BestMatchIsLongest` and `BestMatchNoneIff` |
| Sidebar.FindBestMatch | src/components/Shell/Sidebar.tsx:22-45 | returns the longest-match specification `BestMatch` |
| Sidebar.LinksAppend | src/components/Shell/Sidebar.tsx:27-40 | the links of two runs of entries are the first run's links followed by the second's (the `for` loop visits entries in order) |
| Sidebar.LinksSound | src/components/Shell/Sidebar.tsx:26-41 | every link the traversal visits is the truthy link of some node of the tree |
| Sidebar.LinksComplete | src/components/Shell/Sidebar.tsx:26-41 | the truthy link of every node, at any depth, is visited |
| Sidebar.LinksAreNodeLinks | src/components/Shell/Sidebar.tsx:26-41 | the traversal visits exactly the truthy links of the tree's nodes at every depth |
| Sidebar.ScanFindsLongest | src/components/Shell/Sidebar.tsx:29-34 | the scan keeps the invariant that the best link matches the pathname, is the longest seen, and only a longer match replaces it |
| Sidebar.BestMatchIsMatchingNodeLink | src/components/Shell/Sidebar.tsx:29 | a result is the link of some node of the tree and equals the pathname or prefixes it followed by `/` |
| Sidebar.BestMatchIsLongest | src/components/Shell/Sidebar.tsx:31-34 | the result is at least as long as every matching link in the tree |
| Sidebar.BestMatchNoneIff | src/components/Shell/Sidebar.tsx:24-29 | the result is null iff no non-empty link of the tree matches |
| Sidebar.IsVisible | src/components/Shell/Sidebar.tsx:52-53 | an admin, an entry without permission, or a granted permission shows the entry; `VisibleIffGranted` states the non-admin case |
| Sidebar.VisibleIffGranted | src/components/Shell/Sidebar.tsx:52 | for a non-admin and an item with a permission, the item is shown iff the user's list grants it |
| Sidebar.IsActive | src/components/Shell/Sidebar.tsx:59 | `item.link === activeLink`, never true for a missing link; `NoActiveLinkNothingActive` and `ChosenLinkMarksItsEntry` state it |
| Sidebar.ContainsActive | src/components/Shell/Sidebar.tsx:66-69 | specified by `ContainsActiveIff` against occurrence in the subtree |
| Sidebar.ContainsActiveIff | src/components/Shell/Sidebar.tsx:66-69 | a node contains the active link iff it or a descendant has it |
| Sidebar.IsChildActive | src/components/Shell/Sidebar.tsx:62-71 | specified by `ChildActiveIff` against the strict descendants |
| Sidebar.ChildActiveIff | src/components/Shell/Sidebar.tsx:62-71 | a group is child-active iff some strict descendant's link is the active link |
| Sidebar.InitiallyOpened | src/components/Shell/Sidebar.tsx:73 | specified by `InitiallyOpenedIff` |
| Sidebar.InitiallyOpenedIff | src/components/Shell/Sidebar.tsx:73 | a group opens initially iff its flag is set or a descendant is active |
| Sidebar.NoActiveLinkNothingActive | src/components/Shell/Sidebar.tsx:59-73 | with a null active link no item is active or child-active, and only the flag opens a group |
| Sidebar.ChosenLinkMarksItsEntry | src/components/Shell/Sidebar.tsx:59 | the entry whose link was chosen as best match is marked active |
| Users.DisplayName | src/hooks/useUser.ts:12 | the derived name is never empty |
| Users.Select | src/hooks/useUser.ts:10-17 | unwraps `data.user` when present, else `data`, keeps the profile unchanged and adds its `DisplayName`, never empty |
| Users.DisplayNameSplitsBack | src/hooks/useUser.ts:12 | with both names present (first name without spaces) the name is first and last name joined by one space |
| Users.DisplayNameFallback | src/hooks/useUser.ts:12 | otherwise the name is the email, or `Unknown User` when that is empty too |
| Header.ProfileHref | src/components/Shell/Header.tsx:23-31 | the per-role profile path, `#` otherwise; specified by `ProfileHrefIsPerRole` |
| Header.ProfileHrefIsPerRole | src/components/Shell/Header.tsx:23-31 | a profile path other than `#` exactly for the four roles, and different roles get different paths |
| Header.AvatarInitial | src/components/Shell/Header.tsx:97 | one character for a non-empty name, none for an empty one |
| Header.AvatarInitialIsUpperPrefix | src/components/Shell/Header.tsx:97 | the initial is the upper-cased first character of the name |
| Header.SelectedUserHasInitial | src/components/Shell/Header.tsx:97 | every user produced by the projection has a one-character initial |
| PermissionGuard.Guard | src/components/Auth/PermissionGuard.tsx:19-50 | the loader, the denial or the children; specified by `GuardChildrenIff` and `NoAdminBypass` |
| PermissionGuard.GuardChildrenIff | src/components/Auth/PermissionGuard.tsx:19-50 | children render iff not loading, a user is present and its permission list grants the requirement; a denial names the required permission |
| PermissionGuard.NoAdminBypass | src/components/Auth/PermissionGuard.tsx:29-48 | an ADMIN without a permission list is denied (no admin bypass) |
| RoleShell.View | src/components/Shell/RoleShell.tsx:40-60 | the render decision; specified by `ShellOnlyForExactRole`, `MismatchShowsRolesWithoutRedirect`, `NoUserRedirectsToLogin` and `LoaderFirst` |
| RoleShell.RedirectTarget | src/components/Shell/RoleShell.tsx:26-36 | `/login` exactly when mounted, loaded and without a user; `RedirectEffect` pushes it and `MismatchShowsRolesWithoutRedirect` states a mismatch does not navigate |
| RoleShell.RoleShellState.constructor | src/components/Shell/RoleShell.tsx:19 | starts unmounted with no navigation |
| RoleShell.RoleShellState.MountEffect | src/components/Shell/RoleShell.tsx:21-24 | sets the mounted flag and navigates nowhere |
| RoleShell.RoleShellState.RedirectEffect | src/components/Shell/RoleShell.tsx:26-36 | pushes `/login` exactly when mounted, loaded and without a user; nothing else changes |
| RoleShell.ShellOnlyForExactRole | src/components/Shell/RoleShell.tsx:40-60 | the shell renders iff mounted, loaded and the identity equals the required role, with that user |
| RoleShell.MismatchShowsRolesWithoutRedirect | src/components/Shell/RoleShell.tsx:33-35 | a wrong role sees Access Denied naming the expected and actual roles, with no redirect |
| RoleShell.NoUserRedirectsToLogin | src/components/Shell/RoleShell.tsx:30-32 | loaded without a user redirects to `/login` and shows the Guest denial |
| RoleShell.LoaderFirst | src/components/Shell/RoleShell.tsx:40-46 | before mount or while loading only the loader shows and nothing redirects |
| Login.Validate | src/components/Auth/LoginForm.tsx:21-23 | the two length checks; specified by `ValidateIff` |
| Login.LandingRoute | src/components/Auth/LoginForm.tsx:31-37 | the per-identity landing route; specified by `LandingRoutesPerRole` |
| Login.ValidateIff | src/components/Auth/LoginForm.tsx:21-23 | passes iff identifier length ≥ 3 and password length ≥ 5, each error iff its own bound fails |
| Login.LandingRoutesPerRole | src/components/Auth/LoginForm.tsx:31-37 | unknown identities land on `/`, the four roles elsewhere, each on its own route |
| Login.FailureMessageShown | src/components/Auth/LoginForm.tsx:40 | the shown error is never empty and is the message when there is one |
| Login.LoginForm.constructor | src/components/Auth/LoginForm.tsx:13-20 | empty credentials, platform `WEB`, no error |
| Login.LoginForm.SetIdentifier | src/components/Auth/LoginForm.tsx:15-25 | updates only the identifier |
| Login.LoginForm.SetPassword | src/components/Auth/LoginForm.tsx:15-25 | updates only the password |
| Login.LoginForm.Submit | src/components/Auth/LoginForm.tsx:27-29 | a valid form is sent as it is (platform `WEB`) and clears the error; an invalid one sends nothing and changes nothing |
| Login.LoginForm.OnSuccess | src/components/Auth/LoginForm.tsx:30-38 | navigates to the landing route of the returned identity |
| Login.LoginForm.OnError | src/components/Auth/LoginForm.tsx:39-41 | sets the error to the message or the fallback text |
| ChangePassword.MetCount | src/app/auth/change-password/page.tsx:61-66 | no more requirements met than listed |
| ChangePassword.MetCountOfFour | src/app/auth/change-password/page.tsx:61-66 | the count of four requirements is the sum of their flags |
| ChangePassword.PasswordStrength | src/app/auth/change-password/page.tsx:24-31 | the accumulated strength is 25 times the number of requirements met |
| ChangePassword.StrengthIsQuarterStep | src/app/auth/change-password/page.tsx:24-31 | strength is one of 0, 25, 50, 75, 100 |
| ChangePassword.StrengthColor | src/app/auth/change-password/page.tsx:33-37 | the colour bands at 50 and 75; specified by `ColorFollowsRequirements` |
| ChangePassword.ColorFollowsRequirements | src/app/auth/change-password/page.tsx:33-37 | red below two requirements, yellow at two, green at three or four |
| ChangePassword.StrengthExtremes | src/app/auth/change-password/page.tsx:26-29 | the empty password scores 0; a long password with lower, upper and a digit scores 100 |
| ChangePassword.Validate | src/app/auth/change-password/page.tsx:51-56 | the three validators; specified by `ValidateIff` |
| ChangePassword.ValidateIff | src/app/auth/change-password/page.tsx:51-56 | passes iff the current password is non-empty, the new one has ≥ 8 characters and the confirmation equals it |
| ChangePassword.ChangePasswordPage.constructor | src/app/auth/change-password/page.tsx:42-50 | empty values, no success, no error |
| ChangePassword.ChangePasswordPage.Edit | src/app/auth/change-password/page.tsx:45-57 | replaces the values only |
| ChangePassword.ChangePasswordPage.Submit | src/app/auth/change-password/page.tsx:68-75 | a valid form clears success and error and sends current and new password; an invalid one changes nothing |
| ChangePassword.ChangePasswordPage.OnSuccess | src/app/auth/change-password/page.tsx:76-79 | success set and the form reset |
| ChangePassword.ChangePasswordPage.OnError | src/app/auth/change-password/page.tsx:80-82 | error set to the message or the fallback, never empty |
| ResetConfirm.Validate | src/app/auth/password-reset/confirm/page.tsx:25-28 | the length and match validators; specified by `SubmitIff` |
| ResetConfirm.HandleSubmit | src/app/auth/password-reset/confirm/page.tsx:32-38 | a request iff the token is non-empty, carrying exactly the token and the new password |
| ResetConfirm.Submit | src/app/auth/password-reset/confirm/page.tsx:20-38 | validation first, then `handleSubmit`; specified by `SubmitIff` and `FormImpliesTokenSent` |
| ResetConfirm.SubmitIff | src/app/auth/password-reset/confirm/page.tsx:26-38 | a request is sent iff the token is present, the new password has ≥ 8 characters and the confirmation matches |
| ResetConfirm.View | src/app/auth/password-reset/confirm/page.tsx:40-64 | invalid-link view iff no token (even after success), success view iff token and success, else the form |
| ResetConfirm.FormImpliesTokenSent | src/app/auth/password-reset/confirm/page.tsx:33-37 | whenever the form is shown, a valid submission sends the token |
| ResetRequest.IsEmailLike | src/app/auth/password-reset/page.tsx:16 | the computed `^\S+@\S+$` test; `IsEmailLikeIff` ties it to the pattern reading |
| ResetRequest.IsEmailLikeIff | src/app/auth/password-reset/page.tsx:16 | the computed test equals `^\S+@\S+$`: no JavaScript whitespace and an `@` with characters on both sides |
| ResetRequest.Validate | src/app/auth/password-reset/page.tsx:16 | the email validator; specified by `ValidateRejects`, `ValidateAccepts` and `IsEmailLikeIff` |
| ResetRequest.ValidateRejects | src/app/auth/password-reset/page.tsx:16 | empty, `@`-less or whitespace-containing emails are rejected |
| ResetRequest.ValidateAccepts | src/app/auth/password-reset/page.tsx:16 | `me@college.edu` and `a@b@c` are accepted |
| ResetRequest.ResetRequestPage.constructor | src/app/auth/password-reset/page.tsx:11-14 | empty email, not submitted |
| ResetRequest.ResetRequestPage.Edit | src/app/auth/password-reset/page.tsx:13-18 | updates only the email |
| ResetRequest.ResetRequestPage.Submit | src/app/auth/password-reset/page.tsx:20-21 | sends exactly `{email}` iff the email matches the pattern |
| ResetRequest.ResetRequestPage.OnSuccess | src/app/auth/password-reset/page.tsx:22 | sets the submitted flag |
| ResetRequest.ResetRequestPage.View | src/app/auth/password-reset/page.tsx:26-40 | the check-your-email view, naming the email, iff submitted |
| AcademicSession.AfterMount | src/context/AcademicSessionContext.tsx:28-44 | the mount commit; specified by `MountAdoptsStoredId` and `MountPrefersKnownCurrent` |
| AcademicSession.MountAdoptsStoredId | src/context/AcademicSessionContext.tsx:28-35 | a truthy stored id becomes the selection and initialises; otherwise nothing is selected |
| AcademicSession.MountPrefersKnownCurrent | src/context/AcademicSessionContext.tsx:28-44 | a current session already known at mount is adopted over the stored id, because both effects read the same snapshot |
| AcademicSession.AfterSync | src/context/AcademicSessionContext.tsx:37-44 | the current-session effect; specified by `SyncAdoptsOnlyWhenUnset` and `InitializedIgnoresCurrent` |
| AcademicSession.SyncAdoptsOnlyWhenUnset | src/context/AcademicSessionContext.tsx:37-44 | a current session changes the state iff not initialised, no selection and an id; it then selects, stores and initialises |
| AcademicSession.InitializedIgnoresCurrent | src/context/AcademicSessionContext.tsx:39 | once initialised, later current sessions change nothing |
| AcademicSession.AfterSet | src/context/AcademicSessionContext.tsx:46-49 | the setter; specified by `SetSelectsAndStores` |
| AcademicSession.SetSelectsAndStores | src/context/AcademicSessionContext.tsx:46-49 | the setter selects and stores the same id and keeps the initialised flag |
| AcademicSession.StepsKeepConsistent | src/context/AcademicSessionContext.tsx:32-48 | every event keeps the invariant that a selected id is the stored one |
| AcademicSession.IsLoading | src/context/AcademicSessionContext.tsx:54 | `!isInitialized && isFetchingCurrent`; `AdoptionEndsLoading` and `IsLoadingNow` state its consequences |
| AcademicSession.AdoptionEndsLoading | src/context/AcademicSessionContext.tsx:54 | after a mount that adopts an id the context is not loading |
| AcademicSession.UseContext | src/context/AcademicSessionContext.tsx:64-69 | outside a provider the hook fails with the fixed message, inside it returns the provided value |
| AcademicSession.AcademicSessionProvider.constructor | src/context/AcademicSessionContext.tsx:18-19 | no selection, not initialised, storage as given |
| AcademicSession.AcademicSessionProvider.Mount | src/context/AcademicSessionContext.tsx:28-44 | the new state is `AfterMount` of the stored id and the current session at mount |
| AcademicSession.AcademicSessionProvider.SyncCurrentSession | src/context/AcademicSessionContext.tsx:37-44 | the new state is `AfterSync` of the old one |
| AcademicSession.AcademicSessionProvider.SetAcademicSessionId | src/context/AcademicSessionContext.tsx:46-49 | the new state is `AfterSet` of the old one |
| AcademicSession.AcademicSessionProvider.IsLoadingNow | src/context/AcademicSessionContext.tsx:54 | loading implies not initialised |
| DynamicFieldService.GetByEntity | src/services/dynamicFieldService.ts:8-11 | a null response reads as the empty list, any other is returned as it is |
| DynamicFieldService.RecordId | src/services/dynamicFieldService.ts:20 | `fieldId` when truthy, else `id` when truthy, else none |
| DynamicFieldService.Save | src/services/dynamicFieldService.ts:19-62 | the request `save` sends; specified by `SaveRoute` and the payload lemmas |
| DynamicFieldService.UpdatePayload | src/services/dynamicFieldService.ts:29-37 | specified by `UpdatePayloadShape` and `UpdatePayloadValues` |
| DynamicFieldService.CreatePayload | src/services/dynamicFieldService.ts:42-54 | specified by `CreatePayloadShape` and `CreatePayloadValues` |
| DynamicFieldService.WireDataType | src/services/dynamicFieldService.ts:47 | specified by `WireDataTypeRename` |
| DynamicFieldService.SaveRoute | src/services/dynamicFieldService.ts:20-23 | PATCH to `/dynamic-fields/<id>` iff an id is truthy (fieldId first), else POST to `/dynamic-fields` |
| DynamicFieldService.UpdatePayloadShape | src/services/dynamicFieldService.ts:29-37 | the update sends only the seven editable members; never name, entityType, controlType or dataType |
| DynamicFieldService.UpdatePayloadValues | src/services/dynamicFieldService.ts:29-37 | the update always sends displayName, isVisible, priority and isRequired with the definition's values, and the optional members as they are (missing stays unsent) |
| DynamicFieldService.CreatePayloadShape | src/services/dynamicFieldService.ts:42-54 | the creation sends only the members of the definition's body |
| DynamicFieldService.CreatePayloadValues | src/services/dynamicFieldService.ts:42-54 | the creation sends entityType, name, controlType and displayName unchanged and the renamed data type |
| DynamicFieldService.NoMasterTypeSent | src/services/dynamicFieldService.ts:29-54 | neither payload carries masterType |
| DynamicFieldService.WireDataTypeRename | src/services/dynamicFieldService.ts:47 | `STRING` is sent as `TEXT`, every other type unchanged, and the known types stay distinct |
| DynamicFieldBuilder.NameError | src/components/DynamicFields/DynamicFieldBuilder.tsx:81-85 | the name validator; specified by `NameErrorIff` |
| DynamicFieldBuilder.NameErrorIff | src/components/DynamicFields/DynamicFieldBuilder.tsx:81-85 | a name passes iff non-empty and all characters in `[a-z0-9_]` |
| DynamicFieldBuilder.Validate | src/components/DynamicFields/DynamicFieldBuilder.tsx:79-88 | the four validators; specified by `ValidateIff` |
| DynamicFieldBuilder.ValidateIff | src/components/DynamicFields/DynamicFieldBuilder.tsx:79-88 | the form passes iff label, control type and data type are non-empty and the name passes |
| DynamicFieldBuilder.SlugChar | src/components/DynamicFields/DynamicFieldBuilder.tsx:225 | every slug character is in `[a-z0-9_]` |
| DynamicFieldBuilder.Slug | src/components/DynamicFields/DynamicFieldBuilder.tsx:225 | the slug has the label's length and maps each character independently |
| DynamicFieldBuilder.SlugPassesValidator | src/components/DynamicFields/DynamicFieldBuilder.tsx:81-85 | a slug passes the name validator iff the label is non-empty |
| DynamicFieldBuilder.SlugIdempotent | src/components/DynamicFields/DynamicFieldBuilder.tsx:225 | slugging a slug changes nothing |
| DynamicFieldBuilder.SlugExample | src/components/DynamicFields/DynamicFieldBuilder.tsx:225 | `Father's Name` becomes `father_s_name` |
| DynamicFieldBuilder.NewFieldForm | src/components/DynamicFields/DynamicFieldBuilder.tsx:95-101 | a new definition has the current entity type, priority count + 1 and the reset defaults, and fails validation until named |
| DynamicFieldBuilder.WithControlType | src/components/DynamicFields/DynamicFieldBuilder.tsx:243-248 | DROPDOWN forces data type STRING; other members untouched |
| DynamicFieldBuilder.WithDisplayName | src/components/DynamicFields/DynamicFieldBuilder.tsx:221-228 | the name follows the label's slug only when creating |
| DynamicFieldBuilder.SubmittedField | src/components/DynamicFields/DynamicFieldBuilder.tsx:109-115 | saves with the current entity type, no master type and the edited definition's fieldId; nothing else changes |
| DynamicFieldBuilder.CreateSavesWithPost | src/components/DynamicFields/DynamicFieldBuilder.tsx:106-115 | creating a definition posts to the collection |
| DynamicFieldBuilder.EditSavesWithPatch | src/components/DynamicFields/DynamicFieldBuilder.tsx:106-115 | editing a stored definition patches its own URL |
| DynamicFieldBuilder.Builder.constructor | src/components/DynamicFields/DynamicFieldBuilder.tsx:42-78 | entity type STUDENT, no fields, nothing edited, the initial form (no entity type in it), modal closed |
| DynamicFieldBuilder.Builder.LoadFields | src/components/DynamicFields/DynamicFieldBuilder.tsx:52-63 | a response (null read as empty) replaces the list by a priority-sorted permutation; a failure keeps it |
| DynamicFieldBuilder.Builder.OpenModal | src/components/DynamicFields/DynamicFieldBuilder.tsx:91-104 | edits a given definition as it is, or starts `NewFieldForm`; opens the modal |
| DynamicFieldBuilder.Builder.ChangeDisplayName | src/components/DynamicFields/DynamicFieldBuilder.tsx:221-228 | the form becomes `WithDisplayName` of the old one |
| DynamicFieldBuilder.Builder.ChangeControlType | src/components/DynamicFields/DynamicFieldBuilder.tsx:243-248 | the form becomes `WithControlType` of the old one |
| DynamicFieldBuilder.Builder.EditOther | src/components/DynamicFields/DynamicFieldBuilder.tsx:231-301 | the remaining inputs change only their own members: never the ids, entity type, label, control type or master type, nor the data type of a DROPDOWN |
| DynamicFieldBuilder.Builder.Submit | src/components/DynamicFields/DynamicFieldBuilder.tsx:106-115 | a valid form yields the save request of the submitted field (POST when creating, PATCH to the edited id otherwise, never a master type); an invalid one none |
| DynamicFieldBuilder.Builder.OnSaved | src/components/DynamicFields/DynamicFieldBuilder.tsx:118 | closes the modal |
| StudentMetadata.VisibleFields | src/components/Students/StudentForm.tsx:86 | specified by `VisibleFieldsCorrect` |
| StudentMetadata.VisibleOnly | src/components/Students/StudentForm.tsx:86 | keeps exactly the visible definitions |
| StudentMetadata.VisibleFieldsCorrect | src/components/Students/StudentForm.tsx:86 | the loaded list is sorted by priority, a permutation of the visible definitions, holds exactly them, and keeps equal priorities in arrival order |
| StudentMetadata.DynamicMasterTypesIff | src/components/Students/StudentForm.tsx:92-94 | a type is listed iff some DROPDOWN definition, visible or not, names it |
| StudentMetadata.UniqueFrom | src/components/Students/StudentForm.tsx:96 | `Array.from(new Set(...))`; specified by `UniqueFromCorrect`, `UniqueFromPrefix` and `UniqueFromOrder` |
| StudentMetadata.UniqueFromCorrect | src/components/Students/StudentForm.tsx:96 | the de-duplication has no duplicates, keeps the prefix and holds exactly the inputs' elements |
| StudentMetadata.UniqueFromPrefix | src/components/Students/StudentForm.tsx:96 | de-duplicating a concatenation is de-duplicating its second part after the first (first-occurrence order) |
| StudentMetadata.UniqueFromOrder | src/components/Students/StudentForm.tsx:96 | the de-duplication lists its elements in first-occurrence order |
| StudentMetadata.CoreIsUnique | src/components/Students/StudentForm.tsx:90 | the five core types are distinct |
| StudentMetadata.MasterTypes | src/components/Students/StudentForm.tsx:90-96 | specified by `MasterTypesCorrect` and `MasterTypesOrder` |
| StudentMetadata.MasterTypesCorrect | src/components/Students/StudentForm.tsx:90-96 | no duplicates, the five core types first in order, and exactly the core and dropdown types |
| StudentMetadata.MasterTypesOrder | src/components/Students/StudentForm.tsx:90-96 | after the core five come only non-core dropdown types, in the order the definitions first name them |
| StudentMetadata.DropdownMasterTypeLoaded | src/components/Students/StudentForm.tsx:90-96 | every dropdown's master type is among the loaded types |
| StudentMetadata.MasterDataFor | src/components/Students/StudentForm.tsx:100-105 | every type's sorted list, or nothing on a failure; specified by `FillMasterData` and `MasterDataSorted` |
| StudentMetadata.FillMasterData | src/components/Students/StudentForm.tsx:100-105 | the per-type loop yields `MasterDataFor`: every type's list, or nothing if any request failed |
| StudentMetadata.MasterDataSorted | src/components/Students/StudentForm.tsx:103 | each loaded list is a permutation of the response sorted by `order` (missing as 0) |
| StudentMapping.MasterKey | src/components/Students/StudentForm.tsx:134 | the key is `master_` followed by the type, never a `dyn_` key |
| StudentMapping.DynKey | src/components/Students/StudentForm.tsx:142 | the key is `dyn_` followed by the name, never a `master_` key |
| StudentMapping.FixedKeysUnprefixed | src/components/Students/StudentForm.tsx:125-155 | the date, parent and address keys are neither master nor dynamic keys |
| StudentMapping.MappedForm | src/components/Students/StudentForm.tsx:119-158 | the flattened record; specified by the `…Mapped` lemmas and `MappedFormNoneIff` |
| StudentMapping.MapStudentToForm | src/components/Students/StudentForm.tsx:119-158 | the loops over master data and dynamic values produce `MappedForm` |
| StudentMapping.WriteMaster | src/components/Students/StudentForm.tsx:131-137 | the master loop; specified by `WriteMasterFrame`, `WriteMasterHit` and `WriteMasterMiss` |
| StudentMapping.WriteMasterFrame | src/components/Students/StudentForm.tsx:131-137 | the master loop touches only `master_` keys |
| StudentMapping.WriteMasterHit | src/components/Students/StudentForm.tsx:133-134 | an entry whose item has an id sets `master_<type>` to that id |
| StudentMapping.WriteMasterMiss | src/components/Students/StudentForm.tsx:133 | a type none of whose entries has an id keeps its earlier value |
| StudentMapping.WriteDyn | src/components/Students/StudentForm.tsx:140-144 | the dynamic loop; specified by `WriteDynFrame` and `WriteDynHit` |
| StudentMapping.WriteDynFrame | src/components/Students/StudentForm.tsx:140-144 | the dynamic loop touches only `dyn_` keys |
| StudentMapping.WriteDynHit | src/components/Students/StudentForm.tsx:142 | every dynamic value is written to `dyn_<key>` |
| StudentMapping.ParentAddressFrame | src/components/Students/StudentForm.tsx:147-155 | the nine parent and address members become the core value or `''`, all else kept |
| StudentMapping.MappedFormNoneIff | src/components/Students/StudentForm.tsx:120 | the mapping is null iff `core` is absent |
| StudentMapping.MasterSelectionMapped | src/components/Students/StudentForm.tsx:131-137 | a master entry with an id sets its key to that id; otherwise the core's own value stays |
| StudentMapping.DynamicValueMapped | src/components/Students/StudentForm.tsx:140-144 | each stored dynamic value appears under its `dyn_` key |
| StudentMapping.FixedMembersMapped | src/components/Students/StudentForm.tsx:125-127 | parent and address members default to `''`; dob defaults to null and the two other dates to `now` |
| StudentMapping.DateMemberMapped | src/components/Students/StudentForm.tsx:125-127 | each of the three date members of the edited form is the one derived from the stored core record |
| StudentMapping.CoreMemberCopied | src/components/Students/StudentForm.tsx:123 | every other core member is copied unchanged, and a missing one stays missing |
| StudentMapping.NotDerivedByShape | src/components/Students/StudentForm.tsx:123-155 | a key whose leading characters match none of the date, parent/address, `master_` and `dyn_` keys is copied, not derived |
| StudentMapping.ParentAddressKeyShape | src/components/Students/StudentForm.tsx:147-155 | the nine parent and address keys begin `fa`, `mot` or `cu` |
| StudentValidation.LooksNumeric | src/components/Students/StudentForm.tsx:202-204 | the `^\d+$` test after string conversion; `PassesIff` uses it for the numeric members |
| StudentValidation.Errors | src/components/Students/StudentForm.tsx:193-205 | the validate map; specified by `ErrorsOnlyOnValidatedMembers` and `PassesIff` |
| StudentValidation.PassesIff | src/components/Students/StudentForm.tsx:193-205 | passes iff the eight required members are truthy and each numeric member is empty or all digits |
| StudentValidation.ErrorsOnlyOnValidatedMembers | src/components/Students/StudentForm.tsx:193-205 | errors only on validated members, `Required` on a falsy required member, `Must be numeric` on a filled non-digit one |
| StudentPayload.FieldValues | src/components/Students/StudentForm.tsx:286-297 | specified by `FieldValuesCorrect`, `FieldValuesAppend` and `FieldValuesSingle` |
| StudentPayload.CollectFieldValues | src/components/Students/StudentForm.tsx:286-297 | the `forEach` loop yields `FieldValues` |
| StudentPayload.FieldValuesCorrect | src/components/Students/StudentForm.tsx:286-297 | every loaded field with a filled value (`false` and `0` count) has an entry carrying its fieldId-or-id and the value unchanged, and every entry is such a one |
| StudentPayload.FieldValuesAppend | src/components/Students/StudentForm.tsx:286-297 | the entries follow the load order: two runs of fields give the first run's entries, then the second's |
| StudentPayload.FieldValuesSingle | src/components/Students/StudentForm.tsx:287-296 | one field gives exactly one entry with its id and value when filled, none otherwise |
| StudentPayload.BuildPayload | src/components/Students/StudentForm.tsx:233-297 | the payload literal; specified by `PayloadRenames`, `PayloadCopies`, `DatesSentOnlyWhenSet` and the round trips |
| StudentPayload.PayloadRenames | src/components/Students/StudentForm.tsx:233-283 | both session members come from admissionSessionId, mobile→phone, current*→present*, `master_<TYPE>` → its `*Id` member for the five core types |
| StudentPayload.PayloadCopies | src/components/Students/StudentForm.tsx:233-283 | every member that is not renamed is sent under its own name with the form's value |
| StudentPayload.DatesSentOnlyWhenSet | src/components/Students/StudentForm.tsx:256-259 | each date member is present iff its form value is truthy, and then carries it |
| StudentPayload.RoundTripMaster | src/components/Students/StudentForm.tsx:131-144 | a stored core master item's id reaches the payload under the type's `*Id` member unchanged |
| StudentPayload.RoundTripDynamic | src/components/Students/StudentForm.tsx:131-144 | a filled stored dynamic value reaches the payload unchanged, with the loaded field's id |
| StudentPayload.Dispatch | src/components/Students/StudentForm.tsx:299-311 | the handler wins; otherwise an edit with an id updates that id, else a creation followed by the student list |
| StudentForm.InitialValues | src/components/Students/StudentForm.tsx:161-192 | specified by `BlankFormRejected` and `BlankFormDefaults` |
| StudentForm.BlankFormRejected | src/components/Students/StudentForm.tsx:161-205 | the blank form fails validation, with the first name required |
| StudentForm.BlankFormDefaults | src/components/Students/StudentForm.tsx:161-192 | the blank form's admission session is the selected one or `''`; dob starts null; admission and joining dates start at `now` |
| StudentForm.AfterDepartmentChange | src/components/Students/StudentForm.tsx:431-435 | specified by `CascadeClearsDependents` |
| StudentForm.AfterClassChange | src/components/Students/StudentForm.tsx:446-449 | specified by `CascadeClearsDependents` |
| StudentForm.CascadeClearsDependents | src/components/Students/StudentForm.tsx:431-449 | a department change clears class and section, a class change clears section; each leaves the form failing validation until re-picked, and no other member changes |
| StudentForm.DropdownOptions | src/components/Students/StudentForm.tsx:356-363 | specified by `DropdownOffersLoadedItems`, `PlainDropdownEchoesOptions` and `BareDropdownOffersNothing` |
| StudentForm.DropdownOffersLoadedItems | src/components/Students/StudentForm.tsx:356-363 | a visible master-type dropdown offers one `(id, fieldName)` option per loaded item, sorted by order and a permutation of the response |
| StudentForm.PlainDropdownEchoesOptions | src/components/Students/StudentForm.tsx:358-361 | without a master type, or with one whose list is not loaded (before loading, after a failed load), the static options are offered as `(o, o)` |
| StudentForm.BareDropdownOffersNothing | src/components/Students/StudentForm.tsx:357-361 | with neither a loaded master list nor static options, the dropdown offers nothing |
| StudentForm.EditSendsStoredMaster | src/components/Students/StudentForm.tsx:209-217 | after the merge into the blank form, a stored core master id is submitted unchanged |
| StudentForm.EditSendsStoredDynamic | src/components/Students/StudentForm.tsx:209-217 | after the merge into the blank form, a filled stored dynamic value is submitted unchanged |
| StudentForm.CopiedKeysNotDerived | src/components/Students/StudentForm.tsx:123 | the twelve core members the payload reads by name (or `mobile`) are copied by the flattening |
| StudentForm.EditKeepsCoreMember | src/components/Students/StudentForm.tsx:209-217 | such a stored member survives the merge over the blank form |
| StudentForm.EditSendsStoredCore | src/components/Students/StudentForm.tsx:233-253 | editing sends each stored copied core member back as stored, `mobile` as `phone` |
| StudentForm.EditSendsFormSession | src/components/Students/StudentForm.tsx:234-236 | the stored `academicSessionId` lands under its own name, unread; without a stored `admissionSessionId` both session members carry the blank form's session |
| StudentForm.StudentFormPage.constructor | src/components/Students/StudentForm.tsx:73-76 | metadata loading, nothing loaded, values `InitialValues` |
| StudentForm.StudentFormPage.LoadMetadata | src/components/Students/StudentForm.tsx:81-116 | a failure only ends loading; success sets the visible sorted definitions and the master types, and the master data unless a list request failed |
| StudentForm.StudentFormPage.ApplyInitialValues | src/components/Students/StudentForm.tsx:209-217 | a student with `core` merges its mapped values over the current ones |
| StudentForm.StudentFormPage.ChangeDepartment | src/components/Students/StudentForm.tsx:431-435 | values become `AfterDepartmentChange` |
| StudentForm.StudentFormPage.ChangeClass | src/components/Students/StudentForm.tsx:446-449 | values become `AfterClassChange` |
| StudentForm.StudentFormPage.ChangeValue | src/components/Students/StudentForm.tsx:161-192 | any other input sets its own member only |
| StudentForm.StudentFormPage.Submit | src/components/Students/StudentForm.tsx:228-311 | a submission iff validation passes, with the payload built from the values and loaded definitions, dispatched by `Dispatch` |

## Left out

- The API client, with its network I/O, tokens and redirects, is not part of
  this model. Responses arrive as parameters: an `Option` for a null body and
  a `Result` or a missing map entry for a failed request.
- The React Query hooks, the master-data and student services, and the
  master-data screen are not modelled. Neither are layout, theming or the
  static menu configuration.
- Toast notifications, `console` output, the loading overlays and the
  `submitting` flag are not modelled. Modal open and close is kept only in the
  builder.
- The builder's delete and reorder handlers are not modelled, and neither is
  the entity-type switch (the entity type stays `STUDENT`).
- Dates are opaque values. `new Date(v)` is `Json.ParsedFrom(v)`, and
  `toISOString()` sends the date value itself. The clock is a parameter
  `now`, and the two `new Date()` calls of the initial values read the same
  clock value.
- JavaScript numbers are integers here; floating point is not modelled.
  String lengths count characters, not UTF-16 code units.
- Case mapping covers ASCII only. The `\S` class uses the JavaScript
  whitespace set without line-terminator subtleties beyond it.
- The parallel `Promise.all` fetch of master data becomes a sequential loop
  over the responses.
- Stored master data and dynamic values are entry lists (`Object.entries`)
  assumed to have distinct keys where the lemmas need it.
- DynamicFieldBuilder.Builder.OpenModal: `form.setValues` on an edited
  definition is modelled as replacing the whole record, since the backend
  sends every member.
- StudentForm.StudentFormPage.ApplyInitialValues: `resetDirty` is not modelled
  (dirty tracking is presentation only).
- The academic-session select, the session-name lookup and the `useClasses`
  and `useSections` queries are not modelled. They only feed display data to
  the selects.
