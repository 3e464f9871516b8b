/**
 * The academic-session provider: the selected session id, whether it has been
 * initialised, and the browser's stored copy under `academicSessionId`.
 * Browser storage is a field of the state; the current-session query is a
 * parameter (its value at mount, and later when it arrives).
 */
module AcademicSession {
  import opened Wrappers

  const STORAGE_KEY := "academicSessionId"
  const OUTSIDE_PROVIDER := "useAcademicSessionContext must be used within an AcademicSessionProvider"

  /** JavaScript truthiness of a `string | null`. */
  predicate Truthy(o: Option<string>) {
    o.Some? && o.value != ""
  }

  /** `academicSessionId`, `isInitialized`, and the stored value under STORAGE_KEY. */
  datatype SessionState = SessionState(selection: Option<string>, initialized: bool, stored: Option<string>)

  /** The provider keeps its selection and the stored copy in step, and is only initialised with a selection. */
  predicate Consistent(s: SessionState) {
    (s.selection.Some? ==> s.stored == s.selection) && (s.initialized ==> s.selection.Some?)
  }

  /** The first render: nothing selected, not initialised. */
  function Initial(stored: Option<string>): SessionState {
    SessionState(None, false, stored)
  }

  /**
   * The mount commit. Both effects run against the first render's values
   * (nothing selected, not initialised): the storage effect adopts a truthy
   * stored id, then the current-session effect, if the current session is
   * already known, adopts and stores its id; the later update wins.
   */
  function AfterMount(stored: Option<string>, currentAtMount: Option<string>): SessionState {
    var afterStorage := if Truthy(stored) then SessionState(stored, true, stored) else Initial(stored);
    if Truthy(currentAtMount) then SessionState(currentAtMount, true, currentAtMount) else afterStorage
  }

  /** The current-session effect on a later render, when the query's data changes. */
  function AfterSync(s: SessionState, current: Option<string>): SessionState {
    if !s.initialized && Truthy(current) && !Truthy(s.selection) then SessionState(current, true, current)
    else s
  }

  /** `setAcademicSessionId`: select and store; `isInitialized` is left as it is. */
  function AfterSet(s: SessionState, id: string): SessionState {
    SessionState(Some(id), s.initialized, Some(id))
  }

  /** `isLoading`: only while not initialised and the current session is being fetched. */
  function IsLoading(s: SessionState, isFetchingCurrent: bool): bool {
    !s.initialized && isFetchingCurrent
  }

  /** With the current session not yet known at mount, a truthy stored id is adopted as is, and nothing else is. */
  lemma MountAdoptsStoredId(stored: Option<string>, currentAtMount: Option<string>)
    requires !Truthy(currentAtMount)
    ensures AfterMount(stored, currentAtMount).initialized <==> Truthy(stored)
    ensures AfterMount(stored, currentAtMount).selection == (if Truthy(stored) then stored else None)
    ensures AfterMount(stored, currentAtMount).stored == stored
  {
  }

  /** A current session already known at mount replaces the stored id, in memory and in storage. */
  lemma MountPrefersKnownCurrent(stored: Option<string>, currentAtMount: Option<string>)
    requires Truthy(currentAtMount)
    ensures AfterMount(stored, currentAtMount) == SessionState(currentAtMount, true, currentAtMount)
  {
  }

  /** The current session is adopted exactly when not initialised and nothing truthy is selected. */
  lemma SyncAdoptsOnlyWhenUnset(s: SessionState, current: Option<string>)
    ensures AfterSync(s, current) != s <==> !s.initialized && Truthy(current) && !Truthy(s.selection)
    ensures AfterSync(s, current) != s ==> AfterSync(s, current) == SessionState(current, true, current)
  {
  }

  /** Once initialised, later current-session data never changes the selection. */
  lemma InitializedIgnoresCurrent(s: SessionState, current: Option<string>)
    requires s.initialized
    ensures AfterSync(s, current) == s
  {
  }

  /** Choosing a session selects and stores it whatever the state, and does not touch `isInitialized`. */
  lemma SetSelectsAndStores(s: SessionState, id: string)
    ensures AfterSet(s, id).selection == Some(id) && AfterSet(s, id).stored == Some(id)
    ensures AfterSet(s, id).initialized == s.initialized
    ensures AfterSync(AfterSet(s, id), Some(id)) == AfterSet(s, id)
  {
  }

  /** Every step keeps the selection and the stored copy in step. */
  lemma StepsKeepConsistent(s: SessionState, stored: Option<string>, current: Option<string>, id: string)
    ensures Consistent(Initial(stored))
    ensures Consistent(AfterMount(stored, current))
    ensures Consistent(s) ==> Consistent(AfterSync(s, current)) && Consistent(AfterSet(s, id))
  {
  }

  /** Loading ends as soon as any id has been adopted at mount, whatever the query is doing. */
  lemma AdoptionEndsLoading(stored: Option<string>, currentAtMount: Option<string>, isFetchingCurrent: bool)
    requires Truthy(stored) || Truthy(currentAtMount)
    ensures !IsLoading(AfterMount(stored, currentAtMount), isFetchingCurrent)
  {
  }

  /** `useAcademicSessionContext`: the provider's value, or the error it throws outside a provider. */
  function UseContext(provided: Option<SessionState>): (r: Result<SessionState>)
    ensures r.Ok? <==> provided.Some?
    ensures r.Ok? ==> r.value == provided.value
    ensures r.Err? ==> r.message == OUTSIDE_PROVIDER
  {
    match provided
    case None => Err(OUTSIDE_PROVIDER)
    case Some(s) => Ok(s)
  }

  /** The provider component, its two state hooks and the storage it writes through. */
  class AcademicSessionProvider {
    var academicSessionId: Option<string>
    var isInitialized: bool
    var stored: Option<string>

    function State(): SessionState
      reads this
    {
      SessionState(academicSessionId, isInitialized, stored)
    }

    ghost predicate Valid()
      reads this
    {
      Consistent(State())
    }

    /** The first render, before any effect runs. */
    constructor (storedAtStart: Option<string>)
      ensures State() == Initial(storedAtStart) && Valid()
    {
      academicSessionId := None;
      isInitialized := false;
      stored := storedAtStart;
    }

    /** The mount commit: the storage effect, then the current-session effect, both on the first render's values. */
    method Mount(currentAtMount: Option<string>)
      requires State() == Initial(stored)
      modifies this
      ensures State() == AfterMount(old(stored), currentAtMount) && Valid()
    {
      var snapshotInitialized := isInitialized;
      var snapshotSelection := academicSessionId;
      var storedId := stored;
      if Truthy(storedId) {
        academicSessionId := storedId;
        isInitialized := true;
      }
      if !snapshotInitialized && Truthy(currentAtMount) && !Truthy(snapshotSelection) {
        academicSessionId := currentAtMount;
        stored := currentAtMount;
        isInitialized := true;
      }
    }

    /** The current-session effect after the query's data changes. */
    method SyncCurrentSession(current: Option<string>)
      requires Valid()
      modifies this
      ensures State() == AfterSync(old(State()), current) && Valid()
    {
      if !isInitialized && Truthy(current) && !Truthy(academicSessionId) {
        academicSessionId := current;
        stored := current;
        isInitialized := true;
      }
    }

    method SetAcademicSessionId(id: string)
      requires Valid()
      modifies this
      ensures State() == AfterSet(old(State()), id) && Valid()
    {
      academicSessionId := Some(id);
      stored := Some(id);
    }

    function IsLoadingNow(isFetchingCurrent: bool): (loading: bool)
      reads this
      ensures loading ==> !isInitialized
    {
      IsLoading(State(), isFetchingCurrent)
    }
  }
}
