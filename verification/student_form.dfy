/**
 * The student form component's state: the loaded dynamic-field definitions,
 * master types and master-data lists, and the flat form values. Metadata is
 * loaded once, a stored student (when editing) is merged into the values, the
 * department and class selects clear the selects below them, and a valid
 * submission becomes a payload sent to the handler, an update or a creation.
 */
module StudentForm {
  import opened Wrappers
  import opened Json
  import opened FieldTypes
  import opened Sorting
  import opened DynamicFieldService
  import opened StudentMetadata
  import opened StudentMapping
  import opened StudentValidation
  import opened StudentPayload

  /** `s || ''` for a possibly-null string. */
  function StrOrEmpty(s: Option<string>): Value {
    if s.Some? then Str(s.value) else Str("")
  }

  /** The initial members that start as empty strings. */
  const BLANK_TEXT_KEYS: seq<string> := [
    "enrollmentNo", "rollNo", "firstName", "middleName", "lastName", "email", "mobile", "emergencyPhone",
    "departmentId", "classId", "sectionId", "gender",
    "fatherName", "fatherMobile", "motherName", "motherMobile",
    "currentAddress", "currentCity", "currentState", "currentCountry", "currentPincode"]

  /**
   * The form's initial values: every text member empty, the admission session
   * taken from the selected academic session, no date of birth, and both the
   * admission and joining dates set to the clock reading `now`.
   */
  function InitialValues(academicSessionId: Option<string>, now: Date): map<string, Value> {
    (map key | key in BLANK_TEXT_KEYS :: Str(""))
      ["admissionSessionId" := StrOrEmpty(academicSessionId)]
      ["dob" := Null]["admissionDate" := DateValue(now)]["joiningDate" := DateValue(now)]
  }

  /** A blank form cannot be submitted: the first name is required. */
  lemma BlankFormRejected(academicSessionId: Option<string>, now: Date)
    ensures !Passes(InitialValues(academicSessionId, now))
    ensures "firstName" in Errors(InitialValues(academicSessionId, now)) && Errors(InitialValues(academicSessionId, now))["firstName"] == REQUIRED
  {
    var blank := InitialValues(academicSessionId, now);
    assert BLANK_TEXT_KEYS[2] == "firstName";
    assert Get(blank, "firstName") == Some(Str(""));
    ErrorsOnlyOnValidatedMembers(blank, "firstName");
    assert "firstName" in Errors(blank);
  }

  /**
   * The admission session starts as the selected academic session, or empty
   * when none is selected; the date of birth starts null and the other dates at `now`.
   */
  lemma BlankFormDefaults(academicSessionId: Option<string>, now: Date)
    ensures Get(InitialValues(academicSessionId, now), "admissionSessionId")
            == Some(Str(if academicSessionId.Some? then academicSessionId.value else ""))
    ensures Get(InitialValues(academicSessionId, now), "dob") == Some(Null)
    ensures Get(InitialValues(academicSessionId, now), "admissionDate") == Some(DateValue(now))
    ensures Get(InitialValues(academicSessionId, now), "joiningDate") == Some(DateValue(now))
  {
  }

  /** The department select's change: the class and section are cleared with it. */
  function AfterDepartmentChange(values: map<string, Value>, selected: Option<string>): map<string, Value> {
    values["departmentId" := StrOrEmpty(selected)]["classId" := Str("")]["sectionId" := Str("")]
  }

  /** The class select's change: the section is cleared with it. */
  function AfterClassChange(values: map<string, Value>, selected: Option<string>): map<string, Value> {
    values["classId" := StrOrEmpty(selected)]["sectionId" := Str("")]
  }

  /**
   * A new department or class invalidates the selects below it: the form
   * cannot be submitted until a section (and, after a department change, a
   * class) is picked again, and no other member changes.
   */
  lemma CascadeClearsDependents(values: map<string, Value>, selected: Option<string>, key: string)
    ensures !Passes(AfterDepartmentChange(values, selected))
    ensures "classId" in Errors(AfterDepartmentChange(values, selected)) && Errors(AfterDepartmentChange(values, selected))["classId"] == REQUIRED
    ensures "sectionId" in Errors(AfterDepartmentChange(values, selected)) && Errors(AfterDepartmentChange(values, selected))["sectionId"] == REQUIRED
    ensures !Passes(AfterClassChange(values, selected))
    ensures "sectionId" in Errors(AfterClassChange(values, selected)) && Errors(AfterClassChange(values, selected))["sectionId"] == REQUIRED
    ensures key != "departmentId" && key != "classId" && key != "sectionId"
            ==> Get(AfterDepartmentChange(values, selected), key) == Get(values, key)
                && Get(AfterClassChange(values, selected), key) == Get(values, key)
  {
    ErrorsOnlyOnValidatedMembers(AfterDepartmentChange(values, selected), "classId");
    ErrorsOnlyOnValidatedMembers(AfterDepartmentChange(values, selected), "sectionId");
    ErrorsOnlyOnValidatedMembers(AfterClassChange(values, selected), "sectionId");
  }

  /** The `{value, label}` options of a list of master items, in list order. */
  function ItemOptions(items: seq<MasterDataItem>): seq<(string, string)> {
    seq(|items|, i requires 0 <= i < |items| => (items[i].id, items[i].fieldName))
  }

  /**
   * A dynamic dropdown's options: the loaded items of its master type when it
   * names one that was loaded, else its own options (each its own label), else none.
   */
  function DropdownOptions(field: DynamicField, masterData: map<string, seq<MasterDataItem>>): seq<(string, string)> {
    if Present(field.masterType) && field.masterType.value in masterData then ItemOptions(masterData[field.masterType.value])
    else if field.options.Some? then seq(|field.options.value|, i requires 0 <= i < |field.options.value| =>
                                           (field.options.value[i], field.options.value[i]))
    else []
  }

  /**
   * Once the metadata has loaded, a visible dropdown that names a master type
   * offers exactly that type's items, one option per item, ordered by `order`.
   */
  lemma DropdownOffersLoadedItems(fields: seq<DynamicField>, lists: map<string, Option<seq<MasterDataItem>>>,
                                  f: DynamicField, n: nat)
    requires MasterDataFor(MasterTypes(fields), lists).Some?
    requires f in VisibleFields(fields) && NamesMasterType(f)
    ensures f.masterType.value in MasterDataFor(MasterTypes(fields), lists).value
    ensures var items := MasterDataFor(MasterTypes(fields), lists).value[f.masterType.value];
            var options := DropdownOptions(f, MasterDataFor(MasterTypes(fields), lists).value);
            && multiset(items) == multiset(lists[f.masterType.value].GetOr([]))
            && SortedBy(items, OrderKey)
            && |options| == |items|
            && (n < |items| ==> options[n] == (items[n].id, items[n].fieldName))
  {
    VisibleFieldsCorrect(fields);
    DropdownMasterTypeLoaded(fields, f);
    MasterDataSorted(MasterTypes(fields), lists, f.masterType.value);
  }

  /**
   * A dropdown without a master type, or whose master type has no loaded list
   * (before the metadata arrives, or after a failed load), offers its own
   * options, value and label alike.
   */
  lemma PlainDropdownEchoesOptions(f: DynamicField, masterData: map<string, seq<MasterDataItem>>, n: nat)
    requires !(Present(f.masterType) && f.masterType.value in masterData) && f.options.Some?
    ensures |DropdownOptions(f, masterData)| == |f.options.value|
    ensures n < |f.options.value| ==> DropdownOptions(f, masterData)[n] == (f.options.value[n], f.options.value[n])
  {
  }

  /** A dropdown with neither a loaded master list nor options of its own offers nothing. */
  lemma BareDropdownOffersNothing(f: DynamicField, masterData: map<string, seq<MasterDataItem>>)
    requires !(Present(f.masterType) && f.masterType.value in masterData) && f.options.None?
    ensures DropdownOptions(f, masterData) == []
  {
  }

  /**
   * Editing a stored student: once its mapped values are merged over the
   * blank form, each core master selection is sent under its payload member.
   */
  lemma EditSendsStoredMaster(blank: map<string, Value>, student: StudentRecord, now: Date,
                              fields: seq<DynamicField>, i: nat)
    requires student.core.Some? && DistinctKeys(MasterDataOf(student))
    requires i < |MasterDataOf(student)| && HasId(MasterDataOf(student)[i].1)
    requires MasterDataOf(student)[i].0 in ["RELIGION", "BLOOD_GROUP", "NATIONALITY", "CAST_CATEGORY", "HOUSE"]
    ensures BuildPayload(blank + MappedForm(student, now).value, fields).MasterMember(MasterDataOf(student)[i].0)
            == Some(Some(Str(MasterDataOf(student)[i].1.value.id)))
  {
    var mapped := MappedForm(student, now).value;
    var t := MasterDataOf(student)[i].0;
    MasterSelectionMapped(student, now, t);
    assert Get(blank + mapped, MasterKey(t)) == Get(mapped, MasterKey(t));
    PayloadRenames(blank + mapped, fields, t);
  }

  /**
   * Editing a stored student: once its mapped values are merged over the
   * blank form, each filled dynamic value of a loaded field is sent with that field's id.
   */
  lemma EditSendsStoredDynamic(blank: map<string, Value>, student: StudentRecord, now: Date,
                               fields: seq<DynamicField>, j: nat, k: nat)
    requires student.core.Some? && DistinctKeys(DynamicValuesOf(student))
    requires j < |DynamicValuesOf(student)| && k < |fields| && fields[k].name == DynamicValuesOf(student)[j].0
    requires DynamicValuesOf(student)[j].1 != Null && DynamicValuesOf(student)[j].1 != Str("")
    ensures FieldValue(FieldIdOf(fields[k]), DynamicValuesOf(student)[j].1)
            in BuildPayload(blank + MappedForm(student, now).value, fields).dynamicFields
  {
    var mapped := MappedForm(student, now).value;
    DynamicValueMapped(student, now, j);
    assert Get(blank + mapped, DynKey(fields[k].name)) == Get(mapped, DynKey(fields[k].name));
    FieldValuesCorrect(fields, blank + mapped);
  }

  /** The core members the form copies as they are and the payload sends, `mobile` as `phone`. */
  const COPIED_CORE_KEYS: seq<string> := [
    "firstName", "middleName", "lastName", "enrollmentNo", "rollNo", "departmentId", "classId", "sectionId",
    "mobile", "email", "emergencyPhone", "gender"]

  lemma CopiedKeysNotDerived()
    ensures forall key :: key in COPIED_CORE_KEYS ==> !Derived(key)
  {
    forall key | key in COPIED_CORE_KEYS
      ensures !Derived(key)
    {
      NotDerivedByShape(key);
    }
  }

  /** Editing a stored student: a copied core member survives the merge over the blank form. */
  lemma EditKeepsCoreMember(blank: map<string, Value>, student: StudentRecord, now: Date, key: string)
    requires student.core.Some? && key in COPIED_CORE_KEYS && key in student.core.value
    ensures Get(blank + MappedForm(student, now).value, key) == Some(student.core.value[key])
  {
    CopiedKeysNotDerived();
    CoreMemberCopied(student, now, key);
  }

  /**
   * Editing a stored student: each stored core member the form copies is sent
   * back as it was stored, under its own name or, for `mobile`, as `phone`.
   */
  lemma EditSendsStoredCore(blank: map<string, Value>, student: StudentRecord, now: Date, fields: seq<DynamicField>)
    requires student.core.Some?
    ensures var core := student.core.value;
            var p := BuildPayload(blank + MappedForm(student, now).value, fields);
            && ("firstName" in core ==> p.firstName == Some(core["firstName"]))
            && ("middleName" in core ==> p.middleName == Some(core["middleName"]))
            && ("lastName" in core ==> p.lastName == Some(core["lastName"]))
            && ("enrollmentNo" in core ==> p.enrollmentNo == Some(core["enrollmentNo"]))
            && ("rollNo" in core ==> p.rollNo == Some(core["rollNo"]))
            && ("departmentId" in core ==> p.departmentId == Some(core["departmentId"]))
            && ("classId" in core ==> p.classId == Some(core["classId"]))
            && ("sectionId" in core ==> p.sectionId == Some(core["sectionId"]))
            && ("mobile" in core ==> p.phone == Some(core["mobile"]))
            && ("email" in core ==> p.email == Some(core["email"]))
            && ("emergencyPhone" in core ==> p.emergencyPhone == Some(core["emergencyPhone"]))
            && ("gender" in core ==> p.gender == Some(core["gender"]))
  {
    var values := blank + MappedForm(student, now).value;
    PayloadCopies(values, fields);
    PayloadRenames(values, fields, "");
    forall key | key in COPIED_CORE_KEYS && key in student.core.value
      ensures Get(values, key) == Some(student.core.value[key])
    {
      EditKeepsCoreMember(blank, student, now, key);
    }
  }

  /**
   * Editing a stored student: the core record carries `academicSessionId`,
   * which the form copies under that name, while the payload's two session
   * members read `admissionSessionId`. Unless the stored record has an
   * `admissionSessionId`, an edit sends the blank form's session (the one
   * selected in the session context), not the stored one.
   */
  lemma EditSendsFormSession(blank: map<string, Value>, student: StudentRecord, now: Date, fields: seq<DynamicField>)
    requires student.core.Some? && "admissionSessionId" !in student.core.value
    ensures Get(blank + MappedForm(student, now).value, "academicSessionId")
            == (if "academicSessionId" in student.core.value then Some(student.core.value["academicSessionId"])
                else Get(blank, "academicSessionId"))
    ensures BuildPayload(blank + MappedForm(student, now).value, fields).academicSessionId == Get(blank, "admissionSessionId")
    ensures BuildPayload(blank + MappedForm(student, now).value, fields).admissionSessionId == Get(blank, "admissionSessionId")
  {
    var values := blank + MappedForm(student, now).value;
    NotDerivedByShape("admissionSessionId");
    NotDerivedByShape("academicSessionId");
    CoreMemberCopied(student, now, "admissionSessionId");
    CoreMemberCopied(student, now, "academicSessionId");
    PayloadRenames(values, fields, "");
  }

  /** The state of one mounted student form. */
  class StudentFormPage {
    var loadingMeta: bool
    var masterTypes: seq<string>
    var masterData: map<string, seq<MasterDataItem>>
    var dynamicFields: seq<DynamicField>
    var values: map<string, Value>

    /** A freshly mounted form: blank values and metadata still loading. */
    constructor(academicSessionId: Option<string>, now: Date)
      ensures values == InitialValues(academicSessionId, now)
      ensures loadingMeta && masterTypes == [] && masterData == map[] && dynamicFields == []
    {
      loadingMeta := true;
      masterTypes := [];
      masterData := map[];
      dynamicFields := [];
      values := InitialValues(academicSessionId, now);
    }

    /**
     * `loadMetadata`: a failed definitions request changes nothing but the
     * loading flag; otherwise the visible definitions (by priority) and the
     * master types are set, and the master data too unless one of its requests
     * failed. Loading ends either way.
     */
    method LoadMetadata(fieldsResponse: Result<Option<seq<DynamicField>>>,
                        lists: map<string, Option<seq<MasterDataItem>>>)
      modifies this
      ensures !loadingMeta && values == old(values)
      ensures fieldsResponse.Err? ==> dynamicFields == old(dynamicFields) && masterTypes == old(masterTypes)
                                      && masterData == old(masterData)
      ensures fieldsResponse.Ok? ==>
                var all := GetByEntity(fieldsResponse.value);
                && dynamicFields == VisibleFields(all)
                && masterTypes == MasterTypes(all)
                && masterData == MasterDataFor(masterTypes, lists).GetOr(old(masterData))
    {
      if fieldsResponse.Ok? {
        var all := GetByEntity(fieldsResponse.value);
        dynamicFields := VisibleFields(all);
        masterTypes := MasterTypes(all);
        var loaded := FillMasterData(masterTypes, lists);
        if loaded.Some? {
          masterData := loaded.value;
        }
      }
      loadingMeta := false;
    }

    /** Merges a stored student's mapped values over the current ones; a student without `core` changes nothing. */
    method ApplyInitialValues(student: StudentRecord, now: Date)
      modifies this
      ensures student.core.None? ==> values == old(values)
      ensures student.core.Some? ==> values == old(values) + MappedForm(student, now).value
      ensures loadingMeta == old(loadingMeta) && masterTypes == old(masterTypes)
      ensures masterData == old(masterData) && dynamicFields == old(dynamicFields)
    {
      var mapped := MapStudentToForm(student, now);
      if mapped.Some? {
        values := values + mapped.value;
      }
    }

    /** The department select's `onChange`. */
    method ChangeDepartment(selected: Option<string>)
      modifies this
      ensures values == AfterDepartmentChange(old(values), selected)
      ensures loadingMeta == old(loadingMeta) && masterTypes == old(masterTypes)
      ensures masterData == old(masterData) && dynamicFields == old(dynamicFields)
    {
      values := values["departmentId" := StrOrEmpty(selected)];
      values := values["classId" := Str("")];
      values := values["sectionId" := Str("")];
    }

    /** The class select's `onChange`. */
    method ChangeClass(selected: Option<string>)
      modifies this
      ensures values == AfterClassChange(old(values), selected)
      ensures loadingMeta == old(loadingMeta) && masterTypes == old(masterTypes)
      ensures masterData == old(masterData) && dynamicFields == old(dynamicFields)
    {
      values := values["classId" := StrOrEmpty(selected)];
      values := values["sectionId" := Str("")];
    }

    /** Any other input's change. */
    method ChangeValue(key: string, v: Value)
      modifies this
      ensures values == old(values)[key := v]
      ensures loadingMeta == old(loadingMeta) && masterTypes == old(masterTypes)
      ensures masterData == old(masterData) && dynamicFields == old(dynamicFields)
    {
      values := values[key := v];
    }

    /**
     * The form's submit: nothing happens unless every validator passes;
     * then the payload built from the values and the loaded definitions is
     * dispatched to the handler, an update or a creation.
     */
    method Submit(hasHandler: bool, isEdit: bool, initialId: Option<string>) returns (submission: Option<Submission>)
      ensures submission.Some? <==> Passes(values)
      ensures submission.Some? ==> submission.value.payload == BuildPayload(values, dynamicFields)
      ensures submission.Some? ==> submission.value == Dispatch(hasHandler, isEdit, initialId, submission.value.payload)
    {
      if Errors(values) != map[] {
        return None;
      }
      var fieldValues := CollectFieldValues(dynamicFields, values);
      var payload := BuildPayload(values, []).(dynamicFields := fieldValues);
      submission := Some(Dispatch(hasHandler, isEdit, initialId, payload));
    }
  }
}
