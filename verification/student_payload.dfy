/**
 * The student submission: the flat form values are turned into the API's
 * payload (renamed members plus the `dynamicFields` list of `{fieldId, value}`
 * entries), which then goes to the caller's handler, an update or a creation.
 */
module StudentPayload {
  import opened Wrappers
  import opened Strings
  import opened Json
  import opened FieldTypes
  import opened DynamicFieldService
  import opened StudentMapping

  /** One `{fieldId, value}` entry of `dynamicFields`. */
  datatype FieldValue = FieldValue(fieldId: string, value: Value)

  /**
   * The payload object literal: one member per key it writes (`None` is
   * `undefined`, which is not serialised), and the dynamic entries.
   */
  datatype Payload = Payload(
    academicSessionId: Option<Value>, admissionSessionId: Option<Value>,
    firstName: Option<Value>, middleName: Option<Value>, lastName: Option<Value>,
    enrollmentNo: Option<Value>, rollNo: Option<Value>,
    departmentId: Option<Value>, classId: Option<Value>, sectionId: Option<Value>,
    phone: Option<Value>, email: Option<Value>, emergencyPhone: Option<Value>,
    dateOfBirth: Option<Value>, gender: Option<Value>, joiningDate: Option<Value>, admissionDate: Option<Value>,
    religionId: Option<Value>, bloodGroupId: Option<Value>, nationalityId: Option<Value>,
    categoryId: Option<Value>, houseId: Option<Value>,
    fatherName: Option<Value>, fatherMobile: Option<Value>, motherName: Option<Value>, motherMobile: Option<Value>,
    presentAddress: Option<Value>, presentCity: Option<Value>, presentState: Option<Value>,
    presentCountry: Option<Value>, presentPincode: Option<Value>,
    dynamicFields: seq<FieldValue>)
  {
    /** The member that carries a core master type's selection. */
    function MasterMember(masterType: string): Option<Option<Value>> {
      if masterType == "RELIGION" then Some(religionId)
      else if masterType == "BLOOD_GROUP" then Some(bloodGroupId)
      else if masterType == "NATIONALITY" then Some(nationalityId)
      else if masterType == "CAST_CATEGORY" then Some(categoryId)
      else if masterType == "HOUSE" then Some(houseId)
      else None
    }
  }

  /** `values[src] ? values[src].toISOString() : undefined` (the date is carried as it is). */
  function DateOf(values: map<string, Value>, src: string): Option<Value> {
    if TruthyAt(values, src) then Some(values[src]) else None
  }

  /** `field.fieldId || field.id || ''`. */
  function FieldIdOf(field: DynamicField): string {
    if Present(field.fieldId) then field.fieldId.value
    else if Present(field.id) then field.id.value
    else ""
  }

  /** `val !== undefined && val !== null && val !== ''`. */
  predicate Filled(v: Option<Value>) {
    v.Some? && v.value != Null && v.value != Str("")
  }

  /** The entries for the given fields, in their order: one per field whose `dyn_` value is filled. */
  function FieldValues(fields: seq<DynamicField>, values: map<string, Value>): seq<FieldValue>
    decreases |fields|
  {
    if fields == [] then []
    else
      var before := FieldValues(fields[..|fields| - 1], values);
      var field := fields[|fields| - 1];
      var v := Get(values, DynKey(field.name));
      if Filled(v) then before + [FieldValue(FieldIdOf(field), v.value)] else before
  }

  /** The `forEach` that pushes one entry per filled dynamic field. */
  method CollectFieldValues(fields: seq<DynamicField>, values: map<string, Value>) returns (fieldValues: seq<FieldValue>)
    ensures fieldValues == FieldValues(fields, values)
  {
    fieldValues := [];
    for i := 0 to |fields|
      invariant fieldValues == FieldValues(fields[..i], values)
    {
      var field := fields[i];
      var key := DynKey(field.name);
      assert fields[..i + 1][..i] == fields[..i];
      if key in values {
        var val := values[key];
        if val != Null && val != Str("") {
          fieldValues := fieldValues + [FieldValue(FieldIdOf(field), val)];
        }
      }
    }
    assert fields[..|fields|] == fields;
  }

  /**
   * Every entry comes from a loaded field with a filled value, carrying that
   * field's id and value, and every loaded field with a filled value has one;
   * `false` and `0` count as filled.
   */
  lemma {:induction false} FieldValuesCorrect(fields: seq<DynamicField>, values: map<string, Value>)
    ensures |FieldValues(fields, values)| <= |fields|
    ensures Filled(Some(Bool(false))) && Filled(Some(Num(0))) && !Filled(Some(Str(""))) && !Filled(Some(Null)) && !Filled(None)
    ensures forall e :: e in FieldValues(fields, values) ==> e.value != Null && e.value != Str("")
    ensures forall e :: e in FieldValues(fields, values)
              ==> exists i :: 0 <= i < |fields| && Filled(Get(values, DynKey(fields[i].name)))
                              && e == FieldValue(FieldIdOf(fields[i]), values[DynKey(fields[i].name)])
    ensures forall i :: 0 <= i < |fields| && Filled(Get(values, DynKey(fields[i].name)))
              ==> FieldValue(FieldIdOf(fields[i]), values[DynKey(fields[i].name)]) in FieldValues(fields, values)
    decreases |fields|
  {
    if fields != [] {
      var init := fields[..|fields| - 1];
      FieldValuesCorrect(init, values);
      forall e | e in FieldValues(fields, values)
        ensures exists i :: 0 <= i < |fields| && Filled(Get(values, DynKey(fields[i].name)))
                            && e == FieldValue(FieldIdOf(fields[i]), values[DynKey(fields[i].name)])
      {
        if e in FieldValues(init, values) {
          var i :| 0 <= i < |init| && Filled(Get(values, DynKey(init[i].name)))
                   && e == FieldValue(FieldIdOf(init[i]), values[DynKey(init[i].name)]);
          assert fields[i] == init[i];
        }
      }
      forall i | 0 <= i < |fields| && Filled(Get(values, DynKey(fields[i].name)))
        ensures FieldValue(FieldIdOf(fields[i]), values[DynKey(fields[i].name)]) in FieldValues(fields, values)
      {
        if i < |init| {
          assert fields[i] == init[i];
        }
      }
    }
  }

  /**
   * The entries follow the load order: the entries for two runs of fields are
   * the first run's entries followed by the second's.
   */
  lemma {:induction false} FieldValuesAppend(a: seq<DynamicField>, b: seq<DynamicField>, values: map<string, Value>)
    ensures FieldValues(a + b, values) == FieldValues(a, values) + FieldValues(b, values)
    decreases |b|
  {
    if b == [] {
      assert a + b == a;
    } else {
      var init := b[..|b| - 1];
      assert (a + b)[..|a + b| - 1] == a + init;
      FieldValuesAppend(a, init, values);
    }
  }

  /** A single field yields exactly one entry, with its id and value, when its value is filled, and none otherwise. */
  lemma FieldValuesSingle(field: DynamicField, values: map<string, Value>)
    ensures |FieldValues([field], values)| == (if Filled(Get(values, DynKey(field.name))) then 1 else 0)
    ensures Filled(Get(values, DynKey(field.name)))
            ==> FieldValues([field], values) == [FieldValue(FieldIdOf(field), values[DynKey(field.name)])]
  {
    assert [field][..0] == [];
  }

  /** The payload for the given form values and loaded dynamic fields. */
  function BuildPayload(values: map<string, Value>, fields: seq<DynamicField>): Payload {
    Payload(
      Get(values, "admissionSessionId"), Get(values, "admissionSessionId"),
      Get(values, "firstName"), Get(values, "middleName"), Get(values, "lastName"),
      Get(values, "enrollmentNo"), Get(values, "rollNo"),
      Get(values, "departmentId"), Get(values, "classId"), Get(values, "sectionId"),
      Get(values, "mobile"), Get(values, "email"), Get(values, "emergencyPhone"),
      DateOf(values, "dob"), Get(values, "gender"), DateOf(values, "joiningDate"), DateOf(values, "admissionDate"),
      Get(values, MasterKey("RELIGION")), Get(values, MasterKey("BLOOD_GROUP")), Get(values, MasterKey("NATIONALITY")),
      Get(values, MasterKey("CAST_CATEGORY")), Get(values, MasterKey("HOUSE")),
      Get(values, "fatherName"), Get(values, "fatherMobile"), Get(values, "motherName"), Get(values, "motherMobile"),
      Get(values, "currentAddress"), Get(values, "currentCity"), Get(values, "currentState"),
      Get(values, "currentCountry"), Get(values, "currentPincode"),
      FieldValues(fields, values))
  }

  /**
   * The renames: the admission session fills both session members, `mobile` is
   * sent as `phone`, the `current*` address as `present*`, and each core master
   * selection under its `*Id` member.
   */
  lemma PayloadRenames(values: map<string, Value>, fields: seq<DynamicField>, t: string)
    ensures BuildPayload(values, fields).academicSessionId == Get(values, "admissionSessionId")
    ensures BuildPayload(values, fields).admissionSessionId == Get(values, "admissionSessionId")
    ensures BuildPayload(values, fields).phone == Get(values, "mobile")
    ensures BuildPayload(values, fields).presentAddress == Get(values, "currentAddress")
    ensures BuildPayload(values, fields).presentCity == Get(values, "currentCity")
    ensures BuildPayload(values, fields).presentState == Get(values, "currentState")
    ensures BuildPayload(values, fields).presentCountry == Get(values, "currentCountry")
    ensures BuildPayload(values, fields).presentPincode == Get(values, "currentPincode")
    ensures t in ["RELIGION", "BLOOD_GROUP", "NATIONALITY", "CAST_CATEGORY", "HOUSE"]
            <==> BuildPayload(values, fields).MasterMember(t).Some?
    ensures BuildPayload(values, fields).MasterMember(t).Some?
            ==> BuildPayload(values, fields).MasterMember(t).value == Get(values, MasterKey(t))
  {
  }

  /** Every member that is not renamed is sent under its own name, as it is in the form. */
  lemma PayloadCopies(values: map<string, Value>, fields: seq<DynamicField>)
    ensures BuildPayload(values, fields).firstName == Get(values, "firstName")
    ensures BuildPayload(values, fields).middleName == Get(values, "middleName")
    ensures BuildPayload(values, fields).lastName == Get(values, "lastName")
    ensures BuildPayload(values, fields).enrollmentNo == Get(values, "enrollmentNo")
    ensures BuildPayload(values, fields).rollNo == Get(values, "rollNo")
    ensures BuildPayload(values, fields).departmentId == Get(values, "departmentId")
    ensures BuildPayload(values, fields).classId == Get(values, "classId")
    ensures BuildPayload(values, fields).sectionId == Get(values, "sectionId")
    ensures BuildPayload(values, fields).email == Get(values, "email")
    ensures BuildPayload(values, fields).emergencyPhone == Get(values, "emergencyPhone")
    ensures BuildPayload(values, fields).gender == Get(values, "gender")
    ensures BuildPayload(values, fields).fatherName == Get(values, "fatherName")
    ensures BuildPayload(values, fields).fatherMobile == Get(values, "fatherMobile")
    ensures BuildPayload(values, fields).motherName == Get(values, "motherName")
    ensures BuildPayload(values, fields).motherMobile == Get(values, "motherMobile")
  {
  }

  /** A date is sent only when set, and then as it is; a cleared date of birth leaves `dateOfBirth` out. */
  lemma DatesSentOnlyWhenSet(values: map<string, Value>, fields: seq<DynamicField>)
    ensures BuildPayload(values, fields).dateOfBirth.Some? <==> TruthyAt(values, "dob")
    ensures BuildPayload(values, fields).dateOfBirth.Some? ==> BuildPayload(values, fields).dateOfBirth.value == values["dob"]
    ensures BuildPayload(values, fields).joiningDate.Some? <==> TruthyAt(values, "joiningDate")
    ensures BuildPayload(values, fields).joiningDate.Some?
            ==> BuildPayload(values, fields).joiningDate.value == values["joiningDate"]
    ensures BuildPayload(values, fields).admissionDate.Some? <==> TruthyAt(values, "admissionDate")
    ensures BuildPayload(values, fields).admissionDate.Some?
            ==> BuildPayload(values, fields).admissionDate.value == values["admissionDate"]
  {
  }

  /**
   * A stored student's core master selection survives the trip through the
   * form unchanged: the item id loaded into `master_<TYPE>` is sent under the
   * type's `*Id` member.
   */
  lemma RoundTripMaster(student: StudentRecord, now: Date, fields: seq<DynamicField>, i: nat)
    requires student.core.Some? && DistinctKeys(MasterDataOf(student))
    requires i < |MasterDataOf(student)| && HasId(MasterDataOf(student)[i].1)
    requires MasterDataOf(student)[i].0 in ["RELIGION", "BLOOD_GROUP", "NATIONALITY", "CAST_CATEGORY", "HOUSE"]
    ensures BuildPayload(MappedForm(student, now).value, fields).MasterMember(MasterDataOf(student)[i].0)
            == Some(Some(Str(MasterDataOf(student)[i].1.value.id)))
  {
    var t := MasterDataOf(student)[i].0;
    MasterSelectionMapped(student, now, t);
    PayloadRenames(MappedForm(student, now).value, fields, t);
  }

  /**
   * A filled stored value of a loaded dynamic field survives the trip through
   * the form unchanged and is sent with that field's id.
   */
  lemma RoundTripDynamic(student: StudentRecord, now: Date, fields: seq<DynamicField>, j: nat, k: nat)
    requires student.core.Some? && DistinctKeys(DynamicValuesOf(student))
    requires j < |DynamicValuesOf(student)| && k < |fields| && fields[k].name == DynamicValuesOf(student)[j].0
    requires DynamicValuesOf(student)[j].1 != Null && DynamicValuesOf(student)[j].1 != Str("")
    ensures FieldValue(FieldIdOf(fields[k]), DynamicValuesOf(student)[j].1)
            in BuildPayload(MappedForm(student, now).value, fields).dynamicFields
  {
    DynamicValueMapped(student, now, j);
    FieldValuesCorrect(fields, MappedForm(student, now).value);
  }

  /** Where a valid submission goes. */
  datatype Submission =
    | ToHandler(payload: Payload)
    | UpdateStudent(id: string, payload: Payload)
    | CreateStudent(payload: Payload, thenNavigateTo: string)

  const STUDENTS_PAGE := "/admin/students"

  /**
   * The caller's handler takes precedence; otherwise an edit of a record with
   * an id updates it, and anything else creates a student and then opens the list.
   */
  function Dispatch(hasHandler: bool, isEdit: bool, initialId: Option<string>, payload: Payload): (s: Submission)
    ensures s.ToHandler? <==> hasHandler
    ensures s.UpdateStudent? <==> !hasHandler && isEdit && Present(initialId)
    ensures s.UpdateStudent? ==> s.id == initialId.value
    ensures s.CreateStudent? ==> s.thenNavigateTo == STUDENTS_PAGE
    ensures s.payload == payload
  {
    if hasHandler then ToHandler(payload)
    else if isEdit && Present(initialId) then UpdateStudent(initialId.value, payload)
    else CreateStudent(payload, STUDENTS_PAGE)
  }
}
