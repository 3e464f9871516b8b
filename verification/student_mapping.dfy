/**
 * `mapStudentToForm`: how a stored student (a core record, the chosen master-data
 * item per type, and the dynamic-field values) is flattened into the form's
 * single map of values, with `master_<TYPE>` and `dyn_<name>` keys.
 */
module StudentMapping {
  import opened Wrappers
  import opened Strings
  import opened Json
  import opened FieldTypes

  /** An object's `Object.entries`: its members as (key, value) pairs, in order. */
  type Entries<V> = seq<(string, V)>

  /** The keys of an object's entries are distinct. */
  ghost predicate DistinctKeys<V>(e: Entries<V>) {
    forall i, j :: 0 <= i < j < |e| ==> e[i].0 != e[j].0
  }

  /** A stored student as the backend returns it; absent parts are `None`. */
  datatype StudentRecord = StudentRecord(
    id: Option<string>,
    core: Option<map<string, Value>>,
    masterData: Option<Entries<Option<MasterDataItem>>>,
    dynamicValues: Option<Entries<Value>>)

  const MASTER_PREFIX := "master_"
  const DYN_PREFIX := "dyn_"

  /** The form key of a master type's selection. */
  function MasterKey(masterType: string): (key: string)
    ensures StartsWith(key, MASTER_PREFIX) && key[|MASTER_PREFIX|..] == masterType
    ensures !StartsWith(key, DYN_PREFIX)
  {
    var key := MASTER_PREFIX + masterType;
    assert key[..|DYN_PREFIX|][0] == 'm';
    key
  }

  /** The form key of a dynamic field's value. */
  function DynKey(name: string): (key: string)
    ensures StartsWith(key, DYN_PREFIX) && key[|DYN_PREFIX|..] == name
    ensures !StartsWith(key, MASTER_PREFIX)
  {
    var key := DYN_PREFIX + name;
    assert |key| >= |MASTER_PREFIX| ==> key[..|MASTER_PREFIX|][0] == 'd';
    key
  }

  /** The parent and address members, which the form always holds as strings. */
  const PARENT_ADDRESS_KEYS: seq<string> := ["fatherName", "fatherMobile", "motherName", "motherMobile",
    "currentAddress", "currentCity", "currentState", "currentCountry", "currentPincode"]

  /** The three dates the form converts. */
  const DATE_KEYS: seq<string> := ["dob", "admissionDate", "joiningDate"]

  /** A key the form derives rather than copying from the core record. */
  predicate Derived(key: string) {
    key in PARENT_ADDRESS_KEYS || key in DATE_KEYS || StartsWith(key, MASTER_PREFIX) || StartsWith(key, DYN_PREFIX)
  }

  /**
   * A key whose first characters match none of the derived keys' (`fa…`,
   * `mot…`, `cu…`, `do…`, `j…`, 13-character `a…`, `ma…`, `dy…`) is copied.
   */
  lemma NotDerivedByShape(key: string)
    requires |key| >= 3 && key[0] != 'j'
    requires !(key[0] == 'f' && key[1] == 'a') && !(key[0] == 'm' && key[1] == 'o' && key[2] == 't')
    requires !(key[0] == 'c' && key[1] == 'u') && !(key[0] == 'm' && key[1] == 'a')
    requires !(key[0] == 'd' && key[1] == 'o') && !(key[0] == 'd' && key[1] == 'y')
    requires key[0] == 'a' ==> |key| != 13
    ensures !Derived(key)
  {
    forall p | p in PARENT_ADDRESS_KEYS
      ensures p != key
    {
      ParentAddressKeyShape(p);
    }
    forall p | p in DATE_KEYS
      ensures p != key
    {
      assert (p[0] == 'd' && p[1] == 'o') || p[0] == 'j' || (p[0] == 'a' && |p| == 13);
    }
    if |key| >= |MASTER_PREFIX| {
      assert key[..|MASTER_PREFIX|][0] == key[0] && key[..|MASTER_PREFIX|][1] == key[1];
    }
    if |key| >= |DYN_PREFIX| {
      assert key[..|DYN_PREFIX|][0] == key[0] && key[..|DYN_PREFIX|][1] == key[1];
    }
  }

  lemma ParentAddressKeyShape(p: string)
    requires p in PARENT_ADDRESS_KEYS
    ensures (p[0] == 'f' && p[1] == 'a') || (p[0] == 'm' && p[1] == 'o' && p[2] == 't') || (p[0] == 'c' && p[1] == 'u')
  {
  }

  /** None of the fixed keys looks like a master or dynamic key. */
  lemma FixedKeysUnprefixed(key: string)
    requires key in PARENT_ADDRESS_KEYS || key in DATE_KEYS
    ensures !StartsWith(key, MASTER_PREFIX) && !StartsWith(key, DYN_PREFIX)
  {
    assert |key| >= 3 && (key[0] != 'm' || key[1] != 'a') && (key[0] != 'd' || key[1] != 'y');
    if |key| >= |MASTER_PREFIX| {
      assert key[..|MASTER_PREFIX|][0] == key[0] && key[..|MASTER_PREFIX|][1] == key[1];
    }
    if |key| >= |DYN_PREFIX| {
      assert key[..|DYN_PREFIX|][0] == key[0] && key[..|DYN_PREFIX|][1] == key[1];
    }
  }

  /** `v ? new Date(v) : fallback`. */
  function DateOr(v: Option<Value>, fallback: Value): Value {
    if v.Some? && Truthy(v.value) then DateValue(ParsedFrom(v.value)) else fallback
  }

  /** The core record spread into the form, with its three dates converted. */
  function BaseForm(core: map<string, Value>, now: Date): map<string, Value> {
    core["dob" := DateOr(Get(core, "dob"), Null)]
        ["admissionDate" := DateOr(Get(core, "admissionDate"), DateValue(now))]
        ["joiningDate" := DateOr(Get(core, "joiningDate"), DateValue(now))]
  }

  predicate HasId(item: Option<MasterDataItem>) {
    item.Some? && item.value.id != ""
  }

  /** The master loop over the given entries: a type whose item has a truthy id writes its key. */
  function WriteMaster(form: map<string, Value>, entries: Entries<Option<MasterDataItem>>): map<string, Value>
    decreases |entries|
  {
    if entries == [] then form
    else
      var before := WriteMaster(form, entries[..|entries| - 1]);
      var (t, item) := entries[|entries| - 1];
      if HasId(item) then before[MasterKey(t) := Str(item.value.id)] else before
  }

  /** The dynamic loop over the given entries: every value writes its `dyn_` key. */
  function WriteDyn(form: map<string, Value>, entries: Entries<Value>): map<string, Value>
    decreases |entries|
  {
    if entries == [] then form
    else
      var before := WriteDyn(form, entries[..|entries| - 1]);
      var (k, v) := entries[|entries| - 1];
      before[DynKey(k) := v]
  }

  /** The nine parent and address members, each `core[key] || ''`. */
  function WithParentAddress(form: map<string, Value>, core: map<string, Value>): map<string, Value> {
    form["fatherName" := OrEmpty(core, "fatherName")]["fatherMobile" := OrEmpty(core, "fatherMobile")]
        ["motherName" := OrEmpty(core, "motherName")]["motherMobile" := OrEmpty(core, "motherMobile")]
        ["currentAddress" := OrEmpty(core, "currentAddress")]["currentCity" := OrEmpty(core, "currentCity")]
        ["currentState" := OrEmpty(core, "currentState")]["currentCountry" := OrEmpty(core, "currentCountry")]
        ["currentPincode" := OrEmpty(core, "currentPincode")]
  }

  function MasterDataOf(student: StudentRecord): Entries<Option<MasterDataItem>> {
    if student.masterData.Some? then student.masterData.value else []
  }

  function DynamicValuesOf(student: StudentRecord): Entries<Value> {
    if student.dynamicValues.Some? then student.dynamicValues.value else []
  }

  /** The flattened form, or `None` for a record without a core. */
  function MappedForm(student: StudentRecord, now: Date): Option<map<string, Value>> {
    if student.core.None? then None
    else
      var core := student.core.value;
      Some(WithParentAddress(WriteDyn(WriteMaster(BaseForm(core, now), MasterDataOf(student)),
                                      DynamicValuesOf(student)), core))
  }

  /** `mapStudentToForm`, step by step: spread and dates, the master loop, the dynamic loop, the nine defaults. */
  method MapStudentToForm(student: StudentRecord, now: Date) returns (flat: Option<map<string, Value>>)
    ensures flat == MappedForm(student, now)
  {
    if student.core.None? {
      return None;
    }
    var core := student.core.value;
    var form := BaseForm(core, now);
    ghost var base := form;
    var masterData := MasterDataOf(student);
    if student.masterData.Some? {
      for i := 0 to |masterData|
        invariant form == WriteMaster(base, masterData[..i])
      {
        var (t, item) := masterData[i];
        assert masterData[..i + 1][..i] == masterData[..i];
        if HasId(item) {
          form := form[MasterKey(t) := Str(item.value.id)];
        }
      }
      assert masterData[..|masterData|] == masterData;
    }
    ghost var mastered := form;
    var values := DynamicValuesOf(student);
    if student.dynamicValues.Some? {
      for i := 0 to |values|
        invariant form == WriteDyn(mastered, values[..i])
      {
        var (k, v) := values[i];
        assert values[..i + 1][..i] == values[..i];
        form := form[DynKey(k) := v];
      }
      assert values[..|values|] == values;
    }
    form := form["fatherName" := OrEmpty(core, "fatherName")];
    form := form["fatherMobile" := OrEmpty(core, "fatherMobile")];
    form := form["motherName" := OrEmpty(core, "motherName")];
    form := form["motherMobile" := OrEmpty(core, "motherMobile")];
    form := form["currentAddress" := OrEmpty(core, "currentAddress")];
    form := form["currentCity" := OrEmpty(core, "currentCity")];
    form := form["currentState" := OrEmpty(core, "currentState")];
    form := form["currentCountry" := OrEmpty(core, "currentCountry")];
    form := form["currentPincode" := OrEmpty(core, "currentPincode")];
    return Some(form);
  }

  /** The master loop touches only `master_` keys. */
  lemma {:induction false} WriteMasterFrame(form: map<string, Value>, entries: Entries<Option<MasterDataItem>>, key: string)
    requires !StartsWith(key, MASTER_PREFIX)
    ensures Get(WriteMaster(form, entries), key) == Get(form, key)
    decreases |entries|
  {
    if entries != [] {
      WriteMasterFrame(form, entries[..|entries| - 1], key);
    }
  }

  /** A type whose item has a truthy id ends up with that id under its `master_` key. */
  lemma {:induction false} WriteMasterHit(form: map<string, Value>, entries: Entries<Option<MasterDataItem>>, i: nat)
    requires DistinctKeys(entries) && i < |entries| && HasId(entries[i].1)
    ensures Get(WriteMaster(form, entries), MasterKey(entries[i].0)) == Some(Str(entries[i].1.value.id))
    decreases |entries|
  {
    var last := |entries| - 1;
    if i < last {
      WriteMasterHit(form, entries[..last], i);
      assert entries[last].0 != entries[i].0;
      assert MasterKey(entries[last].0) != MasterKey(entries[i].0) by {
        assert MasterKey(entries[last].0)[|MASTER_PREFIX|..] == entries[last].0;
      }
    }
  }

  /** A type without a truthy id leaves its `master_` key as the spread put it. */
  lemma {:induction false} WriteMasterMiss(form: map<string, Value>, entries: Entries<Option<MasterDataItem>>, t: string)
    requires forall i :: 0 <= i < |entries| && entries[i].0 == t ==> !HasId(entries[i].1)
    ensures Get(WriteMaster(form, entries), MasterKey(t)) == Get(form, MasterKey(t))
    decreases |entries|
  {
    if entries != [] {
      var last := |entries| - 1;
      WriteMasterMiss(form, entries[..last], t);
      if entries[last].0 != t {
        assert MasterKey(entries[last].0) != MasterKey(t) by {
          assert MasterKey(entries[last].0)[|MASTER_PREFIX|..] == entries[last].0;
        }
      }
    }
  }

  /** The dynamic loop touches only `dyn_` keys. */
  lemma {:induction false} WriteDynFrame(form: map<string, Value>, entries: Entries<Value>, key: string)
    requires !StartsWith(key, DYN_PREFIX)
    ensures Get(WriteDyn(form, entries), key) == Get(form, key)
    decreases |entries|
  {
    if entries != [] {
      WriteDynFrame(form, entries[..|entries| - 1], key);
    }
  }

  /** Every stored dynamic value ends up under its `dyn_` key. */
  lemma {:induction false} WriteDynHit(form: map<string, Value>, entries: Entries<Value>, i: nat)
    requires DistinctKeys(entries) && i < |entries|
    ensures Get(WriteDyn(form, entries), DynKey(entries[i].0)) == Some(entries[i].1)
    decreases |entries|
  {
    var last := |entries| - 1;
    if i < last {
      WriteDynHit(form, entries[..last], i);
      assert entries[last].0 != entries[i].0;
      assert DynKey(entries[last].0) != DynKey(entries[i].0) by {
        assert DynKey(entries[last].0)[|DYN_PREFIX|..] == entries[last].0;
      }
    }
  }

  lemma ParentAddressFrame(form: map<string, Value>, core: map<string, Value>, key: string)
    ensures key in PARENT_ADDRESS_KEYS ==> Get(WithParentAddress(form, core), key) == Some(OrEmpty(core, key))
    ensures key !in PARENT_ADDRESS_KEYS ==> Get(WithParentAddress(form, core), key) == Get(form, key)
  {
  }

  /** A record without a core maps to nothing; one with a core always maps. */
  lemma MappedFormNoneIff(student: StudentRecord, now: Date)
    ensures MappedForm(student, now).None? <==> student.core.None?
  {
  }

  /**
   * A master item with a truthy id is selected in the form under `master_<TYPE>`;
   * a type without one keeps whatever the core record held under that key.
   */
  lemma MasterSelectionMapped(student: StudentRecord, now: Date, t: string)
    requires student.core.Some? && DistinctKeys(MasterDataOf(student))
    ensures forall i :: 0 <= i < |MasterDataOf(student)| && MasterDataOf(student)[i].0 == t && HasId(MasterDataOf(student)[i].1)
              ==> Get(MappedForm(student, now).value, MasterKey(t)) == Some(Str(MasterDataOf(student)[i].1.value.id))
    ensures (forall i :: 0 <= i < |MasterDataOf(student)| && MasterDataOf(student)[i].0 == t ==> !HasId(MasterDataOf(student)[i].1))
              ==> Get(MappedForm(student, now).value, MasterKey(t)) == Get(student.core.value, MasterKey(t))
  {
    var core := student.core.value;
    var base := BaseForm(core, now);
    var mastered := WriteMaster(base, MasterDataOf(student));
    var key := MasterKey(t);
    WriteDynFrame(mastered, DynamicValuesOf(student), key);
    ParentAddressFrame(WriteDyn(mastered, DynamicValuesOf(student)), core, key);
    if key in PARENT_ADDRESS_KEYS || key in DATE_KEYS {
      FixedKeysUnprefixed(key);
    }
    forall i | 0 <= i < |MasterDataOf(student)| && MasterDataOf(student)[i].0 == t && HasId(MasterDataOf(student)[i].1)
      ensures Get(MappedForm(student, now).value, key) == Some(Str(MasterDataOf(student)[i].1.value.id))
    {
      WriteMasterHit(base, MasterDataOf(student), i);
    }
    if forall i :: 0 <= i < |MasterDataOf(student)| && MasterDataOf(student)[i].0 == t ==> !HasId(MasterDataOf(student)[i].1) {
      WriteMasterMiss(base, MasterDataOf(student), t);
    }
  }

  /** Every stored dynamic value appears in the form under `dyn_<name>`, unchanged. */
  lemma DynamicValueMapped(student: StudentRecord, now: Date, i: nat)
    requires student.core.Some? && DistinctKeys(DynamicValuesOf(student)) && i < |DynamicValuesOf(student)|
    ensures Get(MappedForm(student, now).value, DynKey(DynamicValuesOf(student)[i].0)) == Some(DynamicValuesOf(student)[i].1)
  {
    var core := student.core.value;
    var mastered := WriteMaster(BaseForm(core, now), MasterDataOf(student));
    var key := DynKey(DynamicValuesOf(student)[i].0);
    WriteDynHit(mastered, DynamicValuesOf(student), i);
    if key in PARENT_ADDRESS_KEYS || key in DATE_KEYS {
      FixedKeysUnprefixed(key);
    }
    ParentAddressFrame(WriteDyn(mastered, DynamicValuesOf(student)), core, key);
  }

  /**
   * The fixed members: the nine parent/address members are `core[key] || ''`;
   * `dob` is the parsed date or null; the admission and joining dates default to now.
   */
  lemma FixedMembersMapped(student: StudentRecord, now: Date)
    requires student.core.Some?
    ensures forall key :: key in PARENT_ADDRESS_KEYS
              ==> Get(MappedForm(student, now).value, key) == Some(OrEmpty(student.core.value, key))
    ensures Get(MappedForm(student, now).value, "dob") == Some(DateOr(Get(student.core.value, "dob"), Null))
    ensures Get(MappedForm(student, now).value, "admissionDate")
            == Some(DateOr(Get(student.core.value, "admissionDate"), DateValue(now)))
    ensures Get(MappedForm(student, now).value, "joiningDate")
            == Some(DateOr(Get(student.core.value, "joiningDate"), DateValue(now)))
  {
    var core := student.core.value;
    var base := BaseForm(core, now);
    var mastered := WriteMaster(base, MasterDataOf(student));
    var spread := WriteDyn(mastered, DynamicValuesOf(student));
    forall key | key in PARENT_ADDRESS_KEYS
      ensures Get(MappedForm(student, now).value, key) == Some(OrEmpty(core, key))
    {
      ParentAddressFrame(spread, core, key);
    }
    DateMemberMapped(student, now, "dob");
    DateMemberMapped(student, now, "admissionDate");
    DateMemberMapped(student, now, "joiningDate");
  }

  /** The date members are written only by the base spread and then left alone. */
  lemma DateMemberMapped(student: StudentRecord, now: Date, key: string)
    requires student.core.Some? && key in DATE_KEYS
    ensures Get(MappedForm(student, now).value, key) == Get(BaseForm(student.core.value, now), key)
  {
    var core := student.core.value;
    var base := BaseForm(core, now);
    var mastered := WriteMaster(base, MasterDataOf(student));
    FixedKeysUnprefixed(key);
    WriteMasterFrame(base, MasterDataOf(student), key);
    WriteDynFrame(mastered, DynamicValuesOf(student), key);
    assert key[0] != 'f' && key[0] != 'm' && key[0] != 'c';
    assert forall p | p in PARENT_ADDRESS_KEYS :: p[0] == 'f' || p[0] == 'm' || p[0] == 'c';
    ParentAddressFrame(WriteDyn(mastered, DynamicValuesOf(student)), core, key);
  }

  /** Every other core member is copied into the form as it is, and a missing one stays missing. */
  lemma CoreMemberCopied(student: StudentRecord, now: Date, key: string)
    requires student.core.Some? && !Derived(key)
    ensures Get(MappedForm(student, now).value, key) == Get(student.core.value, key)
  {
    var core := student.core.value;
    var base := BaseForm(core, now);
    var mastered := WriteMaster(base, MasterDataOf(student));
    WriteMasterFrame(base, MasterDataOf(student), key);
    WriteDynFrame(mastered, DynamicValuesOf(student), key);
    ParentAddressFrame(WriteDyn(mastered, DynamicValuesOf(student)), core, key);
  }
}
