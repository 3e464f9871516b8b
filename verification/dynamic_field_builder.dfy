/**
 * The dynamic-field builder screen: the definition form's validators, the
 * label-to-name slug, the defaults of a new definition, the DROPDOWN rule, the
 * fields forced on save, and the priority-sorted list of loaded definitions.
 */
module DynamicFieldBuilder {
  import opened Wrappers
  import opened Strings
  import opened FieldTypes
  import opened Sorting
  import opened DynamicFieldService

  const DISPLAY_NAME_REQUIRED := "Display Label is required"
  const NAME_REQUIRED := "Field Name is required"
  const NAME_NOT_SNAKE := "Field Name must be snake_case (lowercase, letters, numbers, and underscores only)"
  const CONTROL_TYPE_REQUIRED := "Control Type is required"
  const DATA_TYPE_REQUIRED := "Data Type is required"

  /** `[a-z0-9_]`. */
  predicate IsSnakeChar(c: char) {
    IsLower(c) || IsDigit(c) || c == '_'
  }

  /** The name validator: required first, then `^[a-z0-9_]+$`. */
  function NameError(name: string): Option<string> {
    if name == "" then Some(NAME_REQUIRED)
    else if exists i :: 0 <= i < |name| && !IsSnakeChar(name[i]) then Some(NAME_NOT_SNAKE)
    else None
  }

  /** A name passes exactly when it is non-empty and made of `[a-z0-9_]` only. */
  lemma NameErrorIff(name: string)
    ensures NameError(name).None? <==> name != "" && forall i :: 0 <= i < |name| ==> IsSnakeChar(name[i])
    ensures name == "" ==> NameError(name) == Some(NAME_REQUIRED)
  {
  }

  datatype FieldErrors = FieldErrors(
    displayName: Option<string>,
    name: Option<string>,
    controlType: Option<string>,
    dataType: Option<string>)
  {
    predicate Passed() { displayName.None? && name.None? && controlType.None? && dataType.None? }
  }

  function Validate(form: DynamicField): FieldErrors {
    FieldErrors(
      if form.displayName == "" then Some(DISPLAY_NAME_REQUIRED) else None,
      NameError(form.name),
      if form.controlType == "" then Some(CONTROL_TYPE_REQUIRED) else None,
      if form.dataType == "" then Some(DATA_TYPE_REQUIRED) else None)
  }

  /** A definition passes when the label, control type and data type are non-empty and the name is snake_case. */
  lemma ValidateIff(form: DynamicField)
    ensures Validate(form).Passed()
            <==> form.displayName != "" && form.controlType != "" && form.dataType != ""
                 && NameError(form.name).None?
  {
  }

  /** One character of the slug: ASCII-lowered, kept if in `[a-z0-9]`, otherwise `_`. */
  function SlugChar(c: char): (r: char)
    ensures IsSnakeChar(r)
  {
    var l := ToLower(c);
    if IsLower(l) || IsDigit(l) then l else '_'
  }

  /** The auto-generated name: `caption.toLowerCase().replace(/[^a-z0-9]/g, '_')`. */
  function Slug(caption: string): (name: string)
    ensures |name| == |caption|
    ensures forall i :: 0 <= i < |caption| ==> name[i] == SlugChar(caption[i])
  {
    seq(|caption|, i requires 0 <= i < |caption| => SlugChar(caption[i]))
  }

  /** The slug of a label always passes the name validator, unless the label is empty. */
  lemma SlugPassesValidator(caption: string)
    ensures NameError(Slug(caption)).None? <==> caption != ""
  {
    var name := Slug(caption);
    assert forall i :: 0 <= i < |name| ==> IsSnakeChar(name[i]);
    NameErrorIff(name);
  }

  /** A snake_case name is its own slug, so slugging twice changes nothing. */
  lemma SlugIdempotent(caption: string)
    ensures Slug(Slug(caption)) == Slug(caption)
  {
    var name := Slug(caption);
    forall i | 0 <= i < |name|
      ensures SlugChar(name[i]) == name[i]
    {
      assert IsSnakeChar(name[i]);
    }
  }

  /** Letters are lowered, digits kept, everything else (spaces, apostrophes) becomes `_`. */
  lemma SlugExample()
    ensures Slug("Father's Name") == "father_s_name"
  {
  }

  /** The form's initial values; `entityType` is not among them (empty here) and is set on opening and on saving. */
  function InitialForm(): DynamicField {
    DynamicField(None, None, "", "", "", "TEXT", "STRING", false, true, 0,
                 Some(""), Some(255), None, Some([]))
  }

  /** The form for a new definition: initial values, the screen's entity type, priority after the last field. */
  function NewFieldForm(entityType: string, fieldCount: nat): (form: DynamicField)
    ensures form.entityType == entityType && form.priority == fieldCount + 1
    ensures form.fieldId.None? && form.id.None? && form.masterType.None?
    ensures form.name == "" && form.displayName == "" && form.controlType == "TEXT" && form.dataType == "STRING"
    ensures !form.isRequired && form.isVisible
    ensures Validate(form).displayName.Some? && Validate(form).name == Some(NAME_REQUIRED)
  {
    InitialForm().(entityType := entityType, priority := fieldCount + 1)
  }

  /** The form after a control-type selection: DROPDOWN forces the data type to STRING. */
  function WithControlType(form: DynamicField, controlType: string): (r: DynamicField)
    ensures r.controlType == controlType
    ensures controlType == "DROPDOWN" ==> r.dataType == "STRING"
    ensures controlType != "DROPDOWN" ==> r.dataType == form.dataType
    ensures r.(controlType := form.controlType, dataType := form.dataType) == form
  {
    var r := form.(controlType := controlType);
    if controlType == "DROPDOWN" then r.(dataType := "STRING") else r
  }

  /** The form after typing a label: the name follows the label only while creating. */
  function WithDisplayName(form: DynamicField, caption: string, isEditing: bool): (r: DynamicField)
    ensures r.displayName == caption
    ensures !isEditing ==> r.name == Slug(caption)
    ensures isEditing ==> r.name == form.name
    ensures r.(displayName := form.displayName, name := form.name) == form
  {
    var r := form.(displayName := caption);
    if isEditing then r else r.(name := Slug(caption))
  }

  /** What `handleSubmit` hands to the service: the form values with three members forced. */
  function SubmittedField(form: DynamicField, entityType: string, editing: Option<DynamicField>): (field: DynamicField)
    ensures field.entityType == entityType && field.masterType.None?
    ensures field.fieldId == (if editing.Some? then editing.value.fieldId else None)
    ensures field.(entityType := form.entityType, fieldId := form.fieldId, masterType := form.masterType) == form
  {
    form.(entityType := entityType,
          fieldId := if editing.Some? then editing.value.fieldId else None,
          masterType := None)
  }

  /** Creating from a fresh form always POSTs to the collection. */
  lemma CreateSavesWithPost(form: DynamicField, entityType: string)
    requires form.fieldId.None? && form.id.None?
    ensures Save(SubmittedField(form, entityType, None)).verb == Post
    ensures Save(SubmittedField(form, entityType, None)).url == BASE_URL
  {
  }

  /**
   * Editing a stored definition PATCHes that definition: its `fieldId` is sent
   * back, and its `id` travels in the form values, so either one routes the update.
   */
  lemma EditSavesWithPatch(form: DynamicField, entityType: string, field: DynamicField)
    requires form.fieldId == field.fieldId && form.id == field.id
    requires Present(field.fieldId) || Present(field.id)
    ensures Save(SubmittedField(form, entityType, Some(field))).verb == Patch
    ensures Save(SubmittedField(form, entityType, Some(field))).url == BASE_URL + "/" + RecordId(field).value
  {
  }

  /** The builder screen's state. */
  class Builder {
    const entityType: string
    var fields: seq<DynamicField>
    var editing: Option<DynamicField>
    var form: DynamicField
    var modalOpen: bool

    /** The form carries the identity of the definition being edited, and none while creating. */
    ghost predicate Valid()
      reads this
    {
      && (editing.None? ==> form.fieldId.None? && form.id.None?)
      && (editing.Some? ==> form.fieldId == editing.value.fieldId && form.id == editing.value.id)
    }

    /** The screen opens on student fields, with an empty list and the form at its initial values. */
    constructor ()
      ensures entityType == "STUDENT" && fields == [] && editing.None?
      ensures form == InitialForm() && !modalOpen && Valid()
    {
      entityType := "STUDENT";
      fields := [];
      editing := None;
      form := InitialForm();
      modalOpen := false;
    }

    /**
     * `loadFields`: a successful response (null read as empty) replaces the list,
     * sorted by priority with ties in arrival order; a failure keeps the old list.
     */
    method LoadFields(response: Result<Option<seq<DynamicField>>>)
      modifies this
      ensures response.Ok? ==> fields == SortBy(GetByEntity(response.value), Priority)
      ensures response.Ok? ==> SortedBy(fields, Priority)
      ensures response.Ok? ==> multiset(fields) == multiset(GetByEntity(response.value))
      ensures response.Err? ==> fields == old(fields)
      ensures editing == old(editing) && form == old(form) && modalOpen == old(modalOpen)
    {
      if response.Ok? {
        var data := GetByEntity(response.value);
        SortByCorrect(data, Priority);
        fields := SortBy(data, Priority);
      }
    }

    /** `handleOpenModal`: edit a given definition as it is, or start a new one after the last. */
    method OpenModal(field: Option<DynamicField>)
      modifies this
      ensures editing == field && modalOpen && fields == old(fields)
      ensures field.Some? ==> form == field.value
      ensures field.None? ==> form == NewFieldForm(entityType, |fields|)
      ensures Valid()
    {
      editing := field;
      if field.Some? {
        form := field.value;
      } else {
        form := NewFieldForm(entityType, |fields|);
      }
      modalOpen := true;
    }

    method ChangeDisplayName(caption: string)
      requires Valid()
      modifies this
      ensures form == WithDisplayName(old(form), caption, editing.Some?)
      ensures editing == old(editing) && fields == old(fields) && modalOpen == old(modalOpen) && Valid()
    {
      form := WithDisplayName(form, caption, editing.Some?);
    }

    method ChangeControlType(controlType: string)
      requires Valid()
      modifies this
      ensures form == WithControlType(old(form), controlType)
      ensures editing == old(editing) && fields == old(fields) && modalOpen == old(modalOpen) && Valid()
    {
      form := WithControlType(form, controlType);
    }

    /**
     * Any other input: the name, options, priority, placeholder, length and
     * flags may change, and the data type unless the control is a DROPDOWN
     * (its input is disabled then). The label and control type have their own
     * handlers, and the master type has no input.
     */
    method EditOther(values: DynamicField)
      requires Valid()
      requires values.displayName == form.displayName && values.controlType == form.controlType
      requires values.masterType == form.masterType
      requires form.controlType == "DROPDOWN" ==> values.dataType == form.dataType
      modifies this
      ensures form == values.(fieldId := old(form).fieldId, id := old(form).id, entityType := old(form).entityType)
      ensures editing == old(editing) && fields == old(fields) && modalOpen == old(modalOpen) && Valid()
    {
      form := values.(fieldId := form.fieldId, id := form.id, entityType := form.entityType);
    }

    /** The form's submit: validation first, then the save request built from the forced field. */
    method Submit() returns (request: Option<SaveRequest>)
      requires Valid()
      ensures Validate(form).Passed() ==> request == Some(Save(SubmittedField(form, entityType, editing)))
      ensures !Validate(form).Passed() ==> request.None?
      ensures request.Some? && editing.None? ==> request.value.verb == Post
      ensures request.Some? && editing.Some? && (Present(editing.value.fieldId) || Present(editing.value.id))
              ==> request.value.verb == Patch && request.value.url == BASE_URL + "/" + RecordId(editing.value).value
      ensures request.Some? ==> "masterType" !in request.value.payload
    {
      if !Validate(form).Passed() {
        return None;
      }
      var field := SubmittedField(form, entityType, editing);
      NoMasterTypeSent(field);
      if editing.Some? && (Present(editing.value.fieldId) || Present(editing.value.id)) {
        EditSavesWithPatch(form, entityType, editing.value);
      }
      request := Some(Save(field));
    }

    /** A successful save closes the modal; the list is then reloaded with LoadFields. */
    method OnSaved()
      modifies this
      ensures !modalOpen && fields == old(fields) && editing == old(editing) && form == old(form)
    {
      modalOpen := false;
    }
  }
}
