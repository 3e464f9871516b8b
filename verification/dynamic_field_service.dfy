/**
 * The dynamic-field service: how a definition is listed, and how saving one is
 * turned into an HTTP method, a URL and a JSON body. The HTTP call itself is
 * not modelled; `Save` returns the request that would be sent.
 */
module DynamicFieldService {
  import opened Wrappers
  import opened Json
  import opened FieldTypes

  const BASE_URL := "/dynamic-fields"

  /** `getByEntity`: a missing (null) response becomes the empty list. */
  function GetByEntity(response: Option<seq<DynamicField>>): (fields: seq<DynamicField>)
    ensures response.None? ==> fields == []
    ensures response.Some? ==> fields == response.value
  {
    match response
    case None => []
    case Some(list) => list
  }

  /** The HTTP method (`verb`, since `method` is a Dafny keyword). */
  datatype HttpMethod = Post | Patch

  datatype SaveRequest = SaveRequest(verb: HttpMethod, url: string, payload: map<string, Value>)

  /** JavaScript truthiness of an optional string. */
  predicate Present(o: Option<string>) {
    o.Some? && o.value != ""
  }

  /** `field.fieldId || field.id`, kept only when truthy (a falsy id means "create"). */
  function RecordId(field: DynamicField): (rid: Option<string>)
    ensures rid.Some? <==> Present(field.fieldId) || Present(field.id)
    ensures rid.Some? ==> rid.value != ""
    ensures Present(field.fieldId) ==> rid == field.fieldId
    ensures !Present(field.fieldId) && Present(field.id) ==> rid == field.id
  {
    if Present(field.fieldId) then field.fieldId
    else if Present(field.id) then field.id
    else None
  }

  /** The data type as the backend names it on creation: `STRING` travels as `TEXT`. */
  function WireDataType(dataType: string): string {
    if dataType == "STRING" then "TEXT" else dataType
  }

  function OptStr(o: Option<string>): Option<Value> {
    match o
    case None => None
    case Some(s) => Some(Str(s))
  }

  function OptNum(o: Option<int>): Option<Value> {
    match o
    case None => None
    case Some(n) => Some(Num(n))
  }

  function OptList(o: Option<seq<string>>): Option<Value> {
    match o
    case None => None
    case Some(l) => Some(StrList(l))
  }

  /** The members an update may change. */
  const UPDATE_KEYS: set<string> :=
    {"displayName", "isVisible", "priority", "isRequired", "options", "placeholder", "maxLength"}

  /** The members a creation sends. */
  const CREATE_KEYS: set<string> := UPDATE_KEYS + {"entityType", "name", "controlType", "dataType"}

  /** The body of an update; optional members left `undefined` are dropped. */
  function UpdatePayload(field: DynamicField): map<string, Value> {
    var m := map["displayName" := Str(field.displayName), "isVisible" := Bool(field.isVisible),
                 "priority" := Num(field.priority), "isRequired" := Bool(field.isRequired)];
    Put(Put(Put(m, "options", OptList(field.options)), "placeholder", OptStr(field.placeholder)),
        "maxLength", OptNum(field.maxLength))
  }

  /** The body of a creation. */
  function CreatePayload(field: DynamicField): map<string, Value> {
    var m := map["entityType" := Str(field.entityType), "name" := Str(field.name),
                 "displayName" := Str(field.displayName), "controlType" := Str(field.controlType),
                 "dataType" := Str(WireDataType(field.dataType)), "priority" := Num(field.priority),
                 "isVisible" := Bool(field.isVisible), "isRequired" := Bool(field.isRequired)];
    Put(Put(Put(m, "options", OptList(field.options)), "placeholder", OptStr(field.placeholder)),
        "maxLength", OptNum(field.maxLength))
  }

  /** `save`: PATCH to the record's own URL when it has an id, otherwise POST to the collection. */
  function Save(field: DynamicField): SaveRequest {
    var rid := RecordId(field);
    if rid.Some? then SaveRequest(Patch, BASE_URL + "/" + rid.value, UpdatePayload(field))
    else SaveRequest(Post, BASE_URL, CreatePayload(field))
  }

  /** A save is an update exactly when `fieldId` or `id` is truthy; `fieldId` wins when both are. */
  lemma SaveRoute(field: DynamicField)
    ensures Save(field).verb == Patch <==> Present(field.fieldId) || Present(field.id)
    ensures Present(field.fieldId) ==> Save(field).url == BASE_URL + "/" + field.fieldId.value
    ensures !Present(field.fieldId) && Present(field.id) ==> Save(field).url == BASE_URL + "/" + field.id.value
    ensures Save(field).verb == Post ==> Save(field).url == BASE_URL
  {
  }

  /**
   * An update sends only the seven editable members: never the name, entity
   * type, control type or data type.
   */
  lemma UpdatePayloadShape(field: DynamicField)
    requires Save(field).verb == Patch
    ensures Save(field).payload.Keys <= UPDATE_KEYS
    ensures "name" !in Save(field).payload && "entityType" !in Save(field).payload
    ensures "controlType" !in Save(field).payload && "dataType" !in Save(field).payload
  {
  }

  /** The members an update sends carry the definition's values unchanged. */
  lemma UpdatePayloadValues(field: DynamicField)
    requires Save(field).verb == Patch
    ensures Save(field).payload.Keys >= {"displayName", "isVisible", "priority", "isRequired"}
    ensures Save(field).payload["displayName"] == Str(field.displayName)
    ensures Save(field).payload["isVisible"] == Bool(field.isVisible)
    ensures Save(field).payload["priority"] == Num(field.priority)
    ensures Save(field).payload["isRequired"] == Bool(field.isRequired)
    ensures Get(Save(field).payload, "options") == OptList(field.options)
    ensures Get(Save(field).payload, "placeholder") == OptStr(field.placeholder)
    ensures Get(Save(field).payload, "maxLength") == OptNum(field.maxLength)
  {
  }

  /** A creation sends only the eleven members of the definition's body. */
  lemma CreatePayloadShape(field: DynamicField)
    requires Save(field).verb == Post
    ensures Save(field).payload.Keys <= CREATE_KEYS
  {
  }

  /** The members a creation sends carry the definition's values, with the data type renamed. */
  lemma CreatePayloadValues(field: DynamicField)
    requires Save(field).verb == Post
    ensures "entityType" in Save(field).payload && "name" in Save(field).payload
    ensures "controlType" in Save(field).payload && "displayName" in Save(field).payload
    ensures "dataType" in Save(field).payload
    ensures Save(field).payload["entityType"] == Str(field.entityType)
    ensures Save(field).payload["name"] == Str(field.name)
    ensures Save(field).payload["controlType"] == Str(field.controlType)
    ensures Save(field).payload["displayName"] == Str(field.displayName)
    ensures Save(field).payload["dataType"] == Str(WireDataType(field.dataType))
  {
  }

  /** Neither kind of save ever sends a master-type link. */
  lemma NoMasterTypeSent(field: DynamicField)
    ensures "masterType" !in Save(field).payload
  {
    assert "masterType" !in CREATE_KEYS;
    assert Save(field).payload.Keys <= CREATE_KEYS;
  }

  /**
   * The rename touches `STRING` only: it is never sent, every other data type is
   * sent as it is, and distinct declared data types stay distinct on the wire.
   */
  lemma WireDataTypeRename(a: string, b: string)
    ensures WireDataType("STRING") == "TEXT"
    ensures a != "STRING" ==> WireDataType(a) == a
    ensures WireDataType(a) != "STRING"
    ensures a in DATA_TYPES && b in DATA_TYPES && a != b ==> WireDataType(a) != WireDataType(b)
  {
  }
}
