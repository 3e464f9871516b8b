/**
 * The records shared by the dynamic-field builder, its service and the student
 * form: a dynamic-field definition and a master-data item. Optional members are
 * `Option`s (`None` is `undefined`).
 */
module FieldTypes {
  import opened Wrappers

  /** A dynamic-field definition; either `fieldId` or `id` identifies a stored one. */
  datatype DynamicField = DynamicField(
    fieldId: Option<string>,
    id: Option<string>,
    entityType: string,
    name: string,
    displayName: string,
    controlType: string,
    dataType: string,
    isRequired: bool,
    isVisible: bool,
    priority: int,
    placeholder: Option<string>,
    maxLength: Option<int>,
    masterType: Option<string>,
    options: Option<seq<string>>)

  /** One entry of a master-data list (a religion, a blood group, ...). */
  datatype MasterDataItem = MasterDataItem(
    id: string,
    masterType: string,
    fieldName: string,
    isVisible: bool,
    order: Option<int>)

  /** The sort key of definitions: ascending `priority`. */
  function Priority(f: DynamicField): int { f.priority }

  /** The sort key of master-data items: `order || 0`. */
  function OrderKey(item: MasterDataItem): int {
    match item.order
    case None => 0
    case Some(n) => n
  }

  /** The data types a definition may declare. */
  const DATA_TYPES: set<string> := {"STRING", "INTEGER", "DECIMAL", "BOOLEAN", "DATE"}
}
