/**
 * The read-only API configuration of an entity and of its fields
 * (`EntityDefinitionConfig`, `EntityDefinitionFieldConfig`), as far as the
 * factory consults it.
 */
module Config {
  import opened Wrappers
  import opened DataTypes

  datatype EntityDefinitionConfig = EntityDefinitionConfig(
    identifierFieldNames: seq<string>,
    fields: map<string, EntityDefinitionFieldConfig>)
  {
    /** `getField($name)`: the field's configuration, or `null`. */
    function GetField(name: string): Option<EntityDefinitionFieldConfig> {
      if name in fields then Some(fields[name]) else None
    }
  }

  datatype EntityDefinitionFieldConfig = EntityDefinitionFieldConfig(
    dataType: DataType,
    /** the configured target class; PHP `null` is written "" */
    targetClass: string,
    /** the configuration of the target entity, when the field is an association */
    targetEntity: Option<EntityDefinitionConfig>,
    isCollectionValuedAssociation: bool,
    isCollapsed: bool)
}
