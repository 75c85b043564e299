/**
 * The services the factory consults. Their internals are not part of this model:
 * each is a value holding the function it computes, fixed when the factory is built.
 */
module Collaborators {
  import opened Wrappers
  import opened DataTypes
  import opened Config
  import opened PhpArrays

  datatype MetadataHelper = MetadataHelper(
    /** `setPropertyPath`: the property path stored for (field name, field config, target action) */
    propertyPath: (string, EntityDefinitionFieldConfig, string) -> string,
    /** `assertDataType`: the normalized data type for (data type, entity class, field name); None when it throws */
    assertDataType: (DataType, string, string) -> Option<DataType>)

  datatype AssociationManager = AssociationManager(
    /** `getAssociationTargets(entityClass, null, associationType, associationKind)`: [target class => field name] */
    getAssociationTargets: (string, string, string) -> PhpArray<string>)

  datatype FieldTypeHelper = FieldTypeHelper(
    /** `getUnderlyingType`: the relation type an association type stands for */
    getUnderlyingType: string -> string)

  datatype ExtendHelper = ExtendHelper(
    /** `getReverseRelationType`: the relation type seen from the other side */
    getReverseRelationType: string -> string)
}
