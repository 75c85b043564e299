/**
 * The API metadata tree the factory builds: an entity with its fields,
 * meta-properties and associations. Every object is mutable and is filled in
 * by setters after it has been added to its entity. PHP `null` strings are
 * written "" and a missing data type is `NoType`.
 */
module Metadata {
  import opened DataTypes

  /** `FieldMetadata`: a scalar property of the entity. */
  class FieldMetadata {
    const name: string
    var propertyPath: string
    var dataType: DataType
    var isNullable: bool

    constructor (name: string)
      ensures this.name == name
      ensures propertyPath == "" && dataType == NoType && !isNullable
    {
      this.name := name;
      propertyPath := "";
      dataType := NoType;
      isNullable := false;
    }
  }

  /** `MetaPropertyMetadata`: an informational property that is not stored. */
  class MetaPropertyMetadata {
    const name: string
    var propertyPath: string
    var dataType: DataType

    constructor (name: string)
      ensures this.name == name
      ensures propertyPath == "" && dataType == NoType
    {
      this.name := name;
      propertyPath := "";
      dataType := NoType;
    }
  }

  /** `AssociationMetadata`: a relationship to one or several target entities. */
  class AssociationMetadata {
    const name: string
    var propertyPath: string
    var targetClassName: string
    var acceptableTargetClassNames: seq<string>
    var associationType: string
    var isCollection: bool
    var isNullable: bool
    var collapsed: bool
    var dataType: DataType
    /** the `DataType::INVERSE_ASSOCIATION_FIELD` attribute */
    var inverseAssociationField: string

    constructor (name: string)
      ensures this.name == name
      ensures propertyPath == "" && targetClassName == "" && acceptableTargetClassNames == []
      ensures associationType == "" && !isCollection && !isNullable && !collapsed
      ensures dataType == NoType && inverseAssociationField == ""
    {
      this.name := name;
      propertyPath := "";
      targetClassName := "";
      acceptableTargetClassNames := [];
      associationType := "";
      isCollection := false;
      isNullable := false;
      collapsed := false;
      dataType := NoType;
      inverseAssociationField := "";
    }

    /** `addAcceptableTargetClassName`: appends one class name. */
    method AddAcceptableTargetClassName(className: string)
      modifies this`acceptableTargetClassNames
      ensures acceptableTargetClassNames == old(acceptableTargetClassNames) + [className]
    {
      acceptableTargetClassNames := acceptableTargetClassNames + [className];
    }
  }

  /** `EntityMetadata`: the root of the tree, with its three collections keyed by name. */
  class EntityMetadata {
    var className: string
    var identifierFieldNames: seq<string>
    var fields: map<string, FieldMetadata>
    var metaProperties: map<string, MetaPropertyMetadata>
    var associations: map<string, AssociationMetadata>

    constructor ()
      ensures className == "" && identifierFieldNames == []
      ensures fields == map[] && metaProperties == map[] && associations == map[]
    {
      className := "";
      identifierFieldNames := [];
      fields := map[];
      metaProperties := map[];
      associations := map[];
    }

    /**
     * What every successful call of the factory keeps true of the entity it fills: each collection is
     * keyed by its members' names, a field is nullable exactly when it is not an
     * identifier field, and every association is nullable.
     */
    ghost predicate Valid()
      reads this, fields.Values, associations.Values
    {
      (forall n :: n in fields ==> fields[n].name == n) &&
      (forall n :: n in metaProperties ==> metaProperties[n].name == n) &&
      (forall n :: n in associations ==> associations[n].name == n) &&
      (forall n :: n in fields ==> (fields[n].isNullable <==> n !in identifierFieldNames)) &&
      (forall n :: n in associations ==> associations[n].isNullable)
    }

    /** `addField`: stores the field under its name, replacing any field of that name. */
    method AddField(field: FieldMetadata) returns (added: FieldMetadata)
      modifies this`fields
      ensures fields == old(fields)[field.name := field] && added == field
    {
      fields := fields[field.name := field];
      added := field;
    }

    /** `addMetaProperty`: stores the meta-property under its name. */
    method AddMetaProperty(metaProperty: MetaPropertyMetadata) returns (added: MetaPropertyMetadata)
      modifies this`metaProperties
      ensures metaProperties == old(metaProperties)[metaProperty.name := metaProperty] && added == metaProperty
    {
      metaProperties := metaProperties[metaProperty.name := metaProperty];
      added := metaProperty;
    }

    /** `addAssociation`: stores the association under its name. */
    method AddAssociation(association: AssociationMetadata) returns (added: AssociationMetadata)
      modifies this`associations
      ensures associations == old(associations)[association.name := association] && added == association
    {
      associations := associations[association.name := association];
      added := association;
    }
  }
}
