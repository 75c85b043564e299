/**
 * `ObjectMetadataFactory`: turns the configuration of one entity and of its
 * fields into the API metadata tree, one collection item at a time.
 */
module Loader {
  import opened Wrappers
  import opened PhpArrays
  import opened DataTypes
  import RelationType
  import opened Config
  import opened Collaborators
  import opened Metadata

  /** `assertDataType` threw: the declared type is not known for this entity and field. */
  datatype Error = UnknownDataType(dataType: DataType, entityClass: string, fieldName: string)

  /** The relation type `setAssociationType` gives an association with a fixed target. */
  function AssociationTypeFor(isCollection: bool): (associationType: string)
    ensures associationType == RelationType.MANY_TO_MANY <==> isCollection
    ensures associationType == RelationType.MANY_TO_ONE <==> !isCollection
  {
    if isCollection then RelationType.MANY_TO_MANY else RelationType.MANY_TO_ONE
  }

  /**
   * The data type `setAssociationDataType` leaves on an association whose data
   * type was `current`: the type of the target's single identifier field, STRING
   * when that cannot be told, and `current` when the target is not configured.
   */
  function AssociationDataType(field: EntityDefinitionFieldConfig, current: DataType): (dataType: DataType)
    ensures field.targetEntity.None? ==> dataType == current
    ensures field.targetEntity.Some? ==>
      var target := field.targetEntity.value;
      (|target.identifierFieldNames| == 1 && target.identifierFieldNames[0] in target.fields ==>
         dataType == target.fields[target.identifierFieldNames[0]].dataType) &&
      (|target.identifierFieldNames| != 1 || target.identifierFieldNames[0] !in target.fields ==>
         dataType == Plain(STRING))
  {
    match field.targetEntity
    case None => current
    case Some(target) =>
      if |target.identifierFieldNames| == 1 then
        match target.GetField(target.identifierFieldNames[0])
        case Some(idField) => idField.dataType
        case None => Plain(STRING)
      else
        Plain(STRING)
  }

  class ObjectMetadataFactory {
    const metadataHelper: MetadataHelper
    const associationManager: AssociationManager
    const fieldTypeHelper: FieldTypeHelper
    const extendHelper: ExtendHelper

    constructor (
      metadataHelper: MetadataHelper,
      associationManager: AssociationManager,
      fieldTypeHelper: FieldTypeHelper,
      extendHelper: ExtendHelper)
      ensures this.metadataHelper == metadataHelper
      ensures this.associationManager == associationManager
      ensures this.fieldTypeHelper == fieldTypeHelper
      ensures this.extendHelper == extendHelper
    {
      this.metadataHelper := metadataHelper;
      this.associationManager := associationManager;
      this.fieldTypeHelper := fieldTypeHelper;
      this.extendHelper := extendHelper;
    }

    /** A new, empty entity metadata for `entityClass` with the configured identifier fields. */
    method CreateObjectMetadata(entityClass: string, config: EntityDefinitionConfig)
      returns (entityMetadata: EntityMetadata)
      ensures fresh(entityMetadata)
      ensures entityMetadata.className == entityClass
      ensures entityMetadata.identifierFieldNames == config.identifierFieldNames
      ensures entityMetadata.fields == map[] && entityMetadata.metaProperties == map[]
      ensures entityMetadata.associations == map[]
      ensures entityMetadata.Valid()
    {
      entityMetadata := new EntityMetadata();
      entityMetadata.className := entityClass;
      entityMetadata.identifierFieldNames := config.identifierFieldNames;
    }

    /**
     * Adds a meta-property named `fieldName` and gives it its property path and
     * asserted data type. The meta-property is added before the data type is
     * asserted, so when the assertion fails it stays in the entity without one.
     */
    method CreateAndAddMetaPropertyMetadata(
      entityMetadata: EntityMetadata,
      entityClass: string,
      fieldName: string,
      field: EntityDefinitionFieldConfig,
      targetAction: string)
      returns (result: Result<MetaPropertyMetadata, Error>)
      modifies entityMetadata`metaProperties
      ensures fieldName in entityMetadata.metaProperties
      ensures var metaProperty := entityMetadata.metaProperties[fieldName];
        && fresh(metaProperty)
        && metaProperty.name == fieldName
        && entityMetadata.metaProperties == old(entityMetadata.metaProperties)[fieldName := metaProperty]
        && metaProperty.propertyPath == metadataHelper.propertyPath(fieldName, field, targetAction)
        && match metadataHelper.assertDataType(field.dataType, entityClass, fieldName)
           case Some(dataType) => result == Success(metaProperty) && metaProperty.dataType == dataType
           case None =>
             result == Failure(UnknownDataType(field.dataType, entityClass, fieldName)) &&
             metaProperty.dataType == NoType
      ensures entityMetadata.fields == old(entityMetadata.fields)
      ensures entityMetadata.associations == old(entityMetadata.associations)
      ensures old(entityMetadata.Valid()) ==> entityMetadata.Valid()
    {
      var metaProperty := new MetaPropertyMetadata(fieldName);
      metaProperty := entityMetadata.AddMetaProperty(metaProperty);
      metaProperty.propertyPath := metadataHelper.propertyPath(fieldName, field, targetAction);
      var dataType := metadataHelper.assertDataType(field.dataType, entityClass, fieldName);
      if dataType.None? {
        return Failure(UnknownDataType(field.dataType, entityClass, fieldName));
      }
      metaProperty.dataType := dataType.value;
      result := Success(metaProperty);
    }

    /**
     * Adds a field named `fieldName` with its property path and asserted data
     * type; it is nullable exactly when it is not one of the entity's identifier
     * fields. As for meta-properties, a failed assertion leaves the field added.
     */
    method CreateAndAddFieldMetadata(
      entityMetadata: EntityMetadata,
      entityClass: string,
      fieldName: string,
      field: EntityDefinitionFieldConfig,
      targetAction: string)
      returns (result: Result<FieldMetadata, Error>)
      modifies entityMetadata`fields
      ensures fieldName in entityMetadata.fields
      ensures var fieldMetadata := entityMetadata.fields[fieldName];
        && fresh(fieldMetadata)
        && fieldMetadata.name == fieldName
        && entityMetadata.fields == old(entityMetadata.fields)[fieldName := fieldMetadata]
        && fieldMetadata.propertyPath == metadataHelper.propertyPath(fieldName, field, targetAction)
        && match metadataHelper.assertDataType(field.dataType, entityClass, fieldName)
           case Some(dataType) =>
             result == Success(fieldMetadata) && fieldMetadata.dataType == dataType &&
             (fieldMetadata.isNullable <==> fieldName !in entityMetadata.identifierFieldNames)
           case None =>
             result == Failure(UnknownDataType(field.dataType, entityClass, fieldName)) &&
             fieldMetadata.dataType == NoType && !fieldMetadata.isNullable
      ensures entityMetadata.metaProperties == old(entityMetadata.metaProperties)
      ensures entityMetadata.associations == old(entityMetadata.associations)
      ensures old(entityMetadata.Valid()) && result.Success? ==> entityMetadata.Valid()
    {
      var fieldMetadata := new FieldMetadata(fieldName);
      fieldMetadata := entityMetadata.AddField(fieldMetadata);
      fieldMetadata.propertyPath := metadataHelper.propertyPath(fieldName, field, targetAction);
      var dataType := metadataHelper.assertDataType(field.dataType, entityClass, fieldName);
      if dataType.None? {
        return Failure(UnknownDataType(field.dataType, entityClass, fieldName));
      }
      fieldMetadata.dataType := dataType.value;
      fieldMetadata.isNullable := !InArray(fieldName, entityMetadata.identifierFieldNames);
      result := Success(fieldMetadata);
    }

    /**
     * Adds an association named `fieldName`. The target is the explicit
     * `targetClass` when it is truthy and the configured one otherwise; the
     * declared data type then chooses how its type, data type, collection flag
     * and acceptable targets are found.
     */
    method CreateAndAddAssociationMetadata(
      entityMetadata: EntityMetadata,
      entityClass: string,
      fieldName: string,
      field: EntityDefinitionFieldConfig,
      targetAction: string,
      targetClass: string)
      returns (association: AssociationMetadata)
      requires field.dataType.ExtendedInverseAssociation? ==>
        var dataType := field.dataType;
        entityClass in Keys(GetExtendedAssociationTargets(
          dataType.sourceClass, dataType.associationType, dataType.associationKind))
      modifies entityMetadata`associations
      ensures fresh(association) && association.name == fieldName
      ensures entityMetadata.associations == old(entityMetadata.associations)[fieldName := association]
      ensures entityMetadata.fields == old(entityMetadata.fields)
      ensures entityMetadata.metaProperties == old(entityMetadata.metaProperties)
      ensures association.propertyPath == metadataHelper.propertyPath(fieldName, field, targetAction)
      ensures association.isNullable
      ensures association.collapsed == field.isCollapsed
      ensures DeclaredTypeApplied(association, entityClass, field,
        if Truthy(targetClass) then targetClass else field.targetClass)
      ensures old(entityMetadata.Valid()) ==> entityMetadata.Valid()
    {
      var target := targetClass;
      if !Truthy(target) {
        target := field.targetClass;
      }
      association := new AssociationMetadata(fieldName);
      association := entityMetadata.AddAssociation(association);
      association.propertyPath := metadataHelper.propertyPath(fieldName, field, targetAction);
      association.targetClassName := target;
      association.isNullable := true;
      association.collapsed := field.isCollapsed;
      ApplyDeclaredType(association, entityClass, field, target);
    }

    /**
     * What the four-way dispatch on the declared data type leaves on an
     * association whose effective target class is `target`.
     */
    ghost predicate DeclaredTypeApplied(
      association: AssociationMetadata,
      entityClass: string,
      field: EntityDefinitionFieldConfig,
      target: string)
      reads association
    {
      match field.dataType
      case NoType =>
        && association.targetClassName == target
        && association.acceptableTargetClassNames == [target]
        && association.dataType == AssociationDataType(field, NoType)
        && association.associationType == AssociationTypeFor(field.isCollectionValuedAssociation)
        && association.isCollection == field.isCollectionValuedAssociation
        && association.inverseAssociationField == ""
      case Plain(_) =>
        && association.targetClassName == target
        && association.acceptableTargetClassNames == [target]
        && association.dataType == field.dataType
        && association.associationType == AssociationTypeFor(field.isCollectionValuedAssociation)
        && association.isCollection == field.isCollectionValuedAssociation
        && association.inverseAssociationField == ""
      case ExtendedAssociation(associationType, associationKind) =>
        && association.targetClassName == target
        && association.acceptableTargetClassNames ==
             Keys(GetExtendedAssociationTargets(entityClass, associationType, associationKind))
        && association.dataType == AssociationDataType(field, NoType)
        && association.associationType == associationType
        && association.isCollection == field.isCollectionValuedAssociation
        && association.inverseAssociationField == ""
      case ExtendedInverseAssociation(sourceClass, associationType, associationKind) =>
        && association.targetClassName == sourceClass
        && association.acceptableTargetClassNames == [sourceClass]
        && association.dataType == NoType
        && association.associationType ==
             extendHelper.getReverseRelationType(fieldTypeHelper.getUnderlyingType(associationType))
        && association.isCollection == field.isCollectionValuedAssociation
        && (entityClass, association.inverseAssociationField) in
             GetExtendedAssociationTargets(sourceClass, associationType, associationKind)
    }

    /**
     * The dispatch on the declared data type, applied to an association that has
     * just been created with `target` as its target class.
     */
    method ApplyDeclaredType(
      association: AssociationMetadata,
      entityClass: string,
      field: EntityDefinitionFieldConfig,
      target: string)
      requires association.targetClassName == target && association.acceptableTargetClassNames == []
      requires association.associationType == "" && !association.isCollection
      requires association.dataType == NoType && association.inverseAssociationField == ""
      requires field.dataType.ExtendedInverseAssociation? ==>
        var dataType := field.dataType;
        entityClass in Keys(GetExtendedAssociationTargets(
          dataType.sourceClass, dataType.associationType, dataType.associationKind))
      modifies association`targetClassName, association`acceptableTargetClassNames
      modifies association`associationType, association`isCollection
      modifies association`dataType, association`inverseAssociationField
      ensures DeclaredTypeApplied(association, entityClass, field, target)
    {
      match field.dataType {
        case NoType =>
          SetAssociationDataType(association, field);
          SetAssociationType(association, field.isCollectionValuedAssociation);
          association.AddAcceptableTargetClassName(target);
        case ExtendedAssociation(associationType, associationKind) =>
          var targets := GetExtendedAssociationTargets(entityClass, associationType, associationKind);
          SetAssociationDataType(association, field);
          association.associationType := associationType;
          association.acceptableTargetClassNames := Keys(targets);
          association.isCollection := field.isCollectionValuedAssociation;
        case ExtendedInverseAssociation(associationSourceClass, associationType, associationKind) =>
          association.targetClassName := associationSourceClass;
          association.acceptableTargetClassNames := [associationSourceClass];
          var reverseType := extendHelper.getReverseRelationType(
            fieldTypeHelper.getUnderlyingType(associationType));
          var targets := GetExtendedAssociationTargets(associationSourceClass, associationType, associationKind);
          association.inverseAssociationField := Get(targets, entityClass);
          association.associationType := reverseType;
          association.isCollection := field.isCollectionValuedAssociation;
        case Plain(_) =>
          association.dataType := field.dataType;
          SetAssociationType(association, field.isCollectionValuedAssociation);
          association.AddAcceptableTargetClassName(target);
      }
    }

    /** `getExtendedAssociationTargets`: [target class => field name] for an extended association. */
    function GetExtendedAssociationTargets(entityClass: string, associationType: string, associationKind: string)
      : (targets: PhpArray<string>)
    {
      associationManager.getAssociationTargets(entityClass, associationType, associationKind)
    }

    /** `setAssociationDataType`: the data type inferred from the target entity's identifier. */
    method SetAssociationDataType(association: AssociationMetadata, field: EntityDefinitionFieldConfig)
      modifies association`dataType
      ensures association.dataType == AssociationDataType(field, old(association.dataType))
    {
      var targetEntity := field.targetEntity;
      if targetEntity.Some? {
        var associationDataType := Plain(STRING);
        var targetIdFieldNames := targetEntity.value.identifierFieldNames;
        if |targetIdFieldNames| == 1 {
          var targetIdField := targetEntity.value.GetField(targetIdFieldNames[0]);
          if targetIdField.Some? {
            associationDataType := targetIdField.value.dataType;
          }
        }
        association.dataType := associationDataType;
      }
    }

    /** `setAssociationType`: many-to-many collection or many-to-one single reference. */
    method SetAssociationType(association: AssociationMetadata, isCollection: bool)
      modifies association`associationType, association`isCollection
      ensures association.associationType == AssociationTypeFor(isCollection)
      ensures association.isCollection == isCollection
    {
      if isCollection {
        association.associationType := RelationType.MANY_TO_MANY;
        association.isCollection := true;
      } else {
        association.associationType := RelationType.MANY_TO_ONE;
        association.isCollection := false;
      }
    }
  }
}
