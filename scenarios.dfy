/**
 * A client of the factory: an `Order` entity with identifier `id`, a plain field
 * `status` and a to-many association `items` to `OrderItem`, whose own identifier
 * `id` is an integer. Everything asserted follows from the factory's contracts.
 */
module Scenarios {
  import opened Wrappers
  import opened DataTypes
  import RelationType
  import opened Config
  import opened Collaborators
  import opened Metadata
  import opened PhpArrays
  import opened Loader

  method OrderScenario() {
    var helper := MetadataHelper(
      (name: string, field: EntityDefinitionFieldConfig, action: string) => name,
      (dataType: DataType, entityClass: string, name: string) =>
        if dataType.Plain? then Some(dataType) else None);
    var manager := AssociationManager((entityClass: string, associationType: string, kind: string) => []);
    var factory := new ObjectMetadataFactory(
      helper, manager, FieldTypeHelper(t => t), ExtendHelper(t => t));

    var idConfig := EntityDefinitionFieldConfig(Plain("integer"), "", None, false, false);
    var statusConfig := EntityDefinitionFieldConfig(Plain("string"), "", None, false, false);
    var orderItem := EntityDefinitionConfig(["id"], map["id" := idConfig]);
    var itemsConfig := EntityDefinitionFieldConfig(NoType, "OrderItem", Some(orderItem), true, false);
    var order := EntityDefinitionConfig(["id"], map["id" := idConfig, "status" := statusConfig, "items" := itemsConfig]);

    var entity := factory.CreateObjectMetadata("Order", order);
    var id := factory.CreateAndAddFieldMetadata(entity, "Order", "id", idConfig, "get");
    var status := factory.CreateAndAddFieldMetadata(entity, "Order", "status", statusConfig, "get");
    var items := factory.CreateAndAddAssociationMetadata(entity, "Order", "items", itemsConfig, "get", "");

    assert id.Success? && !id.value.isNullable;
    assert status.Success? && status.value.isNullable;
    assert entity.fields.Keys == {"id", "status"};
    assert items.dataType == Plain("integer");
    assert items.associationType == RelationType.MANY_TO_MANY && items.isCollection;
    assert items.acceptableTargetClassNames == ["OrderItem"];
    assert items.isNullable && items.targetClassName == "OrderItem";
    assert entity.Valid();
  }

  /**
   * Extended associations: notes may belong to an `Order` or to a `User`; the
   * association manager names, for each owner class, the field on `Note` that
   * points to it.
   */
  method ExtendedScenario() {
    var owners: PhpArray<string> := [("Order", "order_owner"), ("User", "user_owner")];
    var helper := MetadataHelper(
      (name: string, field: EntityDefinitionFieldConfig, action: string) => name,
      (dataType: DataType, entityClass: string, name: string) => Some(dataType));
    var manager := AssociationManager((entityClass: string, associationType: string, kind: string) => owners);
    var factory := new ObjectMetadataFactory(
      helper, manager, FieldTypeHelper(t => t), ExtendHelper(t => if t == RelationType.MANY_TO_ONE then "oneToMany" else t));

    var note := factory.CreateObjectMetadata("Note", EntityDefinitionConfig(["id"], map[]));
    var ownerConfig := EntityDefinitionFieldConfig(ExtendedAssociation(RelationType.MANY_TO_ONE, "owner"), "", None, false, true);
    var owner := factory.CreateAndAddAssociationMetadata(note, "Note", "owner", ownerConfig, "get", "");
    assert owner.acceptableTargetClassNames == ["Order", "User"];
    assert owner.associationType == RelationType.MANY_TO_ONE && !owner.isCollection && owner.collapsed;

    var order := factory.CreateObjectMetadata("Order", EntityDefinitionConfig(["id"], map[]));
    var notesConfig := EntityDefinitionFieldConfig(
      ExtendedInverseAssociation("Note", RelationType.MANY_TO_ONE, "owner"), "", None, true, false);
    assert Keys(owners) == ["Order", "User"];
    var notes := factory.CreateAndAddAssociationMetadata(order, "Order", "notes", notesConfig, "get", "");
    GetIsStoredValue(owners, "Order", notes.inverseAssociationField);
    GetIsStoredValue(owners, "Order", "order_owner");
    assert notes.inverseAssociationField == "order_owner";
    assert notes.targetClassName == "Note" && notes.acceptableTargetClassNames == ["Note"];
    assert notes.associationType == "oneToMany" && notes.isCollection && notes.dataType == NoType;
  }
}
