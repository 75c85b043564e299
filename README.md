# ObjectMetadataFactory, modelled in Dafny

This project models the metadata loader of the Oro API bundle: the
`ObjectMetadataFactory` that turns the API configuration of one entity into
the metadata tree the API layer works with. An entity metadata object holds
the entity's class name, its identifier field names and three collections keyed
by name: fields, meta-properties and associations. The factory creates the
entity metadata, then adds one item at a time and fills it in through setters.

- `wrappers.dfy` (`Wrappers`): `Option` and `Result`.
- `php_arrays.dfy` (`PhpArrays`): ordered PHP arrays with unique string keys,
  `array_keys`, `$a[$k]`, strict `in_array` and PHP string truthiness.
- `data_types.dfy` (`DataTypes`, `RelationType`): the declared data type as a
  datatype with four cases (none, plain, extended association, extended inverse
  association), and the `STRING`, `MANY_TO_ONE` and `MANY_TO_MANY` constants.
- `config.dfy` (`Config`): the read-only entity and field configuration.
- `collaborators.dfy` (`Collaborators`): the metadata helper, association
  manager, field type helper and reverse-relation lookup, each a value holding
  the function it computes.
- `metadata.dfy` (`Metadata`): the mutable metadata classes, and
  `EntityMetadata.Valid()`, the invariant every successful call of the factory keeps: every collection is
  keyed by its items' names, a field is nullable exactly when it is not an
  identifier field, and every association is nullable.
- `object_metadata_factory.dfy` (`Loader`): the factory.
- `scenarios.dfy` (`Scenarios`): two clients. One builds an `Order` with
  identifier `id`, a field `status` and a to-many association `items` to
  `OrderItem`. The other builds an extended association and its inverse side.
  Each asserts what the factory's contracts give.

Two behaviours of the code are easy to miss:

- A meta-property or field is added to the entity before its data type is
  asserted (src/Oro/Bundle/ApiBundle/Processor/GetMetadata/Loader/ObjectMetadataFactory.php:74-77 and :99-102). When the assertion fails, the new item
  stays in the entity with its property path set and no data type, so a failed
  call is not all-or-nothing. A failed field is also left non-nullable even when
  it is not an identifier field, so after that failure `Valid()` no longer holds.
- The acceptable target class names form an ordered list, not a set. For an
  extended association it is the list `array_keys` gives of the resolver's
  result, in its order (src/Oro/Bundle/ApiBundle/Processor/GetMetadata/Loader/ObjectMetadataFactory.php:148).

## Model

| member | source | states |
|---|---|---|
| Loader.ObjectMetadataFactory.constructor | src/Oro/Bundle/ApiBundle/Processor/GetMetadata/Loader/ObjectMetadataFactory.php:33-41 | the factory keeps the collaborators it is given |
| Loader.ObjectMetadataFactory.CreateObjectMetadata | src/Oro/Bundle/ApiBundle/Processor/GetMetadata/Loader/ObjectMetadataFactory.php:49-56 | a fresh entity whose class name is `entityClass` and whose identifier field names are the configured ones; no fields, meta-properties or associations; the invariant holds |
| Loader.ObjectMetadataFactory.CreateAndAddMetaPropertyMetadata | src/Oro/Bundle/ApiBundle/Processor/GetMetadata/Loader/ObjectMetadataFactory.php:67-81 | a fresh meta-property named `fieldName` is stored under that name and nothing else in the entity changes; its property path comes from the helper; its data type is the asserted one, or the call fails with `UnknownDataType` and leaves it without a data type; the invariant is preserved |
| Loader.ObjectMetadataFactory.CreateAndAddFieldMetadata | src/Oro/Bundle/ApiBundle/Processor/GetMetadata/Loader/ObjectMetadataFactory.php:92-109 | a fresh field named `fieldName` is stored under that name and nothing else in the entity changes; on success its data type is the asserted one and it is nullable exactly when `fieldName` is not an identifier field name, which preserves the invariant; on failure it stays in the entity with no data type and non-nullable, even when it is not an identifier field, so the invariant no longer holds |
| Loader.ObjectMetadataFactory.CreateAndAddAssociationMetadata | src/Oro/Bundle/ApiBundle/Processor/GetMetadata/Loader/ObjectMetadataFactory.php:121-173 | a fresh association named `fieldName` is stored under that name and nothing else in the entity changes; it is always nullable, `collapsed` is the configured flag, its target is the explicit class when truthy and the configured one otherwise, and the dispatch on the declared type holds (see ApplyDeclaredType); the invariant is preserved |
| Loader.ObjectMetadataFactory.ApplyDeclaredType | src/Oro/Bundle/ApiBundle/Processor/GetMetadata/Loader/ObjectMetadataFactory.php:138-170 | no type or a plain type: target and sole acceptable target are the effective target, the relation type and collection flag follow the collection-valued flag, a plain type is stored verbatim and no type takes the inferred one. Extended: acceptable targets are exactly the resolver's keys for `(entityClass, type, kind)`, the relation type is the parsed one, the collection flag is the configured one. Extended inverse: target and sole acceptable target are the source class, the relation type is the reverse of the underlying type, the inverse field is the value stored under `entityClass` in the source class's targets, and no data type is set |
| Loader.ObjectMetadataFactory.SetAssociationDataType | src/Oro/Bundle/ApiBundle/Processor/GetMetadata/Loader/ObjectMetadataFactory.php:198-214 | only the data type changes, and it becomes what AssociationDataType gives for the old data type |
| Loader.AssociationDataType | src/Oro/Bundle/ApiBundle/Processor/GetMetadata/Loader/ObjectMetadataFactory.php:198-214 | without a target entity configuration the data type is unchanged; with one it is the type of the target's identifier field when there is exactly one identifier field and it is configured, and STRING otherwise |
| Loader.ObjectMetadataFactory.SetAssociationType | src/Oro/Bundle/ApiBundle/Processor/GetMetadata/Loader/ObjectMetadataFactory.php:220-229 | only the relation type and collection flag change; the flag becomes `isCollection` and the type AssociationTypeFor(`isCollection`) |
| Loader.AssociationTypeFor | src/Oro/Bundle/ApiBundle/Processor/GetMetadata/Loader/ObjectMetadataFactory.php:220-229 | MANY_TO_MANY exactly for a collection and MANY_TO_ONE exactly for a single reference |
| PhpArrays.InArray | src/Oro/Bundle/ApiBundle/Processor/GetMetadata/Loader/ObjectMetadataFactory.php:105 | strict `in_array` is true exactly when the name is in the list |
| PhpArrays.Keys | src/Oro/Bundle/ApiBundle/Processor/GetMetadata/Loader/ObjectMetadataFactory.php:148 | `array_keys` has one entry per pair, in order, each the pair's key |
| PhpArrays.Get | src/Oro/Bundle/ApiBundle/Processor/GetMetadata/Loader/ObjectMetadataFactory.php:163 | `$targets[$entityClass]` for a present key is a value stored under that key |
| PhpArrays.GetIsStoredValue | src/Oro/Bundle/ApiBundle/Processor/GetMetadata/Loader/ObjectMetadataFactory.php:163 | with unique keys, the lookup gives the one value stored under the key |

## Left out

- src/Oro/Bundle/EmailBundle/Migrations/Schema/v1_18_1/OroEmailBundle.php: a schema migration and a queued SQL delete, with no logic to state.
- `MetadataHelper::setPropertyPath` and `assertDataType` are not part of this model: each is a function passed in. `assertDataType` returns `None` where it would throw.
- `AssociationManager::getAssociationTargets`, `FieldTypeHelper::getUnderlyingType` and `ExtendHelper::getReverseRelationType` are not part of this model: each is a function passed in. The static reverse-relation lookup is held by the factory like the other helpers.
- The `filter` argument of `getAssociationTargets` is always `null` here, so the resolver takes only class, type and kind.
- The string formats of data types and their parsing (`DataType::isExtendedAssociation` and the parse functions) are not part of this model: the declared type arrives already parsed. `NoType` stands for every falsy data type (`null`, "" and "0"); a plain type name is truthy by its type, so those strings cannot reach the plain branch.
- A PHP `null` class name or string is written "". Both are falsy, and no branch here tells them apart.
- The source of `EntityMetadata`, `AssociationMetadata`, `FieldMetadata` and `MetaPropertyMetadata` is not shown; metadata.dfy models them on these assumptions. Their collections are maps keyed by name, so an item added under an existing name replaces the old one. New items are taken to start with empty strings, `false` flags, no data type and no acceptable targets. `addAcceptableTargetClassName` appends. The `INVERSE_ASSOCIATION_FIELD` attribute is a dedicated field. The collections are Dafny maps, so the insertion order PHP arrays keep for fields, meta-properties and associations is not modelled; the factory never iterates them.
- Loader.ObjectMetadataFactory.CreateAndAddAssociationMetadata: requires, for an extended inverse association, that the entity class is a key of the source class's targets. PHP would read an undefined index there.
- Loader.ObjectMetadataFactory.CreateAndAddMetaPropertyMetadata and CreateAndAddFieldMetadata return a `Result` instead of throwing; the item is still added when they fail.
