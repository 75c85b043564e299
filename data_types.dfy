/**
 * The data type of a configured field, parsed once. In the configuration it is a
 * string that is either empty, a plain type name, or a marker for an extended
 * association or an extended inverse association; here each form is a constructor.
 */
module DataTypes {
  import opened PhpArrays

  datatype DataType =
    /** no data type: PHP `null`, "" or "0" */
    | NoType
    /** a plain type name such as "integer" or "string" */
    | Plain(name: TypeName)
    /** an extended association of the given type and kind */
    | ExtendedAssociation(associationType: string, associationKind: string)
    /** the inverse side of an extended association owned by `sourceClass` */
    | ExtendedInverseAssociation(sourceClass: string, associationType: string, associationKind: string)

  /**
   * A plain type name. It is truthy: a falsy data type ("" or "0") takes the
   * no-type branch, so it is `NoType` and never a plain name.
   */
  type TypeName = s: string | Truthy(s) witness "string"

  /** `DataType::STRING` */
  const STRING: TypeName := "string"
}

/** The relation types an association can take (`RelationType`). */
module RelationType {

  const MANY_TO_ONE: string := "manyToOne"
  const MANY_TO_MANY: string := "manyToMany"
}
