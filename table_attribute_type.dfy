/**
 * The column-type tags that the table-attribute helpers dispatch on: exactly the
 * members of the TableAttributeType enumeration that those helpers name.
 */
module TableAttributeType {

  datatype AttributeType =
    | Tiny | TinyUnsigned
    | Small | SmallUnsigned
    | Medium | MediumUnsigned
    | Big | BigUnsigned
    | Int | IntUnsigned
    | Float | FloatUnsigned | Double
    | Decimal
    | Bool
    | Char | VarChar
    | Uuid
    | Date | DateTime | Time | Timestamp
    | Enum
    | Blob

  /** The ten integer column types, whose input widget gets fixed min/max literals. */
  predicate IsInteger(t: AttributeType) {
    t.Tiny? || t.TinyUnsigned? || t.Small? || t.SmallUnsigned? || t.Medium? ||
    t.MediumUnsigned? || t.Big? || t.BigUnsigned? || t.Int? || t.IntUnsigned?
  }

  /** The unsigned numeric column types. */
  predicate IsUnsigned(t: AttributeType) {
    t.TinyUnsigned? || t.SmallUnsigned? || t.MediumUnsigned? || t.BigUnsigned? ||
    t.IntUnsigned? || t.FloatUnsigned?
  }
}
