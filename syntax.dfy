/**
 * The parsed type definition a derive macro receives, reduced to what
 * `make_iterable` looks at: the type's name, whether it is a struct, an enum
 * or a union, and for a struct the shape of its fields.
 */
module Syntax {
  import opened Wrappers

  /** A field's declared visibility: `pub`, `pub(crate)`/`pub(super)`/..., or none. */
  datatype Visibility = Public | Restricted | Inherited

  /**
   * One field of a struct: its visibility, its identifier (present for a
   * braced struct's fields, absent for a tuple struct's), and its declared
   * type, kept only as text.
   */
  datatype Field = Field(vis: Visibility, ident: Option<string>, ty: string)

  /** `struct S { a: A, .. }`, `struct S(A, ..);` or `struct S;`. */
  datatype Fields =
    | Named(named: seq<Field>)
    | Unnamed(unnamed: seq<Field>)
    | Unit

  /** The body of the definition: a struct with its fields, an enum or a union. */
  datatype Data =
    | Struct(fields: Fields)
    | Enum(variants: seq<string>)
    | Union(unionFields: seq<Field>)

  datatype DeriveInput = DeriveInput(ident: string, data: Data)

  /** Every field of a braced field list carries its identifier. */
  predicate AllNamed(fields: seq<Field>) {
    forall i :: 0 <= i < |fields| ==> fields[i].ident.Some?
  }

  /** No two fields of the list carry the same identifier. */
  predicate DistinctIdents(fields: seq<Field>) {
    forall i, j :: 0 <= i < j < |fields| ==> fields[i].ident != fields[j].ident
  }

  /**
   * What the parser guarantees of a definition it hands over: the fields of
   * a braced struct are named, those of a tuple struct are not.
   */
  predicate WellFormed(input: DeriveInput) {
    match input.data
    case Struct(Named(fs)) => AllNamed(fs)
    case Struct(Unnamed(fs)) => forall i :: 0 <= i < |fs| ==> fs[i].ident.None?
    case _ => true
  }

  /**
   * What the compiler demands of any struct definition, derive or not: field
   * names are unique within a braced struct.
   */
  predicate Compiles(input: DeriveInput) {
    match input.data
    case Struct(Named(fs)) => DistinctIdents(fs)
    case _ => true
  }
}
