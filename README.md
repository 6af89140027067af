# struct_iterable: the `Iterable` derive macro, modelled in Dafny

The crate provides `#[derive(Iterable)]`. Its one function, `make_iterable`
(src/lib.rs), inspects the annotated type and rejects anything that is not a
struct with named fields, panicking with "Only structs are supported" or
"Only structs with named fields are supported". For a braced struct it emits

    impl S { pub fn iter_fields<'a>(&'a self) -> IntoIter<(&'static str, &'a dyn Any)> { vec![ .. ].into_iter() } }

with one `("field", &(self.field) as &dyn Any)` element per declared field, in
declaration order.

The model has four modules:

- `Wrappers`: `Option` and `Result`.
- `Syntax`: the parsed type definition, as datatypes. A `DeriveInput` is a
  name plus `Struct(Fields) | Enum | Union`, and `Fields` is
  `Named | Unnamed | Unit`. A `Field` has a visibility, an optional
  identifier and a type, the type kept as text. `WellFormed` states what the
  parser guarantees: the fields of a braced struct carry identifiers.
  `Compiles` states what the compiler guarantees: field names are unique.
- `Derive` (make_iterable.dfy): the macro itself. `NamedFields` is the
  shape inspection. `EntriesFor` is the per-field map. `MakeIterable`
  returns the emitted `impl` as an `ItemImpl` value, or the panic as a
  `DeriveError`. An `ItemImpl` records the implemented trait, if any, the
  self type, whether the method is `pub`, the method name, the receiver and the `vec!` entries.
- `IterFields` (iter_fields.dfy): what the emitted method returns at run
  time. A value of the struct is the sequence of its field values in
  declaration order. `self.member` is resolved by name against the declared
  fields, as the compiler does. A `&dyn Any` borrow is a `FieldRef` holding
  the position of the borrowed field. Dereferencing a `FieldRef` reads that
  position.

Three facts about `make_iterable` that the model states:

- the macro emits only the immutable `iter_fields(&self)`. It emits no
  mutable enumerator.
- the emitted method is an inherent method of the struct. It is not an
  implementation of the `Iterable::iter` trait method in
  struct_iterable_internal/src/lib.rs.
- a braced struct with no fields (`struct S {}`) is accepted and yields an
  empty vector. A unit struct (`struct S;`) and an empty tuple struct
  (`struct S();`) are rejected with the named-fields message.

## Model

| member | source | states |
|---|---|---|
| `Derive.NamedFields` | src/lib.rs:13-19 | non-structs fail with the "only structs" error and only they do; structs with tuple or unit fields fail with the "named fields" error; otherwise the result is exactly the declared field list |
| `Derive.EntriesFor` | src/lib.rs:21-27 | one entry per field and none skipped; entry i's string literal is field i's identifier, and it borrows the member of that same name |
| `Derive.MakeIterable` | src/lib.rs:8-40 | accepted exactly when the input is a struct with named fields; the kind check is made before the field check; each failure carries its panic message; on success the output is an inherent `impl` of the input type with one `pub` `&self` method `iter_fields` whose entries name the declared fields in order |
| `Derive.IdentsAloneDecide` | src/lib.rs:21-25 | fields that differ only in visibility or type give the same emitted `impl` |
| `IterFields.ResolveMember` | src/lib.rs:25 | `self.member` resolves to a field of that name, and no earlier field has that name; when nothing resolves, no field has that name |
| `IterFields.EvalEntries` | src/lib.rs:32-34 | the `vec!` evaluates exactly when every member resolves; it then has one entry per element, keeps each literal name and borrows the resolved field |
| `IterFields.ResolveDeclared` | src/lib.rs:25 | with unique field names, `self.f` for a declared field f resolves to that field's position |
| `IterFields.IterFieldsEntries` | src/lib.rs:21-34 | on an accepted struct `iter_fields` returns one entry per declared field; entry i has field i's name and borrows field i of `self` |
| `IterFields.DerefIsFieldAccess` | src/lib.rs:25 | dereferencing entry i gives field i of the value, the same value as direct access to the field of that name |
| `IterFields.EmptyBracedStruct` | src/lib.rs:15 | `struct S {}` is accepted and `iter_fields` returns an empty vector |
| `IterFields.PointExample` | src/lib.rs:21-37 | `Point { x, y }` with x = 3, y = 4 gives `("x", &3)` then `("y", &4)` |

## Left out

- Parsing the token stream into a `DeriveInput` (`parse_macro_input!`) and printing the `impl` with `quote!`: both belong to proc-macro libraries. The model takes the parsed definition as a datatype and returns the emitted `impl` as a datatype. The type's generics are not modelled, and neither are the lifetime parameter `'a` and the `&'static str` element type. `impl #struct_name` drops the struct's type parameters, and `as &dyn Any` needs `'static` field types, so for a generic struct or one with a borrowed field the macro accepts the input but its expansion does not compile; for such structs `IterFields.IterFieldsEntries` and `IterFields.DerefIsFieldAccess` describe code that is never built, and `Syntax.Compiles` covers only unique field names.
- Type erasure to `&dyn Any` and downcasting: both are standard-library run-time behaviour. A borrow is modelled as the position of the borrowed field, and `Deref` returns the field's value directly.
- The `Iterable` trait in struct_iterable_internal/src/lib.rs: nothing in src/lib.rs implements it.
- Structs with a repeated field name: the run-time lemmas require unique names (`Syntax.Compiles`), because the compiler rejects a struct with a repeated field name, so the emitted code never runs on one.
- The commented-out test at src/lib.rs:42-71 is dead code and is not modelled.
- The panics are modelled as `Failure` values, not as aborts of compilation.
