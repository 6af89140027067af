/**
 * What the emitted `iter_fields` does when it runs on a value of the struct.
 * A value is the sequence of its field values in declaration order. Each
 * `&(self.member)` of the emitted body borrows the field that the compiler
 * resolves `member` to; a borrowed field is modelled by its position, and
 * dereferencing it reads the value at that position.
 */
module IterFields {
  import opened Wrappers
  import opened Syntax
  import opened Derive

  /** `&(self.f) as &dyn Any`: a borrow of the field at position `index` of `self`. */
  datatype FieldRef = FieldRef(index: nat)

  /** One element of the vector `iter_fields` returns. */
  datatype Entry = Entry(name: string, ref: FieldRef)

  /**
   * How the compiler resolves `self.member`: the position of the first
   * declared field called `member`, or nothing when there is none (then the
   * emitted code would not compile).
   */
  function ResolveMember(fields: seq<Field>, member: string): (r: Option<nat>)
    ensures r.Some? ==> r.value < |fields| && fields[r.value].ident == Some(member)
    ensures forall j :: 0 <= j < |fields| && (r.None? || j < r.value) ==> fields[j].ident != Some(member)
  {
    if |fields| == 0 then None
    else if fields[0].ident == Some(member) then Some(0)
    else match ResolveMember(fields[1..], member)
      case None => None
      case Some(k) => Some(k + 1)
  }

  /**
   * Evaluates the emitted `vec!` against the declared fields: each pair keeps
   * its literal name and borrows the field its member resolves to. Nothing
   * when some member names no field.
   */
  function EvalEntries(entries: seq<FieldAccess>, fields: seq<Field>): (r: Option<seq<Entry>>)
    ensures r.Some? <==> forall i :: 0 <= i < |entries| ==> ResolveMember(fields, entries[i].member).Some?
    ensures r.Some? ==>
      && |r.value| == |entries|
      && forall i :: 0 <= i < |entries| ==>
           r.value[i].name == entries[i].name && ResolveMember(fields, entries[i].member) == Some(r.value[i].ref.index)
  {
    if |entries| == 0 then Some([])
    else match ResolveMember(fields, entries[0].member)
      case None => None
      case Some(k) =>
        match EvalEntries(entries[1..], fields)
        case None => None
        case Some(rest) => Some([Entry(entries[0].name, FieldRef(k))] + rest)
  }

  /** Reads the field an entry borrows: `*entry.1`, once downcast. */
  function Deref<V>(instance: seq<V>, e: Entry): V
    requires e.ref.index < |instance|
  {
    instance[e.ref.index]
  }

  /** Direct field access `self.member` on a value of the struct. */
  function Access<V>(fields: seq<Field>, instance: seq<V>, member: string): Option<V>
    requires |instance| == |fields|
  {
    match ResolveMember(fields, member)
    case None => None
    case Some(k) => Some(instance[k])
  }

  /** With unique field names, `self.f` resolves to the one field called `f`. */
  lemma ResolveDeclared(fields: seq<Field>, i: nat)
    requires DistinctIdents(fields) && i < |fields| && fields[i].ident.Some?
    ensures ResolveMember(fields, fields[i].ident.value) == Some(i)
  {
  }

  /**
   * On an accepted struct, `iter_fields` returns one entry per declared
   * field, in declaration order: entry `i` carries the name of field `i` and
   * borrows field `i` of `self`.
   */
  lemma IterFieldsEntries(input: DeriveInput)
    requires WellFormed(input) && Compiles(input)
    requires MakeIterable(input).Success?
    ensures var fs := input.data.fields.named;
      var r := EvalEntries(MakeIterable(input).value.entries, fs);
      && r.Some?
      && |r.value| == |fs|
      && forall i :: 0 <= i < |fs| ==> Some(r.value[i].name) == fs[i].ident && r.value[i].ref == FieldRef(i)
  {
  }

  /**
   * Dereferencing an entry of `iter_fields` gives the same value as reading
   * the field of that name directly, and that is field `i` of the value.
   */
  lemma DerefIsFieldAccess<V>(input: DeriveInput, instance: seq<V>)
    requires WellFormed(input) && Compiles(input)
    requires MakeIterable(input).Success?
    requires |instance| == |input.data.fields.named|
    ensures var fs := input.data.fields.named;
      var r := EvalEntries(MakeIterable(input).value.entries, fs);
      && r.Some?
      && forall i :: 0 <= i < |r.value| ==>
           r.value[i].ref.index < |instance|
           && Deref(instance, r.value[i]) == instance[i]
           && Access(fs, instance, r.value[i].name) == Some(Deref(instance, r.value[i]))
  {
  }

  /** A braced struct with no fields, `struct S {}`, is accepted and enumerates nothing. */
  lemma EmptyBracedStruct(name: string)
    ensures MakeIterable(DeriveInput(name, Struct(Named([])))).Success?
    ensures EvalEntries(MakeIterable(DeriveInput(name, Struct(Named([])))).value.entries, []) == Some([])
  {
  }

  /**
   * `struct Point { x: i32, y: i32 }` with `x = 3, y = 4`: `iter_fields`
   * yields `("x", &3)` then `("y", &4)`.
   */
  lemma PointExample()
    ensures var fs := [Field(Inherited, Some("x"), "i32"), Field(Inherited, Some("y"), "i32")];
      var item := MakeIterable(DeriveInput("Point", Struct(Named(fs))));
      && item.Success?
      && EvalEntries(item.value.entries, fs) == Some([Entry("x", FieldRef(0)), Entry("y", FieldRef(1))])
      && Deref([3, 4], Entry("x", FieldRef(0))) == 3
      && Deref([3, 4], Entry("y", FieldRef(1))) == 4
  {
    var fs := [Field(Inherited, Some("x"), "i32"), Field(Inherited, Some("y"), "i32")];
    var input := DeriveInput("Point", Struct(Named(fs)));
    IterFieldsEntries(input);
    var r := EvalEntries(MakeIterable(input).value.entries, fs).value;
    assert |r| == 2;
    assert Some(r[0].name) == Some("x") && Some(r[1].name) == Some("y");
    assert r == [Entry("x", FieldRef(0)), Entry("y", FieldRef(1))];
  }
}
