/**
 * The `Iterable` derive macro: it inspects the shape of the annotated type
 * and, for a struct with named fields, emits an inherent `impl` block holding
 * one method, `iter_fields`, whose body is a `vec!` of one
 * `(field-name, &self.field as &dyn Any)` pair per field, in declaration order.
 */
module Derive {
  import opened Wrappers
  import opened Syntax

  /** The two ways the macro panics, each with its own message. */
  datatype DeriveError = NotAStruct | NotNamedFields {
    function Message(): string {
      match this
      case NotAStruct => "Only structs are supported"
      case NotNamedFields => "Only structs with named fields are supported"
    }
  }

  /**
   * One element of the emitted `vec!`: the string literal `name` paired with
   * a borrow of `self.member`, erased to `&dyn Any`.
   */
  datatype FieldAccess = FieldAccess(name: string, member: string)

  /** How the emitted method takes `self`: `&self` or `&mut self`. */
  datatype Receiver = SharedSelf | MutSelf

  /**
   * The emitted `impl` block: the trait it implements, if any, the type it
   * is attached to, and its one method with that method's visibility (`pub`
   * or private), name, receiver and the entries of its `vec!`.
   */
  datatype ItemImpl = ItemImpl(
    traitOf: Option<string>,
    selfTy: string,
    isPub: bool,
    fnName: string,
    receiver: Receiver,
    entries: seq<FieldAccess>)

  const IterFieldsName: string := "iter_fields"

  /**
   * Shape inspection: a struct with named fields gives its fields, anything
   * else the panic it raises. The struct check is made first, so a
   * non-struct never gets the named-fields message.
   */
  function NamedFields(input: DeriveInput): (r: Result<seq<Field>, DeriveError>)
    ensures r == Failure(NotAStruct) <==> !input.data.Struct?
    ensures r == Failure(NotNamedFields) <==> input.data.Struct? && !input.data.fields.Named?
    ensures r.Success? ==> input.data == Struct(Named(r.value))
  {
    match input.data
    case Struct(Named(fs)) => Success(fs)
    case Struct(_) => Failure(NotNamedFields)
    case _ => Failure(NotAStruct)
  }

  /**
   * The pair emitted for one field. The field's identifier is unwrapped: it
   * is there because the field comes from a braced field list.
   */
  function EntryFor(f: Field): (e: FieldAccess)
    requires f.ident.Some?
    ensures Some(e.name) == f.ident && e.member == e.name
  {
    FieldAccess(f.ident.value, f.ident.value)
  }

  /** The pairs emitted for a field list: one per field, none skipped, in order. */
  function EntriesFor(fields: seq<Field>): (r: seq<FieldAccess>)
    requires AllNamed(fields)
    ensures |r| == |fields|
    ensures forall i :: 0 <= i < |fields| ==> Some(r[i].name) == fields[i].ident && r[i].member == r[i].name
  {
    if |fields| == 0 then [] else [EntryFor(fields[0])] + EntriesFor(fields[1..])
  }

  /**
   * The whole macro. On a struct with named fields it emits an inherent
   * `impl` of the struct, not an `impl Iterable for`, with a single `pub`
   * `&self` method `iter_fields` and no mutable counterpart, whose entries name the
   * declared fields one for one in declaration order, whatever their
   * visibility or type. Otherwise it panics, with no output.
   */
  function MakeIterable(input: DeriveInput): (r: Result<ItemImpl, DeriveError>)
    requires WellFormed(input)
    ensures r.Success? <==> input.data.Struct? && input.data.fields.Named?
    ensures r == Failure(NotAStruct) <==> !input.data.Struct?
    ensures r == Failure(NotNamedFields) <==> input.data.Struct? && !input.data.fields.Named?
    ensures r.Failure? ==>
      r.error.Message() == if input.data.Struct? then "Only structs with named fields are supported" else "Only structs are supported"
    ensures r.Success? ==>
      && r.value.traitOf == None
      && r.value.selfTy == input.ident
      && r.value.isPub
      && r.value.fnName == IterFieldsName
      && r.value.receiver == SharedSelf
    ensures r.Success? ==>
      var fs := input.data.fields.named;
      && |r.value.entries| == |fs|
      && forall i :: 0 <= i < |fs| ==>
           Some(r.value.entries[i].name) == fs[i].ident && r.value.entries[i].member == r.value.entries[i].name
  {
    match NamedFields(input)
    case Failure(e) => Failure(e)
    case Success(fs) => Success(ItemImpl(None, input.ident, true, IterFieldsName, SharedSelf, EntriesFor(fs)))
  }

  /**
   * The macro looks at field identifiers only: two structs of the same name
   * whose fields differ only in visibility or type get the same `impl`.
   */
  lemma {:induction false} IdentsAloneDecide(a: seq<Field>, b: seq<Field>, name: string)
    requires AllNamed(a) && |a| == |b|
    requires forall i :: 0 <= i < |a| ==> a[i].ident == b[i].ident
    ensures MakeIterable(DeriveInput(name, Struct(Named(a)))) == MakeIterable(DeriveInput(name, Struct(Named(b))))
  {
    var ea, eb := EntriesFor(a), EntriesFor(b);
    assert ea == eb by {
      forall i | 0 <= i < |ea| ensures ea[i] == eb[i] { }
    }
  }
}
