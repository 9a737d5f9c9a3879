/** `#[derive(Bundle)]`: the generated `component_ids`, `get_components` and
    `from_components` each walk the struct's fields in definition order, and a
    field marked `#[bundle]` is flattened by delegating to its own Bundle impl. */
module BundleDerive {
  import opened Wrappers
  import opened Syntax

  const BUNDLE_ATTRIBUTE_NAME := "bundle"
  const NotAStructWithFields := "`Bundle` can only be derived on structs with at least one field"

  /** How generated code names a field: `self.name` or `self.0`. */
  datatype Member = FieldName(name: string) | FieldIndex(index: nat)

  /** What the field closure yields for one field. */
  datatype FieldPlan = FieldPlan(isBundle: bool, member: Member, ty: Ty)

  /** A field is a nested bundle iff one of its attributes has the single-segment
      path `bundle`. */
  function IsBundleField(attrs: seq<Attr>): (b: bool)
    ensures b <==> exists i :: 0 <= i < |attrs| && attrs[i].GetIdent() == Some(BUNDLE_ATTRIBUTE_NAME)
  {
    if attrs == [] then false
    else attrs[0].GetIdent() == Some(BUNDLE_ATTRIBUTE_NAME) || IsBundleField(attrs[1..])
  }

  /** The closure applied to `(idx, field)`: positional fields are addressed by
      their index. */
  function PlanField(idx: nat, field: Field): FieldPlan
  {
    FieldPlan(
      IsBundleField(field.attrs),
      if field.ident.Some? then FieldName(field.ident.value) else FieldIndex(idx),
      field.ty)
  }

  /** `component_ids.extend(<T as Bundle>::component_ids(..))` or
      `component_ids.push(components.init_component::<T>(..))`. */
  datatype IdStep = ExtendIds(ty: Ty) | PushId(ty: Ty)
  /** `self.f.get_components(&mut func)` or `OwningPtr::make(self.f, &mut func)`. */
  datatype GetStep = GetNested(member: Member) | MakePtr(member: Member)
  /** `f: <T as Bundle>::from_components(ctx, &mut func)` or
      `f: func(ctx).inner().as_ptr().cast::<T>().read()`. */
  datatype FromStep = FromNested(member: Member, ty: Ty) | ReadPtr(member: Member, ty: Ty)

  /** The generated `unsafe impl Bundle`: the capacity hint and the three
      statement lists in the order they are spliced into the impl. */
  datatype BundleImpl = BundleImpl(
    ident: string,
    numFields: nat,
    componentIds: seq<IdStep>,
    getComponents: seq<GetStep>,
    fromComponents: seq<FromStep>)

  /** The safety comment of the generated impl: all three methods use
      field-definition order, so step `k` of each list is about the same field. */
  predicate Aligned(impl: BundleImpl)
  {
    && |impl.componentIds| == impl.numFields
    && |impl.getComponents| == impl.numFields
    && |impl.fromComponents| == impl.numFields
    && forall k :: 0 <= k < impl.numFields ==>
      match impl.fromComponents[k]
      case ReadPtr(m, t) => impl.componentIds[k] == PushId(t) && impl.getComponents[k] == MakePtr(m)
      case FromNested(m, t) => impl.componentIds[k] == ExtendIds(t) && impl.getComponents[k] == GetNested(m)
  }

  function FromStepFor(p: FieldPlan): FromStep
  {
    if p.isBundle then FromNested(p.member, p.ty) else ReadPtr(p.member, p.ty)
  }

  /** The impl was generated from these fields, one step per field, in order. */
  predicate Derives(impl: BundleImpl, fields: seq<Field>)
  {
    && impl.numFields == |fields|
    && |impl.fromComponents| == |fields|
    && forall k :: 0 <= k < |fields| ==> impl.fromComponents[k] == FromStepFor(PlanField(k, fields[k]))
  }

  /** `derive_bundle_impl`: rejects anything but a struct with at least one
      field, then fills the three statement lists in one pass over the fields. */
  method DeriveBundle(input: DeriveInput) returns (r: Result<BundleImpl>)
    ensures r.Err? <==> !input.data.Struct? || |input.data.fields.All()| == 0
    ensures r.Err? ==> r.message == NotAStructWithFields
    ensures r.Ok? ==> r.value.ident == input.ident && Aligned(r.value)
    ensures r.Ok? ==> Derives(r.value, input.data.fields.All())
  {
    if !input.data.Struct? || |input.data.fields.All()| == 0 {
      return Err(NotAStructWithFields);
    }
    var fields := input.data.fields.All();
    var fieldComponentIds: seq<IdStep> := [];
    var fieldGetComponents: seq<GetStep> := [];
    var fieldFromComponents: seq<FromStep> := [];
    for k := 0 to |fields|
      invariant |fieldComponentIds| == k && |fieldGetComponents| == k && |fieldFromComponents| == k
      invariant forall j :: 0 <= j < k ==> fieldFromComponents[j] == FromStepFor(PlanField(j, fields[j]))
      invariant forall j :: 0 <= j < k ==>
        match fieldFromComponents[j]
        case ReadPtr(m, t) => fieldComponentIds[j] == PushId(t) && fieldGetComponents[j] == MakePtr(m)
        case FromNested(m, t) => fieldComponentIds[j] == ExtendIds(t) && fieldGetComponents[j] == GetNested(m)
    {
      var plan := PlanField(k, fields[k]);
      if plan.isBundle {
        fieldComponentIds := fieldComponentIds + [ExtendIds(plan.ty)];
        fieldGetComponents := fieldGetComponents + [GetNested(plan.member)];
        fieldFromComponents := fieldFromComponents + [FromNested(plan.member, plan.ty)];
      } else {
        fieldComponentIds := fieldComponentIds + [PushId(plan.ty)];
        fieldGetComponents := fieldGetComponents + [MakePtr(plan.member)];
        fieldFromComponents := fieldFromComponents + [ReadPtr(plan.member, plan.ty)];
      }
    }
    r := Ok(BundleImpl(input.ident, |fields|, fieldComponentIds, fieldGetComponents, fieldFromComponents));
  }

  /** Addressing of a derived field: its identifier, or its position for a
      tuple struct; and the step kind follows the `#[bundle]` attribute. */
  lemma DerivedFieldAddressing(impl: BundleImpl, fields: seq<Field>, k: nat)
    requires Derives(impl, fields) && k < |fields|
    ensures impl.fromComponents[k].member ==
      (if fields[k].ident.Some? then FieldName(fields[k].ident.value) else FieldIndex(k))
    ensures impl.fromComponents[k].FromNested? <==>
      exists i :: 0 <= i < |fields[k].attrs| && fields[k].attrs[i].GetIdent() == Some(BUNDLE_ATTRIBUTE_NAME)
  {
  }

  // ---- What the generated code does at run time ----

  /** A Bundle type as the trait solver sees it: its impl and, for each field
      that is itself a bundle, the impl `<T as Bundle>` resolves to. */
  datatype BundleType = BundleType(impl: BundleImpl, nested: seq<BundleType>)

  /** An `OwningPtr` handed to the sink: the component type it points to and
      the value's bits. */
  datatype Ptr = Ptr(ty: Ty, payload: int)

  /** A bundle value: a component, or a struct of fields. */
  datatype Value = Component(ptr: Ptr) | Aggregate(fields: map<Member, Value>)

  /** `component_ids` from step `k` on; `reg` stands for `init_component`. */
  function Ids(b: BundleType, reg: Ty -> nat, k: nat): seq<nat>
    decreases b, |b.impl.componentIds| - k
  {
    if k >= |b.impl.componentIds| then []
    else
      (match b.impl.componentIds[k]
       case PushId(t) => [reg(t)]
       case ExtendIds(_) => if k < |b.nested| then Ids(b.nested[k], reg, 0) else [])
      + Ids(b, reg, k + 1)
  }

  /** `get_components` from step `k` on: the sequence of pointers the sink receives. */
  function Gets(b: BundleType, v: Value, k: nat): seq<Ptr>
    decreases b, |b.impl.getComponents| - k
  {
    if k >= |b.impl.getComponents| then []
    else
      (match b.impl.getComponents[k]
       case MakePtr(m) =>
         if v.Aggregate? && m in v.fields && v.fields[m].Component? then [v.fields[m].ptr] else []
       case GetNested(m) =>
         if v.Aggregate? && m in v.fields && k < |b.nested| then Gets(b.nested[k], v.fields[m], 0) else [])
      + Gets(b, v, k + 1)
  }

  /** `from_components` from step `k` on, pulling pointers from `stream`; `acc`
      holds the fields initialised so far. `None` when the producer runs dry. */
  function Froms(b: BundleType, stream: seq<Ptr>, k: nat, acc: map<Member, Value>): Option<(Value, seq<Ptr>)>
    decreases b, |b.impl.fromComponents| - k
  {
    if k >= |b.impl.fromComponents| then Some((Aggregate(acc), stream))
    else match b.impl.fromComponents[k]
      case ReadPtr(m, t) =>
        if stream == [] then None
        else Froms(b, stream[1..], k + 1, acc[m := Component(Ptr(t, stream[0].payload))])
      case FromNested(m, _) =>
        if k >= |b.nested| then None
        else match Froms(b.nested[k], stream, 0, map[])
          case None => None
          case Some((inner, rest)) => Froms(b, rest, k + 1, acc[m := inner])
  }

  function ComponentIds(b: BundleType, reg: Ty -> nat): seq<nat>
  {
    Ids(b, reg, 0)
  }

  function GetComponents(b: BundleType, v: Value): seq<Ptr>
  {
    Gets(b, v, 0)
  }

  function FromComponents(b: BundleType, stream: seq<Ptr>): Option<(Value, seq<Ptr>)>
  {
    Froms(b, stream, 0, map[])
  }

  /** The members the impl initialises among its first `k` steps. */
  function MembersBefore(impl: BundleImpl, k: nat): set<Member>
    requires k <= |impl.fromComponents|
  {
    set j | 0 <= j < k :: impl.fromComponents[j].member
  }

  /** `v` is a well-typed value of bundle type `b`: every impl in the tree is
      aligned, every field the impl names is present with the declared type,
      and nested bundle fields are values of their own bundle type. */
  ghost predicate Conforms(v: Value, b: BundleType)
    decreases b
  {
    && Aligned(b.impl)
    && |b.nested| == b.impl.numFields
    && v.Aggregate?
    && v.fields.Keys == MembersBefore(b.impl, b.impl.numFields)
    && forall k :: 0 <= k < b.impl.numFields ==>
      match b.impl.fromComponents[k]
      case ReadPtr(m, t) => v.fields[m].Component? && v.fields[m].ptr.ty == t
      case FromNested(m, _) => Conforms(v.fields[m], b.nested[k])
  }

  /** `acc` holds exactly the fields of `v` that the first `k` steps initialise. */
  predicate Accumulated(acc: map<Member, Value>, v: Value, b: BundleType, k: nat)
  {
    && v.Aggregate? && k <= |b.impl.fromComponents|
    && acc.Keys == MembersBefore(b.impl, k)
    && forall m :: m in acc ==> m in v.fields && acc[m] == v.fields[m]
  }

  /** Once every step has run, the accumulated fields are the value's own. */
  lemma FromGetsFromDone(b: BundleType, v: Value, acc: map<Member, Value>, rest: seq<Ptr>)
    requires Conforms(v, b)
    requires Accumulated(acc, v, b, b.impl.numFields)
    ensures Froms(b, Gets(b, v, b.impl.numFields) + rest, b.impl.numFields, acc) == Some((v, rest))
  {
    assert Gets(b, v, b.impl.numFields) + rest == rest;
    assert acc.Keys == v.fields.Keys;
    assert acc == v.fields;
  }

  /** Recording step `k`'s field keeps the accumulator a restriction of the value. */
  lemma AccumulateNext(b: BundleType, v: Value, k: nat, acc: map<Member, Value>)
    requires k < b.impl.numFields == |b.impl.fromComponents|
    requires v.Aggregate? && v.fields.Keys == MembersBefore(b.impl, b.impl.numFields)
    requires Accumulated(acc, v, b, k)
    ensures b.impl.fromComponents[k].member in v.fields
    ensures Accumulated(acc[b.impl.fromComponents[k].member := v.fields[b.impl.fromComponents[k].member]], v, b, k + 1)
  {
    var m := b.impl.fromComponents[k].member;
    assert m in MembersBefore(b.impl, b.impl.numFields);
    var acc' := acc[m := v.fields[m]];
    assert MembersBefore(b.impl, k + 1) == MembersBefore(b.impl, k) + {m};
    assert acc'.Keys == acc.Keys + {m};
  }

  /** From step `k` on, reading back what `get_components` emitted finishes
      the value whose first `k` fields are already in `acc`. */
  lemma {:induction false} FromGetsFrom(b: BundleType, v: Value, k: nat, acc: map<Member, Value>, rest: seq<Ptr>)
    requires Conforms(v, b) && k <= b.impl.numFields
    requires Accumulated(acc, v, b, k)
    ensures Froms(b, Gets(b, v, k) + rest, k, acc) == Some((v, rest))
    decreases b, b.impl.numFields - k, 1
  {
    if k == b.impl.numFields {
      FromGetsFromDone(b, v, acc, rest);
    } else if b.impl.fromComponents[k].ReadPtr? {
      FromGetsFromRead(b, v, k, acc, rest);
    } else {
      FromGetsFromDescend(b, v, k, acc, rest);
    }
  }

  /** A component step reads its field back, and the walk goes on from `k + 1`. */
  lemma {:induction false} FromGetsFromRead(b: BundleType, v: Value, k: nat, acc: map<Member, Value>, rest: seq<Ptr>)
    requires Conforms(v, b) && k < b.impl.numFields && b.impl.fromComponents[k].ReadPtr?
    requires Accumulated(acc, v, b, k)
    ensures Froms(b, Gets(b, v, k) + rest, k, acc) == Some((v, rest))
    decreases b, b.impl.numFields - k, 0
  {
    var m := b.impl.fromComponents[k].member;
    AccumulateNext(b, v, k, acc);
    ConformsStep(v, b, k);
    FromGetsFromLeaf(b, v, k, m, acc, rest);
    FromGetsFrom(b, v, k + 1, acc[m := v.fields[m]], rest);
  }

  /** A nested step rebuilds its field through the nested impl, and the walk
      goes on from `k + 1`. */
  lemma {:induction false} FromGetsFromDescend(b: BundleType, v: Value, k: nat, acc: map<Member, Value>, rest: seq<Ptr>)
    requires Conforms(v, b) && k < b.impl.numFields && b.impl.fromComponents[k].FromNested?
    requires Accumulated(acc, v, b, k)
    ensures Froms(b, Gets(b, v, k) + rest, k, acc) == Some((v, rest))
    decreases b, b.impl.numFields - k, 0
  {
    var m := b.impl.fromComponents[k].member;
    AccumulateNext(b, v, k, acc);
    ConformsStep(v, b, k);
    FromGetsFrom(b.nested[k], v.fields[m], 0, map[], Gets(b, v, k + 1) + rest);
    FromGetsFromNested(b, v, k, m, acc, rest);
    FromGetsFrom(b, v, k + 1, acc[m := v.fields[m]], rest);
  }

  /** What `Conforms` says about step `k` alone. */
  lemma ConformsStep(v: Value, b: BundleType, k: nat)
    requires Conforms(v, b) && k < b.impl.numFields
    ensures StepConforms(v, b, k)
    ensures b.impl.fromComponents[k].FromNested? ==>
      Conforms(v.fields[b.impl.fromComponents[k].member], b.nested[k])
  {
  }

  /** Step `k` of all three lists is about one field of `v`, present with the
      declared type. */
  predicate StepConforms(v: Value, b: BundleType, k: nat)
  {
    && k < |b.impl.fromComponents| && k < |b.impl.getComponents| && k < |b.nested|
    && v.Aggregate?
    && b.impl.fromComponents[k].member in v.fields
    && match b.impl.fromComponents[k]
      case ReadPtr(m, t) =>
        b.impl.getComponents[k] == MakePtr(m) && v.fields[m].Component? && v.fields[m].ptr.ty == t
      case FromNested(m, _) => b.impl.getComponents[k] == GetNested(m)
  }

  /** One nested step: once the nested impl rebuilds field `m` from its part of
      the stream, the outer walk carries on with the rest. */
  lemma FromGetsFromNested(b: BundleType, v: Value, k: nat, m: Member, acc: map<Member, Value>, rest: seq<Ptr>)
    requires StepConforms(v, b, k) && b.impl.fromComponents[k].FromNested? && m == b.impl.fromComponents[k].member
    requires Froms(b.nested[k], Gets(b.nested[k], v.fields[m], 0) + (Gets(b, v, k + 1) + rest), 0, map[])
        == Some((v.fields[m], Gets(b, v, k + 1) + rest))
    ensures Froms(b, Gets(b, v, k) + rest, k, acc) == Froms(b, Gets(b, v, k + 1) + rest, k + 1, acc[m := v.fields[m]])
  {
    var inner := Gets(b.nested[k], v.fields[m], 0);
    var tail := Gets(b, v, k + 1);
    assert Gets(b, v, k) == inner + tail;
    assert inner + tail + rest == inner + (tail + rest);
  }

  /** One component step: the pointer read back, cast to the type of field
      `m`, is the field's value. */
  lemma FromGetsFromLeaf(b: BundleType, v: Value, k: nat, m: Member, acc: map<Member, Value>, rest: seq<Ptr>)
    requires StepConforms(v, b, k) && b.impl.fromComponents[k].ReadPtr? && m == b.impl.fromComponents[k].member
    ensures Froms(b, Gets(b, v, k) + rest, k, acc) == Froms(b, Gets(b, v, k + 1) + rest, k + 1, acc[m := v.fields[m]])
  {
    var t := b.impl.fromComponents[k].ty;
    var p := v.fields[m].ptr;
    var tail := Gets(b, v, k + 1);
    assert Gets(b, v, k) == [p] + tail;
    assert ([p] + tail + rest)[1..] == tail + rest;
    assert Component(Ptr(t, p.payload)) == v.fields[m];
  }

  /** Round trip: `from_components` fed the stream `get_components` emits
      rebuilds the original value, nested bundles included, and leaves whatever
      follows in the stream untouched. */
  lemma FromComponentsOfGetComponents(b: BundleType, v: Value, rest: seq<Ptr>)
    requires Conforms(v, b)
    ensures FromComponents(b, GetComponents(b, v) + rest) == Some((v, rest))
  {
    FromGetsFrom(b, v, 0, map[], rest);
  }

  /** Position by position, each id is the registered id of the pointer's type. */
  predicate Matches(ids: seq<nat>, ps: seq<Ptr>, reg: Ty -> nat)
  {
    |ids| == |ps| && forall i :: 0 <= i < |ps| ==> ids[i] == reg(ps[i].ty)
  }

  lemma MatchesConcat(ids: seq<nat>, ps: seq<Ptr>, ids': seq<nat>, ps': seq<Ptr>, reg: Ty -> nat)
    requires Matches(ids, ps, reg) && Matches(ids', ps', reg)
    ensures Matches(ids + ids', ps + ps', reg)
  {
    forall i | 0 <= i < |ps + ps'|
      ensures (ids + ids')[i] == reg((ps + ps')[i].ty)
    {
      if i >= |ps| {
        assert (ids + ids')[i] == ids'[i - |ps|];
        assert (ps + ps')[i] == ps'[i - |ps|];
      }
    }
  }

  lemma {:induction false} IdsMatchGets(b: BundleType, v: Value, reg: Ty -> nat, k: nat)
    requires Conforms(v, b) && k <= b.impl.numFields
    ensures Matches(Ids(b, reg, k), Gets(b, v, k), reg)
    decreases b, b.impl.numFields - k
  {
    if k < b.impl.numFields {
      IdsMatchGets(b, v, reg, k + 1);
      ConformsStep(v, b, k);
      var m := b.impl.fromComponents[k].member;
      if b.impl.fromComponents[k].ReadPtr? {
        var t := b.impl.fromComponents[k].ty;
        assert b.impl.componentIds[k] == PushId(t);
        assert Ids(b, reg, k) == [reg(t)] + Ids(b, reg, k + 1);
        assert Gets(b, v, k) == [v.fields[m].ptr] + Gets(b, v, k + 1);
        MatchesConcat([reg(t)], [v.fields[m].ptr], Ids(b, reg, k + 1), Gets(b, v, k + 1), reg);
      } else {
        IdsMatchGets(b.nested[k], v.fields[m], reg, 0);
        assert b.impl.componentIds[k].ExtendIds?;
        assert Ids(b, reg, k) == Ids(b.nested[k], reg, 0) + Ids(b, reg, k + 1);
        assert Gets(b, v, k) == Gets(b.nested[k], v.fields[m], 0) + Gets(b, v, k + 1);
        MatchesConcat(Ids(b.nested[k], reg, 0), Gets(b.nested[k], v.fields[m], 0),
          Ids(b, reg, k + 1), Gets(b, v, k + 1), reg);
      }
    }
  }

  /** The k-th pointer `get_components` emits is a value of the component whose
      id `component_ids` lists k-th. */
  lemma ComponentIdsMatchValues(b: BundleType, v: Value, reg: Ty -> nat)
    requires Conforms(v, b)
    ensures |ComponentIds(b, reg)| == |GetComponents(b, v)|
    ensures forall i :: 0 <= i < |GetComponents(b, v)| ==>
      ComponentIds(b, reg)[i] == reg(GetComponents(b, v)[i].ty)
  {
    IdsMatchGets(b, v, reg, 0);
  }
}
