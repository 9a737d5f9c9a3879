/** `#[derive(SystemParam)]`: fields marked `#[system_param(ignore)]` are built
    with `Default`, every other field is fetched from the parameter state
    tuple, which holds one state per fetched field. */
module SystemParamDerive {
  import opened Wrappers
  import opened Syntax

  const SYSTEM_PARAM_ATTRIBUTE_NAME := "system_param"
  const IGNORE_KEYWORD := "ignore"
  const NamedFieldsExpected := "Expected a struct with named fields."
  const InvalidAttribute := "Invalid 'render_resources' attribute format."
  const MissingIdent := "called `Option::unwrap()` on a `None` value"
  const NoSuchTupleField := "no field on the state tuple at this index"

  /** The arguments of a `#[system_param(..)]` attribute: nothing, or the single
      keyword `ignore`; anything else, or no parentheses at all, panics. */
  function ParseIgnoreArgs(args: Option<seq<Token>>): Result<bool>
  {
    match args
    case None => Err(InvalidAttribute)
    case Some(ts) =>
      if ts == [] then Ok(false)
      else if ts == [Ident(IGNORE_KEYWORD)] then Ok(true)
      else Err(InvalidAttribute)
  }

  /** `SystemParamFieldAttributes::ignore` of one field: only the first
      `system_param` attribute is read; without one the field is fetched. */
  function IgnoreFlag(attrs: seq<Attr>): Result<bool>
  {
    if attrs == [] then Ok(false)
    else if attrs[0].GetIdent() == Some(SYSTEM_PARAM_ATTRIBUTE_NAME) then ParseIgnoreArgs(attrs[0].args)
    else IgnoreFlag(attrs[1..])
  }

  /** The `field_attributes` collection: one flag per field, in order; the
      first malformed attribute panics. */
  function IgnoreFlags(fields: seq<Field>): (r: Result<seq<bool>>)
    ensures r.Ok? <==> forall i :: 0 <= i < |fields| ==> IgnoreFlag(fields[i].attrs).Ok?
    ensures r.Ok? ==>
      && |r.value| == |fields|
      && forall i :: 0 <= i < |fields| ==> r.value[i] == IgnoreFlag(fields[i].attrs).value
  {
    if fields == [] then Ok([])
    else
      var last := IgnoreFlag(fields[|fields| - 1].attrs);
      match IgnoreFlags(fields[..|fields| - 1])
      case Err(m) => Err(m)
      case Ok(flags) => if last.Err? then Err(last.message) else Ok(flags + [last.value])
  }

  /** The positions `i` with `flags[i] == b`, in increasing order. */
  function PositionsWhere(flags: seq<bool>, b: bool): seq<nat>
  {
    if flags == [] then []
    else PositionsWhere(flags[..|flags| - 1], b) + (if flags[|flags| - 1] == b then [|flags| - 1] else [])
  }

  /** One more flag extends the positions by at most that flag's own position. */
  lemma PositionsStep(flags: seq<bool>, i: nat, b: bool)
    requires i < |flags|
    ensures PositionsWhere(flags[..i + 1], b) == PositionsWhere(flags[..i], b) + (if flags[i] == b then [i] else [])
  {
    assert flags[..i + 1][..i] == flags[..i];
  }

  /** Every listed position is in range and carries the flag `b`. */
  lemma {:induction false} PositionsSound(flags: seq<bool>, b: bool)
    ensures forall k :: 0 <= k < |PositionsWhere(flags, b)| ==>
      PositionsWhere(flags, b)[k] < |flags| && flags[PositionsWhere(flags, b)[k]] == b
  {
    if flags != [] {
      var init := flags[..|flags| - 1];
      PositionsSound(init, b);
      var p, q := PositionsWhere(flags, b), PositionsWhere(init, b);
      assert p == q + (if flags[|flags| - 1] == b then [|flags| - 1] else []);
      forall k | 0 <= k < |p|
        ensures p[k] < |flags| && flags[p[k]] == b
      {
        if k < |q| {
          assert p[k] == q[k] && init[q[k]] == flags[q[k]];
        }
      }
    }
  }

  /** The listed positions increase strictly, and all lie below `|flags|`. */
  lemma {:induction false} PositionsIncreasing(flags: seq<bool>, b: bool)
    ensures forall k, l :: 0 <= k < l < |PositionsWhere(flags, b)| ==>
      PositionsWhere(flags, b)[k] < PositionsWhere(flags, b)[l]
    ensures forall k :: 0 <= k < |PositionsWhere(flags, b)| ==> PositionsWhere(flags, b)[k] < |flags|
  {
    if flags != [] {
      var init := flags[..|flags| - 1];
      PositionsIncreasing(init, b);
      var p, q := PositionsWhere(flags, b), PositionsWhere(init, b);
      assert p == q + (if flags[|flags| - 1] == b then [|flags| - 1] else []);
      assert forall k :: 0 <= k < |q| ==> p[k] == q[k];
    }
  }

  /** Every position carrying the flag `b` is listed. */
  lemma {:induction false} PositionsComplete(flags: seq<bool>, b: bool)
    ensures forall i :: 0 <= i < |flags| && flags[i] == b ==> i in PositionsWhere(flags, b)
  {
    if flags != [] {
      var init := flags[..|flags| - 1];
      PositionsComplete(init, b);
      var p, q := PositionsWhere(flags, b), PositionsWhere(init, b);
      assert p == q + (if flags[|flags| - 1] == b then [|flags| - 1] else []);
      forall i | 0 <= i < |flags| && flags[i] == b
        ensures i in p
      {
        if i < |init| {
          assert init[i] == flags[i] && i in q;
        }
      }
    }
  }

  /** Each flag is counted on exactly one side. */
  lemma {:induction false} PositionsPartition(flags: seq<bool>, b: bool)
    ensures |PositionsWhere(flags, b)| + |PositionsWhere(flags, !b)| == |flags|
  {
    if flags != [] {
      PositionsPartition(flags[..|flags| - 1], b);
    }
  }

  /** `PositionsWhere` lists exactly the matching positions, each once, in
      increasing order; the two lists together account for every field. */
  lemma PositionsWhereSpec(flags: seq<bool>, b: bool)
    ensures forall k :: 0 <= k < |PositionsWhere(flags, b)| ==>
      PositionsWhere(flags, b)[k] < |flags| && flags[PositionsWhere(flags, b)[k]] == b
    ensures forall k, l :: 0 <= k < l < |PositionsWhere(flags, b)| ==>
      PositionsWhere(flags, b)[k] < PositionsWhere(flags, b)[l]
    ensures forall i :: 0 <= i < |flags| && flags[i] == b ==> i in PositionsWhere(flags, b)
    ensures |PositionsWhere(flags, b)| + |PositionsWhere(flags, !b)| == |flags|
  {
    PositionsSound(flags, b);
    PositionsIncreasing(flags, b);
    PositionsComplete(flags, b);
    PositionsPartition(flags, b);
  }

  datatype SystemParamImpl = SystemParamImpl(
    structName: string,
    fields: seq<string>,
    fieldTypes: seq<Ty>,
    fieldIndices: seq<nat>,
    ignoredFields: seq<string>,
    ignoredFieldTypes: seq<Ty>)

  /** `get_named_struct_fields` accepts a struct with named fields only. */
  predicate HasNamedFields(input: DeriveInput)
  {
    input.data.Struct? && input.data.fields.Named?
  }

  /** `names` and `types` list, in order, the identifiers and types of the
      fields of `fs` at `positions`. */
  predicate Picks(fs: seq<Field>, positions: seq<nat>, names: seq<string>, types: seq<Ty>)
  {
    && |names| == |positions| && |types| == |positions|
    && forall k :: 0 <= k < |positions| ==>
      && positions[k] < |fs| && fs[positions[k]].ident.Some?
      && names[k] == fs[positions[k]].ident.value && types[k] == fs[positions[k]].ty
  }

  lemma PicksSnoc(fs: seq<Field>, positions: seq<nat>, names: seq<string>, types: seq<Ty>, i: nat)
    requires Picks(fs, positions, names, types)
    requires i < |fs| && fs[i].ident.Some?
    ensures Picks(fs, positions + [i], names + [fs[i].ident.value], types + [fs[i].ty])
  {
  }

  /** `derive_system_param`: collect the per-field flags, then split the fields
      in one pass. `field_indices` records a fetched field's position among
      ALL fields. */
  method DeriveSystemParam(input: DeriveInput) returns (r: Result<SystemParamImpl>)
    ensures r.Ok? <==>
      && HasNamedFields(input)
      && IgnoreFlags(input.data.fields.list).Ok?
      && forall i :: 0 <= i < |input.data.fields.list| ==> input.data.fields.list[i].ident.Some?
    ensures r.Ok? ==>
      && r.value.structName == input.ident
      && r.value.fieldIndices == PositionsWhere(IgnoreFlags(input.data.fields.list).value, false)
      && Picks(input.data.fields.list, r.value.fieldIndices, r.value.fields, r.value.fieldTypes)
      && Picks(input.data.fields.list, PositionsWhere(IgnoreFlags(input.data.fields.list).value, true),
               r.value.ignoredFields, r.value.ignoredFieldTypes)
  {
    if !HasNamedFields(input) {
      return Err(NamedFieldsExpected);
    }
    var fs := input.data.fields.list;
    var fieldAttributes := IgnoreFlags(fs);
    if fieldAttributes.Err? {
      return Err(fieldAttributes.message);
    }
    r := SplitFields(input.ident, fs, fieldAttributes.value);
  }

  /** The partition loop of `derive_system_param`: each field goes to the
      ignored side or the fetched side by its flag; a field without an
      identifier panics. */
  method SplitFields(name: string, fs: seq<Field>, flags: seq<bool>) returns (r: Result<SystemParamImpl>)
    requires |flags| == |fs|
    ensures r.Ok? <==> forall i :: 0 <= i < |fs| ==> fs[i].ident.Some?
    ensures r.Ok? ==>
      && r.value.structName == name
      && r.value.fieldIndices == PositionsWhere(flags, false)
      && Picks(fs, r.value.fieldIndices, r.value.fields, r.value.fieldTypes)
      && Picks(fs, PositionsWhere(flags, true), r.value.ignoredFields, r.value.ignoredFieldTypes)
  {
    var fields: seq<string> := [];
    var fieldIndices: seq<nat> := [];
    var fieldTypes: seq<Ty> := [];
    var ignoredFields: seq<string> := [];
    var ignoredFieldTypes: seq<Ty> := [];
    ghost var ignoredPositions: seq<nat> := [];
    for i := 0 to |fs|
      invariant forall j :: 0 <= j < i ==> fs[j].ident.Some?
      invariant fieldIndices == PositionsWhere(flags[..i], false)
      invariant ignoredPositions == PositionsWhere(flags[..i], true)
      invariant Picks(fs, fieldIndices, fields, fieldTypes)
      invariant Picks(fs, ignoredPositions, ignoredFields, ignoredFieldTypes)
    {
      PositionsStep(flags, i, false);
      PositionsStep(flags, i, true);
      if fs[i].ident.None? {
        return Err(MissingIdent);
      }
      var ident := fs[i].ident.value;
      if flags[i] {
        PicksSnoc(fs, ignoredPositions, ignoredFields, ignoredFieldTypes, i);
        ignoredFields := ignoredFields + [ident];
        ignoredFieldTypes := ignoredFieldTypes + [fs[i].ty];
        ignoredPositions := ignoredPositions + [i];
      } else {
        PicksSnoc(fs, fieldIndices, fields, fieldTypes, i);
        fields := fields + [ident];
        fieldTypes := fieldTypes + [fs[i].ty];
        fieldIndices := fieldIndices + [i];
      }
    }
    assert flags[..|fs|] == flags;
    r := Ok(SystemParamImpl(name, fields, fieldTypes, fieldIndices, ignoredFields, ignoredFieldTypes));
  }

  // ---- The generated get_param ----

  /** One element of the `Fetch` state tuple: the state of a parameter of type `ty`. */
  datatype State = State(ty: Ty, payload: int)

  /** A field of the struct `get_param` builds. */
  datatype Val = Fetched(state: State) | Defaulted(ty: Ty)

  predicate WellFormedImpl(impl: SystemParamImpl)
  {
    |impl.fields| == |impl.fieldTypes| == |impl.fieldIndices| && |impl.ignoredFields| == |impl.ignoredFieldTypes|
  }

  /** The `Fetch` tuple is typed by the fetched fields' types, in order. */
  predicate StateTupleFor(impl: SystemParamImpl, states: seq<State>)
  {
    |states| == |impl.fieldTypes| && forall j :: 0 <= j < |states| ==> states[j].ty == impl.fieldTypes[j]
  }

  /** The generated struct literal: fetched fields read `state.state.{idx}`,
      ignored fields get `Default::default()`. An index past the tuple, or a
      state of the wrong type, does not compile. */
  function GetParam(impl: SystemParamImpl, states: seq<State>): Result<seq<(string, Val)>>
    requires WellFormedImpl(impl)
  {
    if exists k :: 0 <= k < |impl.fieldIndices| &&
         (impl.fieldIndices[k] >= |states| || states[impl.fieldIndices[k]].ty != impl.fieldTypes[k])
    then Err(NoSuchTupleField)
    else Ok(seq(|impl.fields|, k requires 0 <= k < |impl.fields| =>
              (impl.fields[k], Fetched(states[impl.fieldIndices[k]])))
          + seq(|impl.ignoredFields|, k requires 0 <= k < |impl.ignoredFields| =>
              (impl.ignoredFields[k], Defaulted(impl.ignoredFieldTypes[k]))))
  }

  /** Every ignored field comes after every fetched field. */
  predicate IgnoredLast(flags: seq<bool>)
  {
    forall i, j :: 0 <= i < j < |flags| && flags[i] ==> flags[j]
  }

  /** Entry `k` of the list is `k`: the list is 0, 1, 2, ... */
  predicate CountsUp(p: seq<nat>)
  {
    forall k :: 0 <= k < |p| ==> p[k] == k
  }

  /** With no field ignored every position is fetched. */
  lemma {:induction false} NoneIgnored(flags: seq<bool>)
    requires forall i :: 0 <= i < |flags| ==> !flags[i]
    ensures |PositionsWhere(flags, false)| == |flags| && CountsUp(PositionsWhere(flags, false))
  {
    if flags != [] {
      NoneIgnored(flags[..|flags| - 1]);
    }
  }

  /** `field_indices` equal the positions among fetched fields exactly when no
      ignored field precedes a fetched one. */
  lemma {:induction false} FetchedPositionsAligned(flags: seq<bool>)
    ensures CountsUp(PositionsWhere(flags, false)) <==> IgnoredLast(flags)
  {
    if IgnoredLast(flags) {
      IgnoredLastCountsUp(flags);
    } else {
      MisplacedIgnoredBreaksCount(flags);
    }
  }

  lemma {:induction false} IgnoredLastCountsUp(flags: seq<bool>)
    requires IgnoredLast(flags)
    ensures CountsUp(PositionsWhere(flags, false))
  {
    if flags != [] {
      var n := |flags| - 1;
      if flags[n] {
        IgnoredLastCountsUp(flags[..n]);
      } else {
        NoneIgnored(flags);
      }
    }
  }

  lemma MisplacedIgnoredBreaksCount(flags: seq<bool>)
    requires !IgnoredLast(flags)
    ensures !CountsUp(PositionsWhere(flags, false))
  {
    var p := PositionsWhere(flags, false);
    PositionsWhereSpec(flags, false);
    var i, j :| 0 <= i < j < |flags| && flags[i] && !flags[j];
    assert j in p;
    var l :| 0 <= l < |p| && p[l] == j;
    if p[l] == l {
      assert flags[p[i]] != flags[i];
      assert p[i] != i;
    }
  }

  predicate Increasing(p: seq<nat>)
  {
    forall m, l :: 0 <= m < l < |p| ==> p[m] < p[l]
  }

  /** In a strictly increasing list entries grow by at least one per step. */
  lemma {:induction false} IncreasingGap(p: seq<nat>, k: nat, l: nat)
    requires Increasing(p) && k <= l < |p|
    ensures p[l] >= p[k] + (l - k)
    decreases l
  {
    if k < l {
      IncreasingGap(p, k, l - 1);
    }
  }

  /** A strictly increasing list that does not count up from 0 ends past its
      own length. */
  lemma LastPastLength(p: seq<nat>)
    requires Increasing(p) && !CountsUp(p)
    ensures |p| > 0 && p[|p| - 1] >= |p|
  {
    var k :| 0 <= k < |p| && p[k] != k;
    IncreasingGap(p, 0, k);
    IncreasingGap(p, k, |p| - 1);
  }

  /** When an ignored field precedes a fetched one, the last `field_indices`
      entry is past the end of the `Fetch` tuple, which has one element per
      fetched field. */
  lemma LastIndexOutOfRange(flags: seq<bool>)
    requires !IgnoredLast(flags)
    ensures var p := PositionsWhere(flags, false); |p| > 0 && p[|p| - 1] >= |p|
  {
    PositionsWhereSpec(flags, false);
    MisplacedIgnoredBreaksCount(flags);
    LastPastLength(PositionsWhere(flags, false));
  }

  // ---- What get_param builds ----

  /** The struct `get_param` should build: fetched field `k` holds the `k`-th
      state of the tuple, ignored fields their type's default, in the order the
      struct literal lists them. */
  predicate BindsInOrder(impl: SystemParamImpl, states: seq<State>, out: seq<(string, Val)>)
    requires WellFormedImpl(impl)
  {
    && |out| == |impl.fields| + |impl.ignoredFields|
    && |states| == |impl.fields|
    && (forall k :: 0 <= k < |impl.fields| ==> out[k] == (impl.fields[k], Fetched(states[k])))
    && (forall k :: 0 <= k < |impl.ignoredFields| ==>
          out[|impl.fields| + k] == (impl.ignoredFields[k], Defaulted(impl.ignoredFieldTypes[k])))
  }

  /** The impl `DeriveSystemParam` produces for the flags `flags`, as far as
      `get_param` sees it. */
  predicate DerivedFrom(impl: SystemParamImpl, flags: seq<bool>)
  {
    && WellFormedImpl(impl)
    && impl.fieldIndices == PositionsWhere(flags, false)
    && |impl.ignoredFields| == |PositionsWhere(flags, true)|
  }

  /** As written: with ignored fields last, `get_param` binds every fetched
      field to its own state. */
  lemma AsWrittenBindsWhenIgnoredLast(impl: SystemParamImpl, flags: seq<bool>, states: seq<State>)
    requires DerivedFrom(impl, flags) && IgnoredLast(flags) && StateTupleFor(impl, states)
    ensures GetParam(impl, states).Ok? && BindsInOrder(impl, states, GetParam(impl, states).value)
  {
    FetchedPositionsAligned(flags);
  }

  /** As written: once an ignored field precedes a fetched one, the generated
      `get_param` reads past the end of the state tuple, so it never compiles. */
  lemma AsWrittenRejectsIgnoredFirst(impl: SystemParamImpl, flags: seq<bool>, states: seq<State>)
    requires DerivedFrom(impl, flags) && !IgnoredLast(flags) && StateTupleFor(impl, states)
    ensures GetParam(impl, states).Err?
  {
    LastIndexOutOfRange(flags);
    var n := |impl.fieldIndices| - 1;
    assert impl.fieldIndices[n] >= |states|;
  }

  /** The smallest input that shows it: `struct S { #[system_param(ignore)] a: A, b: B }`
      fetches `b` as element 1 of a one-element tuple. */
  lemma IgnoredFirstCounterexample()
    ensures PositionsWhere([true, false], false) == [1]
    ensures var impl := SystemParamImpl("S", ["b"], [Ty("B")], [1], ["a"], [Ty("A")]);
      && DerivedFrom(impl, [true, false])
      && StateTupleFor(impl, [State(Ty("B"), 0)])
      && GetParam(impl, [State(Ty("B"), 0)]) == Err(NoSuchTupleField)
  {
    assert [true, false][..1] == [true];
    assert [true][..0] == [];
    var impl := SystemParamImpl("S", ["b"], [Ty("B")], [1], ["a"], [Ty("A")]);
    assert impl.fieldIndices[0] >= |[State(Ty("B"), 0)]|;
  }

  /** Corrected: `field_indices` record a fetched field's position among the
      fetched fields, which is where its state sits in the tuple. */
  function Corrected(impl: SystemParamImpl): (c: SystemParamImpl)
    requires WellFormedImpl(impl)
    ensures WellFormedImpl(c) && CountsUp(c.fieldIndices)
  {
    impl.(fieldIndices := seq(|impl.fields|, k requires 0 <= k < |impl.fields| => k))
  }

  /** Corrected: whatever the order of ignored and fetched fields, `get_param`
      binds every fetched field to its own state and defaults every ignored one. */
  lemma CorrectedBindsFields(impl: SystemParamImpl, states: seq<State>)
    requires WellFormedImpl(impl) && StateTupleFor(impl, states)
    ensures GetParam(Corrected(impl), states).Ok?
    ensures BindsInOrder(impl, states, GetParam(Corrected(impl), states).value)
  {
  }

  /** Corrected: the fix changes nothing where the code as written works. */
  lemma CorrectedAgreesWhenIgnoredLast(impl: SystemParamImpl, flags: seq<bool>)
    requires DerivedFrom(impl, flags) && IgnoredLast(flags)
    ensures Corrected(impl) == impl
  {
    FetchedPositionsAligned(flags);
    assert Corrected(impl).fieldIndices == impl.fieldIndices;
  }
}
