/** `impl_param_set!`: generates `ParamSet` impls for 1 to 8 parameters. The
    generated `init` checks every parameter on its own and then adds each
    parameter's standalone access to the system's access; accessor `p{i}`
    fetches parameter `i`. */
module ParamSet {
  import opened Wrappers
  import opened Naming

  const MAX_PARAMS: nat := 8

  datatype Mode = Read | Write

  /** Component (or archetype-component) ids paired with the access mode. */
  type Access = set<(nat, Mode)>

  /** A parameter as its own `init` sees it: the component access it declares
      and the archetype-component access it records. */
  datatype ParamDecl = ParamDecl(componentAccess: Access, archetypeAccess: Access)

  /** The state a parameter's `init` returns. */
  datatype ParamState = ParamState(decl: ParamDecl)

  // ---- The generator ----

  /** `get_idents`: the identifiers `prefix0 .. prefix{count-1}`. */
  function GetIdents(prefix: string, count: nat): (ids: seq<string>)
    ensures |ids| == count
  {
    seq(count, i requires 0 <= i < count => Suffixed(prefix, i))
  }

  lemma GetIdentsDistinct(prefix: string, count: nat)
    ensures forall i, j :: 0 <= i < j < count ==> GetIdents(prefix, count)[i] != GetIdents(prefix, count)[j]
  {
    forall i, j | 0 <= i < j < count
      ensures GetIdents(prefix, count)[i] != GetIdents(prefix, count)[j]
    {
      SuffixedInjective(prefix, i, j);
    }
  }

  /** `pub fn p{i}(&mut self)`, reading `self.param_states.{index}` with the
      fetch of parameter type `param`. */
  datatype Accessor = Accessor(name: string, index: nat, param: string)

  /** One generated impl block: its parameter idents, their fetch idents, the
      meta locals of `init`, and the accessor functions. */
  datatype ParamSetImpl = ParamSetImpl(
    params: seq<string>,
    paramsFetch: seq<string>,
    metas: seq<string>,
    accessors: seq<Accessor>)

  /** The impl for `count` parameters: `P0..`, `PF0..`, `m0..` and the
      accessors `p0..p{count-1}`, accessor `j` reading slot `j` as `Pj`. */
  predicate ImplFor(impl: ParamSetImpl, count: nat)
  {
    && |impl.params| == count && |impl.paramsFetch| == count
    && |impl.metas| == count && |impl.accessors| == count
    && forall j :: 0 <= j < count ==>
      && impl.params[j] == Suffixed("P", j)
      && impl.paramsFetch[j] == Suffixed("PF", j)
      && impl.metas[j] == Suffixed("m", j)
      && impl.accessors[j] == Accessor(Suffixed("p", j), j, Suffixed("P", j))
  }

  method ImplParamSet() returns (tokens: seq<ParamSetImpl>)
    ensures |tokens| == MAX_PARAMS
    ensures forall c :: 0 <= c < MAX_PARAMS ==> ImplFor(tokens[c], c + 1)
  {
    var params := GetIdents("P", MAX_PARAMS);
    var paramsFetch := GetIdents("PF", MAX_PARAMS);
    var metas := GetIdents("m", MAX_PARAMS);
    var paramFnMuts: seq<Accessor> := [];
    for i := 0 to |params|
      invariant |paramFnMuts| == i
      invariant forall j :: 0 <= j < i ==> paramFnMuts[j] == Accessor(Suffixed("p", j), j, params[j])
    {
      paramFnMuts := paramFnMuts + [Accessor(Suffixed("p", i), i, params[i])];
    }
    tokens := [];
    for paramCount := 1 to MAX_PARAMS + 1
      invariant |tokens| == paramCount - 1
      invariant forall c :: 0 <= c < paramCount - 1 ==> ImplFor(tokens[c], c + 1)
    {
      tokens := tokens + [ParamSetImpl(params[..paramCount], paramsFetch[..paramCount],
                                       metas[..paramCount], paramFnMuts[..paramCount])];
    }
  }

  /** Name resolution of a method call on the ParamSet: the slot the accessor
      with that name reads, if the impl has one. */
  function AccessorIndex(accessors: seq<Accessor>, name: string): Option<nat>
  {
    if accessors == [] then None
    else if accessors[0].name == name then Some(accessors[0].index)
    else AccessorIndex(accessors[1..], name)
  }

  /** Calling `p{j}` on a ParamSet of `count` parameters fetches parameter `j`
      exactly when `j < count`; no other `p`-name resolves. */
  lemma {:induction false} AccessorSelects(impl: ParamSetImpl, count: nat, j: nat)
    requires ImplFor(impl, count)
    ensures AccessorIndex(impl.accessors, Suffixed("p", j)) == (if j < count then Some(j) else None)
  {
    AccessorSearch(impl.accessors, 0, count, j);
  }

  lemma {:induction false} AccessorSearch(accessors: seq<Accessor>, from: nat, count: nat, j: nat)
    requires from <= count && |accessors| == count - from
    requires forall i :: 0 <= i < |accessors| ==> accessors[i] == Accessor(Suffixed("p", from + i), from + i, Suffixed("P", from + i))
    ensures AccessorIndex(accessors, Suffixed("p", j)) == (if from <= j < count then Some(j) else None)
    decreases |accessors|
  {
    if accessors != [] {
      SuffixedInjective("p", from, j);
      AccessorSearch(accessors[1..], from + 1, count, j);
    }
  }

  // ---- The generated SystemParamState impl ----

  /** The part of `SystemMeta` the generated code touches. */
  class SystemMeta {
    var componentAccessSet: Access
    var archetypeComponentAccess: Access

    constructor (componentAccess: Access, archetypeAccess: Access)
      ensures componentAccessSet == componentAccess && archetypeComponentAccess == archetypeAccess
    {
      componentAccessSet := componentAccess;
      archetypeComponentAccess := archetypeAccess;
    }

    /** `system_meta.clone()`. */
    constructor Clone(other: SystemMeta)
      ensures componentAccessSet == other.componentAccessSet
      ensures archetypeComponentAccess == other.archetypeComponentAccess
    {
      componentAccessSet := other.componentAccessSet;
      archetypeComponentAccess := other.archetypeComponentAccess;
    }

    /** `component_access_set.clear()` and `archetype_component_access.clear()`. */
    method Clear()
      modifies this
      ensures componentAccessSet == {} && archetypeComponentAccess == {}
    {
      componentAccessSet := {};
      archetypeComponentAccess := {};
    }

    /** The two `extend` calls that merge another meta's access into this one. */
    method Extend(other: SystemMeta)
      requires other != this
      modifies this
      ensures componentAccessSet == old(componentAccessSet) + other.componentAccessSet
      ensures archetypeComponentAccess == old(archetypeComponentAccess) + other.archetypeComponentAccess
    {
      componentAccessSet := componentAccessSet + other.componentAccessSet;
      archetypeComponentAccess := archetypeComponentAccess + other.archetypeComponentAccess;
    }
  }

  const ConflictMessage := "parameter access conflicts with a previous system parameter"

  /** A single parameter's own `init`, whose code is not part of this model:
      it panics when its access conflicts with what the meta already holds,
      and otherwise adds its access to the meta. */
  method ParamInit(p: ParamDecl, meta: SystemMeta, conflicts: (Access, Access) -> bool) returns (r: Result<ParamState>)
    modifies meta
    ensures r.Ok? <==> !conflicts(old(meta.componentAccessSet), p.componentAccess)
    ensures r.Ok? ==> r.value == ParamState(p)
    ensures r.Ok? ==> meta.componentAccessSet == old(meta.componentAccessSet) + p.componentAccess
    ensures r.Ok? ==> meta.archetypeComponentAccess == old(meta.archetypeComponentAccess) + p.archetypeAccess
    ensures r.Err? ==> unchanged(meta)
  {
    if conflicts(meta.componentAccessSet, p.componentAccess) {
      return Err(ConflictMessage);
    }
    meta.componentAccessSet := meta.componentAccessSet + p.componentAccess;
    meta.archetypeComponentAccess := meta.archetypeComponentAccess + p.archetypeAccess;
    r := Ok(ParamState(p));
  }

  /** The checks `init` makes: every parameter alone in a cleared meta, and
      every parameter against the system's prior access. No parameter is
      checked against a sibling. */
  predicate InitAccepts(prior: Access, params: seq<ParamDecl>, conflicts: (Access, Access) -> bool)
  {
    forall i :: 0 <= i < |params| ==>
      !conflicts({}, params[i].componentAccess) && !conflicts(prior, params[i].componentAccess)
  }

  function UnionComponentAccess(params: seq<ParamDecl>): Access
  {
    if params == [] then {}
    else UnionComponentAccess(params[..|params| - 1]) + params[|params| - 1].componentAccess
  }

  function UnionArchetypeAccess(params: seq<ParamDecl>): Access
  {
    if params == [] then {}
    else UnionArchetypeAccess(params[..|params| - 1]) + params[|params| - 1].archetypeAccess
  }

  /** The access recorded by a ParamSet holds exactly what its parameters declare. */
  lemma {:induction false} UnionComponentAccessMembers(params: seq<ParamDecl>, x: (nat, Mode))
    ensures x in UnionComponentAccess(params) <==>
      exists i :: 0 <= i < |params| && x in params[i].componentAccess
  {
    if params != [] {
      var init := params[..|params| - 1];
      UnionComponentAccessMembers(init, x);
      if x in UnionComponentAccess(init) {
        var i :| 0 <= i < |init| && x in init[i].componentAccess;
        assert params[i] == init[i];
      }
      if exists i :: 0 <= i < |params| && x in params[i].componentAccess {
        var i :| 0 <= i < |params| && x in params[i].componentAccess;
        if i < |init| {
          assert params[i] == init[i];
        }
      }
    }
  }

  /** The generated `init` for a ParamSet of `|params|` parameters. */
  method ParamSetInit(params: seq<ParamDecl>, systemMeta: SystemMeta, conflicts: (Access, Access) -> bool)
    returns (r: Result<seq<ParamState>>)
    requires 1 <= |params| <= MAX_PARAMS
    modifies systemMeta
    ensures r.Ok? <==> InitAccepts(old(systemMeta.componentAccessSet), params, conflicts)
    ensures r.Ok? ==> r.value == seq(|params|, i requires 0 <= i < |params| => ParamState(params[i]))
    ensures r.Ok? ==> systemMeta.componentAccessSet == old(systemMeta.componentAccessSet) + UnionComponentAccess(params)
    ensures r.Ok? ==> systemMeta.archetypeComponentAccess == old(systemMeta.archetypeComponentAccess) + UnionArchetypeAccess(params)
    ensures r.Err? ==> unchanged(systemMeta)
  {
    var metas: seq<SystemMeta> := [];
    var states: seq<ParamState> := [];
    for i := 0 to |params|
      invariant |metas| == i && |states| == i
      invariant forall k :: 0 <= k < i ==> fresh(metas[k])
      invariant forall k :: 0 <= k < i ==>
        metas[k].componentAccessSet == params[k].componentAccess &&
        metas[k].archetypeComponentAccess == params[k].archetypeAccess
      invariant states == seq(i, k requires 0 <= k < i => ParamState(params[k]))
      invariant InitAccepts(old(systemMeta.componentAccessSet), params[..i], conflicts)
      invariant unchanged(systemMeta)
    {
      // Pretend to add the parameter to the system alone.
      var meta := new SystemMeta.Clone(systemMeta);
      meta.Clear();
      var standalone := ParamInit(params[i], meta, conflicts);
      if standalone.Err? {
        assert !InitAccepts(old(systemMeta.componentAccessSet), params, conflicts) by {
          assert conflicts({}, params[i].componentAccess);
        }
        return Err(standalone.message);
      }
      // Check it against the system's prior access, on a throw-away copy.
      var probe := new SystemMeta.Clone(systemMeta);
      var state := ParamInit(params[i], probe, conflicts);
      if state.Err? {
        return Err(state.message);
      }
      metas := metas + [meta];
      states := states + [state.value];
      assert params[..i + 1] == params[..i] + [params[i]];
    }
    assert params[..|params|] == params;
    ApplyAccess(metas, params, systemMeta);
    r := Ok(states);
  }

  /** The second half of `init`: once every parameter passed its checks, the
      access each recorded on its own copy is added to the system's. */
  method ApplyAccess(metas: seq<SystemMeta>, params: seq<ParamDecl>, systemMeta: SystemMeta)
    requires |metas| == |params|
    requires forall k :: 0 <= k < |metas| ==> metas[k] != systemMeta
    requires forall k :: 0 <= k < |metas| ==>
      metas[k].componentAccessSet == params[k].componentAccess &&
      metas[k].archetypeComponentAccess == params[k].archetypeAccess
    modifies systemMeta
    ensures systemMeta.componentAccessSet == old(systemMeta.componentAccessSet) + UnionComponentAccess(params)
    ensures systemMeta.archetypeComponentAccess == old(systemMeta.archetypeComponentAccess) + UnionArchetypeAccess(params)
  {
    for i := 0 to |metas|
      invariant systemMeta.componentAccessSet == old(systemMeta.componentAccessSet) + UnionComponentAccess(params[..i])
      invariant systemMeta.archetypeComponentAccess == old(systemMeta.archetypeComponentAccess) + UnionArchetypeAccess(params[..i])
    {
      systemMeta.Extend(metas[i]);
      assert params[..i + 1][..i] == params[..i];
    }
    assert params[..|params|] == params;
  }

  /** `new_archetype`: each parameter, in order, records the archetype-component
      access it needs for the new archetype; `newAccess` stands for the
      parameters' own `new_archetype`, whose code is not part of this model. */
  method ParamSetNewArchetype(states: seq<ParamState>, archetype: nat, systemMeta: SystemMeta,
                              newAccess: (ParamState, nat) -> Access)
    modifies systemMeta
    ensures systemMeta.componentAccessSet == old(systemMeta.componentAccessSet)
    ensures forall x :: x in systemMeta.archetypeComponentAccess <==>
      x in old(systemMeta.archetypeComponentAccess) ||
      exists i :: 0 <= i < |states| && x in newAccess(states[i], archetype)
  {
    for i := 0 to |states|
      invariant systemMeta.componentAccessSet == old(systemMeta.componentAccessSet)
      invariant forall x :: x in systemMeta.archetypeComponentAccess <==>
        x in old(systemMeta.archetypeComponentAccess) ||
        exists k :: 0 <= k < i && x in newAccess(states[k], archetype)
    {
      systemMeta.archetypeComponentAccess := systemMeta.archetypeComponentAccess + newAccess(states[i], archetype);
    }
  }

  /** A read/write conflict rule: the two sides share an id that at least one
      of them writes. */
  predicate RwConflicts(a: Access, b: Access)
  {
    exists e :: e in a && ((e.1 == Write && ((e.0, Read) in b || (e.0, Write) in b)) || (e.0, Write) in b)
  }

  /** Two parameters that each write the same component are accepted together
      in one ParamSet: `init` never checks siblings against each other. */
  lemma SiblingsNotChecked()
    ensures var w := ParamDecl({(0, Write)}, {});
      RwConflicts(w.componentAccess, w.componentAccess) &&
      InitAccepts({}, [w, w], RwConflicts)
  {
    var w := ParamDecl({(0, Write)}, {});
    assert (0, Write) in w.componentAccess;
    assert !RwConflicts({}, w.componentAccess);
  }
}
