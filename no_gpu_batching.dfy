/** `batch_and_prepare_binned_render_phase` and the per-item step of
    `batch_and_prepare_sorted_render_phase`, when instance data is built on the
    CPU: entities' instance data is pushed into one shared buffer and the
    resulting instance indices are recorded as batches or per-entity indices. */
module NoGpuBatching {
  import opened Wrappers
  import opened BatchSpec

  type BinKey = int
  type CompareData = int

  /** `BatchedInstanceBuffer`: the instance data pushed so far. Where the
      `n`-th element lands (its index and dynamic offset) is decided by the
      underlying GPU array buffer; `placement` stands for that decision. */
  class BatchedInstanceBuffer {
    var values: seq<BufferData>
    const placement: nat -> BufferIndex

    constructor(placement: nat -> BufferIndex)
      ensures values == [] && this.placement == placement
    {
      values := [];
      this.placement := placement;
    }

    method Push(data: BufferData) returns (bi: BufferIndex)
      modifies this
      ensures values == old(values) + [data]
      ensures bi == placement(|old(values)|)
    {
      bi := placement(|values|);
      values := values + [data];
    }
  }

  /** An unbatchable bin: its entities and the instance of each one that had data. */
  datatype UnbatchableBin = UnbatchableBin(entities: seq<Entity>, bufferIndices: seq<BufferIndex>)

  datatype PhaseState = PhaseState(
    batchableKeys: seq<BinKey>,
    batchableValues: map<BinKey, seq<Entity>>,
    unbatchableKeys: seq<BinKey>,
    unbatchableValues: map<BinKey, UnbatchableBin>,
    batchSets: seq<seq<Batch>>)

  /** Every key is in `m`. */
  predicate AllIn<V>(keys: seq<BinKey>, m: map<BinKey, V>)
  {
    PresentUpTo(keys, |keys|, m)
  }

  lemma AllInEach<V>(keys: seq<BinKey>, m: map<BinKey, V>)
    ensures AllIn(keys, m) <==> forall j :: 0 <= j < |keys| ==> keys[j] in m
  {
    PresentUpToAll(keys, |keys|, m);
  }

  /** One missing key is enough for the lookup to panic. */
  lemma MissingKey<V>(keys: seq<BinKey>, i: nat, m: map<BinKey, V>)
    requires i < |keys| && keys[i] !in m
    ensures !AllIn(keys, m)
  {
    AllInEach(keys, m);
  }

  predicate BatchableKeysPresent(s: PhaseState)
  {
    AllIn(s.batchableKeys, s.batchableValues)
  }

  predicate UnbatchableKeysPresent(s: PhaseState)
  {
    AllIn(s.unbatchableKeys, s.unbatchableValues)
  }

  /** Looking up a key that is not in its map panics. */
  predicate KeysPresent(s: PhaseState)
  {
    BatchableKeysPresent(s) && UnbatchableKeysPresent(s)
  }

  /** The bin stored under `key`; a missing key (where the source panics)
      reads as an empty bin. */
  function BinAt<V>(m: map<BinKey, seq<V>>, key: BinKey): seq<V>
  {
    if key in m then m[key] else []
  }

  /** The batch sets for the first `count` batchable keys, in key order, and
      everything pushed for them; each bin starts where the previous one left
      the buffer. */
  function BatchableSets(keys: seq<BinKey>, count: nat, values: map<BinKey, seq<Entity>>,
                         getData: Entity -> Option<BufferData>, placement: nat -> BufferIndex, n0: nat)
    : (r: (seq<seq<Batch>>, seq<BufferData>))
    requires count <= |keys|
    ensures |r.0| == count
  {
    if count == 0 then ([], [])
    else
      var prev := BatchableSets(keys, count - 1, values, getData, placement, n0);
      var f := Feed(BinAt(values, keys[count - 1]), getData, placement, n0 + |prev.1|);
      (prev.0 + [BinBatches(f)], prev.1 + f.data)
  }

  /** The unbatchable bins once the first `count` keys, in key order, have
      gained the instances of their entities that had data. */
  function UnbatchableBins(keys: seq<BinKey>, count: nat, values: map<BinKey, UnbatchableBin>,
                           getData: Entity -> Option<BufferData>, placement: nat -> BufferIndex, n0: nat)
    : (r: (map<BinKey, UnbatchableBin>, seq<BufferData>))
    requires count <= |keys|
    ensures r.0.Keys == values.Keys
  {
    if count == 0 then (values, [])
    else
      var prev := UnbatchableBins(keys, count - 1, values, getData, placement, n0);
      var key := keys[count - 1];
      if key !in prev.0 then prev
      else
        var bin := prev.0[key];
        var f := Feed(bin.entities, getData, placement, n0 + |prev.1|);
        (prev.0[key := bin.(bufferIndices := bin.bufferIndices + f.placed)], prev.1 + f.data)
  }

  /** Batch set `i` of the phase is the coalesced feed of key `i`'s bin,
      started where the bins of keys `0..i-1` (`before`) left the buffer. */
  lemma {:induction false} BatchableSetsAt(keys: seq<BinKey>, count: nat, values: map<BinKey, seq<Entity>>,
                                           getData: Entity -> Option<BufferData>, placement: nat -> BufferIndex, n0: nat,
                                           i: nat, before: (seq<seq<Batch>>, seq<BufferData>), f: Fed)
    requires i < count <= |keys|
    requires before == BatchableSets(keys, i, values, getData, placement, n0)
    requires f == Feed(BinAt(values, keys[i]), getData, placement, n0 + |before.1|)
    ensures BatchableSets(keys, count, values, getData, placement, n0).0[i] == BinBatches(f)
  {
    if i < count - 1 {
      BatchableSetsAt(keys, count - 1, values, getData, placement, n0, i, before, f);
      BatchableSetsKeep(keys, count, values, getData, placement, n0, i);
    } else {
      BatchableSetsLast(keys, count, values, getData, placement, n0, before, f);
    }
  }

  /** A later key leaves batch set `i` as it was. */
  lemma BatchableSetsKeep(keys: seq<BinKey>, count: nat, values: map<BinKey, seq<Entity>>,
                          getData: Entity -> Option<BufferData>, placement: nat -> BufferIndex, n0: nat, i: nat)
    requires i + 1 < count <= |keys|
    ensures BatchableSets(keys, count, values, getData, placement, n0).0[i] ==
            BatchableSets(keys, count - 1, values, getData, placement, n0).0[i]
  {
    var prev := BatchableSets(keys, count - 1, values, getData, placement, n0);
    var g := Feed(BinAt(values, keys[count - 1]), getData, placement, n0 + |prev.1|);
    BatchableSetsUnfold(keys, count, values, getData, placement, n0, prev, g);
    assert (prev.0 + [BinBatches(g)])[i] == prev.0[i];
  }

  /** The last key's batch set is its bin's coalesced feed. */
  lemma BatchableSetsLast(keys: seq<BinKey>, count: nat, values: map<BinKey, seq<Entity>>,
                          getData: Entity -> Option<BufferData>, placement: nat -> BufferIndex, n0: nat,
                          before: (seq<seq<Batch>>, seq<BufferData>), f: Fed)
    requires 0 < count <= |keys|
    requires before == BatchableSets(keys, count - 1, values, getData, placement, n0)
    requires f == Feed(BinAt(values, keys[count - 1]), getData, placement, n0 + |before.1|)
    ensures BatchableSets(keys, count, values, getData, placement, n0).0[count - 1] == BinBatches(f)
  {
    BatchableSetsUnfold(keys, count, values, getData, placement, n0, before, f);
  }

  /** One step of `BatchableSets`, with the previous sets and the last feed named. */
  lemma BatchableSetsUnfold(keys: seq<BinKey>, count: nat, values: map<BinKey, seq<Entity>>,
                            getData: Entity -> Option<BufferData>, placement: nat -> BufferIndex, n0: nat,
                            prev: (seq<seq<Batch>>, seq<BufferData>), f: Fed)
    requires 0 < count <= |keys|
    requires prev == BatchableSets(keys, count - 1, values, getData, placement, n0)
    requires f == Feed(BinAt(values, keys[count - 1]), getData, placement, n0 + |prev.1|)
    ensures BatchableSets(keys, count, values, getData, placement, n0).0 == prev.0 + [BinBatches(f)]
  {
  }

  /** The batch set of a bin (the one `BatchableSetsAt` finds at the bin's
      key): it draws exactly the bin's pushed instances, in push order, and the
      pushed entities are the bin's entities with data; its batches are
      non-empty, no two neighbours could have been one, and each is
      represented by the entity that opened it. */
  lemma BinBatchesShape(es: seq<Entity>, getData: Entity -> Option<BufferData>, placement: nat -> BufferIndex, m: nat,
                        f: Fed, bs: seq<Batch>)
    requires f == Feed(es, getData, placement, m) && bs == BinBatches(f)
    ensures f.entities == WithData(es, getData)
    ensures Flatten(bs) == f.placed && NonEmptyRanges(bs) && Maximal(bs)
    ensures RepresentedByOpener(bs, f.entities)
  {
    FeedEntities(es, getData, placement, m);
    CoalesceAllCovers(f.entities, f.placed);
    CoalesceAllMaximal(f.entities, f.placed);
    CoalesceAllRepresentatives(f.entities, f.placed);
  }

  /** An unbatchable bin gains one instance per entity with data, the `k`-th
      at the buffer's `m + k`-th placement. */
  lemma UnbatchableGain(bin: UnbatchableBin, getData: Entity -> Option<BufferData>, placement: nat -> BufferIndex, m: nat)
    ensures var f := Feed(bin.entities, getData, placement, m);
      && |f.placed| == |WithData(bin.entities, getData)|
      && forall k :: 0 <= k < |f.placed| ==> f.placed[k] == placement(m + k)
  {
    FeedSpec(bin.entities, getData, placement, m);
  }

  /** One phase: batchable bins first, then unbatchable ones. */
  function PreparePhase(s: PhaseState, getData: Entity -> Option<BufferData>, placement: nat -> BufferIndex, n0: nat)
    : (r: (PhaseState, seq<BufferData>))
  {
    var b := BatchableSets(s.batchableKeys, |s.batchableKeys|, s.batchableValues, getData, placement, n0);
    var u := UnbatchableBins(s.unbatchableKeys, |s.unbatchableKeys|, s.unbatchableValues, getData, placement, n0 + |b.1|);
    (s.(batchSets := s.batchSets + b.0, unbatchableValues := u.0), b.1 + u.1)
  }

  /** The first `count` views' phases in turn, all sharing one buffer. */
  function PrepareViews(states: seq<PhaseState>, count: nat, getData: Entity -> Option<BufferData>,
                        placement: nat -> BufferIndex, n0: nat)
    : (r: (seq<PhaseState>, seq<BufferData>))
    requires count <= |states|
    ensures |r.0| == count
  {
    if count == 0 then ([], [])
    else
      var prev := PrepareViews(states, count - 1, getData, placement, n0);
      var p := PreparePhase(states[count - 1], getData, placement, n0 + |prev.1|);
      (prev.0 + [p.0], prev.1 + p.1)
  }

  lemma BatchableSetsNext(keys: seq<BinKey>, i: nat, bins: map<BinKey, seq<Entity>>,
                          getData: Entity -> Option<BufferData>, placement: nat -> BufferIndex, n0: nat,
                          prev: (seq<seq<Batch>>, seq<BufferData>), m: nat, f: Fed)
    requires i < |keys| && keys[i] in bins
    requires prev == BatchableSets(keys, i, bins, getData, placement, n0)
    requires m == n0 + |prev.1| && f == Feed(bins[keys[i]], getData, placement, m)
    ensures BatchableSets(keys, i + 1, bins, getData, placement, n0) == (prev.0 + [BinBatches(f)], prev.1 + f.data)
  {
    assert BinAt(bins, keys[i]) == bins[keys[i]];
  }

  /** The batchable loop's step, on the buffer contents before and after one
      bin whose pushes are `f`. */
  lemma BatchableStep(keys: seq<BinKey>, i: nat, bins: map<BinKey, seq<Entity>>,
                      getData: Entity -> Option<BufferData>, placement: nat -> BufferIndex,
                      values0: seq<BufferData>, valuesBefore: seq<BufferData>, valuesAfter: seq<BufferData>, f: Fed, batchSet: seq<Batch>)
    requires i < |keys| && keys[i] in bins
    requires valuesBefore == values0 + BatchableSets(keys, i, bins, getData, placement, |values0|).1
    requires f == Feed(bins[keys[i]], getData, placement, |valuesBefore|)
    requires batchSet == BinBatches(f) && valuesAfter == valuesBefore + f.data
    ensures BatchableSets(keys, i + 1, bins, getData, placement, |values0|).0 ==
      BatchableSets(keys, i, bins, getData, placement, |values0|).0 + [batchSet]
    ensures valuesAfter == values0 + BatchableSets(keys, i + 1, bins, getData, placement, |values0|).1
  {
    var prev := BatchableSets(keys, i, bins, getData, placement, |values0|);
    BatchableSetsNext(keys, i, bins, getData, placement, |values0|, prev, |valuesBefore|, f);
    Glue(values0, prev.1, f.data, valuesBefore, valuesAfter, prev.1 + f.data);
  }

  lemma UnbatchableBinsNext(keys: seq<BinKey>, i: nat, bins0: map<BinKey, UnbatchableBin>,
                            getData: Entity -> Option<BufferData>, placement: nat -> BufferIndex, n0: nat,
                            prev: (map<BinKey, UnbatchableBin>, seq<BufferData>), m: nat, bin: UnbatchableBin, f: Fed)
    requires i < |keys|
    requires prev == UnbatchableBins(keys, i, bins0, getData, placement, n0)
    requires keys[i] in prev.0 && bin == prev.0[keys[i]]
    requires m == n0 + |prev.1| && f == Feed(bin.entities, getData, placement, m)
    ensures UnbatchableBins(keys, i + 1, bins0, getData, placement, n0) ==
      (prev.0[keys[i] := bin.(bufferIndices := bin.bufferIndices + f.placed)], prev.1 + f.data)
  {
  }

  /** The unbatchable loop's step, on the bins and buffer contents before and
      after key `i`, whose bin `bin` gained the pushes `f`. */
  lemma UnbatchableStep(keys: seq<BinKey>, i: nat, bins0: map<BinKey, UnbatchableBin>,
                        getData: Entity -> Option<BufferData>, placement: nat -> BufferIndex,
                        values0: seq<BufferData>, binsBefore: map<BinKey, UnbatchableBin>, valuesBefore: seq<BufferData>,
                        bin: UnbatchableBin, f: Fed, binsAfter: map<BinKey, UnbatchableBin>, valuesAfter: seq<BufferData>)
    requires i < |keys|
    requires binsBefore == UnbatchableBins(keys, i, bins0, getData, placement, |values0|).0
    requires valuesBefore == values0 + UnbatchableBins(keys, i, bins0, getData, placement, |values0|).1
    requires keys[i] in binsBefore && bin == binsBefore[keys[i]]
    requires f == Feed(bin.entities, getData, placement, |valuesBefore|)
    requires binsAfter == binsBefore[keys[i] := bin.(bufferIndices := bin.bufferIndices + f.placed)]
    requires valuesAfter == valuesBefore + f.data
    ensures binsAfter == UnbatchableBins(keys, i + 1, bins0, getData, placement, |values0|).0
    ensures valuesAfter == values0 + UnbatchableBins(keys, i + 1, bins0, getData, placement, |values0|).1
  {
    var prev := UnbatchableBins(keys, i, bins0, getData, placement, |values0|);
    UnbatchableBinsNext(keys, i, bins0, getData, placement, |values0|, prev, |valuesBefore|, bin, f);
    Glue(values0, prev.1, f.data, valuesBefore, valuesAfter, prev.1 + f.data);
  }

  /** The batchable pass followed by the unbatchable pass is `PreparePhase`. */
  lemma PhaseComposes(s0: PhaseState, n: nat, b: (seq<seq<Batch>>, seq<BufferData>), u: (map<BinKey, UnbatchableBin>, seq<BufferData>),
                      getData: Entity -> Option<BufferData>, placement: nat -> BufferIndex)
    requires b == BatchableSets(s0.batchableKeys, |s0.batchableKeys|, s0.batchableValues, getData, placement, n)
    requires u == UnbatchableBins(s0.unbatchableKeys, |s0.unbatchableKeys|, s0.unbatchableValues, getData, placement, n + |b.1|)
    ensures PreparePhase(s0, getData, placement, n) == (s0.(batchSets := s0.batchSets + b.0, unbatchableValues := u.0), b.1 + u.1)
  {
  }

  lemma PrepareViewsNext(states: seq<PhaseState>, i: nat, getData: Entity -> Option<BufferData>,
                         placement: nat -> BufferIndex, n0: nat,
                         prev: (seq<PhaseState>, seq<BufferData>), m: nat, q: (PhaseState, seq<BufferData>))
    requires i < |states|
    requires prev == PrepareViews(states, i, getData, placement, n0)
    requires m == n0 + |prev.1| && q == PreparePhase(states[i], getData, placement, m)
    ensures PrepareViews(states, i + 1, getData, placement, n0) == (prev.0 + [q.0], prev.1 + q.1)
  {
  }

  /** One more view prepared: the buffer and the prepared states advance by
      the next view's share of `PrepareViews`. */
  lemma ViewAdvances(states: seq<PhaseState>, i: nat, after: PhaseState,
                     values0: seq<BufferData>, valuesBefore: seq<BufferData>, valuesAfter: seq<BufferData>,
                     getData: Entity -> Option<BufferData>, placement: nat -> BufferIndex)
    requires i < |states|
    requires valuesBefore == values0 + PrepareViews(states, i, getData, placement, |values0|).1
    requires var q := PreparePhase(states[i], getData, placement, |valuesBefore|);
      after == q.0 && valuesAfter == valuesBefore + q.1
    ensures var r := PrepareViews(states, i + 1, getData, placement, |values0|);
      r.0 == PrepareViews(states, i, getData, placement, |values0|).0 + [after] && valuesAfter == values0 + r.1
  {
    var prev := PrepareViews(states, i, getData, placement, |values0|);
    var q := PreparePhase(states[i], getData, placement, |valuesBefore|);
    PrepareViewsNext(states, i, getData, placement, |values0|, prev, |valuesBefore|, q);
    Glue(values0, prev.1, q.1, valuesBefore, valuesAfter, prev.1 + q.1);
  }

  lemma Glue<T>(s0: seq<T>, a: seq<T>, b: seq<T>, s1: seq<T>, s2: seq<T>, ab: seq<T>)
    requires s1 == s0 + a && s2 == s1 + b && ab == a + b
    ensures s2 == s0 + ab
  {
    AppendAssoc(s0, a, b);
  }

  lemma UpdateAt<T>(s: seq<T>, i: nat, x: T, prefix: seq<T>, rest: seq<T>)
    requires i < |s| == |rest| && s[..i] == prefix && s[i..] == rest[i..]
    ensures s[i := x][..i + 1] == prefix + [x]
    ensures s[i := x][i + 1..] == rest[i + 1..]
  {
    assert s[i := x][i + 1..] == s[i + 1..] == s[i..][1..];
  }

  /** The first `count` keys are all in `m`. */
  predicate PresentUpTo<V>(keys: seq<BinKey>, count: nat, m: map<BinKey, V>)
    requires count <= |keys|
  {
    count == 0 || (PresentUpTo(keys, count - 1, m) && keys[count - 1] in m)
  }

  lemma {:induction false} PresentUpToAll<V>(keys: seq<BinKey>, count: nat, m: map<BinKey, V>)
    requires count <= |keys|
    ensures PresentUpTo(keys, count, m) <==> forall j :: 0 <= j < count ==> keys[j] in m
  {
    if count > 0 {
      PresentUpToAll(keys, count - 1, m);
    }
  }

  lemma AppendAssoc<T>(a: seq<T>, b: seq<T>, c: seq<T>)
    ensures a + (b + c) == (a + b) + c
  {
  }

  /** Adding one more instance to a bin that already gained `placed`. */
  lemma GainInstance(before: map<BinKey, UnbatchableBin>, key: BinKey, bin: UnbatchableBin, placed: seq<BufferIndex>,
                     instance: BufferIndex, cur: map<BinKey, UnbatchableBin>)
    requires cur == before[key := bin.(bufferIndices := bin.bufferIndices + placed)]
    ensures cur[key := cur[key].(bufferIndices := cur[key].bufferIndices + [instance])] ==
      before[key := bin.(bufferIndices := bin.bufferIndices + (placed + [instance]))]
  {
    AppendAssoc(bin.bufferIndices, placed, [instance]);
  }

  /** `BinnedRenderPhase`: the bins of one view and the batch sets built for it. */
  class BinnedRenderPhase {
    var batchableKeys: seq<BinKey>
    var batchableValues: map<BinKey, seq<Entity>>
    var unbatchableKeys: seq<BinKey>
    var unbatchableValues: map<BinKey, UnbatchableBin>
    var batchSets: seq<seq<Batch>>

    constructor(batchableKeys: seq<BinKey>, batchableValues: map<BinKey, seq<Entity>>,
                unbatchableKeys: seq<BinKey>, unbatchableValues: map<BinKey, UnbatchableBin>)
      ensures State() == PhaseState(batchableKeys, batchableValues, unbatchableKeys, unbatchableValues, [])
    {
      this.batchableKeys := batchableKeys;
      this.batchableValues := batchableValues;
      this.unbatchableKeys := unbatchableKeys;
      this.unbatchableValues := unbatchableValues;
      batchSets := [];
    }

    function State(): PhaseState
      reads this
    {
      PhaseState(batchableKeys, batchableValues, unbatchableKeys, unbatchableValues, batchSets)
    }

    /** The batchable loop: one batch set per key, pushed even when empty. */
    method PrepareBatchables(buffer: BatchedInstanceBuffer, getData: Entity -> Option<BufferData>) returns (ok: bool)
      modifies this, buffer
      ensures ok <==> BatchableKeysPresent(old(State()))
      ensures ok ==>
        var r := BatchableSets(old(batchableKeys), |old(batchableKeys)|, old(batchableValues), getData, buffer.placement, old(|buffer.values|));
        && State() == old(State()).(batchSets := old(batchSets) + r.0)
        && buffer.values == old(buffer.values) + r.1
    {
      ghost var sets0 := batchSets;
      ghost var values0 := buffer.values;
      var keys := batchableKeys;
      var bins := batchableValues;
      for i := 0 to |keys|
        modifies this`batchSets, buffer
        invariant PresentUpTo(keys, i, bins)
        invariant batchSets == sets0 + BatchableSets(keys, i, bins, getData, buffer.placement, |values0|).0
        invariant buffer.values == values0 + BatchableSets(keys, i, bins, getData, buffer.placement, |values0|).1
      {
        if keys[i] !in bins {
          MissingKey(keys, i, bins);
          return false;
        }
        BatchNext(keys, bins, i, buffer, getData, sets0, values0);
      }
      ok := true;
    }

    /** The batchable loop's body for key `i`: batch its bin and append the
        batch set. */
    method BatchNext(keys: seq<BinKey>, bins: map<BinKey, seq<Entity>>, i: nat, buffer: BatchedInstanceBuffer,
                     getData: Entity -> Option<BufferData>, ghost sets0: seq<seq<Batch>>, ghost values0: seq<BufferData>)
      requires i < |keys| && keys[i] in bins && PresentUpTo(keys, i, bins)
      requires batchSets == sets0 + BatchableSets(keys, i, bins, getData, buffer.placement, |values0|).0
      requires buffer.values == values0 + BatchableSets(keys, i, bins, getData, buffer.placement, |values0|).1
      modifies this`batchSets, buffer
      ensures PresentUpTo(keys, i + 1, bins)
      ensures batchSets == sets0 + BatchableSets(keys, i + 1, bins, getData, buffer.placement, |values0|).0
      ensures buffer.values == values0 + BatchableSets(keys, i + 1, bins, getData, buffer.placement, |values0|).1
    {
      ghost var prev := BatchableSets(keys, i, bins, getData, buffer.placement, |values0|);
      ghost var valuesBefore := buffer.values;
      ghost var f := Feed(bins[keys[i]], getData, buffer.placement, |valuesBefore|);
      var batchSet := BatchBin(bins[keys[i]], buffer, getData);
      BatchableStep(keys, i, bins, getData, buffer.placement, values0, valuesBefore, buffer.values, f, batchSet);
      AppendAssoc(sets0, prev.0, [batchSet]);
      batchSets := batchSets + [batchSet];
    }

    /** The unbatchable loop: each entity with data adds its instance to its
        bin's buffer indices. */
    method PrepareUnbatchables(buffer: BatchedInstanceBuffer, getData: Entity -> Option<BufferData>) returns (ok: bool)
      modifies this, buffer
      ensures ok <==> UnbatchableKeysPresent(old(State()))
      ensures ok ==>
        var r := UnbatchableBins(old(unbatchableKeys), |old(unbatchableKeys)|, old(unbatchableValues), getData, buffer.placement, old(|buffer.values|));
        && State() == old(State()).(unbatchableValues := r.0)
        && buffer.values == old(buffer.values) + r.1
    {
      ghost var values0 := buffer.values;
      ghost var bins0 := unbatchableValues;
      var keys := unbatchableKeys;
      for i := 0 to |keys|
        modifies this`unbatchableValues, buffer
        invariant PresentUpTo(keys, i, bins0)
        invariant unbatchableValues == UnbatchableBins(keys, i, bins0, getData, buffer.placement, |values0|).0
        invariant buffer.values == values0 + UnbatchableBins(keys, i, bins0, getData, buffer.placement, |values0|).1
      {
        if keys[i] !in unbatchableValues {
          MissingKey(keys, i, bins0);
          return false;
        }
        AddNext(keys, bins0, i, buffer, getData, values0);
      }
      ok := true;
    }

    /** The unbatchable loop's body for key `i`. */
    method AddNext(keys: seq<BinKey>, ghost bins0: map<BinKey, UnbatchableBin>, i: nat, buffer: BatchedInstanceBuffer,
                   getData: Entity -> Option<BufferData>, ghost values0: seq<BufferData>)
      requires i < |keys|
      requires unbatchableValues == UnbatchableBins(keys, i, bins0, getData, buffer.placement, |values0|).0
      requires buffer.values == values0 + UnbatchableBins(keys, i, bins0, getData, buffer.placement, |values0|).1
      requires keys[i] in unbatchableValues && PresentUpTo(keys, i, bins0)
      modifies this`unbatchableValues, buffer
      ensures PresentUpTo(keys, i + 1, bins0)
      ensures unbatchableValues == UnbatchableBins(keys, i + 1, bins0, getData, buffer.placement, |values0|).0
      ensures buffer.values == values0 + UnbatchableBins(keys, i + 1, bins0, getData, buffer.placement, |values0|).1
    {
      ghost var binsBefore := unbatchableValues;
      ghost var valuesBefore := buffer.values;
      ghost var bin := unbatchableValues[keys[i]];
      ghost var f := Feed(bin.entities, getData, buffer.placement, |valuesBefore|);
      AddUnbatchableInstances(keys[i], buffer, getData);
      UnbatchableStep(keys, i, bins0, getData, buffer.placement, values0, binsBefore, valuesBefore, bin, f, unbatchableValues, buffer.values);
    }

    /** One unbatchable bin: every entity with data is pushed and its instance
        added to the bin. */
    method AddUnbatchableInstances(key: BinKey, buffer: BatchedInstanceBuffer, getData: Entity -> Option<BufferData>)
      requires key in unbatchableValues
      modifies this`unbatchableValues, buffer
      ensures var bin := old(unbatchableValues[key]);
        var f := Feed(bin.entities, getData, buffer.placement, old(|buffer.values|));
        && unbatchableValues == old(unbatchableValues)[key := bin.(bufferIndices := bin.bufferIndices + f.placed)]
        && buffer.values == old(buffer.values) + f.data
    {
      ghost var values0 := buffer.values;
      ghost var m := |buffer.values|;
      ghost var placement := buffer.placement;
      ghost var before := unbatchableValues;
      ghost var bin := unbatchableValues[key];
      ghost var fed := Fed([], [], []);
      var entities := unbatchableValues[key].entities;
      assert bin.(bufferIndices := bin.bufferIndices + fed.placed) == bin;
      assert before[key := bin] == before;
      for j := 0 to |entities|
        modifies this`unbatchableValues, buffer
        invariant fed == Feed(entities[..j], getData, placement, m)
        invariant unbatchableValues == before[key := bin.(bufferIndices := bin.bufferIndices + fed.placed)]
        invariant buffer.values == values0 + fed.data
      {
        var bufferData := getData(entities[j]);
        if bufferData.None? {
          FeedSkip(entities, j, getData, placement, m);
          continue;
        }
        FeedPush(entities, j, getData, placement, m, fed);
        assert |buffer.values| == m + |fed.data|;
        var instance := buffer.Push(bufferData.value);
        assert instance == placement(m + |fed.data|);
        AppendAssoc(values0, fed.data, [bufferData.value]);
        var current := unbatchableValues[key];
        GainInstance(before, key, bin, fed.placed, instance, unbatchableValues);
        unbatchableValues := unbatchableValues[key := current.(bufferIndices := current.bufferIndices + [instance])];
        fed := Fed(fed.entities + [entities[j]], fed.data + [bufferData.value], fed.placed + [instance]);
      }
      assert entities[..|entities|] == entities;
    }

    /** One view's phase; `false` where the source panics on a missing bin. */
    method Prepare(buffer: BatchedInstanceBuffer, getData: Entity -> Option<BufferData>) returns (ok: bool)
      modifies this, buffer
      ensures ok <==> KeysPresent(old(State()))
      ensures ok ==>
        var r := PreparePhase(old(State()), getData, buffer.placement, old(|buffer.values|));
        State() == r.0 && buffer.values == old(buffer.values) + r.1
    {
      ghost var s0, v0 := State(), buffer.values;
      ghost var placement := buffer.placement;
      ok := PrepareBatchables(buffer, getData);
      if !ok {
        return;
      }
      ghost var b := BatchableSets(s0.batchableKeys, |s0.batchableKeys|, s0.batchableValues, getData, placement, |v0|);
      ghost var s1, v1 := State(), buffer.values;
      assert s1 == s0.(batchSets := s0.batchSets + b.0) && v1 == v0 + b.1;
      assert |v1| == |v0| + |b.1|;
      ok := PrepareUnbatchables(buffer, getData);
      if ok {
        ghost var u := UnbatchableBins(s0.unbatchableKeys, |s0.unbatchableKeys|, s0.unbatchableValues, getData, placement, |v1|);
        assert State() == s1.(unbatchableValues := u.0) && buffer.values == v1 + u.1;
        PhaseComposes(s0, |v0|, b, u, getData, placement);
        AppendAssoc(v0, b.1, u.1);
      }
    }
  }

  /** Batch one bin: push each entity's data in turn, then extend the
      last batch or open a new one. */
  method BatchBin(entities: seq<Entity>, buffer: BatchedInstanceBuffer, getData: Entity -> Option<BufferData>)
    returns (batchSet: seq<Batch>)
    modifies buffer
    ensures var f := Feed(entities, getData, buffer.placement, old(|buffer.values|));
      batchSet == BinBatches(f) && buffer.values == old(buffer.values) + f.data
  {
    ghost var values0 := buffer.values;
    ghost var n0 := |buffer.values|;
    ghost var placement := buffer.placement;
    ghost var fed := Fed([], [], []);
    batchSet := [];
    for j := 0 to |entities|
      invariant fed == Feed(entities[..j], getData, placement, n0)
      invariant batchSet == CoalesceAll(fed.entities, fed.placed)
      invariant buffer.values == values0 + fed.data
    {
      var entity := entities[j];
      var bufferData := getData(entity);
      if bufferData.None? {
        FeedSkip(entities, j, getData, placement, n0);
        continue;
      }
      assert |buffer.values| == n0 + |fed.data|;
      var instance := buffer.Push(bufferData.value);
      assert instance == placement(n0 + |fed.data|);
      AppendAssoc(values0, fed.data, [bufferData.value]);
      BinStepPush(entities, j, getData, placement, n0, fed, batchSet, instance);
      batchSet := AddInstance(batchSet, entity, instance);
      fed := Fed(fed.entities + [entity], fed.data + [bufferData.value], fed.placed + [instance]);
    }
    assert entities[..|entities|] == entities;
  }

  lemma BinStepPush(es: seq<Entity>, j: nat, getData: Entity -> Option<BufferData>, placement: nat -> BufferIndex, n0: nat,
                    fed: Fed, batchSet: seq<Batch>, instance: BufferIndex)
    requires j < |es| && getData(es[j]).Some?
    requires fed == Feed(es[..j], getData, placement, n0)
    requires batchSet == CoalesceAll(fed.entities, fed.placed)
    requires instance == placement(n0 + |fed.data|)
    ensures var fed' := Fed(fed.entities + [es[j]], fed.data + [getData(es[j]).value], fed.placed + [instance]);
      fed' == Feed(es[..j + 1], getData, placement, n0) && Coalesce(batchSet, es[j], instance) == CoalesceAll(fed'.entities, fed'.placed)
  {
    FeedPush(es, j, getData, placement, n0, fed);
    CoalesceAllSnoc(fed.entities, fed.placed, es[j], instance);
  }

  /** One pushed instance: flush when it cannot extend the last batch, then
      make the last batch end right after it. */
  method AddInstance(batchSet: seq<Batch>, entity: Entity, instance: BufferIndex) returns (r: seq<Batch>)
    ensures r == Coalesce(batchSet, entity, instance)
  {
    FlushThenExtend(batchSet, entity, instance);
    r := batchSet;
    // a dynamic offset change or a gap in the indices flushes the batch
    if !(|r| > 0 && r[|r| - 1].end == instance.index && r[|r| - 1].dynamicOffset == instance.dynamicOffset) {
      r := r + [Batch(entity, instance.index, instance.index, instance.dynamicOffset)];
    }
    if |r| > 0 {
      r := r[|r| - 1 := r[|r| - 1].(end := instance.index + 1)];
    }
  }

  function Flushed(bs: seq<Batch>, e: Entity, p: BufferIndex): seq<Batch>
  {
    if !(|bs| > 0 && bs[|bs| - 1].end == p.index && bs[|bs| - 1].dynamicOffset == p.dynamicOffset)
    then bs + [Batch(e, p.index, p.index, p.dynamicOffset)]
    else bs
  }

  /** Opening a batch `index..index` when the instance cannot extend the last
      one, then setting the last batch's end to `index + 1`, is `Coalesce`. */
  lemma FlushThenExtend(bs: seq<Batch>, e: Entity, p: BufferIndex)
    ensures |Flushed(bs, e, p)| > 0
    ensures var flushed := Flushed(bs, e, p);
      flushed[|flushed| - 1 := flushed[|flushed| - 1].(end := p.index + 1)] == Coalesce(bs, e, p)
  {
    if |bs| > 0 && Continues(bs[|bs| - 1], p) {
      assert bs[|bs| - 1 := bs[|bs| - 1].(end := p.index + 1)] == bs[..|bs| - 1] + [bs[|bs| - 1].(end := p.index + 1)];
    }
  }

  /** `batch_and_prepare_binned_render_phase`: every view's phase in turn.
      `oldStates` names the phases' states on entry. */
  method BatchAndPrepareBinnedRenderPhase(views: seq<BinnedRenderPhase>, buffer: BatchedInstanceBuffer,
                                          getData: Entity -> Option<BufferData>)
    returns (ok: bool, ghost oldStates: seq<PhaseState>)
    requires forall i, j :: 0 <= i < j < |views| ==> views[i] != views[j]
    modifies views, buffer
    ensures |oldStates| == |views| && forall i :: 0 <= i < |views| ==> oldStates[i] == old(views[i].State())
    ensures ok <==> forall i :: 0 <= i < |views| ==> KeysPresent(oldStates[i])
    ensures ok ==>
      var r := PrepareViews(oldStates, |oldStates|, getData, buffer.placement, old(|buffer.values|));
      && (forall i :: 0 <= i < |views| ==> views[i].State() == r.0[i])
      && buffer.values == old(buffer.values) + r.1
  {
    oldStates := seq(|views|, i requires 0 <= i < |views| reads views => views[i].State());
    ghost var n0 := |buffer.values|;
    ghost var placement := buffer.placement;
    ghost var values0 := buffer.values;
    ghost var cur := oldStates;
    for i := 0 to |views|
      invariant |cur| == |views|
      invariant forall j :: 0 <= j < |views| ==> views[j].State() == cur[j]
      invariant forall j :: 0 <= j < i ==> KeysPresent(oldStates[j])
      invariant cur[i..] == oldStates[i..]
      invariant var r := PrepareViews(oldStates, i, getData, placement, n0);
        cur[..i] == r.0 && buffer.values == values0 + r.1
    {
      ok, cur := PrepareNext(views, i, buffer, getData, oldStates, cur, values0);
      if !ok {
        return;
      }
    }
    ok := true;
  }

  /** Prepares view `i`, advancing the ghost mirror `cur` of all views' states. */
  method PrepareNext(views: seq<BinnedRenderPhase>, i: nat, buffer: BatchedInstanceBuffer,
                     getData: Entity -> Option<BufferData>, ghost oldStates: seq<PhaseState>,
                     ghost cur: seq<PhaseState>, ghost values0: seq<BufferData>)
    returns (ok: bool, ghost cur': seq<PhaseState>)
    requires forall i, j :: 0 <= i < j < |views| ==> views[i] != views[j]
    requires i < |views| == |cur| == |oldStates|
    requires forall j :: 0 <= j < |views| ==> views[j].State() == cur[j]
    requires cur[i..] == oldStates[i..]
    requires var r := PrepareViews(oldStates, i, getData, buffer.placement, |values0|);
      cur[..i] == r.0 && buffer.values == values0 + r.1
    modifies views[i], buffer
    ensures ok <==> KeysPresent(oldStates[i])
    ensures ok ==>
      && |cur'| == |views|
      && (forall j :: 0 <= j < |views| ==> views[j].State() == cur'[j])
      && cur'[i + 1..] == oldStates[i + 1..]
      && var r := PrepareViews(oldStates, i + 1, getData, buffer.placement, |values0|);
        cur'[..i + 1] == r.0 && buffer.values == values0 + r.1
  {
    ghost var valuesBefore := buffer.values;
    assert cur[i] == cur[i..][0] == oldStates[i];
    ok := views[i].Prepare(buffer, getData);
    cur' := cur;
    if ok {
      ghost var after := views[i].State();
      ViewAdvances(oldStates, i, after, values0, valuesBefore, buffer.values, getData, buffer.placement);
      UpdateAt(cur, i, after, PrepareViews(oldStates, i, getData, buffer.placement, |values0|).0, oldStates);
      cur' := cur[i := after];
    }
  }

  /** `SortedPhaseItem`, as far as the batcher writes it. */
  class SortedItem {
    const entity: Entity
    var batchRange: (nat, nat)
    var dynamicOffset: Option<nat>

    constructor(entity: Entity, batchRange: (nat, nat), dynamicOffset: Option<nat>)
      ensures this.entity == entity && this.batchRange == batchRange && this.dynamicOffset == dynamicOffset
    {
      this.entity := entity;
      this.batchRange := batchRange;
      this.dynamicOffset := dynamicOffset;
    }
  }

  /** The closure `batch_and_prepare_sorted_render_phase` hands the generic
      sorted batcher: an item without batch data is left alone and yields no
      compare data; otherwise its data is pushed, the item draws exactly that
      one instance, and its compare data (which may itself be absent) is
      returned as it is. */
  method PrepareSortedItem(item: SortedItem, buffer: BatchedInstanceBuffer,
                           getBatchData: Entity -> Option<(BufferData, Option<CompareData>)>)
    returns (compare: Option<CompareData>)
    modifies item, buffer
    ensures getBatchData(item.entity).None? ==> compare == None && unchanged(item, buffer)
    ensures getBatchData(item.entity).Some? ==>
      var (data, cmp) := getBatchData(item.entity).value;
      var bi := buffer.placement(|old(buffer.values)|);
      && compare == cmp
      && buffer.values == old(buffer.values) + [data]
      && item.batchRange == (bi.index, bi.index + 1)
      && item.dynamicOffset == bi.dynamicOffset
  {
    var batchData := getBatchData(item.entity);
    if batchData.None? {
      return None;
    }
    var (bufferData, compareData) := batchData.value;
    var bufferIndex := buffer.Push(bufferData);
    var index := bufferIndex.index;
    item.batchRange := (index, index + 1);
    item.dynamicOffset := bufferIndex.dynamicOffset;
    compare := compareData;
  }
}
