/** What the CPU-side batcher computes for one bin, as functions on values:
    the instances pushed for the bin's entities, and how consecutive pushed
    instances coalesce into `BinnedRenderPhaseBatch` ranges. */
module BatchSpec {
  import opened Wrappers

  type Entity = nat
  type BufferData = int

  /** `GpuArrayBufferIndex`: where `push` placed one instance. */
  datatype BufferIndex = BufferIndex(index: nat, dynamicOffset: Option<nat>)

  /** `BinnedRenderPhaseBatch`: the instances `start..end` drawn together. */
  datatype Batch = Batch(representative: Entity, start: nat, end: nat, dynamicOffset: Option<nat>)

  /** An instance placed at `p` continues `b` when it sits right after `b`'s
      range and shares its dynamic offset. */
  predicate Continues(b: Batch, p: BufferIndex)
  {
    b.end == p.index && b.dynamicOffset == p.dynamicOffset
  }

  /** One pushed instance: extend the last batch by one, or open a new batch
      holding just this instance, represented by its entity. */
  function Coalesce(batches: seq<Batch>, e: Entity, p: BufferIndex): seq<Batch>
  {
    if |batches| > 0 && Continues(batches[|batches| - 1], p)
    then batches[..|batches| - 1] + [batches[|batches| - 1].(end := p.index + 1)]
    else batches + [Batch(e, p.index, p.index + 1, p.dynamicOffset)]
  }

  /** The batch set of a bin whose pushed instances are `ps`, pushed for `es`. */
  function CoalesceAll(es: seq<Entity>, ps: seq<BufferIndex>): seq<Batch>
    requires |es| == |ps|
  {
    if ps == [] then []
    else Coalesce(CoalesceAll(es[..|es| - 1], ps[..|ps| - 1]), es[|es| - 1], ps[|ps| - 1])
  }

  /** The instances a batch draws, with its dynamic offset. */
  function Expand(b: Batch): seq<BufferIndex>
  {
    seq(if b.start <= b.end then b.end - b.start else 0, i requires 0 <= i => BufferIndex(b.start + i, b.dynamicOffset))
  }

  /** The instances a batch set draws, batch after batch. */
  function Flatten(bs: seq<Batch>): seq<BufferIndex>
  {
    if bs == [] then [] else Flatten(bs[..|bs| - 1]) + Expand(bs[|bs| - 1])
  }

  function TotalLength(bs: seq<Batch>): nat
  {
    if bs == [] then 0
    else TotalLength(bs[..|bs| - 1]) + (var b := bs[|bs| - 1]; if b.start <= b.end then b.end - b.start else 0)
  }

  /** Every batch draws at least one instance. */
  predicate NonEmptyRanges(bs: seq<Batch>)
  {
    bs == [] || (NonEmptyRanges(bs[..|bs| - 1]) && bs[|bs| - 1].start < bs[|bs| - 1].end)
  }

  /** `NonEmptyRanges` holds exactly when each batch's range is non-empty. */
  lemma {:induction false} NonEmptyRangesEach(bs: seq<Batch>)
    ensures NonEmptyRanges(bs) <==> forall j :: 0 <= j < |bs| ==> bs[j].start < bs[j].end
  {
    if bs != [] {
      var init := bs[..|bs| - 1];
      NonEmptyRangesEach(init);
      assert forall j :: 0 <= j < |init| ==> init[j] == bs[j];
    }
  }

  /** No two neighbouring batches could have been one. */
  predicate Maximal(bs: seq<Batch>)
  {
    forall j :: 0 <= j && j + 1 < |bs| ==>
      !(bs[j].end == bs[j + 1].start && bs[j].dynamicOffset == bs[j + 1].dynamicOffset)
  }

  /** The last batch ends right after the last pushed instance, with its offset. */
  predicate EndsAtLast(bs: seq<Batch>, ps: seq<BufferIndex>)
  {
    |ps| > 0 ==>
      |bs| > 0 && bs[|bs| - 1].end == ps[|ps| - 1].index + 1 &&
      bs[|bs| - 1].dynamicOffset == ps[|ps| - 1].dynamicOffset
  }

  lemma ExpandExtend(b: Batch)
    requires b.start <= b.end
    ensures Expand(b.(end := b.end + 1)) == Expand(b) + [BufferIndex(b.end, b.dynamicOffset)]
  {
  }

  lemma FlattenSnoc(bs: seq<Batch>, b: Batch)
    ensures Flatten(bs + [b]) == Flatten(bs) + Expand(b)
  {
    assert (bs + [b])[..|bs|] == bs;
  }

  lemma NonEmptySnoc(bs: seq<Batch>, b: Batch)
    ensures NonEmptyRanges(bs + [b]) <==> NonEmptyRanges(bs) && b.start < b.end
  {
    assert (bs + [b])[..|bs|] == bs;
  }

  lemma ExpandSingle(b: Batch)
    requires b.end == b.start + 1
    ensures Expand(b) == [BufferIndex(b.start, b.dynamicOffset)]
  {
  }

  /** Extending the last batch by the instance right after it draws that
      instance too. */
  lemma ExtendLast(init: seq<Batch>, last: Batch, p: BufferIndex)
    requires NonEmptyRanges(init + [last]) && Continues(last, p)
    ensures NonEmptyRanges(init + [last.(end := p.index + 1)])
    ensures Flatten(init + [last.(end := p.index + 1)]) == Flatten(init + [last]) + [p]
  {
    var last' := last.(end := p.index + 1);
    FlattenSnoc(init, last);
    NonEmptySnoc(init, last);
    FlattenSnoc(init, last');
    NonEmptySnoc(init, last');
    ExpandExtend(last);
    assert Flatten(init + [last']) == Flatten(init) + (Expand(last) + [p]);
  }

  /** Opening a batch of one instance draws just that instance. */
  lemma OpenBatch(bs: seq<Batch>, b: Batch)
    requires NonEmptyRanges(bs) && b.end == b.start + 1
    ensures NonEmptyRanges(bs + [b])
    ensures Flatten(bs + [b]) == Flatten(bs) + [BufferIndex(b.start, b.dynamicOffset)]
  {
    FlattenSnoc(bs, b);
    NonEmptySnoc(bs, b);
    ExpandSingle(b);
  }

  /** One coalescing step appends exactly the new instance to what the batches
      draw, keeps the ranges non-empty, and leaves the last batch ending right
      after the new instance. */
  lemma CoalesceStep(bs: seq<Batch>, e: Entity, p: BufferIndex)
    requires NonEmptyRanges(bs)
    ensures NonEmptyRanges(Coalesce(bs, e, p))
    ensures Flatten(Coalesce(bs, e, p)) == Flatten(bs) + [p]
    ensures EndsAtLast(Coalesce(bs, e, p), [p])
  {
    if |bs| > 0 && Continues(bs[|bs| - 1], p) {
      var init, last := bs[..|bs| - 1], bs[|bs| - 1];
      assert bs == init + [last];
      assert Coalesce(bs, e, p) == init + [last.(end := p.index + 1)];
      ExtendLast(init, last, p);
    } else {
      var b := Batch(e, p.index, p.index + 1, p.dynamicOffset);
      assert Coalesce(bs, e, p) == bs + [b];
      OpenBatch(bs, b);
    }
  }

  /** The batches of a bin draw exactly the pushed instances, in push order and
      with their own dynamic offsets, and no batch is empty. */
  lemma {:induction false} CoalesceAllCovers(es: seq<Entity>, ps: seq<BufferIndex>)
    requires |es| == |ps|
    ensures NonEmptyRanges(CoalesceAll(es, ps))
    ensures Flatten(CoalesceAll(es, ps)) == ps
    ensures EndsAtLast(CoalesceAll(es, ps), ps)
  {
    if ps != [] {
      var n := |ps| - 1;
      CoalesceAllCovers(es[..n], ps[..n]);
      CoalesceStep(CoalesceAll(es[..n], ps[..n]), es[n], ps[n]);
      assert ps[..n] + [ps[n]] == ps;
    }
  }

  lemma {:induction false} FlattenLength(bs: seq<Batch>)
    ensures |Flatten(bs)| == TotalLength(bs)
  {
    if bs != [] {
      FlattenLength(bs[..|bs| - 1]);
    }
  }

  /** The batch ranges of a bin add up to the number of pushed instances. */
  lemma CoalesceAllLength(es: seq<Entity>, ps: seq<BufferIndex>)
    requires |es| == |ps|
    ensures TotalLength(CoalesceAll(es, ps)) == |ps|
  {
    CoalesceAllCovers(es, ps);
    FlattenLength(CoalesceAll(es, ps));
  }

  /** A new batch is opened only when the instance could not extend the last
      one, so neighbouring batches are never mergeable. */
  lemma MaximalStep(bs: seq<Batch>, e: Entity, p: BufferIndex)
    requires Maximal(bs)
    ensures Maximal(Coalesce(bs, e, p))
  {
    var bs' := Coalesce(bs, e, p);
    if |bs| > 0 && Continues(bs[|bs| - 1], p) {
      assert |bs'| == |bs|;
      assert forall j :: 0 <= j < |bs| - 1 ==> bs'[j] == bs[j];
      assert bs'[|bs| - 1].start == bs[|bs| - 1].start;
      assert bs'[|bs| - 1].dynamicOffset == bs[|bs| - 1].dynamicOffset;
    } else {
      assert bs' == bs + [Batch(e, p.index, p.index + 1, p.dynamicOffset)];
    }
  }

  lemma {:induction false} CoalesceAllMaximal(es: seq<Entity>, ps: seq<BufferIndex>)
    requires |es| == |ps|
    ensures Maximal(CoalesceAll(es, ps))
  {
    if ps != [] {
      var n := |ps| - 1;
      CoalesceAllMaximal(es[..n], ps[..n]);
      MaximalStep(CoalesceAll(es[..n], ps[..n]), es[n], ps[n]);
    }
  }

  /** Batch `j` is represented by the entity whose instance opened it: the
      first instance after those drawn by batches `0..j-1`. */
  predicate RepresentedByOpener(bs: seq<Batch>, es: seq<Entity>)
  {
    forall j :: 0 <= j < |bs| ==>
      |Flatten(bs[..j])| < |es| && bs[j].representative == es[|Flatten(bs[..j])|]
  }

  /** One coalescing step keeps every batch represented by its opener. */
  lemma RepresentativesStep(bs: seq<Batch>, es: seq<Entity>, e: Entity, p: BufferIndex)
    requires |Flatten(bs)| == |es| && RepresentedByOpener(bs, es)
    ensures RepresentedByOpener(Coalesce(bs, e, p), es + [e])
  {
    var bs' := Coalesce(bs, e, p);
    var es' := es + [e];
    forall j | 0 <= j < |bs'|
      ensures |Flatten(bs'[..j])| < |es'| && bs'[j].representative == es'[|Flatten(bs'[..j])|]
    {
      if j < |bs| {
        assert bs'[..j] == bs[..j];
        assert bs'[j].representative == bs[j].representative;
        assert es'[|Flatten(bs[..j])|] == es[|Flatten(bs[..j])|];
      } else {
        assert bs'[..j] == bs;
      }
    }
  }

  lemma CoalesceAllDraws(es: seq<Entity>, ps: seq<BufferIndex>)
    requires |es| == |ps|
    ensures |Flatten(CoalesceAll(es, ps))| == |es|
  {
    CoalesceAllCovers(es, ps);
  }

  lemma {:induction false} CoalesceAllRepresentatives(es: seq<Entity>, ps: seq<BufferIndex>)
    requires |es| == |ps|
    ensures RepresentedByOpener(CoalesceAll(es, ps), es)
  {
    if ps != [] {
      var n := |ps| - 1;
      var bs := CoalesceAll(es[..n], ps[..n]);
      CoalesceAllRepresentatives(es[..n], ps[..n]);
      CoalesceAllDraws(es[..n], ps[..n]);
      RepresentativesStep(bs, es[..n], es[n], ps[n]);
      assert es[..n] + [es[n]] == es;
    }
  }

  // ---- Feeding a bin's entities to the buffer ----

  /** What a bin's loop has pushed: the entities that had data, their data,
      and where each was placed. */
  datatype Fed = Fed(entities: seq<Entity>, data: seq<BufferData>, placed: seq<BufferIndex>)

  /** Walk `es` in order; an entity without batch data is skipped, any other
      is pushed, landing where `placement` puts the buffer's next element.
      `n0` is the number of elements pushed before. */
  function Feed(es: seq<Entity>, getData: Entity -> Option<BufferData>, placement: nat -> BufferIndex, n0: nat): (f: Fed)
    ensures |f.entities| == |f.data| == |f.placed| <= |es|
  {
    if es == [] then Fed([], [], [])
    else FeedOne(Feed(es[..|es| - 1], getData, placement, n0), es[|es| - 1], getData, placement, n0)
  }

  /** One entity: skipped without data, otherwise pushed at the next placement. */
  function FeedOne(f: Fed, e: Entity, getData: Entity -> Option<BufferData>, placement: nat -> BufferIndex, n0: nat): (g: Fed)
    requires |f.entities| == |f.data| == |f.placed|
    ensures |g.entities| == |g.data| == |g.placed| <= |f.data| + 1
  {
    match getData(e)
    case None => f
    case Some(d) => Fed(f.entities + [e], f.data + [d], f.placed + [placement(n0 + |f.data|)])
  }

  /** The entities of `es` that have batch data, in their order in `es`. */
  function WithData(es: seq<Entity>, getData: Entity -> Option<BufferData>): seq<Entity>
  {
    if es == [] then []
    else WithData(es[..|es| - 1], getData) + (if getData(es[|es| - 1]).Some? then [es[|es| - 1]] else [])
  }

  /** The pushed entities are exactly those with data, each once, in order. */
  lemma {:induction false} FeedEntities(es: seq<Entity>, getData: Entity -> Option<BufferData>, placement: nat -> BufferIndex, n0: nat)
    ensures Feed(es, getData, placement, n0).entities == WithData(es, getData)
  {
    if es != [] {
      FeedEntities(es[..|es| - 1], getData, placement, n0);
    }
  }

  /** The `k`-th push is the `k`-th entity that had data, carries that
      entity's data and lands at the buffer's `n0 + k`-th placement; every
      entity with data is pushed. */
  lemma {:induction false} FeedSpec(es: seq<Entity>, getData: Entity -> Option<BufferData>, placement: nat -> BufferIndex, n0: nat)
    ensures var f := Feed(es, getData, placement, n0);
      && f.entities == WithData(es, getData)
      && (forall k :: 0 <= k < |f.entities| ==>
            getData(f.entities[k]) == Some(f.data[k]) && f.placed[k] == placement(n0 + k) && f.entities[k] in es)
      && (forall i :: 0 <= i < |es| && getData(es[i]).Some? ==> es[i] in f.entities)
  {
    FeedEntities(es, getData, placement, n0);
    if es != [] {
      var init := es[..|es| - 1];
      FeedSpec(init, getData, placement, n0);
      forall i | 0 <= i < |es| && getData(es[i]).Some?
        ensures es[i] in Feed(es, getData, placement, n0).entities
      {
        if i < |init| {
          assert es[i] == init[i];
        }
      }
    }
  }

  /** The batch ranges of a bin add up to the number of its entities that
      had data. */
  lemma BinBatchesLength(es: seq<Entity>, getData: Entity -> Option<BufferData>, placement: nat -> BufferIndex, n0: nat)
    ensures TotalLength(BinBatches(Feed(es, getData, placement, n0))) == |WithData(es, getData)|
  {
    var f := Feed(es, getData, placement, n0);
    FeedEntities(es, getData, placement, n0);
    CoalesceAllLength(f.entities, f.placed);
  }

  /** Two runs of pushes, one after the other. */
  function Then(fa: Fed, fb: Fed): Fed
  {
    Fed(fa.entities + fb.entities, fa.data + fb.data, fa.placed + fb.placed)
  }

  lemma FeedSnoc(s: seq<Entity>, es: seq<Entity>, e: Entity, getData: Entity -> Option<BufferData>, placement: nat -> BufferIndex, n0: nat)
    requires s == es + [e]
    ensures Feed(s, getData, placement, n0) == FeedOne(Feed(es, getData, placement, n0), e, getData, placement, n0)
  {
    assert s[..|es|] == es;
  }

  /** Feeding one entity after two runs is feeding it after the second run,
      started where the first one ended. */
  lemma FeedOneAfter(fa: Fed, fb: Fed, e: Entity, getData: Entity -> Option<BufferData>, placement: nat -> BufferIndex, n0: nat, m: nat)
    requires |fa.entities| == |fa.data| == |fa.placed| && |fb.entities| == |fb.data| == |fb.placed|
    requires m == n0 + |fa.data|
    ensures FeedOne(Then(fa, fb), e, getData, placement, n0) == Then(fa, FeedOne(fb, e, getData, placement, m))
  {
    if getData(e).Some? {
      var d := getData(e).value;
      assert fa.entities + fb.entities + [e] == fa.entities + (fb.entities + [e]);
      assert fa.data + fb.data + [d] == fa.data + (fb.data + [d]);
      var q := placement(m + |fb.data|);
      assert fa.placed + fb.placed + [q] == fa.placed + (fb.placed + [q]);
    }
  }

  /** Entities fed after `a` continue where `a` left off. */
  lemma {:induction false} FeedAppend(a: seq<Entity>, b: seq<Entity>, getData: Entity -> Option<BufferData>, placement: nat -> BufferIndex, n0: nat)
    ensures Feed(a + b, getData, placement, n0) ==
      Then(Feed(a, getData, placement, n0), Feed(b, getData, placement, n0 + |Feed(a, getData, placement, n0).data|))
    decreases |b|
  {
    var fa := Feed(a, getData, placement, n0);
    var m := n0 + |fa.data|;
    if b == [] {
      assert a + b == a;
    } else {
      var n := |b| - 1;
      var fb0 := Feed(b[..n], getData, placement, m);
      FeedAppend(a, b[..n], getData, placement, n0);
      assert a + b[..n] + [b[n]] == a + b;
      FeedSnoc(a + b, a + b[..n], b[n], getData, placement, n0);
      assert b[..n] + [b[n]] == b;
      FeedSnoc(b, b[..n], b[n], getData, placement, m);
      FeedOneAfter(fa, fb0, b[n], getData, placement, n0, m);
      var fb := Feed(b, getData, placement, m);
      assert fb == FeedOne(fb0, b[n], getData, placement, m);
      calc {
        Feed(a + b, getData, placement, n0);
        FeedOne(Feed(a + b[..n], getData, placement, n0), b[n], getData, placement, n0);
        FeedOne(Then(fa, fb0), b[n], getData, placement, n0);
        Then(fa, fb);
      }
    }
  }

  /** An entity without batch data pushes nothing and changes no batch,
      wherever it sits in the bin. */
  lemma SkippedEntityChangesNothing(a: seq<Entity>, e: Entity, b: seq<Entity>, getData: Entity -> Option<BufferData>, placement: nat -> BufferIndex, n0: nat)
    requires getData(e).None?
    ensures Feed(a + [e] + b, getData, placement, n0) == Feed(a + b, getData, placement, n0)
  {
    FeedAppend(a + [e], b, getData, placement, n0);
    FeedAppend(a, b, getData, placement, n0);
    assert (a + [e])[..|a|] == a;
  }

  /** The batch set a batchable bin produces. */
  function BinBatches(f: Fed): seq<Batch>
    requires |f.entities| == |f.placed|
  {
    CoalesceAll(f.entities, f.placed)
  }

  /** The loop's view of one more entity: one without data changes nothing... */
  lemma FeedSkip(es: seq<Entity>, j: nat, getData: Entity -> Option<BufferData>, placement: nat -> BufferIndex, n0: nat)
    requires j < |es| && getData(es[j]).None?
    ensures Feed(es[..j + 1], getData, placement, n0) == Feed(es[..j], getData, placement, n0)
  {
    assert es[..j + 1][..j] == es[..j];
  }

  /** ...and one with data is pushed at the next placement. */
  lemma FeedPush(es: seq<Entity>, j: nat, getData: Entity -> Option<BufferData>, placement: nat -> BufferIndex, n0: nat, f: Fed)
    requires j < |es| && getData(es[j]).Some?
    requires f == Feed(es[..j], getData, placement, n0)
    ensures Feed(es[..j + 1], getData, placement, n0) ==
      Fed(f.entities + [es[j]], f.data + [getData(es[j]).value], f.placed + [placement(n0 + |f.data|)])
  {
    assert es[..j + 1][..j] == es[..j];
  }

  lemma CoalesceAllSnoc(es: seq<Entity>, ps: seq<BufferIndex>, e: Entity, p: BufferIndex)
    requires |es| == |ps|
    ensures CoalesceAll(es + [e], ps + [p]) == Coalesce(CoalesceAll(es, ps), e, p)
  {
    assert (es + [e])[..|es|] == es;
    assert (ps + [p])[..|ps|] == ps;
  }
}
