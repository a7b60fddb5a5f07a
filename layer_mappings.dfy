/** The pass's configured layer-to-tint mappings and the culling mask derived
    from them: the bitwise OR of every mapping's layers. */
module LayerMappings {
  import opened Rendering

  /** Objects on `hologramObjectLayers` get the hologram treatment; their tint
      pre-pass is drawn with `tintMaterial` (which may be null). */
  datatype LayerTintMapping = LayerTintMapping(hologramObjectLayers: LayerMask, tintMaterial: Material)

  /** The mask `AggregateCullingParameters` builds: starting from 0, OR in each
      mapping's layers in list order. */
  function AggregateMask(mappings: seq<LayerTintMapping>): LayerMask
    decreases |mappings|
  {
    if mappings == [] then 0
    else AggregateMask(mappings[..|mappings| - 1]) | mappings[|mappings| - 1].hologramObjectLayers
  }

  /** Every bit set in `inner` is set in `outer`. */
  predicate Includes(outer: LayerMask, inner: LayerMask) {
    outer | inner == outer
  }

  /** Bit `k` of a mask, i.e. whether layer `k` is selected. */
  predicate LayerSelected(mask: LayerMask, k: bv32)
    requires k < 32
  {
    (mask >> k) & 1 == 1
  }

  /** The distinct layer masks occurring in the list. */
  function LayerSet(mappings: seq<LayerTintMapping>): set<LayerMask> {
    set i | 0 <= i < |mappings| :: mappings[i].hologramObjectLayers
  }

  /** Every mapping's layers are contained in the aggregated mask. */
  lemma {:induction false} AggregateIncludesEveryMapping(mappings: seq<LayerTintMapping>)
    ensures forall i :: 0 <= i < |mappings| ==> Includes(AggregateMask(mappings), mappings[i].hologramObjectLayers)
    decreases |mappings|
  {
    if mappings != [] {
      var init := mappings[..|mappings| - 1];
      AggregateIncludesEveryMapping(init);
      forall i | 0 <= i < |mappings|
        ensures Includes(AggregateMask(mappings), mappings[i].hologramObjectLayers)
      {
        if i < |init| {
          assert mappings[i] == init[i];
        }
      }
    }
  }

  /** The aggregated mask selects nothing beyond the mappings' layers: any mask
      containing every mapping's layers contains it. */
  lemma {:induction false} AggregateIsLeast(mappings: seq<LayerTintMapping>, bound: LayerMask)
    requires forall i :: 0 <= i < |mappings| ==> Includes(bound, mappings[i].hologramObjectLayers)
    ensures Includes(bound, AggregateMask(mappings))
    decreases |mappings|
  {
    if mappings != [] {
      var init := mappings[..|mappings| - 1];
      forall i | 0 <= i < |init|
        ensures Includes(bound, init[i].hologramObjectLayers)
      {
        assert init[i] == mappings[i];
      }
      AggregateIsLeast(init, bound);
    }
  }

  /** Bitwise reading of the fold: layer `k` is selected by the aggregated mask
      exactly when some mapping selects it. */
  lemma {:induction false} AggregateSelectsLayer(mappings: seq<LayerTintMapping>, k: bv32)
    requires k < 32
    ensures LayerSelected(AggregateMask(mappings), k)
        <==> exists i :: 0 <= i < |mappings| && LayerSelected(mappings[i].hologramObjectLayers, k)
    decreases |mappings|
  {
    if mappings == [] {
      assert !LayerSelected(0, k);
    } else {
      var init := mappings[..|mappings| - 1];
      var last := |mappings| - 1;
      AggregateSelectsLayer(init, k);
      OrSelectsLayer(AggregateMask(init), mappings[last].hologramObjectLayers, k);
      if LayerSelected(AggregateMask(mappings), k) {
        if !LayerSelected(mappings[last].hologramObjectLayers, k) {
          var i :| 0 <= i < |init| && LayerSelected(init[i].hologramObjectLayers, k);
          assert mappings[i] == init[i];
        }
      }
      if exists i :: 0 <= i < |mappings| && LayerSelected(mappings[i].hologramObjectLayers, k) {
        var i :| 0 <= i < |mappings| && LayerSelected(mappings[i].hologramObjectLayers, k);
        if i < last {
          assert init[i] == mappings[i];
        }
      }
    }
  }

  /** A layer is selected by the OR of two masks exactly when either selects it. */
  lemma OrSelectsLayer(a: LayerMask, b: LayerMask, k: bv32)
    requires k < 32
    ensures LayerSelected(a | b, k) <==> LayerSelected(a, k) || LayerSelected(b, k)
  {
    assert ((a | b) >> k) & 1 == ((a >> k) & 1) | ((b >> k) & 1);
  }

  /** The aggregated mask depends only on which layer masks occur, not on their
      order, their multiplicity or the tint materials. */
  lemma AggregateDependsOnlyOnLayerSet(mappings: seq<LayerTintMapping>, others: seq<LayerTintMapping>)
    requires LayerSet(mappings) == LayerSet(others)
    ensures AggregateMask(mappings) == AggregateMask(others)
  {
    AggregateBoundedByOthers(mappings, others);
    AggregateBoundedByOthers(others, mappings);
  }

  lemma AggregateBoundedByOthers(mappings: seq<LayerTintMapping>, others: seq<LayerTintMapping>)
    requires LayerSet(mappings) <= LayerSet(others)
    ensures Includes(AggregateMask(others), AggregateMask(mappings))
  {
    AggregateIncludesEveryMapping(others);
    forall i | 0 <= i < |mappings|
      ensures Includes(AggregateMask(others), mappings[i].hologramObjectLayers)
    {
      assert mappings[i].hologramObjectLayers in LayerSet(others);
      var j :| 0 <= j < |others| && others[j].hologramObjectLayers == mappings[i].hologramObjectLayers;
    }
    AggregateIsLeast(mappings, AggregateMask(others));
  }

  /** Reordering the mappings does not change the aggregated mask. */
  lemma AggregateIsOrderIndependent(mappings: seq<LayerTintMapping>, reordered: seq<LayerTintMapping>)
    requires multiset(mappings) == multiset(reordered)
    ensures AggregateMask(mappings) == AggregateMask(reordered)
  {
    SameElementsSameLayerSet(mappings, reordered);
    SameElementsSameLayerSet(reordered, mappings);
    AggregateDependsOnlyOnLayerSet(mappings, reordered);
  }

  lemma SameElementsSameLayerSet(mappings: seq<LayerTintMapping>, others: seq<LayerTintMapping>)
    requires multiset(mappings) == multiset(others)
    ensures LayerSet(mappings) <= LayerSet(others)
  {
    forall layers | layers in LayerSet(mappings)
      ensures layers in LayerSet(others)
    {
      var i :| 0 <= i < |mappings| && mappings[i].hologramObjectLayers == layers;
      assert mappings[i] in multiset(others);
      var j :| 0 <= j < |others| && others[j] == mappings[i];
    }
  }
}
