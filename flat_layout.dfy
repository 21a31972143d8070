/** The flat-buffer layout of one replica.
    A model's parameters are a list of tensors in the order `parameters()` yields them;
    here each tensor is the sequence of its elements. Every parameter is mapped, with a
    running offset, to a contiguous slot of one flat buffer whose length is the total
    element count; the same slots serve the parameter buffer and the gradient buffer. */
module FlatLayout {

  datatype Option<T> = None | Some(value: T)

  /** A half-open index range [lo, hi) of a flat buffer. */
  datatype Slot = Slot(lo: nat, hi: nat)

  /** Sum of element counts. */
  function Total(sizes: seq<nat>): nat
  {
    if sizes == [] then 0 else Total(sizes[..|sizes| - 1]) + sizes[|sizes| - 1]
  }

  /** Element count (numel) of each parameter. */
  function Sizes(params: seq<seq<int>>): (s: seq<nat>)
    ensures |s| == |params|
  {
    seq(|params|, k requires 0 <= k < |params| => |params[k]|)
  }

  /** Where parameter k starts: the element count of the parameters before it. */
  function Offset(sizes: seq<nat>, k: nat): nat
    requires k <= |sizes|
  {
    Total(sizes[..k])
  }

  /** The slot of every parameter. */
  function Layout(sizes: seq<nat>): (slots: seq<Slot>)
    ensures |slots| == |sizes|
  {
    seq(|sizes|, k requires 0 <= k < |sizes| => Slot(Offset(sizes, k), Offset(sizes, k) + sizes[k]))
  }

  /** The parameters packed one after the other (what `model_parameters` concatenates). */
  function Flatten(params: seq<seq<int>>): seq<int>
  {
    if params == [] then [] else Flatten(params[..|params| - 1]) + params[|params| - 1]
  }

  /** The parameter list after copying `flat` into it slot by slot: a parameter whose slot
      lies inside `flat` takes that slice, and one whose slot runs past the end keeps its
      old value (the copy raises there and never reaches the later parameters). */
  function CopyIn(params: seq<seq<int>>, flat: seq<int>): (r: seq<seq<int>>)
    ensures Sizes(r) == Sizes(params)
  {
    var slots := Layout(Sizes(params));
    seq(|params|, j requires 0 <= j < |params| =>
          if slots[j].lo <= slots[j].hi <= |flat| then flat[slots[j].lo..slots[j].hi] else params[j])
  }

  /** Slots fit a buffer when each is a well-formed range inside it. */
  predicate SlotsFit(slots: seq<Slot>, n: nat)
  {
    forall k :: 0 <= k < |slots| ==> slots[k].lo <= slots[k].hi <= n
  }

  /** What the parameters read once each one is a view of its slot of `flat`. */
  function Bound(slots: seq<Slot>, flat: seq<int>): (views: seq<seq<int>>)
    requires SlotsFit(slots, |flat|)
    ensures |views| == |slots|
  {
    seq(|slots|, k requires 0 <= k < |slots| => flat[slots[k].lo..slots[k].hi])
  }

  // ---------------------------------------------------------------------------
  // Offsets

  lemma OffsetStep(sizes: seq<nat>, k: nat)
    requires k < |sizes|
    ensures Offset(sizes, k + 1) == Offset(sizes, k) + sizes[k]
  {
    assert sizes[..k + 1][..k] == sizes[..k];
  }

  lemma OffsetFull(sizes: seq<nat>)
    ensures Offset(sizes, |sizes|) == Total(sizes)
  {
    assert sizes[..|sizes|] == sizes;
  }

  lemma {:induction false} OffsetMonotone(sizes: seq<nat>, j: nat, k: nat)
    requires j <= k <= |sizes|
    ensures Offset(sizes, j) <= Offset(sizes, k)
    decreases k - j
  {
    if j < k {
      OffsetMonotone(sizes, j, k - 1);
      OffsetStep(sizes, k - 1);
    }
  }

  /** The layout of a prefix of the parameters is the prefix of the layout. */
  lemma OffsetPrefix(sizes: seq<nat>, m: nat, k: nat)
    requires k <= m <= |sizes|
    ensures Offset(sizes[..m], k) == Offset(sizes, k)
  {
    assert sizes[..m][..k] == sizes[..k];
  }

  // ---------------------------------------------------------------------------
  // The layout is a partition of [0, Total)

  /** Parameter k occupies [sum of the sizes before k, that + numel_k); the slots follow
      each other without gaps in parameter order, are pairwise disjoint, start at 0 and
      the last one ends exactly at the total size, which is the buffer length. */
  lemma {:induction false} LayoutPartition(sizes: seq<nat>)
    ensures forall k :: 0 <= k < |sizes| ==>
              Layout(sizes)[k].lo == Total(sizes[..k]) &&
              Layout(sizes)[k].hi - Layout(sizes)[k].lo == sizes[k]
    ensures |sizes| > 0 ==> Layout(sizes)[0].lo == 0
    ensures forall k :: 0 <= k < |sizes| - 1 ==> Layout(sizes)[k].hi == Layout(sizes)[k + 1].lo
    ensures |sizes| > 0 ==> Layout(sizes)[|sizes| - 1].hi == Total(sizes)
    ensures forall j, k :: 0 <= j < k < |sizes| ==> Layout(sizes)[j].hi <= Layout(sizes)[k].lo
    ensures forall k :: 0 <= k < |sizes| ==> Layout(sizes)[k].hi <= Total(sizes)
  {
    var slots := Layout(sizes);
    forall k | 0 <= k < |sizes| - 1
      ensures slots[k].hi == slots[k + 1].lo
    {
      OffsetStep(sizes, k);
    }
    if |sizes| > 0 {
      OffsetStep(sizes, |sizes| - 1);
      OffsetFull(sizes);
    }
    forall j, k | 0 <= j < k < |sizes|
      ensures slots[j].hi <= slots[k].lo
    {
      OffsetStep(sizes, j);
      OffsetMonotone(sizes, j + 1, k);
    }
    forall k | 0 <= k < |sizes|
      ensures slots[k].hi <= Total(sizes)
    {
      OffsetStep(sizes, k);
      OffsetMonotone(sizes, k + 1, |sizes|);
      OffsetFull(sizes);
    }
  }

  /** Slot k in terms of offsets; it ends within the buffer. */
  lemma SlotAt(sizes: seq<nat>, k: nat)
    requires k < |sizes|
    ensures Layout(sizes)[k] == Slot(Offset(sizes, k), Offset(sizes, k + 1))
    ensures Offset(sizes, k + 1) <= Total(sizes)
  {
    OffsetStep(sizes, k);
    OffsetMonotone(sizes, k + 1, |sizes|);
    OffsetFull(sizes);
  }

  /** Every index of the buffer belongs to exactly one parameter's slot: a write to flat
      index i is seen through exactly one parameter. */
  lemma {:induction false} LayoutOwner(sizes: seq<nat>, i: nat)
    requires i < Total(sizes)
    ensures exists k :: 0 <= k < |sizes| && Layout(sizes)[k].lo <= i < Layout(sizes)[k].hi
    ensures forall j, k ::
              (0 <= j < |sizes| && 0 <= k < |sizes| &&
               Layout(sizes)[j].lo <= i < Layout(sizes)[j].hi &&
               Layout(sizes)[k].lo <= i < Layout(sizes)[k].hi) ==> j == k
  {
    LayoutCovers(sizes, i);
    forall j, k | 0 <= j < |sizes| && 0 <= k < |sizes| &&
                  Layout(sizes)[j].lo <= i < Layout(sizes)[j].hi &&
                  Layout(sizes)[k].lo <= i < Layout(sizes)[k].hi
      ensures j == k
    {
      if j < k {
        SlotsOrdered(sizes, j, k);
      } else if k < j {
        SlotsOrdered(sizes, k, j);
      }
    }
  }

  lemma SlotsOrdered(sizes: seq<nat>, j: nat, k: nat)
    requires j < k < |sizes|
    ensures Layout(sizes)[j].hi <= Layout(sizes)[k].lo
  {
    OffsetStep(sizes, j);
    OffsetMonotone(sizes, j + 1, k);
  }

  lemma {:induction false} LayoutCovers(sizes: seq<nat>, i: nat)
    requires i < Total(sizes)
    ensures exists k :: 0 <= k < |sizes| && Layout(sizes)[k].lo <= i < Layout(sizes)[k].hi
  {
    var m := |sizes| - 1;
    OffsetStep(sizes, m);
    OffsetFull(sizes);
    if i < Offset(sizes, m) {
      var prefix := sizes[..m];
      OffsetFull(prefix);
      OffsetPrefix(sizes, m, m);
      LayoutCovers(prefix, i);
      var k :| 0 <= k < m && Layout(prefix)[k].lo <= i < Layout(prefix)[k].hi;
      OffsetPrefix(sizes, m, k);
      OffsetStep(sizes, k);
      OffsetStep(prefix, k);
      OffsetPrefix(sizes, m, k + 1);
      assert Layout(sizes)[k].lo <= i < Layout(sizes)[k].hi;
    } else {
      assert Layout(sizes)[m].lo <= i < Layout(sizes)[m].hi;
    }
  }

  // ---------------------------------------------------------------------------
  // Pack and unpack

  lemma FlattenSnoc(params: seq<seq<int>>, k: nat)
    requires k < |params|
    ensures Flatten(params[..k + 1]) == Flatten(params[..k]) + params[k]
  {
    assert params[..k + 1][..k] == params[..k];
  }

  lemma SizesPrefix(params: seq<seq<int>>, m: nat)
    requires m <= |params|
    ensures Sizes(params[..m]) == Sizes(params)[..m]
  {
  }

  /** The packed length is the total size. */
  lemma {:induction false} FlattenLength(params: seq<seq<int>>)
    ensures |Flatten(params)| == Total(Sizes(params))
  {
    if params != [] {
      var m := |params| - 1;
      FlattenLength(params[..m]);
      SizesPrefix(params, m);
      OffsetStep(Sizes(params), m);
      OffsetFull(Sizes(params));
      OffsetFull(Sizes(params[..m]));
    }
  }

  /** Packing puts parameter k exactly in its slot. */
  lemma {:induction false} FlattenSlot(params: seq<seq<int>>, k: nat)
    requires k < |params|
    ensures Layout(Sizes(params))[k].hi <= |Flatten(params)|
    ensures Flatten(params)[Layout(Sizes(params))[k].lo..Layout(Sizes(params))[k].hi] == params[k]
  {
    var m := |params| - 1;
    var prefix := params[..m];
    var sizes := Sizes(params);
    SizesPrefix(params, m);
    assert Flatten(params) == Flatten(prefix) + params[m];
    FlattenLength(prefix);
    FlattenLength(params);
    SlotAt(sizes, k);
    OffsetFull(Sizes(prefix));
    OffsetPrefix(sizes, m, m);
    if k < m {
      FlattenSlot(prefix, k);
      SlotAt(Sizes(prefix), k);
      OffsetPrefix(sizes, m, k);
      OffsetPrefix(sizes, m, k + 1);
      assert Layout(Sizes(prefix))[k] == Layout(sizes)[k];
    }
  }

  /** Round trip 1: copying a model's own packed parameters back into it changes nothing. */
  lemma CopyInOwnFlatten(params: seq<seq<int>>)
    ensures CopyIn(params, Flatten(params)) == params
  {
    forall k | 0 <= k < |params|
      ensures CopyIn(params, Flatten(params))[k] == params[k]
    {
      FlattenSlot(params, k);
    }
  }

  lemma SlicesAgree(a: seq<int>, b: seq<int>, lo: nat, hi: nat, i: nat)
    requires lo <= i < hi <= |a| && hi <= |b|
    requires a[lo..hi] == b[lo..hi]
    ensures a[i] == b[i]
  {
    assert a[i] == a[lo..hi][i - lo];
    assert b[i] == b[lo..hi][i - lo];
  }

  /** Index i of the packed copy lies in the slot that owns it, where the copy put
      exactly the matching slice of `flat`. */
  lemma {:induction false} FlattenCopyInAt(params: seq<seq<int>>, flat: seq<int>, i: nat)
    requires |flat| == Total(Sizes(params))
    requires i < |flat|
    ensures i < |Flatten(CopyIn(params, flat))|
    ensures Flatten(CopyIn(params, flat))[i] == flat[i]
  {
    var q := CopyIn(params, flat);
    var sizes := Sizes(params);
    var slots := Layout(sizes);
    LayoutCovers(sizes, i);
    var k :| 0 <= k < |sizes| && slots[k].lo <= i < slots[k].hi;
    var s := slots[k];
    SlotAt(sizes, k);
    assert s.lo <= s.hi <= |flat|;
    assert q[k] == flat[s.lo..s.hi];
    assert Sizes(q) == sizes;
    FlattenSlot(q, k);
    SlicesAgree(Flatten(q), flat, s.lo, s.hi, i);
  }

  /** Round trip 2: after copying a buffer of exactly the total size into the parameters,
      packing them yields that buffer again. */
  lemma FlattenCopyIn(params: seq<seq<int>>, flat: seq<int>)
    requires |flat| == Total(Sizes(params))
    ensures Flatten(CopyIn(params, flat)) == flat
  {
    FlattenLength(CopyIn(params, flat));
    forall i | 0 <= i < |flat|
      ensures Flatten(CopyIn(params, flat))[i] == flat[i]
    {
      FlattenCopyInAt(params, flat, i);
    }
  }

  /** The layout of a model fits a buffer of the model's total size. */
  lemma LayoutFits(sizes: seq<nat>)
    ensures SlotsFit(Layout(sizes), Total(sizes))
  {
    forall k | 0 <= k < |sizes|
      ensures Layout(sizes)[k].lo <= Layout(sizes)[k].hi <= Total(sizes)
    {
      SlotAt(sizes, k);
    }
  }

  /** Views bound to a buffer of the right size have the parameters' sizes, and packing
      them gives back the buffer: the parameters and the flat buffer are the same storage. */
  lemma {:induction false} BoundRoundTrip(sizes: seq<nat>, flat: seq<int>)
    requires |flat| == Total(sizes)
    ensures SlotsFit(Layout(sizes), |flat|)
    ensures Sizes(Bound(Layout(sizes), flat)) == sizes
    ensures Flatten(Bound(Layout(sizes), flat)) == flat
  {
    LayoutFits(sizes);
    var views := Bound(Layout(sizes), flat);
    assert Sizes(views) == sizes;
    forall k | 0 <= k < |views|
      ensures CopyIn(views, flat)[k] == views[k]
    {
      SlotAt(sizes, k);
    }
    assert CopyIn(views, flat) == views;
    FlattenCopyIn(views, flat);
  }

  // ---------------------------------------------------------------------------
  // The source's loops

  /** `get_model_parameter_size`: the running total of numel over the parameters. */
  method GetModelParameterSize(params: seq<seq<int>>) returns (size: nat)
    ensures size == Total(Sizes(params))
    ensures size == |Flatten(params)|
  {
    size := 0;
    for k := 0 to |params|
      invariant size == Offset(Sizes(params), k)
    {
      OffsetStep(Sizes(params), k);
      size := size + |params[k]|;
    }
    OffsetFull(Sizes(params));
    FlattenLength(params);
  }

  /** `update_model_params_loc` and `update_model_grads_loc`: walk the parameters with a
      running index and bind each one (its data, or its gradient) to the next slice of the
      flat buffer. Both compute the same slots; the binding is the returned slot list. */
  method UpdateModelLoc(params: seq<seq<int>>) returns (slots: seq<Slot>)
    ensures slots == Layout(Sizes(params))
  {
    slots := [];
    var indexSize := 0;
    for k := 0 to |params|
      invariant indexSize == Offset(Sizes(params), k)
      invariant slots == Layout(Sizes(params))[..k]
    {
      var lastIndex := indexSize + |params[k]|;
      slots := slots + [Slot(indexSize, lastIndex)];
      OffsetStep(Sizes(params), k);
      indexSize := lastIndex;
    }
  }

  /** `model_parameters`: concatenate clones of every parameter; a model without
      parameters yields None. */
  method ModelParameters(params: seq<seq<int>>) returns (flat: Option<seq<int>>)
    ensures flat.None? <==> params == []
    ensures params != [] ==> flat == Some(Flatten(params))
  {
    flat := None;
    for k := 0 to |params|
      invariant k == 0 ==> flat.None?
      invariant k > 0 ==> flat == Some(Flatten(params[..k]))
    {
      FlattenSnoc(params, k);
      if flat.None? {
        assert params[..0] == [] && Flatten(params[..0]) == [];
        assert [] + params[k] == params[k];
        flat := Some(params[k]);
      } else {
        flat := Some(flat.value + params[k]);
      }
    }
    assert params[..|params|] == params;
  }

  /** A parameter whose slot ends within `flat` takes that slice. */
  lemma CopyInWithin(params: seq<seq<int>>, flat: seq<int>, k: nat)
    requires k < |params|
    requires Offset(Sizes(params), k + 1) <= |flat|
    ensures Offset(Sizes(params), k + 1) == Offset(Sizes(params), k) + |params[k]|
    ensures CopyIn(params, flat)[k] == flat[Offset(Sizes(params), k)..Offset(Sizes(params), k + 1)]
  {
    SlotAt(Sizes(params), k);
    OffsetStep(Sizes(params), k);
  }

  /** Once a slot runs past the end of `flat`, that parameter and all later ones keep their
      values, and `flat` is shorter than the total size. */
  lemma CopyInPastEnd(params: seq<seq<int>>, flat: seq<int>, k: nat)
    requires k < |params|
    requires Offset(Sizes(params), k) + |params[k]| > |flat|
    ensures forall j :: k <= j < |params| ==> CopyIn(params, flat)[j] == params[j]
    ensures Total(Sizes(params)) > |flat|
  {
    var sizes := Sizes(params);
    OffsetStep(sizes, k);
    forall j | k <= j < |params|
      ensures CopyIn(params, flat)[j] == params[j]
    {
      SlotAt(sizes, j);
      OffsetMonotone(sizes, k + 1, j + 1);
    }
    OffsetMonotone(sizes, k + 1, |params|);
    OffsetFull(sizes);
  }

  /** `update_model_paramters`: copy consecutive slices of `flat` into the parameters.
      `completed` is false when `flat` is too short: viewing a short slice in the
      parameter's shape raises, after the earlier parameters were already overwritten. */
  method UpdateModelParameters(params: seq<seq<int>>, flat: seq<int>)
    returns (updated: seq<seq<int>>, completed: bool)
    ensures completed <==> Total(Sizes(params)) <= |flat|
    ensures updated == CopyIn(params, flat)
  {
    ghost var target := CopyIn(params, flat);
    updated := params;
    var indexSize := 0;
    var k := 0;
    while k < |params|
      invariant 0 <= k <= |params|
      invariant indexSize == Offset(Sizes(params), k) <= |flat|
      invariant |updated| == |params|
      invariant forall j :: 0 <= j < k ==> updated[j] == target[j]
      invariant forall j :: k <= j < |params| ==> updated[j] == params[j]
    {
      var lastIndex := indexSize + |params[k]|;
      if lastIndex > |flat| {
        CopyInPastEnd(params, flat, k);
        return updated, false;
      }
      OffsetStep(Sizes(params), k);
      CopyInWithin(params, flat, k);
      updated := updated[k := flat[indexSize..lastIndex]];
      indexSize := lastIndex;
      k := k + 1;
    }
    OffsetFull(Sizes(params));
    completed := true;
  }
}
