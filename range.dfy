/**
 * The keyframe-range operators of the dope sheet: the extents of the keys on
 * the filtered curves (get_keyframe_extents), the automatic preview range and
 * view-all.
 *
 * calc_fcurve_range and the inverse NLA time mapping (get_action_frame_inv)
 * are not part of this model; they are passed in as `calcRange` and
 * `frameInv`.
 */
module KeyframeRange {
  import opened Anim

  /** The seeds the extent fold starts from (999999999.0f and -999999999.0f). */
  const MinSeed: real := 999999999.0
  const MaxSeed: real := -999999999.0

  /** The filter get_keyframe_extents uses. */
  const RangeFilter: set<FilterBit> := {Visible, Sel, ForEdit, CurvesOnly}

  /** MIN2 and MAX2. */
  function Min(a: real, b: real): real {
    if a < b then a else b
  }

  function Max(a: real, b: real): real {
    if a > b then a else b
  }

  /**
   * The time range one channel contributes: the curve's own range, passed
   * through the inverse NLA mapping when the channel has an NLA owner.
   */
  function CurveRange(e: ListElem, calcRange: seq<Key> -> (real, real),
                      frameInv: (ObjectRef, real) -> real): (real, real)
    reads e.curve
  {
    var r := calcRange(e.curve.keys);
    if e.nlaOwner.Some? then (frameInv(e.nlaOwner.value, r.0), frameInv(e.nlaOwner.value, r.1)) else r
  }

  /** The channel ranges, in list order. */
  function Ranges(elems: seq<ListElem>, calcRange: seq<Key> -> (real, real),
                  frameInv: (ObjectRef, real) -> real): (r: seq<(real, real)>)
    reads Curves(elems)
    ensures |r| == |elems|
    ensures forall j :: 0 <= j < |elems| ==> r[j] == CurveRange(elems[j], calcRange, frameInv)
  {
    if elems == [] then []
    else Ranges(elems[..|elems| - 1], calcRange, frameInv) + [CurveRange(elems[|elems| - 1], calcRange, frameInv)]
  }

  /** The running minimum of the range starts, seeded with MinSeed. */
  function FoldMin(rs: seq<(real, real)>): real {
    if rs == [] then MinSeed else Min(FoldMin(rs[..|rs| - 1]), rs[|rs| - 1].0)
  }

  /** The running maximum of the range ends, seeded with MaxSeed. */
  function FoldMax(rs: seq<(real, real)>): real {
    if rs == [] then MaxSeed else Max(FoldMax(rs[..|rs| - 1]), rs[|rs| - 1].1)
  }

  /**
   * What get_keyframe_extents computes: the folded extents of the filtered
   * channels, or, with no channel, the scene's frame range, or (-5, 100)
   * without a scene.
   */
  function Extents(ac: AnimContext, calcRange: seq<Key> -> (real, real),
                   frameInv: (ObjectRef, real) -> real): (real, real)
    reads Curves(Filter(ac, RangeFilter)), SceneSet(ac.scene)`sfra, SceneSet(ac.scene)`efra
  {
    var elems := Filter(ac, RangeFilter);
    if elems != [] then
      var rs := Ranges(elems, calcRange, frameInv);
      (FoldMin(rs), FoldMax(rs))
    else if ac.scene != null then (ac.scene.sfra as real, ac.scene.efra as real)
    else (-5.0, 100.0)
  }

  /** The fold's minimum is at most the seed and every range start. */
  lemma {:induction false} FoldMinBelow(rs: seq<(real, real)>)
    ensures FoldMin(rs) <= MinSeed
    ensures forall j :: 0 <= j < |rs| ==> FoldMin(rs) <= rs[j].0
  {
    if rs != [] {
      FoldMinBelow(rs[..|rs| - 1]);
      forall j | 0 <= j < |rs| - 1 ensures FoldMin(rs) <= rs[j].0 {
        assert rs[..|rs| - 1][j] == rs[j];
      }
    }
  }

  /** The fold's minimum is the seed or one of the range starts. */
  lemma {:induction false} FoldMinAttained(rs: seq<(real, real)>)
    ensures FoldMin(rs) == MinSeed || exists j :: 0 <= j < |rs| && FoldMin(rs) == rs[j].0
  {
    if rs != [] {
      FoldMinAttained(rs[..|rs| - 1]);
      if FoldMin(rs) != rs[|rs| - 1].0 && FoldMin(rs) != MinSeed {
        var j :| 0 <= j < |rs| - 1 && FoldMin(rs[..|rs| - 1]) == rs[..|rs| - 1][j].0;
        assert FoldMin(rs) == rs[j].0;
      }
    }
  }

  lemma {:induction false} FoldMaxAbove(rs: seq<(real, real)>)
    ensures MaxSeed <= FoldMax(rs)
    ensures forall j :: 0 <= j < |rs| ==> rs[j].1 <= FoldMax(rs)
  {
    if rs != [] {
      FoldMaxAbove(rs[..|rs| - 1]);
      forall j | 0 <= j < |rs| - 1 ensures rs[j].1 <= FoldMax(rs) {
        assert rs[..|rs| - 1][j] == rs[j];
      }
    }
  }

  lemma {:induction false} FoldMaxAttained(rs: seq<(real, real)>)
    ensures FoldMax(rs) == MaxSeed || exists j :: 0 <= j < |rs| && FoldMax(rs) == rs[j].1
  {
    if rs != [] {
      FoldMaxAttained(rs[..|rs| - 1]);
      if FoldMax(rs) != rs[|rs| - 1].1 && FoldMax(rs) != MaxSeed {
        var j :| 0 <= j < |rs| - 1 && FoldMax(rs[..|rs| - 1]) == rs[..|rs| - 1][j].1;
        assert FoldMax(rs) == rs[j].1;
      }
    }
  }

  /**
   * With at least one channel, the extents are the least start and the
   * greatest end over the channel ranges, clamped by the seeds: the minimum
   * is at most every start and is a start unless every start exceeds the
   * seed, and symmetrically for the maximum.
   */
  lemma {:induction false} ExtentsOfChannels(ac: AnimContext, calcRange: seq<Key> -> (real, real),
                          frameInv: (ObjectRef, real) -> real)
    requires Filter(ac, RangeFilter) != []
    ensures var elems := Filter(ac, RangeFilter);
            var ex := Extents(ac, calcRange, frameInv);
            (forall j :: 0 <= j < |elems| ==>
               ex.0 <= CurveRange(elems[j], calcRange, frameInv).0
               && CurveRange(elems[j], calcRange, frameInv).1 <= ex.1)
            && ex.0 <= MinSeed && MaxSeed <= ex.1
            && (ex.0 == MinSeed || exists j :: 0 <= j < |elems| && ex.0 == CurveRange(elems[j], calcRange, frameInv).0)
            && (ex.1 == MaxSeed || exists j :: 0 <= j < |elems| && ex.1 == CurveRange(elems[j], calcRange, frameInv).1)
  {
    var rs := Ranges(Filter(ac, RangeFilter), calcRange, frameInv);
    FoldMinBelow(rs);
    FoldMinAttained(rs);
    FoldMaxAbove(rs);
    FoldMaxAttained(rs);
  }

  /** When every channel range is ordered, so are the extents of a non-empty channel list. */
  lemma {:induction false} ExtentsOrdered(ac: AnimContext, calcRange: seq<Key> -> (real, real),
                       frameInv: (ObjectRef, real) -> real)
    requires Filter(ac, RangeFilter) != []
    requires forall e :: e in Filter(ac, RangeFilter) ==> CurveRange(e, calcRange, frameInv).0 <= CurveRange(e, calcRange, frameInv).1
    ensures Extents(ac, calcRange, frameInv).0 <= Extents(ac, calcRange, frameInv).1
  {
    var elems := Filter(ac, RangeFilter);
    var rs := Ranges(elems, calcRange, frameInv);
    FoldMinBelow(rs);
    FoldMaxAbove(rs);
    assert elems[0] in elems;
  }

  /**
   * get_keyframe_extents: folds MIN2/MAX2 over the filtered channels from the
   * seeds; an empty list gives the scene's frame range, or (-5, 100) without
   * a scene.
   */
  method GetKeyframeExtents(ac: AnimContext, calcRange: seq<Key> -> (real, real),
                            frameInv: (ObjectRef, real) -> real)
    returns (min: real, max: real)
    ensures (min, max) == Extents(ac, calcRange, frameInv)
    ensures Filter(ac, RangeFilter) == [] && ac.scene != null ==> min == ac.scene.sfra as real && max == ac.scene.efra as real
    ensures Filter(ac, RangeFilter) == [] && ac.scene == null ==> min == -5.0 && max == 100.0
  {
    var elems := Filter(ac, RangeFilter);
    min := MinSeed;
    max := MaxSeed;
    if elems != [] {
      var n := 0;
      while n < |elems|
        invariant 0 <= n <= |elems|
        invariant min == FoldMin(Ranges(elems[..n], calcRange, frameInv))
        invariant max == FoldMax(Ranges(elems[..n], calcRange, frameInv))
      {
        var e := elems[n];
        var r := calcRange(e.curve.keys);
        var tmin, tmax := r.0, r.1;
        if e.nlaOwner.Some? {
          tmin := frameInv(e.nlaOwner.value, tmin);
          tmax := frameInv(e.nlaOwner.value, tmax);
        }
        min := Min(min, tmin);
        max := Max(max, tmax);
        assert elems[..n + 1][..n] == elems[..n];
        n := n + 1;
      }
      assert elems[..n] == elems;
    } else if ac.scene != null {
      min := ac.scene.sfra as real;
      max := ac.scene.efra as real;
    } else {
      min := -5.0;
      max := 100.0;
    }
  }

  /**
   * actkeys_previewrange_exec: without an editor context or a scene the
   * operator is cancelled and changes nothing; otherwise the preview range
   * becomes the extents rounded to whole frames.
   */
  method PreviewRangeExec(ctx: Option<AnimContext>, calcRange: seq<Key> -> (real, real),
                          frameInv: (ObjectRef, real) -> real)
    returns (status: Status)
    modifies SceneOf(ctx)`psfra, SceneOf(ctx)`pefra
    ensures status == Cancelled <==> ctx.None? || ctx.value.scene == null
    ensures status != Cancelled ==> status == Finished
    ensures status == Finished ==>
              var ex := old(Extents(ctx.value, calcRange, frameInv));
              ctx.value.scene.psfra == RoundFrame(ex.0) && ctx.value.scene.pefra == RoundFrame(ex.1)
  {
    if ctx.None? {
      return Cancelled;
    }
    var ac := ctx.value;
    if ac.scene == null {
      return Cancelled;
    }
    var scene := ac.scene;
    ghost var ex := Extents(ac, calcRange, frameInv);
    assert forall c :: c in Curves(Filter(ac, RangeFilter)) ==> allocated(c);
    var min, max := GetKeyframeExtents(ac, calcRange, frameInv);
    assert (min, max) == ex;
    scene.psfra := RoundFrame(min);
    scene.pefra := RoundFrame(max);
    status := Finished;
  }

  /** The rectangle view-all shows for extents (min, max) and mask height h. */
  function PaddedView(min: real, max: real, mask: PixelRect): (r: Rect)
    ensures r.xmax - r.xmin == 1.2 * (max - min)
    ensures r.xmin + r.xmax == min + max
    ensures min <= max ==> r.xmin <= min && max <= r.xmax
    ensures r.ymax == 0.0 && r.ymin == -((mask.ymax - mask.ymin) as real)
  {
    var extra := 0.1 * (max - min);
    Rect(min - extra, max + extra, (-(mask.ymax - mask.ymin)) as real, 0.0)
  }

  /**
   * actkeys_viewall_exec: without an editor context the operator is
   * cancelled; otherwise the region's visible rectangle becomes the extents
   * widened by a tenth of their width on each side, from minus the mask height
   * up to 0.
   */
  method ViewAllExec(ctx: Option<AnimContext>, calcRange: seq<Key> -> (real, real),
                     frameInv: (ObjectRef, real) -> real)
    returns (status: Status)
    modifies if ctx.Some? then {ctx.value.region} else {}
    ensures status == Cancelled <==> ctx.None?
    ensures status != Cancelled ==> status == Finished
    ensures ctx.Some? ==>
              var ex := old(Extents(ctx.value, calcRange, frameInv));
              ctx.value.region.cur == PaddedView(ex.0, ex.1, old(ctx.value.region.mask))
              && ctx.value.region.mask == old(ctx.value.region.mask)
  {
    if ctx.None? {
      return Cancelled;
    }
    var v2d := ctx.value.region;
    ghost var ex := Extents(ctx.value, calcRange, frameInv);
    assert forall c :: c in Curves(Filter(ctx.value, RangeFilter)) ==> allocated(c);
    var min, max := GetKeyframeExtents(ctx.value, calcRange, frameInv);
    assert (min, max) == ex;
    var extra := 0.1 * (max - min);
    v2d.cur := v2d.cur.(xmin := min - extra, xmax := max + extra);
    v2d.cur := v2d.cur.(ymax := 0.0);
    v2d.cur := v2d.cur.(ymin := (-(v2d.mask.ymax - v2d.mask.ymin)) as real);
    status := Finished;
  }
}
