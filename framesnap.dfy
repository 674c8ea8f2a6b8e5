/**
 * Snapping the current frame to the average time of the selected keys
 * (bezt_calc_average and actkeys_cfrasnap_exec). Only the key itself (f2)
 * counts as selected here, not its handles.
 */
module FrameSnap {
  import opened Anim

  /** ANIMFILTER_VISIBLE | ANIMFILTER_CURVESONLY: hidden channels are skipped, locked ones are not. */
  const SnapFilter: set<FilterBit> := {Visible, CurvesOnly}

  /** The sum of the times of the keys whose f2 carries SELECT. */
  function SelSum(ks: seq<Key>): real {
    if ks == [] then 0.0
    else SelSum(ks[..|ks| - 1]) + (if ks[|ks| - 1].f2 then ks[|ks| - 1].time else 0.0)
  }

  /** The number of keys whose f2 carries SELECT. */
  function SelCount(ks: seq<Key>): nat {
    if ks == [] then 0
    else SelCount(ks[..|ks| - 1]) + (if ks[|ks| - 1].f2 then 1 else 0)
  }

  /** SelSum over the curves of a channel list. */
  function ChannelSum(elems: seq<ListElem>): real
    reads Curves(elems)
  {
    if elems == [] then 0.0
    else
      assert elems[|elems| - 1] in elems;
      ChannelSum(elems[..|elems| - 1]) + SelSum(elems[|elems| - 1].curve.keys)
  }

  /** SelCount over the curves of a channel list. */
  function ChannelCount(elems: seq<ListElem>): nat
    reads Curves(elems)
  {
    if elems == [] then 0
    else
      assert elems[|elems| - 1] in elems;
      ChannelCount(elems[..|elems| - 1]) + SelCount(elems[|elems| - 1].curve.keys)
  }

  /**
   * The bezier-key loop with bezt_calc_average over every channel: the sum of
   * the selected key times (bed.f1) and their number (bed.i1).
   */
  method CalcAverage(elems: seq<ListElem>) returns (sum: real, count: nat)
    ensures sum == ChannelSum(elems) && count == ChannelCount(elems)
  {
    sum, count := 0.0, 0;
    var i := 0;
    while i < |elems|
      invariant 0 <= i <= |elems|
      invariant sum == ChannelSum(elems[..i]) && count == ChannelCount(elems[..i])
    {
      assert elems[i] in elems;
      var ks := elems[i].curve.keys;
      var k := 0;
      while k < |ks|
        invariant 0 <= k <= |ks|
        invariant sum == ChannelSum(elems[..i]) + SelSum(ks[..k])
        invariant count == ChannelCount(elems[..i]) + SelCount(ks[..k])
      {
        assert ks[..k + 1][..k] == ks[..k];
        if ks[k].f2 {
          sum := sum + ks[k].time;
          count := count + 1;
        }
        k := k + 1;
      }
      assert ks[..k] == ks;
      assert elems[..i + 1][..i] == elems[..i];
      i := i + 1;
    }
    assert elems[..i] == elems;
  }

  /** Every selected key's time lies in [lo, hi]. */
  predicate SelWithin(ks: seq<Key>, lo: real, hi: real) {
    forall i :: 0 <= i < |ks| && ks[i].f2 ==> lo <= ks[i].time <= hi
  }

  /** `x` added up `n` times. */
  function Times(x: real, n: nat): real {
    if n == 0 then 0.0 else Times(x, n - 1) + x
  }

  lemma {:induction false} TimesAdd(x: real, m: nat, n: nat)
    ensures Times(x, m + n) == Times(x, m) + Times(x, n)
  {
    if n > 0 {
      TimesAdd(x, m, n - 1);
    }
  }

  lemma {:induction false} TimesProduct(x: real, n: nat)
    ensures Times(x, n) == x * n as real
  {
    if n > 0 {
      TimesProduct(x, n - 1);
      assert x * n as real == x * (n - 1) as real + x;
    }
  }

  lemma {:induction false} SelBounds(ks: seq<Key>, lo: real, hi: real)
    requires SelWithin(ks, lo, hi)
    ensures Times(lo, SelCount(ks)) <= SelSum(ks) <= Times(hi, SelCount(ks))
  {
    if ks != [] {
      var init := ks[..|ks| - 1];
      assert SelWithin(init, lo, hi) by {
        forall i | 0 <= i < |init| && init[i].f2 ensures lo <= init[i].time <= hi {
          assert init[i] == ks[i];
        }
      }
      SelBounds(init, lo, hi);
    }
  }

  lemma {:induction false} ChannelBounds(elems: seq<ListElem>, lo: real, hi: real)
    requires forall j :: 0 <= j < |elems| ==> SelWithin(elems[j].curve.keys, lo, hi)
    ensures Times(lo, ChannelCount(elems)) <= ChannelSum(elems) <= Times(hi, ChannelCount(elems))
  {
    if elems != [] {
      var init := elems[..|elems| - 1];
      var ks := elems[|elems| - 1].curve.keys;
      assert forall j :: 0 <= j < |init| ==> init[j] == elems[j];
      ChannelBounds(init, lo, hi);
      SelBounds(ks, lo, hi);
      TimesAdd(lo, ChannelCount(init), SelCount(ks));
      TimesAdd(hi, ChannelCount(init), SelCount(ks));
    }
  }

  /** A quotient of a sum lying between lo * n and hi * n lies between lo and hi. */
  lemma {:induction false} DivBounds(s: real, n: real, lo: real, hi: real)
    requires n > 0.0 && lo * n <= s <= hi * n
    ensures lo <= s / n <= hi
  {
    var q := s / n;
    assert q * n == s;
    assert (q - lo) * n == s - lo * n;
    assert (hi - q) * n == hi * n - s;
  }

  /** A sum of `count` values between lo and hi, divided by count, lies between lo and hi. */
  lemma {:induction false} MeanBetween(sum: real, count: nat, lo: real, hi: real)
    requires count > 0 && Times(lo, count) <= sum <= Times(hi, count)
    ensures lo <= sum / count as real <= hi
  {
    TimesProduct(lo, count);
    TimesProduct(hi, count);
    DivBounds(sum, count as real, lo, hi);
  }

  /**
   * The average of the selected key times lies between the earliest and the
   * latest of them: with every selected key in [lo, hi] and at least one
   * selected key, lo <= sum / count <= hi.
   */
  lemma {:induction false} AverageWithin(elems: seq<ListElem>, lo: real, hi: real)
    requires ChannelCount(elems) > 0
    requires forall j :: 0 <= j < |elems| ==> SelWithin(elems[j].curve.keys, lo, hi)
    ensures lo <= ChannelSum(elems) / ChannelCount(elems) as real <= hi
  {
    ChannelBounds(elems, lo, hi);
    MeanBetween(ChannelSum(elems), ChannelCount(elems), lo, hi);
  }

  /** C's floor() is monotone. */
  lemma {:induction false} FloorMonotone(a: real, b: real)
    requires a <= b
    ensures Floor(a) <= Floor(b)
  {
  }

  /**
   * The frame the current-frame snap picks lies between the rounded earliest
   * and the rounded latest selected key time.
   */
  lemma {:induction false} SnappedFrameWithin(elems: seq<ListElem>, lo: real, hi: real)
    requires ChannelCount(elems) > 0
    requires forall j :: 0 <= j < |elems| ==> SelWithin(elems[j].curve.keys, lo, hi)
    ensures RoundFrame(lo) <= RoundFrame(ChannelSum(elems) / ChannelCount(elems) as real) <= RoundFrame(hi)
  {
    var avg := ChannelSum(elems) / ChannelCount(elems) as real;
    AverageWithin(elems, lo, hi);
    FloorMonotone(lo + 0.5, avg + 0.5);
    FloorMonotone(avg + 0.5, hi + 0.5);
  }

  /**
   * actkeys_cfrasnap_exec: cancelled without an editor context; otherwise,
   * when some filtered key is selected, the current frame becomes the average
   * selected key time rounded half up, and with no selected key it stays.
   */
  method CfraSnapExec(ctx: Option<AnimContext>) returns (status: Status)
    requires ctx.Some? && ChannelCount(Filter(ctx.value, SnapFilter)) > 0 ==> ctx.value.scene != null
    modifies SceneOf(ctx)`cfra
    ensures status == Cancelled <==> ctx.None?
    ensures status != Cancelled ==> status == Finished
    ensures ctx.Some? ==>
              var elems := Filter(ctx.value, SnapFilter);
              var count := old(ChannelCount(elems));
              (count > 0 ==> ctx.value.scene.cfra == RoundFrame(old(ChannelSum(elems)) / count as real))
              && (count == 0 && ctx.value.scene != null ==> ctx.value.scene.cfra == old(ctx.value.scene.cfra))
  {
    if ctx.None? {
      return Cancelled;
    }
    var ac := ctx.value;
    var elems := Filter(ac, SnapFilter);
    assert forall j :: 0 <= j < |elems| ==> elems[j] in ac.channels;
    assert forall c :: c in Curves(elems) ==> allocated(c);
    ghost var s0, c0 := ChannelSum(elems), ChannelCount(elems);
    var sum, count := CalcAverage(elems);
    assert sum == s0 && count == c0;
    if count != 0 {
      var scene := ac.scene;
      scene.cfra := RoundFrame(sum / count as real);
    }
    status := Finished;
  }
}
