/**
 * Data model shared by the dope-sheet keyframe operators: keyframes (BezTriple),
 * F-Curves, the filtered channel list, the scene fields the operators read or
 * write, the 2D view, and the animation-editor context.
 *
 * Algorithms whose code is not part of this model (curve evaluation, the
 * per-key edit callbacks, NLA remapping, ...) are passed to the operators as
 * function parameters. The one exception is key insertion (`InsertVert`): the
 * sample operator's index arithmetic depends on how insertion shifts the keys,
 * so a stand-in with the contract the operator relies on is defined here.
 */
module Anim {

  datatype Option<T> = None | Some(value: T)

  /** Handle types HD_FREE, HD_AUTO, HD_VECT, HD_ALIGN. */
  datatype HandleType = Free | Auto | Vector | Align

  /** Interpolation modes BEZT_IPO_CONST, BEZT_IPO_LIN, BEZT_IPO_BEZ. */
  datatype Interpolation = Constant | Linear | Bezier

  /** F-Curve extrapolation modes FCURVE_EXTRAPOLATE_CONSTANT and FCURVE_EXTRAPOLATE_LINEAR. */
  datatype Extrapolation = ExtendConstant | ExtendLinear

  /**
   * One keyframe point. `time` and `value` are vec[1][0] and vec[1][1]; `f1`,
   * `f2`, `f3` are the SELECT bits of the left handle, the key and the right
   * handle; `h1`, `h2` the two handle types. Handle positions are not modelled.
   */
  datatype Key = Key(time: real, value: real, f1: bool, f2: bool, f3: bool,
                     h1: HandleType, h2: HandleType, ipo: Interpolation)

  /** BEZSELECTED: any of the three sub-elements carries SELECT. */
  predicate Selected(k: Key) {
    k.f1 || k.f2 || k.f3
  }

  /** C's floor() on a frame time. */
  function Floor(x: real): (r: int)
    ensures r as real <= x < r as real + 1.0
  {
    assert x.Floor as real <= x < x.Floor as real + 1.0;
    var r: int :| r as real <= x < r as real + 1.0; r
  }

  /** C's ceil() on a frame time. */
  function Ceiling(x: real): (r: int)
    ensures r as real - 1.0 < x <= r as real
  {
    assert -((-x).Floor) as real - 1.0 < x <= -((-x).Floor) as real;
    var r: int :| r as real - 1.0 < x <= r as real; r
  }

  /** `(int)floor(x + 0.5f)`: round half up to a whole frame. */
  function RoundFrame(x: real): (r: int)
    ensures x - 0.5 < r as real <= x + 0.5
  {
    Floor(x + 0.5)
  }

  /** A time that lies exactly on a frame. */
  predicate IsWhole(x: real) {
    Floor(x) as real == x
  }

  /** Keys in non-decreasing time order: the order an F-Curve keeps its points in. */
  predicate Sorted(ks: seq<Key>) {
    forall i, j :: 0 <= i < j < |ks| ==> ks[i].time <= ks[j].time
  }

  /** The set of times at which a key sequence has a key. */
  function KeyTimes(ks: seq<Key>): set<real> {
    set k | k in ks :: k.time
  }

  /** Applies a per-key edit callback to every key, as the bezier-key loop does. */
  function MapKeys(f: Key -> Key, ks: seq<Key>): (r: seq<Key>)
    ensures |r| == |ks|
    ensures forall i :: 0 <= i < |ks| ==> r[i] == f(ks[i])
  {
    seq(|ks|, i requires 0 <= i < |ks| => f(ks[i]))
  }

  /** The key insertion creates: selected on all three parts, automatic handles, Bezier interpolation. */
  function NewKey(t: real, v: real): Key {
    Key(t, v, true, true, true, Auto, Auto, Bezier)
  }

  /**
   * Stand-in for inserting one vertex into an F-Curve: walking the keys in
   * order, a key already at time `t` is replaced by the new key, otherwise the
   * new key goes in front of the first later key.
   */
  function InsertVert(ks: seq<Key>, t: real, v: real): seq<Key> {
    if ks == [] || t < ks[0].time then [NewKey(t, v)] + ks
    else if ks[0].time == t then [NewKey(t, v)] + ks[1..]
    else [ks[0]] + InsertVert(ks[1..], t, v)
  }

  /** Every key of `ks` is at `lo` or later. */
  predicate NotBefore(ks: seq<Key>, lo: real) {
    forall i :: 0 <= i < |ks| ==> lo <= ks[i].time
  }

  lemma {:induction false} SortedCons(k: Key, ks: seq<Key>)
    requires Sorted(ks) && NotBefore(ks, k.time)
    ensures Sorted([k] + ks)
  {
    var r := [k] + ks;
    forall i, j | 0 <= i < j < |r| ensures r[i].time <= r[j].time {
      assert r[j] == ks[j - 1];
      if i > 0 {
        assert r[i] == ks[i - 1];
      }
    }
  }

  lemma {:induction false} InsertVertNotBefore(ks: seq<Key>, t: real, v: real, lo: real)
    requires NotBefore(ks, lo) && lo <= t
    ensures NotBefore(InsertVert(ks, t, v), lo)
  {
    if ks != [] && t > ks[0].time {
      assert NotBefore(ks[1..], lo) by {
        forall i | 0 <= i < |ks[1..]| ensures lo <= ks[1..][i].time {
          assert ks[1..][i] == ks[i + 1];
        }
      }
      InsertVertNotBefore(ks[1..], t, v, lo);
    }
  }

  lemma {:induction false} InsertVertSorted(ks: seq<Key>, t: real, v: real)
    requires Sorted(ks)
    ensures Sorted(InsertVert(ks, t, v))
  {
    if ks == [] || t < ks[0].time {
      SortedCons(NewKey(t, v), ks);
    } else if ks[0].time == t {
      SortedCons(NewKey(t, v), ks[1..]);
    } else {
      assert Sorted(ks[1..]) && NotBefore(ks[1..], ks[0].time);
      InsertVertSorted(ks[1..], t, v);
      InsertVertNotBefore(ks[1..], t, v, ks[0].time);
      SortedCons(ks[0], InsertVert(ks[1..], t, v));
    }
  }

  lemma {:induction false} KeyTimesCons(k: Key, ks: seq<Key>)
    ensures KeyTimes([k] + ks) == {k.time} + KeyTimes(ks)
  {
    var r := [k] + ks;
    forall x | x in KeyTimes(r) ensures x in {k.time} + KeyTimes(ks) {
      var j :| 0 <= j < |r| && r[j].time == x;
      if j > 0 {
        assert r[j] == ks[j - 1];
      }
    }
    forall x | x in KeyTimes(ks) ensures x in KeyTimes(r) {
      var j :| 0 <= j < |ks| && ks[j].time == x;
      assert r[j + 1] == ks[j];
    }
    assert r[0] == k;
  }

  /** Insertion keeps every time the curve had and adds `t`. */
  lemma {:induction false} InsertVertTimes(ks: seq<Key>, t: real, v: real)
    ensures KeyTimes(InsertVert(ks, t, v)) == KeyTimes(ks) + {t}
  {
    if ks == [] || t < ks[0].time {
      KeyTimesCons(NewKey(t, v), ks);
    } else {
      assert ks == [ks[0]] + ks[1..];
      KeyTimesCons(ks[0], ks[1..]);
      if ks[0].time == t {
        KeyTimesCons(NewKey(t, v), ks[1..]);
      } else {
        InsertVertTimes(ks[1..], t, v);
        KeyTimesCons(ks[0], InsertVert(ks[1..], t, v));
      }
    }
  }

  /** Filter bits passed to the channel filter (ANIMFILTER_*). */
  datatype FilterBit = Visible | Sel | ForEdit | CurvesOnly | ActGrouped

  /** The data block that owns a curve (ale->id). */
  datatype IdRef = IdRef(name: string)

  /** An object whose NLA strip scales the curve's time (what the NLA mapping lookup returns). */
  datatype ObjectRef = ObjectRef(name: string)

  /**
   * An animation curve; its keys and extrapolation mode are updated in place.
   * The property it animates (RNA path and array index) and its group do not
   * change under the dope-sheet operators.
   */
  class FCurve {
    var keys: seq<Key>
    var extend: Extrapolation
    /** Value of the curve at the current frame (fcu->curval). */
    var curval: real
    /** Name of the group the curve belongs to, if any. */
    const group: Option<string>
    const rnaPath: string
    const arrayIndex: int

    constructor(keys: seq<Key>, extend: Extrapolation, curval: real, group: Option<string>,
                rnaPath: string, arrayIndex: int)
      ensures this.keys == keys && this.extend == extend && this.curval == curval
      ensures this.group == group && this.rnaPath == rnaPath && this.arrayIndex == arrayIndex
    {
      this.keys := keys;
      this.extend := extend;
      this.curval := curval;
      this.group := group;
      this.rnaPath := rnaPath;
      this.arrayIndex := arrayIndex;
    }
  }

  /** One element of a filtered channel list: the curve, its owning ID and its NLA owner. */
  datatype ListElem = ListElem(curve: FCurve, id: Option<IdRef>, nlaOwner: Option<ObjectRef>)

  function Curves(elems: seq<ListElem>): set<FCurve> {
    set e | e in elems :: e.curve
  }

  /** No curve appears twice in a filtered list. */
  predicate DistinctCurves(elems: seq<ListElem>) {
    forall i, j :: 0 <= i < j < |elems| ==> elems[i].curve != elems[j].curve
  }

  /** A scene marker; `selected` is its SELECT flag. */
  datatype TimeMarker = TimeMarker(frame: int, selected: bool)

  /** The scene fields these operators use: render range, preview range, current frame, markers. */
  class Scene {
    var sfra: int
    var efra: int
    var psfra: int
    var pefra: int
    var cfra: int
    var markers: seq<TimeMarker>
  }

  /** A possibly missing scene as a set, for frames. */
  function SceneSet(s: Scene?): set<Scene> {
    if s != null then {s} else {}
  }

  /** A float rectangle (rctf). */
  datatype Rect = Rect(xmin: real, xmax: real, ymin: real, ymax: real)

  /** An integer rectangle (rcti). */
  datatype PixelRect = PixelRect(xmin: int, xmax: int, ymin: int, ymax: int)

  /** The part of a region's View2D that view-all writes: the visible rectangle and the mask. */
  class View2D {
    var cur: Rect
    var mask: PixelRect
  }

  /**
   * The editor context (bAnimContext). `channels` are the channels of the
   * editor's data in display order; `passes(bits, e)` says whether channel `e`
   * passes the filter bits. `isGpencil` is the grease-pencil data type.
   */
  datatype AnimContext = AnimContext(scene: Scene?, region: View2D, isGpencil: bool,
                                     channels: seq<ListElem>,
                                     passes: (set<FilterBit>, ListElem) -> bool)

  /** The channels of `chs` that pass the filter bits, in order. */
  function FilterSeq(chs: seq<ListElem>, bits: set<FilterBit>, passes: (set<FilterBit>, ListElem) -> bool)
    : (r: seq<ListElem>)
    ensures forall j :: 0 <= j < |r| ==> r[j] in chs && passes(bits, r[j])
  {
    if chs == [] then []
    else FilterSeq(chs[..|chs| - 1], bits, passes) + (if passes(bits, chs[|chs| - 1]) then [chs[|chs| - 1]] else [])
  }

  /** Every channel that passes the filter bits is kept. */
  lemma {:induction false} FilterSeqComplete(chs: seq<ListElem>, bits: set<FilterBit>,
                                             passes: (set<FilterBit>, ListElem) -> bool)
    ensures forall e :: e in chs && passes(bits, e) ==> e in FilterSeq(chs, bits, passes)
  {
    if chs != [] {
      var init := chs[..|chs| - 1];
      FilterSeqComplete(init, bits, passes);
      forall e | e in chs && passes(bits, e)
        ensures e in FilterSeq(chs, bits, passes)
      {
        if e != chs[|chs| - 1] {
          var k :| 0 <= k < |chs| && chs[k] == e;
          assert init[k] == e;
        }
      }
    }
  }

  /** Filtering keeps list order: filtering two lists one after the other filters their concatenation. */
  lemma {:induction false} FilterSeqAppend(xs: seq<ListElem>, ys: seq<ListElem>, bits: set<FilterBit>,
                                           passes: (set<FilterBit>, ListElem) -> bool)
    ensures FilterSeq(xs + ys, bits, passes) == FilterSeq(xs, bits, passes) + FilterSeq(ys, bits, passes)
    decreases |ys|
  {
    if ys == [] {
      assert xs + ys == xs;
    } else {
      var ys' := ys[..|ys| - 1];
      assert (xs + ys)[..|xs + ys| - 1] == xs + ys';
      FilterSeqAppend(xs, ys', bits, passes);
    }
  }

  /** The filtered channel list (ANIM_animdata_filter). */
  function Filter(ac: AnimContext, bits: set<FilterBit>): seq<ListElem> {
    FilterSeq(ac.channels, bits, ac.passes)
  }

  /** The editor's data names each curve in one channel only. */
  ghost predicate WellFormed(ac: AnimContext) {
    DistinctCurves(ac.channels)
  }

  /** Filtering keeps the channels' curves distinct. */
  lemma {:induction false} FilterSeqDistinct(chs: seq<ListElem>, bits: set<FilterBit>,
                                             passes: (set<FilterBit>, ListElem) -> bool)
    requires DistinctCurves(chs)
    ensures DistinctCurves(FilterSeq(chs, bits, passes))
  {
    if chs != [] {
      var init := chs[..|chs| - 1];
      var last := chs[|chs| - 1];
      assert DistinctCurves(init) by {
        forall i, j | 0 <= i < j < |init| ensures init[i].curve != init[j].curve {
          assert init[i] == chs[i] && init[j] == chs[j];
        }
      }
      FilterSeqDistinct(init, bits, passes);
      var r0 := FilterSeq(init, bits, passes);
      forall j | 0 <= j < |r0| ensures r0[j].curve != last.curve {
        var k :| 0 <= k < |init| && init[k] == r0[j];
        assert chs[k] == init[k];
      }
    }
  }

  /** Every filtered list of a well-formed context names each curve once. */
  lemma {:induction false} FilterDistinct(ac: AnimContext, bits: set<FilterBit>)
    requires WellFormed(ac)
    ensures DistinctCurves(Filter(ac, bits))
  {
    FilterSeqDistinct(ac.channels, bits, ac.passes);
  }

  /** The scene a context carries, as a frame for the operators that write it. */
  function SceneOf(ctx: Option<AnimContext>): set<Scene> {
    if ctx.Some? then SceneSet(ctx.value.scene) else {}
  }

  /** Operator return codes. */
  datatype Status = Finished | Cancelled | PassThrough
}
