/**
 * The keyframe-editing operators of the dope sheet: insert, duplicate,
 * delete, clean, sample, extrapolation, interpolation, handle type, snap and
 * mirror. Each runs the channel filter and then edits every filtered curve in
 * list order; the per-key algorithms they hand the curves to are not part of
 * this model and are passed in as functions.
 */
module KeyframeEdit {
  import opened Anim
  import KeyframeSample

  /** ANIMFILTER_VISIBLE | ANIMFILTER_FOREDIT | ANIMFILTER_CURVESONLY. */
  const CurveFilter: set<FilterBit> := {Visible, ForEdit, CurvesOnly}

  /** The filter of clean: the curve filter restricted to selected channels. */
  const CleanFilter: set<FilterBit> := {Visible, ForEdit, Sel, CurvesOnly}

  /** Delete, duplicate, snap and mirror drop CurvesOnly for grease-pencil data. */
  function EditFilter(isGpencil: bool): set<FilterBit> {
    if isGpencil then {Visible, ForEdit} else CurveFilter
  }

  /** The curves a context's filter yields, or none without a context. */
  function ChannelCurves(ctx: Option<AnimContext>, bits: set<FilterBit>): set<FCurve> {
    if ctx.Some? then Curves(Filter(ctx.value, bits)) else {}
  }

  /**
   * The keys curve `c` ends with when the channels of `elems` are edited in
   * list order starting from `ks`: every channel that lists `c` applies
   * `edit` once more, so a curve listed twice (an action shared by two
   * owners) is edited twice, and a curve no channel lists keeps `ks`.
   */
  function EditedKeys(elems: seq<ListElem>, c: FCurve, ks: seq<Key>,
                      edit: (ListElem, seq<Key>) -> seq<Key>): seq<Key>
  {
    if elems == [] then ks
    else
      var prev := EditedKeys(elems[..|elems| - 1], c, ks, edit);
      if elems[|elems| - 1].curve == c then edit(elems[|elems| - 1], prev) else prev
  }

  /** The number of channels of `elems` that list curve `c`. */
  function Listings(elems: seq<ListElem>, c: FCurve): nat {
    if elems == [] then 0
    else Listings(elems[..|elems| - 1], c) + (if elems[|elems| - 1].curve == c then 1 else 0)
  }

  /** `f` applied `n` times to `ks`. */
  function Iterate(f: seq<Key> -> seq<Key>, n: nat, ks: seq<Key>): seq<Key> {
    if n == 0 then ks else f(Iterate(f, n - 1, ks))
  }

  /** The per-channel edit that ignores the channel and runs `f` on its keys. */
  function KeysEdit(f: seq<Key> -> seq<Key>): (ListElem, seq<Key>) -> seq<Key> {
    (e, ks) => f(ks)
  }

  /** A curve that no channel lists keeps its keys. */
  lemma {:induction false} EditedUnlisted(elems: seq<ListElem>, c: FCurve, ks: seq<Key>,
                                          edit: (ListElem, seq<Key>) -> seq<Key>)
    requires forall j :: 0 <= j < |elems| ==> elems[j].curve != c
    ensures EditedKeys(elems, c, ks, edit) == ks
  {
    if elems != [] {
      var init := elems[..|elems| - 1];
      assert forall j :: 0 <= j < |init| ==> init[j] == elems[j];
      EditedUnlisted(init, c, ks, edit);
    }
  }

  /** When no curve is listed twice, every listed curve is edited exactly once. */
  lemma {:induction false} EditedOnce(elems: seq<ListElem>, j: int, ks: seq<Key>,
                                      edit: (ListElem, seq<Key>) -> seq<Key>)
    requires DistinctCurves(elems) && 0 <= j < |elems|
    ensures EditedKeys(elems, elems[j].curve, ks, edit) == edit(elems[j], ks)
  {
    var init := elems[..|elems| - 1];
    assert forall i :: 0 <= i < |init| ==> init[i] == elems[i];
    if j == |elems| - 1 {
      EditedUnlisted(init, elems[j].curve, ks, edit);
    } else {
      assert DistinctCurves(init);
      EditedOnce(init, j, ks, edit);
    }
  }

  /** An edit that ignores the channel runs once per listing of the curve. */
  lemma {:induction false} EditedPerListing(elems: seq<ListElem>, c: FCurve, ks: seq<Key>,
                                            f: seq<Key> -> seq<Key>)
    ensures EditedKeys(elems, c, ks, KeysEdit(f)) == Iterate(f, Listings(elems, c), ks)
  {
    if elems != [] {
      EditedPerListing(elems[..|elems| - 1], c, ks, f);
    }
  }

  /**
   * The per-channel loop every editing operator runs: each channel in list
   * order has `edit` applied to its curve's current keys, so each curve ends
   * with EditedKeys, and with no curve listed twice, with one edit of the keys
   * it had before the loop.
   */
  method EditChannels(elems: seq<ListElem>, edit: (ListElem, seq<Key>) -> seq<Key>)
    modifies Curves(elems)`keys
    ensures forall c :: c in Curves(elems) ==> c.keys == EditedKeys(elems, c, old(c.keys), edit)
    ensures DistinctCurves(elems) ==>
              forall j :: 0 <= j < |elems| ==> elems[j].curve.keys == edit(elems[j], old(elems[j].curve.keys))
  {
    var n := 0;
    while n < |elems|
      invariant 0 <= n <= |elems|
      invariant forall c :: c in Curves(elems) ==> c.keys == EditedKeys(elems[..n], c, old(c.keys), edit)
    {
      assert elems[n] in elems;
      assert elems[..n + 1][..n] == elems[..n];
      var fcu := elems[n].curve;
      fcu.keys := edit(elems[n], fcu.keys);
      n := n + 1;
    }
    assert elems[..n] == elems;
    if DistinctCurves(elems) {
      forall j | 0 <= j < |elems|
        ensures elems[j].curve.keys == edit(elems[j], old(elems[j].curve.keys))
      {
        assert elems[j] in elems;
        EditedOnce(elems, j, old(elems[j].curve.keys), edit);
      }
    }
  }

  // ---------------------------------------------------------------- insert

  /** Keying flags INSERTKEY_MATRIX and INSERTKEY_NEEDED. */
  datatype InsertFlag = InsertMatrix | InsertNeeded

  /** The auto-keying preferences insertion consults (AUTOMATKEY, INSERTNEEDED). */
  datatype AutoKeyPrefs = AutoKeyPrefs(matrix: bool, needed: bool)

  /** A call of insertkey for a channel with an owning data block. */
  datatype InsertRequest = InsertRequest(id: IdRef, group: Option<string>, rnaPath: string,
                                         arrayIndex: int, frame: real, flags: set<InsertFlag>)

  /**
   * The filter of the insert operator for scope `mode`: the curve filter, plus
   * selected channels only for mode 2 (SEL) or the active group only for mode 3
   * (GROUP); any other mode inserts on all channels.
   */
  function InsertFilter(mode: int): (r: set<FilterBit>)
    ensures CurveFilter <= r
    ensures Sel in r <==> mode == 2
    ensures ActGrouped in r <==> mode == 3
    ensures forall b :: b in r ==> b in CurveFilter || b == Sel || b == ActGrouped
  {
    if mode == 2 then CurveFilter + {Sel}
    else if mode == 3 then CurveFilter + {ActGrouped}
    else CurveFilter
  }

  /** The keying flags the auto-keying preferences switch on. */
  function KeyingFlags(p: AutoKeyPrefs): (r: set<InsertFlag>)
    ensures InsertMatrix in r <==> p.matrix
    ensures InsertNeeded in r <==> p.needed
  {
    (if p.matrix then {InsertMatrix} else {}) + (if p.needed then {InsertNeeded} else {})
  }

  /** The insertkey call for one channel: one request when it has an owning data block, none otherwise. */
  function RequestOf(e: ListElem, frame: real, flags: set<InsertFlag>): seq<InsertRequest>
  {
    if e.id.Some? then [InsertRequest(e.id.value, e.curve.group, e.curve.rnaPath, e.curve.arrayIndex, frame, flags)]
    else []
  }

  /** The insertkey calls for the channels that have an owning data block, in list order. */
  function Requests(elems: seq<ListElem>, frame: real, flags: set<InsertFlag>): seq<InsertRequest>
  {
    if elems == [] then []
    else
      assert elems[|elems| - 1] in elems;
      Requests(elems[..|elems| - 1], frame, flags) + RequestOf(elems[|elems| - 1], frame, flags)
  }

  /**
   * Every request is at the given frame with the given flags, and each
   * channel with an owning data block has a request naming that block and the
   * curve's path, index and group.
   */
  lemma {:induction false} RequestsCover(elems: seq<ListElem>, frame: real, flags: set<InsertFlag>)
    ensures forall q :: q in Requests(elems, frame, flags) ==> q.frame == frame && q.flags == flags
    ensures forall j :: 0 <= j < |elems| && elems[j].id.Some? ==>
              InsertRequest(elems[j].id.value, elems[j].curve.group, elems[j].curve.rnaPath,
                            elems[j].curve.arrayIndex, frame, flags) in Requests(elems, frame, flags)
  {
    if elems != [] {
      var init := elems[..|elems| - 1];
      RequestsCover(init, frame, flags);
      forall j | 0 <= j < |init| && elems[j].id.Some?
        ensures InsertRequest(elems[j].id.value, elems[j].curve.group, elems[j].curve.rnaPath,
                              elems[j].curve.arrayIndex, frame, flags) in Requests(elems, frame, flags)
      {
        assert init[j] == elems[j];
      }
    }
  }

  /**
   * The keys a filtered channel ends up with: a channel with an owning data
   * block gets whatever insertkey (`insertKey`, applied to the channel's
   * request and its keys) makes of them; any other curve gets a key at `cfra`
   * with the curve's current value.
   */
  function InsertedKeys(e: ListElem, ks: seq<Key>, curval: real, cfra: real, flags: set<InsertFlag>,
                        insertKey: (InsertRequest, seq<Key>) -> seq<Key>): seq<Key> {
    if e.id.Some? then insertKey(RequestOf(e, cfra, flags)[0], ks) else InsertVert(ks, cfra, curval)
  }

  /** One step of the insertion loop: the channel's insertkey call, or the key inserted directly. */
  method InsertChannel(e: ListElem, cfra: real, flags: set<InsertFlag>,
                       insertKey: (InsertRequest, seq<Key>) -> seq<Key>)
    returns (reqs: seq<InsertRequest>)
    modifies e.curve`keys
    ensures reqs == RequestOf(e, cfra, flags)
    ensures e.curve.keys == InsertedKeys(e, old(e.curve.keys), e.curve.curval, cfra, flags, insertKey)
  {
    var fcu := e.curve;
    if e.id.Some? {
      var q := InsertRequest(e.id.value, fcu.group, fcu.rnaPath, fcu.arrayIndex, cfra, flags);
      reqs := [q];
      fcu.keys := insertKey(q, fcu.keys);
    } else {
      reqs := [];
      fcu.keys := InsertVert(fcu.keys, cfra, fcu.curval);
    }
  }

  /** The per-channel edit of insertion for a curve whose current value is `curval`. */
  function InsertEdit(curval: real, cfra: real, flags: set<InsertFlag>,
                      insertKey: (InsertRequest, seq<Key>) -> seq<Key>): (ListElem, seq<Key>) -> seq<Key> {
    (e, ks) => InsertedKeys(e, ks, curval, cfra, flags, insertKey)
  }

  /** No channel of `elems` that lists curve `c` has an owning data block. */
  predicate OwnerFree(elems: seq<ListElem>, c: FCurve) {
    forall j :: 0 <= j < |elems| && elems[j].curve == c ==> elems[j].id.None?
  }

  /**
   * A curve that some channel lists, and no channel with an owning data block
   * lists, gains exactly the key time `cfra` however often it is listed.
   */
  lemma {:induction false} EditedInsertTimes(elems: seq<ListElem>, c: FCurve, j: int, ks: seq<Key>, curval: real,
                                             cfra: real, flags: set<InsertFlag>,
                                             insertKey: (InsertRequest, seq<Key>) -> seq<Key>)
    requires 0 <= j < |elems| && elems[j].curve == c && OwnerFree(elems, c)
    ensures KeyTimes(EditedKeys(elems, c, ks, InsertEdit(curval, cfra, flags, insertKey))) == KeyTimes(ks) + {cfra}
  {
    var edit := InsertEdit(curval, cfra, flags, insertKey);
    var init := elems[..|elems| - 1];
    var last := elems[|elems| - 1];
    assert forall i :: 0 <= i < |init| ==> init[i] == elems[i];
    assert OwnerFree(init, c);
    var prev := EditedKeys(init, c, ks, edit);
    if last.curve == c {
      if i :| 0 <= i < |init| && init[i].curve == c {
        EditedInsertTimes(init, c, i, ks, curval, cfra, flags, insertKey);
      } else {
        EditedUnlisted(init, c, ks, edit);
      }
      assert last.id.None?;
      InsertVertTimes(prev, cfra, curval);
    } else {
      EditedInsertTimes(init, c, j, ks, curval, cfra, flags, insertKey);
    }
  }

  /**
   * The insertion loop over the filtered channels: the insertkey calls in list
   * order, and each curve's keys as InsertEdit gives them, once per channel
   * that lists it.
   */
  method InsertChannels(elems: seq<ListElem>, cfra: real, flags: set<InsertFlag>,
                        insertKey: (InsertRequest, seq<Key>) -> seq<Key>)
    returns (requests: seq<InsertRequest>)
    modifies Curves(elems)`keys
    ensures requests == Requests(elems, cfra, flags)
    ensures forall c :: c in Curves(elems) ==>
              c.keys == EditedKeys(elems, c, old(c.keys), InsertEdit(c.curval, cfra, flags, insertKey))
    ensures DistinctCurves(elems) ==>
              forall j :: 0 <= j < |elems| ==>
                elems[j].curve.keys == InsertedKeys(elems[j], old(elems[j].curve.keys), elems[j].curve.curval,
                                                    cfra, flags, insertKey)
  {
    requests := [];
    var n := 0;
    while n < |elems|
      invariant 0 <= n <= |elems|
      invariant requests == Requests(elems[..n], cfra, flags)
      invariant forall c :: c in Curves(elems) ==>
                  c.keys == EditedKeys(elems[..n], c, old(c.keys), InsertEdit(c.curval, cfra, flags, insertKey))
    {
      assert elems[n] in elems;
      assert elems[..n + 1][..n] == elems[..n];
      var reqs := InsertChannel(elems[n], cfra, flags, insertKey);
      requests := requests + reqs;
      n := n + 1;
    }
    assert elems[..n] == elems;
    if DistinctCurves(elems) {
      forall j | 0 <= j < |elems|
        ensures elems[j].curve.keys == InsertedKeys(elems[j], old(elems[j].curve.keys), elems[j].curve.curval,
                                                    cfra, flags, insertKey)
      {
        assert elems[j] in elems;
        EditedOnce(elems, j, old(elems[j].curve.keys), InsertEdit(elems[j].curve.curval, cfra, flags, insertKey));
      }
    }
  }

  /**
   * insert_action_keys: every filtered channel gets a key at the scene's
   * current frame (not remapped through the NLA). A channel with an owning data
   * block goes through insertkey, recorded as a request and applied to the
   * channel's keys as `insertKey`; any other curve gets the key inserted
   * directly with the curve's current value, so its key times gain the current
   * frame and lose nothing.
   */
  method InsertActionKeys(ac: AnimContext, mode: int, prefs: AutoKeyPrefs,
                          insertKey: (InsertRequest, seq<Key>) -> seq<Key>)
    returns (requests: seq<InsertRequest>)
    requires ac.scene != null
    modifies Curves(Filter(ac, InsertFilter(mode)))`keys
    ensures var elems := Filter(ac, InsertFilter(mode));
            requests == Requests(elems, old(ac.scene.cfra) as real, KeyingFlags(prefs))
    ensures var elems := Filter(ac, InsertFilter(mode));
            forall c :: c in Curves(elems) ==>
              c.keys == EditedKeys(elems, c, old(c.keys),
                                   InsertEdit(c.curval, old(ac.scene.cfra) as real, KeyingFlags(prefs), insertKey))
    ensures var elems := Filter(ac, InsertFilter(mode));
            forall c :: c in Curves(elems) && OwnerFree(elems, c) ==>
              KeyTimes(c.keys) == KeyTimes(old(c.keys)) + {old(ac.scene.cfra) as real}
    ensures var elems := Filter(ac, InsertFilter(mode));
            DistinctCurves(elems) ==>
              forall j :: 0 <= j < |elems| ==>
                elems[j].curve.keys == InsertedKeys(elems[j], old(elems[j].curve.keys), elems[j].curve.curval,
                                                    old(ac.scene.cfra) as real, KeyingFlags(prefs), insertKey)
    ensures var elems := Filter(ac, InsertFilter(mode));
            DistinctCurves(elems) ==>
              forall j :: 0 <= j < |elems| && elems[j].id.None? ==>
                KeyTimes(elems[j].curve.keys) == KeyTimes(old(elems[j].curve.keys)) + {old(ac.scene.cfra) as real}
  {
    var elems := Filter(ac, InsertFilter(mode));
    var cfra := ac.scene.cfra as real;
    requests := InsertChannels(elems, cfra, KeyingFlags(prefs), insertKey);
    forall c | c in Curves(elems) && OwnerFree(elems, c)
      ensures KeyTimes(c.keys) == KeyTimes(old(c.keys)) + {cfra}
    {
      var j :| 0 <= j < |elems| && elems[j].curve == c;
      EditedInsertTimes(elems, c, j, old(c.keys), c.curval, cfra, KeyingFlags(prefs), insertKey);
    }
    if DistinctCurves(elems) {
      forall j | 0 <= j < |elems| && elems[j].id.None?
        ensures KeyTimes(elems[j].curve.keys) == KeyTimes(old(elems[j].curve.keys)) + {cfra}
      {
        InsertVertTimes(old(elems[j].curve.keys), cfra, elems[j].curve.curval);
      }
    }
  }

  /**
   * actkeys_insertkey_exec: cancelled without an editor context or on
   * grease-pencil data, leaving every curve as it was; otherwise inserts as
   * insert_action_keys does and finishes.
   */
  method InsertKeyExec(ctx: Option<AnimContext>, mode: int, prefs: AutoKeyPrefs,
                       insertKey: (InsertRequest, seq<Key>) -> seq<Key>)
    returns (status: Status, requests: seq<InsertRequest>)
    requires ctx.Some? && !ctx.value.isGpencil ==> ctx.value.scene != null
    modifies ChannelCurves(ctx, InsertFilter(mode))`keys
    ensures status == Cancelled <==> ctx.None? || ctx.value.isGpencil
    ensures status != Cancelled ==> status == Finished
    ensures status == Cancelled ==> requests == []
    ensures status == Cancelled ==> forall c :: c in ChannelCurves(ctx, InsertFilter(mode)) ==> c.keys == old(c.keys)
    ensures status == Finished ==>
              var elems := Filter(ctx.value, InsertFilter(mode));
              requests == Requests(elems, old(ctx.value.scene.cfra) as real, KeyingFlags(prefs))
    ensures status == Finished ==>
              var elems := Filter(ctx.value, InsertFilter(mode));
              forall c :: c in Curves(elems) ==>
                c.keys == EditedKeys(elems, c, old(c.keys),
                                     InsertEdit(c.curval, old(ctx.value.scene.cfra) as real, KeyingFlags(prefs), insertKey))
    ensures status == Finished ==>
              var elems := Filter(ctx.value, InsertFilter(mode));
              DistinctCurves(elems) ==>
                forall j :: 0 <= j < |elems| ==>
                  elems[j].curve.keys == InsertedKeys(elems[j], old(elems[j].curve.keys), elems[j].curve.curval,
                                                      old(ctx.value.scene.cfra) as real, KeyingFlags(prefs), insertKey)
  {
    requests := [];
    if ctx.None? || ctx.value.isGpencil {
      return Cancelled, [];
    }
    requests := InsertActionKeys(ctx.value, mode, prefs, insertKey);
    status := Finished;
  }

  // ------------------------------------------ duplicate, delete and clean

  /** The clean callback with its threshold fixed. */
  function Cleaning(clean: (seq<Key>, real) -> seq<Key>, thresh: real): seq<Key> -> seq<Key> {
    ks => clean(ks, thresh)
  }

  /**
   * duplicate_action_keys: every curve of the edit filter goes through the
   * duplication algorithm once per channel that lists it.
   */
  method DuplicateActionKeys(ac: AnimContext, duplicate: seq<Key> -> seq<Key>)
    modifies Curves(Filter(ac, EditFilter(ac.isGpencil)))`keys
    ensures var elems := Filter(ac, EditFilter(ac.isGpencil));
            forall c :: c in Curves(elems) ==> c.keys == Iterate(duplicate, Listings(elems, c), old(c.keys))
    ensures var elems := Filter(ac, EditFilter(ac.isGpencil));
            DistinctCurves(elems) ==>
              forall j :: 0 <= j < |elems| ==> elems[j].curve.keys == duplicate(old(elems[j].curve.keys))
  {
    var elems := Filter(ac, EditFilter(ac.isGpencil));
    EditChannels(elems, KeysEdit(duplicate));
    forall c | c in Curves(elems)
      ensures c.keys == Iterate(duplicate, Listings(elems, c), old(c.keys))
    {
      EditedPerListing(elems, c, old(c.keys), duplicate);
    }
  }

  /**
   * delete_action_keys: every curve of the edit filter goes through the
   * deletion algorithm once per channel that lists it; curves left empty stay
   * in the list.
   */
  method DeleteActionKeys(ac: AnimContext, delete: seq<Key> -> seq<Key>)
    modifies Curves(Filter(ac, EditFilter(ac.isGpencil)))`keys
    ensures var elems := Filter(ac, EditFilter(ac.isGpencil));
            forall c :: c in Curves(elems) ==> c.keys == Iterate(delete, Listings(elems, c), old(c.keys))
    ensures var elems := Filter(ac, EditFilter(ac.isGpencil));
            DistinctCurves(elems) ==>
              forall j :: 0 <= j < |elems| ==> elems[j].curve.keys == delete(old(elems[j].curve.keys))
  {
    var elems := Filter(ac, EditFilter(ac.isGpencil));
    EditChannels(elems, KeysEdit(delete));
    forall c | c in Curves(elems)
      ensures c.keys == Iterate(delete, Listings(elems, c), old(c.keys))
    {
      EditedPerListing(elems, c, old(c.keys), delete);
    }
  }

  /**
   * clean_action_keys: every selected curve is cleaned with the threshold,
   * once per channel that lists it.
   */
  method CleanActionKeys(ac: AnimContext, thresh: real, clean: (seq<Key>, real) -> seq<Key>)
    modifies Curves(Filter(ac, CleanFilter))`keys
    ensures var elems := Filter(ac, CleanFilter);
            forall c :: c in Curves(elems) ==> c.keys == Iterate(Cleaning(clean, thresh), Listings(elems, c), old(c.keys))
    ensures var elems := Filter(ac, CleanFilter);
            DistinctCurves(elems) ==>
              forall j :: 0 <= j < |elems| ==> elems[j].curve.keys == clean(old(elems[j].curve.keys), thresh)
  {
    var elems := Filter(ac, CleanFilter);
    EditChannels(elems, KeysEdit(Cleaning(clean, thresh)));
    forall c | c in Curves(elems)
      ensures c.keys == Iterate(Cleaning(clean, thresh), Listings(elems, c), old(c.keys))
    {
      EditedPerListing(elems, c, old(c.keys), Cleaning(clean, thresh));
    }
  }

  /**
   * actkeys_duplicate_exec: cancelled without an editor context, otherwise
   * duplicates.
   */
  method DuplicateExec(ctx: Option<AnimContext>, duplicate: seq<Key> -> seq<Key>)
    returns (status: Status)
    modifies ChannelCurves(ctx, EditFilter(ctx.Some? && ctx.value.isGpencil))`keys
    ensures status == Cancelled <==> ctx.None?
    ensures status != Cancelled ==> status == Finished
    ensures status == Finished ==>
              var elems := Filter(ctx.value, EditFilter(ctx.value.isGpencil));
              forall c :: c in Curves(elems) ==> c.keys == Iterate(duplicate, Listings(elems, c), old(c.keys))
    ensures status == Finished ==>
              var elems := Filter(ctx.value, EditFilter(ctx.value.isGpencil));
              DistinctCurves(elems) ==>
                forall j :: 0 <= j < |elems| ==> elems[j].curve.keys == duplicate(old(elems[j].curve.keys))
  {
    if ctx.None? {
      return Cancelled;
    }
    DuplicateActionKeys(ctx.value, duplicate);
    status := Finished;
  }

  /**
   * actkeys_delete_exec: cancelled without an editor context, otherwise
   * deletes.
   */
  method DeleteExec(ctx: Option<AnimContext>, delete: seq<Key> -> seq<Key>)
    returns (status: Status)
    modifies ChannelCurves(ctx, EditFilter(ctx.Some? && ctx.value.isGpencil))`keys
    ensures status == Cancelled <==> ctx.None?
    ensures status != Cancelled ==> status == Finished
    ensures status == Finished ==>
              var elems := Filter(ctx.value, EditFilter(ctx.value.isGpencil));
              forall c :: c in Curves(elems) ==> c.keys == Iterate(delete, Listings(elems, c), old(c.keys))
    ensures status == Finished ==>
              var elems := Filter(ctx.value, EditFilter(ctx.value.isGpencil));
              DistinctCurves(elems) ==>
                forall j :: 0 <= j < |elems| ==> elems[j].curve.keys == delete(old(elems[j].curve.keys))
  {
    if ctx.None? {
      return Cancelled;
    }
    DeleteActionKeys(ctx.value, delete);
    status := Finished;
  }

  /**
   * actkeys_clean_exec: cancelled without an editor context, passed through
   * untouched on grease-pencil data, otherwise cleans.
   */
  method CleanExec(ctx: Option<AnimContext>, thresh: real, clean: (seq<Key>, real) -> seq<Key>)
    returns (status: Status)
    modifies ChannelCurves(ctx, CleanFilter)`keys
    ensures status == Cancelled <==> ctx.None?
    ensures status == PassThrough <==> ctx.Some? && ctx.value.isGpencil
    ensures status != Finished ==> forall c :: c in ChannelCurves(ctx, CleanFilter) ==> c.keys == old(c.keys)
    ensures status == Finished ==>
              var elems := Filter(ctx.value, CleanFilter);
              forall c :: c in Curves(elems) ==> c.keys == Iterate(Cleaning(clean, thresh), Listings(elems, c), old(c.keys))
    ensures status == Finished ==>
              var elems := Filter(ctx.value, CleanFilter);
              DistinctCurves(elems) ==>
                forall j :: 0 <= j < |elems| ==> elems[j].curve.keys == clean(old(elems[j].curve.keys), thresh)
  {
    if ctx.None? {
      return Cancelled;
    }
    if ctx.value.isGpencil {
      return PassThrough;
    }
    CleanActionKeys(ctx.value, thresh, clean);
    status := Finished;
  }

  // ----------------------------------------------------------------- sample

  /**
   * sample_action_keys: every filtered curve is sampled between each pair of
   * consecutive selected keys, under the sampling assumption of each curve.
   */
  method SampleActionKeys(ac: AnimContext, evaluate: (seq<Key>, real) -> real)
    requires WellFormed(ac)
    requires forall e :: e in Filter(ac, CurveFilter) ==> KeyframeSample.SampleReady(e.curve.keys)
    modifies Curves(Filter(ac, CurveFilter))`keys
    ensures var elems := Filter(ac, CurveFilter);
            forall j :: 0 <= j < |elems| ==>
              var ks := old(elems[j].curve.keys);
              elems[j].curve.keys == KeyframeSample.ApplyPairs(ks, KeyframeSample.Pairs(KeyframeSample.SelTimes(ks)), evaluate)
              && Sorted(elems[j].curve.keys)
  {
    FilterDistinct(ac, CurveFilter);
    var elems := Filter(ac, CurveFilter);
    var n := 0;
    while n < |elems|
      invariant 0 <= n <= |elems|
      invariant forall j :: 0 <= j < |elems| ==>
                  var ks := old(elems[j].curve.keys);
                  if j < n then elems[j].curve.keys == KeyframeSample.ApplyPairs(ks, KeyframeSample.Pairs(KeyframeSample.SelTimes(ks)), evaluate)
                                && Sorted(elems[j].curve.keys)
                  else elems[j].curve.keys == ks
    {
      assert elems[n] in elems;
      KeyframeSample.SampleCurve(elems[n].curve, evaluate);
      n := n + 1;
    }
  }

  /**
   * actkeys_sample_exec: cancelled without an editor context, passed through
   * untouched on grease-pencil data, otherwise samples.
   */
  method SampleExec(ctx: Option<AnimContext>, evaluate: (seq<Key>, real) -> real) returns (status: Status)
    requires ctx.Some? && !ctx.value.isGpencil ==> WellFormed(ctx.value)
    requires ctx.Some? && !ctx.value.isGpencil ==>
               forall e :: e in Filter(ctx.value, CurveFilter) ==> KeyframeSample.SampleReady(e.curve.keys)
    modifies ChannelCurves(ctx, CurveFilter)`keys
    ensures status == Cancelled <==> ctx.None?
    ensures status == PassThrough <==> ctx.Some? && ctx.value.isGpencil
    ensures status != Finished ==> forall c :: c in ChannelCurves(ctx, CurveFilter) ==> c.keys == old(c.keys)
    ensures status == Finished ==>
              var elems := Filter(ctx.value, CurveFilter);
              forall j :: 0 <= j < |elems| ==>
                var ks := old(elems[j].curve.keys);
                elems[j].curve.keys == KeyframeSample.ApplyPairs(ks, KeyframeSample.Pairs(KeyframeSample.SelTimes(ks)), evaluate)
                && Sorted(elems[j].curve.keys)
  {
    if ctx.None? {
      return Cancelled;
    }
    if ctx.value.isGpencil {
      return PassThrough;
    }
    SampleActionKeys(ctx.value, evaluate);
    status := Finished;
  }

  // --------------------------------------------- extrapolation, interpolation

  /**
   * setexpo_action_keys: every filtered curve's extrapolation becomes `mode`;
   * nothing else on the curves changes.
   */
  method SetExpoActionKeys(ac: AnimContext, mode: Extrapolation)
    modifies Curves(Filter(ac, CurveFilter))`extend
    ensures forall e :: e in Filter(ac, CurveFilter) ==> e.curve.extend == mode && e.curve.keys == old(e.curve.keys)
  {
    var elems := Filter(ac, CurveFilter);
    var n := 0;
    while n < |elems|
      invariant 0 <= n <= |elems|
      invariant forall j :: 0 <= j < n ==> elems[j].curve.extend == mode
    {
      assert elems[n] in elems;
      elems[n].curve.extend := mode;
      n := n + 1;
    }
  }

  /**
   * actkeys_expo_exec: cancelled without an editor context, passed through
   * untouched on grease-pencil data, otherwise sets the extrapolation.
   */
  method ExpoExec(ctx: Option<AnimContext>, mode: Extrapolation) returns (status: Status)
    modifies ChannelCurves(ctx, CurveFilter)`extend
    ensures status == Cancelled <==> ctx.None?
    ensures status == PassThrough <==> ctx.Some? && ctx.value.isGpencil
    ensures status != Finished ==> forall c :: c in ChannelCurves(ctx, CurveFilter) ==> c.extend == old(c.extend)
    ensures status == Finished ==> forall e :: e in Filter(ctx.value, CurveFilter) ==> e.curve.extend == mode
  {
    if ctx.None? {
      return Cancelled;
    }
    if ctx.value.isGpencil {
      return PassThrough;
    }
    SetExpoActionKeys(ctx.value, mode);
    status := Finished;
  }

  /** The per-curve edit that runs the callback `cb` on every key. */
  function Mapping(cb: Key -> Key): seq<Key> -> seq<Key> {
    ks => MapKeys(cb, ks)
  }

  /**
   * setipo_action_keys: the interpolation callback for `mode` runs on every
   * key of every filtered curve, once per channel that lists the curve.
   */
  method SetIpoActionKeys(ac: AnimContext, mode: Interpolation, ipo: Interpolation -> Key -> Key)
    modifies Curves(Filter(ac, CurveFilter))`keys
    ensures var elems := Filter(ac, CurveFilter);
            forall c :: c in Curves(elems) ==> c.keys == Iterate(Mapping(ipo(mode)), Listings(elems, c), old(c.keys))
    ensures var elems := Filter(ac, CurveFilter);
            DistinctCurves(elems) ==>
              forall j :: 0 <= j < |elems| ==> elems[j].curve.keys == MapKeys(ipo(mode), old(elems[j].curve.keys))
  {
    var elems := Filter(ac, CurveFilter);
    EditChannels(elems, KeysEdit(Mapping(ipo(mode))));
    forall c | c in Curves(elems)
      ensures c.keys == Iterate(Mapping(ipo(mode)), Listings(elems, c), old(c.keys))
    {
      EditedPerListing(elems, c, old(c.keys), Mapping(ipo(mode)));
    }
  }

  /**
   * actkeys_ipo_exec: cancelled without an editor context, passed through
   * untouched on grease-pencil data, otherwise sets the interpolation.
   */
  method IpoExec(ctx: Option<AnimContext>, mode: Interpolation, ipo: Interpolation -> Key -> Key)
    returns (status: Status)
    modifies ChannelCurves(ctx, CurveFilter)`keys
    ensures status == Cancelled <==> ctx.None?
    ensures status == PassThrough <==> ctx.Some? && ctx.value.isGpencil
    ensures status != Finished ==> forall c :: c in ChannelCurves(ctx, CurveFilter) ==> c.keys == old(c.keys)
    ensures status == Finished ==>
              var elems := Filter(ctx.value, CurveFilter);
              forall c :: c in Curves(elems) ==> c.keys == Iterate(Mapping(ipo(mode)), Listings(elems, c), old(c.keys))
    ensures status == Finished ==>
              var elems := Filter(ctx.value, CurveFilter);
              DistinctCurves(elems) ==>
                forall j :: 0 <= j < |elems| ==> elems[j].curve.keys == MapKeys(ipo(mode), old(elems[j].curve.keys))
  {
    if ctx.None? {
      return Cancelled;
    }
    if ctx.value.isGpencil {
      return PassThrough;
    }
    SetIpoActionKeys(ctx.value, mode, ipo);
    status := Finished;
  }

  // ------------------------------------------------------------ handle type

  /** A handle-type request: one of the four types, or toggle (mode -1). */
  datatype HandleMode = SetHandles(handle: HandleType) | ToggleHandles

  /**
   * The check loop of handle toggling: walks the keys in order and stops at
   * the first key the check callback accepts.
   */
  function AnyKey(check: Key -> bool, ks: seq<Key>): (r: bool)
    ensures r <==> exists i :: 0 <= i < |ks| && check(ks[i])
  {
    if ks == [] then false
    else if check(ks[0]) then true
    else
      assert forall i :: 1 <= i < |ks| ==> ks[1..][i - 1] == ks[i];
      AnyKey(check, ks[1..])
  }

  /** The handle type toggling picks for a curve: free if some key passes the check, else aligned. */
  function ToggleType(check: Key -> bool, ks: seq<Key>): HandleType {
    if AnyKey(check, ks) then Free else Align
  }

  /**
   * The keys of one curve after setting handles: the setter for the requested
   * type on every key, or, when toggling, one setter for the whole curve: the
   * free setter exactly when some key passes the check, the aligned setter
   * when none does.
   */
  function HandleKeys(mode: HandleMode, handles: HandleType -> Key -> Key, freeCheck: Key -> bool,
                      ks: seq<Key>): (r: seq<Key>)
    ensures |r| == |ks|
    ensures mode.SetHandles? ==> forall i :: 0 <= i < |ks| ==> r[i] == handles(mode.handle)(ks[i])
    ensures mode.ToggleHandles? && (exists i :: 0 <= i < |ks| && freeCheck(ks[i])) ==>
              forall i :: 0 <= i < |ks| ==> r[i] == handles(Free)(ks[i])
    ensures mode.ToggleHandles? && (forall i :: 0 <= i < |ks| ==> !freeCheck(ks[i])) ==>
              forall i :: 0 <= i < |ks| ==> r[i] == handles(Align)(ks[i])
  {
    match mode
    case SetHandles(h) => MapKeys(handles(h), ks)
    case ToggleHandles => MapKeys(handles(ToggleType(freeCheck, ks)), ks)
  }

  /** The per-curve edit of handle setting. */
  function Handling(mode: HandleMode, handles: HandleType -> Key -> Key, freeCheck: Key -> bool): seq<Key> -> seq<Key> {
    ks => HandleKeys(mode, handles, freeCheck, ks)
  }

  /**
   * sethandles_action_keys: every filtered curve gets its keys' handles set
   * as HandleKeys describes, once per channel that lists it.
   */
  method SetHandlesActionKeys(ac: AnimContext, mode: HandleMode, handles: HandleType -> Key -> Key,
                              freeCheck: Key -> bool)
    modifies Curves(Filter(ac, CurveFilter))`keys
    ensures var elems := Filter(ac, CurveFilter);
            forall c :: c in Curves(elems) ==> c.keys == Iterate(Handling(mode, handles, freeCheck), Listings(elems, c), old(c.keys))
    ensures var elems := Filter(ac, CurveFilter);
            DistinctCurves(elems) ==>
              forall j :: 0 <= j < |elems| ==> elems[j].curve.keys == HandleKeys(mode, handles, freeCheck, old(elems[j].curve.keys))
  {
    var elems := Filter(ac, CurveFilter);
    EditChannels(elems, KeysEdit(Handling(mode, handles, freeCheck)));
    forall c | c in Curves(elems)
      ensures c.keys == Iterate(Handling(mode, handles, freeCheck), Listings(elems, c), old(c.keys))
    {
      EditedPerListing(elems, c, old(c.keys), Handling(mode, handles, freeCheck));
    }
  }

  /**
   * actkeys_handletype_exec: cancelled without an editor context, passed
   * through untouched on grease-pencil data, otherwise sets the handles.
   */
  method HandleTypeExec(ctx: Option<AnimContext>, mode: HandleMode, handles: HandleType -> Key -> Key,
                        freeCheck: Key -> bool)
    returns (status: Status)
    modifies ChannelCurves(ctx, CurveFilter)`keys
    ensures status == Cancelled <==> ctx.None?
    ensures status == PassThrough <==> ctx.Some? && ctx.value.isGpencil
    ensures status != Finished ==> forall c :: c in ChannelCurves(ctx, CurveFilter) ==> c.keys == old(c.keys)
    ensures status == Finished ==>
              var elems := Filter(ctx.value, CurveFilter);
              forall c :: c in Curves(elems) ==> c.keys == Iterate(Handling(mode, handles, freeCheck), Listings(elems, c), old(c.keys))
    ensures status == Finished ==>
              var elems := Filter(ctx.value, CurveFilter);
              DistinctCurves(elems) ==>
                forall j :: 0 <= j < |elems| ==> elems[j].curve.keys == HandleKeys(mode, handles, freeCheck, old(elems[j].curve.keys))
  {
    if ctx.None? {
      return Cancelled;
    }
    if ctx.value.isGpencil {
      return PassThrough;
    }
    SetHandlesActionKeys(ctx.value, mode, handles, freeCheck);
    status := Finished;
  }

  // ------------------------------------------------------- snap and mirror

  /**
   * What the snap and mirror callbacks read from their edit data: the scene's
   * current frame and markers (when there is a scene) and `f1`. The
   * snap-to-nearest-second callback also reads the scene's frame rate through
   * the scene pointer; that rate is not carried here, so a `snap` function
   * passed in must close over it.
   */
  datatype EditData = EditData(cfra: Option<int>, markers: seq<TimeMarker>, f1: real)

  /** The edit data with `bed.scene` set to `s` and `bed.f1` to `f1`. */
  function SceneData(s: Scene?, f1: real): EditData
    reads SceneSet(s)
  {
    if s != null then EditData(Some(s.cfra), s.markers, f1) else EditData(None, [], f1)
  }

  /** Sets every key's time through `m`. */
  function Retime(m: real -> real, ks: seq<Key>): seq<Key> {
    MapKeys((k: Key) => k.(time := m(k.time)), ks)
  }

  /**
   * The keys of one channel after snapping or mirroring with callback `cb`:
   * a channel whose action is scaled by an NLA strip is mapped into scene time
   * (restore flag false), edited, and mapped back (restore flag true).
   * `nlaMap(ob, restore, t)` is what the NLA remapping does to one key time.
   * Without an NLA owner each key is the callback's result; with one, the
   * callback sees the key in scene time and its result is mapped back, so when
   * the two mappings undo each other a key the callback leaves alone comes
   * back exactly as it was.
   */
  function Bracketed(e: ListElem, cb: Key -> Key, nlaMap: (ObjectRef, bool, real) -> real,
                     ks: seq<Key>): (r: seq<Key>)
    ensures |r| == |ks|
    ensures e.nlaOwner.None? ==> forall i :: 0 <= i < |ks| ==> r[i] == cb(ks[i])
    ensures e.nlaOwner.Some? ==>
              forall i :: 0 <= i < |ks| ==>
                var k := cb(ks[i].(time := nlaMap(e.nlaOwner.value, false, ks[i].time)));
                r[i] == k.(time := nlaMap(e.nlaOwner.value, true, k.time))
    ensures e.nlaOwner.Some? ==>
              forall i :: 0 <= i < |ks| ==>
                var k := ks[i].(time := nlaMap(e.nlaOwner.value, false, ks[i].time));
                cb(k) == k && nlaMap(e.nlaOwner.value, true, k.time) == ks[i].time ==> r[i] == ks[i]
  {
    if e.nlaOwner.Some? then
      var ob := e.nlaOwner.value;
      Retime(t => nlaMap(ob, true, t), MapKeys(cb, Retime(t => nlaMap(ob, false, t), ks)))
    else MapKeys(cb, ks)
  }

  /** The snapping modes. */
  datatype SnapMode = SnapCurrentFrame | SnapNearestFrame | SnapNearestSecond | SnapNearestMarker

  /** The per-channel edit of snapping and mirroring: `cb` inside the channel's NLA bracketing. */
  function BracketEdit(cb: Key -> Key, nlaMap: (ObjectRef, bool, real) -> real): (ListElem, seq<Key>) -> seq<Key> {
    (e, ks) => Bracketed(e, cb, nlaMap, ks)
  }

  /**
   * snap_action_keys: every channel of the edit filter is snapped with the
   * callback for `mode`, inside that channel's NLA bracketing, so a curve
   * listed by two owners is snapped through each owner's mapping in turn; the
   * edit data carries the scene and f1 = 0.
   */
  method SnapActionKeys(ac: AnimContext, mode: SnapMode, snap: (SnapMode, EditData) -> Key -> Key,
                        nlaMap: (ObjectRef, bool, real) -> real)
    modifies Curves(Filter(ac, EditFilter(ac.isGpencil)))`keys
    ensures var elems := Filter(ac, EditFilter(ac.isGpencil));
            var cb := snap(mode, old(SceneData(ac.scene, 0.0)));
            forall c :: c in Curves(elems) ==> c.keys == EditedKeys(elems, c, old(c.keys), BracketEdit(cb, nlaMap))
    ensures var elems := Filter(ac, EditFilter(ac.isGpencil));
            var cb := snap(mode, old(SceneData(ac.scene, 0.0)));
            DistinctCurves(elems) ==>
              forall j :: 0 <= j < |elems| ==> elems[j].curve.keys == Bracketed(elems[j], cb, nlaMap, old(elems[j].curve.keys))
  {
    var bed := SceneData(ac.scene, 0.0);
    var editCb := snap(mode, bed);
    EditChannels(Filter(ac, EditFilter(ac.isGpencil)), BracketEdit(editCb, nlaMap));
  }

  /** actkeys_snap_exec: cancelled without an editor context, otherwise snaps. */
  method SnapExec(ctx: Option<AnimContext>, mode: SnapMode, snap: (SnapMode, EditData) -> Key -> Key,
                  nlaMap: (ObjectRef, bool, real) -> real)
    returns (status: Status)
    modifies ChannelCurves(ctx, EditFilter(ctx.Some? && ctx.value.isGpencil))`keys
    ensures status == Cancelled <==> ctx.None?
    ensures status != Cancelled ==> status == Finished
    ensures status == Finished ==>
              var elems := Filter(ctx.value, EditFilter(ctx.value.isGpencil));
              var cb := snap(mode, old(SceneData(ctx.value.scene, 0.0)));
              forall c :: c in Curves(elems) ==> c.keys == EditedKeys(elems, c, old(c.keys), BracketEdit(cb, nlaMap))
    ensures status == Finished ==>
              var elems := Filter(ctx.value, EditFilter(ctx.value.isGpencil));
              var cb := snap(mode, old(SceneData(ctx.value.scene, 0.0)));
              DistinctCurves(elems) ==>
                forall j :: 0 <= j < |elems| ==> elems[j].curve.keys == Bracketed(elems[j], cb, nlaMap, old(elems[j].curve.keys))
  {
    if ctx.None? {
      return Cancelled;
    }
    SnapActionKeys(ctx.value, mode, snap, nlaMap);
    status := Finished;
  }

  /** The mirroring modes. */
  datatype MirrorMode = MirrorCurrentFrame | MirrorYAxis | MirrorXAxis | MirrorMarker

  /** The index of the first selected marker in list order, if any. */
  function FirstSelected(ms: seq<TimeMarker>): (r: Option<nat>)
    ensures r.Some? ==> r.value < |ms| && ms[r.value].selected
                        && forall j :: 0 <= j < r.value ==> !ms[j].selected
    ensures r.None? <==> forall j :: 0 <= j < |ms| ==> !ms[j].selected
  {
    if ms == [] then None
    else if ms[0].selected then Some(0)
    else
      assert forall j :: 1 <= j < |ms| ==> ms[1..][j - 1] == ms[j];
      match FirstSelected(ms[1..])
      case None => None
      case Some(i) => Some(i + 1)
  }

  /** The marker search of mirror_action_keys: stops at the first selected marker. */
  method FindFirstSelectedMarker(scene: Scene) returns (found: Option<nat>)
    ensures found == FirstSelected(scene.markers)
  {
    var ms := scene.markers;
    found := None;
    var i := 0;
    while i < |ms|
      invariant 0 <= i <= |ms|
      invariant forall j :: 0 <= j < i ==> !ms[j].selected
    {
      if ms[i].selected {
        found := Some(i);
        break;
      }
      i := i + 1;
    }
    if found.Some? {
      var r := FirstSelected(ms);
      assert r.Some?;
    }
  }

  /**
   * The edit data mirroring runs with: in marker mode f1 is the frame of the
   * first selected marker, and there is none when no marker is selected; in
   * the other modes f1 is 0.
   */
  function MirrorData(ac: AnimContext, mode: MirrorMode): (r: Option<EditData>)
    requires mode == MirrorMarker ==> ac.scene != null
    reads SceneSet(ac.scene)
    ensures mode != MirrorMarker ==> r == Some(SceneData(ac.scene, 0.0))
    ensures mode == MirrorMarker ==>
              (r.None? <==> forall j :: 0 <= j < |ac.scene.markers| ==> !ac.scene.markers[j].selected)
    ensures mode == MirrorMarker && r.Some? ==>
              exists j :: 0 <= j < |ac.scene.markers| && ac.scene.markers[j].selected
                          && r.value.f1 == ac.scene.markers[j].frame as real
                          && forall i :: 0 <= i < j ==> !ac.scene.markers[i].selected
  {
    if mode == MirrorMarker then
      match FirstSelected(ac.scene.markers)
      case None => None
      case Some(j) => Some(SceneData(ac.scene, ac.scene.markers[j].frame as real))
    else Some(SceneData(ac.scene, 0.0))
  }

  /**
   * mirror_action_keys: in marker mode with no selected marker nothing
   * changes; otherwise every channel of the edit filter is mirrored with the
   * callback for `mode`, inside that channel's NLA bracketing, so a curve
   * listed twice is mirrored twice.
   */
  method MirrorActionKeys(ac: AnimContext, mode: MirrorMode, mirror: (MirrorMode, EditData) -> Key -> Key,
                          nlaMap: (ObjectRef, bool, real) -> real)
    requires mode == MirrorMarker ==> ac.scene != null
    modifies Curves(Filter(ac, EditFilter(ac.isGpencil)))`keys
    ensures var elems := Filter(ac, EditFilter(ac.isGpencil));
            var bed := old(MirrorData(ac, mode));
            forall c :: c in Curves(elems) ==>
              c.keys == (if bed.None? then old(c.keys)
                         else EditedKeys(elems, c, old(c.keys), BracketEdit(mirror(mode, bed.value), nlaMap)))
    ensures var elems := Filter(ac, EditFilter(ac.isGpencil));
            var bed := old(MirrorData(ac, mode));
            DistinctCurves(elems) ==>
              forall j :: 0 <= j < |elems| ==>
                elems[j].curve.keys == (if bed.None? then old(elems[j].curve.keys)
                                        else Bracketed(elems[j], mirror(mode, bed.value), nlaMap, old(elems[j].curve.keys)))
  {
    var bed := SceneData(ac.scene, 0.0);
    if mode == MirrorMarker {
      var marker := FindFirstSelectedMarker(ac.scene);
      if marker.Some? {
        bed := bed.(f1 := ac.scene.markers[marker.value].frame as real);
      } else {
        return;
      }
    }
    var editCb := mirror(mode, bed);
    EditChannels(Filter(ac, EditFilter(ac.isGpencil)), BracketEdit(editCb, nlaMap));
  }

  /** actkeys_mirror_exec: cancelled without an editor context, otherwise mirrors. */
  method MirrorExec(ctx: Option<AnimContext>, mode: MirrorMode, mirror: (MirrorMode, EditData) -> Key -> Key,
                    nlaMap: (ObjectRef, bool, real) -> real)
    returns (status: Status)
    requires ctx.Some? && mode == MirrorMarker ==> ctx.value.scene != null
    modifies ChannelCurves(ctx, EditFilter(ctx.Some? && ctx.value.isGpencil))`keys
    ensures status == Cancelled <==> ctx.None?
    ensures status != Cancelled ==> status == Finished
    ensures status == Finished ==>
              var elems := Filter(ctx.value, EditFilter(ctx.value.isGpencil));
              var bed := old(MirrorData(ctx.value, mode));
              forall c :: c in Curves(elems) ==>
                c.keys == (if bed.None? then old(c.keys)
                           else EditedKeys(elems, c, old(c.keys), BracketEdit(mirror(mode, bed.value), nlaMap)))
    ensures status == Finished ==>
              var elems := Filter(ctx.value, EditFilter(ctx.value.isGpencil));
              var bed := old(MirrorData(ctx.value, mode));
              DistinctCurves(elems) ==>
                forall j :: 0 <= j < |elems| ==>
                  elems[j].curve.keys == (if bed.None? then old(elems[j].curve.keys)
                                          else Bracketed(elems[j], mirror(mode, bed.value), nlaMap, old(elems[j].curve.keys)))
  {
    if ctx.None? {
      return Cancelled;
    }
    MirrorActionKeys(ctx.value, mode, mirror, nlaMap);
    status := Finished;
  }
}
