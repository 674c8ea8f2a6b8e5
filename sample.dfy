/**
 * The sample operator: for every two consecutive selected keys of a curve,
 * evaluate the curve on each whole frame from floor(start) for
 * ceil(end - start) frames, cache all those values, then insert them as keys.
 *
 * The operator walks the key array by index while it grows. After a pair it
 * moves the index forward by range - 1, which is right only when the pair's
 * insertions added exactly range - 1 keys in front of the end key. `SampleReady`
 * is that assumption stated on the input curve; under it the scan is proved to
 * process exactly the consecutive selected pairs of the original curve
 * (`SampleCurve`'s postcondition, against the pair-based `ApplyPairs`).
 */
module KeyframeSample {
  import opened Anim

  /** Two consecutive selected keys, by their times. */
  datatype KeyPair = KeyPair(start: real, end: real)

  /** sfra: the first sampled frame. */
  function SampleStart(p: KeyPair): int {
    Floor(p.start)
  }

  /** range: the number of sampled frames. */
  function SampleRange(p: KeyPair): int {
    Ceiling(p.end - p.start)
  }

  /** The value cache of one pair: frames sfra .. sfra+range-1, each evaluated on `cur`. */
  function Cache(cur: seq<Key>, sfra: int, range: nat, evaluate: (seq<Key>, real) -> real): (c: seq<(real, real)>)
    ensures |c| == range
    ensures forall n :: 0 <= n < range ==> c[n] == ((sfra + n) as real, evaluate(cur, (sfra + n) as real))
  {
    seq(range, n requires 0 <= n < range => ((sfra + n) as real, evaluate(cur, (sfra + n) as real)))
  }

  /** Inserts the cached (frame, value) entries one after the other, in cache order. */
  function InsertAll(ks: seq<Key>, c: seq<(real, real)>): seq<Key>
    decreases |c|
  {
    if c == [] then ks else InsertAll(InsertVert(ks, c[0].0, c[0].1), c[1..])
  }

  /** What the operator does for one pair: sample on the curve as it stands, then insert. */
  function SampleOne(cur: seq<Key>, p: KeyPair, evaluate: (seq<Key>, real) -> real): seq<Key> {
    var range := SampleRange(p);
    if range <= 0 then cur else InsertAll(cur, Cache(cur, SampleStart(p), range, evaluate))
  }

  /** Times of the selected keys, in curve order. */
  function SelTimes(ks: seq<Key>): seq<real>
    decreases |ks|, 1
  {
    if ks == [] then [] else SelTimesLast(ks)
  }

  /** SelTimes of a non-empty sequence: the times before its last key, then the last key's. */
  function SelTimesLast(ks: seq<Key>): seq<real>
    requires ks != []
    decreases |ks|, 0
  {
    SelTimes(ks[..|ks| - 1]) + (if Selected(ks[|ks| - 1]) then [ks[|ks| - 1].time] else [])
  }

  /** Consecutive pairs of a sequence of times. */
  function Pairs(ts: seq<real>): seq<KeyPair> {
    if |ts| < 2 then [] else seq(|ts| - 1, k requires 0 <= k < |ts| - 1 => KeyPair(ts[k], ts[k + 1]))
  }

  /** Samples the pairs in order, each on the curve left by the ones before. */
  function ApplyPairs(cur: seq<Key>, ps: seq<KeyPair>, evaluate: (seq<Key>, real) -> real): seq<Key>
    decreases |ps|, 1
  {
    if ps == [] then cur else SampleLast(cur, ps, evaluate)
  }

  /** The last pair, sampled on the curve the pairs before it leave. */
  function SampleLast(cur: seq<Key>, ps: seq<KeyPair>, evaluate: (seq<Key>, real) -> real): seq<Key>
    requires ps != []
    decreases |ps|, 0
  {
    SampleOne(ApplyPairs(cur, ps[..|ps| - 1], evaluate), ps[|ps| - 1], evaluate)
  }

  /** Keys a pair adds when its insertions replace exactly its start key. */
  function PairGrowth(p: KeyPair): int {
    if SampleRange(p) <= 0 then 0 else SampleRange(p) - 1
  }

  /** Keys the pairs add in total. */
  function Growth(ps: seq<KeyPair>): int
    decreases |ps|, 1
  {
    if ps == [] then 0 else GrowthLast(ps)
  }

  function GrowthLast(ps: seq<KeyPair>): int
    requires ps != []
    decreases |ps|, 0
  {
    Growth(ps[..|ps| - 1]) + PairGrowth(ps[|ps| - 1])
  }

  /**
   * The assumption behind the index compensation: the curve is in time order,
   * every selected key lies on a whole frame, and no unselected key on a whole
   * frame lies strictly inside a span between two selected keys. Then each
   * pair's first sampled frame replaces its start key and every other sampled
   * frame adds a key, so a pair adds exactly range - 1 keys.
   */
  ghost predicate SampleReady(ks: seq<Key>) {
    Sorted(ks) &&
    (forall j :: 0 <= j < |ks| && Selected(ks[j]) ==> IsWhole(ks[j].time)) &&
    (forall a, m, b :: Straddled(ks, a, m, b) ==> !IsWhole(ks[m].time))
  }

  /** Key `m` is unselected and lies strictly between the selected keys `a` and `b` in index and in time. */
  predicate Straddled(ks: seq<Key>, a: int, m: int, b: int) {
    0 <= a < m < b < |ks| && Selected(ks[a]) && Selected(ks[b]) && !Selected(ks[m])
    && ks[a].time < ks[m].time < ks[b].time
  }

  lemma {:induction false} PairsSnoc(ts: seq<real>, x: real)
    requires |ts| > 0
    ensures Pairs(ts + [x]) == Pairs(ts) + [KeyPair(ts[|ts| - 1], x)]
  {
    var ts' := ts + [x];
    if |ts| >= 2 {
      assert forall k :: 0 <= k < |ts| - 1 ==> Pairs(ts')[k] == Pairs(ts)[k];
    }
  }

  /** Inserting a frame the curve does not have, before key `m`, shifts key `m` and the rest by one. */
  lemma {:induction false} InsertAbsent(ks: seq<Key>, t: real, v: real, m: nat)
    requires m <= |ks| && t !in KeyTimes(ks)
    requires m < |ks| ==> t < ks[m].time
    ensures |InsertVert(ks, t, v)| == |ks| + 1
    ensures InsertVert(ks, t, v)[m + 1..] == ks[m..]
  {
    if ks != [] && t >= ks[0].time {
      assert ks[0] in ks;
      assert m > 0;
      assert ks[1..][m - 1..] == ks[m..];
      assert KeyTimes(ks[1..]) <= KeyTimes(ks) by {
        forall x | x in KeyTimes(ks[1..]) ensures x in KeyTimes(ks) {
          var k :| 0 <= k < |ks[1..]| && ks[1..][k].time == x;
          assert ks[k + 1] in ks;
        }
      }
      assert t !in KeyTimes(ks[1..]);
      assert InsertVert(ks, t, v) == [ks[0]] + InsertVert(ks[1..], t, v);
      InsertAbsent(ks[1..], t, v, m - 1);
    }
  }

  lemma {:induction false} InsertAllSorted(ks: seq<Key>, c: seq<(real, real)>)
    requires Sorted(ks)
    ensures Sorted(InsertAll(ks, c))
    decreases |c|
  {
    if c != [] {
      InsertVertSorted(ks, c[0].0, c[0].1);
      InsertAllSorted(InsertVert(ks, c[0].0, c[0].1), c[1..]);
    }
  }

  /** Inserting frames the curve does not have, all before key `m`, shifts key `m` and the rest by one each. */
  lemma {:induction false} InsertAllAbsent(ks: seq<Key>, c: seq<(real, real)>, m: nat)
    requires m <= |ks|
    requires forall x, y :: 0 <= x < y < |c| ==> c[x].0 < c[y].0
    requires forall n :: 0 <= n < |c| ==> c[n].0 !in KeyTimes(ks)
    requires m < |ks| ==> forall n :: 0 <= n < |c| ==> c[n].0 < ks[m].time
    ensures |InsertAll(ks, c)| == |ks| + |c|
    ensures InsertAll(ks, c)[m + |c|..] == ks[m..]
    decreases |c|
  {
    if c != [] {
      var ks1 := InsertVert(ks, c[0].0, c[0].1);
      InsertAbsent(ks, c[0].0, c[0].1, m);
      InsertVertTimes(ks, c[0].0, c[0].1);
      var c1 := c[1..];
      assert forall n :: 0 <= n < |c1| ==> c1[n] == c[n + 1];
      assert forall n :: 0 <= n < |c1| ==> c1[n].0 !in KeyTimes(ks1);
      if m + 1 < |ks1| {
        assert ks1[m + 1] == ks[m];
      }
      InsertAllAbsent(ks1, c1, m + 1);
      assert InsertAll(ks, c)[m + |c|..] == InsertAll(ks1, c1)[(m + 1) + |c1|..];
    }
  }

  lemma {:induction false} InsertPresentShape(ks: seq<Key>, t: real, v: real, j: nat, m: nat)
    requires j < m <= |ks| && ks[j].time == t && (forall i :: 0 <= i < j ==> ks[i].time <= t)
    ensures |InsertVert(ks, t, v)| == |ks|
    ensures InsertVert(ks, t, v)[m..] == ks[m..]
  {
    if ks[0].time != t {
      assert ks[1..][j - 1] == ks[j];
      assert ks[1..][m - 1..] == ks[m..];
      assert forall i :: 0 <= i < j - 1 ==> ks[1..][i] == ks[i + 1];
      InsertPresentShape(ks[1..], t, v, j - 1, m - 1);
    }
  }

  /** Inserting a frame the curve already has, at a key before `m`, keeps the length and key `m` onwards. */
  lemma {:induction false} InsertPresent(ks: seq<Key>, t: real, v: real, j: nat, m: nat)
    requires Sorted(ks) && j < m <= |ks| && ks[j].time == t
    ensures |InsertVert(ks, t, v)| == |ks|
    ensures Sorted(InsertVert(ks, t, v))
    ensures KeyTimes(InsertVert(ks, t, v)) == KeyTimes(ks)
    ensures InsertVert(ks, t, v)[m..] == ks[m..]
  {
    InsertPresentShape(ks, t, v, j, m);
    InsertVertSorted(ks, t, v);
    InsertVertTimes(ks, t, v);
    assert ks[j] in ks;
  }

  /**
   * One pair of the scan: under the assumption, sampling the pair between keys
   * `a` and `b` adds range - 1 keys, all in front of `b`, and keeps time order.
   */
  lemma {:induction false} SampleOneShift(cur: seq<Key>, a: nat, b: nat, evaluate: (seq<Key>, real) -> real)
    requires Sorted(cur) && a < b < |cur|
    requires IsWhole(cur[a].time) && IsWhole(cur[b].time)
    requires forall j :: a < j < b && cur[a].time < cur[j].time < cur[b].time ==> !IsWhole(cur[j].time)
    ensures SampleRange(KeyPair(cur[a].time, cur[b].time)) >= 0
    ensures |SampleOne(cur, KeyPair(cur[a].time, cur[b].time), evaluate)|
              == |cur| + PairGrowth(KeyPair(cur[a].time, cur[b].time))
    ensures SampleOne(cur, KeyPair(cur[a].time, cur[b].time), evaluate)[b + PairGrowth(KeyPair(cur[a].time, cur[b].time))..]
              == cur[b..]
  {
    var p := KeyPair(cur[a].time, cur[b].time);
    var s, e := cur[a].time, cur[b].time;
    var S, E := Floor(s), Floor(e);
    assert S as real == s && E as real == e;
    var range := SampleRange(p);
    assert range == E - S;
    if range > 0 {
      var c := Cache(cur, S, range, evaluate);
      assert SampleStart(p) == S;
      assert c[0].0 == s;
      var ks1 := InsertVert(cur, c[0].0, c[0].1);
      InsertPresent(cur, c[0].0, c[0].1, a, b);
      var c1 := c[1..];
      assert InsertAll(cur, c) == InsertAll(ks1, c1);
      forall n | 0 <= n < |c1| ensures c1[n].0 !in KeyTimes(ks1) && c1[n].0 < ks1[b].time {
        var f := c1[n].0;
        assert c1[n] == c[n + 1];
        assert f == (S + n + 1) as real;
        assert s < f < e;
        assert Floor(f) == S + n + 1;
        forall j | 0 <= j < |cur| ensures cur[j].time != f {
          if j <= a {
            assert cur[j].time <= cur[a].time;
          } else if j >= b {
            assert cur[b].time <= cur[j].time;
          } else if cur[j].time == f {
            assert IsWhole(cur[j].time);
          }
        }
        assert ks1[b] == cur[b];
      }
      InsertAllAbsent(ks1, c1, b);
    }
  }

  lemma {:induction false} SelTimesNone(ks: seq<Key>)
    requires forall j :: 0 <= j < |ks| ==> !Selected(ks[j])
    ensures SelTimes(ks) == []
  {
    if ks != [] {
      SelTimesNone(ks[..|ks| - 1]);
      assert SelTimes(ks) == SelTimesLast(ks);
    }
  }

  lemma {:induction false} SelTimesSnoc(ks: seq<Key>, i: nat)
    requires i < |ks|
    ensures SelTimes(ks[..i + 1]) == SelTimes(ks[..i]) + (if Selected(ks[i]) then [ks[i].time] else [])
  {
    assert ks[..i + 1][..i] == ks[..i];
    assert SelTimes(ks[..i + 1]) == SelTimesLast(ks[..i + 1]);
  }

  lemma {:induction false} ApplyPairsSnoc(cur: seq<Key>, ps: seq<KeyPair>, p: KeyPair, evaluate: (seq<Key>, real) -> real)
    ensures ApplyPairs(cur, ps + [p], evaluate) == SampleOne(ApplyPairs(cur, ps, evaluate), p, evaluate)
    ensures Growth(ps + [p]) == Growth(ps) + PairGrowth(p)
  {
    assert (ps + [p])[..|ps|] == ps;
    assert ApplyPairs(cur, ps + [p], evaluate) == SampleLast(cur, ps + [p], evaluate);
    assert Growth(ps + [p]) == GrowthLast(ps + [p]);
  }

  lemma {:induction false} ApplyPairsSorted(cur: seq<Key>, ps: seq<KeyPair>, evaluate: (seq<Key>, real) -> real)
    requires Sorted(cur)
    ensures Sorted(ApplyPairs(cur, ps, evaluate))
    decreases |ps|
  {
    if ps != [] {
      ApplyPairsSorted(cur, ps[..|ps| - 1], evaluate);
      var c := ApplyPairs(cur, ps[..|ps| - 1], evaluate);
      var p := ps[|ps| - 1];
      assert ApplyPairs(cur, ps, evaluate) == SampleLast(cur, ps, evaluate) == SampleOne(c, p, evaluate);
      if SampleRange(p) > 0 {
        InsertAllSorted(c, Cache(c, SampleStart(p), SampleRange(p), evaluate));
      }
    }
  }

  /** The time of the last selected key, if any. */
  function LastTime(ts: seq<real>): Option<real> {
    if ts == [] then None else Some(ts[|ts| - 1])
  }

  /**
   * What the scan knows after looking at the first `oi` keys of the original
   * curve `orig`: `cur` is the curve so far, `d` the keys added so far, and
   * `start` (when not -1) the index in `cur` of the last selected key, which
   * was key `so` of the original. Every key from there on is still as it was.
   */
  ghost predicate ScanState(orig: seq<Key>, cur: seq<Key>, oi: nat, d: nat, start: int, so: nat,
                            evaluate: (seq<Key>, real) -> real)
  {
    ScanShape(orig, cur, oi, d, start, so) && ScanSpec(orig, cur, oi, d, start, so, evaluate)
  }

  /** The index bookkeeping of the scan state. */
  ghost predicate ScanShape(orig: seq<Key>, cur: seq<Key>, oi: nat, d: nat, start: int, so: nat) {
    oi <= |orig| && |cur| == |orig| + d
    && (start < 0 ==> d == 0 && cur == orig)
    && (start >= 0 ==>
          so < oi && start == so + d && Selected(orig[so])
          && (forall j :: so < j < oi ==> !Selected(orig[j]))
          && cur[so + d..] == orig[so..])
  }

  /** The curve so far is the pair-based specification on the selected keys seen so far. */
  ghost predicate ScanSpec(orig: seq<Key>, cur: seq<Key>, oi: nat, d: nat, start: int, so: nat,
                           evaluate: (seq<Key>, real) -> real)
    requires oi <= |orig| && (start >= 0 ==> so < |orig|)
  {
    cur == ApplyPairs(orig, Pairs(SelTimes(orig[..oi])), evaluate)
    && d == Growth(Pairs(SelTimes(orig[..oi])))
    && (start < 0 ==> SelTimes(orig[..oi]) == [])
    && (start >= 0 ==> LastTime(SelTimes(orig[..oi])) == Some(orig[so].time))
  }

  lemma {:induction false} ScanAt(orig: seq<Key>, cur: seq<Key>, oi: nat, d: nat, start: int, so: nat)
    requires ScanShape(orig, cur, oi, d, start, so) && oi + d < |cur|
    ensures oi < |orig| && cur[oi + d] == orig[oi]
    ensures start >= 0 ==> start < oi + d && cur[start] == orig[so]
  {
    if start >= 0 {
      assert cur[oi + d] == cur[so + d..][oi - so] == orig[so..][oi - so];
      assert cur[start] == cur[so + d..][0];
    }
  }

  /** An unselected key only moves the scan on. */
  lemma {:induction false} ScanSkip(orig: seq<Key>, cur: seq<Key>, oi: nat, d: nat, start: int, so: nat,
                 evaluate: (seq<Key>, real) -> real)
    requires ScanState(orig, cur, oi, d, start, so, evaluate) && oi < |orig| && !Selected(orig[oi])
    ensures ScanState(orig, cur, oi + 1, d, start, so, evaluate)
  {
    SelTimesSnoc(orig, oi);
    assert SelTimes(orig[..oi + 1]) == SelTimes(orig[..oi]);
  }

  /** Before the scan nothing has been sampled and no start key is known. */
  lemma {:induction false} ScanInit(orig: seq<Key>, evaluate: (seq<Key>, real) -> real)
    ensures ScanState(orig, orig, 0, 0, -1, 0, evaluate)
  {
    assert orig[..0] == [];
  }

  /** Once every original key has been visited, the curve is the specification's result. */
  lemma {:induction false} ScanDone(orig: seq<Key>, cur: seq<Key>, oi: nat, d: nat, start: int, so: nat,
                 evaluate: (seq<Key>, real) -> real)
    requires Sorted(orig) && ScanState(orig, cur, oi, d, start, so, evaluate) && oi + d >= |cur|
    ensures cur == ApplyPairs(orig, Pairs(SelTimes(orig)), evaluate)
    ensures |cur| == |orig| + Growth(Pairs(SelTimes(orig)))
    ensures Sorted(cur)
  {
    assert orig[..oi] == orig;
    ApplyPairsSorted(orig, Pairs(SelTimes(orig)), evaluate);
  }

  /** The first selected key becomes the start of the first pair. */
  lemma {:induction false} ScanFirst(orig: seq<Key>, cur: seq<Key>, oi: nat, d: nat, start: int, so: nat,
                  evaluate: (seq<Key>, real) -> real)
    requires ScanState(orig, cur, oi, d, start, so, evaluate) && oi < |orig| && Selected(orig[oi]) && start < 0
    ensures ScanState(orig, cur, oi + 1, d, oi + d, oi, evaluate)
  {
    SelTimesSnoc(orig, oi);
  }

  /**
   * A key that does not close a pair: a selected key becomes the start key,
   * an unselected one is skipped; nothing is sampled.
   */
  lemma {:induction false} ScanSingle(orig: seq<Key>, cur: seq<Key>, oi: nat, d: nat, start: int, so: nat,
                   evaluate: (seq<Key>, real) -> real, oi': nat, start': int, so': nat)
    requires ScanState(orig, cur, oi, d, start, so, evaluate) && oi + d < |cur|
    requires !(Selected(cur[oi + d]) && start >= 0) && oi' == oi + 1
    requires Selected(cur[oi + d]) ==> start' == oi + d && so' == oi
    requires !Selected(cur[oi + d]) ==> start' == start && so' == so
    ensures ScanState(orig, cur, oi', d, start', so', evaluate)
  {
    ScanAt(orig, cur, oi, d, start, so);
    if Selected(orig[oi]) {
      ScanFirst(orig, cur, oi, d, start, so, evaluate);
    } else {
      ScanSkip(orig, cur, oi, d, start, so, evaluate);
    }
  }

  /**
   * Between the last selected key and the next one, the current curve still
   * holds the original keys, so the assumption on the original curve says no
   * key strictly inside the pair lies on a whole frame.
   */
  lemma {:induction false} ScanGap(orig: seq<Key>, cur: seq<Key>, oi: nat, d: nat, so: nat)
    requires SampleReady(orig) && so < oi < |orig| && |cur| == |orig| + d
    requires Selected(orig[so]) && Selected(orig[oi]) && (forall j :: so < j < oi ==> !Selected(orig[j]))
    requires cur[so + d..] == orig[so..]
    ensures cur[so + d] == orig[so] && cur[oi + d] == orig[oi]
    ensures IsWhole(cur[so + d].time) && IsWhole(cur[oi + d].time)
    ensures forall j :: (so + d < j < oi + d && cur[so + d].time < cur[j].time < cur[oi + d].time)
                          ==> !IsWhole(cur[j].time)
  {
    assert cur[so + d] == cur[so + d..][0];
    assert cur[oi + d] == cur[so + d..][oi - so];
    forall j | so + d < j < oi + d && cur[so + d].time < cur[j].time < cur[oi + d].time
      ensures !IsWhole(cur[j].time)
    {
      assert cur[j] == cur[so + d..][j - d - so];
      assert Straddled(orig, so, j - d, oi);
    }
  }

  /** After sampling the pair that ends at key `oi`, the scan state holds one key further on. */
  lemma {:induction false} ScanPairNext(orig: seq<Key>, cur: seq<Key>, r: seq<Key>, oi: nat, d: nat, start: int, so: nat, p: KeyPair,
                     evaluate: (seq<Key>, real) -> real)
    requires ScanState(orig, cur, oi, d, start, so, evaluate) && start == so + d && oi < |orig| && Selected(orig[oi])
    requires p == KeyPair(orig[so].time, orig[oi].time) && r == SampleOne(cur, p, evaluate)
    requires PairGrowth(p) >= 0 && |r| == |cur| + PairGrowth(p) && r[oi + d + PairGrowth(p)..] == cur[oi + d..]
    ensures ScanState(orig, r, oi + 1, d + PairGrowth(p), oi + d + PairGrowth(p), oi, evaluate)
  {
    var ts := SelTimes(orig[..oi]);
    SelTimesSnoc(orig, oi);
    PairsSnoc(ts, orig[oi].time);
    ApplyPairsSnoc(orig, Pairs(ts), p, evaluate);
    assert cur[oi + d..] == cur[so + d..][oi - so..];
    assert orig[oi..] == orig[so..][oi - so..];
  }

  /**
   * The facts about one pair that hold whatever came before it: under the
   * assumption, sampling the pair on the current curve adds PairGrowth keys,
   * all in front of the pair's end key.
   */
  lemma {:induction false} ScanPairShift(orig: seq<Key>, cur: seq<Key>, ps: seq<KeyPair>, oi: nat, d: nat, start: int, so: nat,
                      evaluate: (seq<Key>, real) -> real)
    requires SampleReady(orig) && cur == ApplyPairs(orig, ps, evaluate)
    requires so < oi < |orig| && |cur| == |orig| + d && start == so + d
    requires Selected(orig[so]) && Selected(orig[oi]) && (forall j :: so < j < oi ==> !Selected(orig[j]))
    requires cur[so + d..] == orig[so..]
    ensures start < oi + d < |cur| && cur[start] == orig[so] && cur[oi + d] == orig[oi]
    ensures orig[so].time <= orig[oi].time
    ensures var p := KeyPair(orig[so].time, orig[oi].time);
            SampleRange(p) >= 0 && |SampleOne(cur, p, evaluate)| == |cur| + PairGrowth(p)
            && SampleOne(cur, p, evaluate)[oi + d + PairGrowth(p)..] == cur[oi + d..]
  {
    ScanGap(orig, cur, oi, d, so);
    ApplyPairsSorted(orig, ps, evaluate);
    assert KeyPair(cur[start].time, cur[oi + d].time) == KeyPair(orig[so].time, orig[oi].time);
    SampleOneShift(cur, start, oi + d, evaluate);
  }

  /**
   * A selected key that closes a pair: the curve `r` that sampling the pair
   * leaves is the curve the pair-based specification expects, and the end
   * key, shifted by the keys the pair added, becomes the new start.
   */
  lemma {:induction false} ScanPair(orig: seq<Key>, cur: seq<Key>, r: seq<Key>, oi: nat, d: nat, start: int, so: nat,
                 p: KeyPair, evaluate: (seq<Key>, real) -> real, oi': nat, d': nat, start': int, so': nat)
    requires SampleReady(orig)
    requires ScanState(orig, cur, oi, d, start, so, evaluate) && oi < |orig| && Selected(orig[oi]) && start >= 0
    requires p == KeyPair(orig[so].time, orig[oi].time) && r == SampleOne(cur, p, evaluate)
    requires oi' == oi + 1 && d' == d + PairGrowth(p) && start' == oi + d' && so' == oi
    ensures ScanState(orig, r, oi', d', start', so', evaluate)
  {
    ScanPairShift(orig, cur, Pairs(SelTimes(orig[..oi])), oi, d, start, so, evaluate);
    ScanPairNext(orig, cur, r, oi, d, start, so, p, evaluate);
  }

  /**
   * One pair, as the source handles it: compute range and sfra from the two
   * keys, fill the whole cache from the curve before inserting anything, then
   * insert the cached values. Returns range. A pair whose end key lies before
   * its start key gives a negative range, and both loops then do nothing.
   */
  method SamplePairKeys(fcu: FCurve, start: nat, end: nat, evaluate: (seq<Key>, real) -> real)
    returns (range: int)
    requires start < end < |fcu.keys|
    modifies fcu`keys
    ensures range == SampleRange(KeyPair(old(fcu.keys)[start].time, old(fcu.keys)[end].time))
    ensures old(fcu.keys)[start].time <= old(fcu.keys)[end].time ==> range >= 0
    ensures range <= 0 ==> fcu.keys == old(fcu.keys)
    ensures fcu.keys == SampleOne(old(fcu.keys), KeyPair(old(fcu.keys)[start].time, old(fcu.keys)[end].time), evaluate)
  {
    range := Ceiling(fcu.keys[end].time - fcu.keys[start].time);
    var sfra := Floor(fcu.keys[start].time);
    if range > 0 {
      /* sample values on the curve as it stands */
      var cache: seq<(real, real)> := [];
      var n := 0;
      while n < range
        invariant 0 <= n <= range
        invariant cache == Cache(fcu.keys, sfra, n, evaluate)
      {
        cache := cache + [((sfra + n) as real, evaluate(fcu.keys, (sfra + n) as real))];
        n := n + 1;
      }
      /* then add keyframes with them */
      ghost var before := fcu.keys;
      n := 0;
      while n < range
        invariant 0 <= n <= range
        invariant InsertAll(fcu.keys, cache[n..]) == InsertAll(before, cache)
      {
        assert cache[n..][1..] == cache[n + 1..];
        fcu.keys := InsertVert(fcu.keys, cache[n].0, cache[n].1);
        n := n + 1;
      }
      assert cache[range..] == [];
    }
  }

  /**
   * The pair branch of the scan: samples the pair that ends at key `i`. The
   * end key becomes the new start; its index is `i + range - 1` when range is
   * not 0 (compensating for the inserted keys), `i` otherwise, and the scan
   * continues after it.
   */
  method SampleScanPair(fcu: FCurve, start: int, i: nat, evaluate: (seq<Key>, real) -> real,
                        ghost orig: seq<Key>, ghost oi: nat, ghost d: nat, ghost so: nat)
    returns (start': int, i': nat, ghost oi': nat, ghost d': nat, ghost so': nat)
    requires SampleReady(orig) && i == oi + d && i < |fcu.keys| && Selected(fcu.keys[i]) && start >= 0
    requires ScanState(orig, fcu.keys, oi, d, start, so, evaluate)
    modifies fcu`keys
    ensures i' == oi' + d' && oi' == oi + 1
    ensures ScanState(orig, fcu.keys, oi', d', start', so', evaluate)
  {
    ghost var cur := fcu.keys;
    ScanAt(orig, cur, oi, d, start, so);
    ghost var p := KeyPair(orig[so].time, orig[oi].time);
    assert KeyPair(cur[start].time, cur[i].time) == p;
    ScanGap(orig, cur, oi, d, so);
    var range := SamplePairKeys(fcu, start, i, evaluate);
    d' := d + PairGrowth(p);
    start' := i;
    if range != 0 {
      /* compensate for the inserted keys */
      start' := i + range - 1;
    }
    so' := oi;
    oi' := oi + 1;
    i' := start' + 1;
    ScanPair(orig, cur, fcu.keys, oi, d, start, so, p, evaluate, oi', d', start', so');
  }

  /**
   * One iteration of the scan's loop body on the key at index `i`: a selected
   * key either closes a pair (which is sampled) or becomes the first start
   * key; an unselected key is skipped. Returns the new start index and the
   * index of the next key to visit.
   */
  method ScanStep(fcu: FCurve, start: int, i: nat, evaluate: (seq<Key>, real) -> real,
                  ghost orig: seq<Key>, ghost oi: nat, ghost d: nat, ghost so: nat)
    returns (start': int, i': nat, ghost oi': nat, ghost d': nat, ghost so': nat)
    requires SampleReady(orig) && i == oi + d && i < |fcu.keys|
    requires ScanState(orig, fcu.keys, oi, d, start, so, evaluate)
    modifies fcu`keys
    ensures i' == oi' + d' && oi' == oi + 1
    ensures ScanState(orig, fcu.keys, oi', d', start', so', evaluate)
  {
    if Selected(fcu.keys[i]) && start >= 0 {
      start', i', oi', d', so' := SampleScanPair(fcu, start, i, evaluate, orig, oi, d, so);
    } else {
      start', so' := start, so;
      if Selected(fcu.keys[i]) {
        start', so' := i, oi;
      }
      i', oi', d' := i + 1, oi + 1, d;
      ScanSingle(orig, fcu.keys, oi, d, start, so, evaluate, oi', start', so');
    }
  }

  /**
   * sample_action_keys on one curve. The loop is the source's index scan:
   * `start` is the index of the last selected key (-1 for none), and after a
   * pair the index jumps by range - 1 over the inserted keys; the loop bound
   * re-reads the growing key count. The result is the pair-based
   * specification applied to the consecutive selected pairs of the original
   * curve, and the curve grows by exactly range - 1 keys per pair.
   */
  method SampleCurve(fcu: FCurve, evaluate: (seq<Key>, real) -> real)
    requires SampleReady(fcu.keys)
    modifies fcu`keys
    ensures fcu.keys == ApplyPairs(old(fcu.keys), Pairs(SelTimes(old(fcu.keys))), evaluate)
    ensures |fcu.keys| == |old(fcu.keys)| + Growth(Pairs(SelTimes(old(fcu.keys))))
    ensures Sorted(fcu.keys)
  {
    ghost var orig := fcu.keys;
    ghost var oi: nat := 0;
    ghost var d: nat := 0;
    ghost var so: nat := 0;
    var i := 0;
    var start := -1;
    ScanInit(orig, evaluate);
    while i < |fcu.keys|
      invariant i == oi + d
      invariant ScanState(orig, fcu.keys, oi, d, start, so, evaluate)
      decreases |fcu.keys| - i
    {
      start, i, oi, d, so := ScanStep(fcu, start, i, evaluate, orig, oi, d, so);
    }
    ScanDone(orig, fcu.keys, oi, d, start, so, evaluate);
  }
}
