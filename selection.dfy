/**
 * The scans the game uses to pick one element of a list: a running best that
 * a candidate replaces only when it is strictly better, so that the first
 * candidate scanned wins a tie, and a search for the first match.
 */
module Selection {
  import opened Wrappers

  /** The running best of a scan and the index it came from, if any. */
  datatype Pick = Pick(best: real, index: Option<nat>)

  /**
   * The scan `best := init; for i: if eligible[i] && key[i] > best then
   * best, index := key[i], i`, over the first `n` entries.
   */
  function MaxScan(eligible: seq<bool>, key: seq<real>, init: real, n: nat): (r: Pick)
    requires |eligible| == |key| && n <= |key|
    ensures r.index.Some? ==> r.index.value < n
  {
    if n == 0 then Pick(init, None)
    else
      var before := MaxScan(eligible, key, init, n - 1);
      if eligible[n - 1] && key[n - 1] > before.best then Pick(key[n - 1], Some(n - 1)) else before
  }

  /**
   * The scan finds the first eligible entry of highest key above `init`:
   * every eligible key is at most the result, every earlier eligible key is
   * strictly below it, and nothing is picked only when no eligible key
   * exceeds `init`.
   */
  lemma {:induction false} MaxScanIsFirstMaximum(eligible: seq<bool>, key: seq<real>, init: real, n: nat)
    requires |eligible| == |key| && n <= |key|
    ensures var r := MaxScan(eligible, key, init, n);
      && r.best >= init
      && (forall j :: 0 <= j < n && eligible[j] ==> key[j] <= r.best)
      && (r.index.None? <==> r.best == init && forall j :: 0 <= j < n && eligible[j] ==> key[j] <= init)
      && (r.index.Some? ==>
            var k := r.index.value;
            && eligible[k] && key[k] == r.best && r.best > init
            && forall j :: 0 <= j < k && eligible[j] ==> key[j] < key[k])
  {
    if n > 0 {
      MaxScanIsFirstMaximum(eligible, key, init, n - 1);
    }
  }

  /** Entries at or after `n` do not affect the scan of the first `n`. */
  lemma {:induction false} MaxScanPrefix(eligible: seq<bool>, key: seq<real>, e2: seq<bool>, k2: seq<real>, init: real, n: nat)
    requires |eligible| == |key| && |e2| == |k2| && n <= |key| && n <= |k2|
    requires eligible[..n] == e2[..n] && key[..n] == k2[..n]
    ensures MaxScan(eligible, key, init, n) == MaxScan(e2, k2, init, n)
  {
    if n > 0 {
      assert eligible[n - 1] == e2[n - 1] by { assert eligible[..n][n - 1] == e2[..n][n - 1]; }
      assert key[n - 1] == k2[n - 1] by { assert key[..n][n - 1] == k2[..n][n - 1]; }
      assert eligible[..n - 1] == e2[..n - 1] by { assert eligible[..n - 1] == eligible[..n][..n - 1]; assert e2[..n - 1] == e2[..n][..n - 1]; }
      assert key[..n - 1] == k2[..n - 1] by { assert key[..n - 1] == key[..n][..n - 1]; assert k2[..n - 1] == k2[..n][..n - 1]; }
      MaxScanPrefix(eligible, key, e2, k2, init, n - 1);
    }
  }

  /**
   * The scan `best := init; for i: if eligible[i] && key[i] < best then
   * best, index := key[i], i`, over the first `n` entries.
   */
  function MinScan(eligible: seq<bool>, key: seq<real>, init: real, n: nat): (r: Pick)
    requires |eligible| == |key| && n <= |key|
    ensures r.index.Some? ==> r.index.value < n
  {
    if n == 0 then Pick(init, None)
    else
      var before := MinScan(eligible, key, init, n - 1);
      if eligible[n - 1] && key[n - 1] < before.best then Pick(key[n - 1], Some(n - 1)) else before
  }

  /**
   * The scan finds the first eligible entry of lowest key below `init`:
   * every eligible key is at least the result, every earlier eligible key is
   * strictly above it, and nothing is picked only when no eligible key is
   * below `init`.
   */
  lemma {:induction false} MinScanIsFirstMinimum(eligible: seq<bool>, key: seq<real>, init: real, n: nat)
    requires |eligible| == |key| && n <= |key|
    ensures var r := MinScan(eligible, key, init, n);
      && r.best <= init
      && (forall j :: 0 <= j < n && eligible[j] ==> key[j] >= r.best)
      && (r.index.None? <==> r.best == init && forall j :: 0 <= j < n && eligible[j] ==> key[j] >= init)
      && (r.index.Some? ==>
            var k := r.index.value;
            && eligible[k] && key[k] == r.best && r.best < init
            && forall j :: 0 <= j < k && eligible[j] ==> key[j] > key[k])
  {
    if n > 0 {
      MinScanIsFirstMinimum(eligible, key, init, n - 1);
    }
  }

  /** The index of the first `true`, if there is one. */
  function FirstTrue(bs: seq<bool>): (r: Option<nat>)
    ensures r.None? <==> forall j :: 0 <= j < |bs| ==> !bs[j]
    ensures r.Some? ==> r.value < |bs| && bs[r.value] && forall j :: 0 <= j < r.value ==> !bs[j]
  {
    if bs == [] then None
    else if bs[0] then Some(0)
    else
      var rest := FirstTrue(bs[1..]);
      if rest.Some? then Some(rest.value + 1) else None
  }

  /** How many entries equal `v`. */
  function CountOf(cells: seq<int>, v: int): (c: nat)
    ensures c <= |cells|
  {
    if cells == [] then 0
    else CountOf(cells[..|cells| - 1], v) + (if cells[|cells| - 1] == v then 1 else 0)
  }

  /** A value no cell holds is counted zero times. */
  lemma {:induction false} CountOfAbsent(cells: seq<int>, v: int)
    requires forall i :: 0 <= i < |cells| ==> cells[i] != v
    ensures CountOf(cells, v) == 0
  {
    if cells != [] {
      CountOfAbsent(cells[..|cells| - 1], v);
    }
  }

  /** The counts of `cells` add up over every value to the number of cells. */
  function SumCounts(cells: seq<int>, lo: int, n: nat): (s: nat)
  {
    if n == 0 then 0 else SumCounts(cells, lo, n - 1) + CountOf(cells, lo + n - 1)
  }

  /** Counting the values `lo .. lo+n-1` counts exactly the cells that lie in that range. */
  lemma {:induction false} SumCountsInRange(cells: seq<int>, lo: int, n: nat)
    ensures SumCounts(cells, lo, n) == CountInRange(cells, lo, lo + n)
    decreases |cells|, n
  {
    if cells == [] {
      SumCountsEmpty(lo, n);
    } else {
      var init := cells[..|cells| - 1];
      var last := cells[|cells| - 1];
      SumCountsInRange(init, lo, n);
      SumCountsSnoc(init, last, lo, n);
      assert init + [last] == cells;
    }
  }

  lemma {:induction false} SumCountsEmpty(lo: int, n: nat)
    ensures SumCounts([], lo, n) == 0
  {
    if n > 0 {
      SumCountsEmpty(lo, n - 1);
    }
  }

  lemma {:induction false} SumCountsSnoc(cells: seq<int>, v: int, lo: int, n: nat)
    ensures SumCounts(cells + [v], lo, n) == SumCounts(cells, lo, n) + (if lo <= v < lo + n then 1 else 0)
  {
    var c := cells + [v];
    assert c[..|c| - 1] == cells;
    if n > 0 {
      SumCountsSnoc(cells, v, lo, n - 1);
    }
  }

  /** The number of cells in `[lo, hi)`. */
  function CountInRange(cells: seq<int>, lo: int, hi: int): (c: nat)
    ensures c <= |cells|
  {
    if cells == [] then 0
    else CountInRange(cells[..|cells| - 1], lo, hi) + (if lo <= cells[|cells| - 1] < hi then 1 else 0)
  }
}
