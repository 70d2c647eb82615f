/** Timestamps as integers (nanoseconds), and the part of a push history that a sliding window still sees. */
module Window {

  predicate Sorted(h: seq<int>) {
    forall i, j | 0 <= i < j < |h| :: h[i] <= h[j]
  }

  function Max(x: int, y: int): int {
    if x < y then y else x
  }

  /** The entries of h at or after lo, in order. */
  function Recent(h: seq<int>, lo: int): seq<int> {
    if h == [] then []
    else
      var r := Recent(h[..|h| - 1], lo);
      if lo <= h[|h| - 1] then r + [h[|h| - 1]] else r
  }

  /** How many entries of h lie in the closed window [a, a + per]. */
  function InWindow(h: seq<int>, a: int, per: int): nat {
    if h == [] then 0
    else
      InWindow(h[..|h| - 1], a, per) + if a <= h[|h| - 1] <= a + per then 1 else 0
  }

  /** The entries that a pruning pass keeps: entry i is dropped when more than per has elapsed by its own clock reading. */
  function Kept(times: seq<int>, readings: seq<int>, per: int): seq<int>
    requires |readings| == |times|
  {
    if times == [] then []
    else
      var n := |times| - 1;
      var r := Kept(times[..n], readings[..n], per);
      if readings[n] - times[n] > per then r else r + [times[n]]
  }

  lemma RecentAppend(h: seq<int>, x: int, lo: int)
    ensures Recent(h + [x], lo) == Recent(h, lo) + if lo <= x then [x] else []
  {
    assert (h + [x])[..|h|] == h;
  }

  lemma InWindowAppend(h: seq<int>, x: int, a: int, per: int)
    ensures InWindow(h + [x], a, per) == InWindow(h, a, per) + if a <= x <= a + per then 1 else 0
  {
    assert (h + [x])[..|h|] == h;
  }

  lemma {:induction false} RecentMembers(h: seq<int>, lo: int)
    ensures forall x :: x in Recent(h, lo) <==> x in h && lo <= x
  {
    if h != [] {
      var n := |h| - 1;
      RecentMembers(h[..n], lo);
      assert h == h[..n] + [h[n]];
    }
  }

  lemma {:induction false} RecentOfRecent(h: seq<int>, lo: int, hi: int)
    requires lo <= hi
    ensures Recent(Recent(h, lo), hi) == Recent(h, hi)
    ensures |Recent(h, hi)| <= |Recent(h, lo)|
  {
    if h != [] {
      var n := |h| - 1;
      RecentOfRecent(h[..n], lo, hi);
      RecentAppend(Recent(h[..n], lo), h[n], hi);
    }
  }

  /** Moving the edge of the window past an entry loses at least that entry. */
  lemma {:induction false} RecentLoses(h: seq<int>, lo: int, hi: int, x: int)
    requires x in h && lo <= x < hi
    ensures |Recent(h, hi)| + 1 <= |Recent(h, lo)|
  {
    var n := |h| - 1;
    assert h == h[..n] + [h[n]];
    if x in h[..n] {
      RecentLoses(h[..n], lo, hi, x);
    } else {
      RecentOfRecent(h[..n], lo, hi);
    }
  }

  /** A closed window never holds more than what is at or after its left edge. */
  lemma {:induction false} InWindowAtMostRecent(h: seq<int>, a: int, per: int)
    ensures InWindow(h, a, per) <= |Recent(h, a)|
  {
    if h != [] {
      InWindowAtMostRecent(h[..|h| - 1], a, per);
    }
  }

  /** Pruning keeps order, invents nothing, and keeps only entries within per of some reading. */
  lemma {:induction false} KeptMembers(times: seq<int>, readings: seq<int>, per: int, lo: int)
    requires |readings| == |times|
    requires forall i | 0 <= i < |readings| :: lo <= readings[i]
    ensures forall x | x in Kept(times, readings, per) :: x in times && lo - per <= x
    ensures Sorted(times) ==> Sorted(Kept(times, readings, per))
    ensures |Kept(times, readings, per)| <= |times|
    ensures |Kept(times, readings, per)| == |times| ==> Kept(times, readings, per) == times
  {
    if times != [] {
      var n := |times| - 1;
      KeptMembers(times[..n], readings[..n], per, lo);
      assert times == times[..n] + [times[n]];
      assert lo <= readings[n];
      if Sorted(times) {
        var r := Kept(times[..n], readings[..n], per);
        forall i | 0 <= i < |r| ensures r[i] <= times[n] {
          assert r[i] in r;
          var j :| 0 <= j < n && times[j] == r[i];
        }
      }
    }
  }

  lemma {:induction false} KeptAtMostRecent(times: seq<int>, readings: seq<int>, per: int, lo: int)
    requires |readings| == |times|
    requires forall i | 0 <= i < |readings| :: lo <= readings[i]
    ensures |Kept(times, readings, per)| <= |Recent(times, lo - per)|
  {
    if times != [] {
      var n := |times| - 1;
      assert lo <= readings[n];
      KeptAtMostRecent(times[..n], readings[..n], per, lo);
    }
  }

  /** Pruning loses no entry that a window ending at hi, not before any reading, can still see. */
  lemma {:induction false} KeptKeepsRecent(times: seq<int>, readings: seq<int>, per: int, hi: int)
    requires |readings| == |times|
    requires forall i | 0 <= i < |readings| :: readings[i] <= hi
    ensures Recent(Kept(times, readings, per), hi - per) == Recent(times, hi - per)
  {
    if times != [] {
      var n := |times| - 1;
      assert readings[n] <= hi;
      KeptKeepsRecent(times[..n], readings[..n], per, hi);
      RecentAppend(Kept(times[..n], readings[..n], per), times[n], hi - per);
    }
  }

  /** Entries no older than due - per all survive readings that have not passed due. */
  lemma {:induction false} KeptAll(times: seq<int>, readings: seq<int>, per: int, due: int)
    requires |readings| == |times|
    requires forall i | 0 <= i < |times| :: readings[i] <= due && due - per <= times[i]
    ensures Kept(times, readings, per) == times
  {
    if times != [] {
      var n := |times| - 1;
      assert readings[n] <= due && due - per <= times[n];
      KeptAll(times[..n], readings[..n], per, due);
      assert times == times[..n] + [times[n]];
    }
  }

  /** When every reading is the same instant, pruning is exactly the window. */
  lemma {:induction false} KeptAtOneInstant(times: seq<int>, readings: seq<int>, per: int, now: int)
    requires |readings| == |times|
    requires forall i | 0 <= i < |readings| :: readings[i] == now
    ensures Kept(times, readings, per) == Recent(times, now - per)
  {
    if times != [] {
      var n := |times| - 1;
      assert readings[n] == now;
      KeptAtOneInstant(times[..n], readings[..n], per, now);
    }
  }
}
