/** The status bar under the canvas (MetricsPanel.tsx): how many racks are
    up, how many there are, the site health percentage and its colour. */
module Metrics {
  import opened Types
  import opened Seqs
  import opened Engine

  predicate RackUp(c: Component)
  {
    IsRack(c.kind) && c.state == Normal
  }

  predicate AnyRack(c: Component)
  {
    IsRack(c.kind)
  }

  /** `activeRacks`: racks whose state is NORMAL. */
  function ActiveRacks(comps: seq<Component>): (r: nat)
    ensures r <= |comps|
    ensures r == 0 <==> forall i :: 0 <= i < |comps| ==> !RackUp(comps[i])
  {
    var up := Filter(comps, RackUp);
    assert |up| > 0 ==> up[0] in up;
    assert forall i :: 0 <= i < |comps| ==> comps[i] in comps;
    |up|
  }

  /** `totalRacks`: racks in any state. */
  function TotalRacks(comps: seq<Component>): (r: nat)
    ensures r <= |comps|
    ensures r == 0 <==> forall i :: 0 <= i < |comps| ==> !IsRack(comps[i].kind)
  {
    var racks := Filter(comps, AnyRack);
    assert |racks| > 0 ==> racks[0] in racks;
    assert forall i :: 0 <= i < |comps| ==> comps[i] in comps;
    |racks|
  }

  lemma {:induction false} FilterWeaker<T(!new)>(xs: seq<T>, p: T -> bool, q: T -> bool)
    requires forall x :: p(x) ==> q(x)
    ensures |Filter(xs, p)| <= |Filter(xs, q)|
    decreases |xs|
  {
    if |xs| > 0 {
      FilterWeaker(xs[1..], p, q);
    }
  }

  /** At most every component is a rack, and at most every rack is up. */
  lemma RackCounts(comps: seq<Component>)
    ensures ActiveRacks(comps) <= TotalRacks(comps) <= |comps|
  {
    FilterWeaker(comps, RackUp, AnyRack);
  }

  /** Multiplying by a positive factor preserves order. */
  lemma Scale(t: int, x: int, y: int)
    requires t > 0
    ensures x <= y <==> t * x <= t * y
  {
    if x <= y {
      assert t * y == t * x + t * (y - x);
    } else {
      assert t * x == t * y + t * (x - y);
    }
  }

  lemma DivBounds(x: int, d: int)
    requires d > 0
    ensures d * (x / d) <= x < d * (x / d) + d
  {
  }

  /** `h` is `100 * active / total` rounded to the nearest integer, halves up. */
  predicate Rounds(h: int, active: nat, total: nat)
  {
    (2 * total) * h <= 200 * active + total < (2 * total) * (h + 1)
  }

  /** `totalRacks === 0 ? 100 : Math.round(activeRacks / totalRacks * 100)`,
      on exact rationals. */
  function HealthScore(active: nat, total: nat): (h: int)
    requires active <= total
    ensures total == 0 ==> h == 100
    ensures total > 0 ==> Rounds(h, active, total)
    ensures 0 <= h <= 100
    ensures total > 0 && active == total ==> h == 100
    ensures total > 0 && active == 0 ==> h == 0
  {
    if total == 0 then 100
    else
      var d := 2 * total;
      var h := (200 * active + total) / d;
      DivBounds(200 * active + total, d);
      assert d * (h + 1) == d * h + d;
      Scale(d, 0, h);
      Scale(d, 101, h);
      Scale(d, h + 1, 100);
      Scale(d, 1, h);
      h
  }

  /** Rounding has one answer: any `h` that `Rounds` is the health score. */
  lemma RoundsUnique(h: int, active: nat, total: nat)
    requires active <= total && total > 0
    requires Rounds(h, active, total)
    ensures h == HealthScore(active, total)
  {
    var g := HealthScore(active, total);
    var d := 2 * total;
    assert d * (h + 1) == d * h + d && d * (g + 1) == d * g + d;
    Scale(d, h + 1, g);
    Scale(d, g + 1, h);
  }

  /** The health of the site shown in the status bar. */
  function SiteHealth(comps: seq<Component>): (h: int)
    ensures 0 <= h <= 100
    ensures TotalRacks(comps) == 0 ==> h == 100
    ensures TotalRacks(comps) > 0 ==> Rounds(h, ActiveRacks(comps), TotalRacks(comps))
  {
    RackCounts(comps);
    HealthScore(ActiveRacks(comps), TotalRacks(comps))
  }

  /** More racks up never lowers the score. */
  lemma HealthMonotone(a: nat, b: nat, total: nat)
    requires a <= b <= total
    ensures HealthScore(a, total) <= HealthScore(b, total)
  {
    if total > 0 {
      var ha := HealthScore(a, total);
      var hb := HealthScore(b, total);
      var d := 2 * total;
      assert d * (hb + 1) == d * hb + d;
      Scale(d, hb + 1, ha);
    }
  }

  datatype Band = Green | Amber | Red

  /** The colour of the health figure: emerald above 90, amber above 50, red otherwise. */
  function BandOf(h: int): (b: Band)
    ensures b == Green <==> h > 90
    ensures b == Amber <==> 50 < h <= 90
    ensures b == Red <==> h <= 50
  {
    if h > 90 then Green else if h > 50 then Amber else Red
  }

  /** The band in terms of the rack counts: green needs at least 90.5% of the racks up. */
  lemma GreenThreshold(active: nat, total: nat)
    requires active <= total
    ensures BandOf(HealthScore(active, total)) == Green <==> total == 0 || 200 * active >= 181 * total
  {
    if total > 0 {
      var h := HealthScore(active, total);
      var d := 2 * total;
      assert d * (h + 1) == d * h + d;
      Scale(d, 91, h);
      Scale(d, h + 1, 91);
    }
  }

  /** Red means fewer than 50.5% of the racks are up. */
  lemma RedThreshold(active: nat, total: nat)
    requires active <= total
    ensures BandOf(HealthScore(active, total)) == Red <==> total > 0 && 200 * active < 101 * total
  {
    if total > 0 {
      var h := HealthScore(active, total);
      var d := 2 * total;
      assert d * (h + 1) == d * h + d;
      Scale(d, 51, h);
      Scale(d, h + 1, 51);
    }
  }

  /** The arithmetic of one more (or one fewer) uniform rack. */
  lemma ScaleStep(total: int, head: int, w: int, n: int, m: int)
    requires total == head + w * n
    requires (head == w && m == n + 1) || (head == 0 && m == n)
    ensures total == w * m
  {
  }

  lemma ActiveRacksCons(comps: seq<Component>)
    requires |comps| > 0
    ensures ActiveRacks(comps) == (if RackUp(comps[0]) then 1 else 0) + ActiveRacks(comps[1..])
  {
  }

  /** When every rack draws the same `w`, the tick's total load is `w` per rack that is up. */
  lemma {:induction false} TotalLoadUniform(comps: seq<Component>, w: int)
    requires forall i :: 0 <= i < |comps| && IsRack(comps[i].kind) ==> OrDefault(comps[i].load, 0) == w
    ensures TotalLoad(comps) == w * ActiveRacks(comps)
    decreases |comps|
  {
    if |comps| > 0 {
      var rest := comps[1..];
      forall i | 0 <= i < |rest| && IsRack(rest[i].kind)
        ensures OrDefault(rest[i].load, 0) == w
      {
        assert rest[i] == comps[i + 1];
      }
      TotalLoadUniform(rest, w);
      TotalLoadStep(comps, w);
    }
  }

  /** One rack more: the step of `TotalLoadUniform`. */
  lemma TotalLoadStep(comps: seq<Component>, w: int)
    requires |comps| > 0 && (IsRack(comps[0].kind) ==> OrDefault(comps[0].load, 0) == w)
    requires TotalLoad(comps[1..]) == w * ActiveRacks(comps[1..])
    ensures TotalLoad(comps) == w * ActiveRacks(comps)
  {
    ActiveRacksCons(comps);
    var n, m := ActiveRacks(comps[1..]), ActiveRacks(comps);
    var head := RackLoad(comps[0]);
    assert TotalLoad(comps) == head + w * n;
    assert if RackUp(comps[0]) then head == w && m == n + 1 else head == 0 && m == n;
    ScaleStep(TotalLoad(comps), head, w, n, m);
  }
}
