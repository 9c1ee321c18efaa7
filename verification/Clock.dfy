// The per-device clock generator. Its outputs strictly increase whatever the wall clock does, as
// long as the 32-bit counter does not run over, and generators of different sites never collide:
// this is what discharges the distinct-clocks hypothesis of convergence.
module Clock {
  import opened Operations

  const U32_MAX: U32 := 0xFFFF_FFFF

  /** One tick against a wall time. The counter wraps as unsigned 32-bit addition does. */
  function Tick(last: Hlc, site: U64, wall: U64): Hlc {
    if wall > last.wall then Hlc(wall, 0, site)
    else Hlc(last.wall, (last.counter + 1) % 0x1_0000_0000, site)
  }

  /** The tick whose counter runs over. */
  predicate Overflows(last: Hlc, wall: U64) { wall <= last.wall && last.counter == U32_MAX }

  class HlcGenerator {
    const site: U64
    var last: Hlc

    constructor (site: U64)
      ensures this.site == site && last == Hlc(0, 0, site)
    {
      this.site := site;
      last := Hlc(0, 0, site);
    }

    method Next(wall: U64) returns (h: Hlc)
      requires last.site == site
      modifies this
      ensures h == last == Tick(old(last), site, wall) && last.site == site
      ensures h.wall == if wall > old(last).wall then wall else old(last).wall
      ensures HlcLt(old(last), h) <==> !Overflows(old(last), wall)
    {
      var w, counter := last.wall, 0;
      if wall > last.wall {
        w := wall;
      } else {
        counter := (last.counter + 1) % 0x1_0000_0000;
      }
      last := Hlc(w, counter, site);
      h := last;
    }
  }

  /** The outputs of a generator of `site` fed with `walls`. */
  function Outputs(site: U64, walls: seq<U64>): (r: seq<Hlc>)
    ensures |r| == |walls| && forall i | 0 <= i < |r| :: r[i].site == site
  {
    if walls == [] then []
    else
      var before := Outputs(site, walls[..|walls| - 1]);
      before + [Tick(LastOf(site, before), site, walls[|walls| - 1])]
  }

  function LastOf(site: U64, outputs: seq<Hlc>): Hlc {
    if outputs == [] then Hlc(0, 0, site) else outputs[|outputs| - 1]
  }

  /** `since` is where the greatest of the wall times was first shown, or -1 while none is positive. */
  ghost predicate PeaksAt(walls: seq<U64>, since: int, peak: U64) {
    && -1 <= since < |walls|
    && (forall k | 0 <= k < |walls| :: walls[k] <= peak)
    && (if since == -1 then peak == 0
        else peak > 0 && walls[since] == peak && forall k | 0 <= k < since :: walls[k] < peak)
  }

  lemma {:induction false} PeakNext(walls: seq<U64>, since: int, peak: U64)
    requires walls != [] && PeaksAt(walls[..|walls| - 1], since, peak)
    ensures var n := |walls| - 1;
            if walls[n] > peak then PeaksAt(walls, n, walls[n]) else PeaksAt(walls, since, peak)
  {
    var n := |walls| - 1;
    assert forall k | 0 <= k < n :: walls[k] == walls[..n][k];
  }

  /**
   * Stamps follow the wall clock: the last one carries the greatest wall time shown, and counts, modulo
   * 2^32, the ticks since that was first shown, or since the start while none was positive.
   */
  lemma {:induction false} StampsFollowWalls(site: U64, walls: seq<U64>) returns (since: int)
    requires walls != []
    ensures var n := |walls| - 1; var h := Outputs(site, walls)[n];
            && PeaksAt(walls, since, h.wall) && h == Hlc(h.wall, (n - since) % 0x1_0000_0000, site)
            && (NeverOverflows(site, walls) ==> h.counter == n - since)
    decreases |walls|
  {
    hide PeaksAt;
    var n := |walls| - 1;
    var before := walls[..n];
    if n == 0 {
      since := if walls[0] > 0 then 0 else -1;
      assert PeaksAt(before, -1, 0) by { PeakOfNothing(before); }
      PeakNext(walls, -1, 0);
    } else {
      since := StampsFollowWalls(site, before);
      PeakNext(walls, since, Outputs(site, before)[n - 1].wall);
      PeakIsBefore(before, since, Outputs(site, before)[n - 1].wall);
      NextCounter(n - 1 - since);
      if walls[n] > Outputs(site, before)[n - 1].wall { since := n; }
    }
  }

  lemma PeakOfNothing(walls: seq<U64>)
    ensures walls == [] ==> PeaksAt(walls, -1, 0)
  {}

  lemma PeakIsBefore(walls: seq<U64>, since: int, peak: U64)
    ensures PeaksAt(walls, since, peak) ==> -1 <= since < |walls|
  {}

  /** An output is the last of the run up to it. */
  lemma {:induction false} OutputsOfPrefix(site: U64, walls: seq<U64>, i: nat)
    requires i < |walls|
    ensures Outputs(site, walls)[i] == Outputs(site, walls[..i + 1])[i]
    decreases |walls|
  {
    var n := |walls| - 1;
    if i < n {
      OutputsOfPrefix(site, walls[..n], i);
      assert walls[..n][..i + 1] == walls[..i + 1];
    } else {
      assert walls[..i + 1] == walls;
    }
  }

  lemma NextCounter(ticks: nat)
    ensures (ticks % 0x1_0000_0000 + 1) % 0x1_0000_0000 == (ticks + 1) % 0x1_0000_0000
  {}

  /** No tick of the run is one whose counter runs over. */
  ghost predicate NeverOverflows(site: U64, walls: seq<U64>) {
    walls == []
    || (NeverOverflows(site, walls[..|walls| - 1])
        && !Overflows(LastOf(site, Outputs(site, walls[..|walls| - 1])), walls[|walls| - 1]))
  }

  ghost predicate Increasing(r: seq<Hlc>) { forall i, j | 0 <= i < j < |r| :: HlcLt(r[i], r[j]) }

  /** A run strictly increases, from the initial value on, exactly when no tick overflows. */
  lemma {:induction false} OutputsIncrease(site: U64, walls: seq<U64>)
    ensures NeverOverflows(site, walls) <==> Increasing([Hlc(0, 0, site)] + Outputs(site, walls))
  {
    if walls != [] {
      var n := |walls| - 1;
      OutputsIncrease(site, walls[..n]);
      var p := [Hlc(0, 0, site)] + Outputs(site, walls[..n]);
      var h := Tick(LastOf(site, Outputs(site, walls[..n])), site, walls[n]);
      assert [Hlc(0, 0, site)] + Outputs(site, walls) == p + [h];
      assert p[n] == LastOf(site, Outputs(site, walls[..n]));
      IncreasingSnoc(p, h);
    }
  }

  /** Fewer than 2^32 ticks cannot overflow, whatever the wall clock shows. */
  lemma {:induction false} FewTicksNeverOverflow(site: U64, walls: seq<U64>)
    requires |walls| <= U32_MAX
    ensures NeverOverflows(site, walls)
    ensures LastOf(site, Outputs(site, walls)).counter <= |walls|
  {
    if walls != [] { FewTicksNeverOverflow(site, walls[..|walls| - 1]); }
  }

  lemma {:induction false} IncreasingSnoc(p: seq<Hlc>, h: Hlc)
    requires p != []
    ensures Increasing(p + [h]) <==> Increasing(p) && HlcLt(p[|p| - 1], h)
  {
    var q := p + [h];
    if Increasing(q) {
      forall i, j | 0 <= i < j < |p| ensures HlcLt(p[i], p[j]) { assert HlcLt(q[i], q[j]); }
      assert HlcLt(q[|p| - 1], q[|p|]);
    }
  }

  lemma IncreasingIsInjective(r: seq<Hlc>, i: nat, j: nat)
    requires Increasing(r) && i < |r| && j < |r|
    ensures r[i] == r[j] ==> i == j
  {}

  /** The ticks that issued the clocks of a set of ops: one generator per site. */
  datatype Slot = Slot(site: U64, tick: nat)

  ghost predicate Issued(s: set<Op>, walls: map<U64, seq<U64>>, slot: map<Op, Slot>) {
    && (forall o | o in s :: o in slot && slot[o].site in walls && slot[o].tick < |walls[slot[o].site]|)
    && (forall o | o in s :: o.hlc == Outputs(slot[o].site, walls[slot[o].site])[slot[o].tick])
    && (forall a, b | a in s && b in s && slot[a] == slot[b] :: a == b)
  }

  /** Ops stamped by distinct ticks of one generator per site carry distinct clocks. */
  lemma {:induction false} GeneratorsDischargeDistinctness(s: set<Op>, walls: map<U64, seq<U64>>, slot: map<Op, Slot>)
    requires Issued(s, walls, slot)
    requires forall site | site in walls :: NeverOverflows(site, walls[site])
    ensures DistinctHlcs(s)
  {
    forall a, b | a in s && b in s && a.hlc == b.hlc ensures a == b {
      var p, q := slot[a], slot[b];
      assert p.site == a.hlc.site == b.hlc.site == q.site;
      OutputsIncrease(p.site, walls[p.site]);
      var run := [Hlc(0, 0, p.site)] + Outputs(p.site, walls[p.site]);
      assert run[p.tick + 1] == a.hlc && run[q.tick + 1] == b.hlc;
      IncreasingIsInjective(run, p.tick + 1, q.tick + 1);
    }
  }
}
