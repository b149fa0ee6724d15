/** Edges between particles: how a formation's adjacency lists become the
    connection list, how a connection's strength is recomputed each tick, and
    which connections are drawn. */
module Connections {
  import opened Catalog
  import opened Particles

  datatype Connection = Connection(from: nat, to: nat, strength: real, active: bool)

  const StrengthReach: real := 250.0
  const MinDistance: real := 40.0
  const FadeStep: real := 0.03
  const VisibleStrength: real := 0.15

  predicate IsStrength(s: real) { 0.0 <= s <= 1.0 }

  /** The connections slot `index` contributes for its first `|links|` adjacency
      entries on a system of `n` particles: one fresh, active, zero-strength
      connection per entry that names an existing particle, in entry order. */
  function SlotEdges(index: nat, links: seq<nat>, n: nat): (r: seq<Connection>)
    ensures |r| <= |links|
  {
    if |links| == 0 then []
    else
      SlotEdges(index, links[..|links| - 1], n)
      + (if links[|links| - 1] < n then [Connection(index, links[|links| - 1], 0.0, true)] else [])
  }

  /** The connection list rebuilt for formation `f` on `n` particles: slots in order,
      skipping slots that have no particle; within a slot, its entries in order. */
  function Edges(f: seq<Slot>, n: nat): (r: seq<Connection>)
  {
    if |f| == 0 then []
    else
      Edges(f[..|f| - 1], n)
      + (if |f| - 1 < n then SlotEdges(|f| - 1, f[|f| - 1].links, n) else [])
  }

  /** Every rebuilt connection is fresh and active, and both its endpoints are particles. */
  lemma {:induction false} SlotEdgesShape(index: nat, links: seq<nat>, n: nat)
    requires index < n
    ensures forall k :: 0 <= k < |SlotEdges(index, links, n)| ==>
      var c := SlotEdges(index, links, n)[k];
      c.from == index && c.to < n && c.strength == 0.0 && c.active
  {
    if |links| > 0 {
      SlotEdgesShape(index, links[..|links| - 1], n);
    }
  }

  lemma {:induction false} EdgesShape(f: seq<Slot>, n: nat)
    ensures forall k :: 0 <= k < |Edges(f, n)| ==>
      var c := Edges(f, n)[k];
      c.from < n && c.from < |f| && c.to < n && c.strength == 0.0 && c.active
  {
    if |f| > 0 {
      EdgesShape(f[..|f| - 1], n);
      if |f| - 1 < n {
        SlotEdgesShape(|f| - 1, f[|f| - 1].links, n);
      }
    }
  }

  /** Slot `index` contributes a connection to `t` exactly when one of its entries is `t`
      and `t` is a particle. */
  lemma {:induction false} SlotEdgesMembership(index: nat, links: seq<nat>, n: nat, t: nat)
    ensures Connection(index, t, 0.0, true) in SlotEdges(index, links, n) <==> t in links && t < n
  {
    if |links| > 0 {
      var init := links[..|links| - 1];
      SlotEdgesMembership(index, init, n, t);
      assert links == init + [links[|links| - 1]];
    }
  }

  lemma {:induction false} SlotEdgesFrom(index: nat, links: seq<nat>, n: nat, c: Connection)
    requires c in SlotEdges(index, links, n)
    ensures c.from == index && c.strength == 0.0 && c.active
  {
    if |links| > 0 {
      var init := links[..|links| - 1];
      if c in SlotEdges(index, init, n) {
        SlotEdgesFrom(index, init, n, c);
      }
    }
  }

  /** The rebuilt list holds a connection from slot `i` to `t` exactly when `i` has a
      particle, `t` is one of slot `i`'s entries and `t` is a particle. */
  lemma {:induction false} EdgesMembership(f: seq<Slot>, n: nat, i: nat, t: nat)
    ensures Connection(i, t, 0.0, true) in Edges(f, n) <==> i < |f| && i < n && t in f[i].links && t < n
  {
    if |f| > 0 {
      var last := |f| - 1;
      var init := f[..last];
      var c := Connection(i, t, 0.0, true);
      var tail := if last < n then SlotEdges(last, f[last].links, n) else [];
      assert Edges(f, n) == Edges(init, n) + tail;
      EdgesMembership(init, n, i, t);
      if c in tail {
        SlotEdgesFrom(last, f[last].links, n, c);
      }
      if i < last {
        assert init[i] == f[i];
      } else if i == last && last < n {
        SlotEdgesMembership(last, f[last].links, n, t);
      }
    }
  }

  /** Nothing is deduplicated or dropped: when every slot has a particle and every entry
      names a slot, the list has one connection per adjacency entry. */
  lemma {:induction false} SlotEdgesCount(index: nat, links: seq<nat>, n: nat)
    requires forall j :: 0 <= j < |links| ==> links[j] < n
    ensures |SlotEdges(index, links, n)| == |links|
  {
    if |links| > 0 {
      SlotEdgesCount(index, links[..|links| - 1], n);
    }
  }

  lemma {:induction false} EdgesCount(f: seq<Slot>, n: nat)
    requires |f| <= n
    requires forall i :: 0 <= i < |f| ==> forall j :: 0 <= j < |f[i].links| ==> f[i].links[j] < n
    ensures |Edges(f, n)| == LinkCount(f)
  {
    if |f| > 0 {
      var init := f[..|f| - 1];
      assert forall i :: 0 <= i < |init| ==> init[i] == f[i];
      EdgesCount(init, n);
      SlotEdgesCount(|f| - 1, f[|f| - 1].links, n);
    }
  }

  /** Whatever the slots and particles, the list has at most one connection per entry. */
  lemma {:induction false} EdgesAtMost(f: seq<Slot>, n: nat)
    ensures |Edges(f, n)| <= LinkCount(f)
  {
    if |f| > 0 {
      EdgesAtMost(f[..|f| - 1], n);
    }
  }

  /** Every catalog formation yields one connection per adjacency entry on 120 particles. */
  lemma CatalogEdgesCount(name: FormationName)
    ensures |Edges(Slots(name), ParticleCount)| == LinkCount(Slots(name))
  {
    var f := Slots(name);
    CatalogWellFormed(name);
    forall i | 0 <= i < |f| ensures forall j :: 0 <= j < |f[i].links| ==> f[i].links[j] < ParticleCount {
      assert SlotWellFormed(f[i], |f|);
    }
    EdgesCount(f, ParticleCount);
  }

  /** Two slots linked both ways on three particles give two connections, 0 to 1 and 1 to 0,
      and the third particle takes part in none. */
  lemma TwoSlotScenario(a: real, b: real, c: real, d: real)
    ensures Edges([Slot(a, b, [1]), Slot(c, d, [0])], 3)
         == [Connection(0, 1, 0.0, true), Connection(1, 0, 0.0, true)]
  {
    var f := [Slot(a, b, [1]), Slot(c, d, [0])];
    var l0, l1: seq<nat> := [1], [0];
    assert l0[..0] == [] && l1[..0] == [];
    assert SlotEdges(0, l0, 3) == [Connection(0, 1, 0.0, true)];
    assert SlotEdges(1, l1, 3) == [Connection(1, 0, 0.0, true)];
    assert f[..1] == [Slot(a, b, l0)];
    assert f[..1][..0] == [];
    assert Edges(f[..1], 3) == [Connection(0, 1, 0.0, true)];
  }

  /** The strength of an active connection whose endpoints are `distance` apart and
      have average progress `avg`. */
  function ActiveStrength(avg: real, distance: real): (s: real)
    ensures IsProgress(avg) ==> IsStrength(s)
  {
    var m := Max(distance, MinDistance);
    var q := StrengthReach / m;
    if IsProgress(avg) then
      NonNegativeProduct(avg, q);
      Min(1.0, avg * q)
    else Min(1.0, avg * q)
  }

  /** Two fully settled endpoints within 250 pixels give a connection of full strength. */
  lemma SettledPairFullStrength(distance: real)
    requires distance <= StrengthReach
    ensures ActiveStrength(1.0, distance) == 1.0
  {
    var m := Max(distance, MinDistance);
    assert 0.0 < m <= StrengthReach;
  }

  /** Endpoints closer than 40 pixels count as 40 apart: the strength is then 6.25 times
      the average progress, capped at 1. */
  lemma NearPairStrength(sqrt: real -> real, avg: real, d2: real)
    requires IsSqrt(sqrt) && 0.0 <= d2 <= MinDistance * MinDistance
    ensures ActiveStrength(avg, sqrt(d2)) == Min(1.0, avg * 6.25)
  {
    DistanceThreshold(sqrt, d2, MinDistance);
  }

  /** One tick of one connection, with `ps` the particles after they moved and `sqrt`
      the square-root function used for distances. An active connection between two
      particles is recomputed from their distance and progress; an active connection
      naming a missing particle is left alone; an inactive one fades by 0.03, floored at 0.
      Endpoints and the active flag never change, and strengths stay in [0, 1] while
      every particle's progress is in [0, 1]. */
  function Strengthen(c: Connection, ps: seq<Particle>, sqrt: real -> real): (r: Connection)
    ensures r.from == c.from && r.to == c.to && r.active == c.active
    ensures !c.active ==> r.strength == Max(0.0, c.strength - FadeStep)
    ensures c.active && (c.from >= |ps| || c.to >= |ps|) ==> r == c
    ensures IsStrength(c.strength) && (forall i :: 0 <= i < |ps| ==> IsProgress(ps[i].formationProgress))
      ==> IsStrength(r.strength)
  {
    if c.active then
      if c.from < |ps| && c.to < |ps| then
        var a, b := ps[c.from], ps[c.to];
        var dx, dy := b.x - a.x, b.y - a.y;
        var avg := (a.formationProgress + b.formationProgress) / 2.0;
        c.(strength := ActiveStrength(avg, sqrt(dx * dx + dy * dy)))
      else c
    else c.(strength := Lower(c.strength, FadeStep))
  }

  /** An inactive connection's strength never grows and never goes negative. */
  lemma FadeMonotone(c: Connection, ps: seq<Particle>, sqrt: real -> real)
    requires !c.active && IsStrength(c.strength)
    ensures 0.0 <= Strengthen(c, ps, sqrt).strength <= c.strength
  {
  }

  /** From any strength in [0, 1], fading reaches 0 after 34 ticks, and not sooner from 1. */
  lemma FadeWithin(s: real)
    requires IsStrength(s)
    ensures LowerN(s, FadeStep, 34) == 0.0
    ensures LowerN(1.0, FadeStep, 33) > 0.0
  {
    LowerNClosedForm(s, FadeStep, 34);
    LowerNClosedForm(1.0, FadeStep, 33);
  }

  /** A connection is drawn when it is stronger than 0.15 and both endpoints exist. */
  predicate Drawn(c: Connection, n: nat)
  {
    c.strength > VisibleStrength && c.from < n && c.to < n
  }

  /** The alpha byte of a drawn connection's colour, `floor(strength * 100)`: for a
      strength in [0, 1] it is between 15 and 100, so its two-digit hex padding is exact. */
  function DrawAlpha(c: Connection): (a: int)
    ensures c.strength > VisibleStrength && IsStrength(c.strength) ==> 15 <= a <= 100 < 256
  {
    (c.strength * 100.0).Floor
  }
}
