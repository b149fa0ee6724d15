/** The background animation's simulation state and its per-frame update:
    a fixed array of 120 particles, the connection list of the current formation,
    the formation counter and the formation timer, updated in place. */
module Simulation {
  import opened Catalog
  import opened Particles
  import opened Connections
  import opened Controller

  /** The `active := false` image of a connection list, element by element. */
  function Deactivated(cs: seq<Connection>): (r: seq<Connection>)
    ensures |r| == |cs|
    ensures forall k :: 0 <= k < |cs| ==> r[k] == cs[k].(active := false)
  {
    seq(|cs|, k requires 0 <= k < |cs| => cs[k].(active := false))
  }

  /** What a tick's transition does to particle `i`. */
  function Transitioned(e: Event, p: Particle, i: nat, slots: seq<Slot>, r: Draw2, w: nat, h: nat): (q: Particle)
    ensures q.x == p.x && q.y == p.y && q.vx == p.vx && q.vy == p.vy
    ensures q.formationProgress == p.formationProgress && q.pulsePhase == p.pulsePhase
    ensures e == Disperse ==> !q.isForming && q.connectionStrength == 0.0
    ensures e == Advance ==> (q.isForming <==> i < |slots|)
    ensures e == Hold ==> q == p
  {
    match e
    case Advance => Reassign(p, i, slots, r, w, h)
    case Disperse => Release(p, r, w, h)
    case Hold => p
  }

  /** What a tick's transition does to the connection list. */
  function TransitionedLinks(e: Event, cs: seq<Connection>, slots: seq<Slot>): (r: seq<Connection>)
    ensures e != Advance ==> |r| == |cs|
    ensures e != Advance ==> forall k :: 0 <= k < |r| ==>
      r[k].from == cs[k].from && r[k].to == cs[k].to && r[k].strength == cs[k].strength
    ensures e == Disperse ==> forall k :: 0 <= k < |r| ==> !r[k].active
    ensures e == Advance ==> |r| <= LinkCount(slots)
    ensures e == Advance ==> forall k :: 0 <= k < |r| ==>
      r[k].from < |slots| && r[k].to < ParticleCount && r[k].strength == 0.0 && r[k].active
  {
    match e
    case Advance =>
      EdgesAtMost(slots, ParticleCount);
      EdgesShape(slots, ParticleCount);
      Edges(slots, ParticleCount)
    case Disperse => Deactivated(cs)
    case Hold => cs
  }

  /** The strength bound of every connection once the formation has dispersed:
      it falls by 0.03 per tick from 1 at timer 6000, floored at 0. */
  function FadeBound(timer: int): real
  {
    Lower(1.0, FadeStep * ((timer - FormationDuration) / TimerStep) as real)
  }

  /** One step of the fade bound matches one fade of a connection. */
  lemma FadeBoundStep(timer: int, s: real)
    requires timer >= DisperseAt && s <= FadeBound(timer - TimerStep)
    ensures Lower(s, FadeStep) <= FadeBound(timer)
  {
    assert (timer - FormationDuration) / TimerStep == (timer - TimerStep - FormationDuration) / TimerStep + 1;
  }

  /** Every connection is invisible from timer 6464 and has faded to 0 from timer 6544,
      well before the rebuild at 8000. */
  lemma FadeBoundVanishes(timer: int)
    ensures timer >= FormationDuration + TimerStep * 29 ==> FadeBound(timer) <= VisibleStrength
    ensures timer >= FormationDuration + TimerStep * 34 ==> FadeBound(timer) == 0.0
    ensures FormationDuration <= timer < FormationDuration + TimerStep * 28 ==> FadeBound(timer) > VisibleStrength
  {
    var k := (timer - FormationDuration) / TimerStep;
    if timer >= FormationDuration + TimerStep * 29 { assert k >= 29; }
    if FormationDuration <= timer < FormationDuration + TimerStep * 28 { assert 0 <= k < 28; }
  }

  /** A strength update keeps every connection's endpoints and flag, and keeps strengths
      in [0, 1] while every progress value is in [0, 1]. */
  lemma StrengthenedKeeps(cs: seq<Connection>, ps: seq<Particle>, sqrt: real -> real, r: seq<Connection>)
    requires |r| == |cs| && forall k :: 0 <= k < |r| ==> r[k] == Strengthen(cs[k], ps, sqrt)
    ensures forall k :: 0 <= k < |r| ==>
      r[k].from == cs[k].from && r[k].to == cs[k].to && r[k].active == cs[k].active
    ensures (forall i :: 0 <= i < |ps| ==> IsProgress(ps[i].formationProgress)) ==>
      forall k :: 0 <= k < |r| && IsStrength(cs[k].strength) ==> IsStrength(r[k].strength)
  {
  }

  /** A strength update of connections that were below the fade bound of the previous
      timer value leaves them below the fade bound of the current one. */
  lemma FadeCarried(timer: int, cs: seq<Connection>, ps: seq<Particle>, sqrt: real -> real, r: seq<Connection>)
    requires |r| == |cs| && forall k :: 0 <= k < |r| ==> r[k] == Strengthen(cs[k], ps, sqrt)
    requires forall k :: 0 <= k < |cs| ==> !cs[k].active
    requires timer >= DisperseAt ==> forall k :: 0 <= k < |cs| ==> cs[k].strength <= FadeBound(timer - TimerStep)
    ensures timer >= DisperseAt ==> forall k :: 0 <= k < |r| ==> r[k].strength <= FadeBound(timer)
  {
    if timer >= DisperseAt {
      forall k | 0 <= k < |r|
        ensures r[k].strength <= FadeBound(timer)
      {
        FadeBoundStep(timer, cs[k].strength);
      }
    }
  }

  /** A fresh array of the 120 particles spawned from the caller's draws. */
  method SpawnAll(seeds: seq<Seed>, w: nat, h: nat) returns (ps: array<Particle>)
    requires |seeds| == ParticleCount && forall i :: 0 <= i < |seeds| ==> SeedValid(seeds[i])
    ensures fresh(ps) && ps.Length == ParticleCount
    ensures forall i :: 0 <= i < ParticleCount ==> ps[i] == Spawn(seeds[i], w, h)
    ensures forall i :: 0 <= i < ParticleCount ==> IsProgress(ps[i].formationProgress)
  {
    ps := new Particle[ParticleCount](i requires 0 <= i < ParticleCount => Spawn(seeds[i], w, h));
  }

  class Simulation {
    /** The formation library captured by the animation, fixed at creation. */
    const formations: FormationName -> seq<Slot>
    const particles: array<Particle>
    var connections: seq<Connection>
    var currentFormation: nat
    var formationTimer: int
    /** The canvas size; the resize listener writes it. */
    var width: nat
    var height: nat

    /** The slots of the formation the counter selects. */
    function CurrentSlots(): seq<Slot>
      reads this
    {
      formations(Selected(currentFormation))
    }

    /** The connection list holds exactly the endpoints of the current formation's edges. */
    ghost predicate Wired()
      reads this
    {
      var e := Edges(CurrentSlots(), ParticleCount);
      && |connections| == |e|
      && forall k :: 0 <= k < |connections| ==>
           connections[k].from == e[k].from && connections[k].to == e[k].to
    }

    /** Before the dispersal tick the formation's connections are active and its slot
        particles are forming; from the dispersal tick until the rebuild, nothing is. */
    ghost predicate Phased()
      reads this, particles
    {
      && (forall k :: 0 <= k < |connections| ==> connections[k].active == (formationTimer < DisperseAt))
      && (forall i :: 0 <= i < particles.Length ==>
            && particles[i].isForming == (i < |CurrentSlots()| && formationTimer < DisperseAt)
            && particles[i].connectionStrength == (if particles[i].isForming then 1.0 else 0.0))
    }

    /** Progress and strength values stay in [0, 1]. */
    ghost predicate Bounded()
      reads this, particles
    {
      && (forall i :: 0 <= i < particles.Length ==> IsProgress(particles[i].formationProgress))
      && (forall k :: 0 <= k < |connections| ==> IsStrength(connections[k].strength))
    }

    ghost predicate Valid()
      reads this, particles
    {
      && particles.Length == ParticleCount
      && TimerInRange(formationTimer)
      && Wired() && Phased() && Bounded()
    }

    /** After the dispersal tick every connection is below the fade bound. */
    ghost predicate Faded()
      reads this
    {
      formationTimer >= DisperseAt ==>
        forall k :: 0 <= k < |connections| ==> connections[k].strength <= FadeBound(formationTimer)
    }

    /** Between the transition and the strength update: after the dispersal tick every
        connection is below the fade bound of the previous timer value. */
    ghost predicate FadeReady()
      reads this
    {
      formationTimer >= DisperseAt ==>
        forall k :: 0 <= k < |connections| ==> connections[k].strength <= FadeBound(formationTimer - TimerStep)
    }

    /** Creates the particles from the caller's draws and builds the first formation
        (`relocate` are the draws for the particles it leaves free). */
    constructor (library: FormationName -> seq<Slot>, w: nat, h: nat, seeds: seq<Seed>, relocate: seq<Draw2>)
      requires |seeds| == ParticleCount && forall i :: 0 <= i < |seeds| ==> SeedValid(seeds[i])
      requires |relocate| == ParticleCount
      ensures Valid() && Faded() && fresh(particles) && formations == library
      ensures width == w && height == h && Clock(currentFormation, formationTimer) == Run(0)
      ensures Selected(currentFormation) == Robot && connections == Edges(CurrentSlots(), ParticleCount)
      ensures forall i :: 0 <= i < ParticleCount ==>
        particles[i] == Reassign(Spawn(seeds[i], w, h), i, CurrentSlots(), relocate[i], w, h)
    {
      formations := library;
      width, height := w, h;
      var ps := SpawnAll(seeds, w, h);
      particles := ps;
      connections := [];
      currentFormation, formationTimer := 0, 0;
      new;
      BuildCurrent(relocate);
    }

    /** With the timer at 0, building the formation the counter selects leaves the
        state valid. */
    method BuildCurrent(relocate: seq<Draw2>)
      requires particles.Length == ParticleCount && |relocate| == ParticleCount && formationTimer == 0
      requires forall i :: 0 <= i < ParticleCount ==> IsProgress(particles[i].formationProgress)
      modifies this`connections, particles
      ensures Valid() && Faded()
      ensures connections == Edges(CurrentSlots(), ParticleCount)
      ensures forall i :: 0 <= i < ParticleCount ==>
        particles[i] == Reassign(old(particles[i]), i, CurrentSlots(), relocate[i], width, height)
    {
      UpdateFormation(relocate);
      EstablishRebuilt();
    }

    /** The facts a rebuild leaves behind make the state valid at timer 0. */
    lemma EstablishRebuilt()
      requires particles.Length == ParticleCount && formationTimer == 0
      requires connections == Edges(CurrentSlots(), ParticleCount)
      requires forall i :: 0 <= i < ParticleCount ==>
        && particles[i].isForming == (i < |CurrentSlots()|)
        && particles[i].connectionStrength == (if i < |CurrentSlots()| then 1.0 else 0.0)
        && IsProgress(particles[i].formationProgress)
      ensures Valid() && Faded()
    {
      EdgesShape(CurrentSlots(), ParticleCount);
    }

    /** Rebuilds the formation the counter selects. Slot `i` takes particle `i` into
        formation; every other particle is set free towards its draw in `relocate`;
        the connection list is emptied and refilled with one fresh active connection
        per adjacency entry. Nothing else changes. */
    method UpdateFormation(relocate: seq<Draw2>)
      requires particles.Length == ParticleCount && |relocate| == ParticleCount
      modifies this`connections, particles
      ensures connections == Edges(CurrentSlots(), ParticleCount)
      ensures forall i :: 0 <= i < ParticleCount ==>
        particles[i] == Reassign(old(particles[i]), i, CurrentSlots(), relocate[i], width, height)
    {
      AssignFormation(CurrentSlots(), relocate);
    }

    /** Takes particles into the slots of `slots` and rebuilds the connection list
        from their adjacency lists; the particles without a slot are set free. */
    method AssignFormation(slots: seq<Slot>, relocate: seq<Draw2>)
      requires |relocate| == particles.Length
      modifies this`connections, particles
      ensures connections == Edges(slots, particles.Length)
      ensures forall i :: 0 <= i < particles.Length ==>
        particles[i] == Reassign(old(particles[i]), i, slots, relocate[i], width, height)
    {
      var n := particles.Length;
      connections := [];
      var index := 0;
      while index < |slots|
        invariant 0 <= index <= |slots|
        invariant connections == Edges(slots[..index], n)
        invariant forall i :: 0 <= i < n ==>
          particles[i] == (if i < index then Assign(old(particles[i]), slots[i], width, height) else old(particles[i]))
      {
        TakeSlot(index, slots);
        index := index + 1;
      }
      assert slots[..|slots|] == slots;
      if |slots| < n {
        ReleaseFrom(|slots|, relocate);
      }
    }

    /** Sets free every particle from index `start` on, particle `i` towards its draw
        `relocate[i]`; the particles before `start` are left as they are. */
    method ReleaseFrom(start: nat, relocate: seq<Draw2>)
      requires |relocate| == particles.Length
      modifies particles
      ensures forall k :: 0 <= k < particles.Length ==>
        particles[k] == (if k < start then old(particles[k]) else Release(old(particles[k]), relocate[k], width, height))
    {
      var i := start;
      while i < particles.Length
        invariant start <= i
        invariant forall k :: 0 <= k < particles.Length ==>
          particles[k] == (if start <= k < i then Release(old(particles[k]), relocate[k], width, height) else old(particles[k]))
      {
        particles[i] := Release(particles[i], relocate[i], width, height);
        i := i + 1;
      }
    }

    /** Slot `index` of `slots` takes particle `index`, when there is one, and adds its
        connections. */
    method TakeSlot(index: nat, slots: seq<Slot>)
      requires index < |slots| && connections == Edges(slots[..index], particles.Length)
      modifies this`connections, particles
      ensures connections == Edges(slots[..index + 1], particles.Length)
      ensures forall i :: 0 <= i < particles.Length ==>
        particles[i] == (if i == index then Assign(old(particles[i]), slots[i], width, height) else old(particles[i]))
    {
      assert slots[..index + 1][..index] == slots[..index];
      if index < particles.Length {
        particles[index] := Assign(particles[index], slots[index], width, height);
        PushSlotEdges(index, slots[index].links);
      }
    }

    /** Appends one fresh active connection from particle `index` per adjacency entry
        in `links` that names a particle, in entry order. */
    method PushSlotEdges(index: nat, links: seq<nat>)
      modifies this`connections
      ensures connections == old(connections) + SlotEdges(index, links, particles.Length)
    {
      var j := 0;
      while j < |links|
        invariant 0 <= j <= |links|
        invariant connections == old(connections) + SlotEdges(index, links[..j], particles.Length)
      {
        assert links[..j + 1][..j] == links[..j];
        if links[j] < particles.Length {
          connections := connections + [Connection(index, links[j], 0.0, true)];
        }
        j := j + 1;
      }
      assert links[..|links|] == links;
    }

    /** Disperses the formation: every particle is set free towards its draw in
        `relocate`, and every connection is marked inactive with its endpoints and
        strength kept. */
    method DisperseFormation(relocate: seq<Draw2>)
      requires |relocate| == particles.Length
      requires Wired() && Bounded()
      modifies this`connections, particles
      ensures Wired() && Bounded()
      ensures forall i :: 0 <= i < particles.Length ==>
        particles[i] == Release(old(particles[i]), relocate[i], width, height)
      ensures connections == Deactivated(old(connections))
    {
      var i := 0;
      while i < particles.Length
        modifies particles
        invariant 0 <= i <= particles.Length
        invariant forall k :: 0 <= k < particles.Length ==>
          particles[k] == (if k < i then Release(old(particles[k]), relocate[k], width, height) else old(particles[k]))
      {
        particles[i] := Release(particles[i], relocate[i], width, height);
        i := i + 1;
      }
      var k := 0;
      while k < |connections|
        modifies this`connections
        invariant 0 <= k <= |connections| == |old(connections)|
        invariant forall j :: 0 <= j < |connections| ==>
          connections[j] == (if j < k then old(connections[j]).(active := false) else old(connections[j]))
      {
        connections := connections[k := connections[k].(active := false)];
        k := k + 1;
      }
    }

    /** The end of a cycle: the counter moves on, the next formation is built, and the
        timer restarts at 0. */
    method RebuildNext(relocate: seq<Draw2>)
      requires particles.Length == ParticleCount && |relocate| == ParticleCount
      requires forall i :: 0 <= i < ParticleCount ==> IsProgress(particles[i].formationProgress)
      modifies this`formationTimer, this`currentFormation, this`connections, particles
      ensures Valid() && FadeReady()
      ensures currentFormation == old(currentFormation) + 1 && formationTimer == 0
      ensures connections == Edges(CurrentSlots(), ParticleCount)
      ensures forall i :: 0 <= i < ParticleCount ==>
        particles[i] == Reassign(old(particles[i]), i, CurrentSlots(), relocate[i], width, height)
    {
      currentFormation, formationTimer := currentFormation + 1, 0;
      BuildCurrent(relocate);
    }

    /** The dispersal tick: the formation disperses, which leaves the state valid with
        the timer at 6016. */
    method DisperseNow(relocate: seq<Draw2>)
      requires particles.Length == ParticleCount && |relocate| == ParticleCount
      requires formationTimer == DisperseAt && Wired() && Bounded()
      modifies this`connections, particles
      ensures Valid() && FadeReady()
      ensures forall i :: 0 <= i < ParticleCount ==>
        particles[i] == Release(old(particles[i]), relocate[i], width, height)
      ensures connections == Deactivated(old(connections))
    {
      DisperseFormation(relocate);
    }

    /** Advances the timer by 16 and runs the transition it reaches: at 8000 the
        counter moves on, the next formation is built and the timer restarts at 0;
        at 6016 the formation disperses; any other value changes nothing else. */
    method AdvanceTimer(relocate: seq<Draw2>)
      requires Valid() && Faded() && |relocate| == ParticleCount
      modifies this`formationTimer, this`currentFormation, this`connections, particles
      ensures Valid()
      ensures formationTimer == NextTimer(old(formationTimer))
      ensures currentFormation == if EventAt(old(formationTimer)) == Advance then old(currentFormation) + 1 else old(currentFormation)
      ensures connections == TransitionedLinks(EventAt(old(formationTimer)), old(connections), CurrentSlots())
      ensures forall i :: 0 <= i < ParticleCount ==>
        particles[i] == Transitioned(EventAt(old(formationTimer)), old(particles[i]), i, CurrentSlots(), relocate[i], width, height)
      ensures FadeReady()
    {
      ghost var e := EventAt(formationTimer);
      formationTimer := formationTimer + TimerStep;
      if formationTimer >= FormationDuration + TransitionDuration {
        RebuildNext(relocate);
      } else if formationTimer >= FormationDuration {
        if formationTimer == DisperseAt {
          DisperseNow(relocate);
        } else {
          assert e == Hold && Phased();
        }
      } else {
        assert e == Hold && Phased();
      }
    }

    /** Moves every particle one tick, particle `i` with the draws `moves[i]`. */
    method StepParticles(moves: seq<Move>)
      requires Valid() && |moves| == particles.Length
      modifies particles
      ensures Valid()
      ensures forall i :: 0 <= i < particles.Length ==>
        particles[i] == Step(old(particles[i]), width, height, moves[i])
    {
      var i := 0;
      while i < particles.Length
        invariant 0 <= i <= particles.Length
        invariant forall k :: 0 <= k < particles.Length ==>
          particles[k] == (if k < i then Step(old(particles[k]), width, height, moves[k]) else old(particles[k]))
      {
        particles[i] := Step(particles[i], width, height, moves[i]);
        i := i + 1;
      }
    }

    /** Recomputes every connection's strength from the particles as they now stand. */
    method UpdateConnections(sqrt: real -> real)
      requires Valid()
      modifies this`connections
      ensures Valid()
      ensures |connections| == |old(connections)|
      ensures forall k :: 0 <= k < |connections| ==>
        connections[k] == Strengthen(old(connections[k]), particles[..], sqrt)
      ensures old(FadeReady()) ==> Faded()
    {
      var k := 0;
      while k < |connections|
        invariant 0 <= k <= |connections| == |old(connections)|
        invariant forall j :: 0 <= j < |connections| ==>
          connections[j] == (if j < k then Strengthen(old(connections[j]), particles[..], sqrt) else old(connections[j]))
      {
        connections := connections[k := Strengthen(connections[k], particles[..], sqrt)];
        k := k + 1;
      }
      StrengthenedKeeps(old(connections), particles[..], sqrt, connections);
      if formationTimer >= DisperseAt && old(FadeReady()) {
        FadeCarried(formationTimer, old(connections), particles[..], sqrt, connections);
      }
    }

    /** One animation frame: the timer and its transition, then every particle,
        then every connection. The state stays valid and, after dispersal, every
        connection stays below the fade bound. */
    method Tick(relocate: seq<Draw2>, moves: seq<Move>, sqrt: real -> real)
      requires Valid() && Faded()
      requires |relocate| == ParticleCount && |moves| == ParticleCount
      modifies this`formationTimer, this`currentFormation, this`connections, particles
      ensures Valid() && Faded()
      ensures Clock(currentFormation, formationTimer) == TickClock(Clock(old(currentFormation), old(formationTimer)))
      ensures forall i :: 0 <= i < ParticleCount ==>
        particles[i] == Step(Transitioned(EventAt(old(formationTimer)), old(particles[i]), i, CurrentSlots(), relocate[i], width, height),
                             width, height, moves[i])
      ensures var links := TransitionedLinks(EventAt(old(formationTimer)), old(connections), CurrentSlots());
        |connections| == |links| &&
        forall k :: 0 <= k < |links| ==> connections[k] == Strengthen(links[k], particles[..], sqrt)
    {
      AdvanceTimer(relocate);
      StepParticles(moves);
      assert FadeReady();
      UpdateConnections(sqrt);
    }

    /** The canvas was resized: particles keep their positions and targets. */
    method Resize(w: nat, h: nat)
      modifies this`width, this`height
      ensures width == w && height == h
    {
      width, height := w, h;
    }

    /** The indices of the connections drawn this frame, in list order: exactly those
        stronger than 0.15 whose endpoints are particles. */
    method DrawnConnections() returns (drawn: seq<nat>)
      ensures forall j :: 0 <= j < |drawn| ==>
        drawn[j] < |connections| && Drawn(connections[drawn[j]], particles.Length)
      ensures forall k :: 0 <= k < |connections| && Drawn(connections[k], particles.Length) ==> k in drawn
      ensures forall a, b :: 0 <= a < b < |drawn| ==> drawn[a] < drawn[b]
    {
      drawn := [];
      var k := 0;
      while k < |connections|
        invariant 0 <= k <= |connections|
        invariant forall j :: 0 <= j < |drawn| ==> drawn[j] < k && Drawn(connections[drawn[j]], particles.Length)
        invariant forall m :: 0 <= m < k && Drawn(connections[m], particles.Length) ==> m in drawn
        invariant forall a, b :: 0 <= a < b < |drawn| ==> drawn[a] < drawn[b]
      {
        if Drawn(connections[k], particles.Length) {
          drawn := drawn + [k];
        }
        k := k + 1;
      }
    }
  }

  /** The animation as the page starts it: the simulation over the catalog, showing
      the robot with one connection per adjacency entry of the robot. */
  method Launch(w: nat, h: nat, seeds: seq<Seed>, relocate: seq<Draw2>) returns (s: Simulation)
    requires |seeds| == ParticleCount && forall i :: 0 <= i < |seeds| ==> SeedValid(seeds[i])
    requires |relocate| == ParticleCount
    ensures fresh(s) && fresh(s.particles) && s.formations == Slots && s.Valid() && s.Faded()
    ensures s.width == w && s.height == h && Clock(s.currentFormation, s.formationTimer) == Run(0)
    ensures s.CurrentSlots() == Slots(Robot) && |s.connections| == LinkCount(Slots(Robot))
    ensures s.connections == Edges(Slots(Robot), ParticleCount)
    ensures forall i :: 0 <= i < ParticleCount ==>
      s.particles[i] == Reassign(Spawn(seeds[i], w, h), i, Slots(Robot), relocate[i], w, h)
  {
    s := new Simulation(Slots, w, h, seeds, relocate);
    CatalogEdgesCount(Robot);
  }

  /** Once the timer reaches 6464 no connection is drawn, and from 6544 every
      connection's strength is 0. */
  lemma FadedOut(s: Simulation)
    requires s.Valid() && s.Faded()
    ensures s.formationTimer >= FormationDuration + TimerStep * 29 ==>
      forall k :: 0 <= k < |s.connections| ==> !Drawn(s.connections[k], ParticleCount)
    ensures s.formationTimer >= FormationDuration + TimerStep * 34 ==>
      forall k :: 0 <= k < |s.connections| ==> s.connections[k].strength == 0.0
  {
    FadeBoundVanishes(s.formationTimer);
  }
}
