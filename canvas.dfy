/** The running simulation behind the canvas: the body's state and trail,
    updated in place once per animation frame, and the component that keeps
    or rebuilds it as the controls change. */
module Canvas {
  import opened MathModel
  import opened Physics
  import opened Trail
  import opened Camera
  import opened Parameters

  /** The starting distance of the body from the sun, on the positive x axis. */
  const StartX: real := 200.0

  /** The distance the start-up code computes for the starting point. */
  function InitialRadius(m: MathLib): real
  {
    m.sqrt(StartX * StartX + 0.0 * 0.0)
  }

  /** The starting state: at (200, 0), moving along +y with the speed
      `sqrt(gm / r)` of a circular Newtonian orbit. */
  function InitialBody(gm: real, m: MathLib): (b: Body)
    requires InitialRadius(m) != 0.0
    ensures b.pos == Vec(StartX, 0.0) && b.vel.x == 0.0
  {
    Body(Vec(StartX, 0.0), Vec(0.0, m.sqrt(gm / InitialRadius(m))))
  }

  /** With a sound square root the starting radius is exactly 200, and for a
      non-negative coupling the starting velocity is tangential with
      `v^2 = gm / r`: the Newtonian pull at the start is exactly the
      centripetal acceleration `v^2 / r` of a circle of radius 200. */
  lemma InitialOrbitIsCircular(law: ForceLaw, m: MathLib)
    requires Sound(m)
    requires law.potential.Newtonian? && law.gm >= 0.0
    ensures InitialRadius(m) == StartX
    ensures InitialBody(law.gm, m).vel.y >= 0.0
    ensures InitialBody(law.gm, m).vel.y * InitialBody(law.gm, m).vel.y == law.gm / StartX
    ensures Accel(law, InitialBody(law.gm, m).pos, InitialRadius(m), m) ==
      Vec(-(InitialBody(law.gm, m).vel.y * InitialBody(law.gm, m).vel.y) / StartX, 0.0)
  {
    SqrtOfSquare(m, StartX);
    assert StartX * StartX + 0.0 * 0.0 == StartX * StartX;
    assert law.gm / StartX >= 0.0;
    var v := m.sqrt(law.gm / StartX);
    assert v >= 0.0 && v * v == law.gm / StartX;
    assert Cube(StartX) == StartX * StartX * StartX;
  }

  class Simulation {
    /** The parameters this run was built with; they never change during it. */
    const law: ForceLaw
    const math: MathLib

    var x: real
    var y: real
    var vx: real
    var vy: real
    /** Distance from the sun, as computed at the start of the last tick. */
    var r: real
    var trail: seq<TrailPoint>

    ghost predicate Valid()
      reads this
    {
      Sound(math) && |trail| <= Capacity
    }

    function State(): Body
      reads this
    {
      Body(Vec(x, y), Vec(vx, vy))
    }

    /** Whether this is the state a run starts from: the initial body, the
        initial radius and an empty trail. */
    ghost predicate IsInitial()
      reads this
    {
      InitialRadius(math) != 0.0 &&
      r == InitialRadius(math) && State() == InitialBody(law.gm, math) && trail == []
    }

    constructor (law: ForceLaw, m: MathLib)
      requires Sound(m)
      ensures this.law == law && math == m
      ensures Valid() && IsInitial()
    {
      this.law := law;
      math := m;
      var x0, y0 := StartX, 0.0;
      var r0 := m.sqrt(x0 * x0 + y0 * y0);
      SqrtOfSquare(m, StartX);
      var v := m.sqrt(law.gm / r0);
      x, y, r := x0, y0, r0;
      vx, vy := 0.0, v;
      trail := [];
    }

    /** One tick: recompute the distance, advance the body by one
        semi-implicit Euler step of length `12 * speed`, record the new
        position in the trail and recompute every opacity. The selected law
        divides by a power of the distance, which must not vanish. */
    method Update(speed: real)
      requires Valid()
      requires Defined(law, Distance(Vec(x, y), math), math)
      modifies this
      ensures Valid()
      ensures r == Distance(old(Vec(x, y)), math)
      ensures Defined(law, r, math)
      ensures State() == Tick(law, old(State()), r, speed, math)
      ensures trail == Record(old(trail), Vec(x, y), math)
      ensures |trail| == if old(|trail|) < Capacity then old(|trail|) + 1 else Capacity
      ensures Positions(trail)[|trail| - 1] == Vec(x, y)
    {
      ghost var before := State();
      r := Distance(Vec(x, y), math);
      var dt := BaseStep * speed;
      var a := Accel(law, Vec(x, y), r, math);
      Integrate(a, dt);
      PushPoint();
      Refresh();
    }

    /** The integration half of a tick: the velocity first, then the
        position with the new velocity. */
    method Integrate(a: Vec, dt: real)
      modifies this`x, this`y, this`vx, this`vy
      ensures State() == Step(old(State()), a, dt)
    {
      ghost var before := State();
      vx := vx + a.x * dt;
      vy := vy + a.y * dt;
      x := x + vx * dt;
      y := y + vy * dt;
      StepComponents(before, a, dt, State());
    }

    /** Push the current position with full opacity and drop the oldest
        point if that exceeds the capacity. */
    method PushPoint()
      requires Valid()
      modifies this`trail
      ensures Valid()
      ensures trail == Push(old(trail), TrailPoint(x, y, 1.0))
    {
      var point := TrailPoint(x, y, 1.0);
      trail := trail + [point];
      if |trail| > Capacity {
        trail := trail[1..];
      }
    }

    /** Overwrite every point's opacity in place from its index. */
    method Refresh()
      modifies this`trail
      ensures trail == Refade(old(trail), math)
    {
      ghost var before := trail;
      var n := |trail|;
      var i := 0;
      while i < n
        invariant 0 <= i <= n == |trail| == |before|
        invariant forall j :: 0 <= j < i ==>
          trail[j] == before[j].(alpha := math.pow(FadeArg(j, n), FadeExponent))
        invariant forall j :: i <= j < n ==> trail[j] == before[j]
      {
        trail := trail[i := trail[i].(alpha := math.pow(FadeArg(i, n), FadeExponent))];
        i := i + 1;
      }
      RefadeAt(before, math, trail);
    }

    /** The drawable content of one frame: the sun and the body as discs
        whose sizes scale with the zoom, and one stroke between each pair of
        consecutive trail points, all placed by the camera. */
    method Draw(zoom: real, centerOnSun: bool) returns (scene: Scene)
      ensures scene == SceneOf(trail, Vec(x, y), zoom, centerOnSun)
      ensures scene.sun == Disc(Transform(centerOnSun, zoom, Vec(x, y), Vec(0.0, 0.0)), 20.0 * zoom, 10.0 * zoom)
      ensures scene.planet == Disc(Transform(centerOnSun, zoom, Vec(x, y), Vec(x, y)), 12.0 * zoom, 5.0 * zoom)
      ensures |scene.segments| == if |trail| == 0 then 0 else |trail| - 1
      ensures forall i :: 0 <= i < |scene.segments| ==>
        scene.segments[i] == Segment(
          Transform(centerOnSun, zoom, Vec(x, y), Vec(trail[i].x, trail[i].y)),
          Transform(centerOnSun, zoom, Vec(x, y), Vec(trail[i + 1].x, trail[i + 1].y)),
          trail[i + 1].alpha)
    {
      var body := Vec(x, y);
      var sunPos := Transform(centerOnSun, zoom, body, Vec(0.0, 0.0));
      var segments: seq<Segment> := [];
      var i := 1;
      while i < |trail|
        invariant 1 <= i <= if |trail| == 0 then 1 else |trail|
        invariant |segments| == i - 1
        invariant forall k :: 0 <= k < i - 1 ==>
          segments[k] == Segment(
            Transform(centerOnSun, zoom, body, Vec(trail[k].x, trail[k].y)),
            Transform(centerOnSun, zoom, body, Vec(trail[k + 1].x, trail[k + 1].y)),
            trail[k + 1].alpha)
      {
        var prev := Transform(centerOnSun, zoom, body, Vec(trail[i - 1].x, trail[i - 1].y));
        var curr := Transform(centerOnSun, zoom, body, Vec(trail[i].x, trail[i].y));
        segments := segments + [Segment(prev, curr, trail[i].alpha)];
        i := i + 1;
      }
      var planetPos := PlanetPosition(centerOnSun, zoom, body);
      scene := Scene(Disc(sunPos, 20.0 * zoom, 10.0 * zoom), segments, Disc(planetPos, 12.0 * zoom, 5.0 * zoom));
    }
  }

  /** The canvas component: the live parameters it reads through refs on
      every frame, the dependency tuple its animation effect was started
      with, and the simulation that effect owns. */
  class OrbitCanvas {
    const math: MathLib
    var speedRef: real
    var zoomRef: real
    var centerOnSunRef: bool
    var deps: ForceLaw
    var sim: Simulation

    ghost predicate Valid()
      reads this, sim
    {
      sim.Valid() && sim.law == deps && sim.math == math
    }

    /** Mounting the canvas starts a fresh simulation for the current
        controls. */
    constructor (props: Controls, m: MathLib)
      requires Sound(m)
      ensures Valid() && fresh(sim) && sim.IsInitial()
      ensures math == m && deps == LawOf(props)
      ensures speedRef == props.simulationSpeed && zoomRef == props.zoom
      ensures centerOnSunRef == props.centerOnSun
    {
      math := m;
      speedRef := props.simulationSpeed;
      zoomRef := props.zoom;
      centerOnSunRef := props.centerOnSun;
      deps := LawOf(props);
      sim := new Simulation(LawOf(props), m);
    }

    /** New controls reach the canvas: the refs always take the new speed,
        zoom and camera mode; the simulation is torn down and rebuilt from
        the initial state exactly when the dependency tuple changed, and is
        otherwise left as it was. */
    method Receive(props: Controls)
      requires Valid()
      modifies this
      ensures Valid()
      ensures speedRef == props.simulationSpeed && zoomRef == props.zoom
      ensures centerOnSunRef == props.centerOnSun
      ensures deps == LawOf(props)
      ensures old(deps) != LawOf(props) ==> fresh(sim) && sim.IsInitial()
      ensures old(deps) == LawOf(props) ==> sim == old(sim) && unchanged(sim)
    {
      speedRef := props.simulationSpeed;
      zoomRef := props.zoom;
      centerOnSunRef := props.centerOnSun;
      if deps != LawOf(props) {
        deps := LawOf(props);
        sim := new Simulation(deps, math);
      }
    }

    /** One animation frame: a tick at the current speed, then the scene at
        the current zoom and camera mode. */
    method Animate() returns (scene: Scene)
      requires Valid()
      requires Defined(deps, Distance(Vec(sim.x, sim.y), math), math)
      modifies sim
      ensures Valid()
      ensures sim.r == Distance(old(Vec(sim.x, sim.y)), math) && Defined(deps, sim.r, math)
      ensures sim.State() == Tick(deps, old(sim.State()), sim.r, speedRef, math)
      ensures sim.trail == Record(old(sim.trail), Vec(sim.x, sim.y), math)
      ensures scene == SceneOf(sim.trail, Vec(sim.x, sim.y), zoomRef, centerOnSunRef)
    {
      sim.Update(speedRef);
      scene := sim.Draw(zoomRef, centerOnSunRef);
    }
  }
}
