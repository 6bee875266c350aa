/** The integrator of one animation tick: the acceleration of the body under
    the selected force law, and the semi-implicit Euler step that uses it.
    The sun sits fixed at the origin. */
module Physics {
  import opened MathModel

  /** The force law selected by the user interface; `Other` stands for any
      selector value that names none of the four laws. */
  datatype Potential = Newtonian | Modified | Relativistic | Coulombian | Other(name: string)

  /** The four selector values that name a law. */
  predicate Reserved(name: string)
  {
    name == "Newtoniano" || name == "Modificado" || name == "Relativista" || name == "Coulombiano"
  }

  /** The laws a selector value can denote: an unrecognised value is never one
      of the four reserved labels, which always name their own law. */
  type Selector = p: Potential | p.Other? ==> !Reserved(p.name) witness Newtonian

  /** The selector value under which each law is offered. */
  function Label(p: Potential): string
  {
    match p
    case Newtonian => "Newtoniano"
    case Modified => "Modificado"
    case Relativistic => "Relativista"
    case Coulombian => "Coulombiano"
    case Other(name) => name
  }

  /** The law a selector value names: each of the four labels gives its law,
      and every other value is unrecognised. */
  function Parse(name: string): (p: Selector)
    ensures Label(p) == name
  {
    if name == "Newtoniano" then Newtonian
    else if name == "Modificado" then Modified
    else if name == "Relativista" then Relativistic
    else if name == "Coulombiano" then Coulombian
    else Other(name)
  }

  /** Parsing the label of a law gives that law back. */
  lemma ParseLabel(p: Selector)
    ensures Parse(Label(p)) == p
  {
  }

  /** Strength of the relativistic correction term. */
  const Beta: real := 0.01
  /** Coulomb constant. */
  const K: real := 1.0
  /** Time advanced per tick at simulation speed 1. */
  const BaseStep: real := 12.0

  datatype Vec = Vec(x: real, y: real)

  /** Position and velocity of the orbiting body. */
  datatype Body = Body(pos: Vec, vel: Vec)

  /** The parameters a running simulation is built with: the selected law
      and the coupling constant, exponent and charges it reads. */
  datatype ForceLaw = ForceLaw(potential: Selector, gm: real, exponente: real, q1: real, q2: real)

  function Cube(r: real): real { r * r * r }

  function Fifth(r: real): real { r * r * r * r * r }

  function Scale(k: real, v: Vec): Vec { Vec(k * v.x, k * v.y) }

  function Dot(a: Vec, b: Vec): real { a.x * b.x + a.y * b.y }

  /** The distance of `p` from the sun, through the host square root. */
  function Distance(p: Vec, m: MathLib): real
  {
    m.sqrt(p.x * p.x + p.y * p.y)
  }

  /** Whether the acceleration can be evaluated at distance `r`: the
      modified law divides by `pow(r, exponente + 1)`, the other three laws
      by `r^3` (and `r^5`), which must not vanish; an unrecognised law divides
      by nothing. */
  predicate Defined(law: ForceLaw, r: real, m: MathLib)
  {
    match law.potential
    case Other(_) => true
    case Modified => m.pow(r, law.exponente + 1.0) > 0.0
    case _ => r > 0.0
  }

  lemma PowersPositive(r: real)
    requires r > 0.0
    ensures Cube(r) > 0.0 && Fifth(r) > 0.0
    ensures Fifth(r) == Cube(r) * (r * r)
  {
    ProductSign(r, r);
    ProductSign(r * r, r);
    ProductSign(r * r * r, r);
    ProductSign(r * r * r * r, r);
  }

  /** Acceleration of the body at position `p`, distance `r` from the sun,
      as the force-law switch computes it; an unrecognised law gives none.
      Every law is a central force: the acceleration is the position scaled
      by the radial strength of the law. */
  function Accel(law: ForceLaw, p: Vec, r: real, m: MathLib): (a: Vec)
    requires Defined(law, r, m)
    ensures a == Scale(Strength(law, r, m), p)
  {
    match law.potential
    case Newtonian => NewtonianAccel(law.gm, p, r)
    case Modified => ModifiedAccel(law.gm, law.exponente, p, r, m)
    case Relativistic => RelativisticAccel(law.gm, p, r)
    case Coulombian => CoulombAccel(law.q1, law.q2, p, r)
    case Other(_) => Vec(0.0, 0.0)
  }

  function NewtonianAccel(gm: real, p: Vec, r: real): (a: Vec)
    requires r > 0.0
    ensures a == Scale(-gm / Cube(r), p)
  {
    PowersPositive(r);
    DivScale(-gm, Cube(r), p);
    Vec(-gm * p.x / Cube(r), -gm * p.y / Cube(r))
  }

  function ModifiedAccel(gm: real, exponente: real, p: Vec, r: real, m: MathLib): (a: Vec)
    requires m.pow(r, exponente + 1.0) > 0.0
    ensures a == Scale(-gm * exponente / m.pow(r, exponente + 1.0), p)
  {
    DivScale(-gm * exponente, m.pow(r, exponente + 1.0), p);
    Vec(-gm * exponente * p.x / m.pow(r, exponente + 1.0),
        -gm * exponente * p.y / m.pow(r, exponente + 1.0))
  }

  function RelativisticAccel(gm: real, p: Vec, r: real): (a: Vec)
    requires r > 0.0
    ensures a == Scale(-gm / Cube(r) + 3.0 * Beta / Fifth(r), p)
  {
    PowersPositive(r);
    DivScale(-gm, Cube(r), p);
    DivScale(3.0 * Beta, Fifth(r), p);
    Vec(-gm * p.x / Cube(r) + 3.0 * Beta * p.x / Fifth(r),
        -gm * p.y / Cube(r) + 3.0 * Beta * p.y / Fifth(r))
  }

  function CoulombAccel(q1: real, q2: real, p: Vec, r: real): (a: Vec)
    requires r > 0.0
    ensures a == Scale(K * q1 * q2 / Cube(r), p)
  {
    PowersPositive(r);
    DivScale(K * q1 * q2, Cube(r), p);
    Vec((K * q1 * q2) * p.x / Cube(r), (K * q1 * q2) * p.y / Cube(r))
  }

  /** The radial strength of each law: the factor by which the position is
      multiplied to give the acceleration (negative means toward the sun). */
  function Strength(law: ForceLaw, r: real, m: MathLib): real
    requires Defined(law, r, m)
  {
    match law.potential
    case Newtonian => PowersPositive(r); -law.gm / Cube(r)
    case Modified => -law.gm * law.exponente / m.pow(r, law.exponente + 1.0)
    case Relativistic => PowersPositive(r); -law.gm / Cube(r) + 3.0 * Beta / Fifth(r)
    case Coulombian => PowersPositive(r); K * law.q1 * law.q2 / Cube(r)
    case Other(_) => 0.0
  }

  /** `c * x / d` is `(c / d) * x`, coordinate by coordinate. */
  lemma DivScale(c: real, d: real, p: Vec)
    requires d != 0.0
    ensures c * p.x / d == (c / d) * p.x && c * p.y / d == (c / d) * p.y
  {
  }

  /** A scaled vector is parallel to the original. */
  lemma ScaleParallel(k: real, p: Vec)
    ensures Scale(k, p).x * p.y == Scale(k, p).y * p.x
  {
  }

  /** Every law is a central force: the acceleration is parallel to the
      position of the body. */
  lemma AccelIsCentral(law: ForceLaw, p: Vec, r: real, m: MathLib)
    requires Defined(law, r, m)
    ensures Accel(law, p, r, m).x * p.y == Accel(law, p, r, m).y * p.x
  {
    ScaleParallel(Strength(law, r, m), p);
  }

  /** A position scaled by `k` points away from the sun when `k > 0` and
      toward it when `k < 0` (the radial component has the sign of `k`). */
  lemma ScaledDotSign(k: real, p: Vec)
    requires p != Vec(0.0, 0.0)
    ensures Dot(Scale(k, p), p) > 0.0 <==> k > 0.0
    ensures Dot(Scale(k, p), p) < 0.0 <==> k < 0.0
  {
    TermSign(k, p.x);
    TermSign(k, p.y);
    if p.x == 0.0 {
      assert p.y != 0.0;
    }
  }

  lemma QuotientSign(c: real, d: real)
    requires d > 0.0
    ensures c / d > 0.0 <==> c > 0.0
    ensures c / d < 0.0 <==> c < 0.0
  {
    assert c == (c / d) * d;
    ProductSign(c / d, d);
  }

  /** Newtonian gravity with a positive coupling pulls the body toward the
      sun. */
  lemma NewtonianAttracts(law: ForceLaw, p: Vec, r: real, m: MathLib)
    requires law.potential.Newtonian? && law.gm > 0.0
    requires r > 0.0 && p != Vec(0.0, 0.0)
    ensures Dot(Accel(law, p, r, m), p) < 0.0
  {
    PowersPositive(r);
    QuotientSign(-law.gm, Cube(r));
    ScaledDotSign(Strength(law, r, m), p);
  }

  /** The modified power law with a positive coupling and exponent pulls the
      body toward the sun. */
  lemma ModifiedAttracts(law: ForceLaw, p: Vec, r: real, m: MathLib)
    requires law.potential.Modified? && law.gm > 0.0 && law.exponente > 0.0
    requires Defined(law, r, m) && p != Vec(0.0, 0.0)
    ensures Dot(Accel(law, p, r, m), p) < 0.0
  {
    ProductSign(law.gm, law.exponente);
    assert -law.gm * law.exponente < 0.0;
    QuotientSign(-law.gm * law.exponente, m.pow(r, law.exponente + 1.0));
    ScaledDotSign(Strength(law, r, m), p);
  }

  /** The relativistic law pulls toward the sun exactly when the Newtonian
      term outweighs the correction, `gm * r^2 > 3 * beta`, and pushes away
      exactly when the correction outweighs it. */
  lemma RelativisticSign(law: ForceLaw, p: Vec, r: real, m: MathLib)
    requires law.potential.Relativistic?
    requires r > 0.0 && p != Vec(0.0, 0.0)
    ensures Dot(Accel(law, p, r, m), p) < 0.0 <==> law.gm * (r * r) > 3.0 * Beta
    ensures Dot(Accel(law, p, r, m), p) > 0.0 <==> law.gm * (r * r) < 3.0 * Beta
  {
    PowersPositive(r);
    var k := Strength(law, r, m);
    var c, f := Cube(r), Fifth(r);
    assert k == -law.gm / c + 3.0 * Beta / f;
    assert -law.gm / c == -law.gm * (r * r) / f by {
      assert f == c * (r * r);
    }
    assert k == (3.0 * Beta - law.gm * (r * r)) / f;
    QuotientSign(3.0 * Beta - law.gm * (r * r), f);
    ScaledDotSign(k, p);
  }

  /** Coulomb's law pushes like charges apart and pulls opposite charges
      together; with a zero charge there is no force at all. */
  lemma CoulombSign(law: ForceLaw, p: Vec, r: real, m: MathLib)
    requires law.potential.Coulombian?
    requires r > 0.0 && p != Vec(0.0, 0.0)
    ensures Dot(Accel(law, p, r, m), p) > 0.0 <==> law.q1 * law.q2 > 0.0
    ensures Dot(Accel(law, p, r, m), p) < 0.0 <==> law.q1 * law.q2 < 0.0
    ensures law.q1 * law.q2 == 0.0 ==> Accel(law, p, r, m) == Vec(0.0, 0.0)
  {
    PowersPositive(r);
    assert Strength(law, r, m) == law.q1 * law.q2 / Cube(r);
    QuotientSign(law.q1 * law.q2, Cube(r));
    ScaledDotSign(Strength(law, r, m), p);
  }

  /** A selector that names none of the four laws gives no acceleration. */
  lemma UnknownLawNoForce(law: ForceLaw, p: Vec, r: real, m: MathLib)
    requires law.potential.Other?
    ensures Accel(law, p, r, m) == Vec(0.0, 0.0)
  {
  }

  function Add(a: Vec, b: Vec): Vec { Vec(a.x + b.x, a.y + b.y) }

  function Sub(a: Vec, b: Vec): Vec { Vec(a.x - b.x, a.y - b.y) }

  /** One semi-implicit Euler step: the velocity is advanced by `a * dt`
      first, and the position is then advanced by the NEW velocity. Given the
      acceleration and step, the step can be undone. */
  function Step(b: Body, a: Vec, dt: real): (n: Body)
    ensures Unstep(n, a, dt) == b
  {
    var vel := Advance(b.vel, a, dt);
    Body(Advance(b.pos, vel, dt), vel)
  }

  /** `p` moved at rate `v` for time `dt`, coordinate by coordinate. */
  function Advance(p: Vec, v: Vec, dt: real): Vec
  {
    Vec(p.x + v.x * dt, p.y + v.y * dt)
  }

  /** A state whose velocity and position were advanced in the order of
      `Step` is the result of `Step`. */
  lemma StepComponents(b: Body, a: Vec, dt: real, n: Body)
    requires n.vel == Advance(b.vel, a, dt)
    requires n.pos == Advance(b.pos, n.vel, dt)
    ensures n == Step(b, a, dt)
  {
  }

  /** The inverse of `Step` for a known acceleration and step. */
  function Unstep(n: Body, a: Vec, dt: real): (b: Body)
  {
    var vel := Sub(n.vel, Scale(dt, a));
    Body(Sub(n.pos, Scale(dt, n.vel)), vel)
  }

  /** Undoing a step and redoing it gives the state back, so `Step` is a
      bijection on states for a fixed acceleration and step. */
  lemma StepOfUnstep(n: Body, a: Vec, dt: real)
    ensures Step(Unstep(n, a, dt), a, dt) == n
  {
  }

  /** Because the position uses the updated velocity, it moves by `v * dt`
      plus the full `a * dt^2` (an explicit Euler step would omit the second
      term). */
  lemma StepSecondOrder(b: Body, a: Vec, dt: real)
    ensures Step(b, a, dt).pos == Add(Add(b.pos, Scale(dt, b.vel)), Scale(dt * dt, a))
    ensures Step(b, a, dt).vel == Add(b.vel, Scale(dt, a))
  {
    var v := Step(b, a, dt).vel;
    assert v == Vec(b.vel.x + a.x * dt, b.vel.y + a.y * dt);
    assert (a.x * dt) * dt == (dt * dt) * a.x && (a.y * dt) * dt == (dt * dt) * a.y;
    assert Step(b, a, dt).pos == Vec(b.pos.x + v.x * dt, b.pos.y + v.y * dt);
  }

  /** The time step of a tick at the given simulation speed. */
  function TickStep(speed: real): real { BaseStep * speed }

  /** One tick of the integrator at distance `r`: the acceleration of the
      selected law at the current position, then one step of length
      `12 * speed`. */
  function Tick(law: ForceLaw, b: Body, r: real, speed: real, m: MathLib): (n: Body)
    requires Defined(law, r, m)
    ensures Unstep(n, Accel(law, b.pos, r, m), TickStep(speed)) == b
  {
    Step(b, Accel(law, b.pos, r, m), TickStep(speed))
  }

  /** Under an unrecognised law the velocity is kept and the body drifts by
      `v * dt`. */
  lemma UnknownLawDrifts(law: ForceLaw, b: Body, r: real, speed: real, m: MathLib)
    requires law.potential.Other?
    ensures Tick(law, b, r, speed, m).vel == b.vel
    ensures Tick(law, b, r, speed, m).pos == Add(b.pos, Scale(12.0 * speed, b.vel))
  {
    UnknownLawNoForce(law, b.pos, r, m);
  }
}
