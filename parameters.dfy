/** The user-facing parameters of the application, their reset, and the rule
    that decides when a parameter change restarts the simulation. */
module Parameters {
  import opened Physics

  /** The values held by the application's controls. */
  datatype Controls = Controls(
    selectedPotential: Selector,
    gm: real,
    exponente: real,
    simulationSpeed: real,
    zoom: real,
    centerOnSun: bool,
    q1: real,
    q2: real)

  /** The values the controls start with. */
  function Startup(): (c: Controls)
    ensures c.selectedPotential.Newtonian?
  {
    Controls(Newtonian, 1.0, 1.7, 1.0, 1.0, false, 1.0, 1.0)
  }

  /** The reset button: every tunable parameter goes back to its start-up
      value, while the selected force law is kept. */
  function ResetParameters(c: Controls): (r: Controls)
    ensures r == Startup().(selectedPotential := c.selectedPotential)
  {
    c.(gm := 1.0, exponente := 1.7, simulationSpeed := 1.0, zoom := 1.0,
       centerOnSun := false, q1 := 1.0, q2 := 1.0)
  }

  /** Resetting twice is resetting once. */
  lemma ResetIdempotent(c: Controls)
    ensures ResetParameters(ResetParameters(c)) == ResetParameters(c)
  {
  }

  /** A reset brings the controls back to their start-up state exactly when
      the Newtonian law is selected. */
  lemma ResetIsStartupIff(c: Controls)
    ensures ResetParameters(c) == Startup() <==> c.selectedPotential.Newtonian?
  {
  }

  /** The parameters the running simulation is built from, in the order of
      the effect's dependency list. */
  function LawOf(c: Controls): (law: ForceLaw)
    ensures law.potential == c.selectedPotential
  {
    ForceLaw(c.selectedPotential, c.gm, c.exponente, c.q1, c.q2)
  }

  /** Whether going from `before` to `after` restarts the simulation: the
      dependency tuple changed. That happens exactly when the law, coupling,
      exponent or one of the charges changes; speed, zoom and camera mode
      never cause one. */
  predicate Restarts(before: Controls, after: Controls)
    ensures Restarts(before, after) <==>
      before.selectedPotential != after.selectedPotential || before.gm != after.gm ||
      before.exponente != after.exponente || before.q1 != after.q1 || before.q2 != after.q2
  {
    LawOf(before) != LawOf(after)
  }

  /** Changing only the speed, zoom or camera mode keeps the simulation. */
  lemma LiveParametersKeepState(c: Controls, speed: real, zoom: real, centerOnSun: bool)
    ensures !Restarts(c, c.(simulationSpeed := speed, zoom := zoom, centerOnSun := centerOnSun))
  {
  }

  /** A reset restarts the simulation exactly when one of the structural
      parameters was away from its start-up value. */
  lemma ResetRestartsIff(c: Controls)
    ensures Restarts(c, ResetParameters(c)) <==>
      c.gm != 1.0 || c.exponente != 1.7 || c.q1 != 1.0 || c.q2 != 1.0
  {
  }
}
