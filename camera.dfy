/** The camera that maps world coordinates to canvas pixels: a translation
    and a zoom, either keeping the sun at the centre of the canvas or keeping
    the body there. */
module Camera {
  import opened Physics
  import opened Trail

  const Width: real := 600.0
  const Height: real := 600.0

  /** The centre of the canvas. */
  function Center(): Vec { Vec(Width / 2.0, Height / 2.0) }

  /** Where world point `pos` is drawn. With `centerOnSun` the sun (the world
      origin) is pinned to the canvas centre; otherwise the body at `body` is.
      For a non-zero zoom the mapping can be inverted. */
  function Transform(centerOnSun: bool, zoom: real, body: Vec, pos: Vec): (s: Vec)
    ensures zoom != 0.0 ==> Untransform(centerOnSun, zoom, body, s) == pos
  {
    if centerOnSun then
      Vec(Center().x + pos.x * zoom, Center().y + pos.y * zoom)
    else
      Vec(Center().x + (pos.x - body.x) * zoom, Center().y + (pos.y - body.y) * zoom)
  }

  /** The world point drawn at canvas point `s`. */
  function Untransform(centerOnSun: bool, zoom: real, body: Vec, s: Vec): Vec
    requires zoom != 0.0
  {
    var pinned := if centerOnSun then Vec(0.0, 0.0) else body;
    Vec(pinned.x + (s.x - Center().x) / zoom, pinned.y + (s.y - Center().y) / zoom)
  }

  /** Every canvas point is drawn from exactly one world point when the zoom
      is not zero. */
  lemma TransformOfUntransform(centerOnSun: bool, zoom: real, body: Vec, s: Vec)
    requires zoom != 0.0
    ensures Transform(centerOnSun, zoom, body, Untransform(centerOnSun, zoom, body, s)) == s
  {
  }

  /** In sun-centred mode the sun lands on the canvas centre wherever the body
      is. */
  lemma SunPinned(zoom: real, body: Vec)
    ensures Transform(true, zoom, body, Vec(0.0, 0.0)) == Center()
  {
  }

  /** In body-centred mode the body lands on the canvas centre wherever it
      is. */
  lemma BodyPinned(zoom: real, body: Vec)
    ensures Transform(false, zoom, body, body) == Center()
  {
  }

  /** The two modes differ only by a shift of `zoom * body`. */
  lemma ModesDifferByShift(zoom: real, body: Vec, pos: Vec)
    ensures Transform(false, zoom, body, pos) == Sub(Transform(true, zoom, body, pos), Scale(zoom, body))
  {
  }

  /** Distances between world points are scaled by `zoom` in either mode. */
  lemma TransformScalesDifferences(centerOnSun: bool, zoom: real, body: Vec, p: Vec, q: Vec)
    ensures Sub(Transform(centerOnSun, zoom, body, p), Transform(centerOnSun, zoom, body, q)) == Scale(zoom, Sub(p, q))
  {
  }

  /** Where the body is drawn: through the camera in sun-centred mode, at the
      canvas centre otherwise; in both modes that is the camera image of the
      body. */
  function PlanetPosition(centerOnSun: bool, zoom: real, body: Vec): (s: Vec)
    ensures s == Transform(centerOnSun, zoom, body, body)
  {
    if centerOnSun then Transform(centerOnSun, zoom, body, body) else Center()
  }

  /** A filled disc with a radial glow around it. */
  datatype Disc = Disc(center: Vec, glowRadius: real, radius: real)

  /** One stroke of the trail, drawn with the opacity of its newer end. */
  datatype Segment = Segment(from: Vec, to: Vec, alpha: real)

  /** What one frame draws, in drawing order after the starfield: the sun, the
      trail strokes, the body. */
  datatype Scene = Scene(sun: Disc, segments: seq<Segment>, planet: Disc)

  /** The frame drawn for a body at `body` with trail `trail`: the sun's glow
      and disc (radii `20 * zoom` and `10 * zoom`) at the sun's image, one
      stroke from each trail point to the next with the newer point's
      opacity, and the body's glow and disc (`12 * zoom` and `5 * zoom`) at
      the body's image. Whichever of the two the camera pins lands on the
      canvas centre. */
  function SceneOf(trail: seq<TrailPoint>, body: Vec, zoom: real, centerOnSun: bool): (s: Scene)
    ensures centerOnSun ==> s.sun.center == Center()
    ensures !centerOnSun ==> s.planet.center == Center()
    ensures s.sun.radius < s.sun.glowRadius <==> zoom > 0.0
    ensures |s.segments| == if |trail| == 0 then 0 else |trail| - 1
    ensures forall i :: 0 <= i < |s.segments| ==>
      s.segments[i].alpha == trail[i + 1].alpha &&
      s.segments[i].from == Transform(centerOnSun, zoom, body, Vec(trail[i].x, trail[i].y)) &&
      s.segments[i].to == Transform(centerOnSun, zoom, body, Vec(trail[i + 1].x, trail[i + 1].y))
  {
    var n := if |trail| == 0 then 0 else |trail| - 1;
    Scene(
      Disc(Transform(centerOnSun, zoom, body, Vec(0.0, 0.0)), 20.0 * zoom, 10.0 * zoom),
      seq(n, i requires 0 <= i < n =>
        Segment(Transform(centerOnSun, zoom, body, Vec(trail[i].x, trail[i].y)),
                Transform(centerOnSun, zoom, body, Vec(trail[i + 1].x, trail[i + 1].y)),
                trail[i + 1].alpha)),
      Disc(PlanetPosition(centerOnSun, zoom, body), 12.0 * zoom, 5.0 * zoom))
  }
}
