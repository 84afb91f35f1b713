/**
 * The paint-deposition engine (Assets/Scripts/PaintManager.cs) as an immutable
 * state record with one pure transition per entry point.
 *
 * Unity side effects become sequence updates: `Instantiate(template, p, …)`
 * appends a `PaintObject`, `SetParticles` replaces `currentParticles`, and
 * `Destroy`/`Instantiate(dollorTemplate)` of the particle system empty it.
 */
module PaintManager {
  import opened Geometry

  /* Values of the C# enum PaintTemplateType. The field holding the current
     type is an `int` here because the UI casts an arbitrary index into it;
     every value other than these four is painted with the cube template. */
  const Cube := 0
  const Bubble := 1
  const Star := 2
  const Dollar := 3

  /** The object templates the discrete path can instantiate. */
  datatype Template = StarTemplate | SphereTemplate | CubeTemplate

  /** The render size every flushed particle gets. */
  const ParticleSize: real := 0.1

  datatype Particle = Particle(position: Point, startSize: real)

  /** An instantiated template, placed at a paint position. */
  datatype PaintObject = PaintObject(template: Template, position: Point)

  /**
   * The engine state. `currentParticles` is what the current particle system
   * holds, i.e. what the last flush handed to it; its length is the system's
   * `particleCount`. `savedSystems` are the sealed particle systems.
   */
  datatype Engine = Engine(
    paintingOn: bool,
    paintType: int,
    previousPosition: Point,
    newPaintVertices: bool,
    currVertices: seq<Point>,
    gameObjects: seq<PaintObject>,
    savedSystems: seq<seq<Particle>>,
    currentParticles: seq<Particle>)

  function ParticleCount(s: Engine): nat {
    |s.currentParticles|
  }

  /** The particles a flush of the buffer `vs` produces, one per point, in order. */
  function Particles(vs: seq<Point>): (r: seq<Particle>)
    ensures |r| == |vs|
    ensures forall i :: 0 <= i < |vs| ==> r[i] == Particle(vs[i], ParticleSize)
  {
    seq(|vs|, i requires 0 <= i < |vs| => Particle(vs[i], ParticleSize))
  }

  /** Nothing painted: no objects, no particles, no buffered points. */
  predicate Empty(s: Engine) {
    s.currVertices == [] && s.gameObjects == [] && s.savedSystems == [] && s.currentParticles == []
  }

  /**
   * The invariant every entry point keeps:
   * - the current particle system shows the flush of a prefix of the buffer
   *   (the buffer grows only by appending, and a flush sends all of it);
   * - a clear dirty flag means it shows the whole buffer;
   * - only non-empty particle systems are ever sealed.
   */
  predicate Consistent(s: Engine) {
    && |s.currentParticles| <= |s.currVertices|
    && s.currentParticles == Particles(s.currVertices[..|s.currentParticles|])
    && (!s.newPaintVertices ==> |s.currentParticles| == |s.currVertices|)
    && (forall k :: 0 <= k < |s.savedSystems| ==> s.savedSystems[k] != [])
  }

  /** `Start`: cube type, painting off, clean, nothing painted. */
  function Start(): (r: Engine)
    ensures r.paintType == Cube && !r.paintingOn && !r.newPaintVertices
    ensures Empty(r)
    ensures Consistent(r)
  {
    Engine(false, Cube, Origin, false, [], [], [], [])
  }

  /** The template the `else if` chain of the discrete path picks for a non-Dollar type. */
  function TemplateFor(paintType: int): (t: Template) {
    if paintType == Star then StarTemplate
    else if paintType == Bubble then SphereTemplate
    else CubeTemplate
  }

  /**
   * One paint sample at `p` (the body of `ARFrameUpdated` after the paint
   * position is computed). The distance gate is checked before the painting
   * switch, so an accepted sample advances `previousPosition` even when
   * painting is off.
   */
  function Sample(s: Engine, p: Point): (r: Engine)
    // A sample within the threshold changes nothing.
    ensures !Far(p, s.previousPosition) ==> r == s
    ensures Far(p, s.previousPosition) ==> r.previousPosition == p
    // Settings, the current particle system and the sealed systems never change.
    ensures r.paintingOn == s.paintingOn && r.paintType == s.paintType
    ensures r.currentParticles == s.currentParticles && r.savedSystems == s.savedSystems
    // Accepted while off: only the previous position moves.
    ensures Far(p, s.previousPosition) && !s.paintingOn ==> r == s.(previousPosition := p)
    // Accepted while on, particle type: exactly `p` is buffered and the buffer is dirty.
    ensures Far(p, s.previousPosition) && s.paintingOn && s.paintType == Dollar ==>
      && r.currVertices == s.currVertices + [p]
      && r.newPaintVertices
      && r.gameObjects == s.gameObjects
    // Accepted while on, any other type: exactly one object at `p`.
    ensures Far(p, s.previousPosition) && s.paintingOn && s.paintType != Dollar ==>
      && r.gameObjects == s.gameObjects + [PaintObject(TemplateFor(s.paintType), p)]
      && r.currVertices == s.currVertices
      && r.newPaintVertices == s.newPaintVertices
    ensures Consistent(s) ==> Consistent(r)
  {
    if Far(p, s.previousPosition) then
      var painted :=
        if !s.paintingOn then s
        else if s.paintType == Dollar then
          s.(currVertices := s.currVertices + [p], newPaintVertices := true)
        else if s.paintType == Star then
          s.(gameObjects := s.gameObjects + [PaintObject(StarTemplate, p)])
        else if s.paintType == Bubble then
          s.(gameObjects := s.gameObjects + [PaintObject(SphereTemplate, p)])
        else
          s.(gameObjects := s.gameObjects + [PaintObject(CubeTemplate, p)]);
      assert Consistent(s) && painted.currVertices != s.currVertices ==>
        painted.currVertices[..|s.currentParticles|] == s.currVertices[..|s.currentParticles|];
      painted.(previousPosition := p)
    else
      s
  }

  /**
   * `ARFrameUpdated`: the sample is taken `CameraItemDistance` along the
   * camera's forward direction.
   */
  function FrameUpdated(s: Engine, camera: Point, forward: Point): (r: Engine)
    ensures r.currVertices == s.currVertices
      || r.currVertices == s.currVertices + [PaintPosition(camera, forward)]
    ensures r.gameObjects == s.gameObjects
      || (&& |r.gameObjects| == |s.gameObjects| + 1
          && r.gameObjects[..|s.gameObjects|] == s.gameObjects
          && r.gameObjects[|s.gameObjects|].position == PaintPosition(camera, forward))
    ensures Consistent(s) ==> Consistent(r)
  {
    var r := Sample(s, PaintPosition(camera, forward));
    assert r.gameObjects != s.gameObjects ==> r.gameObjects[..|s.gameObjects|] == s.gameObjects;
    r
  }

  /** The condition under which `Update` hands the buffer to the particle system. */
  predicate Flushes(s: Engine) {
    s.paintType == Dollar && s.paintingOn && s.newPaintVertices && |s.currVertices| > 0
  }

  /**
   * `Update`, once per tick: flush the whole buffer into the current particle
   * system, clear the dirty flag, keep the buffer.
   */
  function Update(s: Engine): (r: Engine)
    ensures !Flushes(s) ==> r == s
    ensures Flushes(s) ==>
      && |r.currentParticles| == |s.currVertices|
      && (forall i :: 0 <= i < |s.currVertices| ==>
            r.currentParticles[i] == Particle(s.currVertices[i], ParticleSize))
      && r == s.(currentParticles := r.currentParticles, newPaintVertices := false)
    // After a tick while painting particles, the whole buffer is on screen.
    ensures Consistent(s) && s.paintType == Dollar && s.paintingOn ==>
      r.currentParticles == Particles(r.currVertices)
    ensures Consistent(s) ==> Consistent(r)
  {
    if !Flushes(s) then s
    else
      assert s.currVertices[..|s.currVertices|] == s.currVertices;
      s.(currentParticles := Particles(s.currVertices), newPaintVertices := false)
  }

  /** `TogglePaint`. */
  function TogglePaint(s: Engine): (r: Engine)
    ensures r.paintingOn != s.paintingOn
    ensures r.(paintingOn := s.paintingOn) == s
    ensures Consistent(s) ==> Consistent(r)
  {
    s.(paintingOn := !s.paintingOn)
  }

  /**
   * `SaveParticleSystem`: seal the current particle system and start a new,
   * empty one with an empty buffer.
   */
  function SaveParticleSystem(s: Engine): (r: Engine)
    // Exactly the current particles are appended to the sealed systems.
    ensures |r.savedSystems| == |s.savedSystems| + 1
    ensures r.savedSystems[..|s.savedSystems|] == s.savedSystems
    ensures r.savedSystems[|s.savedSystems|] == s.currentParticles
    // The new system and the buffer start empty.
    ensures r.currentParticles == [] && r.currVertices == []
    // Everything else, the dirty flag included, is unchanged.
    ensures r.(savedSystems := s.savedSystems, currentParticles := s.currentParticles, currVertices := s.currVertices) == s
    ensures Consistent(s) && s.currentParticles != [] ==> Consistent(r)
  {
    s.(savedSystems := s.savedSystems + [s.currentParticles], currentParticles := [], currVertices := [])
  }

  /**
   * `RandomizeColor`: seals the current particle system, but only when it
   * holds particles. (The colour change itself is commented out.)
   */
  function RandomizeColor(s: Engine): (r: Engine)
    ensures ParticleCount(s) == 0 ==> r == s
    ensures ParticleCount(s) > 0 ==>
      && |r.savedSystems| == |s.savedSystems| + 1
      && r.savedSystems[..|s.savedSystems|] == s.savedSystems
      && r.savedSystems[|s.savedSystems|] == s.currentParticles
      && r.currVertices == [] && ParticleCount(r) == 0
      && r.gameObjects == s.gameObjects
      && r.paintingOn == s.paintingOn && r.paintType == s.paintType
      && r.previousPosition == s.previousPosition && r.newPaintVertices == s.newPaintVertices
    ensures Consistent(s) ==> Consistent(r)
  {
    if ParticleCount(s) > 0 then SaveParticleSystem(s) else s
  }

  /**
   * `Reset`: destroy every object and particle system and start over with an
   * empty buffer; settings, previous position and dirty flag are kept.
   */
  function Reset(s: Engine): (r: Engine)
    ensures Empty(r)
    ensures r.paintingOn == s.paintingOn && r.paintType == s.paintType
    ensures r.previousPosition == s.previousPosition && r.newPaintVertices == s.newPaintVertices
    ensures Consistent(r)
  {
    s.(gameObjects := [], savedSystems := [], currentParticles := [], currVertices := [])
  }

  /** The engine's entry points, as seen from outside. */
  datatype Event =
    | Frame(camera: Point, forward: Point)
    | Tick
    | Toggle
    | Randomize
    | ResetPaint

  function Step(s: Engine, e: Event): (r: Engine)
    ensures r.paintType == s.paintType
    ensures Consistent(s) ==> Consistent(r)
  {
    match e
    case Frame(camera, forward) => FrameUpdated(s, camera, forward)
    case Tick => Update(s)
    case Toggle => TogglePaint(s)
    case Randomize => RandomizeColor(s)
    case ResetPaint => Reset(s)
  }

  function Run(s: Engine, es: seq<Event>): (r: Engine)
    ensures r.paintType == s.paintType
    ensures Consistent(s) ==> Consistent(r)
    decreases |es|
  {
    if es == [] then s else Run(Step(s, es[0]), es[1..])
  }

  /** Running `xs` then `ys` is running `xs + ys`. */
  lemma {:induction false} RunConcat(s: Engine, xs: seq<Event>, ys: seq<Event>)
    ensures Run(s, xs + ys) == Run(Run(s, xs), ys)
    decreases |xs|
  {
    if xs == [] {
      assert xs + ys == ys;
    } else {
      assert (xs + ys)[1..] == xs[1..] + ys;
      RunConcat(Step(s, xs[0]), xs[1..], ys);
    }
  }

  lemma RunOne(s: Engine, e: Event)
    ensures Run(s, [e]) == Step(s, e)
  {
    assert [e][1..] == [];
  }

  /** Every state reachable from `Start` satisfies the invariant. */
  lemma ReachableConsistent(es: seq<Event>)
    ensures Consistent(Run(Start(), es))
  {
  }

  lemma TogglePaintTwice(s: Engine)
    ensures TogglePaint(TogglePaint(s)) == s
  {
  }

  lemma ResetIdempotent(s: Engine)
    ensures Reset(Reset(s)) == Reset(s)
  {
  }

  /**
   * What a seal preserves: the new sealed system holds, in order, the buffered
   * points up to the last flush; when the dirty flag is clear, all of them.
   */
  lemma SealKeepsFlushedPoints(s: Engine)
    requires Consistent(s) && ParticleCount(s) > 0
    ensures var r := RandomizeColor(s);
      && Last(r.savedSystems) == Particles(s.currVertices[..ParticleCount(s)])
      && (!s.newPaintVertices ==> Last(r.savedSystems) == Particles(s.currVertices))
  {
    assert s.currVertices[..|s.currVertices|] == s.currVertices;
  }

  function Last<T>(xs: seq<T>): T
    requires xs != []
  {
    xs[|xs| - 1]
  }
}
