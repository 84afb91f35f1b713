/**
 * Two concrete sessions, worked through the model from start-up.
 */
module Scenarios {
  import opened Geometry
  import opened PaintManager
  import UIManager

  const Ahead := Point(0.0, 0.0, 1.0)

  function AtZ(z: real): Point {
    Point(0.0, 0.0, z)
  }

  /** A run of four events, spelled out step by step. */
  lemma RunSteps(s: Engine, es: seq<Event>)
    requires |es| == 4
    ensures Run(s, es) == Step(Step(Step(Step(s, es[0]), es[1]), es[2]), es[3])
  {
    assert es == [es[0]] + [es[1]] + [es[2]] + [es[3]];
    RunConcat(s, [es[0]] + [es[1]] + [es[2]], [es[3]]);
    RunConcat(s, [es[0]] + [es[1]], [es[2]]);
    RunConcat(s, [es[0]], [es[1]]);
    RunOne(s, es[0]);
    RunOne(Step(s, es[0]), es[1]);
    RunOne(Step(Step(s, es[0]), es[1]), es[2]);
    RunOne(Step(Step(Step(s, es[0]), es[1]), es[2]), es[3]);
  }

  function CubeAt(z: real): PaintObject {
    PaintObject(CubeTemplate, AtZ(z))
  }

  /** Painting on, cube type, last sample at `prev`, the given objects. */
  function Cubes(prev: real, objects: seq<PaintObject>): Engine {
    Engine(true, Cube, AtZ(prev), false, [], objects, [], [])
  }

  lemma CubeStep1()
    ensures Step(Start(), Toggle) == Cubes(0.0, [])
  {
  }

  lemma CubeStep2()
    ensures Step(Cubes(0.0, []), Frame(AtZ(0.0), Ahead)) == Cubes(0.5, [CubeAt(0.5)])
  {
    assert PaintPosition(AtZ(0.0), Ahead) == AtZ(0.5);
    assert Far(AtZ(0.5), AtZ(0.0));
  }

  lemma CubeStep3()
    ensures Step(Cubes(0.5, [CubeAt(0.5)]), Frame(AtZ(0.05), Ahead)) == Cubes(0.5, [CubeAt(0.5)])
  {
    assert PaintPosition(AtZ(0.05), Ahead) == AtZ(0.55);
    assert SqDist(AtZ(0.55), AtZ(0.5)) == 0.0025;
  }

  lemma CubeStep4()
    ensures Step(Cubes(0.5, [CubeAt(0.5)]), Frame(AtZ(0.7), Ahead)) == Cubes(1.2, [CubeAt(0.5), CubeAt(1.2)])
  {
    assert PaintPosition(AtZ(0.7), Ahead) == AtZ(1.2);
    assert Far(AtZ(1.2), AtZ(0.5));
  }

  /**
   * Painting cubes while the camera moves along z through 0, 0.05 and 0.7.
   * The previous position starts at the origin, so the first sample (at 0.5)
   * is accepted too: two cubes, at 0.5 and 1.2; the sample at 0.55 is
   * within the threshold of 0.5 and is dropped.
   */
  lemma CubeSession(es: seq<Event>)
    requires es == [Toggle, Frame(AtZ(0.0), Ahead), Frame(AtZ(0.05), Ahead), Frame(AtZ(0.7), Ahead)]
    ensures Run(Start(), es).gameObjects == [CubeAt(0.5), CubeAt(1.2)]
  {
    RunSteps(Start(), es);
    CubeStep1();
    var s1 := Step(Start(), es[0]);
    assert s1 == Cubes(0.0, []);
    CubeStep2();
    var s2 := Step(s1, es[1]);
    assert s2 == Cubes(0.5, [CubeAt(0.5)]);
    CubeStep3();
    var s3 := Step(s2, es[2]);
    assert s3 == s2;
    CubeStep4();
    assert Step(s3, es[3]) == Cubes(1.2, [CubeAt(0.5), CubeAt(1.2)]);
  }

  /** Painting on, Dollar type, last sample at `prev`, the given buffer and particles. */
  function Dollars(prev: real, dirty: bool, buffer: seq<Point>, particles: seq<Particle>): Engine {
    Engine(true, Dollar, AtZ(prev), dirty, buffer, [], [], particles)
  }

  lemma DollarStart()
    ensures UIManager.NextPaintType(UIManager.NextPaintType(UIManager.NextPaintType(UIManager.Start({})))).engine
      == TogglePaint(Dollars(0.0, false, [], []))
  {
  }

  lemma DollarStep1()
    ensures Step(Dollars(0.0, false, [], []), Frame(AtZ(0.0), Ahead)) == Dollars(0.5, true, [AtZ(0.5)], [])
  {
    assert PaintPosition(AtZ(0.0), Ahead) == AtZ(0.5);
    assert Far(AtZ(0.5), AtZ(0.0));
  }

  lemma DollarStep2()
    ensures Step(Dollars(0.5, true, [AtZ(0.5)], []), Frame(AtZ(0.2), Ahead))
      == Dollars(0.7, true, [AtZ(0.5), AtZ(0.7)], [])
  {
    assert PaintPosition(AtZ(0.2), Ahead) == AtZ(0.7);
    assert Far(AtZ(0.7), AtZ(0.5));
    assert [AtZ(0.5)] + [AtZ(0.7)] == [AtZ(0.5), AtZ(0.7)];
  }

  lemma DollarStep3()
    ensures Step(Dollars(0.7, true, [AtZ(0.5), AtZ(0.7)], []), Frame(AtZ(0.4), Ahead))
      == Dollars(0.9, true, [AtZ(0.5), AtZ(0.7), AtZ(0.9)], [])
  {
    assert PaintPosition(AtZ(0.4), Ahead) == AtZ(0.9);
    assert Far(AtZ(0.9), AtZ(0.7));
    assert [AtZ(0.5), AtZ(0.7)] + [AtZ(0.9)] == [AtZ(0.5), AtZ(0.7), AtZ(0.9)];
  }

  /** Painting on, Dollar type, and the camera at z = 0, 0.2, 0.4: three points buffered. */
  lemma DollarPainting(s0: Engine, es: seq<Event>)
    requires s0 == TogglePaint(Dollars(0.0, false, [], []))
    requires es == [Toggle, Frame(AtZ(0.0), Ahead), Frame(AtZ(0.2), Ahead), Frame(AtZ(0.4), Ahead)]
    ensures Run(s0, es) == Dollars(0.9, true, [AtZ(0.5), AtZ(0.7), AtZ(0.9)], [])
  {
    RunSteps(s0, es);
    var s1 := Step(s0, es[0]);
    assert s1 == Dollars(0.0, false, [], []);
    DollarStep1();
    var s2 := Step(s1, es[1]);
    assert s2 == Dollars(0.5, true, [AtZ(0.5)], []);
    DollarStep2();
    var s3 := Step(s2, es[2]);
    assert s3 == Dollars(0.7, true, [AtZ(0.5), AtZ(0.7)], []);
    DollarStep3();
  }

  /**
   * Three Dollar samples at least 0.1 apart, one tick, a seal and a reset:
   * the tick shows three particles in the order painted, the seal keeps
   * them, the reset removes everything.
   */
  lemma DollarSession(a: UIManager.App, es: seq<Event>)
    requires a == UIManager.NextPaintType(UIManager.NextPaintType(UIManager.NextPaintType(UIManager.Start({}))))
    requires es == [Toggle, Frame(AtZ(0.0), Ahead), Frame(AtZ(0.2), Ahead), Frame(AtZ(0.4), Ahead)]
    ensures var s := Step(Run(a.engine, es), Tick);
      && s.currentParticles == Particles([AtZ(0.5), AtZ(0.7), AtZ(0.9)])
      && RandomizeColor(s).savedSystems == [s.currentParticles]
      && Empty(Reset(RandomizeColor(s)))
  {
    DollarStart();
    DollarPainting(a.engine, es);
  }
}
