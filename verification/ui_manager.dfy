/**
 * The paint-type selector (Assets/Scripts/UIManager.cs): an index cycled
 * through a palette of five, written into the engine's paint type, and five
 * indicator objects of which the one matching the type is switched on.
 *
 * The palette has five entries but the engine's enum only four values: the
 * index is cast into the paint type unchecked, so index 4 (the Pepe
 * indicator) paints with the cube template, and index 1 (the Earth
 * indicator) is the engine's BUBBLE, painted with the sphere template.
 */
module UIManager {
  import opened Geometry
  import PaintManager

  /** PAINT_TEMPLATE_COUNT. */
  const PaintTemplateCount: int := 5

  /** The five indicator objects, in palette order. */
  datatype Indicator = CubePaint | EarthPaint | StarPaint | DollarPaint | PepePaint

  const Palette: seq<Indicator> := [CubePaint, EarthPaint, StarPaint, DollarPaint, PepePaint]

  /** The selector's own state: the index and the set of active indicators. */
  datatype Ui = Ui(paintIndex: int, active: set<Indicator>)

  /** The selector together with the engine it drives. */
  datatype App = App(ui: Ui, engine: PaintManager.Engine)

  predicate InPalette(i: int) {
    0 <= i < PaintTemplateCount
  }

  /** C#'s `%` on `int`: the remainder takes the sign of the dividend. */
  function CsRem(a: int, n: int): (r: int)
    requires n > 0
    ensures a >= 0 ==> 0 <= r < n
    ensures a < 0 ==> -n < r <= 0
    // The quotient is truncated toward zero and the remainder completes it.
    ensures a == (if a >= 0 then a / n else -((-a) / n)) * n + r
  {
    if a >= 0 then a % n else
      assert -a == ((-a) / n) * n + (-a) % n;
      -((-a) % n)
  }

  /** The next palette index, wrapping from the last entry to the first (C#'s `%`). */
  function NextIndex(i: int): (r: int)
    ensures InPalette(i) ==> InPalette(r)
    ensures InPalette(i) && i < PaintTemplateCount - 1 ==> r == i + 1
    ensures i == PaintTemplateCount - 1 ==> r == 0
  {
    CsRem(i + 1, PaintTemplateCount)
  }

  /** The previous palette index, wrapping from the first entry to the last. */
  function PrevIndex(i: int): (r: int)
    ensures InPalette(i) ==> InPalette(r)
    ensures 0 < i ==> r == i - 1
    ensures i == 0 ==> r == PaintTemplateCount - 1
  {
    var j := i - 1;
    if j < 0 then PaintTemplateCount - 1 else j
  }

  lemma PrevUndoesNext(i: int)
    requires InPalette(i)
    ensures PrevIndex(NextIndex(i)) == i
  {
  }

  lemma NextUndoesPrev(i: int)
    requires InPalette(i)
    ensures NextIndex(PrevIndex(i)) == i
  {
  }

  /** `n` consecutive `NextIndex` steps. */
  function NextN(i: int, n: nat): (r: int)
    decreases n
  {
    if n == 0 then i else NextIndex(NextN(i, n - 1))
  }

  /** `n` steps forward from a palette index land `n` places further round the cycle. */
  lemma {:induction false} NextNCycles(i: int, n: nat)
    requires InPalette(i)
    ensures NextN(i, n) == (i + n) % PaintTemplateCount
    decreases n
  {
    if n > 0 {
      NextNCycles(i, n - 1);
      var k := (i + n - 1) % PaintTemplateCount;
      if k < PaintTemplateCount - 1 {
        assert (i + n) % PaintTemplateCount == k + 1;
      } else {
        assert (i + n) % PaintTemplateCount == 0;
      }
    }
  }

  lemma FiveNextsRestore(i: int)
    requires InPalette(i)
    ensures NextN(i, PaintTemplateCount) == i
  {
    NextNCycles(i, PaintTemplateCount);
    assert (i + PaintTemplateCount) % PaintTemplateCount == i;
  }

  /** `UpdatePaintType`: the engine's paint type becomes the index. */
  function UpdatePaintType(e: PaintManager.Engine, i: int): (r: PaintManager.Engine)
    ensures r.paintType == i
    ensures r.(paintType := e.paintType) == e
    ensures PaintManager.Consistent(e) ==> PaintManager.Consistent(r)
  {
    e.(paintType := i)
  }

  /**
   * `UpdatePaintItem`: every indicator off, then the one the paint type names
   * on. A type outside the palette matches no `case`, leaving all off.
   */
  function UpdatePaintItem(paintType: int): (r: set<Indicator>)
    ensures InPalette(paintType) ==> r == {Palette[paintType]}
    ensures !InPalette(paintType) ==> r == {}
  {
    match paintType
    case 0 => {CubePaint}
    case 1 => {EarthPaint}
    case 2 => {StarPaint}
    case 3 => {DollarPaint}
    case 4 => {PepePaint}
    case _ => {}
  }

  /**
   * The selector agrees with the engine: the index is in the palette, the
   * engine paints that type, and exactly its indicator is on.
   */
  predicate Synced(a: App) {
    && InPalette(a.ui.paintIndex)
    && a.engine.paintType == a.ui.paintIndex
    && a.ui.active == {Palette[a.ui.paintIndex]}
  }

  /**
   * `Start` of both components. The indicators' initial state is whatever
   * the scene sets up, so it is a parameter.
   */
  function Start(active: set<Indicator>): (r: App)
    ensures r.ui.paintIndex == 0 && r.engine == PaintManager.Start()
    ensures InPalette(r.ui.paintIndex) && r.engine.paintType == r.ui.paintIndex
    ensures r.ui.active == active
    ensures PaintManager.Consistent(r.engine)
  {
    App(Ui(0, active), PaintManager.Start())
  }

  /** Move to index `i`: write it into the engine, then refresh the indicators. */
  function Select(a: App, i: int): (r: App) {
    var e := UpdatePaintType(a.engine, i);
    App(Ui(i, UpdatePaintItem(e.paintType)), e)
  }

  /** `NextPaintType`. */
  function NextPaintType(a: App): (r: App)
    ensures r.ui.paintIndex == NextIndex(a.ui.paintIndex)
    ensures r.engine.paintType == r.ui.paintIndex
    ensures r.engine == a.engine.(paintType := r.ui.paintIndex)
    ensures InPalette(a.ui.paintIndex) ==> Synced(r)
  {
    Select(a, NextIndex(a.ui.paintIndex))
  }

  /** `PrevPaintType`. */
  function PrevPaintType(a: App): (r: App)
    ensures r.ui.paintIndex == PrevIndex(a.ui.paintIndex)
    ensures r.engine.paintType == r.ui.paintIndex
    ensures r.engine == a.engine.(paintType := r.ui.paintIndex)
    ensures InPalette(a.ui.paintIndex) ==> Synced(r)
  {
    Select(a, PrevIndex(a.ui.paintIndex))
  }

  lemma NextThenPrevRestores(a: App)
    requires Synced(a)
    ensures PrevPaintType(NextPaintType(a)) == a
  {
    PrevUndoesNext(a.ui.paintIndex);
  }

  lemma PrevThenNextRestores(a: App)
    requires Synced(a)
    ensures NextPaintType(PrevPaintType(a)) == a
  {
    NextUndoesPrev(a.ui.paintIndex);
  }

  /** Everything that can happen to the pair: a navigation button or an engine entry point. */
  datatype AppEvent = Next | Prev | EngineEvent(e: PaintManager.Event)

  function AppStep(a: App, ev: AppEvent): (r: App)
    ensures ev.EngineEvent? ==> r.ui == a.ui
    ensures Synced(a) ==> Synced(r)
    ensures !ev.EngineEvent? && InPalette(a.ui.paintIndex) ==> Synced(r)
    ensures PaintManager.Consistent(a.engine) ==> PaintManager.Consistent(r.engine)
  {
    match ev
    case Next => NextPaintType(a)
    case Prev => PrevPaintType(a)
    case EngineEvent(e) => App(a.ui, PaintManager.Step(a.engine, e))
  }

  function AppRun(a: App, evs: seq<AppEvent>): (r: App)
    ensures InPalette(a.ui.paintIndex) ==> InPalette(r.ui.paintIndex)
    ensures Synced(a) ==> Synced(r)
    ensures PaintManager.Consistent(a.engine) ==> PaintManager.Consistent(r.engine)
    decreases |evs|
  {
    if evs == [] then a else AppRun(AppStep(a, evs[0]), evs[1..])
  }

  /**
   * From start-up, after the first navigation button, the selector and the
   * engine stay in agreement whatever happens next.
   */
  lemma SyncedAfterFirstNavigation(active: set<Indicator>, nav: AppEvent, evs: seq<AppEvent>)
    requires !nav.EngineEvent?
    ensures Synced(AppRun(AppStep(Start(active), nav), evs))
    ensures PaintManager.Consistent(AppRun(AppStep(Start(active), nav), evs).engine)
  {
  }

  /**
   * The palette/enum mismatch: with the Pepe indicator on, the engine paints
   * cubes; with the Earth indicator on, spheres.
   */
  lemma IndicatorVersusTemplate(a: App, p: Point)
    requires Synced(a) && a.engine.paintingOn && Far(p, a.engine.previousPosition)
    ensures PepePaint in a.ui.active ==>
      PaintManager.Last(PaintManager.Sample(a.engine, p).gameObjects) == PaintManager.PaintObject(PaintManager.CubeTemplate, p)
    ensures EarthPaint in a.ui.active ==>
      PaintManager.Last(PaintManager.Sample(a.engine, p).gameObjects) == PaintManager.PaintObject(PaintManager.SphereTemplate, p)
  {
  }
}
