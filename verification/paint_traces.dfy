/**
 * Streams of paint samples. `Accepted` is an independent description of the
 * distance gate alone: which positions of a stream get through it, given the
 * previous position. The lemmas relate feeding a whole stream into the engine
 * to that description, for each of the three outcomes of the painting switch
 * and the paint type.
 */
module PaintTraces {
  import opened Geometry
  import opened PaintManager

  /** Feed the samples `ps` into the engine, one `Sample` each, in order. */
  function Feed(s: Engine, ps: seq<Point>): (r: Engine)
    decreases |ps|
  {
    if ps == [] then s else Feed(Sample(s, ps[0]), ps[1..])
  }

  /** The samples of `ps` that pass the distance gate, starting from `prev`. */
  function Accepted(prev: Point, ps: seq<Point>): (r: seq<Point>)
    ensures |r| <= |ps|
    ensures forall i :: 0 <= i < |r| ==> r[i] in ps
    decreases |ps|
  {
    if ps == [] then []
    else if Far(ps[0], prev) then [ps[0]] + Accepted(ps[0], ps[1..])
    else Accepted(prev, ps[1..])
  }

  /** The position of the last accepted sample, or `prev` if there is none. */
  function LastAccepted(prev: Point, ps: seq<Point>): (last: Point)
    decreases |ps|
  {
    if ps == [] then prev
    else if Far(ps[0], prev) then LastAccepted(ps[0], ps[1..])
    else LastAccepted(prev, ps[1..])
  }

  /** One object of template `t` per position, in order. */
  function Stamp(t: Template, ps: seq<Point>): (r: seq<PaintObject>)
    ensures |r| == |ps|
    ensures forall i :: 0 <= i < |ps| ==> r[i] == PaintObject(t, ps[i])
  {
    seq(|ps|, i requires 0 <= i < |ps| => PaintObject(t, ps[i]))
  }

  /** Every sample is further than the threshold from the one before it. */
  predicate Spaced(prev: Point, ps: seq<Point>)
    decreases |ps|
  {
    ps == [] || (Far(ps[0], prev) && Spaced(ps[0], ps[1..]))
  }

  /** Every sample stays within the threshold of `prev`. */
  predicate Jitter(prev: Point, ps: seq<Point>) {
    forall i :: 0 <= i < |ps| ==> !Far(ps[i], prev)
  }

  /**
   * Feeding a stream while painting particles buffers exactly the accepted
   * samples, in order, and places no object.
   */
  lemma {:induction false} FeedParticles(s: Engine, ps: seq<Point>)
    requires s.paintingOn && s.paintType == Dollar
    ensures var r := Feed(s, ps);
      && r.currVertices == s.currVertices + Accepted(s.previousPosition, ps)
      && r.gameObjects == s.gameObjects
      && r.previousPosition == LastAccepted(s.previousPosition, ps)
      && r.newPaintVertices == (s.newPaintVertices || Accepted(s.previousPosition, ps) != [])
      && r.currentParticles == s.currentParticles && r.savedSystems == s.savedSystems
      && r.paintingOn && r.paintType == Dollar
    decreases |ps|
  {
    if ps != [] {
      var s1 := Sample(s, ps[0]);
      FeedParticles(s1, ps[1..]);
      if Far(ps[0], s.previousPosition) {
        assert s.currVertices + Accepted(s.previousPosition, ps)
          == (s.currVertices + [ps[0]]) + Accepted(ps[0], ps[1..]);
      }
    }
  }

  /**
   * Feeding a stream while painting objects places one object per accepted
   * sample, in order, with the type's template, and buffers no point.
   */
  lemma {:induction false} FeedObjects(s: Engine, ps: seq<Point>)
    requires s.paintingOn && s.paintType != Dollar
    ensures var r := Feed(s, ps);
      && r.gameObjects == s.gameObjects + Stamp(TemplateFor(s.paintType), Accepted(s.previousPosition, ps))
      && r.currVertices == s.currVertices
      && r.newPaintVertices == s.newPaintVertices
      && r.previousPosition == LastAccepted(s.previousPosition, ps)
      && r.currentParticles == s.currentParticles && r.savedSystems == s.savedSystems
      && r.paintingOn && r.paintType == s.paintType
    decreases |ps|
  {
    if ps != [] {
      var t := TemplateFor(s.paintType);
      var s1 := Sample(s, ps[0]);
      FeedObjects(s1, ps[1..]);
      if Far(ps[0], s.previousPosition) {
        var rest := Accepted(ps[0], ps[1..]);
        assert Stamp(t, [ps[0]] + rest) == [PaintObject(t, ps[0])] + Stamp(t, rest);
      }
    }
  }

  /** While painting is off, a stream only moves the previous position. */
  lemma {:induction false} FeedWhileOff(s: Engine, ps: seq<Point>)
    requires !s.paintingOn
    ensures Feed(s, ps) == s.(previousPosition := LastAccepted(s.previousPosition, ps))
    decreases |ps|
  {
    if ps != [] {
      FeedWhileOff(Sample(s, ps[0]), ps[1..]);
    }
  }

  /** Sub-threshold jitter around the previous position changes nothing at all. */
  lemma {:induction false} FeedJitter(s: Engine, ps: seq<Point>)
    requires Jitter(s.previousPosition, ps)
    ensures Feed(s, ps) == s
    decreases |ps|
  {
    if ps != [] {
      assert !Far(ps[0], s.previousPosition);
      FeedJitter(s, ps[1..]);
    }
  }

  /** A spaced stream is accepted whole and leaves its last sample as the previous position. */
  lemma {:induction false} SpacedAllAccepted(prev: Point, ps: seq<Point>)
    requires Spaced(prev, ps)
    ensures Accepted(prev, ps) == ps
    ensures ps != [] ==> LastAccepted(prev, ps) == ps[|ps| - 1]
    decreases |ps|
  {
    if ps != [] {
      SpacedAllAccepted(ps[0], ps[1..]);
    }
  }

  /**
   * Round trip: N spaced particle samples into an empty buffer, then one tick,
   * hand exactly N particles, in the order painted, to the particle system.
   */
  lemma FlushRoundTrip(s: Engine, ps: seq<Point>)
    requires s.paintingOn && s.paintType == Dollar && s.currVertices == []
    requires Spaced(s.previousPosition, ps) && ps != []
    ensures var r := Update(Feed(s, ps));
      && r.currentParticles == Particles(ps)
      && r.currVertices == ps
      && !r.newPaintVertices
  {
    FeedParticles(s, ps);
    SpacedAllAccepted(s.previousPosition, ps);
    assert [] + ps == ps;
  }
}
