/**
 * Antimeridian handling of a line string: the path is cut at every crossing
 * edge into segments, each ending on one side of the dateline and the next
 * starting on the other side at the same latitude.
 */
module LineSplit {
  import opened Geometry
  import opened Dateline

  /** The segments drawn so far and the one being built. */
  datatype LineState = LineState(done: seq<seq<Vertex>>, current: seq<Vertex>)

  /** Edge `i` to `i + 1` of the line crosses the dateline. */
  predicate LineSplitsAt(cs: seq<Coord>, i: nat)
  {
    i + 1 < |cs| && Crosses(cs[i], cs[i + 1])
  }

  /** One iteration of the segment loop. */
  function LineStep(cs: seq<Coord>, i: nat, s: LineState): LineState
    requires i < |cs|
  {
    var cur := s.current + [Original(cs[i])];
    if LineSplitsAt(cs, i) then
      var lat := LatAsWritten(cs[i], cs[i + 1]);
      if GoingWest(cs[i], cs[i + 1]) then
        LineState(s.done + [cur + [Boundary(Coord(180.0, lat))]], [Boundary(Coord(-180.0, lat))])
      else if GoingEast(cs[i], cs[i + 1]) then
        LineState(s.done + [cur + [Boundary(Coord(-180.0, lat))]], [Boundary(Coord(180.0, lat))])
      else
        LineState(s.done + [cur], [])
    else
      LineState(s.done, cur)
  }

  function LineUpTo(cs: seq<Coord>, k: nat): LineState
    requires k <= |cs|
  {
    if k == 0 then LineState([], []) else LineStep(cs, k - 1, LineUpTo(cs, k - 1))
  }

  /** All segments drawn for the line, the final one included when it has points. */
  function LineSegments(cs: seq<Coord>): seq<seq<Vertex>>
  {
    var s := LineUpTo(cs, |cs|);
    if |s.current| > 0 then s.done + [s.current] else s.done
  }

  /** The segment loop of a crossing line string. */
  method SplitLine(cs: seq<Coord>) returns (segments: seq<seq<Vertex>>)
    ensures segments == LineSegments(cs)
  {
    segments := [];
    var currentSegment: seq<Vertex> := [];
    var i := 0;
    while i < |cs|
      invariant 0 <= i <= |cs|
      invariant LineState(segments, currentSegment) == LineUpTo(cs, i)
    {
      var current := cs[i];
      currentSegment := currentSegment + [Original(current)];
      if i < |cs| - 1 {
        var next := cs[i + 1];
        var lonDiff := Abs(current.lon - next.lon);
        if lonDiff > 180.0 {
          var lat := LatAsWritten(current, next);
          var goingWest := current.lon > 0.0 && next.lon < 0.0;
          var goingEast := current.lon < 0.0 && next.lon > 0.0;
          if goingWest {
            currentSegment := currentSegment + [Boundary(Coord(180.0, lat))];
          } else if goingEast {
            currentSegment := currentSegment + [Boundary(Coord(-180.0, lat))];
          }
          segments := segments + [currentSegment];
          if goingWest {
            currentSegment := [Boundary(Coord(-180.0, lat))];
          } else if goingEast {
            currentSegment := [Boundary(Coord(180.0, lat))];
          } else {
            currentSegment := [];
          }
        }
      }
      i := i + 1;
    }
    if |currentSegment| > 0 {
      segments := segments + [currentSegment];
    }
  }

  /** The number of crossing edges among the first `k` vertices' outgoing edges. */
  function LineCrossings(cs: seq<Coord>, k: nat): nat
    requires k <= |cs|
  {
    if k == 0 then 0 else LineCrossings(cs, k - 1) + (if LineSplitsAt(cs, k - 1) then 1 else 0)
  }

  /** The input vertices of a list of segments, segment after segment. */
  function AllOriginals(segs: seq<seq<Vertex>>): seq<Coord>
  {
    if segs == [] then [] else AllOriginals(segs[..|segs| - 1]) + Originals(segs[|segs| - 1])
  }

  lemma AllOriginalsSnoc(segs: seq<seq<Vertex>>, seg: seq<Vertex>)
    ensures AllOriginals(segs + [seg]) == AllOriginals(segs) + Originals(seg)
  {
    assert (segs + [seg])[..|segs|] == segs;
  }

  lemma OriginalsSnoc(vs: seq<Vertex>, v: Vertex)
    ensures Originals(vs + [v]) == Originals(vs) + (if v.Original? then [v.c] else [])
  {
    assert (vs + [v])[..|vs|] == vs;
  }

  lemma {:induction false} LineUpToKeepsInput(cs: seq<Coord>, k: nat)
    requires k <= |cs|
    ensures AllOriginals(LineUpTo(cs, k).done) + Originals(LineUpTo(cs, k).current) == cs[..k]
  {
    if k > 0 {
      var i := k - 1;
      PrefixSnoc(cs, k);
      var s := LineUpTo(cs, i);
      LineUpToKeepsInput(cs, i);
      LineStepKeepsInput(cs, i, s);
    }
  }

  lemma PrefixSnoc<T>(s: seq<T>, k: nat)
    requires 0 < k <= |s|
    ensures s[..k] == s[..k - 1] + [s[k - 1]]
  {
  }

  /** One iteration adds exactly the vertex it reads to the originals. */
  lemma LineStepKeepsInput(cs: seq<Coord>, i: nat, s: LineState)
    requires i < |cs|
    ensures var t := LineStep(cs, i, s);
            AllOriginals(t.done) + Originals(t.current) == AllOriginals(s.done) + Originals(s.current) + [cs[i]]
  {
    var t := LineStep(cs, i, s);
    var cur := s.current + [Original(cs[i])];
    OriginalsSnoc(s.current, Original(cs[i]));
    if LineSplitsAt(cs, i) {
      var lat := LatAsWritten(cs[i], cs[i + 1]);
      if GoingWest(cs[i], cs[i + 1]) {
        var b, b' := Boundary(Coord(180.0, lat)), Boundary(Coord(-180.0, lat));
        assert t == LineState(s.done + [cur + [b]], [b']);
        KeepsAcross(s.done, cur, b, b');
      } else if GoingEast(cs[i], cs[i + 1]) {
        var b, b' := Boundary(Coord(-180.0, lat)), Boundary(Coord(180.0, lat));
        assert t == LineState(s.done + [cur + [b]], [b']);
        KeepsAcross(s.done, cur, b, b');
      } else {
        assert t == LineState(s.done + [cur], []);
        AllOriginalsSnoc(s.done, cur);
      }
    } else {
      assert t == LineState(s.done, cur);
    }
  }

  /** Closing a segment with a dateline vertex and starting the next moves no input vertex. */
  lemma KeepsAcross(done: seq<seq<Vertex>>, cur: seq<Vertex>, b: Vertex, b': Vertex)
    requires b.Boundary? && b'.Boundary?
    ensures AllOriginals(done + [cur + [b]]) + Originals([b']) == AllOriginals(done) + Originals(cur)
  {
    AllOriginalsSnoc(done, cur + [b]);
    OriginalsSnoc(cur, b);
    OriginalsSnoc([], b');
  }

  /** Dropping the dateline vertices and joining the segments gives back the line. */
  lemma LineSegmentsKeepInput(cs: seq<Coord>)
    ensures AllOriginals(LineSegments(cs)) == cs
  {
    var s := LineUpTo(cs, |cs|);
    LineUpToKeepsInput(cs, |cs|);
    assert cs[..|cs|] == cs;
    if |s.current| > 0 {
      assert (s.done + [s.current])[..|s.done|] == s.done;
    } else {
      assert s.current == [];
    }
  }

  lemma {:induction false} LineUpToCount(cs: seq<Coord>, k: nat)
    requires k <= |cs|
    ensures |LineUpTo(cs, k).done| == LineCrossings(cs, k)
    ensures k > 0 && !LineSplitsAt(cs, k - 1) ==> |LineUpTo(cs, k).current| > 0
  {
    if k > 0 {
      LineUpToCount(cs, k - 1);
    }
  }

  /** A line of `n >= 1` vertices with `c` crossing edges is drawn as `c + 1` segments. */
  lemma LineSegmentCount(cs: seq<Coord>)
    requires |cs| > 0
    ensures |LineSegments(cs)| == LineCrossings(cs, |cs|) + 1
  {
    LineUpToCount(cs, |cs|);
  }

  lemma {:induction false} NoCrossingLineUpTo(cs: seq<Coord>, k: nat)
    requires k <= |cs| && !HasCrossing(cs)
    ensures LineUpTo(cs, k) == LineState([], Tagged(cs[..k]))
  {
    if k > 0 {
      NoCrossingLineUpTo(cs, k - 1);
      assert !LineSplitsAt(cs, k - 1) by {
        if k < |cs| {
          assert !Crosses(cs[k - 1], cs[k]);
        }
      }
      LineStepExtends(cs, k - 1, LineUpTo(cs, k - 1));
      assert cs[..k][..k - 1] == cs[..k - 1];
      assert Tagged(cs[..k]) == Tagged(cs[..k - 1]) + [Original(cs[k - 1])];
    }
  }

  /** A step over an edge that does not cross only extends the current segment. */
  lemma LineStepExtends(cs: seq<Coord>, i: nat, s: LineState)
    requires i < |cs| && !LineSplitsAt(cs, i)
    ensures LineStep(cs, i, s) == LineState(s.done, s.current + [Original(cs[i])])
  {
  }

  /** The input vertices, untouched. */
  function Tagged(cs: seq<Coord>): (vs: seq<Vertex>)
    ensures |vs| == |cs|
    ensures forall i :: 0 <= i < |cs| ==> vs[i] == Original(cs[i])
    ensures Coords(vs) == cs
  {
    if cs == [] then [] else Tagged(cs[..|cs| - 1]) + [Original(cs[|cs| - 1])]
  }

  /** Without a crossing the split would draw the line unchanged as one segment. */
  lemma NoCrossingOneSegment(cs: seq<Coord>)
    requires |cs| > 0 && !HasCrossing(cs)
    ensures LineSegments(cs) == [Tagged(cs)]
  {
    NoCrossingLineUpTo(cs, |cs|);
    assert cs[..|cs|] == cs;
  }

  /** No consecutive pair of the open path crosses the dateline. */
  predicate PathSafe(vs: seq<Vertex>)
  {
    forall i :: 0 <= i < |vs| - 1 ==> !Crosses(vs[i].c, vs[i + 1].c)
  }

  lemma SafeAppend(vs: seq<Vertex>, v: Vertex)
    requires PathSafe(vs)
    requires vs == [] || !Crosses(vs[|vs| - 1].c, v.c)
    ensures PathSafe(vs + [v])
  {
    var ws := vs + [v];
    forall i | 0 <= i < |ws| - 1
      ensures !Crosses(ws[i].c, ws[i + 1].c)
    {
      if i < |vs| - 1 {
        assert ws[i] == vs[i] && ws[i + 1] == vs[i + 1];
      }
    }
  }

  /** The last vertex of the segment under construction does not cross to the next input vertex. */
  predicate Continues(cs: seq<Coord>, k: nat, cur: seq<Vertex>)
  {
    k < |cs| && cur != [] ==> !Crosses(cur[|cur| - 1].c, cs[k])
  }

  lemma {:induction false} LineUpToSafe(cs: seq<Coord>, k: nat)
    requires k <= |cs| && AllInRange(cs)
    ensures forall j :: 0 <= j < |LineUpTo(cs, k).done| ==> PathSafe(LineUpTo(cs, k).done[j])
    ensures PathSafe(LineUpTo(cs, k).current)
    ensures Continues(cs, k, LineUpTo(cs, k).current)
  {
    if k > 0 {
      var i := k - 1;
      var s := LineUpTo(cs, i);
      LineUpToSafe(cs, i);
      var cur := s.current + [Original(cs[i])];
      SafeAppend(s.current, Original(cs[i]));
      if LineSplitsAt(cs, i) {
        var lat := LatAsWritten(cs[i], cs[i + 1]);
        CrossingIsDirected(cs[i], cs[i + 1]);
        if GoingWest(cs[i], cs[i + 1]) {
          SafeAppend(cur, Boundary(Coord(180.0, lat)));
        } else {
          SafeAppend(cur, Boundary(Coord(-180.0, lat)));
        }
      }
    }
  }

  /** On the map, no drawn segment of a line crosses the dateline. */
  lemma LineSegmentsSafe(cs: seq<Coord>)
    requires AllInRange(cs)
    ensures forall j :: 0 <= j < |LineSegments(cs)| ==> PathSafe(LineSegments(cs)[j])
  {
    LineUpToSafe(cs, |cs|);
  }

  /**
   * Segment `s` ends on the dateline and `t` starts on the opposite side of it
   * at the same latitude.
   */
  predicate Paired(s: seq<Vertex>, t: seq<Vertex>)
  {
    |s| > 0 && |t| > 0 &&
    s[|s| - 1].Boundary? && t[0].Boundary? &&
    Abs(s[|s| - 1].c.lon) == 180.0 &&
    t[0].c.lon == -s[|s| - 1].c.lon &&
    t[0].c.lat == s[|s| - 1].c.lat
  }

  lemma {:induction false} LineUpToPaired(cs: seq<Coord>, k: nat)
    requires k <= |cs| && AllInRange(cs)
    ensures var s := LineUpTo(cs, k);
            (forall j :: 0 <= j < |s.done| - 1 ==> Paired(s.done[j], s.done[j + 1])) &&
            (|s.done| > 0 ==> Paired(s.done[|s.done| - 1], s.current))
  {
    if k > 0 {
      var i := k - 1;
      var s := LineUpTo(cs, i);
      LineUpToPaired(cs, i);
      if LineSplitsAt(cs, i) {
        CrossingIsDirected(cs[i], cs[i + 1]);
        var t := LineUpTo(cs, k);
        assert t.done == s.done + [t.done[|t.done| - 1]];
        if |s.done| > 0 {
          assert (s.current + [Original(cs[i])])[0] == s.current[0];
        }
        forall j | 0 <= j < |t.done| - 1
          ensures Paired(t.done[j], t.done[j + 1])
        {
          if j < |s.done| - 1 {
            assert t.done[j] == s.done[j] && t.done[j + 1] == s.done[j + 1];
          }
        }
      }
    }
  }

  /** On the map, consecutive segments meet at the dateline, one on each side of it. */
  lemma LineSegmentsPaired(cs: seq<Coord>)
    requires AllInRange(cs)
    ensures forall j :: 0 <= j < |LineSegments(cs)| - 1 ==> Paired(LineSegments(cs)[j], LineSegments(cs)[j + 1])
  {
    var s := LineUpTo(cs, |cs|);
    LineUpToPaired(cs, |cs|);
    LineUpToCount(cs, |cs|);
    if |cs| > 0 {
      var segs := LineSegments(cs);
      assert segs == s.done + [s.current];
      forall j | 0 <= j < |segs| - 1
        ensures Paired(segs[j], segs[j + 1])
      {
        if j < |s.done| - 1 {
          assert segs[j] == s.done[j] && segs[j + 1] == s.done[j + 1];
        }
      }
    }
  }
}
