/**
 * The two pure rules the cutting game is built on, shared by both versions
 * of the game (js/cutting.js and its earlier variant js/game.js): how a cut
 * splits the remaining band, and how the cut line bounces between the top
 * of the play area and its lower bound.
 *
 * Coordinates grow downwards, as in the page: the band is the vertical span
 * [top, top + height], and "lower" means a larger coordinate.
 */
module CutRules {
  import opened Numbers

  /** A vertical span of the play area: its top offset and its height. */
  datatype Band = Band(top: real, height: real)
  {
    function Bottom(): real { top + height }
  }

  /** The cut line: its position and its direction (+1 moving down, -1 moving up). */
  datatype Line = Line(pos: real, dir: int)

  /** A cut at `cut` lies on the band, its two edges included. */
  predicate OnBand(b: Band, cut: real)
  {
    b.top <= cut <= b.Bottom()
  }

  /**
   * `kept` is the piece the game keeps when `b` is cut at `cut`: one of the
   * two pieces either side of the cut, never taller than the piece thrown
   * away, and the lower piece when the two are the same height.
   */
  ghost predicate IsKeptPiece(b: Band, cut: real, kept: Band)
  {
    && (kept == Band(b.top, cut - b.top) || kept == Band(cut, b.Bottom() - cut))
    && kept.height <= b.height - kept.height
    && (kept.height == b.height - kept.height ==> kept.top == cut)
  }

  /**
   * The band left after a cut on it. The code compares the upper piece
   * with the lower one and keeps the upper piece only when it is strictly
   * smaller; otherwise (a tie included) it keeps the lower piece.
   */
  function Split(b: Band, cut: real): (kept: Band)
    requires OnBand(b, cut)
    ensures IsKeptPiece(b, cut, kept)
    ensures b.top <= kept.top && kept.Bottom() <= b.Bottom()
    ensures 0.0 <= kept.height && 2.0 * kept.height <= b.height
    ensures kept.height == Min(cut - b.top, b.Bottom() - cut)
    ensures cut == b.top || cut == b.Bottom() ==> kept.height == 0.0
  {
    var upperSize := cut - b.top;
    var lowerSize := b.Bottom() - cut;
    if upperSize < lowerSize then Band(b.top, upperSize) else Band(cut, lowerSize)
  }

  /** The description of the kept piece leaves no choice: Split is the only piece that fits it. */
  lemma KeptPieceIsUnique(b: Band, cut: real, kept: Band)
    requires OnBand(b, cut)
    requires IsKeptPiece(b, cut, kept)
    ensures kept == Split(b, cut)
  {
  }

  /**
   * One frame of the line: move by speed in the current direction; at or
   * past the top the line is put on the top and turns downwards, at or past
   * `lineMax` it is put on `lineMax` and turns upwards.
   */
  function LineStep(l: Line, speed: real, lineMax: real): (r: Line)
    requires lineMax >= 0.0
    ensures 0.0 <= r.pos <= lineMax
    ensures r.pos == Max(0.0, Min(l.pos + speed * l.dir as real, lineMax))
    ensures r.pos == 0.0 && l.pos + speed * l.dir as real <= 0.0 ==> r.dir == 1
    ensures l.pos + speed * l.dir as real > 0.0 && r.pos == lineMax ==> r.dir == -1
    ensures 0.0 < r.pos < lineMax ==> r.dir == l.dir
  {
    var next := l.pos + speed * l.dir as real;
    if next <= 0.0 then Line(0.0, 1)
    else if next >= lineMax then Line(lineMax, -1)
    else Line(next, l.dir)
  }

  /** A line that starts in range moves by at most its speed in one frame, and keeps a unit direction. */
  lemma LineStepMovesAtMostSpeed(l: Line, speed: real, lineMax: real)
    requires lineMax >= 0.0 && 0.0 <= l.pos <= lineMax
    requires speed >= 0.0 && (l.dir == 1 || l.dir == -1)
    ensures var r := LineStep(l, speed, lineMax);
      && -speed <= r.pos - l.pos <= speed
      && (r.dir == 1 || r.dir == -1)
  {
  }

  /**
   * The band pulled back inside an area of height `areaHeight` after the
   * area shrinks: its top and its bottom are each clamped to the area's
   * bottom, so a band lying wholly below the area becomes the empty band
   * on the area's bottom edge, and a band that fits is unchanged.
   */
  function ClipBand(b: Band, areaHeight: real): (r: Band)
    requires 0.0 <= b.height && 0.0 <= areaHeight
    ensures r.top == Min(b.top, areaHeight)
    ensures r.Bottom() == Min(b.Bottom(), areaHeight)
    ensures 0.0 <= r.height <= b.height
    ensures b.Bottom() <= areaHeight ==> r == b
  {
    var top := Min(b.top, areaHeight);
    Band(top, Min(b.height, Max(areaHeight - top, 0.0)))
  }

  /** `h` doubled `k` times, that is 2^k * h. */
  function Doubled(h: real, k: nat): real
  {
    if k == 0 then h else 2.0 * Doubled(h, k - 1)
  }

  /**
   * A run of presses at the positions `cuts`: every press on the band
   * splits it, and the first press off the band ends the run. The result is
   * the band left and the number of accepted cuts.
   */
  function Run(b: Band, cuts: seq<real>): (r: (Band, nat))
    ensures r.1 <= |cuts|
    ensures r.1 == 0 ==> r.0 == b
    ensures r.1 < |cuts| ==> !OnBand(r.0, cuts[r.1])
    decreases |cuts|
  {
    if cuts == [] || !OnBand(b, cuts[0]) then (b, 0)
    else
      var rest := Run(Split(b, cuts[0]), cuts[1..]);
      (rest.0, rest.1 + 1)
  }

  /**
   * A run in which every press so far was accepted, followed by one more
   * press on the band left: the new press is accepted and splits that band.
   * This is the step that ties the cutting game's event-by-event state to Run.
   */
  lemma {:induction false} RunAccepts(b: Band, cuts: seq<real>, cut: real)
    requires Run(b, cuts).1 == |cuts|
    requires OnBand(Run(b, cuts).0, cut)
    ensures Run(b, cuts + [cut]) == (Split(Run(b, cuts).0, cut), |cuts| + 1)
    decreases |cuts|
  {
    if cuts == [] {
      assert cuts + [cut] == [cut];
      assert [cut][1..] == [];
    } else {
      assert OnBand(b, cuts[0]);
      assert (cuts + [cut])[0] == cuts[0];
      assert (cuts + [cut])[1..] == cuts[1..] + [cut];
      RunAccepts(Split(b, cuts[0]), cuts[1..], cut);
    }
  }

  /**
   * Over a whole run the band only shrinks: it stays inside the starting
   * band, and after k accepted cuts it is at most 1 / 2^k of its height
   * (doubled k times, it still fits in the starting height).
   */
  lemma {:induction false} RunHalvesBand(b: Band, cuts: seq<real>)
    requires 0.0 <= b.height
    ensures b.top <= Run(b, cuts).0.top && Run(b, cuts).0.Bottom() <= b.Bottom()
    ensures 0.0 <= Run(b, cuts).0.height
    ensures Doubled(Run(b, cuts).0.height, Run(b, cuts).1) <= b.height
    decreases |cuts|
  {
    if cuts == [] || !OnBand(b, cuts[0]) {
      assert Run(b, cuts) == (b, 0);
    } else {
      var b' := Split(b, cuts[0]);
      RunHalvesBand(b', cuts[1..]);
      var rk := Run(b', cuts[1..]);
      assert Run(b, cuts) == (rk.0, rk.1 + 1);
    }
  }
}
