/**
 * The earlier version of the cutting game, js/game.js. It plays like
 * js/cutting.js with three differences: the line bounces all the way down to
 * the area's height (no allowance for the line's thickness), a restart reads
 * the area's height at once (no deferred, clamped measurement), and there is
 * no resize handling. Because nothing re-measures the area during a run, the
 * band and the line stay inside the area for the whole run.
 */
module CuttingEarly {
  import opened CutRules
  import opened Scores

  const StartSpeed: real := 1.5
  /** What every accepted cut adds to the line's speed. */
  const SpeedIncrement: real := 0.8

  class CuttingGame {
    var level: int
    var cutCount: int
    var bestScore: int
    var remainingTop: real
    var remainingHeight: real
    var totalHeight: real
    var lineSpeed: real
    var lineDirection: int
    var linePosition: real
    var gameActive: bool
    var isCutting: bool
    /** The positions of the cuts accepted in this run, in order. */
    ghost var cuts: seq<real>

    /**
     * What every event keeps: the line and the band lie inside the area
     * [0, totalHeight], and the band follows the log of accepted cuts.
     */
    ghost predicate Valid()
      reads this
    {
      && totalHeight >= 0.0
      && Logged()
      && 0.0 <= linePosition <= totalHeight
      && (lineDirection == 1 || lineDirection == -1)
      && lineSpeed >= StartSpeed
      && 0.0 <= remainingTop && 0.0 <= remainingHeight
      && remainingTop + remainingHeight <= totalHeight
      && cutCount >= 0 && level == cutCount + 1
      && bestScore >= 0
    }

    /** The band is what Run makes of the whole area with the logged cuts, all of them accepted, one point each. */
    ghost predicate Logged()
      reads this`totalHeight, this`cuts, this`remainingTop, this`remainingHeight, this`cutCount
    {
      var (band, accepted) := Run(Band(0.0, totalHeight), cuts);
      band == Band(remainingTop, remainingHeight) && accepted == |cuts| == cutCount
    }

    function RemainingBand(): Band
      reads this
    {
      Band(remainingTop, remainingHeight)
    }

    function CutLine(): Line
      reads this
    {
      Line(linePosition, lineDirection)
    }

    /** Loading the stored best score, then starting the first run. */
    constructor (savedBest: nat, areaHeight: nat)
      ensures Valid()
      ensures bestScore == savedBest
      ensures gameActive && !isCutting
      ensures level == 1 && cutCount == 0 && lineSpeed == StartSpeed
      ensures totalHeight == areaHeight as real
      ensures RemainingBand() == Band(0.0, totalHeight)
      ensures CutLine() == LineStep(Line(0.0, 1), StartSpeed, totalHeight)
    {
      level, cutCount, bestScore := 1, 0, savedBest;
      remainingTop, remainingHeight, totalHeight := 0.0, 0.0, 0.0;
      lineSpeed, lineDirection, linePosition := StartSpeed, 1, 0.0;
      gameActive, isCutting := true, false;
      cuts := [];
      new;
      InitGame(areaHeight);
    }

    /** Keeps the run's score as the best one when it is strictly larger. */
    method SaveBestScore()
      modifies this`bestScore
      ensures bestScore == NewBest(old(bestScore), cutCount)
    {
      if cutCount > bestScore {
        bestScore := cutCount;
      }
    }

    /**
     * Restart: resets the run, takes the area's height (the page's offset
     * height, a whole number of pixels) as the band, and runs the first frame.
     */
    method InitGame(areaHeight: nat)
      requires bestScore >= 0
      modifies this
      ensures Valid()
      ensures cuts == []
      ensures bestScore == old(bestScore)
      ensures gameActive && !isCutting
      ensures level == 1 && cutCount == 0 && lineSpeed == StartSpeed
      ensures totalHeight == areaHeight as real
      ensures RemainingBand() == Band(0.0, totalHeight)
      ensures CutLine() == LineStep(Line(0.0, 1), StartSpeed, totalHeight)
    {
      level := 1;
      cutCount := 0;
      lineSpeed := StartSpeed;
      lineDirection := 1;
      linePosition := 0.0;
      gameActive := true;
      isCutting := false;
      totalHeight := areaHeight as real;
      remainingTop := 0.0;
      remainingHeight := totalHeight;
      cuts := [];
      assert Run(Band(0.0, totalHeight), cuts) == (RemainingBand(), 0);
      Step();
    }

    /**
     * One frame of the animation loop: nothing moves while the run is over
     * or a cut is in progress; otherwise the line bounces within [0, totalHeight].
     */
    method Step()
      requires Valid()
      modifies this`linePosition, this`lineDirection
      ensures Valid()
      ensures !gameActive || isCutting ==> CutLine() == old(CutLine())
      ensures gameActive && !isCutting ==> CutLine() == LineStep(old(CutLine()), lineSpeed, totalHeight)
    {
      if !gameActive || isCutting {
        return;
      }
      ghost var logged := Logged();
      linePosition := linePosition + lineSpeed * lineDirection as real;
      if linePosition <= 0.0 {
        linePosition := 0.0;
        lineDirection := 1;
      } else if linePosition >= totalHeight {
        linePosition := totalHeight;
        lineDirection := -1;
      }
      assert Logged() == logged;
    }

    /** Ends the run; the line stops and presses are ignored from now on. */
    method EndGame()
      modifies this`gameActive
      ensures !gameActive
    {
      gameActive := false;
    }

    /** An accepted cut at `cut`: the band becomes the kept piece, and the score, level and speed go up. */
    method ExecuteCut(cut: real)
      requires Valid() && OnBand(RemainingBand(), cut)
      modifies this`remainingTop, this`remainingHeight, this`cutCount, this`level, this`lineSpeed, this`cuts
      ensures Valid()
      ensures cuts == old(cuts) + [cut]
      ensures RemainingBand() == Split(old(RemainingBand()), cut)
      ensures cutCount == old(cutCount) + 1 && level == old(level) + 1
      ensures lineSpeed == old(lineSpeed) + SpeedIncrement
    {
      RunAccepts(Band(0.0, totalHeight), cuts, cut);
      var remainingBottom := remainingTop + remainingHeight;
      var topPieceSize := cut - remainingTop;
      var bottomPieceSize := remainingBottom - cut;
      if topPieceSize < bottomPieceSize {
        remainingHeight := topPieceSize;
      } else {
        remainingHeight := bottomPieceSize;
        remainingTop := cut;
      }
      cutCount := cutCount + 1;
      level := level + 1;
      lineSpeed := lineSpeed + SpeedIncrement;
      cuts := cuts + [cut];
    }

    /**
     * A press of the cut button. Ignored while the run is over or a cut is
     * in progress. Otherwise it locks the button; a line off the band saves
     * the best score and ends the run with the band untouched, a line on the
     * band (edges included) executes the cut there.
     */
    method PressCut()
      requires Valid()
      modifies this
      ensures Valid()
      ensures !old(gameActive) || old(isCutting) ==> unchanged(this)
      ensures old(gameActive) && !old(isCutting) ==>
        isCutting && CutLine() == old(CutLine()) && totalHeight == old(totalHeight)
      ensures old(gameActive) && !old(isCutting) && !OnBand(old(RemainingBand()), old(linePosition)) ==>
        && !gameActive
        && cuts == old(cuts)
        && RemainingBand() == old(RemainingBand())
        && cutCount == old(cutCount) && level == old(level) && lineSpeed == old(lineSpeed)
        && bestScore == NewBest(old(bestScore), cutCount)
      ensures old(gameActive) && !old(isCutting) && OnBand(old(RemainingBand()), old(linePosition)) ==>
        && gameActive
        && cuts == old(cuts) + [old(linePosition)]
        && RemainingBand() == Split(old(RemainingBand()), old(linePosition))
        && cutCount == old(cutCount) + 1 && level == old(level) + 1
        && lineSpeed == old(lineSpeed) + SpeedIncrement
        && bestScore == old(bestScore)
    {
      if !gameActive || isCutting {
        return;
      }
      ghost var logged := Logged();
      isCutting := true;
      var cutPosition := linePosition;
      var remainingBottom := remainingTop + remainingHeight;
      if cutPosition < remainingTop || cutPosition > remainingBottom {
        SaveBestScore();
        EndGame();
        assert Logged() == logged;
        return;
      }
      ExecuteCut(cutPosition);
    }

    /** The end of the lock after a cut: input is accepted again and the loop runs its next frame. */
    method Resume()
      requires Valid()
      modifies this`isCutting, this`linePosition, this`lineDirection
      ensures Valid() && !isCutting
      ensures gameActive ==> CutLine() == LineStep(old(CutLine()), lineSpeed, totalHeight)
      ensures !gameActive ==> CutLine() == old(CutLine())
    {
      isCutting := false;
      Step();
    }
  }

  /**
   * The score bounds the band: after k accepted cuts the band is at most
   * 1 / 2^k of the area's height, so every point scored at least halves it.
   */
  lemma BandHalvesPerPoint(g: CuttingGame)
    requires g.Valid()
    ensures Doubled(g.remainingHeight, g.cutCount) <= g.totalHeight
  {
    RunHalvesBand(Band(0.0, g.totalHeight), g.cuts);
  }
}
