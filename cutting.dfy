/**
 * The cutting game of js/cutting.js: a line bounces up and down the play
 * area; pressing the cut button while the line is on the remaining band
 * splits the band and keeps the smaller piece, pressing it while the line is
 * off the band ends the run.
 *
 * The game record is a class whose methods are the game's events: a frame
 * of the animation loop (Step), a press of the cut button (PressCut), the
 * end of the 400 ms lock after a cut (Resume), a window resize (Resize) and
 * a restart (InitGame). The height of the play area, which the page reads
 * from the layout, is a parameter of the events that measure it.
 */
module Cutting {
  import opened Numbers
  import opened CutRules
  import opened Scores

  /** Thickness of the drawn line, subtracted from the area height to give the line's lower bound. */
  const LineThickness: real := 4.0
  /** The area is never measured smaller than this. */
  const MinAreaHeight: real := 100.0
  const StartSpeed: real := 1.5
  /** What every accepted cut adds to the line's speed. */
  const SpeedIncrement: real := 0.8

  class CuttingGame {
    var level: int
    var cutCount: int
    var bestScore: int
    var remainingTop: real
    var remainingHeight: real
    var totalHeight: real
    var lineMax: real
    var lineSpeed: real
    var lineDirection: int
    var linePosition: real
    var gameActive: bool
    var isCutting: bool

    /**
     * What every event keeps. The band is not claimed to lie inside the
     * area: a cut re-measures the area without re-clamping, so after the
     * area shrinks the band can stick out until the next resize event.
     */
    ghost predicate Valid()
      reads this
    {
      && totalHeight >= MinAreaHeight
      && lineMax == totalHeight - LineThickness
      && 0.0 <= linePosition
      && (lineDirection == 1 || lineDirection == -1)
      && lineSpeed >= StartSpeed
      && 0.0 <= remainingTop && 0.0 <= remainingHeight
      && cutCount >= 0 && level == cutCount + 1
      && bestScore >= 0
    }

    function RemainingBand(): Band
      reads this
    {
      Band(remainingTop, remainingHeight)
    }

    function CutLine(): Line
      reads this
    {
      Line(linePosition, lineDirection)
    }

    /** Loading the stored best score, then starting the first run. */
    constructor (savedBest: nat, areaHeight: real)
      ensures Valid()
      ensures bestScore == savedBest
      ensures gameActive && !isCutting
      ensures level == 1 && cutCount == 0 && lineSpeed == StartSpeed
      ensures totalHeight == Max(areaHeight, MinAreaHeight)
      ensures RemainingBand() == Band(0.0, totalHeight)
      ensures CutLine() == Line(StartSpeed, 1)
    {
      level, cutCount, bestScore := 1, 0, savedBest;
      remainingTop, remainingHeight, totalHeight, lineMax := 0.0, 0.0, 0.0, 0.0;
      lineSpeed, lineDirection, linePosition := StartSpeed, 1, 0.0;
      gameActive, isCutting := true, false;
      new;
      InitGame(areaHeight);
    }

    /** Reads the area height: at least 100, and the line's lower bound is 4 above the area's bottom. */
    method MeasureHeights(areaHeight: real)
      modifies this`totalHeight, this`lineMax
      ensures totalHeight == Max(areaHeight, MinAreaHeight)
      ensures totalHeight >= MinAreaHeight && lineMax == totalHeight - LineThickness
    {
      totalHeight := Max(areaHeight, MinAreaHeight);
      lineMax := Max(totalHeight - LineThickness, 0.0);
    }

    /** Keeps the run's score as the best one when it is strictly larger. */
    method SaveBestScore()
      modifies this`bestScore
      ensures bestScore == NewBest(old(bestScore), cutCount)
    {
      if cutCount > bestScore {
        bestScore := cutCount;
      }
    }

    /**
     * Restart: resets the run, measures the area, makes the whole area the
     * band, and runs the first frame of the loop.
     */
    method InitGame(areaHeight: real)
      requires bestScore >= 0
      modifies this
      ensures Valid()
      ensures bestScore == old(bestScore)
      ensures gameActive && !isCutting
      ensures level == 1 && cutCount == 0 && lineSpeed == StartSpeed
      ensures totalHeight == Max(areaHeight, MinAreaHeight)
      ensures RemainingBand() == Band(0.0, totalHeight)
      ensures CutLine() == Line(StartSpeed, 1)
    {
      level := 1;
      cutCount := 0;
      lineSpeed := StartSpeed;
      lineDirection := 1;
      linePosition := 0.0;
      gameActive := true;
      isCutting := false;
      remainingTop := 0.0;
      MeasureHeights(areaHeight);
      remainingHeight := totalHeight;
      Step();
    }

    /**
     * One frame of the animation loop: nothing moves while the run is over
     * or a cut is in progress; otherwise the line bounces within [0, lineMax].
     */
    method Step()
      requires Valid()
      modifies this`linePosition, this`lineDirection
      ensures Valid()
      ensures !gameActive || isCutting ==> CutLine() == old(CutLine())
      ensures gameActive && !isCutting ==> CutLine() == LineStep(old(CutLine()), lineSpeed, lineMax)
      ensures gameActive && !isCutting ==> 0.0 <= linePosition <= lineMax
    {
      if !gameActive || isCutting {
        return;
      }
      linePosition := linePosition + lineSpeed * lineDirection as real;
      if linePosition <= 0.0 {
        linePosition := 0.0;
        lineDirection := 1;
      } else if linePosition >= lineMax {
        linePosition := lineMax;
        lineDirection := -1;
      }
    }

    /** Ends the run; the line stops and presses are ignored from now on. */
    method EndGame()
      modifies this`gameActive
      ensures !gameActive
    {
      gameActive := false;
    }

    /**
     * An accepted cut at `cut`: the band becomes the kept piece, the score,
     * level and speed go up, and the area is measured again.
     */
    method ExecuteCut(cut: real, areaHeight: real)
      requires Valid() && OnBand(RemainingBand(), cut)
      modifies this
      ensures Valid()
      ensures RemainingBand() == Split(old(RemainingBand()), cut)
      ensures cutCount == old(cutCount) + 1 && level == old(level) + 1
      ensures lineSpeed == old(lineSpeed) + SpeedIncrement
      ensures totalHeight == Max(areaHeight, MinAreaHeight)
      ensures CutLine() == old(CutLine()) && bestScore == old(bestScore)
      ensures gameActive == old(gameActive) && isCutting == old(isCutting)
    {
      var remainingBottom := remainingTop + remainingHeight;
      var topPieceSize := cut - remainingTop;
      var bottomPieceSize := remainingBottom - cut;
      if topPieceSize < bottomPieceSize {
        remainingHeight := topPieceSize;
      } else {
        remainingHeight := bottomPieceSize;
        remainingTop := cut;
      }
      cutCount := cutCount + 1;
      level := level + 1;
      lineSpeed := lineSpeed + SpeedIncrement;
      MeasureHeights(areaHeight);
    }

    /**
     * A press of the cut button. Ignored while the run is over or a cut is
     * in progress. Otherwise it locks the button, and the line's position is
     * the cut: off the band it saves the best score and ends the run with
     * the band untouched; on the band (edges included) it executes the cut.
     */
    method PressCut(areaHeight: real)
      requires Valid()
      modifies this
      ensures Valid()
      ensures !old(gameActive) || old(isCutting) ==> unchanged(this)
      ensures old(gameActive) && !old(isCutting) ==> isCutting && CutLine() == old(CutLine())
      ensures old(gameActive) && !old(isCutting) && !OnBand(old(RemainingBand()), old(linePosition)) ==>
        && !gameActive
        && RemainingBand() == old(RemainingBand())
        && cutCount == old(cutCount) && level == old(level) && lineSpeed == old(lineSpeed)
        && bestScore == NewBest(old(bestScore), cutCount)
        && totalHeight == old(totalHeight)
      ensures old(gameActive) && !old(isCutting) && OnBand(old(RemainingBand()), old(linePosition)) ==>
        && gameActive
        && RemainingBand() == Split(old(RemainingBand()), old(linePosition))
        && cutCount == old(cutCount) + 1 && level == old(level) + 1
        && lineSpeed == old(lineSpeed) + SpeedIncrement
        && bestScore == old(bestScore)
        && totalHeight == Max(areaHeight, MinAreaHeight)
    {
      if !gameActive || isCutting {
        return;
      }
      isCutting := true;
      var cutPosition := linePosition;
      var remainingBottom := remainingTop + remainingHeight;
      if cutPosition < remainingTop || cutPosition > remainingBottom {
        SaveBestScore();
        EndGame();
        return;
      }
      ExecuteCut(cutPosition, areaHeight);
    }

    /** The end of the lock after a cut: input is accepted again and the loop runs its next frame. */
    method Resume()
      requires Valid()
      modifies this`isCutting, this`linePosition, this`lineDirection
      ensures Valid() && !isCutting
      ensures gameActive ==> CutLine() == LineStep(old(CutLine()), lineSpeed, lineMax)
      ensures !gameActive ==> CutLine() == old(CutLine())
    {
      isCutting := false;
      Step();
    }

    /**
     * A window resize during a run: the area is measured again and the band
     * and the line are pulled back inside it. Ignored when the run is over.
     */
    method Resize(areaHeight: real)
      requires Valid()
      modifies this`totalHeight, this`lineMax, this`remainingTop, this`remainingHeight, this`linePosition
      ensures Valid()
      ensures !gameActive ==> unchanged(this)
      ensures gameActive ==>
        && totalHeight == Max(areaHeight, MinAreaHeight)
        && lineMax == totalHeight - LineThickness
        && RemainingBand() == ClipBand(old(RemainingBand()), totalHeight)
        && remainingTop == Min(old(remainingTop), totalHeight)
        && RemainingBand().Bottom() == Min(old(RemainingBand()).Bottom(), totalHeight)
        && remainingTop + remainingHeight <= totalHeight
        && remainingHeight <= old(remainingHeight)
        && linePosition == Min(old(linePosition), lineMax)
      ensures gameActive && old(RemainingBand()).Bottom() <= totalHeight ==> RemainingBand() == old(RemainingBand())
    {
      if !gameActive {
        return;
      }
      MeasureHeights(areaHeight);
      remainingTop := Min(remainingTop, totalHeight);
      remainingHeight := Min(remainingHeight, Max(totalHeight - remainingTop, 0.0));
      linePosition := Min(linePosition, lineMax);
    }
  }
}
