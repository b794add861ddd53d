/**
 * The mashing game of js/mashing.js: a ten-second countdown during which
 * every tap on the target scores one point.
 *
 * The game record is a class whose methods are the game's events: a start
 * or restart (InitGame), a tap (HandleSmash) and one tick of the one-second
 * countdown timer (Tick). The timer runs from InitGame until EndGame clears
 * it, which is exactly while the run is active, so Tick is only called then.
 */
module Mashing {
  import opened Scores

  /** Length of a run, in seconds. */
  const InitialTime: int := 10

  /** The width of the progress bar, in percent, with `timeLeft` seconds to go. */
  function ProgressPercent(timeLeft: int): (r: real)
    ensures 0 <= timeLeft <= InitialTime ==> 0.0 <= r <= 100.0
    ensures timeLeft == InitialTime ==> r == 100.0
    ensures timeLeft == 0 ==> r == 0.0
    ensures timeLeft < InitialTime ==> r < 100.0
  {
    timeLeft as real / InitialTime as real * 100.0
  }

  /** The number of taps, in a log of taps, that arrived while the run was active. */
  function CountAccepted(log: seq<bool>): (n: nat)
    ensures n <= |log|
    ensures n == |log| <==> forall i :: 0 <= i < |log| ==> log[i]
    ensures n == 0 <==> forall i :: 0 <= i < |log| ==> !log[i]
  {
    if log == [] then 0 else CountAccepted(log[..|log| - 1]) + (if log[|log| - 1] then 1 else 0)
  }

  class MashingGame {
    var active: bool
    var score: int
    var bestScore: int
    var timeLeft: int
    /** For each tap since the last start, whether the run was active when it arrived. */
    ghost var taps: seq<bool>

    /**
     * The score is the number of taps that arrived during the run; a run
     * in progress has between 1 and 10 seconds left.
     */
    ghost predicate Valid()
      reads this
    {
      && score == CountAccepted(taps)
      && 0 <= timeLeft <= InitialTime
      && (active ==> timeLeft >= 1)
      && bestScore >= 0
    }

    /** Loading the stored best score; no run is in progress until the start button. */
    constructor (savedBest: nat)
      ensures Valid() && !active
      ensures score == 0 && timeLeft == InitialTime && bestScore == savedBest
    {
      active := false;
      score := 0;
      bestScore := savedBest;
      timeLeft := InitialTime;
      taps := [];
    }

    /** Keeps the run's score as the best one when it is strictly larger. */
    method SaveBestScore()
      modifies this`bestScore
      ensures bestScore == NewBest(old(bestScore), score)
    {
      if score > bestScore {
        bestScore := score;
      }
    }

    /** Start or restart: a fresh run with a zero score and the full ten seconds. */
    method InitGame()
      requires Valid()
      modifies this
      ensures Valid() && active
      ensures score == 0 && timeLeft == InitialTime && taps == []
      ensures bestScore == old(bestScore)
    {
      active := true;
      score := 0;
      timeLeft := InitialTime;
      taps := [];
    }

    /** A tap on the target: one point during a run, nothing otherwise. */
    method HandleSmash()
      requires Valid()
      modifies this`score, this`taps
      ensures Valid()
      ensures score == old(score) + (if active then 1 else 0)
      ensures taps == old(taps) + [active]
    {
      taps := taps + [active];
      if !active {
        return;
      }
      score := score + 1;
    }

    /** Ends the run: the timer stops and the best score is saved. */
    method EndGame()
      modifies this`active, this`bestScore
      ensures !active
      ensures bestScore == NewBest(old(bestScore), score)
    {
      active := false;
      SaveBestScore();
    }

    /**
     * One second of the countdown: one second less, the progress bar's
     * width to show, and the end of the run when no time is left.
     */
    method Tick() returns (progress: real)
      requires Valid() && active
      modifies this`timeLeft, this`active, this`bestScore
      ensures Valid()
      ensures timeLeft == old(timeLeft) - 1
      ensures progress == ProgressPercent(timeLeft) && 0.0 <= progress < 100.0
      ensures active == (timeLeft > 0)
      ensures bestScore == if active then old(bestScore) else NewBest(old(bestScore), score)
      ensures score == old(score)
    {
      timeLeft := timeLeft - 1;
      progress := ProgressPercent(timeLeft);
      if timeLeft <= 0 {
        EndGame();
      }
    }
  }
}
