/**
 * The best-score rule the games share (js/cutting.js, js/game.js and
 * js/mashing.js each have their own copy of it in saveBestScore, and
 * js/juggling.js applies it to times in saveBestTime): the stored best is
 * replaced only by a strictly larger result, so it never decreases.
 */
module Scores {

  /** The best score after a run that ended with `score`. */
  function NewBest(best: int, score: int): (r: int)
    ensures r >= best && r >= score
    ensures r == best || r == score
    ensures r != best ==> score > best
  {
    if score > best then score else best
  }

  /** The same rule over run times in seconds: the best time after a run that lasted `time`. */
  function NewBestTime(best: real, time: real): (r: real)
    ensures r >= best && r >= time
    ensures r == best || r == time
    ensures r != best ==> time > best
  {
    if time > best then time else best
  }
}
