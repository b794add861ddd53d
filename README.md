# Mini-games: a verified model of the game logic

This project models the game logic of a small collection of browser
mini-games and the shell that loads them:

- the **cutting game** (`js/cutting.js`). A line bounces up and down the play
  area. Pressing the cut button while the line lies on the remaining band splits
  the band. Pressing it while the line is off the band ends the run.
- its **earlier version** (`js/game.js`). Same game, but the line runs to the
  full area height, the area is read at once on restart, and there is no
  resize handling.
- the **juggling game** (`js/juggling.js`). Falling squares bounce off the
  walls, the ceiling and a paddle; the run ends when one square reaches the
  floor.
- the **mashing game** (`js/mashing.js`). Every tap during a ten-second
  countdown scores a point.
- the **game shell** (`js/main.js`). It holds the games table, resolves the
  base path, tracks the current game, handles history navigation and keeps the
  play statistics.

Each game's state record is a class, one per game, and each event is a method.
The events are a frame of the animation loop, a button press or tap, a key, a
pointer move, a timer tick, a resize and a restart. Each method's contract says
what the new state is. The pure rules behind the events are functions with
lemmas about them:

- the split of the band and the bouncing line, shared by both cutting-game
  versions (module `CutRules`);
- the best-score rule (module `Scores`);
- one frame of a juggling square, the paddle moves and the pointer mapping;
- the shell's path test, asset lookup and statistics folds.

Positions and speeds are exact `real` numbers. Counters are unbounded integers.

Anything the page reads from the browser is a parameter of the event that
reads it:
- the area's width and height;
- the seconds elapsed since the start;
- the pointer position;
- the random size, position and speed of a new square;
- the page path, the URL `game` parameter and the history state;
- whether the page has a header title.

Two facts about the cutting game's rule for a cut (js/cutting.js:113-124,
js/game.js:120-131):

- The game keeps the **smaller** piece of a cut. When the two pieces are the
  same height it keeps the lower one. A cut exactly on an edge of the band
  is accepted and leaves a band of height 0.
- So the band at least halves with every accepted cut
  (`CutRules.RunHalvesBand`). In the earlier version, after k points the band
  is at most 1/2^k of the area (`CuttingEarly.BandHalvesPerPoint`).

## Model

| member | source | states |
|---|---|---|
| `CutRules.OnBand` | js/cutting.js:209 | The acceptance test of a press, the negation of the miss test at js/cutting.js:209 and js/game.js:108: the line lies between the band's top and bottom, edges included. |
| `CutRules.Split` | js/cutting.js:113-124 | The kept band is one of the two pieces either side of the cut. It is no taller than the discarded piece, and it is the lower piece on a tie. It lies inside the old band, its height is min(cut - top, bottom - cut), between 0 and half the old height, and 0 for a cut on an edge. |
| `CutRules.KeptPieceIsUnique` | js/game.js:119-131 | The description of the kept piece fits exactly one band, the one Split returns. |
| `CutRules.LineStep` | js/cutting.js:169-178 | One line step ends in [0, lineMax] at the moved position clamped to that range. At or past the top the direction becomes +1, at or past the lower bound it becomes -1, and in between it is unchanged. |
| `CutRules.LineStepMovesAtMostSpeed` | js/game.js:173-181 | A line in range moves at most its speed in one frame and keeps a unit direction. |
| `CutRules.Run` | js/cutting.js:200-215 | A run of presses splits the band at each press on it and stops at the first press off it. It counts the accepted cuts, never more than the presses. With no accepted cut the band is the starting band. When the run stops early, the press it stops at is off the band left. |
| `CutRules.RunAccepts` | js/game.js:98-135 | When every press so far was accepted, one more press on the band left is accepted too, and the run's band becomes Split of the band left at that press. |
| `CutRules.ClipBand` | js/cutting.js:226-233 | The clipped band's top is min(top, area height) and its bottom is min(bottom, area height). It is never taller than the old band, and a band that fits is unchanged. |
| `CutRules.RunHalvesBand` | js/cutting.js:113-128 | Over a whole run the band stays inside the starting band. After k accepted cuts its height is at most the starting height divided by 2^k. |
| `Scores.NewBest` | js/mashing.js:35-41 | The best score after a run is the larger of the two and never below the old best. It changes only when the run's score is strictly greater. |
| `Cutting.CuttingGame.constructor` | js/cutting.js:244-255 | Loads the stored best, then starts a run as InitGame does. |
| `Cutting.CuttingGame.MeasureHeights` | js/cutting.js:34-41 | The measured height is max(area height, 100). The line's lower bound is that height minus 4. |
| `Cutting.CuttingGame.SaveBestScore` | js/cutting.js:51-60 | The best score becomes NewBest(old best, cut count). |
| `Cutting.CuttingGame.InitGame` | js/cutting.js:63-91 | Resets level to 1, cuts to 0, speed to 1.5 and the band to the whole measured area, and keeps the best score. The first frame then leaves the line at 1.5 moving down. |
| `Cutting.CuttingGame.Step` | js/cutting.js:166-182 | Nothing moves while the run is over or a cut is locked. Otherwise the line takes one LineStep and ends within [0, lineMax]. |
| `Cutting.CuttingGame.EndGame` | js/cutting.js:185-196 | The run is over. |
| `Cutting.CuttingGame.ExecuteCut` | js/cutting.js:112-135 | The band becomes Split(old band, cut). Cuts and level each rise by exactly 1, the speed rises by exactly 0.8, and the area is measured again. The line and the best score are unchanged. |
| `Cutting.CuttingGame.PressCut` | js/cutting.js:200-216 | Ignored when the run is over or a cut is locked; otherwise the button locks. Off the band, the run ends with band, cuts, level and speed unchanged and the best score saved. On the band, edges included, the cut is executed. |
| `Cutting.CuttingGame.Resume` | js/cutting.js:137-141 | The lock is released and the loop runs its next frame. |
| `Cutting.CuttingGame.Resize` | js/cutting.js:220-241 | Ignored after the run. During a run, the area is re-measured (height max(area, 100), lineMax 4 less). The band becomes ClipBand(old band, height): top min(old top, height), bottom min(old bottom, height), never taller than before and unchanged when it fits. The line becomes min(old line, lineMax). |
| `CuttingEarly.CuttingGame.constructor` | js/game.js:204-208 | Loads the stored best, then starts a run as InitGame does. |
| `CuttingEarly.CuttingGame.SaveBestScore` | js/game.js:39-48 | The best score becomes NewBest(old best, cut count). |
| `CuttingEarly.CuttingGame.InitGame` | js/game.js:51-77 | Resets level 1, cuts 0, speed 1.5, direction 1, line 0 and band [0, area height], then runs the first frame. |
| `CuttingEarly.CuttingGame.Step` | js/game.js:170-185 | Nothing moves while the run is over or a cut is locked; otherwise one LineStep bounded by the area height. The line and band stay inside the area. |
| `CuttingEarly.CuttingGame.EndGame` | js/game.js:188-199 | The run is over. |
| `CuttingEarly.CuttingGame.ExecuteCut` | js/game.js:119-135 | The band becomes Split(old band, cut). Cuts and level each rise by exactly 1 and the speed by exactly 0.8. The cut joins the log of accepted cuts, and the band stays Run(whole area, log) with the score equal to the log's length. |
| `CuttingEarly.CuttingGame.PressCut` | js/game.js:98-116 | Ignored when the run is over or a cut is locked. Off the band, the run ends with the band and the log of accepted cuts untouched and the best score saved. On the band, edges included, the cut is executed and logged. |
| `CuttingEarly.CuttingGame.Resume` | js/game.js:141-145 | The lock is released and the loop runs its next frame. |
| `CuttingEarly.BandHalvesPerPoint` | js/game.js:119-135 | In any reachable state, after k points the band's height is at most the area's height divided by 2^k. |
| `Scores.NewBestTime` | js/juggling.js:57-63 | The best time never decreases. It changes only to a strictly longer run. |
| `Juggling.NewItem` | js/juggling.js:151-158 | A new square starts at the top (y 0), falling at the current item speed, with the drawn offset, size and horizontal speed. A valid draw gives a size in [20, 40) and a horizontal speed in [-2, 2). |
| `Juggling.HitsSideWall` | js/juggling.js:213 | The wall test: the square's left edge is at or left of 0, or its right edge is at or right of the area's width. |
| `Juggling.OverlapsPaddle` | js/juggling.js:232-237 | The paddle test: the closed rectangles of the square and of the paddle (from 30 to 10 above the bottom, 120 wide) overlap. |
| `Juggling.ReachesFloor` | js/juggling.js:266 | The floor test: the square's bottom edge is at or below the area's height. |
| `Juggling.AnyReachesFloor` | js/juggling.js:265-270 | Some square in play passes the floor test. |
| `Juggling.BounceSideWalls` | js/juggling.js:212-216 | The horizontal speed is negated exactly when the square is at or past a side wall. A square no wider than the area ends at clamp(x, 0, width - size): against the wall it hit, or where it was. |
| `Juggling.BounceCeiling` | js/juggling.js:218-222 | The vertical speed is negated exactly when y <= 0. The square ends at y = max(y, 0). |
| `Juggling.BouncePaddle` | js/juggling.js:224-247 | Without an overlap of the closed rectangles nothing changes. With an overlap: speedY = -itemSpeed, the square sits on the paddle's top, and speedX * 60 = 5 * (square centre - paddle centre). |
| `Juggling.MoveItem` | js/juggling.js:207-258 | One frame of a square keeps its size. A square no wider than the area ends at x = clamp(x + speedX, 0, width - size). |
| `Juggling.MoveAll` | js/juggling.js:197-207 | One frame moves every square, and the number of squares is unchanged. |
| `Juggling.MoveItemFreeFlight` | js/juggling.js:208-222 | A square that misses the paddle has speedX reversed exactly at a wall and speedY reversed exactly at the ceiling. It ends at x = clamp(x + speedX, 0, width - size) and y = max(y + speedY, 0). |
| `Juggling.MoveItemPaddleHit` | js/juggling.js:232-247 | A square that meets the paddle leaves upwards at the current speed, rests on the paddle and is off the floor. Its x is clamp(x + speedX, 0, width - size). Its horizontal speed is bounded by 5 + size/24, positive right of the paddle's centre and negative left of it. |
| `Juggling.KeyedPaddle` | js/juggling.js:116-125 | With no key held the paddle stays. Left alone moves it 15 to the left, or to 0 when fewer than 15 remain. Right alone moves it 15 to the right, or to width - 120 when that is nearer. Both keys together cancel out when the paddle has room on both sides; left is applied first, so with fewer than 15 to its left the paddle ends at min(width - 120, 15), and past width - 120 it ends at width - 120. Left alone never takes it below 0, and right never takes it past width - 120. |
| `Juggling.KeyedPaddleStaysInside` | js/juggling.js:110-125 | A paddle inside [0, width - 120] stays inside and moves at most 15 per frame. It moves only in the direction of the key held. |
| `Juggling.PaddleAt` | js/juggling.js:330-337 | The pointer puts the paddle at clamp(pointer - 60, 0, width - 120). It is centred under the pointer when that fits. It is at 0 for a pointer too far left, and at width - 120 for a pointer too far right. In an area narrower than the paddle it is at 0. |
| `Juggling.JugglingGame.constructor` | js/juggling.js:409-421 | No run yet; the record starts as declared at js/juggling.js:2-16. The stored best time is loaded, the clock and last-add time are 0, the speed is 2 and the count is 1. No keys are held, the pointer is not over the area and the paddle is centred. |
| `Juggling.JugglingGame.Held` | js/juggling.js:117 | A key is held when it was recorded as pressed and not since released; a key never pressed is not held. |
| `Juggling.JugglingGame.LeftHeld` | js/juggling.js:117 | The left test: ArrowLeft or KeyA is held. |
| `Juggling.JugglingGame.RightHeld` | js/juggling.js:120 | The right test: ArrowRight or KeyD is held. |
| `Juggling.JugglingGame.SaveBestTime` | js/juggling.js:57-63 | The best time becomes NewBestTime(old best, run time). |
| `Juggling.JugglingGame.EndGame` | js/juggling.js:274-286 | Saves the best time and ends the run. |
| `Juggling.JugglingGame.InitGame` | js/juggling.js:66-102 | Clock 0, one square created at speed 2, count 1, keys cleared, mouse not over the area, paddle centred; best time kept. |
| `Juggling.JugglingGame.MovePaddle` | js/juggling.js:110-128 | Nothing when the run is over. Otherwise the paddle takes KeyedPaddle for the keys held. |
| `Juggling.JugglingGame.MoveItems` | js/juggling.js:197-259 | Every square, in place, becomes MoveItem of itself. |
| `Juggling.JugglingGame.CheckGameOver` | js/juggling.js:262-271 | The run ends, with the best time saved, iff some square's bottom is at or below the floor. Otherwise nothing changes. |
| `Juggling.JugglingGame.Frame` | js/juggling.js:165-194 | Inactive: nothing changes. Active: the clock advances. If more than 5 s have passed since the last new square, exactly one square is appended, the count rises by 1 and the last-add time is now. The speed becomes 2 + 0.05 * time. Then come the paddle, the squares and the floor check, and the count equals the number of squares. |
| `Juggling.JugglingGame.ClickItem` | js/juggling.js:289-307 | During a run, the tapped square's vertical speed becomes -1.2 * itemSpeed. Any other tap, or a tap after the run, changes nothing. The number of squares, and with it the invariant, is kept. |
| `Juggling.JugglingGame.JumpAllItems` | js/juggling.js:310-321 | During a run, every square's vertical speed becomes -1.2 * itemSpeed. After the run nothing changes. The number of squares, and with it the invariant, is kept. |
| `Juggling.JugglingGame.KeyDown` | js/juggling.js:373-380 | The key is recorded as held, and Space also throws every square up. The invariant is kept. |
| `Juggling.JugglingGame.KeyUp` | js/juggling.js:382-384 | The key is recorded as released. |
| `Juggling.JugglingGame.MouseEnter` | js/juggling.js:387-389 | The pointer is over the area. |
| `Juggling.JugglingGame.MouseLeave` | js/juggling.js:391-393 | The pointer is not over the area. |
| `Juggling.JugglingGame.MouseMove` | js/juggling.js:324-340 | Only during a run and while the pointer is over the area: the paddle goes to PaddleAt(pointer). |
| `Juggling.JugglingGame.TouchMove` | js/juggling.js:343-359 | During a run: the paddle goes to PaddleAt(touch). |
| `Mashing.ProgressPercent` | js/mashing.js:74 | The bar is within [0, 100] while 0 <= timeLeft <= 10. It is 100 at the start, 0 at the end, and below 100 after a tick. |
| `Mashing.CountAccepted` | js/mashing.js:87-92 | The taps counted are at most the taps received. All are counted iff every tap came during a run, and none iff no tap did. |
| `Mashing.MashingGame.constructor` | js/mashing.js:144-148 | Loads the stored best; no run yet, score 0, 10 s on the clock. |
| `Mashing.MashingGame.SaveBestScore` | js/mashing.js:35-41 | The best score becomes NewBest(old best, score). |
| `Mashing.MashingGame.InitGame` | js/mashing.js:44-62 | Active, score 0, timeLeft 10, best kept. |
| `Mashing.MashingGame.HandleSmash` | js/mashing.js:87-104 | The score rises by exactly 1 during a run and is unchanged otherwise. The score always equals the number of taps received while active since the start. |
| `Mashing.MashingGame.EndGame` | js/mashing.js:107-122 | The run is over and the best score is saved. |
| `Mashing.MashingGame.Tick` | js/mashing.js:70-83 | timeLeft drops by exactly 1 and the progress shown is ProgressPercent(timeLeft). The run ends, with the best score saved, exactly when no time is left. The score is unchanged. |
| `Shell.Includes` | js/main.js:50 | True exactly when the text occurs somewhere in the string. |
| `Shell.BasePath` | js/main.js:48-54 | The result is "../" iff the path contains "/games/", and "./" otherwise. |
| `Shell.AssetUrls` | js/main.js:176-224 | Nothing for an id missing from the games table. Otherwise the base path joined with the game's markup, stylesheet and script paths. |
| `Shell.PlaysOf` | js/main.js:254 | The plays of an entry, with a missing count read as 0 (also at js/main.js:282). |
| `Shell.BestOf` | js/main.js:265 | The best score of an entry, with a missing score read as 0. |
| `Shell.IndexOf` | js/main.js:278 | Finds a record with the id when there is one, and reports none only when no record has it. |
| `Shell.Lookup` | js/main.js:278 | An entry is found iff some record has the id, and what is found is that record's entry. With distinct ids, it is the entry of the one record holding the id. |
| `Shell.TotalPlays` | js/main.js:253-256 | When no entry has a negative play count, the total is at least 0 and at least every entry's plays. |
| `Shell.Bumped` | js/main.js:277-282 | The records keep their ids and their order. Records of other ids are unchanged. A missing id is appended once, as {plays 1, best 0}; an existing id adds no record. |
| `Shell.TotalBestScore` | js/main.js:264-267 | The overall best is at least 0 and at least every entry's best, and it is 0 or one entry's best. |
| `Shell.TotalPlaysReplace` | js/main.js:253-256 | Replacing one entry changes the total plays by the difference of the two entries' plays. |
| `Shell.TotalBestScoreSameBests` | js/main.js:264-267 | Records with the same bests, entry by entry, have the same overall best. |
| `Shell.BumpedSpec` | js/main.js:275-283 | One more play creates the entry {plays 0, best 0} when missing and raises its plays by exactly 1. Its best is kept, other entries are unchanged and ids stay distinct. Total plays rise by exactly 1 and the overall best is unchanged. |
| `Shell.IndexOfUnique` | js/main.js:278 | With distinct ids, the record holding an id is the one found. |
| `Shell.IndexOfAppend` | js/main.js:279 | Adding a record changes the lookup only for its own id. |
| `Shell.IndexOfReplace` | js/main.js:282 | Updating one record leaves the lookup of every other id unchanged. |
| `Shell.Truthy` | js/main.js:121 | The truthiness test the shell applies to an optional id (also at js/main.js:289 and 319): false for a missing id and for the empty string. |
| `Shell.GameManager.constructor` | js/main.js:3-45 | Welcome screen, base path from the page path, stored statistics, then the URL's game if the table knows it. |
| `Shell.GameManager.LoadStats` | js/main.js:248-273 | The totals shown are the sum of all plays (a missing count is 0) and the overall best score. |
| `Shell.GameManager.UpdateStats` | js/main.js:275-286 | The statistics become one more play of the id, with the consequences BumpedSpec proves. |
| `Shell.GameManager.SelectGame` | js/main.js:126-173 | The current game becomes the id. The play is counted unless the header-title lookup fails for an id missing from the table. |
| `Shell.GameManager.CheckUrlParams` | js/main.js:118-124 | Selects the URL's game only when it is non-empty and a key of the games table; otherwise nothing changes. |
| `Shell.GameManager.ShowWelcomeScreen` | js/main.js:288-301 | The current game is cleared when it is set, and afterwards no game is current. |
| `Shell.GameManager.HandlePopState` | js/main.js:318-324 | A history entry naming a game selects it; any other entry shows the welcome screen. |

## Left out

- Drawing is not modelled: styles, text, classes, the cut and hit effects, and element creation and removal only render the state.
- Timer scheduling is not modelled: the animation-frame, timeout and interval calls become the event methods `Step`, `Resume`, `Frame` and `Tick`, and the host decides when they run.
- `Cutting.CuttingGame.InitGame` starts every run with the area measured. On every start and restart, js/cutting.js:74-90 defers the measurement by about 100 ms and runs the loop at once. During that time the band is stale: top 0, and the height of the previous run, or 0 on the first load. Frames and presses in that window are not captured, so neither is a press that misses the stale band, such as the one that ends a first-load run with the line at 1.5.
- `Juggling.JugglingGame.InitGame` does not run the first frame that the page's `initGame` starts at once. That frame is the host's first `Frame` event, because it needs the clock and the area size.
- Random draws and the clock are not modelled: a new square's size, offset and speed arrive as a `Spawn`, and the elapsed seconds are a `Frame` parameter.
- Local storage is not modelled: the stored best scores and the statistics record are fields, and reading them back (`parseInt`, `parseFloat`, `JSON.parse`) is not modelled. The `||` defaults of the statistics are modelled for missing counts only, not for other falsy JSON values.
- Floating point is not modelled: positions and speeds are exact reals, with no double rounding and no `toFixed` display formatting.
- The shell's fetch of a game's files, the CSS and script injection, the error screen, the history pushes, the URL-parameter parsing and the sidebar are browser plumbing and are not modelled. `Shell.AssetUrls` models only which files are fetched.
- Vibration and the wiring of DOM events to handlers are not modelled. Keys, pointer positions and the tapped square's index arrive as event parameters.
- `Shell.GameManager.SelectGame` models a failed table lookup as a `failed` result, not as a thrown exception that unwinds the caller.
- `Shell.GameManager.CheckUrlParams`, `Shell.GameManager.SelectGame`, `Shell.GameManager.UpdateStats` and `Shell.AssetUrls` treat the games table and the statistics as holding their own keys only. In the page, these lookups also find the members every object inherits, such as `constructor`, `toString` and `__proto__`. A URL or history entry naming one of those ids (js/main.js:121, 166, 177, 278) is not modelled. In the page such an id is selected and shown, and its play is not stored.
- `Mashing.MashingGame.Tick` requires an active run, because the interval that calls it exists exactly between the start and the end of a run.
