/**
 * The game shell of js/main.js (the GameManager class): it keeps a table
 * of the games it can load, resolves the base path of their files from the
 * page's location, remembers which game is shown, follows the browser's
 * back/forward history, and keeps per-game play statistics in local storage.
 *
 * What the shell reads from the browser becomes a parameter: the page's
 * path, the `game` URL parameter, the state a history entry carries, and
 * whether the page has a header title. The statistics record in storage is
 * a field. Fetching and injecting the game's files is not modelled; only the
 * choice of what to fetch is.
 */
module Shell {
  import opened Numbers

  datatype Option<T> = None | Some(value: T)

  /** A loadable game: its title and the paths of its markup, stylesheet and script. */
  datatype GameInfo = GameInfo(name: string, file: string, css: string, js: string)

  /** The games the shell knows, by id. */
  const Games: map<string, GameInfo> := map[
    "cutting" := GameInfo("네모칸 자르기", "games/cutting.html", "css/cutting.css", "js/cutting.js"),
    "memory" := GameInfo("컬러 메모리", "games/memory.html", "css/memory.css", "js/memory.js"),
    "balance" := GameInfo("에너지 밸런스", "games/balance.html", "css/balance.css", "js/balance.js"),
    "rhythm" := GameInfo("리듬 탭", "games/rhythm.html", "css/rhythm.css", "js/rhythm.js"),
    "puzzle" := GameInfo("숫자 퍼즐", "games/puzzle.html", "css/puzzle.css", "js/puzzle.js")
  ]

  /** Where a game's page lives: under this directory the shell's files are one level up. */
  const GamesDir: string := "/games/"

  /** `sub` occurs in `s` starting at position i. */
  predicate OccursAt(s: string, sub: string, i: int)
  {
    0 <= i && i + |sub| <= |s| && s[i..i + |sub|] == sub
  }

  /** Whether `sub` occurs anywhere in `s`, searching from the left. */
  function Includes(s: string, sub: string): (r: bool)
    ensures r <==> exists i :: OccursAt(s, sub, i)
    decreases |s|
  {
    if |s| < |sub| then false
    else if s[..|sub|] == sub then
      assert OccursAt(s, sub, 0);
      true
    else
      var r := Includes(s[1..], sub);
      assert forall i :: OccursAt(s[1..], sub, i) <==> OccursAt(s, sub, i + 1) by {
        forall i ensures OccursAt(s[1..], sub, i) <==> OccursAt(s, sub, i + 1) {
          if 0 <= i && i + |sub| <= |s| - 1 {
            assert s[1..][i..i + |sub|] == s[i + 1..i + 1 + |sub|];
          }
        }
      }
      assert !OccursAt(s, sub, 0);
      assert (exists i :: OccursAt(s, sub, i)) ==> exists i :: OccursAt(s[1..], sub, i) by {
        if exists i :: OccursAt(s, sub, i) {
          var i :| OccursAt(s, sub, i);
          assert OccursAt(s[1..], sub, i - 1);
        }
      }
      r
  }

  /** The prefix for the shell's own files: one level up from a page under /games/, here otherwise. */
  function BasePath(pathname: string): (r: string)
    ensures r == "../" <==> exists i :: OccursAt(pathname, GamesDir, i)
    ensures r == "./" <==> !exists i :: OccursAt(pathname, GamesDir, i)
  {
    if Includes(pathname, GamesDir) then "../" else "./"
  }

  /** The three files the shell fetches for a game, or nothing for an id it does not know. */
  datatype Assets = Assets(html: string, css: string, js: string)

  function AssetUrls(basePath: string, id: string): (r: Option<Assets>)
    ensures r.None? <==> id !in Games
    ensures r.Some? ==>
      && r.value.html == basePath + Games[id].file
      && r.value.css == basePath + Games[id].css
      && r.value.js == basePath + Games[id].js
  {
    if id in Games then
      var game := Games[id];
      Some(Assets(basePath + game.file, basePath + game.css, basePath + game.js))
    else None
  }

  /** A stored statistics entry; either count may be missing from what storage holds. */
  datatype Entry = Entry(plays: Option<int>, bestScore: Option<int>)

  /** The statistics record is a JSON object: entries keyed by game id, in insertion order. */
  datatype Record = Record(id: string, entry: Entry)

  /** A missing count reads as 0. */
  function PlaysOf(e: Entry): int { if e.plays.Some? then e.plays.value else 0 }
  function BestOf(e: Entry): int { if e.bestScore.Some? then e.bestScore.value else 0 }


  /** Keys of an object are distinct. */
  ghost predicate UniqueIds(stats: seq<Record>)
  {
    forall i, j :: 0 <= i < j < |stats| ==> stats[i].id != stats[j].id
  }

  /** Where the entry for `id` is, if there is one. */
  function IndexOf(stats: seq<Record>, id: string): (r: Option<nat>)
    ensures r.Some? ==> r.value < |stats| && stats[r.value].id == id
    ensures r.None? ==> forall i :: 0 <= i < |stats| ==> stats[i].id != id
  {
    if stats == [] then None
    else if stats[|stats| - 1].id == id then Some(|stats| - 1)
    else IndexOf(stats[..|stats| - 1], id)
  }

  /** The entry stored for `id`, if any. */
  function Lookup(stats: seq<Record>, id: string): (r: Option<Entry>)
    ensures r.Some? <==> exists i :: 0 <= i < |stats| && stats[i].id == id
    ensures r.Some? ==> exists i :: 0 <= i < |stats| && stats[i] == Record(id, r.value)
    ensures UniqueIds(stats) ==> forall i :: 0 <= i < |stats| && stats[i].id == id ==> r == Some(stats[i].entry)
  {
    match IndexOf(stats, id)
    case None => None
    case Some(i) => Some(stats[i].entry)
  }

  /** Total plays: the sum of every entry's plays, a left fold over the entries. */
  function TotalPlays(stats: seq<Record>): (r: int)
    ensures (forall i :: 0 <= i < |stats| ==> PlaysOf(stats[i].entry) >= 0) ==>
      && 0 <= r
      && forall i :: 0 <= i < |stats| ==> PlaysOf(stats[i].entry) <= r
    decreases |stats|
  {
    if stats == [] then 0 else TotalPlays(stats[..|stats| - 1]) + PlaysOf(stats[|stats| - 1].entry)
  }

  /** The overall best score: the largest entry's best, and 0 when there is none larger. */
  function TotalBestScore(stats: seq<Record>): (r: int)
    ensures r >= 0
    ensures forall i :: 0 <= i < |stats| ==> BestOf(stats[i].entry) <= r
    ensures r == 0 || exists i :: 0 <= i < |stats| && r == BestOf(stats[i].entry)
  {
    if stats == [] then 0 else MaxInt(TotalBestScore(stats[..|stats| - 1]), BestOf(stats[|stats| - 1].entry))
  }

  /**
   * The statistics after one more play of `id`: an entry with no plays and
   * no best score is created if there is none, then its plays go up by one.
   */
  function Bumped(stats: seq<Record>, id: string): (r: seq<Record>)
    ensures |r| == if Lookup(stats, id).None? then |stats| + 1 else |stats|
    ensures forall i :: 0 <= i < |stats| ==> r[i].id == stats[i].id
    ensures forall i :: 0 <= i < |stats| && stats[i].id != id ==> r[i] == stats[i]
    ensures Lookup(stats, id).None? ==> r[|stats|] == Record(id, Entry(Some(1), Some(0)))
  {
    match IndexOf(stats, id)
    case None => stats + [Record(id, Entry(Some(1), Some(0)))]
    case Some(i) =>
      var e := stats[i].entry;
      stats[i := Record(id, e.(plays := Some(PlaysOf(e) + 1)))]
  }

  /** Replacing one entry changes the total by the difference of the two entries' plays. */
  lemma {:induction false} TotalPlaysReplace(stats: seq<Record>, i: nat, r: Record)
    requires i < |stats|
    ensures TotalPlays(stats[i := r]) == TotalPlays(stats) - PlaysOf(stats[i].entry) + PlaysOf(r.entry)
    decreases |stats|
  {
    var n := |stats| - 1;
    var s' := stats[i := r];
    if i == n {
      assert s'[..n] == stats[..n];
    } else {
      assert s'[..n] == stats[..n][i := r];
      TotalPlaysReplace(stats[..n], i, r);
    }
  }

  /** Two statistics records whose entries have the same best scores, position by position, have the same overall best. */
  lemma {:induction false} TotalBestScoreSameBests(s: seq<Record>, t: seq<Record>)
    requires |s| == |t|
    requires forall i :: 0 <= i < |s| ==> BestOf(s[i].entry) == BestOf(t[i].entry)
    ensures TotalBestScore(s) == TotalBestScore(t)
    decreases |s|
  {
    if s != [] {
      TotalBestScoreSameBests(s[..|s| - 1], t[..|t| - 1]);
    }
  }

  /**
   * One more play of `id`: its entry exists afterwards with one more play
   * and the same best score (0 for a new entry), every other game's entry is
   * unchanged, ids stay distinct, the total plays go up by exactly one, and
   * the overall best score does not change.
   */
  lemma {:induction false} BumpedSpec(stats: seq<Record>, id: string)
    requires UniqueIds(stats)
    ensures var s := Bumped(stats, id);
      && UniqueIds(s)
      && Lookup(s, id).Some?
      && PlaysOf(Lookup(s, id).value) == (if Lookup(stats, id).Some? then PlaysOf(Lookup(stats, id).value) else 0) + 1
      && BestOf(Lookup(s, id).value) == (if Lookup(stats, id).Some? then BestOf(Lookup(stats, id).value) else 0)
      && (forall other :: other != id ==> Lookup(s, other) == Lookup(stats, other))
      && TotalPlays(s) == TotalPlays(stats) + 1
      && TotalBestScore(s) == TotalBestScore(stats)
  {
    var s := Bumped(stats, id);
    match IndexOf(stats, id)
    case None =>
      assert s[..|stats|] == stats;
      IndexOfAppend(stats, id, Record(id, Entry(Some(1), Some(0))));
      forall other | other != id ensures Lookup(s, other) == Lookup(stats, other) {
        IndexOfAppend(stats, other, Record(id, Entry(Some(1), Some(0))));
      }
    case Some(i) =>
      var e := stats[i].entry;
      var r := Record(id, e.(plays := Some(PlaysOf(e) + 1)));
      assert s == stats[i := r];
      IndexOfUnique(stats, id, i);
      IndexOfUnique(s, id, i);
      forall other | other != id ensures Lookup(s, other) == Lookup(stats, other) {
        IndexOfReplace(stats, other, i, r);
      }
      TotalPlaysReplace(stats, i, r);
      TotalBestScoreSameBests(s, stats);
  }

  /** With distinct ids, the only index holding `id` is the one IndexOf finds. */
  lemma IndexOfUnique(stats: seq<Record>, id: string, i: nat)
    requires UniqueIds(stats) && i < |stats| && stats[i].id == id
    ensures IndexOf(stats, id) == Some(i)
  {
    var r := IndexOf(stats, id);
    assert r.Some?;
  }

  /** Appending a record changes the lookup only for the appended record's id. */
  lemma IndexOfAppend(stats: seq<Record>, id: string, r: Record)
    ensures IndexOf(stats + [r], id) == if r.id == id then Some(|stats|) else IndexOf(stats, id)
  {
    assert (stats + [r])[..|stats|] == stats;
  }

  /** Replacing a record by one with the same id leaves the lookup of every other id unchanged. */
  lemma {:induction false} IndexOfReplace(stats: seq<Record>, other: string, i: nat, r: Record)
    requires i < |stats| && r.id == stats[i].id && other != r.id
    ensures IndexOf(stats[i := r], other) == IndexOf(stats, other)
    decreases |stats|
  {
    var n := |stats| - 1;
    if i < n {
      assert stats[i := r][..n] == stats[..n][i := r];
      IndexOfReplace(stats[..n], other, i, r);
    } else {
      assert stats[i := r][..n] == stats[..n];
    }
  }

  /** Truthiness of an optional id in the page's script: null and the empty string are both false. */
  predicate Truthy(game: Option<string>)
  {
    game.Some? && game.value != ""
  }

  class GameManager {
    /** The id of the game on screen, or none for the welcome screen. */
    var currentGame: Option<string>
    var basePath: string
    /** The statistics record held in local storage. */
    var stats: seq<Record>

    ghost predicate Valid()
      reads this
    {
      UniqueIds(stats)
    }

    /**
     * Start-up: the welcome screen, the base path from the page's path, the
     * stored statistics, then the game named in the URL if the shell knows it.
     */
    constructor (pathname: string, storedStats: seq<Record>, gameParam: Option<string>)
      requires UniqueIds(storedStats)
      ensures Valid()
      ensures basePath == BasePath(pathname)
      ensures Truthy(gameParam) && gameParam.value in Games ==>
        currentGame == gameParam && stats == Bumped(storedStats, gameParam.value)
      ensures !(Truthy(gameParam) && gameParam.value in Games) ==> currentGame == None && stats == storedStats
    {
      currentGame := None;
      basePath := BasePath(pathname);
      stats := storedStats;
      new;
      CheckUrlParams(gameParam);
    }

    /** The totals shown on the welcome screen: all plays, and the best score of any game (at least 0). */
    method LoadStats() returns (totalPlays: int, totalBestScore: int)
      ensures totalPlays == TotalPlays(stats)
      ensures totalBestScore == TotalBestScore(stats)
    {
      totalPlays := TotalPlays(stats);
      totalBestScore := TotalBestScore(stats);
    }

    /** Counts one more play of `id` in the stored statistics. */
    method UpdateStats(id: string)
      requires Valid()
      modifies this`stats
      ensures Valid()
      ensures stats == Bumped(old(stats), id)
      ensures Lookup(stats, id).Some?
      ensures forall other :: other != id ==> Lookup(stats, other) == Lookup(old(stats), other)
      ensures TotalPlays(stats) == TotalPlays(old(stats)) + 1
      ensures TotalBestScore(stats) == TotalBestScore(old(stats))
    {
      ghost var before := stats;
      var index := IndexOf(stats, id);
      if index.None? {
        stats := stats + [Record(id, Entry(Some(0), Some(0)))];
        index := Some(|stats| - 1);
      }
      var e := stats[index.value].entry;
      stats := stats[index.value := Record(id, e.(plays := Some(PlaysOf(e) + 1)))];
      assert stats == Bumped(before, id) by {
        if IndexOf(before, id).None? {
          assert stats == before + [Record(id, Entry(Some(1), Some(0)))];
        }
      }
      BumpedSpec(before, id);
    }

    /**
     * Shows game `id` and counts a play of it. The header title is set from
     * the games table; for an id not in the table that lookup fails when the
     * page has a header title, and the play is then not counted (`failed`).
     */
    method SelectGame(id: string, hasHeader: bool) returns (failed: bool)
      requires Valid()
      modifies this`currentGame, this`stats
      ensures Valid()
      ensures currentGame == Some(id)
      ensures failed == (hasHeader && id !in Games)
      ensures stats == if failed then old(stats) else Bumped(old(stats), id)
    {
      currentGame := Some(id);
      if hasHeader && id !in Games {
        return true;
      }
      UpdateStats(id);
      failed := false;
    }

    /** Selects the game named in the URL, but only one the shell knows. */
    method CheckUrlParams(gameParam: Option<string>)
      requires Valid()
      modifies this`currentGame, this`stats
      ensures Valid()
      ensures Truthy(gameParam) && gameParam.value in Games ==>
        currentGame == gameParam && stats == Bumped(old(stats), gameParam.value)
      ensures !(Truthy(gameParam) && gameParam.value in Games) ==>
        currentGame == old(currentGame) && stats == old(stats)
    {
      if Truthy(gameParam) && gameParam.value in Games {
        var _ := SelectGame(gameParam.value, true);
      }
    }

    /** Back to the welcome screen: the current game is cleared, unless there is none (or it is the empty id). */
    method ShowWelcomeScreen()
      modifies this`currentGame
      ensures currentGame == if Truthy(old(currentGame)) then None else old(currentGame)
      ensures !Truthy(currentGame)
    {
      if Truthy(currentGame) {
        currentGame := None;
      }
    }

    /**
     * Back/forward in the history: an entry that names a game selects it,
     * any other entry shows the welcome screen.
     */
    method HandlePopState(stateGame: Option<string>, hasHeader: bool) returns (failed: bool)
      requires Valid()
      modifies this`currentGame, this`stats
      ensures Valid()
      ensures Truthy(stateGame) ==>
        && currentGame == stateGame
        && failed == (hasHeader && stateGame.value !in Games)
        && stats == if failed then old(stats) else Bumped(old(stats), stateGame.value)
      ensures !Truthy(stateGame) ==> !failed && !Truthy(currentGame) && stats == old(stats)
    {
      if Truthy(stateGame) {
        failed := SelectGame(stateGame.value, hasHeader);
      } else {
        ShowWelcomeScreen();
        failed := false;
      }
    }
  }
}
