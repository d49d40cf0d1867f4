/**
  Score persistence (src/utils/scoreManager.js). The session is the storage key
  `currentPlayerId`; the remote `players` and `final_leaderboard` tables are an
  in-memory map and list. Every remote call may fail: the methods take the
  failure as a boolean parameter, or as the error code where the code decides
  what happens next (`getCurrentPlayer`).
 */
module ScoreManager {
  import opened Wrappers

  /** The error code the remote database gives when `.single()` finds no row. */
  const PlayerNotFoundCode: string := "PGRST116"

  /** A `players` row; a score column may be null. */
  datatype Player = Player(
    name: string, grade: string, age: int,
    game1Score: Option<real>, game2Score: Option<real>, game3Score: Option<real>)

  datatype LeaderboardEntry = LeaderboardEntry(name: string, totalScore: real)

  /** `hasActiveSession`: a stored id that is not the empty string (`!!playerId`). */
  predicate HasActiveSession(currentPlayerId: Option<string>): (active: bool)
    ensures currentPlayerId.None? ==> !active
    ensures currentPlayerId == Some("") ==> !active
    ensures currentPlayerId.Some? && |currentPlayerId.value| > 0 ==> active
  {
    currentPlayerId.Some? && currentPlayerId.value != ""
  }

  predicate ValidGameNumber(gameNumber: int) {
    gameNumber == 1 || gameNumber == 2 || gameNumber == 3
  }

  /** The row `createPlayer` inserts: every score starts at 0. */
  function NewPlayer(name: string, grade: string, age: int): (p: Player)
    ensures forall g :: ValidGameNumber(g) ==> StoredScore(p, g) == 0.0
    ensures TotalScore(p) == 0.0
  {
    Player(name, grade, age, Some(0.0), Some(0.0), Some(0.0))
  }

  function ScoreColumn(p: Player, gameNumber: int): Option<real>
    requires ValidGameNumber(gameNumber)
  {
    if gameNumber == 1 then p.game1Score
    else if gameNumber == 2 then p.game2Score
    else p.game3Score
  }

  /** `row[scoreColumn] || 0`: a missing score counts as 0. */
  function StoredScore(p: Player, gameNumber: int): real
    requires ValidGameNumber(gameNumber)
  {
    ScoreColumn(p, gameNumber).GetOr(0.0)
  }

  /** The row after writing `score` to one game's column. */
  function WithScore(p: Player, gameNumber: int, score: real): (q: Player)
    requires ValidGameNumber(gameNumber)
    ensures StoredScore(q, gameNumber) == score
    ensures forall h :: ValidGameNumber(h) && h != gameNumber ==> ScoreColumn(q, h) == ScoreColumn(p, h)
    ensures q.name == p.name && q.grade == p.grade && q.age == p.age
  {
    if gameNumber == 1 then p.(game1Score := Some(score))
    else if gameNumber == 2 then p.(game2Score := Some(score))
    else p.(game3Score := Some(score))
  }

  function Max(a: real, b: real): real {
    if a >= b then a else b
  }

  /**
    The row after a successful `updateScore`: written only for a strictly higher
    score, so the stored value becomes the best of the two.
   */
  function ApplyScore(p: Player, gameNumber: int, score: real): (q: Player)
    requires ValidGameNumber(gameNumber)
    ensures StoredScore(q, gameNumber) == Max(StoredScore(p, gameNumber), score)
    ensures score <= StoredScore(p, gameNumber) ==> q == p
    ensures forall h :: ValidGameNumber(h) && h != gameNumber ==> ScoreColumn(q, h) == ScoreColumn(p, h)
  {
    if score > StoredScore(p, gameNumber) then WithScore(p, gameNumber, score) else p
  }

  /** The leaderboard total: the three scores, each missing one as 0. */
  function TotalScore(p: Player): (total: real)
    ensures total == StoredScore(p, 1) + StoredScore(p, 2) + StoredScore(p, 3)
  {
    p.game1Score.GetOr(0.0) + p.game2Score.GetOr(0.0) + p.game3Score.GetOr(0.0)
  }

  datatype FetchResult = Found(row: Player) | Failed(code: string)

  /** `.from('players').select(...).eq('id', id).single()`. */
  function FetchRow(players: map<string, Player>, id: string, requestError: Option<string>): (r: FetchResult)
    ensures r.Found? <==> requestError.None? && id in players
    ensures r.Found? ==> r.row == players[id]
    ensures requestError.None? && id !in players ==> r == Failed(PlayerNotFoundCode)
  {
    if requestError.Some? then Failed(requestError.value)
    else if id in players then Found(players[id])
    else Failed(PlayerNotFoundCode)
  }

  class ScoreStore {
    /** The storage key `currentPlayerId`. */
    var currentPlayerId: Option<string>
    var players: map<string, Player>
    var leaderboard: seq<LeaderboardEntry>

    constructor (session: Option<string>, rows: map<string, Player>, entries: seq<LeaderboardEntry>)
      ensures currentPlayerId == session && players == rows && leaderboard == entries
    {
      currentPlayerId := session;
      players := rows;
      leaderboard := entries;
    }

    /**
      `getCurrentPlayer`: the session's row. A failed lookup whose error code is
      PGRST116 (no such row) ends the session; any other failure leaves it alone.
      `requestError` is the code of a failure other than a missing row.
     */
    method GetCurrentPlayer(requestError: Option<string>) returns (player: Option<Player>)
      modifies this`currentPlayerId
      ensures !HasActiveSession(old(currentPlayerId)) ==> player == None && currentPlayerId == old(currentPlayerId)
      ensures HasActiveSession(old(currentPlayerId)) ==>
                match FetchRow(players, old(currentPlayerId).value, requestError)
                case Found(row) => player == Some(row) && currentPlayerId == old(currentPlayerId)
                case Failed(code) =>
                  && player == None
                  && currentPlayerId == (if code == PlayerNotFoundCode then None else old(currentPlayerId))
    {
      if !HasActiveSession(currentPlayerId) {
        return None;
      }
      var playerId := currentPlayerId.value;
      match FetchRow(players, playerId, requestError)
      case Failed(code) =>
        if code == PlayerNotFoundCode {
          currentPlayerId := None;
        }
        return None;
      case Found(row) =>
        return Some(row);
    }

    /**
      `createPlayer`: inserts a row with all scores 0 under the id the database
      hands out and makes it the session. An insert error (including an id
      already taken) changes nothing and returns no id.
     */
    method CreatePlayer(name: string, grade: string, age: int, newId: string, insertFails: bool)
      returns (id: Option<string>)
      modifies this`players, this`currentPlayerId
      ensures id.Some? <==> !insertFails && newId !in old(players)
      ensures id.Some? ==> id.value == newId && currentPlayerId == Some(newId)
                           && players == old(players)[newId := NewPlayer(name, grade, age)]
      ensures id.None? ==> players == old(players) && currentPlayerId == old(currentPlayerId)
    {
      if insertFails || newId in players {
        return None;
      }
      players := players[newId := NewPlayer(name, grade, age)];
      currentPlayerId := Some(newId);
      id := Some(newId);
    }

    /**
      `updateScore`: false without a session or with a game number outside 1..3;
      otherwise the score is written exactly when it beats the stored one, and
      the result says whether it was written.
     */
    method UpdateScore(gameNumber: int, score: real, fetchFails: bool, updateFails: bool)
      returns (updated: bool)
      modifies this`players
      ensures updated <==>
                && HasActiveSession(currentPlayerId) && ValidGameNumber(gameNumber)
                && !fetchFails && currentPlayerId.value in old(players)
                && score > StoredScore(old(players)[currentPlayerId.value], gameNumber)
                && !updateFails
      ensures updated ==> players == old(players)[currentPlayerId.value :=
                                       ApplyScore(old(players)[currentPlayerId.value], gameNumber, score)]
      ensures !updated ==> players == old(players)
    {
      if !HasActiveSession(currentPlayerId) {
        return false;
      }
      var playerId := currentPlayerId.value;
      if !ValidGameNumber(gameNumber) {
        return false;
      }
      if fetchFails || playerId !in players {
        return false;
      }
      var currentScore := StoredScore(players[playerId], gameNumber);
      if score > currentScore {
        if updateFails {
          return false;
        }
        players := players[playerId := WithScore(players[playerId], gameNumber, score)];
        return true;
      } else {
        return false;
      }
    }

    /**
      `completeGameSession`: appends the player's total to the leaderboard and
      only then ends the session; any failure leaves both as they were.
     */
    method CompleteGameSession(fetchFails: bool, insertFails: bool) returns (entry: Option<LeaderboardEntry>)
      modifies this`leaderboard, this`currentPlayerId
      ensures entry.Some? <==>
                HasActiveSession(old(currentPlayerId)) && !fetchFails
                && old(currentPlayerId).value in players && !insertFails
      ensures entry.Some? ==>
                var p := players[old(currentPlayerId).value];
                && entry.value == LeaderboardEntry(p.name, TotalScore(p))
                && leaderboard == old(leaderboard) + [entry.value]
                && currentPlayerId == None
      ensures entry.None? ==> leaderboard == old(leaderboard) && currentPlayerId == old(currentPlayerId)
    {
      if !HasActiveSession(currentPlayerId) {
        return None;
      }
      var playerId := currentPlayerId.value;
      if fetchFails || playerId !in players {
        return None;
      }
      var player := players[playerId];
      var totalScore := TotalScore(player);
      if insertFails {
        return None;
      }
      var row := LeaderboardEntry(player.name, totalScore);
      leaderboard := leaderboard + [row];
      currentPlayerId := None;
      entry := Some(row);
    }
  }

  /** Successive submissions for one game, each applied as `updateScore` applies it. */
  function ApplyAll(p: Player, gameNumber: int, scores: seq<real>): Player
    requires ValidGameNumber(gameNumber)
    decreases |scores|
  {
    if scores == [] then p else ApplyAll(ApplyScore(p, gameNumber, scores[0]), gameNumber, scores[1..])
  }

  function MaxOf(start: real, scores: seq<real>): (m: real)
    ensures m >= start && forall i :: 0 <= i < |scores| ==> m >= scores[i]
    ensures m == start || exists i :: 0 <= i < |scores| && m == scores[i]
    decreases |scores|
  {
    if scores == [] then start else MaxOf(Max(start, scores[0]), scores[1..])
  }

  /** The stored score is the best of the starting value and every submission. */
  lemma {:induction false} BestSoFar(p: Player, gameNumber: int, scores: seq<real>)
    requires ValidGameNumber(gameNumber)
    ensures StoredScore(ApplyAll(p, gameNumber, scores), gameNumber) == MaxOf(StoredScore(p, gameNumber), scores)
    decreases |scores|
  {
    if scores != [] {
      BestSoFar(ApplyScore(p, gameNumber, scores[0]), gameNumber, scores[1..]);
    }
  }

  /** A write never lowers the total, and leaves it unchanged when the score is not higher. */
  lemma ApplyScoreRaisesTotal(p: Player, gameNumber: int, score: real)
    requires ValidGameNumber(gameNumber)
    ensures TotalScore(ApplyScore(p, gameNumber, score)) >= TotalScore(p)
    ensures score <= StoredScore(p, gameNumber) ==> TotalScore(ApplyScore(p, gameNumber, score)) == TotalScore(p)
  {
  }
}
