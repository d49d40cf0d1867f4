/**
  The medal strip (src/components/MedalDisplay.jsx): a game counts as completed
  when its stored score is above 0, and the medals light up at 1, 2 and 3 games.
 */
module MedalDisplay {
  import opened Wrappers
  import opened ScoreManager
  import opened GameCompletion

  /** `score > 0`, where a null column compares false. */
  predicate Positive(score: Option<real>) {
    score.Some? && score.value > 0.0
  }

  function Indicator(b: bool): nat {
    if b then 1 else 0
  }

  /** How many of the three game scores are strictly positive. */
  function GamesCompleted(p: Player): (n: nat)
    ensures n <= 3
    ensures n == 0 <==> !Positive(p.game1Score) && !Positive(p.game2Score) && !Positive(p.game3Score)
    ensures n == 3 <==> Positive(p.game1Score) && Positive(p.game2Score) && Positive(p.game3Score)
  {
    Indicator(Positive(p.game1Score)) + Indicator(Positive(p.game2Score)) + Indicator(Positive(p.game3Score))
  }

  /** `updateMedals` once the player has been fetched: no player, no medals. */
  function UpdateMedals(player: Option<Player>): (m: MedalStatus)
    ensures player.None? ==> m == MedalStatus(false, false, false)
    ensures player.Some? ==> (m.bronze <==> GamesCompleted(player.value) >= 1)
    ensures player.Some? ==> (m.silver <==> GamesCompleted(player.value) >= 2)
    ensures player.Some? ==> (m.gold <==> GamesCompleted(player.value) >= 3)
    ensures m.gold ==> m.silver
    ensures m.silver ==> m.bronze
  {
    match player
    case None => MedalStatus(false, false, false)
    case Some(p) => MedalsForCount(GamesCompleted(p))
  }

  /** A freshly created player has no medal; gold needs every game scored above 0. */
  lemma MedalsOfScores(name: string, grade: string, age: int, p: Player)
    ensures UpdateMedals(Some(NewPlayer(name, grade, age))) == MedalStatus(false, false, false)
    ensures UpdateMedals(Some(p)).gold <==>
              Positive(p.game1Score) && Positive(p.game2Score) && Positive(p.game3Score)
  {
  }

  /** Raising a stored score never takes a medal away. */
  lemma ApplyScoreKeepsMedals(p: Player, gameNumber: int, score: real)
    requires ValidGameNumber(gameNumber)
    ensures GamesCompleted(ApplyScore(p, gameNumber, score)) >= GamesCompleted(p)
  {
    var q := ApplyScore(p, gameNumber, score);
    assert Positive(ScoreColumn(p, gameNumber)) ==> Positive(ScoreColumn(q, gameNumber));
  }
}
