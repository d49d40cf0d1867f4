/**
  The hall of fame list (src/components/Leaderboard.jsx): the entry at list
  position i is shown with rank i + 1, the first three get a medal emoji and the
  'top-three' style, every other rank reads "#<rank>".
 */
module Leaderboard {
  import opened Wrappers
  import opened Decimal
  import opened ScoreManager

  const GoldMedal: string := "\U{1F947}"
  const SilverMedal: string := "\U{1F948}"
  const BronzeMedal: string := "\U{1F949}"

  /** `getRankMedal`. */
  function GetRankMedal(rank: nat): (r: string)
    ensures rank == 1 ==> r == GoldMedal
    ensures rank == 2 ==> r == SilverMedal
    ensures rank == 3 ==> r == BronzeMedal
    ensures (rank == 0 || rank > 3) ==> |r| >= 2 && r[0] == '#' && ParseNat(r[1..]) == Some(rank)
    ensures (rank == 0 || rank > 3) ==> (r[1] == '0' <==> rank == 0)
  {
    if rank == 1 then GoldMedal
    else if rank == 2 then SilverMedal
    else if rank == 3 then BronzeMedal
    else
      NatToStringRoundTrip(rank);
      "#" + NatToString(rank)
  }

  /** Different ranks never share a label. */
  lemma RankMedalInjective(a: nat, b: nat)
    requires GetRankMedal(a) == GetRankMedal(b)
    ensures a == b
  {
    if (a == 0 || a > 3) && (b == 0 || b > 3) {
      assert GetRankMedal(a)[1..] == GetRankMedal(b)[1..];
    }
  }

  /** One rendered line of the list. */
  datatype Row = Row(rank: nat, rankLabel: string, topThree: bool, name: string, totalScore: real)

  function Rows(entries: seq<LeaderboardEntry>): (rows: seq<Row>)
    ensures |rows| == |entries|
    ensures forall i :: 0 <= i < |rows| ==>
              && rows[i].rank == i + 1
              && rows[i].rankLabel == GetRankMedal(i + 1)
              && (rows[i].topThree <==> i < 3)
              && rows[i].name == entries[i].name && rows[i].totalScore == entries[i].totalScore
  {
    seq(|entries|, i requires 0 <= i < |entries| =>
      Row(i + 1, GetRankMedal(i + 1), i < 3, entries[i].name, entries[i].totalScore))
  }

  /** The medal emoji go exactly to the three top-three rows. */
  lemma MedalsOnlyOnTopThree(entries: seq<LeaderboardEntry>, i: nat)
    requires i < |entries|
    ensures Rows(entries)[i].topThree <==> Rows(entries)[i].rankLabel[0] != '#'
  {
  }
}
