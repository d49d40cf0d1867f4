/**
  The completion registry (src/utils/gameCompletion.js): a list of game ids kept
  under one storage key, appended to without duplicates, plus the medal
  thresholds on the number of distinct completed games.
 */
module GameCompletion {
  import opened Wrappers

  const Toothbrushing: string := "toothbrushing"
  const Handwashing: string := "handwashing"
  const Hairwashing: string := "hairwashing"

  /**
    What the storage key holds once read: text that is not JSON, JSON whose
    `completedGames` is not an array, or an array of game ids.
   */
  datatype Stored = Unparseable | NoGameList | GameList(completedGames: seq<string>)

  predicate NoDuplicates(s: seq<string>) {
    forall i, j :: 0 <= i < j < |s| ==> s[i] != s[j]
  }

  /** `getCompletedGames`: nothing stored, unreadable or not a list all read as no games. */
  function GetCompletedGames(stored: Option<Stored>): (games: seq<string>)
    ensures stored.None? ==> games == []
    ensures stored.Some? && !stored.value.GameList? ==> games == []
    ensures stored.Some? && stored.value.GameList? ==> games == stored.value.completedGames
  {
    match stored
    case Some(GameList(gs)) => gs
    case _ => []
  }

  /** `isGameCompleted`: the id occurs in the stored list; nothing counts without a readable list. */
  function IsGameCompleted(stored: Option<Stored>, gameId: string): (done: bool)
    ensures done <==> exists i :: 0 <= i < |GetCompletedGames(stored)| && GetCompletedGames(stored)[i] == gameId
    ensures !(stored.Some? && stored.value.GameList?) ==> !done
  {
    gameId in GetCompletedGames(stored)
  }

  /** The stored value after `markGameCompleted(gameId)`: written only when the id is new. */
  function MarkGameCompleted(stored: Option<Stored>, gameId: string): (after: Option<Stored>)
    ensures gameId in GetCompletedGames(stored) ==> after == stored
    ensures gameId !in GetCompletedGames(stored) ==>
              after == Some(GameList(GetCompletedGames(stored) + [gameId]))
  {
    var games := GetCompletedGames(stored);
    if gameId in games then stored else Some(GameList(games + [gameId]))
  }

  datatype MedalStatus = MedalStatus(bronze: bool, silver: bool, gold: bool)

  /** The 1/2/3 thresholds shared by the registry and the medal display. */
  function MedalsForCount(count: nat): (m: MedalStatus)
    ensures m.gold ==> m.silver
    ensures m.silver ==> m.bronze
  {
    MedalStatus(count >= 1, count >= 2, count >= 3)
  }

  /** Number of distinct ids in a list (`[...new Set(list)].length`). */
  function UniqueCount(games: seq<string>): (n: nat)
    ensures n <= |games|
    ensures |games| > 0 ==> n >= 1
    ensures NoDuplicates(games) ==> n == |games|
  {
    UniqueCountBounds(games);
    |set g | g in games|
  }

  lemma {:induction false} UniqueCountBounds(games: seq<string>)
    ensures |set g | g in games| <= |games|
    ensures |games| > 0 ==> |set g | g in games| >= 1
    ensures NoDuplicates(games) ==> |set g | g in games| == |games|
  {
    if games != [] {
      var rest := games[1..];
      UniqueCountBounds(rest);
      assert (set g | g in games) == {games[0]} + (set g | g in rest);
      if NoDuplicates(games) {
        assert games[0] !in rest;
        assert NoDuplicates(rest) by {
          forall i, j | 0 <= i < j < |rest|
            ensures rest[i] != rest[j]
          {
            assert rest[i] == games[i + 1] && rest[j] == games[j + 1];
          }
        }
      }
    }
  }

  /** `getMedalStatus`: the thresholds on the number of distinct completed games. */
  function GetMedalStatus(stored: Option<Stored>): (m: MedalStatus)
    ensures m.bronze <==> UniqueCount(GetCompletedGames(stored)) >= 1
    ensures m.silver <==> UniqueCount(GetCompletedGames(stored)) >= 2
    ensures m.gold <==> UniqueCount(GetCompletedGames(stored)) >= 3
    ensures m.gold ==> m.silver && m.silver ==> m.bronze
  {
    MedalsForCount(UniqueCount(GetCompletedGames(stored)))
  }

  /** The local storage behind the registry; `stored` is None when the key is absent. */
  class CompletionStore {
    var stored: Option<Stored>

    constructor (initial: Option<Stored>)
      ensures stored == initial
    {
      stored := initial;
    }

    method MarkCompleted(gameId: string)
      modifies this`stored
      ensures stored == MarkGameCompleted(old(stored), gameId)
    {
      var games := GetCompletedGames(stored);
      if gameId !in games {
        stored := Some(GameList(games + [gameId]));
      }
    }

    /** `clearCompletions`: the key is removed. */
    method ClearCompletions()
      modifies this`stored
      ensures stored == None
      ensures GetCompletedGames(stored) == []
    {
      stored := None;
    }
  }

  /** A new id goes at the end; the earlier entries keep their order. */
  lemma MarkAppendsWhenAbsent(stored: Option<Stored>, gameId: string)
    requires !IsGameCompleted(stored, gameId)
    ensures GetCompletedGames(MarkGameCompleted(stored, gameId)) == GetCompletedGames(stored) + [gameId]
  {
  }

  /** Marking is idempotent. */
  lemma MarkIdempotent(stored: Option<Stored>, gameId: string)
    ensures MarkGameCompleted(MarkGameCompleted(stored, gameId), gameId) == MarkGameCompleted(stored, gameId)
  {
  }

  /** After marking, the game reads as completed, and so does every game that already did. */
  lemma MarkThenCompleted(stored: Option<Stored>, gameId: string, other: string)
    ensures IsGameCompleted(MarkGameCompleted(stored, gameId), gameId)
    ensures IsGameCompleted(stored, other) ==> IsGameCompleted(MarkGameCompleted(stored, gameId), other)
  {
  }

  /** Marking keeps the list free of duplicates. */
  lemma MarkKeepsNoDuplicates(stored: Option<Stored>, gameId: string)
    requires NoDuplicates(GetCompletedGames(stored))
    ensures NoDuplicates(GetCompletedGames(MarkGameCompleted(stored, gameId)))
  {
  }

  /** Marking a run of games one after another. */
  function MarkAll(stored: Option<Stored>, ids: seq<string>): Option<Stored>
    decreases |ids|
  {
    if ids == [] then stored else MarkAll(MarkGameCompleted(stored, ids[0]), ids[1..])
  }

  /** `ids` with every repeat of an earlier id (or of one in `seen`) dropped. */
  function FirstOccurrences(seen: seq<string>, ids: seq<string>): seq<string>
    decreases |ids|
  {
    if ids == [] then []
    else if ids[0] in seen then FirstOccurrences(seen, ids[1..])
    else [ids[0]] + FirstOccurrences(seen + [ids[0]], ids[1..])
  }

  /**
    From any stored list, marking a run of ids leaves the old list followed by
    the new ids in first-seen order, each once.
   */
  lemma {:induction false} MarkAllAppendsFirstOccurrences(stored: Option<Stored>, ids: seq<string>)
    ensures GetCompletedGames(MarkAll(stored, ids)) ==
            GetCompletedGames(stored) + FirstOccurrences(GetCompletedGames(stored), ids)
    decreases |ids|
  {
    if ids != [] {
      var games := GetCompletedGames(stored);
      var next := MarkGameCompleted(stored, ids[0]);
      MarkAllAppendsFirstOccurrences(next, ids[1..]);
      if ids[0] !in games {
        assert GetCompletedGames(next) == games + [ids[0]];
        assert games + [ids[0]] + FirstOccurrences(games + [ids[0]], ids[1..])
            == games + ([ids[0]] + FirstOccurrences(games + [ids[0]], ids[1..]));
      }
    }
  }

  /**
    On a list kept free of duplicates (as marking keeps it) the medals follow
    the list's length; any stored entry at all earns bronze.
   */
  lemma MedalThresholds(stored: Option<Stored>)
    ensures |GetCompletedGames(stored)| > 0 <==> GetMedalStatus(stored).bronze
    ensures NoDuplicates(GetCompletedGames(stored)) ==>
              && (GetMedalStatus(stored).silver <==> |GetCompletedGames(stored)| >= 2)
              && (GetMedalStatus(stored).gold <==> |GetCompletedGames(stored)| >= 3)
  {
  }

  /** Completing all three games from a cleared registry earns gold. */
  lemma AllThreeGamesEarnGold()
    ensures GetMedalStatus(MarkAll(None, [Hairwashing, Toothbrushing, Handwashing])).gold
  {
    var ids := [Hairwashing, Toothbrushing, Handwashing];
    MarkAllAppendsFirstOccurrences(None, ids);
    var games := GetCompletedGames(MarkAll(None, ids));
    assert ids[1..] == [Toothbrushing, Handwashing] && ids[1..][1..] == [Handwashing];
    var none: seq<string> := [];
    assert none + [Hairwashing] == [Hairwashing];
    assert [Hairwashing] + [Toothbrushing] == [Hairwashing, Toothbrushing];
    assert FirstOccurrences([Hairwashing, Toothbrushing], [Handwashing]) == [Handwashing];
    assert FirstOccurrences([Hairwashing], [Toothbrushing, Handwashing]) == [Toothbrushing, Handwashing];
    assert FirstOccurrences(none, ids) == [Hairwashing] + [Toothbrushing, Handwashing];
    assert games == ids;
    assert (set g | g in games) == {Hairwashing, Toothbrushing, Handwashing};
  }
}
