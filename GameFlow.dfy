/**
  The cross-game flow (src/context/GameFlowContext.jsx): an index into the
  fixed order hairwashing -> toothbrushing -> handwashing, -1 meaning "not
  started", persisted under one storage key whenever it is non-negative.
 */
module GameFlowContext {
  import opened Wrappers
  import opened Decimal

  datatype GameInfo = GameInfo(path: string, name: string, index: nat)

  const GameOrder: seq<GameInfo> := [
    GameInfo("/hairwashing", "Hair Washing", 0),
    GameInfo("/toothbrushing", "Tooth Brushing", 1),
    GameInfo("/handwashing", "Handwashing", 2)
  ]

  /**
    The index read at start-up: `parseInt` of the saved text, or -1 when nothing
    is saved. A text `parseInt` reads as NaN is also taken as -1.
   */
  function InitialIndex(saved: Option<string>): (index: int)
    ensures saved.None? ==> index == -1
    ensures saved.Some? && ParseInt(saved.value).Some? ==> index == ParseInt(saved.value).value
  {
    match saved
    case None => -1
    case Some(text) => ParseInt(text).GetOr(-1)
  }

  predicate InFlowRange(index: int) {
    0 <= index < |GameOrder|
  }

  /** What the persistence effect leaves in storage for a given index: its `toString()`, or nothing. */
  function Persisted(index: int): (s: Option<string>)
    ensures s.Some? <==> index >= 0
    ensures s.Some? ==> |s.value| >= 1 && AllDigits(s.value)
  {
    if index >= 0 then Some(NatToString(index)) else None
  }

  /** `canAccessGame`: everything before the flow starts, otherwise games up to the current one. */
  function CanAccessGame(currentGameIndex: int, gameIndex: int): (ok: bool)
    ensures currentGameIndex == -1 ==> ok
    ensures currentGameIndex != -1 ==> (ok <==> gameIndex <= currentGameIndex)
  {
    if currentGameIndex == -1 then true else gameIndex <= currentGameIndex
  }

  /** `getCurrentGamePath`: the path of the current game, none outside the order. */
  function GetCurrentGamePath(currentGameIndex: int): (path: Option<string>)
    ensures path.Some? <==> InFlowRange(currentGameIndex)
    ensures path.Some? ==> path.value == GameOrder[currentGameIndex].path
  {
    if currentGameIndex < 0 || currentGameIndex >= |GameOrder| then None
    else Some(GameOrder[currentGameIndex].path)
  }

  class GameFlow {
    var currentGameIndex: int
    var isFlowActive: bool
    /** The storage key `gameFlowIndex`, None when removed. */
    var savedIndex: Option<string>

    /** The flow is only active on a game of the order, and storage mirrors the index. */
    ghost predicate Valid()
      reads this
    {
      && (isFlowActive ==> InFlowRange(currentGameIndex))
      && savedIndex == Persisted(currentGameIndex)
    }

    /** Start-up: the index comes from storage, the flow is active iff it names a game. */
    constructor (saved: Option<string>)
      ensures Valid()
      ensures currentGameIndex == InitialIndex(saved)
      ensures isFlowActive <==> InFlowRange(InitialIndex(saved))
    {
      currentGameIndex := InitialIndex(saved);
      isFlowActive := InFlowRange(InitialIndex(saved));
      savedIndex := Persisted(InitialIndex(saved));
    }

    method StartGameFlow()
      requires Valid()
      modifies this
      ensures Valid()
      ensures currentGameIndex == 0 && isFlowActive && savedIndex == Some("0")
    {
      currentGameIndex := 0;
      isFlowActive := true;
      savedIndex := Persisted(currentGameIndex);
    }

    /** One more game done: the index moves on by one, unclamped; past the last game the flow ends. */
    method CompleteCurrentGame()
      requires Valid()
      modifies this
      ensures Valid()
      ensures currentGameIndex == old(currentGameIndex) + 1
      ensures isFlowActive == (old(isFlowActive) && old(currentGameIndex) + 1 < |GameOrder|)
    {
      var next := currentGameIndex + 1;
      if currentGameIndex + 1 >= |GameOrder| {
        isFlowActive := false;
      }
      currentGameIndex := next;
      savedIndex := Persisted(currentGameIndex);
    }

    method ResetFlow()
      requires Valid()
      modifies this
      ensures Valid()
      ensures currentGameIndex == -1 && !isFlowActive && savedIndex == None
    {
      currentGameIndex := -1;
      isFlowActive := false;
      savedIndex := None;
    }
  }

  /** Access only widens as the flow advances. */
  lemma AccessGrowsWithIndex(i: int, j: int, gameIndex: int)
    requires 0 <= i <= j
    ensures CanAccessGame(i, gameIndex) ==> CanAccessGame(j, gameIndex)
  {
  }

  /**
    The text written for an index reads back as the same index at the next
    start-up; an index below 0 leaves nothing, which reads back as -1.
   */
  lemma PersistRoundTrip(index: int)
    ensures index >= 0 ==> InitialIndex(Persisted(index)) == index
    ensures index < 0 ==> InitialIndex(Persisted(index)) == -1
  {
    if index >= 0 {
      ParseIntRoundTrip(index);
    }
  }

  /** A fresh start followed by three completions ends the flow with every game open. */
  method PlayThrough(flow: GameFlow)
    requires flow.Valid()
    modifies flow
    ensures flow.Valid()
    ensures flow.currentGameIndex == |GameOrder| && !flow.isFlowActive
    ensures forall g :: 0 <= g < |GameOrder| ==> CanAccessGame(flow.currentGameIndex, g)
    ensures GetCurrentGamePath(flow.currentGameIndex) == None
  {
    flow.StartGameFlow();
    flow.CompleteCurrentGame();
    flow.CompleteCurrentGame();
    assert flow.isFlowActive && flow.currentGameIndex == 2;
    flow.CompleteCurrentGame();
  }
}

/**
  The route guard (src/components/ProtectedGameRoute.jsx): free access when no
  flow is running, otherwise games not yet reached redirect to the current one.
 */
module ProtectedGameRoute {
  import opened Wrappers
  import opened GameFlowContext

  datatype Outcome = RenderChildren | Redirect(to: string)

  function Decide(isFlowActive: bool, currentGameIndex: int, gameIndex: int): (r: Outcome)
    ensures r.RenderChildren? <==> !isFlowActive || CanAccessGame(currentGameIndex, gameIndex)
    ensures r.Redirect? ==> r.to == GetCurrentGamePath(currentGameIndex).GetOr("/")
  {
    if !isFlowActive then RenderChildren
    else if !CanAccessGame(currentGameIndex, gameIndex) then
      var correctPath := GetCurrentGamePath(currentGameIndex);
      Redirect(correctPath.GetOr("/"))
    else RenderChildren
  }

  /**
    While the flow invariant holds, a redirect always names the current game's
    route (the "/" fallback is never taken) and never the route that was asked for.
   */
  lemma RedirectGoesToCurrentGame(isFlowActive: bool, currentGameIndex: int, gameIndex: int)
    requires isFlowActive ==> InFlowRange(currentGameIndex)
    requires InFlowRange(gameIndex)
    requires Decide(isFlowActive, currentGameIndex, gameIndex).Redirect?
    ensures Decide(isFlowActive, currentGameIndex, gameIndex).to == GameOrder[currentGameIndex].path
    ensures Decide(isFlowActive, currentGameIndex, gameIndex).to != GameOrder[gameIndex].path
  {
  }
}
