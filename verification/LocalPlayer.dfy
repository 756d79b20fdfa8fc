/** The local player's phase machine: what every step of a game keeps. */
module LocalPlayers {
  import opened Geometry
  import opened Connectivity
  import opened BlockStates
  import opened Matching
  import opened PuyoBlocks
  import opened Players
  import opened Falling
  import opened Gravity
  import opened LinkMasks
  import opened LinkStates
  import opened Clearing
  import opened Rounds
  import opened Settling
  import opened Garbage
  import opened Resting
  import opened Sorting
  import opened Destroying
  import opened Scoring
  import opened Scenes

  // ---------------------------------------------------------------- the invariant

  /** Nothing is disappearing: the blocks fall or rest. */
  ghost predicate Moves(p: BasePlayer)
    reads p`blockList, p.board, p`matchedBlocks, p`iceBlocks
    reads p.blockList`kind, p.blockList`state, p.blockList`x, p.blockList`y, p.blockList`posY, p.blockList`velocity
    reads p.blockList`initialized, p.blockList`recursionCheck
  {
    && p.Valid() && p.matchedBlocks == [] && p.iceBlocks == {} && Unmarked(p.blockList)
    && FallInvariant(View(p), Heights(View(p)), 0, 0.0)
  }

  /** Matched groups are disappearing. */
  ghost predicate Disappears(p: BasePlayer)
    reads p`blockList, p.board, p`matchedBlocks, p`iceBlocks
    reads p.blockList`x, p.blockList`y, p.blockList`kind, p.blockList`initialized, p.blockList`state
    reads p.blockList`posY, p.blockList`velocity, p.blockList`recursionCheck, p.blockList`effectTime
  {
    p.matchedBlocks != [] && exists cells, iceAt, t, over :: Clears(p, cells, iceAt, t, over) && t >= 0.0
  }

  ghost predicate MasksExact(p: BasePlayer)
    requires p.Valid()
    reads p`blockList, p.board, p.blockList`x, p.blockList`y, p.blockList`kind, p.blockList`initialized, p.blockList`state, p.blockList`link
  {
    Exact(p.Coloured(), Links(p))
  }

  /** A combo count or a remainder left over from an all-clear has no coloured block to go with it. */
  ghost predicate ComboClean(p: BasePlayer)
    reads p`comboCount, p`restScore, p`blockList, p.blockList`kind
  {
    (p.comboCount == 0 && p.restScore == 0) || forall b :: b in p.blockList ==> b.kind == Ice
  }

  ghost predicate CountersFine(p: BasePlayer)
    reads p`comboCount, p`restScore, p`hasIceBlock, p`totalInterrupt
  {
    0 <= p.comboCount <= MAX_COMBO && 0 <= p.restScore < MAX_MARGIN && (p.hasIceBlock <==> p.totalInterrupt > 0)
  }

  /** Every block sits still on the board, the spawn cells are free, the masks are exact. */
  ghost predicate ReadyToPlay(p: BasePlayer)
    reads p`blockList, p.board, p`comboCount, p`restScore
    reads p.blockList`x, p.blockList`y, p.blockList`kind, p.blockList`initialized, p.blockList`state, p.blockList`link
  {
    p.Valid() && p.Settled() && SpawnFree(p) && MasksExact(p) && ComboClean(p)
  }

  /** Only ice falls, so the masks stay exact. */
  ghost predicate IceComesDown(p: BasePlayer)
    reads p`blockList, p.board, p`comboCount, p`restScore
    reads p.blockList`x, p.blockList`y, p.blockList`posY, p.blockList`velocity
    reads p.blockList`kind, p.blockList`initialized, p.blockList`state, p.blockList`link
  {
    p.Valid() && OnlyIceFalls(View(p)) && MasksExact(p) && ComboClean(p)
  }

  /** The remainder, the total score and the attacks counted so far are what the rounds of the present chain
      have made of them, starting without a remainder. */
  ghost predicate ChainScored(p: BasePlayer)
    reads p`chain, p`scored, p`restScore, p`totalScore
  {
    var rounds, n := p.scored.rounds, |p.scored.rounds|;
    && ProperRounds(rounds) && Paid(rounds) && n == p.chain && p.restScore == RestOf(rounds, 0, n)
    && ToUint32(p.totalScore - p.scored.total - ScoreSum(rounds, n)) == 0 && p.scored.attacked == CountedSum(rounds, n)
  }

  /** The combo count is the number of rounds of the present chain, and each of them has taken at
      least four of the 78 blocks a board can hold. */
  ghost predicate ChainCounted(p: BasePlayer)
    reads p`comboCount, p`chain, p`scored, p`restScore, p`totalScore, p`blockList, p`matchedBlocks
    reads p.blockList`kind, p.blockList`initialized
  {
    && p.comboCount == p.chain && 1 <= p.comboCount && ChainScored(p)
    && MIN_MATCH_COUNT * p.comboCount + |p.blockList| - |Flat(p.matchedBlocks)| <= BOARD_CELLS
    && (p.matchedBlocks == [] ==> Seated(p))
  }

  ghost predicate Inv(p: BasePlayer)
    reads p`blockList, p.board, p`matchedBlocks, p`iceBlocks, p`phase, p`comboCount, p`chain, p`scored, p`restScore, p`totalScore
    reads p`hasIceBlock, p`totalInterrupt, p.blockList
  {
    && CountersFine(p) && (if p.matchedBlocks == [] then Moves(p) else Disappears(p))
    && match p.phase
       case Standing => false
       case Playing => p.matchedBlocks == [] && ReadyToPlay(p)
       case IceBlocking => p.matchedBlocks == [] && IceComesDown(p)
       case Shattering => ChainCounted(p)
       case GameOver => true
  }

  // ---------------------------------------------------------------- what the invariant means

  /** In `Playing` the four cells tested by `IsGameOver` are free, and the board is at rest. */
  lemma {:induction false} PlayingIsSafe(p: BasePlayer)
    requires Inv(p) && p.phase == Playing
    ensures !IsGameOver(p) && AtRest(p) && MasksExact(p)
  {
    GameOverIff(p);
    hide *;
    OpenPlaying(p);
    SettledRest(p);
  }

  lemma {:induction false} OpenPlaying(p: BasePlayer)
    requires Inv(p) && p.phase == Playing
    ensures p.matchedBlocks == [] && Moves(p) && ReadyToPlay(p) && CountersFine(p) && p.Valid() && p.Settled()
    ensures SpawnFree(p) && MasksExact(p) && ComboClean(p)
  {
    hide Moves, View, Heights, FallInvariant;
  }

  lemma {:induction false} SettledRest(p: BasePlayer)
    requires Moves(p) && p.Settled()
    ensures AtRest(p)
  {
    SettledIff(p);
    assert FallInvariant(View(p), Heights(View(p)), 0, 0.0);
    hide *;
    FallRests(p, Heights(View(p)));
  }

  lemma {:induction false} SettledIff(p: BasePlayer)
    requires p.Valid()
    ensures p.Settled() <==> AllRest(View(p)) && Seated(p)
  {
    forall i | 0 <= i < |p.blockList|
      ensures View(p).bodies[i].state == p.blockList[i].state
    {
      ViewBody(p, i);
    }
    hide View;
    if AllRest(View(p)) && Seated(p) {
      forall b | b in p.blockList
        ensures b.state == Stationary
      {
        var i :| 0 <= i < |p.blockList| && p.blockList[i] == b;
        assert View(p).bodies[i].state == Stationary;
      }
    }
  }

  /** In `Shattering` the combo count is the length of the chain and within its table. */
  lemma {:induction false} ChainIsBounded(p: BasePlayer)
    requires Inv(p) && p.phase == Shattering
    ensures 1 <= p.comboCount == p.chain <= MAX_COMBO
  {
    hide Moves, Disappears;
  }

  /** Every chain starts without a remainder, and loses nothing: at their prices the attacks of its rounds and the
      remainder that the player holds now are all the points it has scored.  With one price, and no
      attack of 2^15 blocks or more, what has been counted is its whole score divided once. */
  lemma {:induction false} ChainCarries(p: BasePlayer)
    requires Inv(p) && p.phase == Shattering
    ensures ProperRounds(p.scored.rounds) && Paid(p.scored.rounds) && |p.scored.rounds| == p.comboCount
    ensures
      var rounds, n := p.scored.rounds, p.comboCount;
      && ScoreSum(rounds, n) >= 10 * TakenSum(rounds, n) >= 40 * n
      && SpentOn(rounds, 0, n) + p.restScore == ScoreSum(rounds, n)
      && ToUint32(p.totalScore - p.scored.total - ScoreSum(rounds, n)) == 0
      && ((forall k :: 0 <= k < n ==> rounds[k].margin == rounds[0].margin && Attack(rounds[k], RestOf(rounds, 0, k)) < 0x8000) ==>
            p.scored.attacked == ScoreSum(rounds, n) / rounds[0].margin)
  {
    hide *;
    ChainOf(p);
    OpenScored(p);
    var rounds, n := p.scored.rounds, p.comboCount;
    CarryLosesNothing(rounds, 0, n);
    ChainPays(rounds, n);
    if forall k :: 0 <= k < n ==> rounds[k].margin == rounds[0].margin && Attack(rounds[k], RestOf(rounds, 0, k)) < 0x8000 {
      OnePrice(rounds);
    }
  }

  lemma {:induction false} ChainOf(p: BasePlayer)
    requires Inv(p) && p.phase == Shattering
    ensures ChainScored(p) && p.comboCount == p.chain && 1 <= p.comboCount
  {
    hide Moves, Disappears, ChainScored;
  }

  /** A chain whose rounds all had one price. */
  lemma {:induction false} OnePrice(rounds: seq<Round>)
    requires ProperRounds(rounds) && rounds != []
    requires forall k :: 0 <= k < |rounds| ==> rounds[k].margin == rounds[0].margin && Attack(rounds[k], RestOf(rounds, 0, k)) < 0x8000
    ensures rounds[0].margin > 0 && CountedSum(rounds, |rounds|) == ScoreSum(rounds, |rounds|) / rounds[0].margin
  {
    hide *;
    FirstMargin(rounds);
    CountedExactly(rounds, |rounds|);
    RoundedOnce(rounds, rounds[0].margin);
  }

  lemma {:induction false} FirstMargin(rounds: seq<Round>)
    requires ProperRounds(rounds) && rounds != []
    ensures 1 <= rounds[0].margin
  {
  }

  // ---------------------------------------------------------------- looking for matches

  method ResetComboState(p: BasePlayer)
    modifies p`comboCount, p`restScore
    ensures p.comboCount == (if old(p.comboCount) > 0 then 0 else old(p.comboCount))
    ensures p.restScore == (if old(p.restScore) > 0 then 0 else old(p.restScore))
    ensures PurseOf(p) == old(PurseOf(p)).(rest := p.restScore)
  {
    if p.comboCount > 0 {
      p.comboCount := 0;
    }
    if p.restScore > 0 {
      p.restScore := 0;
    }
  }

  method LoseGame(p: BasePlayer)
    modifies p`phase, p`isGameQuit
    ensures p.phase == GameOver && p.isGameQuit
  {
    p.phase := GameOver;
    p.isGameQuit := true;
  }

  method ProcessGameOver(p: BasePlayer) returns (over: bool)
    requires p.Valid()
    modifies p`phase, p`isGameQuit
    ensures over <==> !SpawnFree(p)
    ensures if over then p.phase == GameOver else p.phase == old(p.phase) && p.isGameQuit == old(p.isGameQuit)
  {
    GameOverIff(p);
    over := IsGameOver(p);
    if over {
      LoseGame(p);
    }
  }

  /** The chain as it is before a check, possibly without any round yet. */
  ghost predicate ChainSoFar(p: BasePlayer)
    reads p`blockList, p`comboCount, p`restScore, p`chain, p`scored, p`totalScore
  {
    p.comboCount == p.chain && MIN_MATCH_COUNT * p.comboCount + |p.blockList| <= BOARD_CELLS && ChainScored(p)
  }

  lemma {:induction false} OpenChainSoFar(p: BasePlayer)
    requires ChainSoFar(p)
    ensures p.comboCount == p.chain && MIN_MATCH_COUNT * p.comboCount + |p.blockList| <= BOARD_CELLS && ChainScored(p)
  {
    hide ChainScored;
  }

  lemma {:induction false} CloseChainSoFar(p: BasePlayer)
    requires p.comboCount == p.chain && MIN_MATCH_COUNT * p.comboCount + |p.blockList| <= BOARD_CELLS && ChainScored(p)
    ensures ChainSoFar(p)
  {
    hide ChainScored;
  }

  /** A chain that has not begun. */
  lemma {:induction false} NoRoundYet(p: BasePlayer)
    requires p.chain == 0 && p.restScore == 0 && p.scored == ChainScore([], p.totalScore, 0)
    ensures ChainScored(p)
  {
  }

  /** One more round of the chain has been scored. */
  lemma {:induction false} NextRoundScored(p: BasePlayer, s: ChainScore, rest: int, total: int, r: Round)
    requires ProperRounds(s.rounds) && |s.rounds| + 1 == p.chain && 0 <= r.score && 1 <= r.margin <= 70
    requires Paid(s.rounds) && r.sizes != [] && (forall k :: 0 <= k < |r.sizes| ==> 4 <= r.sizes[k]) && r.score == Score(r.sizes, p.chain)
    requires rest == RestOf(s.rounds, 0, |s.rounds|) && ToUint32(total - s.total - ScoreSum(s.rounds, |s.rounds|)) == 0
    requires s.attacked == CountedSum(s.rounds, |s.rounds|)
    requires p.restScore == RestAfter(r, rest) && p.totalScore == ToUint32(total + r.score)
    requires p.scored == s.(rounds := s.rounds + [r], attacked := s.attacked + ToInt16(Attack(r, rest)))
    ensures ChainScored(p)
  {
    hide *;
    RoundAdded(s.rounds, r);
    NextPaid(s.rounds, r);
    TotalAdded(total, s.total, ScoreSum(s.rounds, |s.rounds|), r.score);
    CloseScored(p);
  }

  lemma {:induction false} NextPaid(rounds: seq<Round>, r: Round)
    requires Paid(rounds) && r.sizes != [] && (forall k :: 0 <= k < |r.sizes| ==> 4 <= r.sizes[k])
    requires r.score == Score(r.sizes, |rounds| + 1)
    ensures Paid(rounds + [r])
  {
    hide Score;
  }

  lemma {:induction false} CloseScored(p: BasePlayer)
    requires ProperRounds(p.scored.rounds) && Paid(p.scored.rounds) && |p.scored.rounds| == p.chain && p.restScore == RestOf(p.scored.rounds, 0, |p.scored.rounds|)
    requires ToUint32(p.totalScore - p.scored.total - ScoreSum(p.scored.rounds, |p.scored.rounds|)) == 0
    requires p.scored.attacked == CountedSum(p.scored.rounds, |p.scored.rounds|)
    ensures ChainScored(p)
  {
  }

  /** A board at rest whose combo count is either the length of the chain so far, or left over
      on a board with too few coloured blocks for a match. */
  ghost predicate Checkable(p: BasePlayer)
    reads p`blockList, p.board, p`matchedBlocks, p`iceBlocks, p`comboCount, p`restScore, p`hasIceBlock, p`totalInterrupt, p`chain
    reads p`scored, p`totalScore
    reads p.blockList`kind, p.blockList`state, p.blockList`x, p.blockList`y, p.blockList`posY, p.blockList`velocity
    reads p.blockList`initialized, p.blockList`recursionCheck, p.blockList`link
  {
    && AtRest(p) && p.matchedBlocks == [] && p.iceBlocks == {} && Unmarked(p.blockList) && MasksExact(p) && CountersFine(p)
    && (ChainSoFar(p) || |p.Coloured().Keys| < MIN_MATCH_COUNT)
  }

  lemma {:induction false} OpenCheckable(p: BasePlayer)
    requires Checkable(p)
    ensures AtRest(p) && p.Valid() && p.Settled() && p.matchedBlocks == [] && p.iceBlocks == {} && p.Marks() == {}
    ensures Unmarked(p.blockList) && MasksExact(p) && CountersFine(p) && 0 <= p.restScore < MAX_MARGIN && 0 <= p.comboCount <= MAX_COMBO
    ensures p.hasIceBlock <==> p.totalInterrupt > 0
    ensures MIN_MATCH_COUNT == 4
  {
    forall c | c in p.Marks()
      ensures false
    {
      p.ColouredAt(c);
    }
  }

  /** A board at rest is what `Inv` asks of the board. */
  lemma {:induction false} RestMoves(p: BasePlayer)
    requires AtRest(p) && p.matchedBlocks == [] && p.iceBlocks == {} && Unmarked(p.blockList)
    ensures Moves(p) && Seated(p)
  {
    RestFalls(p);
    OpenRest(p);
    hide View, Heights, FallInvariant;
  }

  lemma {:induction false} ClosePlaying(p: BasePlayer)
    requires AtRest(p) && p.matchedBlocks == [] && p.iceBlocks == {} && Unmarked(p.blockList) && MasksExact(p)
    requires SpawnFree(p) && CountersFine(p) && p.comboCount == 0 && p.restScore == 0 && p.phase == Playing
    ensures Inv(p)
  {
    RestMoves(p);
    OpenRest(p);
    hide AtRest, Moves, Unmarked, CountersFine, SpawnFree, MasksExact, BasePlayer.Settled;
  }

  lemma {:induction false} CloseGameOver(p: BasePlayer)
    requires AtRest(p) && p.matchedBlocks == [] && p.iceBlocks == {} && Unmarked(p.blockList)
    requires CountersFine(p) && p.phase == GameOver
    ensures Inv(p)
  {
    RestMoves(p);
    hide AtRest, Moves, Unmarked, CountersFine;
  }

  lemma {:induction false} FineAfterReset(p: BasePlayer)
    requires p.comboCount == 0 && p.restScore == 0 && (p.hasIceBlock <==> p.totalInterrupt > 0)
    ensures CountersFine(p)
  {
  }

  /** What was matched is at least one group and at most the whole list. */
  lemma {:induction false} MatchedCount(p: BasePlayer, cells: seq<seq<Cell>>)
    requires p.Valid() && p.Settled() && AllGroups(p.Coloured(), cells) && AllPlaced(p.Layout(), p.matchedBlocks, cells)
    ensures |Flat(p.matchedBlocks)| == |Flat(cells)| <= |p.blockList| && |Flat(cells)| <= BOARD_CELLS
    ensures cells != [] ==> |Flat(cells)| >= MIN_MATCH_COUNT
    ensures p.matchedBlocks == [] <==> cells == []
  {
    GroupSizes(p.Coloured(), cells);
    p.ColouredInLayout();
    GroupsFit(p.Layout(), p.matchedBlocks, cells);
    p.SettledCount();
    CardinalityOrder(SetOf(Flat(cells)), p.Layout().Keys);
    if cells != [] {
      FlatIndex(cells, 0, 4);
      FlatStart(cells);
    }
  }

  /** Counting one more round. */
  lemma {:induction false} NextRoundCounted(p: BasePlayer, cells: seq<seq<Cell>>, combo: int, iceAt: set<Cell>)
    requires Clears(p, cells, iceAt, 0.0, false) && MIN_MATCH_COUNT * combo + |p.blockList| <= BOARD_CELLS
    requires 4 <= |Flat(p.matchedBlocks)| <= |p.blockList| && p.matchedBlocks != []
    requires 0 <= combo && p.comboCount == p.chain == combo + 1 && ChainScored(p)
    ensures ChainCounted(p) && p.comboCount <= MAX_COMBO && Disappears(p)
  {
    hide Clears, Matched, ChainScored;
  }

  lemma {:induction false} CloseShattering(p: BasePlayer)
    requires Disappears(p) && ChainCounted(p) && CountersFine(p) && p.phase == Shattering
    ensures Inv(p)
  {
    hide ChainCounted, CountersFine, Clears, Moves;
  }

  /** Counts one more round and scores it. */
  method CountRound(p: BasePlayer)
    requires |Flat(p.matchedBlocks)| <= BOARD_CELLS && CountersFine(p) && ChainScored(p) && p.comboCount == p.chain
    requires p.matchedBlocks != [] && forall k :: 0 <= k < |p.matchedBlocks| ==> |p.matchedBlocks[k]| >= 4
    modifies p`phase, p`comboCount, p`chain, p`scored, p`totalScore, p`restScore, p`totalInterrupt, p`addInterrupt, p`totalEnemyInterrupt
    modifies p`hasIceBlock
    ensures p.phase == Shattering && p.comboCount == old(p.comboCount) + 1 && p.chain == old(p.chain) + 1
    ensures 0 <= p.restScore < MAX_MARGIN && (p.hasIceBlock <==> p.totalInterrupt > 0) && ChainScored(p)
    ensures PurseOf(p) == Earn(old(PurseOf(p)), RoundOf(Sizes(p.matchedBlocks), p.comboCount, Margin(p.playTime, 0)), p.isServer)
  {
    hide *;
    OpenCounters(p);
    OpenScored(p);
    ghost var s, rest, total := p.scored, p.restScore, p.totalScore;
    PurseIs(p);
    ghost var b := PurseOf(p);
    p.phase := Shattering;
    p.comboCount := p.comboCount + 1;
    p.chain := p.chain + 1;
    ghost var r := RoundOf(Sizes(p.matchedBlocks), p.comboCount, Margin(p.playTime, 0));
    RoundOfIs(Sizes(p.matchedBlocks), p.comboCount, Margin(p.playTime, 0));
    CalculateScore(p);
    EarnIs(b, r, p.isServer);
    PurseIs(p);
    NextRoundScored(p, s, rest, total, r);
  }

  lemma {:induction false} OpenScored(p: BasePlayer)
    requires ChainScored(p)
    ensures ProperRounds(p.scored.rounds) && Paid(p.scored.rounds) && |p.scored.rounds| == p.chain && p.restScore == RestOf(p.scored.rounds, 0, |p.scored.rounds|)
    ensures ToUint32(p.totalScore - p.scored.total - ScoreSum(p.scored.rounds, |p.scored.rounds|)) == 0
    ensures p.scored.attacked == CountedSum(p.scored.rounds, |p.scored.rounds|)
  {
  }

  lemma {:induction false} PlacedSizes(p: BasePlayer, cells: seq<seq<Cell>>)
    requires p.Valid() && AllGroups(p.Coloured(), cells) && AllPlaced(p.Layout(), p.matchedBlocks, cells)
    ensures Sizes(p.matchedBlocks) == Sizes(cells) && forall k :: 0 <= k < |p.matchedBlocks| ==> |p.matchedBlocks[k]| >= 4
  {
    GroupSizes(p.Coloured(), cells);
    hide BasePlayer.Valid, BasePlayer.Layout, BasePlayer.Coloured, AllGroups;
    forall k | 0 <= k < |p.matchedBlocks|
      ensures |p.matchedBlocks[k]| == |cells[k]|
    {
      assert Placed(p.Layout(), p.matchedBlocks[k], cells[k]);
    }
    assert Sizes(p.matchedBlocks) == Sizes(cells);
  }

  /** Starts a round: counts and scores it, collects the ice, and sets everything disappearing. */
  method StartRound(p: BasePlayer, ghost cells: seq<seq<Cell>>) returns (ghost iceAt: set<Cell>)
    requires AtRest(p) && AllGroups(p.Coloured(), cells) && AllPlaced(p.Layout(), p.matchedBlocks, cells)
    requires p.matchedBlocks != [] && p.iceBlocks == {} && CountersFine(p)
    requires ChainSoFar(p)
    requires forall c :: c in p.Marks() <==> InSome(cells, c)
    modifies p`phase, p`comboCount, p`chain, p`scored, p`iceBlocks, p.blockList`state, p.blockList`effectTime
    modifies p`totalScore, p`restScore, p`totalInterrupt, p`addInterrupt, p`totalEnemyInterrupt, p`hasIceBlock
    ensures Inv(p) && p.phase == Shattering && p.chain == old(p.chain) + 1 && p.comboCount == old(p.comboCount) + 1 && cells != []
    ensures Clears(p, cells, iceAt, 0.0, false) && TakesRound(old(ViewOf(p)), cells, iceAt)
    ensures PurseOf(p) == Earn(old(PurseOf(p)), RoundOf(Sizes(cells), p.comboCount, Margin(p.playTime, 0)), p.isServer)
  {
    hide *;
    ghost var combo := p.comboCount;
    OpenRest(p);
    PlacedSizes(p, cells);
    ViewOfIs(p);
    OpenCounters(p);
    OpenChainSoFar(p);
    MatchedCount(p, cells);
    SomeBlocks(p, cells);
    CountRound(p);
    iceAt := StartClearing(p, cells);
    TakesRoundIs(old(ViewOf(p)), cells, iceAt);
    Numbers();
    NextRoundCounted(p, cells, combo, iceAt);
    CloseCounters(p);
    CloseShattering(p);
  }

  lemma {:induction false} Numbers()
    ensures MIN_MATCH_COUNT == 4 && BOARD_CELLS == 78 && MAX_COMBO == 19
  {
  }

  lemma {:induction false} OpenCounters(p: BasePlayer)
    requires CountersFine(p)
    ensures 0 <= p.comboCount <= MAX_COMBO && 0 <= p.restScore < MAX_MARGIN && (p.hasIceBlock <==> p.totalInterrupt > 0)
  {
  }

  lemma {:induction false} CloseCounters(p: BasePlayer)
    requires 0 <= p.comboCount <= MAX_COMBO && 0 <= p.restScore < MAX_MARGIN && (p.hasIceBlock <==> p.totalInterrupt > 0)
    ensures CountersFine(p)
  {
  }

  ghost predicate GroupWaits(p: BasePlayer)
    reads p`blockList, p.board, p.blockList`x, p.blockList`y, p.blockList`kind, p.blockList`initialized, p.blockList`state
  {
    p.Valid() && HasGroup(p.Coloured())
  }

  ghost predicate SpawnTaken(p: BasePlayer)
    reads p`blockList, p.board, p.blockList`x, p.blockList`y, p.blockList`kind, p.blockList`initialized
  {
    p.Valid() && !SpawnFree(p)
  }

  lemma {:induction false} GroupWaitsIs(p: BasePlayer)
    requires p.Valid()
    ensures GroupWaits(p) <==> HasGroup(p.Coloured())
    ensures SpawnTaken(p) <==> !SpawnFree(p)
  {
  }

  lemma {:induction false} HasGroupIff(g: Colours, cells: seq<seq<Cell>>)
    requires AllGroups(g, cells)
    ensures HasGroup(g) <==> cells != []
  {
    if cells != [] {
      assert IsGroup(g, cells[0]);
      DistinctSize(cells[0]);
      assert cells[0][0] in cells[0];
    }
    if HasGroup(g) {
      var c :| c in g && |Component(g, c)| >= MIN_MATCH_COUNT;
      assert InSome(cells, c);
    }
  }

  lemma {:induction false} FewBlocksNoGroup(p: BasePlayer)
    requires p.Valid() && p.Settled() && |p.blockList| < MIN_MATCH_COUNT
    ensures !HasGroup(p.Coloured())
  {
    p.SettledCount();
    p.ColouredInLayout();
    CardinalityOrder(p.Coloured().Keys, p.Layout().Keys);
    SmallColours(p.Coloured());
  }

  lemma {:induction false} SmallColours(g: Colours)
    requires |g.Keys| < MIN_MATCH_COUNT
    ensures !HasGroup(g)
  {
    forall c | c in g
      ensures |Component(g, c)| < MIN_MATCH_COUNT
    {
      CardinalityOrder(Component(g, c), g.Keys);
    }
  }

  lemma {:induction false} NoMarks(p: BasePlayer)
    requires p.Valid() && p.Settled() && p.Marks() == {}
    ensures Unmarked(p.blockList)
  {
    forall b | b in p.blockList
      ensures !b.recursionCheck
    {
      p.ColouredAt(Cell(b.x, b.y));
      assert p.At(Cell(b.x, b.y)) == b;
    }
  }

  lemma {:induction false} NothingIn(m: set<Cell>, cells: seq<seq<Cell>>)
    requires cells == [] && forall c :: c in m <==> InSome(cells, c)
    ensures m == {}
  {
  }

  lemma {:induction false} CountedOrFew(p: BasePlayer)
    requires Checkable(p) && HasGroup(p.Coloured())
    ensures ChainSoFar(p)
  {
    if |p.Coloured().Keys| < MIN_MATCH_COUNT { SmallColours(p.Coloured()); }
  }

  /** Without a match the chain is over, and so is the game if a spawn cell is taken. */
  method EndOrPlay(p: BasePlayer) returns (r: bool)
    requires AtRest(p) && p.Valid() && p.matchedBlocks == [] && p.iceBlocks == {} && Unmarked(p.blockList) && MasksExact(p)
    requires 0 <= p.comboCount && 0 <= p.restScore && (p.hasIceBlock <==> p.totalInterrupt > 0)
    modifies p`phase, p`comboCount, p`restScore, p`isGameQuit
    ensures Inv(p) && p.Valid() && (r <==> !SpawnFree(p)) && p.phase == (if r then GameOver else Playing)
    ensures p.comboCount == 0 && p.restScore == 0
  {
    hide *;
    ResetComboState(p);
    FineAfterReset(p);
    r := ProcessGameOver(p);
    if r {
      CloseGameOver(p);
    } else {
      p.phase := Playing;
      ClosePlaying(p);
    }
  }

  /** The search for groups. */
  method FindGroups(p: BasePlayer) returns (ghost cells: seq<seq<Cell>>)
    requires AtRest(p) && p.Valid() && p.Marks() == {}
    modifies p`matchedBlocks, p.blockList`recursionCheck
    ensures AtRest(p) && p.Valid() && AllGroups(p.Coloured(), cells) && AllPlaced(p.Layout(), p.matchedBlocks, cells)
    ensures forall c :: c in p.Marks() <==> InSome(cells, c)
    ensures ViewOf(p) == old(ViewOf(p))
    ensures p.matchedBlocks != [] <==> old(GroupWaits(p))
    ensures p.matchedBlocks == [] ==> Unmarked(p.blockList)
  {
    hide *;
    OpenRest(p);
    GroupWaitsIs(p);
    ghost var g := p.Coloured();
    var found;
    found, cells := p.FindMatchedBlocks();
    p.matchedBlocks := found;
    HasGroupIff(g, cells);
    MatchedCount(p, cells);
    if cells == [] {
      NothingIn(p.Marks(), cells);
      NoMarks(p);
    }
  }

  /** The search for groups, and what follows from its outcome. */
  method CheckGroups(p: BasePlayer) returns (r: bool, ghost cells: seq<seq<Cell>>, ghost iceAt: set<Cell>)
    requires Checkable(p)
    modifies p`phase, p`comboCount, p`chain, p`scored, p`matchedBlocks, p`iceBlocks, p`isGameQuit
    modifies p`totalScore, p`restScore, p`totalInterrupt, p`addInterrupt, p`totalEnemyInterrupt, p`hasIceBlock
    modifies p.blockList`recursionCheck, p.blockList`state, p.blockList`effectTime
    ensures Inv(p) && (r <==> p.phase != Playing)
    ensures p.phase == if old(GroupWaits(p)) then Shattering else if old(SpawnTaken(p)) then GameOver else Playing
    ensures p.phase == Shattering ==> p.chain == old(p.chain) + 1
    ensures p.phase == Shattering ==> Clears(p, cells, iceAt, 0.0, false) && TakesRound(old(ViewOf(p)), cells, iceAt)
    ensures p.phase == Shattering ==>
      && p.comboCount == old(p.comboCount) + 1 && cells != []
      && PurseOf(p) == Earn(old(PurseOf(p)), RoundOf(Sizes(cells), p.comboCount, Margin(p.playTime, 0)), p.isServer)
    ensures p.phase != Shattering ==>
      && AtRest(p) && p.matchedBlocks == [] && p.iceBlocks == {}
      && p.comboCount == 0 && PurseOf(p) == old(PurseOf(p)).(rest := 0)
  {
    hide *;
    OpenCheckable(p);
    GroupWaitsIs(p);
    PurseIs(p);
    iceAt := {};
    if HasGroup(p.Coloured()) { CountedOrFew(p); }
    cells := FindGroups(p);
    if p.matchedBlocks != [] {
      r := true;
      iceAt := StartRound(p, cells);
      return;
    }
    r := EndOrPlay(p);
    PurseIs(p);
  }

  /** The check of a board at rest: it starts a round when some group is large enough, ends the game when
      a spawn cell is taken, and lets the game go on otherwise.  Leaving both tests out for fewer than
      four blocks makes no difference. */
  method CheckBoard(p: BasePlayer) returns (r: bool, ghost cells: seq<seq<Cell>>, ghost iceAt: set<Cell>)
    requires Checkable(p)
    modifies p`phase, p`comboCount, p`chain, p`scored, p`matchedBlocks, p`iceBlocks, p`isGameQuit
    modifies p`totalScore, p`restScore, p`totalInterrupt, p`addInterrupt, p`totalEnemyInterrupt, p`hasIceBlock
    modifies p.blockList`recursionCheck, p.blockList`state, p.blockList`effectTime
    ensures Inv(p) && (r <==> p.phase != Playing)
    ensures p.phase ==
      if p.shouldQuit then GameOver
      else if old(GroupWaits(p)) then Shattering
      else if old(SpawnTaken(p)) then GameOver
      else Playing
    ensures p.phase == Shattering ==> p.chain == old(p.chain) + 1
    ensures p.phase == Shattering ==> Clears(p, cells, iceAt, 0.0, false) && TakesRound(old(ViewOf(p)), cells, iceAt)
    ensures p.phase == Shattering ==>
      && p.comboCount == old(p.comboCount) + 1 && cells != []
      && PurseOf(p) == Earn(old(PurseOf(p)), RoundOf(Sizes(cells), p.comboCount, Margin(p.playTime, 0)), p.isServer)
    ensures p.phase != Shattering ==>
      && AtRest(p) && p.matchedBlocks == [] && p.iceBlocks == {}
      && p.comboCount == 0 && PurseOf(p) == old(PurseOf(p)).(rest := 0)
  {
    hide *;
    cells, iceAt := [], {};
    OpenCheckable(p);
    GroupWaitsIs(p);
    PurseIs(p);
    if p.shouldQuit {
      p.phase := GameOver;
      ResetComboState(p);
      FineAfterReset(p);
      CloseGameOver(p);
      r := true;
      return;
    }
    if |p.blockList| < MIN_MATCH_COUNT {
      FewBlocksNoGroup(p);
      FewBlocksSpawnFree(p);
      p.phase := Playing;
      ResetComboState(p);
      FineAfterReset(p);
      ClosePlaying(p);
      r := false;
      return;
    }
    p.matchedBlocks := [];
    r, cells, iceAt := CheckGroups(p);
  }

  /** The same check (LocalPlayer::CheckGameBlockState) as a step of the player's whole state. */
  method CheckGameBlockState(p: BasePlayer) returns (r: bool, ghost cells: seq<seq<Cell>>, ghost iceAt: set<Cell>)
    requires Checkable(p)
    modifies p`phase, p`comboCount, p`chain, p`scored, p`matchedBlocks, p`iceBlocks, p`isGameQuit
    modifies p`totalScore, p`restScore, p`totalInterrupt, p`addInterrupt, p`totalEnemyInterrupt, p`hasIceBlock
    modifies p.blockList`recursionCheck, p.blockList`state, p.blockList`effectTime
    ensures Inv(p) && (r <==> p.phase != Playing)
    ensures p.phase ==
      if p.shouldQuit then GameOver
      else if old(GroupWaits(p)) then Shattering
      else if old(SpawnTaken(p)) then GameOver
      else Playing
    ensures p.phase == Shattering ==> p.chain == old(p.chain) + 1
    ensures p.phase == Shattering ==> Clears(p, cells, iceAt, 0.0, false) && TakesRound(old(ViewOf(p)), cells, iceAt)
    ensures p.phase != Shattering ==>
      && AtRest(p) && p.matchedBlocks == [] && p.iceBlocks == {} && p.totalInterrupt == old(p.totalInterrupt)
    ensures Checked(old(SceneOf(p)), SceneOf(p))
  {
    hide *;
    OpenCheckable(p);
    GroupWaitsIs(p);
    ghost var s := SceneOf(p);
    SceneAtRest(p);
    r, cells, iceAt := CheckBoard(p);
    if p.phase == Shattering {
      SceneFading(p, cells, iceAt);
      CheckedRound(s, SceneOf(p), cells, iceAt);
    } else {
      SceneAtRest(p);
      CheckedOver(s, SceneOf(p));
    }
  }

  /** The state of a board at rest. */
  lemma {:induction false} SceneAtRest(p: BasePlayer)
    requires AtRest(p) && p.matchedBlocks == []
    ensures p.Valid() && p.Wired() && PurseOf(p).rest == p.restScore && PurseOf(p).counters.pending == p.totalInterrupt
    ensures SceneOf(p) == Scene(StillOf(p), NoFade, p.phase, p.comboCount, PurseOf(p), FlagsOf(p), p.playTime)
    ensures SeenOf(p) == StillOf(p) == View(p) && BoardIn(StillOf(p)) == ViewOf(p) && BoardIn(StillOf(p)).colours == p.Coloured()
    ensures SpawnHit(StillOf(p).cells.Keys) <==> !SpawnFree(p)
    ensures FlagsOf(p).shouldQuit == p.shouldQuit && FlagsOf(p).isServer == p.isServer
  {
    hide *;
    OpenRest(p);
    ValidWired(p);
    RestStates(p);
    StillIsView(p);
    SeenIs(p);
    NotFading(p);
    SceneIs(p);
    PurseIs(p);
    BoardSeen(p);
    ViewOfIs(p);
    SpawnSeen(p);
  }

  lemma {:induction false} RestStates(p: BasePlayer)
    requires p.Settled()
    ensures forall b :: b in p.blockList ==> b.state == Stationary
  {
  }

  lemma {:induction false} SceneFading(p: BasePlayer, cells: seq<seq<Cell>>, iceAt: set<Cell>)
    requires Clears(p, cells, iceAt, 0.0, false)
    ensures SceneOf(p)
         == Scene(StillOf(p), Fade.Fade(SetOf(Flat(cells)), iceAt, 0.0, false), p.phase, p.comboCount, PurseOf(p), FlagsOf(p), p.playTime)
  {
    hide *;
    FadeIs(p, cells, iceAt, 0.0, false);
    SeenIs(p);
    SceneIs(p);
  }

  lemma {:induction false} CheckedRound(s: Scene, s': Scene, cells: seq<seq<Cell>>, iceAt: set<Cell>)
    requires !s.flags.shouldQuit && HasGroup(BoardIn(s.view).colours) && TakesRound(BoardIn(s.view), cells, iceAt) && cells != []
    requires s' == s.(phase := Shattering, combo := s.combo + 1, fade := Fade.Fade(SetOf(Flat(cells)), iceAt, 0.0, false),
                      purse := Earn(s.purse, RoundOf(Sizes(cells), s.combo + 1, Margin(s.playTime, 0)), s.flags.isServer))
    ensures Checked(s, s')
  {
    hide HasGroup, TakesRound, BoardIn, Earn, RoundOf, Margin;
    assert RoundStarts(s, s', cells, iceAt);
  }

  lemma {:induction false} CheckedOver(s: Scene, s': Scene)
    requires s.flags.shouldQuit || !HasGroup(BoardIn(s.view).colours)
    requires s' == s.(combo := 0, purse := s.purse.(rest := 0),
                      phase := if s.flags.shouldQuit || SpawnHit(s.view.cells.Keys) then GameOver else Playing)
    ensures Checked(s, s')
  {
    hide HasGroup, BoardIn, SpawnHit;
  }
}
