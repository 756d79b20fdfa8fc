/** The remote player's own check of a board at rest, and its agreement with the local one. */
module RemoteChecks {
  import opened Geometry
  import opened Connectivity
  import opened BlockStates
  import opened Matching
  import opened PuyoBlocks
  import opened Players
  import opened Clearing
  import opened Rounds
  import opened RemoteRounds
  import opened Resting
  import opened Destroying
  import opened LocalPlayers

  /** The groups found start to disappear, with the ice beside them. */
  method StartRound(p: BasePlayer, ghost cells: seq<seq<Cell>>) returns (ghost iceAt: set<Cell>)
    requires AtRest(p) && p.Valid() && AllGroups(p.Coloured(), cells) && AllPlaced(p.Layout(), p.matchedBlocks, cells)
    requires p.matchedBlocks != [] && p.iceBlocks == {} && forall c :: c in p.Marks() <==> InSome(cells, c)
    modifies p`phase, p`comboCount, p`iceBlocks, p.blockList`state, p.blockList`effectTime
    ensures p.phase == Shattering && Clears(p, cells, iceAt, 0.0, false) && TakesRound(old(ViewOf(p)), cells, iceAt)
    ensures p.comboCount == old(p.comboCount) + 1
  {
    hide *;
    ViewOfIs(p);
    p.phase := Shattering;
    p.comboCount := p.comboCount + 1;
    iceAt := StartClearing(p, cells);
    TakesRoundIs(old(ViewOf(p)), cells, iceAt);
  }

  /** RemotePlayer::CheckGameBlockState: like the local player's, without score and without the
      test for the end of the game. */
  method CheckGameBlockState(p: BasePlayer) returns (r: bool, ghost cells: seq<seq<Cell>>, ghost iceAt: set<Cell>)
    requires AtRest(p) && p.Valid() && p.matchedBlocks == [] && p.iceBlocks == {} && p.Marks() == {}
    modifies p`phase, p`comboCount, p`restScore, p`matchedBlocks, p`iceBlocks
    modifies p.blockList`recursionCheck, p.blockList`state, p.blockList`effectTime
    ensures p.phase == Shattering <==> !p.shouldQuit && old(GroupWaits(p))
    ensures p.phase == GameOver <==> p.shouldQuit
    ensures r <==> p.phase != Playing
    ensures p.phase != Shattering ==> AtRest(p) && p.matchedBlocks == []
    ensures p.phase == Shattering ==> p.comboCount == old(p.comboCount) + 1 && p.restScore == old(p.restScore)
    ensures p.shouldQuit || |p.blockList| < MIN_MATCH_COUNT ==> p.comboCount == old(p.comboCount) && p.restScore == old(p.restScore)
    ensures p.phase == Playing && |p.blockList| >= MIN_MATCH_COUNT ==> p.comboCount <= 0 && p.restScore <= 0
    ensures p.phase == Shattering ==>
      Clears(p, cells, iceAt, 0.0, false) && TakesRound(old(ViewOf(p)), cells, iceAt)
  {
    hide *;
    OpenRest(p);
    GroupWaitsIs(p);
    ViewOfIs(p);
    cells, iceAt := [], {};
    if p.shouldQuit {
      p.phase := GameOver;
      return true, cells, iceAt;
    }
    Numbers();
    var blockCount := |p.blockList|;
    if blockCount < MIN_MATCH_COUNT {
      FewBlocksNoGroup(p);
      p.phase := Playing;
      return false, cells, iceAt;
    }
    cells := FindGroups(p);
    if p.matchedBlocks != [] {
      iceAt := StartRound(p, cells);
      return true, cells, iceAt;
    }
    ResetComboState(p);
    p.phase := Playing;
    return false, cells, iceAt;
  }

  /** The cells a round will free are the matched ones and the resting ice beside them. */
  lemma {:induction false} GoneIsFreed(g: Colours, ice: set<Cell>, s: States, cells: seq<seq<Cell>>)
    requires AllGroups(g, cells)
    ensures Freed(g, ice, s, cells, Gone(cells, IceAt(ice, s, cells)))
  {
    forall c
      ensures c in Gone(cells, IceAt(ice, s, cells)) <==> InSome(cells, c) || Beside(ice, s, Flat(cells), |Flat(cells)|, 0, c)
    {
      InFlat(cells, c);
      CollectedIce(ice, s, cells, c);
    }
  }

  /** Local and remote player, checking equal boards, clear the same cells: the same matched ones and
      the same ice. */
  lemma {:induction false} ChecksAgree(g: Colours, ice: set<Cell>, s: States, local: seq<seq<Cell>>, remote: seq<seq<Cell>>)
    requires AllGroups(g, local) && AllGroups(g, remote)
    ensures SetOf(Flat(local)) == SetOf(Flat(remote)) && IceAt(ice, s, local) == IceAt(ice, s, remote)
    ensures Gone(local, IceAt(ice, s, local)) == Gone(remote, IceAt(ice, s, remote))
  {
    forall c
      ensures c in Flat(local) <==> c in Flat(remote)
    {
      ScansAgree(g, local, remote, c);
      InFlat(local, c);
      InFlat(remote, c);
    }
    forall c
      ensures c in IceAt(ice, s, local) <==> c in IceAt(ice, s, remote)
    {
      CollectedIce(ice, s, local, c);
      CollectedIce(ice, s, remote, c);
      forall d ensures InSome(local, d) <==> InSome(remote, d) { ScansAgree(g, local, remote, d); }
    }
    GoneIsFreed(g, ice, s, local);
    GoneIsFreed(g, ice, s, remote);
    FreedAgree(g, ice, s, local, Gone(local, IceAt(ice, s, local)), remote, Gone(remote, IceAt(ice, s, remote)));
  }
}
