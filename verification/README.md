# Puyo: a verified model of the board, the phases, the garbage and the chat box

This project models the game logic of a two-player Puyo game in Dafny and proves what it keeps over
whole games.  `dafny verify dfyconfig.toml` checks it.

## What is modelled

* **The board engine.**  A player (`Players.BasePlayer`) holds the 6 x 13 board (`array2<Block?>`), the list
  of blocks in update order, the matched groups, the collected ice, the phase and the counters.  A block
  (`PuyoBlocks.Block`) has its colour or ice, state, link mask, recursion mark, board index, pixel row and
  speed.  The flood fill, the scan for groups, link masks, ice collection, clear rounds, falling, landing,
  sorting and ice drops are methods that change these objects in place, each proved against a value
  function or against the definition of what it promises.
* **The phase machine.**  `LocalPlayers.Inv` is kept by every step: a new game, placing a control group, a
  frame of falling or disappearing blocks, the logic of each phase, an arriving attack, the end of the
  opponent's chain, an answer with the pending count, a lost game.  `Scenes` gives a player's whole state as a value
  and every step as a relation between such values, in terms of colour components, stacks and columns; each
  method is proved to make exactly such a step, so a game is a run of this machine (`Play`).
* **Score and garbage.**  8-, 16- and 32-bit conversions are written out.
* **The remote player** clears and checks in code of its own; both versions are proved to agree.
* **Two machines.**  The attack and defence packets are method calls between the four players of two machines.
* **The chat box** wraps UTF-8 text (RFC 3629) greedily and keeps the last fifty messages.

The files from the bottom up: `Geometry`, `Connectivity`, `Matching`, `BasePlayer` (blocks, players, flood fill
and scan), `Links`, `Clearing`, `Rounds`, `RemoteRounds` (clear rounds), `Falling`, `FallSpeed`, `FallingLimits`,
`Gravity`, `Settling`, `Sorting`, `Resting`, `FallingOrder` (falling and rest), `Scoring`, `Garbage`, `Ledger` (score,
drops, conservation), `Destroying`, `Scenes`, `Driving`, `LocalPlayer`, `LocalSteps`, `LocalFrames`,
`LocalPush`, `LocalGame`, `Smoothness`, `Compaction` (the phase machine and whole rounds), `Overtaking`, `SortedRuns`, `OvertakingLimits`,
`RoundAgreement` (falls in which coloured blocks overtake ice), `Targets`, `Progress`, `Games`, `Accounts` (whole games), `RemoteChecks`, `Agreement` (both
players in step), `Mirror`, `Conservation` (two machines), `EditBox`.

## Main results

* The scan returns exactly the colour components of at least four cells, each once, whatever direction the
  fill skips and wherever a row is left early (`FindMatchedBlocks`).
* After every step of every game (`Play`) `Inv` holds: list and board agree, columns are packed whenever nothing moves,
  `Playing` implies free spawn cells and exact link masks, `Shattering` implies that the combo count is the
  length of the chain and at most 19, and `GameOver` is not left.  In frames of at most 1/50 unit of time no
  frame stops a game unless ice is under a falling coloured block or has no room; besides frames only an
  impossible control group can (`Possible`).
* Every game is a run of the state machine of `Scenes` (`Play`).  In short frames that last long enough every chain and
  every drop ends, and play goes on or the game is over (`EverythingEnds`, `LeaveAlone`).  A game is lost on the board
  only with a spawn cell taken (`LostOnTheBoard`).
* Over every game the coloured blocks that have come down are on the board or were taken by rounds, each of those
  has earned ten points at least, and the total score is the sum of all points in 32 bits (`AccountsBalance`).
* A clear round followed by its fall is stable column compaction (`PlayRound`), on any frames up to the first that
  does not meet the hypotheses below.  In short frames there is none, and the round ends, if no ice loses its
  support under a coloured block.  Exactly then every run keeps order and distances (`RoundOrderIff`).
* List and board go on agreeing for longer than the order does.  If each ice that loses its support has at least as
  many freed cells below it as coloured survivors above it, they agree in every run of frames of at most 1/50 unit
  of time, and the fall ends; if it has more, in every run that moves nothing by more than a cell; the list may
  be sorted after any frame (`RoundAgrees`, `SortedBoardAgrees`, `SortedBoardAgreesWithSpare`).  This holds in one
  direction: the conditions are sufficient, and not claimed to be necessary.  They cannot simply be relaxed: one coloured
  block more can break a run of ten short frames (`BuriedIceIsLostInShortFrames`), and with no cell to spare one long
  frame can (`TightIceIsLost`).
* Falls and fades end: a matched group in the first frame that brings its time to one unit (`FadeOut`), a fall in
  short frames within 310 units of time, without ice within 31/51 (`ShortFallEnds`, `FallIsOver`).
* From boards that look alike, the check and the round of the local and of the remote player end with boards, lists
  and falling blocks that look alike (`RoundsInStep`).  A fall in order has one outcome however the time is cut into
  frames (`FallsAgree`), so the two need not share a clock.
* However matches and drops of two players alternate, the server's received garbage is pending, cancelled or on
  the board; the client's is exactly as long as the server's count of it is right whenever the client
  defends (`BothConserve`), which is exactly as long as it never defends first after a drop (`ConservedIff`).
  The counters of a player in a chain are those of its rounds over unbounded integers, nothing is lost in
  carrying, and at one price it attacks as if its score were rounded once (`ChainCarries`).  A round scores exactly
  the groups that it takes, at its place in the chain and the price of the time (`RoundStarts`, `EarnLaw`).  Every match
  keeps all mirrored counters right (`MirrorsHold`).
* The lines of a wrapped text are the text, split at code points only, as few as possible
  (`MessagesAreTheText`).

## Where the code does not do what it seems to promise

Each has a lemma with a concrete input or the exact condition.

* **A coloured block falls through ice.**  Coloured blocks accelerate by `63 - y` per unit of time, ice by
  `0.1 * (13 - y)` (src/game/block/Block.cpp:226, src/game/block/IceBlock.cpp:78-80).  A fall from rest keeps
  order and distances in every run exactly when no coloured block is above ice (`OrderKeptIff`); with two
  coloured blocks above ice one of them is lost from the board while it stays in the list, in a run of long frames
  (`BuriedIceIsLost`) and in one of frames of 1/50 (`BuriedIceIsLostInShortFrames`).
* **The link bit flipped when a block starts to fall is the wrong one** (src/game/block/Block.cpp:432-482
  against src/game/system/BasePlayer.cpp:236-290): every other block, beside or below, has its bit for the
  departed one exactly if it had it before (`FallKeepsStaleBit`).  The masks are recomputed once everything has landed.
* **The unsigned maximum in the remote player's defence never takes effect** (`DefendedIff`).
* **Dropped ice comes back.**  The server's count of the client's pending ice is not lowered when the client
  drops ice (`ClientDropNotMirrored`), so after any drop the client's next defence makes all of it pending again
  (`DroppedIceComesBack`).  A defence leaves the right count exactly when the server's count was right
  (`DefenceRightIff`).  A small drop of whole rows is not sent to the other machine
  (`ServerDropMirroredIff`).
* **The attack counter has 16 bits**: an attack is counted right exactly below 2^15 blocks
  (`AttackCounterExact`), and so is the sum with what is pending (`ReceivedFits`).
* `should_quit` of the player state is read but nowhere set; the model keeps both branches.
* Groups of five to seven blocks earn less link bonus than the table suggests, because it is indexed from
  four (src/game/system/BasePlayer.cpp:406-422), and the type bonus counts groups, not colours; both as in the code.

## Hypotheses

* Pixel positions, speeds and times are real numbers; the cut to whole pixels in the collision test is kept.
* A control group lands on the cells that are marked for it (`UpdateTargetPosIdx`), which are the lowest free
  ones of its columns.
* A frame of a fall moves nothing by more than one cell, new ice has room in its columns, and no coloured
  block is above falling ice (`Smooth`).  `Play`, `FallDown` and `PlayRound` stop at the first frame for which this
  fails, and `IsSmooth` decides it.  The last two parts are kept by every frame of a fall (`MoveBlocks`, `Resort`), so
  they are conditions on its start; `RoundFitsIff` and `DropFitsIff` say exactly when they hold there.  The first
  part holds in every frame of at most 1/50 unit of time (`ShortFallEnds`).
* Packets are delivered at once, and a match and its bullets are one step (`MatchOnServer`, `MatchOnClient`).
* For `MessagesAreTheText` the chat font measures a well-formed text as the sum of its code points; the other
  wrapping lemmas hold for any font.

## Model

| member | source | states |
|---|---|---|
| Geometry.AdjacentByDirection | src/game/system/BasePlayer.cpp:1003-1048 | looking in the four directions of the table finds exactly the adjacent cells |
| Matching.FilledExtends | src/game/system/BasePlayer.cpp:1003-1048 | a fill from an unmarked same-colour neighbour completes that direction and lists no cell twice |
| Matching.FillIsComponent | src/game/system/BasePlayer.cpp:609-660 | a complete fill from an unmarked block is the whole colour component of that block, each cell once |
| Matching.FillUndone | src/game/system/BasePlayer.cpp:640-655 | taking back the marks of a rejected fill leaves all marks as they were |
| Matching.RowDone | src/game/system/BasePlayer.cpp:609-660 | leaving a row once as many blocks were met as the list holds misses nothing |
| Players.BasePlayer.RecursionCheckBlock | src/game/system/BasePlayer.cpp:1003-1048 | returns as many blocks as it appends: exactly those newly marked, all connected to the start, and leaves no direction of any of them open; skipping the direction it came from changes nothing |
| Players.BasePlayer.MatchFrom | src/game/system/BasePlayer.cpp:625-655 | a group of at least four is kept with its marks, a smaller one is fully unmarked |
| Players.BasePlayer.FindMatchedBlocks | src/game/system/BasePlayer.cpp:609-660 | returns all colour components of at least four cells and nothing else, each once and disjoint; the marks are exactly their cells |
| LinkMasks.JoinedExact | src/game/system/BasePlayer.cpp:236-290 | resetting and updating one block makes its mask exact and spoils no exact mask, in any order of blocks |
| LinkMasks.PushKeepsExact | src/game/system/LocalPlayer.cpp:452-464 | updating only the newly placed block gives the masks of a full recompute |
| LinkMasks.LinkedByBitsIffConnected | src/game/system/BasePlayer.cpp:236-290 | with exact masks two blocks are in one group exactly when a path of link bits joins them |
| LinkMasks.NoBitForCleared | src/game/system/BasePlayer.cpp:609-660 | clearing all matched groups leaves no survivor with a link bit for a cleared cell |
| LinkStates.UpdateLinkState | src/game/system/BasePlayer.cpp:236-290 | gives the block and its same-colour neighbours the bits for each other and changes no other mask |
| LinkStates.UpdateBlockLinks | src/game/system/BasePlayer.cpp:374-384 | every coloured block at rest ends with exactly the bits of its same-colour neighbours, in whatever list order |
| LinkStates.UpdateLinkStateForDownMoving | src/game/system/BasePlayer.cpp:352-372 | the mask of a block that starts to fall is emptied and one bit of each same-kind block beside it is flipped (src/game/block/Block.cpp:432-482) |
| LinkStates.FallFlips | src/game/system/BasePlayer.cpp:352-372 | exactly these bits change: its own all go, and if it had one to a side, the block to its left flips the bit called right and the one to its right the bit called left (src/game/block/Block.cpp:432-482) |
| LinkStates.FallKeepsStaleBit | src/game/system/BasePlayer.cpp:352-372 | from exact masks, the falling block has no bit left, and every other coloured block has its bit for it exactly if the two were linked (src/game/block/Block.cpp:432-482) |
| Clearing.CollectRemoveIceBlocks | src/game/system/BasePlayer.cpp:1051-1104 | collects the resting ice beside matched cells, each block once, and sets exactly it disappearing |
| Clearing.CollectedIce | src/game/system/BasePlayer.cpp:1051-1104 | collected is resting ice adjacent to a matched cell, and all of it |
| Rounds.UpdateFallingBlocks | src/game/system/BasePlayer.cpp:352-372 | sets falling exactly the blocks with a freed cell below them in their column |
| Rounds.RemoveBlock | src/game/system/BasePlayer.cpp:329-350 | takes one block off the board and the list, order kept, and nothing else |
| Rounds.RemoveIceBlocks | src/game/system/BasePlayer.cpp:826-843 | all collected ice leaves the board and the list, and its cells are reported |
| Rounds.TakeGroups | src/game/system/LocalPlayer.cpp:176-247 | when the groups have played out, exactly their blocks and the collected ice leave board and list, the ice with the first group; before that nothing changes |
| RemoteRounds.HandleClearedBlockGroup | src/game/system/RemotePlayer.cpp:278-297 | one cleared group leaves board and list, the collected ice with the first one |
| RemoteRounds.UpdateMatchedBlocks | src/game/system/RemotePlayer.cpp:240-276 | the remote round has the outcome that the local round has: freed cells empty, list order kept, everything above them falling |
| RemoteRounds.ScansAgree | src/game/system/RemotePlayer.cpp:387-404 | two complete scans of one board match the same cells in the same groups |
| RemoteRounds.FreedAgree | src/game/system/RemotePlayer.cpp:240-297 | whatever the order of the groups, the same cells are freed |
| RemoteRounds.ListAfter | src/game/system/BasePlayer.cpp:329-350 | the remaining list names the remaining cells in their old order |
| RemoteRounds.RoundsAgree | src/game/system/RemotePlayer.cpp:240-297 | two finished rounds from equal boards and lists that freed what complete scans take leave equal boards, lists and falling blocks |
| RemoteChecks.CheckGameBlockState | src/game/system/RemotePlayer.cpp:370-415 | starts a round exactly when some group has four cells, with exactly all large enough groups and the resting ice beside them, and counts it; resets the chain only after a search without a group; never tests for the end of the game |
| RemoteChecks.ChecksAgree | src/game/system/RemotePlayer.cpp:370-415 | two complete scans of equal boards clear the same matched cells and the same ice |
| Agreement.LocalRound | src/game/system/LocalPlayer.cpp:176-247 | the local check and round, from the board that can be seen before to the board after |
| Agreement.RemoteRound | src/game/system/RemotePlayer.cpp:240-297 | the remote check and round, with the same outcome |
| Agreement.RoundsInStep | src/game/system/RemotePlayer.cpp:240-297 | from boards that look alike, with lists in the same order, both players start a round or neither does, and after it boards, lists and falling blocks look alike again and the two falls start from one and the same state |
| Agreement.ViewsAlike | src/game/block/IceBlock.cpp:76-153 | two players that look alike when blocks are about to fall agree in everything that the fall goes by |
| FallingOrder.FallsAgree | src/game/system/BasePlayer.cpp:125-146 | from one state about to fall in order, any two runs of frames that come to rest end in the same board and list |
| Falling.TopRowHit | src/utils/RectUtil.hpp:7-16 | with rectangles cut to whole pixels, a block that has sunk less than a cell into a stack hits its top block first |
| Falling.OutcomeIs | src/game/block/IceBlock.cpp:76-153 | in a frame of at most one cell a falling block lands exactly on the height of its column or is still above it, and only the lowest one of a column lands |
| Falling.LowerIsFasterIff | src/game/block/IceBlock.cpp:76-80 | the lower of two falling blocks accelerates at least as much exactly when no coloured block is above ice |
| Falling.StepKeeps | src/game/block/IceBlock.cpp:76-153 | one update keeps list and board in agreement, order, a distance of at least one block, stacks and room, and takes no occupied cell |
| Falling.FrameKeeps | src/game/system/BasePlayer.cpp:125-146 | so does a frame of all blocks in list order |
| Falling.RunKeeps | src/game/system/BasePlayer.cpp:125-146 | so does any sequence of frames in which nothing moves by more than one cell, and no distance shrinks while both blocks fall |
| Falling.FrameGaps | src/game/block/IceBlock.cpp:76-83 | in a frame of a fall in order, no two blocks that go on falling come closer to each other |
| Falling.RestIsCompact | src/game/block/IceBlock.cpp:130-151 | at rest the row of a block is the number of blocks listed before it in its column |
| Falling.FallCompacts | src/game/block/IceBlock.cpp:76-153 | a fall that comes to rest has turned list order into vertical order without a gap |
| FallingLimits.GapsKeptIff | src/game/block/IceBlock.cpp:78-80 | in a single frame from rest, distances do not shrink exactly when no coloured block is above falling ice |
| FallingLimits.BuriedIceStart | src/game/block/IceBlock.cpp:76-153 | ice under two coloured blocks is a legal start of a fall |
| FallingLimits.BuriedIceIsLost | src/game/block/IceBlock.cpp:76-153 | from there four frames end with a listed block whose cell the board gives to the ice |
| Gravity.FindCollision | src/game/block/IceBlock.cpp:101-122 | finds the lowest resting block of the column that the moved rectangle overlaps |
| Gravity.Land | src/game/block/IceBlock.cpp:130-151 | a landed block gives up its old cell, if it had one, and takes the cell of its row |
| Gravity.UpdateDownMoving | src/game/block/IceBlock.cpp:76-153 | is the value step that the fall theorems are about, for coloured blocks and ice |
| Gravity.Update | src/game/system/BasePlayer.cpp:135-141 | a frame of all falling blocks is the value frame and keeps the fall invariant, the room and the order |
| Settling.RoundStartsFall | src/game/system/LocalPlayer.cpp:243-246 | what a round leaves can start to fall: everything in its row, resting blocks supported |
| Settling.HeightsUnique | src/game/block/IceBlock.cpp:76-153 | the landing heights are the heights of the resting stacks |
| Sorting.SortBlocks | src/game/system/LocalPlayer.cpp:251 | the list is a permutation of itself ordered by row, then column |
| Sorting.SortList | src/game/system/LocalPlayer.cpp:466 | sorting changes no cell, colour or mask and lists every column from the floor up |
| Sorting.ResortKeepsFall | src/game/system/LocalPlayer.cpp:251 | sorting in the middle of a fall keeps the fall invariant |
| Resting.RestFalls | src/game/system/LocalPlayer.cpp:176-316 | a packed board at rest satisfies the fall invariant |
| Resting.FallRests | src/game/system/LocalPlayer.cpp:253-262 | when nothing moves any more every column is packed, in list order |
| Resting.GameOverIff | src/game/system/BasePlayer.cpp:845-854 | the test for the end of the game holds exactly when one of the four spawn cells is taken |
| Resting.FewBlocksSpawnFree | src/game/system/LocalPlayer.cpp:800-805 | with fewer than four blocks on a packed board no spawn cell is taken, so the test may be left out |
| Scoring.ComboConstantMonotone | src/game/system/BasePlayer.cpp:386-404 | the combo bonus never falls, and from the second round on grows, up to 19 rounds |
| Scoring.ComboLaw | src/game/system/BasePlayer.cpp:386-404 | the combo bonus is 0 in the first round, 8 in the second, doubles in each of the next three and grows by 32 in each later one up to the nineteenth |
| Scoring.LinkLaw | src/game/system/BasePlayer.cpp:406-422 | a group of up to seven blocks has no link bonus, one of eight has 2, each of the next two sizes one more, and a larger one 10 |
| Scoring.TypeLaw | src/game/system/BasePlayer.cpp:424-431 | two groups earn a bonus of 3, and each further one up to the fifth doubles it |
| Scoring.MarginSchedule | src/game/system/BasePlayer.cpp:433-446 | the price starts at 70 and changes every 16 units of time from 96 on: it falls twice by 18, then twice by half as much as before, and so on, and is 1 after 256 (src/core/common/constants/Constants.hpp:46-60) |
| Scoring.FourInRound | src/game/system/LocalPlayer.cpp:857-865 | what a group of four is worth in each round of a chain: 40, then 40 times one more than the bonus |
| Scoring.GroupInFirstRound | src/game/system/LocalPlayer.cpp:857-865 | what a single group of any size is worth in the first round |
| Scoring.FoursInFirstRound | src/game/system/LocalPlayer.cpp:857-865 | what any number of groups of four are worth in the first round |
| Scoring.TenPerBlock | src/game/system/LocalPlayer.cpp:857-865 | every matched block is worth ten points at least, and in a later round as many times more as the bonus of the round says |
| Scoring.Margin | src/game/system/BasePlayer.cpp:433-446 | the price of an ice block is between 1 and 70 |
| Scoring.MarginSelects | src/game/system/BasePlayer.cpp:433-446 | the price is that of the first entry of the table whose time has not passed, and 1 after the last |
| Scoring.MarginFalls | src/game/system/BasePlayer.cpp:433-446 | ice never gets dearer in the course of a game |
| Scoring.LinkBonusBound | src/game/system/BasePlayer.cpp:406-422 | the link bonuses of all groups add up to at most the number of blocks |
| Scoring.SumGroups | src/game/system/LocalPlayer.cpp:852-865 | the two 8-bit accumulators hold the exact sums for groups that fit on the board |
| Scoring.ScoreBound | src/game/system/LocalPlayer.cpp:852-865 | a round on this board scores between 0 and 479700 points |
| Scoring.RoundExact | src/game/system/LocalPlayer.cpp:867-868 | from a remainder below 70, the 32-bit unsigned quotient and remainder are those over the integers, and the new remainder is below 70 again |
| Scoring.CalculateScore | src/game/system/LocalPlayer.cpp:852-872 | points, remainder, pending ice, attack and count of the opponent's ice become those that the round of the matched groups makes of them; `EarnLaw` says in closed form what that is |
| Scoring.UpdateInterruptBlockState | src/game/system/LocalPlayer.cpp:875-908 | offsets pending ice and attack; the flag says whether ice is pending |
| Scoring.CarryLosesNothing | src/game/system/LocalPlayer.cpp:867-870 | attacks at their price and the last remainder add up to all points and the first remainder, whatever the margins |
| Scoring.RoundedOnce | src/game/system/LocalPlayer.cpp:867-870 | with one margin a chain attacks as if its whole score were divided once |
| Scoring.CountedExactly | src/game/system/LocalPlayer.cpp:867 | the 16-bit attacks of a chain add up to the exact ones as long as each is below 2^15 blocks |
| Scoring.AttackCounterExact | src/game/system/LocalPlayer.cpp:867 | the 16-bit counter is right exactly below 2^15 blocks |
| Garbage.DropIsExact | src/game/system/BasePlayer.cpp:725-803 | a drop has min(pending, 30) blocks in different places, bottom-up in each column |
| Garbage.DrainedAfter | src/game/system/BasePlayer.cpp:691-803 | pending ice is used up after exactly its thirtieths, rounded up, drops |
| Garbage.ColumnDropIs | src/game/system/BasePlayer.cpp:746-799 | each column gets one block of every full row and one more exactly if the incomplete row reaches it |
| Garbage.DropStartsFall | src/game/system/BasePlayer.cpp:806-824 | ice dropped above a board at rest falls in order, whatever the heights |
| Garbage.DropRoomIff | src/game/system/BasePlayer.cpp:691-803 | a drop has room exactly when no column it reaches is filled beyond its top |
| Garbage.CreateRows | src/game/system/BasePlayer.cpp:736-743 | new ice row by row, left to right, at the end of the list |
| Garbage.ChooseColumns | src/game/system/BasePlayer.cpp:771-783 | as many different columns as asked for, any of them |
| Garbage.GenerateIceBlocks | src/game/system/BasePlayer.cpp:691-803 | in Playing with ice pending: exactly one drop is added above the board, pending falls by it, the phase becomes IceBlocking; otherwise nothing happens |
| Ledger.AddInterruptBlock | src/game/system/BasePlayer.cpp:471-487 | an attack is added to the pending ice, in 16 bits, and the flag follows |
| Ledger.OffsetLaw | src/game/system/LocalPlayer.cpp:875-908 | pending becomes max(0, T - A), A - T goes out exactly when T <= A, and the server books it for the client |
| Ledger.EarnLaw | src/game/system/LocalPlayer.cpp:865-908 | attack times price and new remainder are the points and the old remainder, the remainder is below the price; an attack A below 2^15 leaves max(0, T - A) pending, sends A - T on exactly if T <= A, and the server books that |
| Ledger.GarbageConserved | src/game/system/BasePlayer.cpp:691-803 | over every run in which the 16-bit counter fits and every answer gives the player's own count: received = pending + cancelled + dropped, and pending is never negative |
| Ledger.ReceivedFits | src/game/system/BasePlayer.cpp:471-475 | an arriving attack keeps the balance exactly when the 16-bit sum fits |
| Ledger.AnswerFits | src/states/GameState.cpp:875-904 | an answer keeps the balance exactly when it gives the count that the player has |
| Conservation.MoveConserves | src/game/system/LocalPlayer.cpp:875-908 | every match or drop of either player keeps the server's book balanced, and the client's exactly when a defending client is told the right count |
| Conservation.BothConserve | src/game/system/BasePlayer.cpp:691-803 | however matches and drops alternate, the server's garbage is conserved, and the client's is all along exactly when the server's count of it was right at every defence |
| Conservation.ConservedIff | src/game/system/LocalPlayer.cpp:516-526 | from right counts, the client's garbage is conserved all along exactly when no defence of the client follows one of its drops without another match of the client in between |
| Conservation.AheadIffOpen | src/game/system/LocalPlayer.cpp:516-526 | over every run the server's count of the client is ahead exactly when the client has dropped ice since its last match |
| Conservation.DroppedIceComesBack | src/game/system/LocalPlayer.cpp:516-523 | after a client drop of any size, and any sequence of matches and drops of the server, the next defence makes all the dropped ice pending again |
| Conservation.AheadBy | src/game/system/LocalPlayer.cpp:516-526 | the server's count of the client's ice runs ahead by exactly what the client has dropped since its last match |
| Destroying.GroupsFit | src/game/system/LocalPlayer.cpp:859-863 | matched groups are disjoint on the board, so they hold at most 78 blocks together |
| Destroying.UpdateDestroying | src/game/system/LocalPlayer.cpp:184-190 | a disappearing block is over exactly in a frame that brings its time to one unit (src/game/block/Block.cpp:163-222), although the code goes by an angle of rotation |
| Destroying.UpdateFading | src/game/system/LocalPlayer.cpp:184-190 | all matched blocks are over in the same frame |
| Destroying.FadeOut | src/game/system/LocalPlayer.cpp:184-190 | frame by frame, the matched groups are over in the first frame that brings their time to one unit, and this frame comes exactly if the frames last that long |
| Destroying.StartClearing | src/game/system/LocalPlayer.cpp:809-825 | after a match the matched blocks and the resting ice beside them disappear, everything else rests |
| Destroying.ClearsReady | src/game/system/LocalPlayer.cpp:186-190 | all groups have played out or none has |
| Destroying.RoundEnds | src/game/system/LocalPlayer.cpp:176-247 | after a round nothing is marked or matched, and the list is shorter by the cleared blocks |
| LocalPlayers.PlayingIsSafe | src/game/system/LocalPlayer.cpp:786-840 | in Playing the spawn cells are free, the board is at rest and all masks are exact |
| LocalPlayers.ChainIsBounded | src/game/system/BasePlayer.cpp:662-678 | in Shattering the combo count is the number of rounds of the chain, between 1 and 19 |
| LocalPlayers.ChainCarries | src/game/system/LocalPlayer.cpp:852-872 | in every chain of a game the player's own fields carry without loss: each round has the points of its groups at its place in the chain, ten at least for every block taken; attacks at their prices and the remainder add up to the points, the total has grown by exactly these in 32 bits, and at one price the attacks add up to the points divided once |
| LocalPlayers.ProcessGameOver | src/game/system/LocalPlayer.cpp:754-771 | ends the game exactly when a spawn cell is taken |
| LocalPlayers.EndOrPlay | src/game/system/LocalPlayer.cpp:826-839 | without a match the chain is reset and the game ends exactly when a spawn cell is taken |
| LocalPlayers.StartRound | src/game/system/LocalPlayer.cpp:809-825 | a match counts one more round; points, remainder, pending ice and attack become those of the round of exactly these groups at this place of the chain and at the price of the time; exactly the given groups and all resting ice beside them are taken; the invariant of Shattering holds |
| LocalPlayers.CheckGameBlockState | src/game/system/LocalPlayer.cpp:786-840 | gives the phase exactly: the end if the player quits, Shattering if some group has four cells, the end if a spawn cell is taken, Playing otherwise; a round takes exactly all large enough groups and the resting ice beside them and is scored for them; otherwise combo and remainder are reset and nothing else changes; the shortcut for few blocks changes nothing |
| LocalSteps.DropFitsIff | src/game/system/BasePlayer.cpp:691-803 | a drop starts an orderly fall exactly when its columns have room |
| LocalSteps.DropIce | src/game/system/BasePlayer.cpp:691-723 | a drop keeps the invariant and puts exactly the dropped blocks above the board, as many as are no longer pending |
| LocalSteps.DropOrNext | src/game/system/LocalPlayer.cpp:275-287 | ice comes down exactly if it is pending and no attack is being answered |
| LocalSteps.UpdateIceBlockPhase | src/game/system/LocalPlayer.cpp:147-174 | IceBlocking lasts while something moves and then becomes GameOver exactly if a spawn cell is taken |
| LocalSteps.IcePhase | src/game/system/LocalPlayer.cpp:147-174 | the same for the whole state of the player, of which only the phase changes |
| LocalSteps.ClearGroups | src/game/system/LocalPlayer.cpp:176-247 | a round ends with the freed cells empty and everything above them falling, or nothing has happened yet |
| LocalSteps.UpdateMatched | src/game/system/LocalPlayer.cpp:176-247 | when the groups are over, a round is done: exactly their cells and the collected ice are freed and everything above falls; before that nothing changes |
| LocalSteps.GroupPhase | src/game/system/LocalPlayer.cpp:176-247 | the same for the whole state of the player: the list is what survives, in its order, falling exactly above freed cells, and nothing else changes |
| LocalSteps.Resort | src/game/system/LocalPlayer.cpp:251 | sorting in every frame keeps the fall, its order and its room |
| LocalSteps.BoardCleared | src/game/system/LocalPlayer.cpp:291-313 | after an all-clear the game is over if the player quits, pending ice comes down unless an attack or a defence goes on, and otherwise the next blocks are played; the combo count stays |
| LocalSteps.CheckSettled | src/game/system/LocalPlayer.cpp:264-289 | masks recomputed, then exactly: the next round of the chain if a group waits, the end if a spawn cell is taken, a drop if ice is pending and neither an attack nor a defence goes on, play otherwise |
| LocalSteps.UpdateSettling | src/game/system/LocalPlayer.cpp:249-315 | in every frame the list is sorted; while something falls nothing else happens; when everything rests, the board is checked, with the outcome that `SettledOutcome` describes |
| Scenes.SettledOutcome | src/game/system/LocalPlayer.cpp:249-315 | once everything rests: the next round of the chain if some group is large enough, the end if the player quits or a spawn cell is taken, min(30, pending) ice blocks if ice is pending and neither an attack nor a defence goes on, and play otherwise; an empty board keeps the combo count |
| LocalFrames.IceFallKeepsColours | src/game/block/IceBlock.cpp:76-153 | while only ice falls no colour changes, so exact masks stay exact |
| LocalFrames.MoveBlocks | src/game/system/BasePlayer.cpp:125-146 | a frame of moving blocks keeps the fall, the masks, and everything of a board at rest |
| LocalFrames.UpdateBlocks | src/game/system/BasePlayer.cpp:125-146 | a frame keeps the invariant of every phase; it moves the blocks as the value frame does, or brings the matched groups nearer to their end by its length and changes nothing else |
| LocalPush.PlaceBlock | src/game/system/LocalPlayer.cpp:452-464 | a placed block is on list and board, nothing else moves, and all masks are exact |
| LocalPush.PlaceGroup | src/game/system/LocalPlayer.cpp:452-466 | after both blocks the board is at rest with exact masks and exactly two more colours |
| LocalPush.PushBlockInGame | src/game/system/LocalPlayer.cpp:442-502 | keeps the invariant; gives the phase exactly: a round if the two blocks complete a group of four, the end if one of them lies on a spawn cell, a drop if ice is pending and no chain of the opponent goes on, play otherwise; a round that leaves ice pending puts the ice off, but not twice in a row |
| LocalPush.CheckAndGoOn | src/game/system/LocalPlayer.cpp:471-502 | the same decision for any board at rest, with what it does to the pending count, to the length of the list and to the defence |
| LocalGame.StartGame | src/game/system/LocalPlayer.cpp:31-92 | a new game satisfies the invariant |
| LocalGame.PlayingIsSmooth | src/game/system/LocalPlayer.cpp:131-136 | while the player is thinking every frame is harmless |
| LocalGame.ReceiveAttack | src/game/system/BasePlayer.cpp:471-487 | an attack in any phase is added to the pending ice in 16 bits and holds ice back, changes nothing else, and keeps the invariant |
| LocalGame.StopCombo | src/states/GameState.cpp:906-918 | the end of the opponent's chain in any phase no longer holds ice back, changes nothing else, and keeps the invariant |
| LocalGame.SetPending | src/states/GameState.cpp:875-904 | an answer in any phase sets the pending count, changes nothing else, and keeps the invariant |
| LocalGame.UpdateGameLogic | src/game/system/LocalPlayer.cpp:119-145 | makes exactly the step of the phase: nothing in Playing and GameOver; from IceBlocking at rest to GameOver or Playing; in Shattering the end of the groups in the frame in which they are over, and afterwards sorting, settling and the next check |
| Targets.FindTarget | src/game/system/LocalPlayer.cpp:590-611 | finds the lowest free row of a column, passing over the cell marked for the other block |
| Targets.UpdateTargetPosIdx | src/game/system/LocalPlayer.cpp:567-622 | on a packed board both marked cells are free, different, in the order of the group and leave every column packed; both exist exactly if the columns have two free cells |
| Smoothness.ColumnParts | src/game/block/IceBlock.cpp:130-151 | a column holds its resting stack, whose height is its number of resting blocks, and its falling blocks |
| Smoothness.SmoothIff | src/game/block/IceBlock.cpp:76-153 | the hypotheses on a frame hold exactly if they hold of every single block: no step over a cell, new ice in a column of at most 13, only ice above falling ice |
| Smoothness.IsSmooth | src/game/system/BasePlayer.cpp:125-146 | decides before a frame whether the hypotheses on it hold |
| Games.PlayGroup | src/game/system/LocalPlayer.cpp:442-502 | a control group comes down exactly if its columns have room, on their lowest free cells, and is followed by the check of the board, a round, a drop, the end or further play as `GroupStep` says; nothing else changes |
| Games.PlayFrame | src/states/GameState.cpp:203-223 | a frame is exactly the step of the blocks and then that of the phase, in every phase |
| Games.PlayInput | src/states/GameState.cpp:203-223 | a frame, a control group, an attack, the end of the opponent's chain, an answer with the pending count, or a loss happens exactly if it can, and makes exactly its step of the player's state |
| Games.Play | src/game/system/LocalPlayer.cpp:119-145 | any sequence of inputs, up to the first that cannot happen, is a run of the state machine, and keeps the invariant: Playing means free spawn cells, a board at rest and exact masks; Shattering a chain of 1 to 19 rounds, as the combo count says; GameOver stays; if all frames are short, a frame is refused only when a coloured block would fall above ice or ice has no room |
| Games.LeaveAlone | src/states/GameState.cpp:203-223 | left alone for long enough in short frames, every game comes to Playing or GameOver, unless ice is under a falling coloured block or has no room |
| Progress.StageStep | src/game/system/LocalPlayer.cpp:119-145 | a frame stays in its part of the chain, for at most 310 units of time, or goes on to a later one |
| Progress.EverythingEnds | src/game/system/LocalPlayer.cpp:119-145 | every run of short frames that lasts long enough ends in Playing or GameOver: at most nineteen rounds disappear and fall, and at most one drop follows |
| Accounts.AccountsBalance | src/game/system/LocalPlayer.cpp:176-315 | over every game: coloured blocks on the board and blocks taken by rounds are the blocks that have come down; the points are ten at least for each block taken; the total score is the sum of the points in 32 bits |
| Accounts.LostOnTheBoard | src/game/system/LocalPlayer.cpp:754-771 | over every game without a loss from outside, the game is over only after a spawn cell was taken |
| Games.DropReached | src/states/GameState.cpp:906-918 | from a new game an attack, the end of the opponent's chain and one control group bring down min(30, attack) ice blocks beside the two of the group, and the rest stays pending |
| Compaction.RoundFitsIff | src/game/system/BasePlayer.cpp:352-372 | what the theorems about falling ask of the start of a fall holds exactly when no ice above a freed cell has a coloured block above it |
| Compaction.RoundOrderIff | src/game/system/BasePlayer.cpp:352-372 | after a round, every run of frames that move nothing by more than a cell keeps order and distances exactly when no ice above a freed cell has a coloured block above it |
| FallingOrder.OrderKeptIff | src/game/block/IceBlock.cpp:76-153 | a fall from rest keeps order and distances in every such run exactly when no coloured block is above falling ice |
| FallingOrder.OrderBreaks | src/game/block/IceBlock.cpp:78-80 | otherwise a run of at most fifteen frames lets a coloured block overtake the ice |
| Overtaking.BoardAgrees | src/game/block/IceBlock.cpp:76-153 | in a fall from rest in which no block can find its own row taken by what can land before it, list and board agree after every run in which nothing moves by more than a cell and ice without a spare row not by more than twenty pixels |
| Overtaking.BoardAgreesWithSpare | src/game/block/IceBlock.cpp:76-153 | with one row to spare they agree in every run that moves nothing by more than a cell, whatever overtakes |
| Overtaking.ShortBoardAgrees | src/game/block/IceBlock.cpp:76-153 | with none to spare they agree in every run of frames of at most 1/50 unit of time; such frames never move anything by more than a cell, and everything rests after 310 units |
| SortedRuns.RelistedWide | src/game/system/LocalPlayer.cpp:251 | sorting the list between two frames keeps all that these falls rely on |
| SortedRuns.SortedBoardAgreesWithSpare | src/game/system/LocalPlayer.cpp:249-262 | as `BoardAgreesWithSpare`, with the list sorted after any of the frames |
| SortedRuns.SortedBoardAgrees | src/game/system/LocalPlayer.cpp:249-262 | as `ShortBoardAgrees`, with the list sorted after any of the frames |
| OvertakingLimits.TightIceIsLost | src/game/block/IceBlock.cpp:76-153 | with none to spare one long frame can put ice into the cell of a coloured block that has overtaken it |
| OvertakingLimits.TightStart | src/game/block/IceBlock.cpp:76-153 | that start is legal and has no row to spare, and none too few |
| OvertakingLimits.BuriedIceIsLostInShortFrames | src/game/block/IceBlock.cpp:76-153 | with one row too few, ten frames of 1/50 end with a listed block and the ice in one cell |
| OvertakingLimits.BuriedIceHasNoRoom | src/game/block/IceBlock.cpp:76-153 | that start is legal and has a row too few |
| RoundAgreement.RoundRoomIff | src/game/system/BasePlayer.cpp:352-372 | a round leaves that room, with or without a row to spare, exactly when each ice above freed cells has enough of them for the coloured survivors above it |
| RoundAgreement.RoundAgrees | src/game/system/LocalPlayer.cpp:176-262 | in terms of the board before the round: with as many freed cells below each such ice as coloured survivors above it, list and board agree in all short frames and the fall ends; with more, in every run that moves nothing by more than a cell, sorted between the frames or not |
| Compaction.FallFrame | src/game/system/BasePlayer.cpp:125-146 | a frame of a fall keeps the vertical order of every column |
| Compaction.RestCompacts | src/game/system/LocalPlayer.cpp:253-262 | at rest the row of a block is the number of blocks that started below it in its column |
| Compaction.FallDown | src/game/system/LocalPlayer.cpp:249-262 | on any sequence of frames up to the first that is not smooth: the invariant holds, and at rest every column is closed up in its old order; a fall that starts in order from rest never stops early in frames of at most 1/50 unit of time, and has ended after 310 units |
| Compaction.ClearAndFall | src/game/system/LocalPlayer.cpp:176-256 | in terms of the board before the round: the survivor of a cell ends in the row given by the survivors below it |
| Compaction.PlayRound | src/game/system/LocalPlayer.cpp:176-262 | a clear round and its fall on the board are stable column compaction, on any frames up to the first that is not smooth; what is left is exactly what was not cleared; if no ice loses its support under a coloured block, short frames are always smooth and the round ends |
| FallSpeed.ShortFallEnds | src/game/block/IceBlock.cpp:76-153 | a fall from rest in order, in frames of at most 1/50 unit of time, never moves a block by more than a cell, and nothing falls any more after 310 units |
| FallSpeed.FallIsOver | src/game/block/IceBlock.cpp:76-83 | after 310 units of time nothing falls, and after 31/51 no coloured block does |
| FallSpeed.DrivenIsSlow | src/game/block/IceBlock.cpp:76-83 | a block that has fallen from rest in short frames moves by less than a cell in the next one |
| LocalSteps.DropEnds | src/game/system/BasePlayer.cpp:691-803 | a drop with room comes down in short frames without a step over a cell, and after 310 units every column is packed in list order |
| Mirror.DefendedIff | src/game/system/RemotePlayer.cpp:692-695 | the clamp of a defence works exactly when it is not needed |
| Mirror.DefendRemote | src/game/system/RemotePlayer.cpp:692-700 | what a defence leaves in the mirror, in 16 bits |
| Mirror.DefenseInterruptBlockCount | src/game/system/LocalPlayer.cpp:516-526 | the server's count of the client's ice falls, not below zero, and so does its mirror |
| Mirror.AddInterruptBlockCount | src/game/system/LocalPlayer.cpp:773-784 | an attack on the server raises its pending ice and clears its count and mirror of the client |
| Mirror.HandleAttackInterrupt | src/states/GameState.cpp:826-843 | an attack on the client raises its pending ice, holds it back, and clears its mirror of the server |
| Mirror.ProcessAttack | src/states/GameState.cpp:889-904 | after the client's attack both machines hold the server's new count and zero for the client |
| Mirror.ProcessDefense | src/states/GameState.cpp:875-887 | after the client's defence the client's count is what the server has left of it |
| Mirror.CreateBulletOnServer | src/game/system/LocalPlayer.cpp:641-690 | a bullet of the server defends while ice is pending and attacks otherwise, and carries the attack only once |
| Mirror.CreateBulletOnClient | src/game/system/LocalPlayer.cpp:641-690 | the same for the client |
| Mirror.MatchOnServer | src/game/system/LocalPlayer.cpp:875-908 | the counters of both machines after a match of the server with any number of groups |
| Mirror.MatchOnClient | src/game/system/LocalPlayer.cpp:875-908 | the counters of both machines after a match of the client with any number of groups |
| Mirror.ServerMatchMirrored | src/states/GameState.cpp:826-873 | a server match lowers its own count, raises the client's by the excess and keeps all mirrors right |
| Mirror.ClientMatchMirrored | src/states/GameState.cpp:889-904 | a client match lowers its own count, raises the server's by the excess and keeps all mirrors right |
| Mirror.MirrorsHold | src/states/GameState.cpp:826-904 | however the matches alternate, every mirror shows its owner's count |
| Mirror.ServerDropMirroredIff | src/game/system/BasePlayer.cpp:762-800 | a server drop keeps the mirrors right exactly when it is large or has an incomplete row |
| Mirror.ClientDropNotMirrored | src/game/system/BasePlayer.cpp:725-803 | a client drop never does |
| Mirror.DefenceRightIff | src/game/system/LocalPlayer.cpp:516-526 | a client match with any number of groups leaves the right count exactly when it is an attack or the server's count of the client was right |
| Mirror.ServerMatchCounts | src/game/system/LocalPlayer.cpp:875-908 | what a server match does to the three counts of the owners, whatever the mirrors show |
| Mirror.ClientMatchCounts | src/game/system/LocalPlayer.cpp:875-908 | what a client match does to them: after a defence the client has what the server's count leaves, after an attack both are zero |
| Utf8.SplitIsExact | src/ui/EditBox.cpp:262-285 | cutting well-formed UTF-8 by first bytes yields exactly its code points |
| Utf8.SplitIsPrefix | src/ui/EditBox.cpp:287-290 | for any bytes the pieces are a beginning of the text, all of it exactly when no piece is cut short |
| Wrapping.WrapKeepsText | src/ui/EditBox.cpp:262-310 | the lines put together are the text |
| Wrapping.AllFitIff | src/ui/EditBox.cpp:295-303 | all lines fit exactly when every code point fits |
| Wrapping.WrapIsMinimal | src/ui/EditBox.cpp:262-310 | no division into lines that fit has fewer lines |
| EditBoxes.EditBox.AddMessageToList | src/ui/EditBox.cpp:313-341 | the new message is the last one; before it stand all older ones if there were fewer than fifty, and the newest forty-nine otherwise |
| EditBoxes.EditBox.ProcessTextInput | src/ui/EditBox.cpp:234-311 | the list is the end of its messages and the lines of the text, at most fifty, and the last line of the text is the last message |
| EditBoxes.MessagesAreTheText | src/ui/EditBox.cpp:234-311 | with a font that measures well-formed text as the sum of its code points: the messages are the text, cut at code points, all fitting exactly if every code point fits, and no division that fits has fewer lines |

## Left out

- LocalFrames.UpdateBlocks: a frame either moves blocks or lets groups disappear; the program's one loop over the blocks does both, which the invariant shows never happens in one frame.
- Games.Play: stops at a frame that moves a block by more than a cell, drops ice without room or lets a coloured block fall above ice, although list and board may go on agreeing in the last case (`RoundAgrees`); order and distances do not.
- Overtaking.BoardAgrees: the condition is sufficient; which starts outside it agree in all runs is not determined.
- Scenes.SceneOf: the link masks, which the invariant makes exact in Playing and IceBlocking, and the flag that a game was lost are not part of the state value.
- LocalPush.PushBlockInGame: the two blocks are given with their final cells; the movement, rotation and landing effects of the control group are not modelled.
- Garbage.ChooseColumns: random columns are an arbitrary choice; that the program's draws end is only probable.
- LinkStates.UpdateLinkStateForDownMoving: what the masks mean during a fall is not claimed, only how they change; they are recomputed after it.
- Mirror.MatchOnServer: attacks that arrive between a match and its bullets.
- Ledger.GarbageConserved: a client's balance after a wrong answer; `BothConserve` says exactly when the answers are right.
- Rounding of floats: positions, speeds and times are reals.
- The position and size of a disappearing block, which it does not need any more.
- The remote player's queues of incoming moves, its interpolated positions and its own combo display.
- The columns of a mirrored ice drop: the small drop sends its empty input instead of the chosen columns.
- Falling ice in a full column, where the landing row is forced onto the board.
- Boards loaded from files and debug keys.
- Rendering, sound, particles, bullets in flight, views, sockets, packet layouts and lobby code.
- Fonts: the width of a code point is a parameter.
