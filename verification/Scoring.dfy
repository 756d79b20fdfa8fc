/** Score, carried remainder and pending ice: the arithmetic of a match. */
module Scoring {
  import opened Matching
  import opened PuyoBlocks
  import opened Players

  const MAX_COMBO := 19
  const BASE_MATCH_SCORE := 10
  const MAX_LINK_BONUS := 10
  const MAX_TYPE_BONUS := 24
  const BOARD_CELLS := 78
  /** The highest price of an ice block. */
  const MAX_MARGIN := 70

  /** Conversion to the program's 8-bit, 16-bit and 32-bit counters. */
  function ToUint8(n: int): int { n % 0x100 }

  function ToUint32(n: int): int { n % 0x1_0000_0000 }

  function ToInt16(n: int): int {
    var m := n % 0x1_0000;
    if m < 0x8000 then m else m - 0x1_0000
  }

  function ComboConstant(comboCount: int): int {
    if comboCount <= 1 then 0
    else if comboCount == 2 then 8
    else if comboCount == 3 then 16
    else if comboCount == 4 then 32
    else if comboCount <= MAX_COMBO then 32 * (comboCount - 3)
    else 0
  }

  function LinkBonus(linkCount: int): int
    requires 0 <= linkCount
  {
    if linkCount <= 4 then 0
    else if linkCount <= 10 then [0, 0, 0, 0, 2, 3, 4, 5][linkCount - 4]
    else MAX_LINK_BONUS
  }

  function TypeBonus(count: int): int
    requires 0 <= count
  {
    if count < 6 then [0, 0, 3, 6, 12, MAX_TYPE_BONUS][count] else MAX_TYPE_BONUS
  }

  const SCORE_MARGINS: seq<(real, int)> :=
    [(96.0, 70), (112.0, 52), (128.0, 34), (144.0, 25), (160.0, 16), (176.0, 12),
     (192.0, 8), (208.0, 6), (224.0, 4), (240.0, 3), (256.0, 2)]

  /** Points per ice block, by playing time; it falls to 1 in the end. */
  function Margin(playTime: real, n: nat): (m: int)
    requires n <= |SCORE_MARGINS|
    ensures 1 <= m <= 70
    decreases |SCORE_MARGINS| - n
  {
    if n == |SCORE_MARGINS| then 1
    else if playTime <= SCORE_MARGINS[n].0 then SCORE_MARGINS[n].1
    else Margin(playTime, n + 1)
  }

  /** The price is that of the first entry of the table whose time has not passed yet, and 1 after the last. */
  lemma {:induction false} MarginSelects(playTime: real, n: nat, i: nat)
    requires n <= i <= |SCORE_MARGINS|
    requires forall k :: n <= k < i ==> SCORE_MARGINS[k].0 < playTime
    requires i < |SCORE_MARGINS| ==> playTime <= SCORE_MARGINS[i].0
    ensures Margin(playTime, n) == if i < |SCORE_MARGINS| then SCORE_MARGINS[i].1 else 1
    decreases i - n
  {
    if n < i { MarginSelects(playTime, n + 1, i); }
  }

  /** Ice never gets dearer in the course of a game. */
  lemma {:induction false} MarginFalls(early: real, late: real, n: nat)
    requires early <= late && n <= |SCORE_MARGINS|
    ensures Margin(late, n) <= Margin(early, n)
    ensures n > 0 ==> Margin(late, n) <= SCORE_MARGINS[n - 1].1
    decreases |SCORE_MARGINS| - n
  {
    if n < |SCORE_MARGINS| {
      MarginFalls(early, late, n + 1);
    }
  }

  /** The prices that the table stands for: they fall twice by 18 and then twice by half as much as before. */
  function Drop(i: nat): nat {
    if i < 2 then 18 else Drop(i - 2) / 2
  }

  function Price(i: nat): int {
    if i == 0 then 70 else Price(i - 1) - Drop(i - 1)
  }

  /** The first price holds up to time 96, each later one for 16 units of time, and after 256 it is 1. */
  lemma {:induction false} MarginSchedule(playTime: real, i: nat)
    requires i <= 11 && (i > 0 ==> 80.0 + 16.0 * i as real < playTime) && (i < 11 ==> playTime <= 96.0 + 16.0 * i as real)
    ensures Margin(playTime, 0) == if i < 11 then Price(i) else 1
  {
    TableIs();
    hide Margin;
    MarginSelects(playTime, 0, i);
  }

  lemma {:induction false} TableIs()
    ensures |SCORE_MARGINS| == 11
    ensures forall k :: 0 <= k < 11 ==> SCORE_MARGINS[k] == (96.0 + 16.0 * k as real, Price(k))
  {
    assert Price(0) == 70 && Price(1) == 52 && Price(2) == 34 && Price(3) == 25 && Price(4) == 16;
    assert Price(5) == 12 && Price(6) == 8 && Price(7) == 6 && Price(8) == 4 && Price(9) == 3 && Price(10) == 2;
  }

  /** The first round of a chain has no bonus, the second has 8, each of the next three twice as much as the
      one before, and each later one 32 more, up to the longest chain. */
  lemma {:induction false} ComboLaw(k: int)
    ensures k <= 1 ==> ComboConstant(k) == 0
    ensures ComboConstant(2) == 8
    ensures 3 <= k <= 5 ==> ComboConstant(k) == 2 * ComboConstant(k - 1)
    ensures 6 <= k <= MAX_COMBO ==> ComboConstant(k) == ComboConstant(k - 1) + 32
  {
  }

  /** The bonus of a group: none up to seven blocks, two for eight, one more for each of the next two, ten
      for a larger one. */
  lemma {:induction false} LinkLaw(n: nat)
    ensures n <= 7 ==> LinkBonus(n) == 0
    ensures LinkBonus(8) == 2
    ensures 9 <= n <= 10 ==> LinkBonus(n) == LinkBonus(n - 1) + 1
    ensures n > 10 ==> LinkBonus(n) == 10
  {
  }

  /** The bonus for several groups: three for two of them, twice as much for each further one up to five. */
  lemma {:induction false} TypeLaw(n: nat)
    ensures n <= 1 ==> TypeBonus(n) == 0
    ensures TypeBonus(2) == 3
    ensures 3 <= n <= 5 ==> TypeBonus(n) == 2 * TypeBonus(n - 1)
    ensures n > 5 ==> TypeBonus(n) == TypeBonus(5)
  {
  }

  /** The combo bonus grows with every round a chain can have. */
  lemma {:induction false} ComboConstantMonotone(a: int, b: int)
    requires 0 <= a <= b <= MAX_COMBO
    ensures ComboConstant(a) <= ComboConstant(b)
    ensures 2 <= a < b ==> ComboConstant(a) < ComboConstant(b)
  {
  }

  // ---------------------------------------------------------------- the score of one round

  function Sum(ns: seq<int>): int {
    if ns == [] then 0 else Sum(ns[..|ns| - 1]) + ns[|ns| - 1]
  }

  function Sizes<T>(groups: seq<seq<T>>): (ns: seq<int>)
    ensures |ns| == |groups| && forall i :: 0 <= i < |groups| ==> ns[i] == |groups[i]|
  {
    seq(|groups|, i requires 0 <= i < |groups| => |groups[i]|)
  }

  function LinkBonuses(sizes: seq<int>): (ns: seq<int>)
    requires forall i :: 0 <= i < |sizes| ==> 0 <= sizes[i]
    ensures |ns| == |sizes| && forall i :: 0 <= i < |sizes| ==> 0 <= ns[i] == LinkBonus(sizes[i])
  {
    seq(|sizes|, i requires 0 <= i < |sizes| => LinkBonus(sizes[i]))
  }

  /** The score of a round, over unbounded integers. */
  function Score(sizes: seq<int>, comboCount: int): int
    requires forall i :: 0 <= i < |sizes| ==> 0 <= sizes[i]
  {
    (Sum(sizes) * BASE_MATCH_SCORE) * (ComboConstant(comboCount) + Sum(LinkBonuses(sizes)) + TypeBonus(|sizes|) + 1)
  }

  function Power(n: nat): int {
    if n == 0 then 1 else 2 * Power(n - 1)
  }

  /** What one group of four is worth in each round of a chain. */
  lemma {:induction false} FourInRound(k: int)
    requires 1 <= k <= MAX_COMBO
    ensures Score([4], k) == 40 * (1 + if k == 1 then 0 else if k <= 5 then Power(k + 1) else 32 * (k - 3))
  {
    OneSize(4);
    assert Power(3) == 8 && Power(4) == 16 && Power(5) == 32 && Power(6) == 64;
  }

  /** What one group of any size is worth in the first round. */
  lemma {:induction false} GroupInFirstRound(n: int)
    requires 4 <= n
    ensures Score([n], 1) == 10 * n * (if n <= 7 then 1 else if n <= 10 then n - 5 else 11)
  {
    OneSize(n);
    hide Sum, LinkBonuses;
  }

  lemma {:induction false} OneSize(n: int)
    requires 0 <= n
    ensures Sum([n]) == n && Sum(LinkBonuses([n])) == LinkBonus(n)
  {
    assert [n][..0] == [] && LinkBonuses([n])[..0] == [];
  }

  function Fours(count: nat): (sizes: seq<int>)
    ensures |sizes| == count && forall i :: 0 <= i < count ==> sizes[i] == 4
  {
    if count == 0 then [] else Fours(count - 1) + [4]
  }

  lemma {:induction false} SumOfFours(count: nat)
    ensures Sum(Fours(count)) == 4 * count && Sum(LinkBonuses(Fours(count))) == 0
  {
    if count > 0 {
      SumOfFours(count - 1);
      assert Fours(count)[..count - 1] == Fours(count - 1);
      assert LinkBonuses(Fours(count))[..count - 1] == LinkBonuses(Fours(count - 1));
    }
  }

  /** What several groups of four are worth in the first round. */
  lemma {:induction false} FoursInFirstRound(count: nat)
    requires 1 <= count
    ensures Score(Fours(count), 1) == 40 * count * (1 + if count == 1 then 0 else if count <= 5 then 3 * Power(count - 2) else 24)
  {
    SumOfFours(count);
    hide Sum, LinkBonuses, Fours;
    assert Power(0) == 1 && Power(1) == 2 && Power(2) == 4 && Power(3) == 8;
  }

  /** Each block is worth ten points at least, and in a later round as many times more as the round's bonus says. */
  lemma {:induction false} TenPerBlock(sizes: seq<int>, comboCount: int)
    requires forall i :: 0 <= i < |sizes| ==> 0 <= sizes[i]
    ensures Score(sizes, comboCount) >= 10 * Sum(sizes) * (ComboConstant(comboCount) + 1) >= 10 * Sum(sizes) >= 0
  {
    NonNegativeSum(sizes);
    LinkBonusBound(sizes);
    BonusBounds(comboCount, |sizes|);
    var a, c := 10 * Sum(sizes), ComboConstant(comboCount);
    var more := Sum(LinkBonuses(sizes)) + TypeBonus(|sizes|);
    ScoreIs(sizes, comboCount);
    hide *;
    PointsPerBlock(a, c, more);
    TenTimes(Sum(sizes));
  }

  lemma {:induction false} TenTimes(n: int)
    ensures 10 * n == n * BASE_MATCH_SCORE
  {
  }

  lemma {:induction false} PointsPerBlock(a: int, c: int, more: int)
    requires 0 <= a && 0 <= c && 0 <= more
    ensures a * (c + more + 1) >= a * (c + 1) >= a
  {
    ProductNonNegative(a, more);
    ProductNonNegative(a, c);
    assert a * (c + more + 1) == a * (c + 1) + a * more && a * (c + 1) == a + a * c;
  }

  /** No group earns more link bonus than it has blocks, so the sum has the same bound. */
  lemma {:induction false} LinkBonusBound(sizes: seq<int>)
    requires forall i :: 0 <= i < |sizes| ==> 0 <= sizes[i]
    ensures 0 <= Sum(LinkBonuses(sizes)) <= Sum(sizes)
  {
    if sizes != [] {
      var n := |sizes| - 1;
      LinkBonusBound(sizes[..n]);
      assert LinkBonuses(sizes)[..n] == LinkBonuses(sizes[..n]);
    }
  }

  lemma {:induction false} SumPrefix(sizes: seq<int>, n: int)
    requires forall i :: 0 <= i < |sizes| ==> 0 <= sizes[i]
    requires 0 <= n <= |sizes|
    ensures 0 <= Sum(sizes[..n]) <= Sum(sizes)
    ensures n < |sizes| ==> Sum(sizes[..n + 1]) == Sum(sizes[..n]) + sizes[n] <= Sum(sizes)
    decreases |sizes| - n
  {
    if n < |sizes| {
      SumPrefix(sizes, n + 1);
      assert sizes[..n + 1][..n] == sizes[..n];
      if n > 0 { NonNegativeSum(sizes[..n]); }
    } else {
      assert sizes[..n] == sizes;
      NonNegativeSum(sizes);
    }
  }

  lemma {:induction false} NonNegativeSum(ns: seq<int>)
    requires forall i :: 0 <= i < |ns| ==> 0 <= ns[i]
    ensures 0 <= Sum(ns)
  {
    if ns != [] { NonNegativeSum(ns[..|ns| - 1]); }
  }

  lemma {:induction false} FlatSize<T>(groups: seq<seq<T>>)
    ensures Sum(Sizes(groups)) == |Flat(groups)|
  {
    if groups != [] {
      var n := |groups| - 1;
      FlatSize(groups[..n]);
      assert Sizes(groups)[..n] == Sizes(groups[..n]);
    }
  }

  // ---------------------------------------------------------------- attacks and pending ice

  datatype Counters = Counters(pending: int, attack: int, enemy: int)

  /** A match of `attack` blocks first cancels pending ice; only what is left of it is an
      attack.  The server also counts it against the opponent. */
  function Offset(c: Counters, isServer: bool): Counters {
    if c.pending > 0 then
      var t := ToInt16(c.pending - c.attack);
      if t <= 0 then
        var a := ToInt16(if t < 0 then -t else t);
        Counters(0, a, if isServer && a > 0 then ToInt16(c.enemy + a) else c.enemy)
      else Counters(t, c.attack, c.enemy)
    else
      Counters(0, c.attack, if isServer && c.attack > 0 then ToInt16(c.enemy + c.attack) else c.enemy)
  }

  ghost function CountersOf(p: BasePlayer): Counters
    reads p`totalInterrupt, p`addInterrupt, p`totalEnemyInterrupt
  {
    Counters(p.totalInterrupt, p.addInterrupt, p.totalEnemyInterrupt)
  }

  method UpdateInterruptBlockState(p: BasePlayer)
    modifies p`totalInterrupt, p`addInterrupt, p`totalEnemyInterrupt, p`hasIceBlock
    ensures CountersOf(p) == Offset(old(CountersOf(p)), p.isServer)
    ensures p.hasIceBlock <==> p.totalInterrupt > 0
  {
    if p.totalInterrupt > 0 {
      p.totalInterrupt := ToInt16(p.totalInterrupt - p.addInterrupt);
      if p.totalInterrupt <= 0 {
        p.addInterrupt := ToInt16(if p.totalInterrupt < 0 then -p.totalInterrupt else p.totalInterrupt);
        p.totalInterrupt := 0;
        if p.isServer {
          if p.addInterrupt > 0 {
            p.totalEnemyInterrupt := ToInt16(p.totalEnemyInterrupt + p.addInterrupt);
          }
        }
      }
    } else {
      if p.isServer {
        if p.addInterrupt > 0 {
          p.totalEnemyInterrupt := ToInt16(p.totalEnemyInterrupt + p.addInterrupt);
        }
      }
      p.totalInterrupt := 0;
    }
    p.hasIceBlock := p.totalInterrupt > 0;
  }

  /** The two 8-bit accumulators of a round never wrap: all groups together fit on the board,
      and no group earns more bonus than it has blocks. */
  method SumGroups<T>(groups: seq<seq<T>>) returns (linkBonus: int, blockCount: int)
    requires |Flat(groups)| <= BOARD_CELLS
    ensures blockCount == |Flat(groups)| == Sum(Sizes(groups))
    ensures linkBonus == Sum(LinkBonuses(Sizes(groups))) <= blockCount
  {
    hide *;
    linkBonus, blockCount := 0, 0;
    ghost var sizes := Sizes(groups);
    ghost var bonuses := LinkBonuses(sizes);
    FlatSize(groups);
    LinkBonusBound(sizes);
    BoardCells();
    SumStart(sizes);
    SumStart(bonuses);
    for i := 0 to |groups|
      invariant blockCount == Sum(sizes[..i]) && linkBonus == Sum(bonuses[..i])
    {
      SumPrefix(sizes, i);
      SumPrefix(bonuses, i);
      FitsUint8(blockCount + sizes[i]);
      FitsUint8(linkBonus + bonuses[i]);
      FitsUint8(sizes[i]);
      linkBonus := ToUint8(linkBonus + LinkBonus(|groups[i]|));
      blockCount := ToUint8(blockCount + ToUint8(|groups[i]|));
    }
    SumStart(sizes);
    SumStart(bonuses);
  }

  lemma {:induction false} BoardCells()
    ensures BOARD_CELLS == 78
  {
  }

  lemma {:induction false} SumStart(ns: seq<int>)
    ensures Sum(ns[..0]) == 0 && Sum(ns[..|ns|]) == Sum(ns)
  {
    assert ns[..|ns|] == ns;
  }

  lemma {:induction false} FitsUint8(n: int)
    ensures 0 <= n < 0x100 ==> ToUint8(n) == n
  {
  }

  /** No round scores more than a full board in the longest chain would. */
  lemma {:induction false} ScoreBound(sizes: seq<int>, comboCount: int)
    requires (forall i :: 0 <= i < |sizes| ==> 0 <= sizes[i]) && Sum(sizes) <= BOARD_CELLS
    ensures 0 <= Score(sizes, comboCount) <= 479700
  {
    NonNegativeSum(sizes);
    LinkBonusBound(sizes);
    BonusBounds(comboCount, |sizes|);
    var a := Sum(sizes) * BASE_MATCH_SCORE;
    var b := ComboConstant(comboCount) + Sum(LinkBonuses(sizes)) + TypeBonus(|sizes|) + 1;
    hide ComboConstant, TypeBonus, LinkBonuses, Sum;
    ProductNonNegative(a, b);
    ProductsOrdered(a, 780, b, 615);
  }

  lemma {:induction false} BonusBounds(comboCount: int, count: nat)
    ensures 0 <= ComboConstant(comboCount) <= 512 && 0 <= TypeBonus(count) <= 24
  {
  }

  lemma {:induction false} ProductsOrdered(a: int, a': int, b: int, b': int)
    requires 0 <= a <= a' && 0 <= b <= b'
    ensures a * b <= a' * b'
  {
    ProductNonNegative(a' - a, b);
    ProductNonNegative(a', b' - b);
    assert a' * b' == a * b + (a' - a) * b + a' * (b' - b);
  }

  /** All that a player has of points and of ice that is not on the board yet. */
  datatype Purse = Purse(total: int, rest: int, counters: Counters, scored: ChainScore)

  ghost function PurseOf(p: BasePlayer): Purse
    reads p`totalScore, p`restScore, p`totalInterrupt, p`addInterrupt, p`totalEnemyInterrupt, p`scored
  {
    Purse(p.totalScore, p.restScore, CountersOf(p), p.scored)
  }

  lemma {:induction false} PurseIs(p: BasePlayer)
    ensures PurseOf(p) == Purse(p.totalScore, p.restScore, CountersOf(p), p.scored)
    ensures CountersOf(p) == Counters(p.totalInterrupt, p.addInterrupt, p.totalEnemyInterrupt)
  {
  }

  /** The round that groups of these sizes make. */
  function RoundOf(sizes: seq<int>, comboCount: int, margin: int): Round
    requires forall i :: 0 <= i < |sizes| ==> 0 <= sizes[i]
  {
    Round(sizes, Score(sizes, comboCount), margin)
  }

  /** What a round makes of it. */
  function Earn(b: Purse, r: Round, isServer: bool): Purse
    requires r.margin > 0
  {
    var a := ToInt16(Attack(r, b.rest));
    Purse(ToUint32(b.total + r.score), RestAfter(r, b.rest), Offset(b.counters.(attack := a), isServer),
          b.scored.(rounds := b.scored.rounds + [r], attacked := b.scored.attacked + a))
  }

  lemma {:induction false} EarnIs(b: Purse, r: Round, isServer: bool)
    requires r.margin > 0
    ensures
      var a := ToInt16(Attack(r, b.rest));
      Earn(b, r, isServer) ==
        Purse(ToUint32(b.total + r.score), RestAfter(r, b.rest), Offset(b.counters.(attack := a), isServer),
              b.scored.(rounds := b.scored.rounds + [r], attacked := b.scored.attacked + a))
  {
    hide ToInt16, ToUint32, Attack, RestAfter, Offset;
  }

  /** Scores the matched groups: adds to the score, turns it with the carried remainder into
      ice blocks, and offsets these against the pending ones.  No conversion loses anything here but
      those of the total score and of the attack itself. */
  method CalculateScore(p: BasePlayer)
    requires |Flat(p.matchedBlocks)| <= BOARD_CELLS && 0 <= p.restScore < MAX_MARGIN && 0 <= p.comboCount
    modifies p`totalScore, p`restScore, p`totalInterrupt, p`addInterrupt, p`totalEnemyInterrupt, p`hasIceBlock, p`scored
    ensures
      var r := RoundOf(Sizes(p.matchedBlocks), p.comboCount, Margin(p.playTime, 0));
      PurseOf(p) == Earn(old(PurseOf(p)), r, p.isServer) && 0 <= r.score && r.margin == Margin(p.playTime, 0)
    ensures 0 <= p.restScore < MAX_MARGIN && (p.hasIceBlock <==> p.totalInterrupt > 0)
  {
    hide *;
    PurseIs(p);
    var typeBonus := TypeBonus(|p.matchedBlocks|);
    var comboBonus := ComboConstant(p.comboCount);
    var linkBonus, blockCount := SumGroups(p.matchedBlocks);
    var currentScore := (blockCount * BASE_MATCH_SCORE) * (comboBonus + linkBonus + typeBonus + 1);
    ScoreIs(Sizes(p.matchedBlocks), p.comboCount);
    ScoreBound(Sizes(p.matchedBlocks), p.comboCount);
    var margin := Margin(p.playTime, 0);
    ghost var r := RoundOf(Sizes(p.matchedBlocks), p.comboCount, margin);
    RoundOfIs(Sizes(p.matchedBlocks), p.comboCount, margin);
    RoundExact(r, p.restScore);
    EarnIs(PurseOf(p), r, p.isServer);
    p.scored := p.scored.(rounds := p.scored.rounds + [r], attacked := p.scored.attacked + ToInt16(Attack(r, p.restScore)));
    var all := ToUint32(currentScore + p.restScore);
    p.addInterrupt := ToInt16(all / margin);
    p.restScore := all % margin;
    p.totalScore := ToUint32(p.totalScore + currentScore);
    PurseIs(p);
    UpdateInterruptBlockState(p);
    PurseIs(p);
  }

  lemma {:induction false} RoundOfIs(sizes: seq<int>, comboCount: int, margin: int)
    requires forall i :: 0 <= i < |sizes| ==> 0 <= sizes[i]
    ensures RoundOf(sizes, comboCount, margin) == Round(sizes, Score(sizes, comboCount), margin)
  {
  }

  /** The 32-bit sum of a round's score and the carried remainder is exact. */
  lemma {:induction false} RoundExact(r: Round, rest: int)
    requires 0 <= r.score <= 479700 && 0 <= rest < MAX_MARGIN && 1 <= r.margin <= 70
    ensures ToUint32(r.score + rest) % r.margin == RestAfter(r, rest) && ToUint32(r.score + rest) / r.margin == Attack(r, rest)
    ensures 0 <= RestAfter(r, rest) < MAX_MARGIN
  {
  }

  lemma {:induction false} ScoreIs(sizes: seq<int>, comboCount: int)
    requires forall i :: 0 <= i < |sizes| ==> 0 <= sizes[i]
    ensures Score(sizes, comboCount)
         == (Sum(sizes) * BASE_MATCH_SCORE) * (ComboConstant(comboCount) + Sum(LinkBonuses(sizes)) + TypeBonus(|sizes|) + 1)
  {
  }

  lemma {:induction false} ProductNonNegative(a: int, b: int)
    requires a >= 0 && b >= 0
    ensures a * b >= 0
  {
  }

  // ---------------------------------------------------------------- nothing is lost in a chain

  /** The ice blocks a round makes of its score and the remainder carried into it, and the
      remainder it carries on, over unbounded integers. */
  function Attack(r: Round, rest: int): int
    requires r.margin > 0
  {
    (r.score + rest) / r.margin
  }

  function RestAfter(r: Round, rest: int): int
    requires r.margin > 0
  {
    (r.score + rest) % r.margin
  }

  predicate ProperRounds(rounds: seq<Round>) {
    forall i :: 0 <= i < |rounds| ==> 0 <= rounds[i].score && 1 <= rounds[i].margin <= 70
  }

  /** Each round has the points of its groups in its place in the chain. */
  predicate Paid(rounds: seq<Round>) {
    forall i :: 0 <= i < |rounds| ==>
      && rounds[i].sizes != [] && (forall k :: 0 <= k < |rounds[i].sizes| ==> 4 <= rounds[i].sizes[k])
      && rounds[i].score == Score(rounds[i].sizes, i + 1)
  }

  /** The blocks that the first `n` rounds have taken in groups. */
  function TakenSum(rounds: seq<Round>, n: int): int
    requires 0 <= n <= |rounds|
  {
    if n == 0 then 0 else TakenSum(rounds, n - 1) + Sum(rounds[n - 1].sizes)
  }

  /** The points of a chain are at least ten for every block its rounds have taken, and it has taken four at
      least in every round. */
  lemma {:induction false} ChainPays(rounds: seq<Round>, n: int)
    requires Paid(rounds) && 0 <= n <= |rounds|
    ensures ScoreSum(rounds, n) >= 10 * TakenSum(rounds, n) >= 40 * n
  {
    if n > 0 {
      ChainPays(rounds, n - 1);
      var r := rounds[n - 1];
      TenPerBlock(r.sizes, n);
      FourAtLeast(r.sizes);
      hide Score, Sum, ComboConstant;
    }
  }

  lemma {:induction false} FourAtLeast(sizes: seq<int>)
    requires sizes != [] && forall i :: 0 <= i < |sizes| ==> 4 <= sizes[i]
    ensures Sum(sizes) >= 4
  {
    NonNegativeSum(sizes[..|sizes| - 1]);
  }

  /** The remainder after the first `n` rounds of a chain. */
  function RestOf(rounds: seq<Round>, rest: int, n: int): (r: int)
    requires ProperRounds(rounds) && 0 <= n <= |rounds| && 0 <= rest
    ensures 0 <= r
    ensures n > 0 ==> r < rounds[n - 1].margin
  {
    if n == 0 then rest else RestAfter(rounds[n - 1], RestOf(rounds, rest, n - 1))
  }

  function SpentOn(rounds: seq<Round>, rest: int, n: int): int
    requires ProperRounds(rounds) && 0 <= n <= |rounds| && 0 <= rest
  {
    if n == 0 then 0
    else SpentOn(rounds, rest, n - 1) + Attack(rounds[n - 1], RestOf(rounds, rest, n - 1)) * rounds[n - 1].margin
  }

  function AttackSum(rounds: seq<Round>, rest: int, n: int): int
    requires ProperRounds(rounds) && 0 <= n <= |rounds| && 0 <= rest
  {
    if n == 0 then 0 else AttackSum(rounds, rest, n - 1) + Attack(rounds[n - 1], RestOf(rounds, rest, n - 1))
  }

  function ScoreSum(rounds: seq<Round>, n: int): int
    requires 0 <= n <= |rounds|
  {
    if n == 0 then 0 else ScoreSum(rounds, n - 1) + rounds[n - 1].score
  }

  /** The attacks of the first `n` rounds as the 16-bit counter has them. */
  function CountedSum(rounds: seq<Round>, n: int): int
    requires ProperRounds(rounds) && 0 <= n <= |rounds|
  {
    if n == 0 then 0 else CountedSum(rounds, n - 1) + ToInt16(Attack(rounds[n - 1], RestOf(rounds, 0, n - 1)))
  }

  /** One more round does not change what the earlier ones have made. */
  lemma {:induction false} OneMoreRound(rounds: seq<Round>, r: Round, n: int)
    requires ProperRounds(rounds) && ProperRounds(rounds + [r]) && 0 <= n <= |rounds|
    ensures RestOf(rounds + [r], 0, n) == RestOf(rounds, 0, n)
    ensures ScoreSum(rounds + [r], n) == ScoreSum(rounds, n) && CountedSum(rounds + [r], n) == CountedSum(rounds, n)
  {
    if n > 0 {
      OneMoreRound(rounds, r, n - 1);
      assert (rounds + [r])[n - 1] == rounds[n - 1];
      hide Attack, RestAfter, ToInt16;
    }
  }

  lemma {:induction false} RoundAdded(rounds: seq<Round>, r: Round)
    requires ProperRounds(rounds) && 0 <= r.score && 1 <= r.margin <= 70
    ensures
      var rounds', n := rounds + [r], |rounds|;
      && ProperRounds(rounds') && |rounds'| == n + 1
      && RestOf(rounds', 0, n + 1) == RestAfter(r, RestOf(rounds, 0, n))
      && ScoreSum(rounds', n + 1) == ScoreSum(rounds, n) + r.score
      && CountedSum(rounds', n + 1) == CountedSum(rounds, n) + ToInt16(Attack(r, RestOf(rounds, 0, n)))
  {
    OneMoreRound(rounds, r, |rounds|);
    hide Attack, RestAfter, ToInt16;
  }

  /** The total score has 32 bits, and so has its difference. */
  lemma {:induction false} TotalAdded(total: int, before: int, sum: int, score: int)
    requires ToUint32(total - before - sum) == 0
    ensures ToUint32(ToUint32(total + score) - before - (sum + score)) == 0
  {
    var q := (total + score) / 0x1_0000_0000;
    assert ToUint32(total + score) == total + score - q * 0x1_0000_0000;
  }

  /** Nothing is counted short while no attack reaches 2^15 blocks. */
  lemma {:induction false} CountedExactly(rounds: seq<Round>, n: int)
    requires ProperRounds(rounds) && 0 <= n <= |rounds|
    requires forall k :: 0 <= k < n ==> Attack(rounds[k], RestOf(rounds, 0, k)) < 0x8000
    ensures CountedSum(rounds, n) == AttackSum(rounds, 0, n)
  {
    hide Attack, RestOf, ToInt16;
    if n > 0 {
      CountedExactly(rounds, n - 1);
      AttackCounted(rounds[n - 1], RestOf(rounds, 0, n - 1));
    }
  }

  lemma {:induction false} AttackCounted(r: Round, rest: int)
    requires 0 <= r.score && 1 <= r.margin && 0 <= rest && Attack(r, rest) < 0x8000
    ensures ToInt16(Attack(r, rest)) == Attack(r, rest)
  {
    AttackNonNegative(r, rest);
    hide Attack;
  }

  lemma {:induction false} AttackNonNegative(r: Round, rest: int)
    requires 0 <= r.score && 1 <= r.margin && 0 <= rest
    ensures 0 <= Attack(r, rest)
  {
  }

  /** Whatever the margins of the rounds, attacks at their price and the last remainder add up
      to all points scored and the first remainder. */
  lemma {:induction false} CarryLosesNothing(rounds: seq<Round>, rest: int, n: int)
    requires ProperRounds(rounds) && 0 <= n <= |rounds| && 0 <= rest
    ensures SpentOn(rounds, rest, n) + RestOf(rounds, rest, n) == ScoreSum(rounds, n) + rest
  {
    if n > 0 {
      CarryLosesNothing(rounds, rest, n - 1);
      var r, carried := rounds[n - 1], RestOf(rounds, rest, n - 1);
      DivMod(r.score + carried, r.margin);
    }
  }

  lemma {:induction false} DivMod(a: int, m: int)
    requires m > 0
    ensures (a / m) * m + a % m == a
  {
  }

  lemma {:induction false} SpentIsAttacks(rounds: seq<Round>, margin: int, rest: int, n: int)
    requires ProperRounds(rounds) && 0 <= n <= |rounds| && 0 <= rest && 1 <= margin
    requires forall i :: 0 <= i < |rounds| ==> rounds[i].margin == margin
    ensures SpentOn(rounds, rest, n) == AttackSum(rounds, rest, n) * margin
  {
    if n > 0 {
      SpentIsAttacks(rounds, margin, rest, n - 1);
      Distributes(AttackSum(rounds, rest, n - 1), Attack(rounds[n - 1], RestOf(rounds, rest, n - 1)), margin);
      hide Attack, RestOf;
    }
  }

  lemma {:induction false} Distributes(a: int, b: int, m: int)
    ensures (a + b) * m == a * m + b * m
  {
  }

  /** While the margin stays the same, a chain attacks exactly as if its whole score had been
      turned into ice at once. */
  lemma {:induction false} RoundedOnce(rounds: seq<Round>, margin: int)
    requires ProperRounds(rounds) && 1 <= margin
    requires forall i :: 0 <= i < |rounds| ==> rounds[i].margin == margin
    ensures AttackSum(rounds, 0, |rounds|) == ScoreSum(rounds, |rounds|) / margin
  {
    var n := |rounds|;
    CarryLosesNothing(rounds, 0, n);
    SpentIsAttacks(rounds, margin, 0, n);
    DivUnique(ScoreSum(rounds, n), margin, AttackSum(rounds, 0, n), RestOf(rounds, 0, n));
  }

  lemma {:induction false} DivUnique(a: int, m: int, q: int, r: int)
    requires m > 0 && a == q * m + r && 0 <= r < m
    ensures q == a / m
  {
    DivMod(a, m);
    var q', r' := a / m, a % m;
    assert (q - q') * m == r' - r;
    if q > q' { ProductAtLeast(q - q', m); }
    assert (q' - q) * m == r - r';
    if q < q' { ProductAtLeast(q' - q, m); }
  }

  lemma {:induction false} ProductAtLeast(k: int, m: int)
    requires k >= 1 && m > 0
    ensures k * m >= m
  {
    assert k * m == (k - 1) * m + m;
    ProductNonNegative(k - 1, m);
  }

  /** The 16-bit attack counter holds an attack exactly as long as it stays below 2^15 blocks;
      a larger one comes out short by 2^16 or more. */
  lemma {:induction false} AttackCounterExact(r: Round, rest: int)
    requires 0 <= r.score && 1 <= r.margin && 0 <= rest
    ensures ToInt16(Attack(r, rest)) == Attack(r, rest) <==> r.score + rest < 0x8000 * r.margin
  {
    var a := Attack(r, rest);
    DivMod(r.score + rest, r.margin);
    if a >= 0x8000 {
      ProductOrdered(0x8000, a, r.margin);
    } else {
      ProductOrdered(a + 1, 0x8000, r.margin);
      assert (a + 1) * r.margin == a * r.margin + r.margin;
    }
  }

  lemma {:induction false} ProductOrdered(a: int, b: int, m: int)
    requires a <= b && m > 0
    ensures a * m <= b * m
  {
    ProductNonNegative(b - a, m);
    assert b * m == a * m + (b - a) * m;
  }
}
