/** The pending-ice counters of two machines.  Each machine keeps its own player's count and a
    mirror of the other's; the server also keeps the client's count in its own player. */
module Mirror {
  import opened PuyoBlocks
  import opened Players
  import opened Scoring
  import Ledger

  /** What one machine knows: its own player and its picture of the other one. */
  class GameState {
    const local: BasePlayer
    const remote: BasePlayer

    constructor (local: BasePlayer, remote: BasePlayer)
      ensures this.local == local && this.remote == remote
    {
      this.local, this.remote := local, remote;
    }
  }

  /** The counters of both machines: the server's pending ice, its count of the client's, its mirror
      of the client's; the client's pending ice, its mirror of the server's. */
  datatype Tally = Tally(server: int, enemy: int, serverMirror: int, client: int, clientMirror: int)

  ghost function TallyOf(s: GameState, c: GameState): Tally
    reads s.local`totalInterrupt, s.local`totalEnemyInterrupt, s.remote`totalInterrupt, c.local`totalInterrupt, c.remote`totalInterrupt
  {
    Tally(s.local.totalInterrupt, s.local.totalEnemyInterrupt, s.remote.totalInterrupt, c.local.totalInterrupt, c.remote.totalInterrupt)
  }

  /** Four different players, one machine the server; the flags agree with the counters. */
  ghost predicate Machines(s: GameState, c: GameState)
    reads s.local`totalInterrupt, s.local`hasIceBlock, c.local`totalInterrupt, c.local`hasIceBlock
  {
    && s.local != s.remote && s.local != c.local && s.local != c.remote && s.remote != c.local && s.remote != c.remote
    && c.local != c.remote && s.local.isServer && !c.local.isServer
    && (s.local.hasIceBlock <==> s.local.totalInterrupt > 0) && (c.local.hasIceBlock <==> c.local.totalInterrupt > 0)
  }

  // ---------------------------------------------------------------- handlers

  /** BasePlayer::UpdateInterruptBlock */
  method UpdateInterruptBlock(p: BasePlayer, count: int)
    modifies p`totalInterrupt, p`hasIceBlock
    ensures p.totalInterrupt == count && (p.hasIceBlock <==> count > 0)
  {
    p.totalInterrupt := count;
    p.hasIceBlock := count > 0;
  }

  function ToUint16(n: int): int { n % 0x1_0000 }

  /** What a defence leaves in the mirror of the defender. */
  function Defended(mirror: int, count: int): int {
    ToInt16(ToUint16(mirror - count))
  }

  /** The unsigned maximum with zero in RemotePlayer::DefenseInterruptBlockCount never takes effect:
      the mirror is right exactly when the defence does not exceed it. */
  lemma {:induction false} DefendedIff(mirror: int, count: int)
    requires 0 <= mirror < 0x8000 && 0 <= count < 0x8000
    ensures Defended(mirror, count) == (if mirror >= count then mirror - count else 0) <==> count <= mirror
  {
  }

  /** RemotePlayer::DefenseInterruptBlockCount */
  method DefendRemote(p: BasePlayer, count: int)
    modifies p`totalInterrupt, p`hasIceBlock
    ensures p.totalInterrupt == Defended(old(p.totalInterrupt), count) && (p.hasIceBlock <==> p.totalInterrupt > 0)
  {
    var left := ToUint16(p.totalInterrupt - count);
    p.totalInterrupt := ToInt16(if 0 > left then 0 else left);
    p.hasIceBlock := p.totalInterrupt > 0;
  }

  /** What a defence leaves in the server's count of the client's ice. */
  function Lowered(enemy: int, count: int): int {
    var n := ToInt16(enemy - count);
    if n < 0 then 0 else n
  }

  /** LocalPlayer::DefenseInterruptBlockCount, with the event it raises (GameState::HandleDefenseBlock). */
  method DefenseInterruptBlockCount(s: GameState, count: int)
    requires s.local != s.remote
    modifies s.local`totalEnemyInterrupt, s.remote`totalInterrupt, s.remote`hasIceBlock
    ensures s.local.totalEnemyInterrupt == Lowered(old(s.local.totalEnemyInterrupt), count)
    ensures s.remote.totalInterrupt == Defended(old(s.remote.totalInterrupt), count)
    ensures s.remote.hasIceBlock <==> s.remote.totalInterrupt > 0
  {
    s.local.totalEnemyInterrupt := ToInt16(s.local.totalEnemyInterrupt - count);
    if s.local.totalEnemyInterrupt < 0 {
      s.local.totalEnemyInterrupt := 0;
    }
    DefendRemote(s.remote, count);
  }

  /** LocalPlayer::AddInterruptBlockCount on the server, with the event it raises
      (GameState::HandleAttackInterruptBlock). */
  method AddInterruptBlockCount(s: GameState, count: int)
    requires s.local != s.remote && s.local.isServer
    modifies s.local`totalEnemyInterrupt, s.local`totalInterrupt, s.local`hasIceBlock, s.local`isComboAttack
    modifies s.remote`totalInterrupt, s.remote`hasIceBlock
    ensures s.local.totalEnemyInterrupt == 0 && s.local.totalInterrupt == ToInt16(old(s.local.totalInterrupt) + count)
    ensures s.remote.totalInterrupt == 0 && (s.local.hasIceBlock <==> s.local.totalInterrupt > 0) && s.local.isComboAttack
    ensures s.remote.hasIceBlock <==> s.remote.totalInterrupt > 0
  {
    if s.local.isServer {
      s.local.isComboAttack := true;
      s.local.totalEnemyInterrupt := 0;
      Ledger.AddInterruptBlock(s.local, count);
      UpdateInterruptBlock(s.remote, 0);
    }
  }

  /** GameState::HandleAttackInterrupt: the server's attack reaches the client. */
  method HandleAttackInterrupt(c: GameState, count: int)
    requires c.local != c.remote
    modifies c.local`totalInterrupt, c.local`hasIceBlock, c.local`isComboAttack, c.remote`totalInterrupt, c.remote`hasIceBlock
    ensures c.local.totalInterrupt == ToInt16(old(c.local.totalInterrupt) + count) && c.remote.totalInterrupt == 0
    ensures (c.local.hasIceBlock <==> c.local.totalInterrupt > 0) && c.local.isComboAttack && !c.remote.hasIceBlock
  {
    Ledger.AddInterruptBlock(c.local, count);
    UpdateInterruptBlock(c.remote, 0);
  }

  /** AttackInterruptProcessor and GameState::HandleAttackResultPlayerInterruptBlocCount: the client's
      attack reaches the server, whose answer sets both counters of the client. */
  method ProcessAttack(s: GameState, c: GameState, count: int)
    requires Machines(s, c)
    modifies s.local`totalEnemyInterrupt, s.local`totalInterrupt, s.local`hasIceBlock, s.local`isComboAttack
    modifies s.remote`totalInterrupt, s.remote`hasIceBlock, c.local`totalInterrupt, c.local`hasIceBlock
    modifies c.remote`totalInterrupt, c.remote`hasIceBlock
    ensures Machines(s, c) && s.local.isComboAttack
    ensures var n := ToInt16(old(s.local.totalInterrupt) + count); TallyOf(s, c) == Tally(n, 0, 0, 0, n)
  {
    AddInterruptBlockCount(s, count);
    var resultCount, attackerCount := s.local.totalInterrupt, s.local.totalEnemyInterrupt;
    UpdateInterruptBlock(c.remote, resultCount);
    UpdateInterruptBlock(c.local, attackerCount);
  }

  /** DefenseInterruptProcessor and GameState::HandleDefenseResultInterruptBlockCount: the server lowers
      its count of the client's ice and tells the client. */
  method ProcessDefense(s: GameState, c: GameState, count: int)
    requires Machines(s, c)
    modifies s.local`totalEnemyInterrupt, s.remote`totalInterrupt, s.remote`hasIceBlock, c.local`totalInterrupt, c.local`hasIceBlock
    ensures Machines(s, c)
    ensures
      var t := old(TallyOf(s, c));
      TallyOf(s, c) == t.(enemy := Lowered(t.enemy, count), serverMirror := Defended(t.serverMirror, count), client := Lowered(t.enemy, count))
  {
    DefenseInterruptBlockCount(s, count);
    UpdateInterruptBlock(c.local, s.local.totalEnemyInterrupt);
  }

  // ---------------------------------------------------------------- bullets and matches

  /** One bullet of the server carrying `count`. */
  function ServerBullet(t: Tally, count: int): Tally {
    if t.server > 0 then t.(clientMirror := Defended(t.clientMirror, count))
    else t.(client := ToInt16(t.client + count), clientMirror := 0, serverMirror := ToInt16(t.serverMirror + count))
  }

  /** One bullet of the client carrying `count`. */
  function ClientBullet(t: Tally, count: int): Tally {
    if t.client > 0 then
      t.(enemy := Lowered(t.enemy, count), serverMirror := Defended(t.serverMirror, count), client := Lowered(t.enemy, count))
    else
      var n := ToInt16(t.server + count);
      Tally(n, 0, 0, 0, n)
  }

  /** LocalPlayer::CreateBullet on the server: the first bullet of a match carries everything. */
  method CreateBulletOnServer(s: GameState, c: GameState)
    requires Machines(s, c)
    modifies s.local`addInterrupt, s.remote`totalInterrupt, s.remote`hasIceBlock, s.remote`isComboAttack
    modifies c.local`totalInterrupt, c.local`hasIceBlock, c.local`isComboAttack, c.remote`totalInterrupt, c.remote`hasIceBlock
    ensures Machines(s, c) && s.local.addInterrupt == 0
    ensures TallyOf(s, c) == ServerBullet(old(TallyOf(s, c)), old(s.local.addInterrupt))
    ensures c.local.isComboAttack <==> old(c.local.isComboAttack) || s.local.totalInterrupt <= 0
    ensures s.remote.isComboAttack <==> old(s.remote.isComboAttack) || s.local.totalInterrupt <= 0
  {
    if s.local.hasIceBlock {
      DefendRemote(c.remote, s.local.addInterrupt);
    } else {
      HandleAttackInterrupt(c, s.local.addInterrupt);
      if s.local.isServer {
        Ledger.AddInterruptBlock(s.remote, s.local.addInterrupt);
      }
    }
    s.local.addInterrupt := 0;
  }

  method CreateBulletOnClient(s: GameState, c: GameState)
    requires Machines(s, c)
    modifies s.local`totalEnemyInterrupt, s.local`totalInterrupt, s.local`hasIceBlock, s.local`isComboAttack
    modifies s.remote`totalInterrupt, s.remote`hasIceBlock, c.local`totalInterrupt, c.local`hasIceBlock, c.local`addInterrupt
    modifies c.remote`totalInterrupt, c.remote`hasIceBlock
    ensures Machines(s, c) && c.local.addInterrupt == 0
    ensures TallyOf(s, c) == ClientBullet(old(TallyOf(s, c)), old(c.local.addInterrupt))
    ensures s.local.isComboAttack <==> old(s.local.isComboAttack) || old(c.local.totalInterrupt) <= 0
  {
    if c.local.hasIceBlock {
      ProcessDefense(s, c, c.local.addInterrupt);
    } else {
      ProcessAttack(s, c, c.local.addInterrupt);
    }
    c.local.addInterrupt := 0;
  }

  function ServerBullets(t: Tally, count: int, n: nat): Tally {
    if n == 0 then t else ServerBullet(ServerBullets(t, count, n - 1), if n == 1 then count else 0)
  }

  function ClientBullets(t: Tally, count: int, n: nat): Tally {
    if n == 0 then t else ClientBullet(ClientBullets(t, count, n - 1), if n == 1 then count else 0)
  }

  /** A match of the server worth `attack`, with one bullet for each of its groups. */
  function ServerMatch(t: Tally, attack: int, groups: nat): Tally {
    var o := Offset(Counters(t.server, attack, t.enemy), true);
    ServerBullets(t.(server := o.pending, enemy := o.enemy), o.attack, groups)
  }

  function ClientMatch(t: Tally, attack: int, groups: nat): Tally {
    var o := Offset(Counters(t.client, attack, 0), false);
    ClientBullets(t.(client := o.pending), o.attack, groups)
  }

  /** The server's match: scoring offsets the counters, clearing sends the bullets. */
  method MatchOnServer(s: GameState, c: GameState, attack: int, groups: nat)
    requires Machines(s, c)
    modifies s.local`addInterrupt, s.local`totalInterrupt, s.local`totalEnemyInterrupt, s.local`hasIceBlock
    modifies s.remote`totalInterrupt, s.remote`hasIceBlock, s.remote`isComboAttack
    modifies c.local`totalInterrupt, c.local`hasIceBlock, c.local`isComboAttack, c.remote`totalInterrupt, c.remote`hasIceBlock
    ensures Machines(s, c) && TallyOf(s, c) == ServerMatch(old(TallyOf(s, c)), attack, groups)
    ensures groups > 0 ==> s.local.addInterrupt == 0
    ensures c.local.isComboAttack <==> old(c.local.isComboAttack) || (groups > 0 && s.local.totalInterrupt <= 0)
    ensures s.remote.isComboAttack <==> old(s.remote.isComboAttack) || (groups > 0 && s.local.totalInterrupt <= 0)
  {
    s.local.addInterrupt := attack;
    ghost var t0 := TallyOf(s, c);
    UpdateInterruptBlockState(s.local);
    ghost var t, count := TallyOf(s, c), s.local.addInterrupt;
    for n := 0 to groups
      invariant Machines(s, c) && TallyOf(s, c) == ServerBullets(t, count, n) && s.local.totalInterrupt == t.server
      invariant c.local.isComboAttack <==> old(c.local.isComboAttack) || (n > 0 && t.server <= 0)
      invariant s.remote.isComboAttack <==> old(s.remote.isComboAttack) || (n > 0 && t.server <= 0)
      invariant s.local.addInterrupt == if n == 0 then count else 0
    {
      CreateBulletOnServer(s, c);
    }
  }

  method MatchOnClient(s: GameState, c: GameState, attack: int, groups: nat)
    requires Machines(s, c)
    modifies c.local`addInterrupt, c.local`totalInterrupt, c.local`totalEnemyInterrupt, c.local`hasIceBlock
    modifies s.local`totalEnemyInterrupt, s.local`totalInterrupt, s.local`hasIceBlock, s.local`isComboAttack
    modifies s.remote`totalInterrupt, s.remote`hasIceBlock, c.remote`totalInterrupt, c.remote`hasIceBlock
    ensures Machines(s, c) && TallyOf(s, c) == ClientMatch(old(TallyOf(s, c)), attack, groups)
    ensures groups > 0 ==> c.local.addInterrupt == 0
  {
    c.local.addInterrupt := attack;
    UpdateInterruptBlockState(c.local);
    ghost var t, count := TallyOf(s, c), c.local.addInterrupt;
    for n := 0 to groups
      invariant Machines(s, c) && TallyOf(s, c) == ClientBullets(t, count, n)
      invariant c.local.addInterrupt == if n == 0 then count else 0
    {
      CreateBulletOnClient(s, c);
    }
  }

  // ---------------------------------------------------------------- the mirrors over whole runs

  predicate Small(n: int) {
    0 <= n < 0x8000
  }

  /** Every mirror shows the count of its owner. */
  predicate Mirrored(t: Tally) {
    && Small(t.server) && Small(t.client)
    && t.clientMirror == t.server && t.serverMirror == t.client && t.enemy == t.client
  }

  function Rest(pending: int, attack: int): int {
    if pending > attack then pending - attack else 0
  }

  function Excess(pending: int, attack: int): int {
    if attack > pending then attack - pending else 0
  }

  /** Later bullets carry nothing and change nothing. */
  lemma {:induction false} EmptyBullets(t: Tally)
    requires Mirrored(t)
    ensures ServerBullet(t, 0) == t && ClientBullet(t, 0) == t
  {
  }

  lemma {:induction false} MoreServerBullets(t: Tally, count: int, n: nat)
    requires n >= 1 && Mirrored(ServerBullet(t, count))
    ensures ServerBullets(t, count, n) == ServerBullet(t, count)
  {
    if n > 1 {
      MoreServerBullets(t, count, n - 1);
      EmptyBullets(ServerBullet(t, count));
    } else {
      assert ServerBullets(t, count, 0) == t;
    }
  }

  lemma {:induction false} MoreClientBullets(t: Tally, count: int, n: nat)
    requires n >= 1 && Mirrored(ClientBullet(t, count))
    ensures ClientBullets(t, count, n) == ClientBullet(t, count)
  {
    if n > 1 {
      MoreClientBullets(t, count, n - 1);
      EmptyBullets(ClientBullet(t, count));
    } else {
      assert ClientBullets(t, count, 0) == t;
    }
  }

  /** A match of the server, whatever its number of groups, lowers its own count, raises the client's
      by the rest, and leaves all mirrors right. */
  lemma {:induction false} ServerMatchMirrored(t: Tally, attack: int, groups: nat)
    requires Mirrored(t) && Small(attack) && groups >= 1 && Small(t.client + Excess(t.server, attack))
    ensures
      var t' := ServerMatch(t, attack, groups);
      Mirrored(t') && t'.server == Rest(t.server, attack) && t'.client == t.client + Excess(t.server, attack)
  {
    Ledger.OffsetLaw(t.server, attack, t.enemy, true);
    var o := Offset(Counters(t.server, attack, t.enemy), true);
    hide Offset, ServerBullets;
    FirstServerBullet(t, attack, o.attack);
    MoreServerBullets(t.(server := o.pending, enemy := o.enemy), o.attack, groups);
  }

  /** The bullet that carries the whole attack puts the mirrors right. */
  lemma {:induction false} FirstServerBullet(t: Tally, attack: int, count: int)
    requires Mirrored(t) && Small(attack) && Small(t.client + Excess(t.server, attack))
    requires count == if t.server > attack then attack else attack - t.server
    ensures
      var t' := ServerBullet(t.(server := Rest(t.server, attack), enemy := t.client + Excess(t.server, attack)), count);
      Mirrored(t') && t'.server == Rest(t.server, attack) && t'.client == t.client + Excess(t.server, attack)
  {
  }

  lemma {:induction false} FirstClientBullet(t: Tally, attack: int, count: int)
    requires Mirrored(t) && Small(attack) && Small(t.server + Excess(t.client, attack))
    requires count == if t.client > attack then attack else attack - t.client
    ensures
      var t' := ClientBullet(t.(client := Rest(t.client, attack)), count);
      Mirrored(t') && t'.client == Rest(t.client, attack) && t'.server == t.server + Excess(t.client, attack)
  {
  }

  lemma {:induction false} ClientMatchMirrored(t: Tally, attack: int, groups: nat)
    requires Mirrored(t) && Small(attack) && groups >= 1 && Small(t.server + Excess(t.client, attack))
    ensures
      var t' := ClientMatch(t, attack, groups);
      Mirrored(t') && t'.client == Rest(t.client, attack) && t'.server == t.server + Excess(t.client, attack)
  {
    Ledger.OffsetLaw(t.client, attack, 0, false);
    var o := Offset(Counters(t.client, attack, 0), false);
    hide Offset, ClientBullets;
    FirstClientBullet(t, attack, o.attack);
    MoreClientBullets(t.(client := o.pending), o.attack, groups);
  }

  datatype Play = ServerPlays(attack: int, groups: nat) | ClientPlays(attack: int, groups: nat)

  function Played(t: Tally, p: Play): Tally {
    match p
    case ServerPlays(a, n) => ServerMatch(t, a, n)
    case ClientPlays(a, n) => ClientMatch(t, a, n)
  }

  /** The match has groups and no 16-bit counter overflows. */
  predicate Playable(t: Tally, p: Play) {
    match p
    case ServerPlays(a, n) => Small(a) && n >= 1 && Small(t.client + Excess(t.server, a))
    case ClientPlays(a, n) => Small(a) && n >= 1 && Small(t.server + Excess(t.client, a))
  }

  function AllPlayed(t: Tally, plays: seq<Play>): Tally {
    if plays == [] then t else Played(AllPlayed(t, plays[..|plays| - 1]), plays[|plays| - 1])
  }

  predicate AllPlayable(t: Tally, plays: seq<Play>) {
    plays == []
    || (AllPlayable(t, plays[..|plays| - 1]) && Playable(AllPlayed(t, plays[..|plays| - 1]), plays[|plays| - 1]))
  }

  /** However the two players' matches alternate, every mirror keeps showing its owner's count. */
  lemma {:induction false} MirrorsHold(t: Tally, plays: seq<Play>)
    requires Mirrored(t) && AllPlayable(t, plays)
    ensures Mirrored(AllPlayed(t, plays))
  {
    if plays != [] {
      var before, p := AllPlayed(t, plays[..|plays| - 1]), plays[|plays| - 1];
      MirrorsHold(t, plays[..|plays| - 1]);
      match p {
        case ServerPlays(a, n) => ServerMatchMirrored(before, a, n);
        case ClientPlays(a, n) => ClientMatchMirrored(before, a, n);
      }
    }
  }

  // ---------------------------------------------------------------- where the mirrors go wrong

  /** What the mirror of a player shows after that player has dropped ice: a drop of whole rows only,
      unless it is a large one, is not sent at all. */
  function MirrorAfterDrop(mirror: int, pending: int): int {
    if mirror <= 0 then mirror
    else if pending > 30 then ToInt16(mirror - 30)
    else if pending % 6 > 0 then ToInt16(mirror - ToUint16(pending / 6 * 6 + pending % 6))
    else mirror
  }

  function ServerDrop(t: Tally): Tally {
    t.(server := if t.server > 30 then t.server - 30 else 0, clientMirror := MirrorAfterDrop(t.clientMirror, t.server))
  }

  function ClientDrop(t: Tally): Tally {
    t.(client := if t.client > 30 then t.client - 30 else 0, serverMirror := MirrorAfterDrop(t.serverMirror, t.client))
  }

  /** A drop of the server keeps the mirrors right exactly when it is large or has an incomplete row. */
  lemma {:induction false} ServerDropMirroredIff(t: Tally)
    requires Mirrored(t) && t.server > 0
    ensures Mirrored(ServerDrop(t)) <==> t.server > 30 || t.server % 6 != 0
  {
  }

  /** A drop of the client never does: the server's own count of the client's ice is not lowered, ... */
  lemma {:induction false} ClientDropNotMirrored(t: Tally)
    requires Mirrored(t) && t.client > 0
    ensures ClientDrop(t).enemy == t.client > ClientDrop(t).client && !Mirrored(ClientDrop(t))
  {
  }

  // ---------------------------------------------------------------- the owners' counts, mirrored or not

  predicate SmallCounts(t: Tally) {
    Small(t.server) && Small(t.client) && Small(t.enemy)
  }

  lemma {:induction false} ServerBulletCounts(t: Tally, count: int, n: nat)
    requires SmallCounts(t) && Small(count) && Small(t.client + count) && n >= 1
    ensures
      var r := ServerBullets(t, count, n);
      r.server == t.server && r.enemy == t.enemy && r.client == if t.server > 0 then t.client else t.client + count
  {
    if n > 1 {
      ServerBulletCounts(t, count, n - 1);
    } else {
      assert ServerBullets(t, count, 0) == t;
    }
  }

  lemma {:induction false} ClientBulletCounts(t: Tally, count: int, n: nat)
    requires SmallCounts(t) && Small(count) && Small(t.server + count) && n >= 1
    ensures
      var r := ClientBullets(t, count, n);
      if t.client > 0 then r.server == t.server && r.client == r.enemy == Rest(t.enemy, count)
      else r.server == t.server + count && r.client == r.enemy == 0
  {
    if n > 1 {
      ClientBulletCounts(t, count, n - 1);
    } else {
      assert ClientBullets(t, count, 0) == t;
    }
  }

  /** A match of the server, whatever the mirrors show. */
  lemma {:induction false} ServerMatchCounts(t: Tally, attack: int, groups: nat)
    requires SmallCounts(t) && Small(attack) && groups >= 1
    requires Small(t.client + Excess(t.server, attack)) && Small(t.enemy + Excess(t.server, attack))
    ensures
      var r := ServerMatch(t, attack, groups);
      && r.server == Rest(t.server, attack)
      && r.client == t.client + Excess(t.server, attack) && r.enemy == t.enemy + Excess(t.server, attack)
  {
    Ledger.OffsetLaw(t.server, attack, t.enemy, true);
    var o := Offset(Counters(t.server, attack, t.enemy), true);
    hide Offset, ServerBullets;
    ServerBulletCounts(t.(server := o.pending, enemy := o.enemy), if o.pending > 0 then 0 else o.attack, groups);
    if o.pending > 0 { DefenceOnly(t.(server := o.pending, enemy := o.enemy), o.attack, groups); }
  }

  /** While the server has ice pending its bullets touch nothing but a mirror. */
  lemma {:induction false} DefenceOnly(t: Tally, count: int, n: nat)
    requires t.server > 0
    ensures var r := ServerBullets(t, count, n); r.server == t.server && r.enemy == t.enemy && r.client == t.client
  {
    if n > 0 { DefenceOnly(t, count, n - 1); }
  }

  /** A match of the client, whatever the mirrors show: after a defence the client has what the server's own
      count of it leaves, after an attack both counts are zero. */
  lemma {:induction false} ClientMatchCounts(t: Tally, attack: int, groups: nat)
    requires SmallCounts(t) && Small(attack) && groups >= 1 && Small(t.server + Excess(t.client, attack))
    ensures
      var r := ClientMatch(t, attack, groups);
      && r.server == t.server + Excess(t.client, attack)
      && r.client == r.enemy == if attack < t.client then Rest(t.enemy, attack) else 0
  {
    Ledger.OffsetLaw(t.client, attack, 0, false);
    var o := Offset(Counters(t.client, attack, 0), false);
    hide Offset, ClientBullets;
    if attack < t.client {
      DefenceCounts(t.(client := o.pending), o.attack, groups);
    } else {
      ClientBulletCounts(t.(client := o.pending), o.attack, groups);
    }
  }

  lemma {:induction false} DefenceCounts(t: Tally, count: int, n: nat)
    requires SmallCounts(t) && Small(count) && t.client > 0 && n >= 1
    ensures var r := ClientBullets(t, count, n); r.server == t.server && r.client == r.enemy == Rest(t.enemy, count)
  {
    if n > 1 {
      DefenceCounts(t, count, n - 1);
    } else {
      assert ClientBullets(t, count, 0) == t;
    }
  }

  /** A client's match with any number of groups leaves the client with what it should have exactly when it
      was an attack or the server's count of the client's ice was right before. */
  lemma {:induction false} DefenceRightIff(t: Tally, attack: int, groups: nat)
    requires SmallCounts(t) && Small(attack) && groups >= 1 && Small(t.server + Excess(t.client, attack))
    ensures ClientMatch(t, attack, groups).client == Rest(t.client, attack) <==> attack >= t.client || t.enemy == t.client
  {
    ClientMatchCounts(t, attack, groups);
    hide ClientMatch;
  }
}
