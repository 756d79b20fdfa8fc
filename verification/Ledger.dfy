/** The ledger of pending ice over a whole run: attacks received, matches made, ice dropped. */
module Ledger {
  import opened PuyoBlocks
  import opened Players
  import opened Scoring
  import opened Garbage

  /** A match offsets pending ice and attack against each other: nothing goes below zero, and an
      attack goes out only when no ice is left pending. */
  lemma {:induction false} OffsetLaw(pending: int, attack: int, enemy: int, isServer: bool)
    requires 0 <= pending < 0x8000 && 0 <= attack < 0x8000
    ensures
      var c := Offset(Counters(pending, attack, enemy), isServer);
      && c.pending == (if pending > attack then pending - attack else 0)
      && (pending <= attack ==> c.attack == attack - pending)
      && (pending > attack ==> c.attack == attack)
      && c.enemy == if isServer && attack > pending then ToInt16(enemy + (attack - pending)) else enemy
  {
  }

  /** A round's points and the carried remainder are split without loss into ice blocks at their price and a new
      remainder; an attack of less than 2^15 blocks first cancels what is pending, and only what is left
      of it goes out. */
  lemma {:induction false} EarnLaw(b: Purse, r: Round, isServer: bool) returns (attack: int)
    requires 0 <= b.rest < MAX_MARGIN && 0 <= r.score && 1 <= r.margin <= MAX_MARGIN && 0 <= b.counters.pending < 0x8000
    ensures attack * r.margin + Earn(b, r, isServer).rest == r.score + b.rest && 0 <= Earn(b, r, isServer).rest < r.margin
    ensures 0 <= attack && Earn(b, r, isServer).scored.rounds == b.scored.rounds + [r]
    ensures attack < 0x8000 ==>
      var c, t := Earn(b, r, isServer).counters, b.counters.pending;
      && c.pending == (if t > attack then t - attack else 0)
      && c.attack == (if t > attack then attack else attack - t)
      && c.enemy == (if isServer && attack > t then ToInt16(b.counters.enemy + (attack - t)) else b.counters.enemy)
  {
    attack := Attack(r, b.rest);
    DivMod(r.score + b.rest, r.margin);
    AttackNonNegative(r, b.rest);
    EarnIs(b, r, isServer);
    if attack < 0x8000 {
      AttackCounted(r, b.rest);
      OffsetLaw(b.counters.pending, attack, b.counters.enemy, isServer);
    }
    hide Earn, Offset;
  }

  /** An attack arrives (BasePlayer::AddInterruptBlock). */
  method AddInterruptBlock(p: BasePlayer, count: int)
    modifies p`totalInterrupt, p`hasIceBlock, p`isComboAttack
    ensures p.totalInterrupt == ToInt16(old(p.totalInterrupt) + count)
    ensures (p.hasIceBlock <==> p.totalInterrupt > 0) && p.isComboAttack
  {
    p.totalInterrupt := ToInt16(p.totalInterrupt + count);
    p.hasIceBlock := p.totalInterrupt > 0;
    p.isComboAttack := true;
  }

  /** What can happen to a player's pending ice.  `Answered` is the server's answer to a client, which
      overwrites the client's count with the server's own (GameState::HandleDefenseResultInterruptBlockCount
      and HandleAttackResultPlayerInterruptBlocCount). */
  datatype Event = Received(count: int) | Matched(attack: int) | Drop | Answered(count: int)

  /** All that has been received, scored, sent on and put on the board, beside what is pending. */
  datatype Book = Book(pending: int, received: int, scored: int, forwarded: int, dropped: int)

  function Enter(b: Book, e: Event, isServer: bool): Book {
    match e
    case Received(n) => b.(pending := ToInt16(b.pending + n), received := b.received + n)
    case Matched(a) =>
      var c := Offset(Counters(b.pending, a, 0), isServer);
      b.(pending := c.pending, scored := b.scored + a, forwarded := b.forwarded + if c.pending == 0 then c.attack else 0)
    case Drop =>
      if b.pending <= 0 then b
      else b.(pending := AfterDrop(b.pending), dropped := b.dropped + 6 * DropRows(b.pending) + DropColumns(b.pending))
    case Answered(n) => b.(pending := n)
  }

  function Booked(b: Book, events: seq<Event>, isServer: bool): Book {
    if events == [] then b
    else Enter(Booked(b, events[..|events| - 1], isServer), events[|events| - 1], isServer)
  }

  /** The 16-bit counter can hold what arrives, and an answer gives the count that the player has. */
  predicate Bookable(b: Book, e: Event) {
    match e
    case Received(n) => 0 <= n && b.pending + n < 0x8000
    case Matched(a) => 0 <= a < 0x8000
    case Drop => true
    case Answered(n) => n == b.pending
  }

  predicate AllBookable(b: Book, events: seq<Event>, isServer: bool) {
    events == []
    || (AllBookable(b, events[..|events| - 1], isServer) && Bookable(Booked(b, events[..|events| - 1], isServer), events[|events| - 1]))
  }

  predicate Balanced(b: Book) {
    && 0 <= b.pending < 0x8000
    && b.received == b.pending + (b.scored - b.forwarded) + b.dropped
  }

  lemma {:induction false} DropKeeps(b: Book, isServer: bool)
    requires 0 <= b.pending
    ensures Balanced(b) ==> Balanced(Enter(b, Drop, isServer))
    ensures Enter(b, Drop, isServer).pending == if b.pending > 30 then b.pending - 30 else 0
  {
  }

  lemma {:induction false} EnterBalanced(b: Book, e: Event, isServer: bool)
    requires Balanced(b) && Bookable(b, e)
    ensures Balanced(Enter(b, e, isServer))
  {
    if e.Matched? { OffsetLaw(b.pending, e.attack, 0, isServer); }
  }

  /** Over every run, as long as answers give the right count, what was received is pending, was cancelled by
      matches, or lies on the board. */
  lemma {:induction false} GarbageConserved(b: Book, events: seq<Event>, isServer: bool)
    requires Balanced(b) && AllBookable(b, events, isServer)
    ensures Balanced(Booked(b, events, isServer))
  {
    if events != [] {
      GarbageConserved(b, events[..|events| - 1], isServer);
      EnterBalanced(Booked(b, events[..|events| - 1], isServer), events[|events| - 1], isServer);
    }
  }

  /** The balance is kept by an arriving attack exactly when the counter can hold the sum. */
  lemma {:induction false} ReceivedFits(b: Book, n: int, isServer: bool)
    requires Balanced(b) && 0 <= n < 0x8000
    ensures Balanced(Enter(b, Received(n), isServer)) <==> b.pending + n < 0x8000
  {
  }

  /** An answer keeps the balance exactly when it gives the count that the player has. */
  lemma {:induction false} AnswerFits(b: Book, n: int, isServer: bool)
    requires Balanced(b) && 0 <= n < 0x8000
    ensures Balanced(Enter(b, Answered(n), isServer)) <==> n == b.pending
  {
  }
}
