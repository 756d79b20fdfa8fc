/** The garbage of both machines over whole runs of matches and drops: when the books of the two players
    balance. */
module Conservation {
  import opened Scoring
  import opened Mirror
  import Ledger

  datatype Move = ServerMatches(attack: int, groups: nat) | ClientMatches(attack: int, groups: nat) | ServerDrops | ClientDrops

  /** The counters of both machines, and the books of their players. */
  datatype World = World(tally: Tally, server: Ledger.Book, client: Ledger.Book)

  function Next(w: World, m: Move): World {
    var t := w.tally;
    match m
    case ServerMatches(a, n) =>
      World(ServerMatch(t, a, n),
            Ledger.Enter(w.server, Ledger.Matched(a), true),
            Ledger.Enter(w.client, Ledger.Received(Excess(t.server, a)), false))
    case ClientMatches(a, n) =>
      var t' := ClientMatch(t, a, n);
      World(t',
            Ledger.Enter(w.server, Ledger.Received(Excess(t.client, a)), true),
            Ledger.Enter(Ledger.Enter(w.client, Ledger.Matched(a), false), Ledger.Answered(t'.client), false))
    case ServerDrops => World(ServerDrop(t), Ledger.Enter(w.server, Ledger.Drop, true), w.client)
    case ClientDrops => World(ClientDrop(t), w.server, Ledger.Enter(w.client, Ledger.Drop, false))
  }

  /** The move has groups if it is a match, and no 16-bit counter overflows. */
  predicate Countable(t: Tally, m: Move) {
    match m
    case ServerMatches(a, n) =>
      Small(a) && n >= 1 && Small(t.client + Excess(t.server, a)) && Small(t.enemy + Excess(t.server, a))
    case ClientMatches(a, n) => Small(a) && n >= 1 && Small(t.server + Excess(t.client, a))
    case ServerDrops => true
    case ClientDrops => true
  }

  /** The books agree with the counters. */
  predicate InBooks(w: World) {
    SmallCounts(w.tally) && w.server.pending == w.tally.server && w.client.pending == w.tally.client
  }

  /** A client that defends is told the right count: the server has not missed a drop of the client's. */
  predicate ToldRight(t: Tally, m: Move) {
    m.ClientMatches? && m.attack < t.client ==> t.enemy == t.client
  }

  /** Every move keeps books and counters together and the server's book balanced; the client's book stays
      balanced exactly when the client is told the right count. */
  lemma {:induction false} MoveConserves(w: World, m: Move)
    requires InBooks(w) && Countable(w.tally, m) && Ledger.Balanced(w.server)
    ensures InBooks(Next(w, m)) && Ledger.Balanced(Next(w, m).server)
    ensures Ledger.Balanced(w.client) ==> (Ledger.Balanced(Next(w, m).client) <==> ToldRight(w.tally, m))
  {
    hide *;
    match m {
      case ServerMatches(a, n) => ServerConserves(w, a, n);
      case ClientMatches(a, n) => ClientConserves(w, a, n);
      case ServerDrops => DropsConserve(w);
      case ClientDrops => DropsConserve(w);
    }
  }

  lemma {:induction false} ServerConserves(w: World, a: int, n: nat)
    requires InBooks(w) && Countable(w.tally, ServerMatches(a, n)) && Ledger.Balanced(w.server)
    ensures
      var w' := Next(w, ServerMatches(a, n));
      InBooks(w') && Ledger.Balanced(w'.server) && (Ledger.Balanced(w.client) ==> Ledger.Balanced(w'.client))
    ensures ToldRight(w.tally, ServerMatches(a, n))
  {
    ServerMatchCounts(w.tally, a, n);
    Ledger.OffsetLaw(w.tally.server, a, 0, true);
    hide ServerMatch, Offset;
  }

  lemma {:induction false} ClientConserves(w: World, a: int, n: nat)
    requires InBooks(w) && Countable(w.tally, ClientMatches(a, n)) && Ledger.Balanced(w.server)
    ensures
      var w' := Next(w, ClientMatches(a, n));
      && InBooks(w') && Ledger.Balanced(w'.server)
      && (Ledger.Balanced(w.client) ==> (Ledger.Balanced(w'.client) <==> ToldRight(w.tally, ClientMatches(a, n))))
  {
    ClientMatchCounts(w.tally, a, n);
    DefenceRightIff(w.tally, a, n);
    Ledger.OffsetLaw(w.tally.client, a, 0, false);
    hide ClientMatch, Offset;
  }

  lemma {:induction false} DropsConserve(w: World)
    requires InBooks(w) && Ledger.Balanced(w.server)
    ensures InBooks(Next(w, ServerDrops)) && Ledger.Balanced(Next(w, ServerDrops).server)
    ensures InBooks(Next(w, ClientDrops)) && Ledger.Balanced(Next(w, ClientDrops).server)
    ensures Ledger.Balanced(w.client) ==> Ledger.Balanced(Next(w, ServerDrops).client) && Ledger.Balanced(Next(w, ClientDrops).client)
    ensures ToldRight(w.tally, ServerDrops) && ToldRight(w.tally, ClientDrops)
  {
    Ledger.DropKeeps(w.server, true);
    Ledger.DropKeeps(w.client, false);
    hide Ledger.Enter, Ledger.Balanced, MirrorAfterDrop;
  }

  function AfterMoves(w: World, moves: seq<Move>): World {
    if moves == [] then w else Next(AfterMoves(w, moves[..|moves| - 1]), moves[|moves| - 1])
  }

  predicate AllCountable(w: World, moves: seq<Move>) {
    moves == []
    || (AllCountable(w, moves[..|moves| - 1]) && Countable(AfterMoves(w, moves[..|moves| - 1]).tally, moves[|moves| - 1]))
  }

  predicate AllToldRight(w: World, moves: seq<Move>) {
    moves == []
    || (AllToldRight(w, moves[..|moves| - 1]) && ToldRight(AfterMoves(w, moves[..|moves| - 1]).tally, moves[|moves| - 1]))
  }

  /** The client's book balances before every move and at the end. */
  predicate ClientBalances(w: World, moves: seq<Move>) {
    Ledger.Balanced(AfterMoves(w, moves).client) && (moves == [] || ClientBalances(w, moves[..|moves| - 1]))
  }

  /** However matches and drops of both players alternate, the server's garbage is conserved; the client's is,
      all along, exactly when every defence of the client is answered with the right count. */
  lemma {:induction false} BothConserve(w: World, moves: seq<Move>)
    requires InBooks(w) && Ledger.Balanced(w.server) && Ledger.Balanced(w.client) && AllCountable(w, moves)
    ensures InBooks(AfterMoves(w, moves)) && Ledger.Balanced(AfterMoves(w, moves).server)
    ensures ClientBalances(w, moves) <==> AllToldRight(w, moves)
  {
    hide InBooks, Ledger.Balanced, Next, Countable, ToldRight;
    if moves != [] {
      var front := moves[..|moves| - 1];
      BothConserve(w, front);
      MoveConserves(AfterMoves(w, front), moves[|moves| - 1]);
    }
  }

  /** How far the server's count of the client's ice is ahead: matches of the server leave it as it is, every
      match of the client closes it, and only the client's drops open it. */
  lemma {:induction false} AheadBy(w: World, m: Move)
    requires SmallCounts(w.tally) && Countable(w.tally, m)
    ensures
      var t, t' := w.tally, Next(w, m).tally;
      t'.enemy - t'.client ==
        match m
        case ServerMatches(_, _) => t.enemy - t.client
        case ClientMatches(_, _) => 0
        case ServerDrops => t.enemy - t.client
        case ClientDrops => t.enemy - t.client + (if t.client > 30 then 30 else t.client)
  {
    var t := w.tally;
    match m {
      case ServerMatches(a, n) => ServerMatchCounts(t, a, n);
      case ClientMatches(a, n) => ClientMatchCounts(t, a, n);
      case ServerDrops =>
      case ClientDrops =>
    }
    hide ServerMatch, ClientMatch;
  }

  lemma {:induction false} SmallAgain(w: World, m: Move)
    requires SmallCounts(w.tally) && Countable(w.tally, m)
    ensures SmallCounts(Next(w, m).tally)
  {
    var t := w.tally;
    match m {
      case ServerMatches(a, n) => ServerMatchCounts(t, a, n);
      case ClientMatches(a, n) => ClientMatchCounts(t, a, n);
      case ServerDrops =>
      case ClientDrops =>
    }
    hide ServerMatch, ClientMatch;
  }

  /** The client has dropped ice since its last match. */
  predicate DropsOpen(w: World, moves: seq<Move>) {
    moves != []
    && match moves[|moves| - 1]
       case ClientMatches(_, _) => false
       case ClientDrops => AfterMoves(w, moves[..|moves| - 1]).tally.client > 0 || DropsOpen(w, moves[..|moves| - 1])
       case _ => DropsOpen(w, moves[..|moves| - 1])
  }

  /** The server's count of the client's ice is ahead exactly while there are such drops. */
  lemma {:induction false} AheadIffOpen(w: World, moves: seq<Move>)
    requires SmallCounts(w.tally) && w.tally.enemy == w.tally.client && AllCountable(w, moves)
    ensures SmallCounts(AfterMoves(w, moves).tally) && AfterMoves(w, moves).tally.enemy >= AfterMoves(w, moves).tally.client
    ensures AfterMoves(w, moves).tally.enemy > AfterMoves(w, moves).tally.client <==> DropsOpen(w, moves)
  {
    hide Next, Countable;
    if moves != [] {
      var front, m := moves[..|moves| - 1], moves[|moves| - 1];
      AheadIffOpen(w, front);
      SmallAgain(AfterMoves(w, front), m);
      AheadBy(AfterMoves(w, front), m);
    }
  }

  /** No defence of the client follows a drop of the client's without a match of the client's in between. */
  predicate NoDefenceAfterDrop(w: World, moves: seq<Move>) {
    moves == []
    || (var front, m := moves[..|moves| - 1], moves[|moves| - 1];
        NoDefenceAfterDrop(w, front) && !(m.ClientMatches? && m.attack < AfterMoves(w, front).tally.client && DropsOpen(w, front)))
  }

  /** In those terms: from right counts, the client's garbage is conserved all along exactly when the client never
      defends first after a drop. */
  lemma {:induction false} ConservedIff(w: World, moves: seq<Move>)
    requires InBooks(w) && Ledger.Balanced(w.server) && Ledger.Balanced(w.client) && AllCountable(w, moves)
    requires w.tally.enemy == w.tally.client
    ensures ClientBalances(w, moves) <==> NoDefenceAfterDrop(w, moves)
  {
    BothConserve(w, moves);
    OpenBooks(w);
    ToldRightIff(w, moves);
    hide *;
  }

  lemma {:induction false} OpenBooks(w: World)
    requires InBooks(w)
    ensures SmallCounts(w.tally)
  {
  }

  lemma {:induction false} ToldRightIff(w: World, moves: seq<Move>)
    requires SmallCounts(w.tally) && w.tally.enemy == w.tally.client && AllCountable(w, moves)
    ensures AllToldRight(w, moves) <==> NoDefenceAfterDrop(w, moves)
  {
    hide Next, Countable, SmallCounts, DropsOpen;
    if moves != [] {
      var front := moves[..|moves| - 1];
      ToldRightIff(w, front);
      AheadIffOpen(w, front);
    }
  }

  /** Only the server matches and drops. */
  predicate ServerOnly(moves: seq<Move>) {
    forall i :: 0 <= i < |moves| ==> moves[i].ServerMatches? || moves[i].ServerDrops?
  }

  lemma {:induction false} ServerLeavesGap(w: World, moves: seq<Move>)
    requires SmallCounts(w.tally) && AllCountable(w, moves) && ServerOnly(moves)
    ensures
      var t, t' := w.tally, AfterMoves(w, moves).tally;
      SmallCounts(t') && t'.enemy - t'.client == t.enemy - t.client
  {
    hide Next, Countable, SmallCounts;
    if moves != [] {
      var front, m := moves[..|moves| - 1], moves[|moves| - 1];
      assert ServerOnly(front);
      ServerLeavesGap(w, front);
      SmallAgain(AfterMoves(w, front), m);
      AheadBy(AfterMoves(w, front), m);
    }
  }

  /** After any drop, large or small, and whatever the server does in between, the client's next defence makes
      all the ice that has come down pending again. */
  lemma {:induction false} DroppedIceComesBack(w: World, moves: seq<Move>, attack: int, groups: nat)
    requires SmallCounts(w.tally) && w.tally.enemy == w.tally.client && ServerOnly(moves)
    requires
      var d := Next(w, ClientDrops);
      AllCountable(d, moves) && Countable(AfterMoves(d, moves).tally, ClientMatches(attack, groups))
    ensures
      var d := Next(w, ClientDrops);
      var e := AfterMoves(d, moves).tally;
      attack < e.client ==> ClientMatch(e, attack, groups).client == e.client - attack + (w.tally.client - d.tally.client)
  {
    var d := Next(w, ClientDrops);
    SmallAgain(w, ClientDrops);
    AheadBy(w, ClientDrops);
    ServerLeavesGap(d, moves);
    var e := AfterMoves(d, moves).tally;
    hide AfterMoves, AllCountable, ClientMatch, ClientDrop;
    if attack < e.client { ClientMatchCounts(e, attack, groups); }
  }
}
