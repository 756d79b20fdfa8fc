/** The facts behind the scan for matching groups, about cells only. */
module Matching {
  import opened Geometry
  import opened Connectivity

  const MIN_MATCH_COUNT := 4

  lemma {:induction false} BoardSizes()
    ensures BOARD_X_COUNT == 6 && BOARD_Y_COUNT == 13 && MIN_MATCH_COUNT == 4
  {
  }

  ghost predicate Distinct<T>(s: seq<T>) {
    forall i, j :: 0 <= i < j < |s| ==> s[i] != s[j]
  }

  /** `cs` lists, once each, the cells that a fill from `seed` has marked on top of
      `m0`; all belong to the group of `seed`, and the fill is complete at each of them. */
  ghost predicate Filled(g: Colours, seed: Cell, m0: set<Cell>, m: set<Cell>, cs: seq<Cell>) {
    && Distinct(cs)
    && (forall c :: c in cs ==> c !in m0 && Connected(g, seed, c))
    && m == m0 + (set c | c in cs)
    && (forall a, b :: a in cs && Linked(g, a, b) ==> b in m)
  }

  /** The first `k` directions from `seed` have been looked at. */
  ghost predicate Expanded(g: Colours, seed: Cell, m: set<Cell>, k: int)
    requires 0 <= k <= 4
  {
    forall j :: 0 <= j < k && Linked(g, seed, Neighbour(seed, DirectionAt(j))) ==> Neighbour(seed, DirectionAt(j)) in m
  }

  lemma {:induction false} NothingFilled(g: Colours, seed: Cell, m: set<Cell>)
    ensures Filled(g, seed, m, m, []) && Expanded(g, seed, m, 0)
  {
  }

  /** Looking one direction further: it leads outside the group, or to a marked
      cell, or to a cell of the group that is still to be marked. */
  lemma {:induction false} LookAround(g: Colours, seed: Cell, m0: set<Cell>, m: set<Cell>, cs: seq<Cell>, k: int)
    requires 0 <= k < 4 && Expanded(g, seed, m, k) && seed in g && Filled(g, seed, m0, m, cs)
    ensures m0 <= m
    ensures DirectionAt(k) != None && Opposite(DirectionAt(k)) != None
    ensures Neighbour(Neighbour(seed, DirectionAt(k)), Opposite(DirectionAt(k))) == seed
    ensures
      var c := Neighbour(seed, DirectionAt(k));
      && (c in m || c !in g || g[c] != g[seed] ==> Expanded(g, seed, m, k + 1))
      && (c in g && g[c] == g[seed] ==> Linked(g, seed, c))
  {
  }

  /** A fill from a neighbour `c` completes the `k`-th direction of the fill from `seed`. */
  lemma {:induction false} FilledExtends(g: Colours, seed: Cell, m0: set<Cell>, m1: set<Cell>, cs1: seq<Cell>,
                      c: Cell, m2: set<Cell>, cs2: seq<Cell>, k: int)
    requires 0 <= k < 4 && c == Neighbour(seed, DirectionAt(k))
    requires Filled(g, seed, m0, m1, cs1) && Expanded(g, seed, m1, k)
    requires c !in m1 && Linked(g, seed, c)
    requires Filled(g, c, m1 + {c}, m2, cs2) && Expanded(g, c, m2, 4)
    ensures Filled(g, seed, m0, m2, cs1 + [c] + cs2) && Expanded(g, seed, m2, k + 1)
  {
    var cs := cs1 + [c] + cs2;
    ConnectedReflexive(g, seed);
    ConnectedExtend(g, seed, seed, c);
    forall d | d in cs
      ensures d !in m0 && Connected(g, seed, d)
    {
      if d in cs2 { ConnectedTransitive(g, seed, c, d); }
    }
    forall i, j | 0 <= i < j < |cs|
      ensures cs[i] != cs[j]
    {
      if i < |cs1| {
        assert cs[i] in cs1 && cs[i] in m1;
        if j > |cs1| { assert cs[j] in cs2; }
      } else {
        assert cs[j] in cs2;
        if i > |cs1| { assert cs[i] == cs2[i - |cs1| - 1] && cs[j] == cs2[j - |cs1| - 1]; }
      }
    }
    assert m2 == m0 + (set d | d in cs);
    forall a, b | a in cs && Linked(g, a, b)
      ensures b in m2
    {
      if a == c { AdjacentByDirection(a, b); }
    }
  }

  /** A matched group: one whole component, of at least four cells, each listed once. */
  ghost predicate IsGroup(g: Colours, cs: seq<Cell>) {
    && |cs| >= MIN_MATCH_COUNT
    && Distinct(cs)
    && forall c :: c in cs ==> c in g && Component(g, c) == (set d | d in cs)
  }

  ghost predicate Disjoint(groups: seq<seq<Cell>>) {
    forall i, j, c :: 0 <= i < j < |groups| && c in groups[i] ==> c !in groups[j]
  }

  ghost predicate InSome(groups: seq<seq<Cell>>, c: Cell) {
    exists i :: 0 <= i < |groups| && c in groups[i]
  }

  ghost predicate Scanned(c: Cell, x: int, y: int) {
    c.y < y || (c.y == y && c.x < x)
  }

  /** What the scan knows before it looks at (x, y): disjoint whole groups, the marks are
      exactly their cells, and no scanned cell of a large component is missing. */
  ghost predicate ScanInvariant(g: Colours, groups: seq<seq<Cell>>, m: set<Cell>, x: int, y: int) {
    && (forall i :: 0 <= i < |groups| ==> IsGroup(g, groups[i]))
    && Disjoint(groups)
    && (forall c :: c in m <==> InSome(groups, c))
    && (forall c :: c in g && Scanned(c, x, y) && |Component(g, c)| >= MIN_MATCH_COUNT ==> c in m)
  }

  /** All matching groups, each once. */
  ghost predicate AllGroups(g: Colours, groups: seq<seq<Cell>>) {
    && (forall i :: 0 <= i < |groups| ==> IsGroup(g, groups[i]))
    && Disjoint(groups)
    && (forall c :: c in g && |Component(g, c)| >= MIN_MATCH_COUNT ==> InSome(groups, c))
  }

  /** The number of occupied cells met before (x, y). */
  ghost function Count(occupied: set<Cell>, x: int, y: int): nat {
    |set c | c in occupied && Scanned(c, x, y)|
  }

  lemma {:induction false} ScanStart(g: Colours, occupied: set<Cell>)
    requires g.Keys <= occupied && forall c :: c in occupied ==> InBoard(c)
    ensures ScanInvariant(g, [], {}, 0, 0) && Count(occupied, 0, 0) == 0
  {
    assert (set c | c in occupied && Scanned(c, 0, 0)) == {};
  }

  lemma {:induction false} CountStep(occupied: set<Cell>, x: int, y: int)
    ensures Count(occupied, x + 1, y) == Count(occupied, x, y) + if Cell(x, y) in occupied then 1 else 0
  {
    var before := set c | c in occupied && Scanned(c, x, y);
    var after := set c | c in occupied && Scanned(c, x + 1, y);
    if Cell(x, y) in occupied {
      assert after == before + {Cell(x, y)};
    } else {
      assert after == before;
    }
  }

  /** Whether a row was scanned to its end or left because every block had been met,
      nothing of it is left to see. */
  lemma {:induction false} RowDone(occupied: set<Cell>, x: int, y: int)
    requires forall c :: c in occupied ==> InBoard(c)
    requires 0 <= x <= BOARD_X_COUNT
    requires x == BOARD_X_COUNT || Count(occupied, x, y) == |occupied|
    ensures forall c :: c in occupied && Scanned(c, 0, y + 1) ==> Scanned(c, x, y)
    ensures Count(occupied, 0, y + 1) == Count(occupied, x, y)
  {
    var met := set c | c in occupied && Scanned(c, x, y);
    if x < BOARD_X_COUNT {
      SubsetOfSameSize(met, occupied);
    }
    assert met == set c | c in occupied && Scanned(c, 0, y + 1);
  }

  lemma {:induction false} SubsetOfSameSize<T>(a: set<T>, b: set<T>)
    requires a <= b && |a| == |b|
    ensures a == b
  {
    assert b == a + (b - a);
  }

  /** Taking the marks of a rejected fill back leaves the marks as they were. */
  lemma {:induction false} FillUndone(g: Colours, seed: Cell, m: set<Cell>, m': set<Cell>, cs: seq<Cell>)
    requires seed !in m && Filled(g, seed, m + {seed}, m', cs)
    ensures m' - {seed} - (set c | c in cs) == m
  {
  }

  lemma {:induction false} ScanSkip(g: Colours, groups: seq<seq<Cell>>, m: set<Cell>, x: int, y: int)
    requires ScanInvariant(g, groups, m, x, y) && (Cell(x, y) !in g || Cell(x, y) in m)
    ensures ScanInvariant(g, groups, m, x + 1, y)
  {
    forall c | c in g && Scanned(c, x + 1, y) && |Component(g, c)| >= MIN_MATCH_COUNT
      ensures c in m
    {
      assert Scanned(c, x, y) || c == Cell(x, y);
    }
  }

  lemma {:induction false} ScanNextRow(g: Colours, groups: seq<seq<Cell>>, m: set<Cell>, x: int, y: int)
    requires ScanInvariant(g, groups, m, x, y)
    requires forall c :: c in g && Scanned(c, 0, y + 1) ==> Scanned(c, x, y)
    ensures ScanInvariant(g, groups, m, 0, y + 1)
  {
  }

  lemma {:induction false} ScanEnd(g: Colours, groups: seq<seq<Cell>>, m: set<Cell>)
    requires ScanInvariant(g, groups, m, 0, BOARD_Y_COUNT) && forall c :: c in g ==> InBoard(c)
    ensures AllGroups(g, groups) && forall c :: c in m <==> InSome(groups, c)
  {
    forall c | c in g && |Component(g, c)| >= MIN_MATCH_COUNT
      ensures InSome(groups, c)
    {
      assert Scanned(c, 0, BOARD_Y_COUNT);
    }
  }

  /** Marks never stop half way through a component. */
  lemma {:induction false} MarkedComponent(g: Colours, groups: seq<seq<Cell>>, m: set<Cell>, x: int, y: int, seed: Cell, c: Cell)
    requires ScanInvariant(g, groups, m, x, y) && c in m && Connected(g, seed, c)
    ensures seed in m
  {
    var i :| 0 <= i < |groups| && c in groups[i];
    assert IsGroup(g, groups[i]);
    ConnectedInDomain(g, seed, c);
    ConnectedSymmetric(g, seed, c);
    assert seed in Component(g, c);
    assert InSome(groups, seed);
  }

  /** A complete fill from an unmarked seed finds the group of the seed, each cell once. */
  lemma {:induction false} FillIsComponent(g: Colours, groups: seq<seq<Cell>>, m: set<Cell>, x: int, y: int, m': set<Cell>, cs: seq<Cell>)
    requires ScanInvariant(g, groups, m, x, y) && Cell(x, y) in g && Cell(x, y) !in m
    requires Filled(g, Cell(x, y), m + {Cell(x, y)}, m', cs) && Expanded(g, Cell(x, y), m', 4)
    ensures Distinct(cs + [Cell(x, y)])
    ensures Component(g, Cell(x, y)) == set d | d in cs + [Cell(x, y)]
    ensures |Component(g, Cell(x, y))| == |cs| + 1
  {
    var seed := Cell(x, y);
    var all := cs + [seed];
    var s := set d | d in all;
    ConnectedReflexive(g, seed);
    forall a, b | a in s && Linked(g, a, b)
      ensures b in s
    {
      ConnectedExtend(g, seed, a, b);
      if b in m { MarkedComponent(g, groups, m, x, y, seed, b); }
      if a == seed { AdjacentByDirection(a, b); }
      assert b in m';
    }
    ComponentIs(g, seed, s);
    DistinctSize(all);
  }

  lemma {:induction false} DistinctSize<T>(s: seq<T>)
    requires Distinct(s)
    ensures |set d | d in s| == |s|
  {
    if s == [] {
    } else {
      var n := |s| - 1;
      DistinctSize(s[..n]);
      assert s == s[..n] + [s[n]];
      assert (set d | d in s) == (set d | d in s[..n]) + {s[n]};
    }
  }

  lemma {:induction false} ScanReject(g: Colours, groups: seq<seq<Cell>>, m: set<Cell>, x: int, y: int, m': set<Cell>, cs: seq<Cell>)
    requires ScanInvariant(g, groups, m, x, y) && Cell(x, y) in g && Cell(x, y) !in m
    requires Filled(g, Cell(x, y), m + {Cell(x, y)}, m', cs) && Expanded(g, Cell(x, y), m', 4)
    requires |cs| < MIN_MATCH_COUNT - 1
    ensures ScanInvariant(g, groups, m, x + 1, y)
  {
    FillIsComponent(g, groups, m, x, y, m', cs);
    forall c | c in g && Scanned(c, x + 1, y) && |Component(g, c)| >= MIN_MATCH_COUNT
      ensures c in m
    {
      assert Scanned(c, x, y) || c == Cell(x, y);
    }
  }

  lemma {:induction false} AcceptedGroup(g: Colours, groups: seq<seq<Cell>>, m: set<Cell>, x: int, y: int, m': set<Cell>, cs: seq<Cell>)
    requires ScanInvariant(g, groups, m, x, y) && Cell(x, y) in g && Cell(x, y) !in m
    requires Filled(g, Cell(x, y), m + {Cell(x, y)}, m', cs) && Expanded(g, Cell(x, y), m', 4)
    requires |cs| >= MIN_MATCH_COUNT - 1
    ensures IsGroup(g, cs + [Cell(x, y)])
    ensures forall c :: c in cs + [Cell(x, y)] ==> c !in m
    ensures m' == m + set c | c in cs + [Cell(x, y)]
  {
    var seed := Cell(x, y);
    var all := cs + [seed];
    FillIsComponent(g, groups, m, x, y, m', cs);
    forall c | c in all
      ensures c in g && Component(g, c) == (set d | d in all) && c !in m
    {
      assert c in Component(g, seed);
      SameComponent(g, seed, c);
      if c in m { MarkedComponent(g, groups, m, x, y, seed, c); }
    }
  }

  lemma {:induction false} ScanAccept(g: Colours, groups: seq<seq<Cell>>, m: set<Cell>, x: int, y: int, m': set<Cell>, cs: seq<Cell>)
    requires ScanInvariant(g, groups, m, x, y) && Cell(x, y) in g && Cell(x, y) !in m
    requires Filled(g, Cell(x, y), m + {Cell(x, y)}, m', cs) && Expanded(g, Cell(x, y), m', 4)
    requires |cs| >= MIN_MATCH_COUNT - 1
    ensures ScanInvariant(g, groups + [cs + [Cell(x, y)]], m', x + 1, y)
  {
    hide Filled, Expanded, IsGroup, Component, Connected, InSome, Disjoint;
    AcceptedGroup(g, groups, m, x, y, m', cs);
    GroupsAppend(groups, cs + [Cell(x, y)], m, m');
    forall c | c in g && Scanned(c, x + 1, y) && |Component(g, c)| >= MIN_MATCH_COUNT
      ensures c in m'
    {
      assert Scanned(c, x, y) || c == Cell(x, y);
    }
  }

  lemma {:induction false} GroupsAppend(groups: seq<seq<Cell>>, all: seq<Cell>, m: set<Cell>, m': set<Cell>)
    requires Disjoint(groups) && forall c :: c in m <==> InSome(groups, c)
    requires forall c :: c in all ==> c !in m
    requires m' == m + set c | c in all
    ensures Disjoint(groups + [all]) && forall c :: c in m' <==> InSome(groups + [all], c)
  {
    var groups' := groups + [all];
    assert groups'[|groups|] == all;
    forall c
      ensures InSome(groups', c) <==> InSome(groups, c) || c in all
    {
      if InSome(groups, c) {
        var i :| 0 <= i < |groups| && c in groups[i];
        assert c in groups'[i];
      }
    }
    forall i, j, c | 0 <= i < j < |groups'| && c in groups'[i]
      ensures c !in groups'[j]
    {
      assert InSome(groups, c);
    }
  }

  /** All groups written one after the other. */
  function Flat<T>(groups: seq<seq<T>>): seq<T> {
    if groups == [] then [] else Flat(groups[..|groups| - 1]) + groups[|groups| - 1]
  }

  lemma {:induction false} FlatIndex<T>(groups: seq<seq<T>>, i: int, j: int)
    requires 0 <= i < |groups| && 0 <= j <= |groups[i]|
    ensures |Flat(groups[..i])| + j <= |Flat(groups)|
    ensures j < |groups[i]| ==> |Flat(groups[..i])| + j < |Flat(groups)| && Flat(groups)[|Flat(groups[..i])| + j] == groups[i][j]
    ensures |Flat(groups[..i + 1])| == |Flat(groups[..i])| + |groups[i]|
  {
    assert groups[..i + 1][..i] == groups[..i];
    if i == |groups| - 1 {
      assert groups[..i + 1] == groups;
    } else {
      var g' := groups[..|groups| - 1];
      FlatIndex(g', i, j);
      assert g'[..i] == groups[..i] && g'[..i + 1] == groups[..i + 1];
    }
  }

  lemma {:induction false} InFlat(groups: seq<seq<Cell>>, c: Cell)
    ensures c in Flat(groups) <==> InSome(groups, c)
  {
    if groups != [] {
      var n := |groups| - 1;
      InFlat(groups[..n], c);
      InSomeOrLast(groups, c);
    }
  }

  lemma {:induction false} InSomeOrLast(groups: seq<seq<Cell>>, c: Cell)
    requires groups != []
    ensures InSome(groups, c) <==> InSome(groups[..|groups| - 1], c) || c in groups[|groups| - 1]
  {
    var n := |groups| - 1;
    if InSome(groups[..n], c) {
      var i :| 0 <= i < n && c in groups[..n][i];
      assert c in groups[i];
    }
  }

  lemma {:induction false} FlatStart<T>(groups: seq<seq<T>>)
    ensures Flat(groups[..0]) == [] && groups[..|groups|] == groups
  {
  }
}
