/** What a group of puyos is, independently of any algorithm: two cells belong
    to one group when a path of adjacent cells of one colour joins them. */
module Connectivity {
  import opened Geometry

  datatype BlockType = Red | Green | Blue | Yellow | Purple | Ice

  /** The colours of the resting, non-ice blocks, by cell. */
  type Colours = map<Cell, BlockType>

  ghost predicate Linked(g: Colours, a: Cell, b: Cell) {
    a in g && b in g && g[a] == g[b] && Adjacent(a, b)
  }

  ghost predicate IsPath(g: Colours, p: seq<Cell>) {
    && |p| > 0
    && p[0] in g
    && forall i :: 0 <= i < |p| - 1 ==> Linked(g, p[i], p[i + 1])
  }

  ghost predicate Connected(g: Colours, a: Cell, b: Cell) {
    exists p :: IsPath(g, p) && p[0] == a && p[|p| - 1] == b
  }

  /** The group of `c`: every cell joined to it by a path of its colour. */
  ghost function Component(g: Colours, c: Cell): set<Cell> {
    set d | d in g && Connected(g, c, d)
  }

  ghost predicate Closed(g: Colours, s: set<Cell>) {
    forall a, b :: a in s && Linked(g, a, b) ==> b in s
  }

  lemma {:induction false} ConnectedReflexive(g: Colours, a: Cell)
    requires a in g
    ensures Connected(g, a, a)
  {
    assert IsPath(g, [a]);
  }

  lemma {:induction false} ConnectedExtend(g: Colours, a: Cell, b: Cell, c: Cell)
    requires Connected(g, a, b) && Linked(g, b, c)
    ensures Connected(g, a, c)
  {
    var p :| IsPath(g, p) && p[0] == a && p[|p| - 1] == b;
    var q := p + [c];
    assert forall i :: 0 <= i < |q| - 1 ==> Linked(g, q[i], q[i + 1]);
    assert IsPath(g, q);
  }

  /** A set that is closed under colour links holds every cell connected to one of its own. */
  lemma {:induction false} ClosedContainsPath(g: Colours, s: set<Cell>, p: seq<Cell>, n: nat)
    requires Closed(g, s) && IsPath(g, p) && p[0] in s && n < |p|
    ensures p[n] in s
  {
    if n > 0 {
      ClosedContainsPath(g, s, p, n - 1);
      assert Linked(g, p[n - 1], p[n - 1 + 1]);
    }
  }

  lemma {:induction false} ClosedContains(g: Colours, s: set<Cell>, a: Cell, b: Cell)
    requires Closed(g, s) && a in s && Connected(g, a, b)
    ensures b in s
  {
    var p :| IsPath(g, p) && p[0] == a && p[|p| - 1] == b;
    ClosedContainsPath(g, s, p, |p| - 1);
  }

  lemma {:induction false} ConnectedInDomain(g: Colours, a: Cell, b: Cell)
    requires Connected(g, a, b)
    ensures a in g && b in g
  {
    var p :| IsPath(g, p) && p[0] == a && p[|p| - 1] == b;
    if |p| > 1 {
      assert Linked(g, p[|p| - 2], p[|p| - 2 + 1]);
    }
  }

  lemma {:induction false} ComponentClosed(g: Colours, a: Cell)
    ensures Closed(g, Component(g, a))
  {
    forall b, c | b in Component(g, a) && Linked(g, b, c)
      ensures c in Component(g, a)
    {
      ConnectedExtend(g, a, b, c);
    }
  }

  lemma {:induction false} ConnectedSymmetric(g: Colours, a: Cell, b: Cell)
    requires Connected(g, a, b)
    ensures Connected(g, b, a)
  {
    var p :| IsPath(g, p) && p[0] == a && p[|p| - 1] == b;
    var q := seq(|p|, i requires 0 <= i < |p| => p[|p| - 1 - i]);
    forall i | 0 <= i < |q| - 1
      ensures Linked(g, q[i], q[i + 1])
    {
      assert Linked(g, p[|p| - 2 - i], p[|p| - 2 - i + 1]);
    }
    ConnectedInDomain(g, a, b);
    assert IsPath(g, q);
  }

  lemma {:induction false} ConnectedTransitive(g: Colours, a: Cell, b: Cell, c: Cell)
    requires Connected(g, a, b) && Connected(g, b, c)
    ensures Connected(g, a, c)
  {
    ConnectedInDomain(g, a, b);
    ComponentClosed(g, a);
    ClosedContains(g, Component(g, a), b, c);
  }

  /** Connected cells have one and the same group. */
  lemma {:induction false} SameComponent(g: Colours, a: Cell, b: Cell)
    requires Connected(g, a, b)
    ensures Component(g, a) == Component(g, b)
  {
    ConnectedSymmetric(g, a, b);
    forall c | c in g
      ensures Connected(g, a, c) <==> Connected(g, b, c)
    {
      if Connected(g, a, c) { ConnectedTransitive(g, b, a, c); }
      if Connected(g, b, c) { ConnectedTransitive(g, a, b, c); }
    }
  }

  /** The shape in which a flood fill proves that it has found a whole group. */
  lemma {:induction false} ComponentIs(g: Colours, a: Cell, s: set<Cell>)
    requires a in s && Closed(g, s)
    requires forall c :: c in s ==> Connected(g, a, c)
    ensures s == Component(g, a)
  {
    forall c | c in s
      ensures c in Component(g, a)
    {
      ConnectedInDomain(g, a, c);
    }
    forall c | c in Component(g, a)
      ensures c in s
    {
      ClosedContains(g, s, a, c);
    }
  }
}
