/**
 What removal makes of the colouring rules (include/data_structure/rbtree.h, delete_node and rbtree_delete_fixup).

 The loop of the fixup differs from the usual one: it tests for the presence of nephews, not for their colour, and it
 goes on from a parent that it has just made black.  So the rules are kept for some nodes only; for which, is decided
 by the surroundings of the node that is taken out.
 */
module RbRemoval {
  import opened Common
  import opened Multimap
  import opened RbShape

  function RotatedLeft(t: Tree): (r: Tree)
    requires t.Br? && t.right.Br?
    ensures InOrder(r) == InOrder(t)
  {
    Br(Br(t.left, t.at, t.color, t.entry, t.right.left), t.right.at, t.right.color, t.right.entry, t.right.right)
  }

  function RotatedRight(t: Tree): (r: Tree)
    requires t.Br? && t.left.Br?
    ensures InOrder(r) == InOrder(t)
  {
    Br(t.left.left, t.left.at, t.left.color, t.left.entry, Br(t.left.right, t.at, t.color, t.entry, t.right))
  }

  /** The surroundings of the two children. */
  function LeftOf(c: Ctx, t: Tree): Ctx
    requires t.Br?
  {
    InLeft(c, t.at, t.color, t.entry, t.right)
  }

  function RightOf(c: Ctx, t: Tree): Ctx
    requires t.Br?
  {
    InRight(c, t.at, t.color, t.entry, t.left)
  }

  /** The child on the side of the hole, and the child on the far side. */
  function Near(c: Ctx): Tree
    requires !c.Top? && c.sibling.Br?
  {
    if c.InLeft? then c.sibling.left else c.sibling.right
  }

  function Far(c: Ctx): Tree
    requires !c.Top? && c.sibling.Br?
  {
    if c.InLeft? then c.sibling.right else c.sibling.left
  }

  function WithSibling(c: Ctx, sibling: Tree): (r: Ctx)
    requires !c.Top?
    ensures !r.Top?
  {
    c.(sibling := sibling)
  }

  function WithNear(c: Ctx, near: Tree): (r: Ctx)
    requires !c.Top? && c.sibling.Br?
    ensures !r.Top?
  {
    c.(sibling := if c.InLeft? then c.sibling.(left := near) else c.sibling.(right := near))
  }

  function WithFar(c: Ctx, far: Tree): (r: Ctx)
    requires !c.Top? && c.sibling.Br?
    ensures !r.Top?
  {
    c.(sibling := if c.InLeft? then c.sibling.(right := far) else c.sibling.(left := far))
  }

  /** The surroundings of the hole after the edge to its sibling is rotated towards it. */
  function Lowered(c: Ctx): Ctx
    requires !c.Top? && c.sibling.Br?
  {
    var s := c.sibling;
    if c.InLeft? then InLeft(InLeft(c.up, s.at, s.color, s.entry, s.right), c.at, c.color, c.entry, s.left)
    else InRight(InRight(c.up, s.at, s.color, s.entry, s.left), c.at, c.color, c.entry, s.right)
  }

  /** The part of the path between the parent and z, with the colours the fixup gave them. */
  function Rung(c: Ctx): Ctx
    requires !c.Top? && c.sibling.Br?
  {
    c.(up := Top, sibling := c.sibling.(color := Red), color := Black)
  }

  // ---------------------------------------------------------------------------------------------
  // The fixup

  /** Red sibling: it changes colours with its near child and is rotated up. */
  function RedFixed(c: Ctx): Ctx
    requires !c.Top? && c.sibling.Br? && Near(c).Br?
  {
    var c1 := WithNear(c, Near(c).(color := Red));
    Lowered(c1.(sibling := c1.sibling.(color := Black)))
  }

  /** Black sibling with a far child. */
  function FarFixed(c: Ctx): Ctx
    requires !c.Top? && c.sibling.Br? && Far(c).Br?
  {
    var c1 := c.(sibling := c.sibling.(color := c.color));
    Lowered(WithFar(c1, Far(c1).(color := Black)).(color := Black))
  }

  /** The sibling with its near child rotated up. */
  function NearUp(c: Ctx): Ctx
    requires !c.Top? && c.sibling.Br? && Near(c).Br?
  {
    WithSibling(c, if c.InLeft? then RotatedRight(c.sibling) else RotatedLeft(c.sibling))
  }

  /** Black sibling with only a near child. */
  function NearFixed(c: Ctx): Ctx
    requires !c.Top? && c.sibling.Br? && Near(c).Br?
  {
    var c1 := WithNear(c, Near(c).(color := c.color));
    Lowered(NearUp(c1.(color := Black)))
  }

  /** What the whole fixup makes of the surroundings of a black node. */
  function Repaired(c: Ctx): Ctx
    decreases c
  {
    if c.Top? || c.sibling.Leaf? then c
    else if IsRed(c.sibling) then if Near(c).Br? then RedFixed(c) else c
    else if Far(c).Br? then FarFixed(c)
    else if Near(c).Br? then NearFixed(c)
    else Compose(Repaired(c.up), Rung(c))
  }

  lemma {:induction false} RepairedCases(c: Ctx)
    requires !c.Top? && c.sibling.Br?
    ensures IsRed(c.sibling) && Near(c).Br? ==> Repaired(c) == RedFixed(c)
    ensures !IsRed(c.sibling) && Far(c).Br? ==> Repaired(c) == FarFixed(c)
    ensures !IsRed(c.sibling) && Far(c).Leaf? && Near(c).Br? ==> Repaired(c) == NearFixed(c)
    ensures !IsRed(c.sibling) && Far(c).Leaf? && Near(c).Leaf? ==> Repaired(c) == Compose(Repaired(c.up), Rung(c))
  {
  }

  /** What the colours around the node have to be for the rules to hold afterwards. */
  predicate Repairs(c: Ctx)
    decreases c
  {
    if c.Top? || c.sibling.Leaf? then true
    else if IsRed(c.sibling) then Near(c).Br? && !IsRed(Near(c).left) && !IsRed(Near(c).right)
    else if Far(c).Br? then IsRed(Far(c))
    else Near(c).Br? || (c.color == Black && Repairs(c.up))
  }

  lemma {:induction false} OneHeight(t: Tree, m: nat, n: nat)
    requires Balanced(t, m) && Balanced(t, n)
    ensures m == n
  {
    BalancedHeight(t, m);
    BalancedHeight(t, n);
  }

  lemma {:induction false} RedRepairs(c: Ctx, n: nat)
    requires !c.Top? && CtxBalanced(c, n + 1) && IsRed(c.sibling)
    ensures Near(c).Br? && (CtxBalanced(RedFixed(c), n) <==> !IsRed(Near(c).left) && !IsRed(Near(c).right))
  {
    assert Balanced(Near(c), n + 1) && Near(c).color == Black;
  }

  lemma {:induction false} FarRepairs(c: Ctx, n: nat)
    requires !c.Top? && CtxBalanced(c, n + 1) && c.sibling.Br? && !IsRed(c.sibling) && Far(c).Br?
    ensures CtxBalanced(FarFixed(c), n) <==> IsRed(Far(c))
  {
    assert Balanced(Far(c), n) && Balanced(Near(c), n);
    if !IsRed(Far(c)) && Balanced(Far(c).(color := Black), n + 1) {
      OneHeight(Far(c), n, n + 1);
    }
  }

  lemma {:induction false} NearRepairs(c: Ctx, n: nat)
    requires !c.Top? && CtxBalanced(c, n + 1) && c.sibling.Br? && !IsRed(c.sibling) && Far(c).Leaf? && Near(c).Br?
    ensures CtxBalanced(NearFixed(c), n)
  {
    assert Balanced(Far(c), n) && Balanced(Near(c), n) && n == 0;
  }

  lemma {:induction false} RungBalanced(o: Ctx, c: Ctx)
    requires !c.Top? && CtxBalanced(c, 1) && c.sibling.Br? && !IsRed(c.sibling) && Far(c).Leaf? && Near(c).Leaf?
    ensures CtxBalanced(Compose(o, Rung(c)), 0) <==> CtxBalanced(o, 1)
  {
    assert Compose(o, Rung(c)) == Rung(c).(up := o);
    assert Balanced(Rung(c).sibling, 0);
  }

  /** Where no black node is missing the fixup does harm. */
  lemma {:induction false} NothingToRepair(c: Ctx, n: nat)
    requires !c.Top? && CtxBalanced(c, n) && n > 0
    ensures !CtxBalanced(Repaired(c), n)
  {
    assert Balanced(c.sibling, n) && c.sibling.Br?;
    if CtxBalanced(Repaired(c), n) {
      if IsRed(c.sibling) {
        var near := Near(c);
        assert Balanced(near, n) && near.Br? && near.color == Black;
        assert Balanced(near.(color := Red), n);
        OneHeight(near.left, n - 1, n);
      } else {
        assert Balanced(Near(c), n - 1) && Balanced(Far(c), n - 1);
        if Far(c).Br? {
          OneHeight(Near(c), n - 1, n);
        } else if Near(c).Br? {
          NearNothing(c, n);
        } else {
          RungNothing(c, n);
        }
      }
    }
  }

  lemma {:induction false} NearNothing(c: Ctx, n: nat)
    requires !c.Top? && n == 1 && c.sibling.Br? && Near(c).Br? && Balanced(Near(c), 0)
    ensures !CtxBalanced(NearFixed(c), n)
  {
    var inner := if c.InLeft? then Near(c).left else Near(c).right;
    assert Balanced(inner, 0) && NearFixed(c).sibling == inner;
    if Balanced(inner, 1) {
      OneHeight(inner, 0, 1);
    }
  }

  lemma {:induction false} RungNothing(c: Ctx, n: nat)
    requires !c.Top? && n > 0 && c.sibling.Br? && Far(c).Leaf? && Near(c).Leaf?
    ensures !CtxBalanced(Compose(Repaired(c.up), Rung(c)), n)
  {
    var s := Rung(c).sibling;
    assert Compose(Repaired(c.up), Rung(c)).sibling == s && s.left.Leaf? && s.color == Red;
    assert Balanced(s, n) ==> Balanced(s.left, n);
  }

  /** The fixup makes up for the black node that is missing exactly in the surroundings that Repairs describes. */
  lemma {:induction false} RepairKeeps(c: Ctx, n: nat)
    requires CtxBalanced(c, n + 1)
    ensures CtxBalanced(Repaired(c), n) <==> Repairs(c)
    decreases c
  {
    if !c.Top? {
      assert Balanced(c.sibling, n + 1) && c.sibling.Br?;
      if IsRed(c.sibling) {
        RedRepairs(c, n);
      } else if Far(c).Br? {
        FarRepairs(c, n);
      } else if Near(c).Br? {
        NearRepairs(c, n);
      } else {
        assert Balanced(Far(c), n) && n == 0;
        RungBalanced(Repaired(c.up), c);
        if c.color == Black {
          RepairKeeps(c.up, 1);
        } else {
          NothingToRepair(c.up, 1);
        }
      }
    }
  }

  lemma {:induction false} ComposeAssociates(a: Ctx, b: Ctx, c: Ctx)
    ensures Compose(Compose(a, b), c) == Compose(a, Compose(b, c))
    decreases c
  {
    if !c.Top? {
      ComposeAssociates(a, b, c.up);
    }
  }

  // ---------------------------------------------------------------------------------------------
  // Removal

  /** A place in a tree: a subtree and its surroundings. */
  datatype Place = Place(ctx: Ctx, sub: Tree)

  /** The first node of a subtree. */
  function First(c: Ctx, t: Tree): (p: Place)
    requires t.Br?
    ensures p.sub.Br? && p.sub.left.Leaf?
    decreases t
  {
    if t.left.Leaf? then Place(c, t) else First(LeftOf(c, t), t.left)
  }

  /** Where the search for a key ends. */
  function Search(c: Ctx, t: Tree, key: int): Place
    decreases t
  {
    if t.Leaf? || t.entry.key == key then Place(c, t)
    else if t.entry.key < key then Search(RightOf(c, t), t.right, key)
    else Search(LeftOf(c, t), t.left, key)
  }

  /** Where a node is unlinked, its only child's place aside: a node with two children is replaced by its successor. */
  function Doomed(c: Ctx, t: Tree): (p: Place)
    requires t.Br?
    ensures p.sub.Br?
  {
    if t.left.Br? && t.right.Br? then First(RightOf(c, t), t.right) else Place(c, t)
  }

  /** Removing the node at the root of t keeps the rules. */
  predicate KeepsRules(c: Ctx, t: Tree)
    requires t.Br?
  {
    var p := Doomed(c, t);
    p.sub.left.Br? || p.sub.right.Br? || p.sub.color == Red || Repairs(p.ctx)
  }

  /** Trees without a hole: the rules hold exactly when the surroundings are balanced. */
  lemma {:induction false} HoleBalanced(c: Ctx)
    ensures RedBlack(Plug(c, Leaf)) <==> CtxBalanced(c, 0)
  {
    if CtxBalanced(c, 0) {
      PlugBalanced(c, Leaf, 0);
    }
    if RedBlack(Plug(c, Leaf)) {
      var m: nat :| Balanced(Plug(c, Leaf), m);
      UnplugBalanced(c, Leaf, m);
    }
  }

  /** A childless node is taken out. */
  lemma {:induction false} ChildlessOut(c: Ctx, t: Tree)
    requires RedBlack(Plug(c, t)) && t.Br? && t.left.Leaf? && t.right.Leaf?
    ensures RedBlack(Plug(if t.color == Black then Repaired(c) else c, Leaf)) <==> t.color == Red || Repairs(c)
  {
    var m: nat :| Balanced(Plug(c, t), m);
    UnplugBalanced(c, t, m);
    if t.color == Black {
      RepairKeeps(c, 0);
      HoleBalanced(Repaired(c));
    } else {
      HoleBalanced(c);
    }
  }

  /** Entries do not matter to the rules. */
  lemma {:induction false} RepairsAnyEntry(o: Ctx, inner: Ctx, e: Entry)
    requires !o.Top?
    ensures Repairs(Compose(o.(entry := e), inner)) == Repairs(Compose(o, inner))
    decreases inner
  {
    if !inner.Top? {
      RepairsAnyEntry(o, inner.up, e);
    }
  }

  /** The first node by the path that leads to it. */
  lemma {:induction false} FirstBelow(c: Ctx, inner: Ctx, t: Tree)
    requires t.Br? && LeftPath(inner)
    ensures Plug(inner, t).Br? && First(c, Plug(inner, t)) == First(Compose(c, inner), t)
    decreases inner
  {
    if inner.InLeft? {
      FirstBelow(c, inner.up, Br(t, inner.at, inner.color, inner.entry, inner.sibling));
    }
  }

  /** The successor takes the place of a node with two children, and the rest is decided at the successor. */
  lemma {:induction false} KeepsAtSuccessor(c: Ctx, t: Tree, inner: Ctx, s: Tree, e: Entry)
    requires t.Br? && t.left.Br? && t.right == Plug(inner, s) && s.Br? && s.left.Leaf? && LeftPath(inner)
    ensures t.right.Br?
    ensures KeepsRules(Compose(RightOf(c, t.(entry := s.entry)), inner), s.(entry := e)) == KeepsRules(c, t)
  {
    FirstBelow(RightOf(c, t), inner, s);
    RepairsAnyEntry(RightOf(c, t), inner, s.entry);
  }

  predicate LeftPath(inner: Ctx) { inner.Top? || (inner.InLeft? && LeftPath(inner.up)) }

  function Single(a: Address, key: int, val: Value): Tree { Br(Leaf, a, Black, Entry(key, val), Leaf) }

  /** Five entries, the left child of the root red: removing the first one breaks the rules. */
  function FiveEntries(v: Value): Tree {
    Br(Br(Single(1, 1, v), 2, Red, Entry(2, v), Single(3, 3, v)), 4, Black, Entry(4, v), Single(5, 5, v))
  }

  lemma {:induction false} FiveBalanced(v: Value)
    ensures RedBlack(FiveEntries(v))
  {
    var t := FiveEntries(v);
    assert Balanced(Single(1, 1, v), 1) && Balanced(Single(3, 3, v), 1) && Balanced(Single(5, 5, v), 1);
    assert Balanced(t.left, 1) && Balanced(t, 2);
  }

  lemma {:induction false} FiveSorted(v: Value)
    ensures InOrder(FiveEntries(v)) == [Entry(1, v), Entry(2, v), Entry(3, v), Entry(4, v), Entry(5, v)]
  {
    var t := FiveEntries(v);
    assert InOrder(Single(1, 1, v)) == [Entry(1, v)] && InOrder(Single(3, 3, v)) == [Entry(3, v)];
    assert InOrder(Single(5, 5, v)) == [Entry(5, v)];
    assert InOrder(t.left) == [Entry(1, v), Entry(2, v), Entry(3, v)];
  }

  lemma {:induction false} RulesBroken(v: Value)
    ensures RedBlack(FiveEntries(v)) && Sorted(InOrder(FiveEntries(v)))
    ensures var p := Search(Top, FiveEntries(v), 1); p.sub == Single(1, 1, v) && !KeepsRules(p.ctx, p.sub)
  {
    var t := FiveEntries(v);
    FiveBalanced(v);
    FiveSorted(v);
    var c := LeftOf(LeftOf(Top, t), t.left);
    assert Search(Top, t, 1) == Search(LeftOf(Top, t), t.left, 1) == Search(c, t.left.left, 1);
    assert !Repairs(c);
  }
}
