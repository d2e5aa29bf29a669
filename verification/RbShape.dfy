/**
 The shape of a red-black tree (include/data_structure/rbtree.h): trees whose nodes carry their address, colour
 and entry, the contexts that surround a subtree, in-order sequences, and the colouring rules.
 */
module RbShape {
  import opened Common
  import opened Multimap

  type Address = nat
  datatype Color = Black | Red

  datatype Tree = Leaf | Br(left: Tree, at: Address, color: Color, entry: Entry, right: Tree)

  /** What surrounds a subtree: it is the left or the right child of a node, which has its own surroundings. */
  datatype Ctx =
    | Top
    | InLeft(up: Ctx, at: Address, color: Color, entry: Entry, sibling: Tree)
    | InRight(up: Ctx, at: Address, color: Color, entry: Entry, sibling: Tree)

  function Plug(c: Ctx, t: Tree): Tree
    decreases c
  {
    match c
    case Top => t
    case InLeft(up, a, col, e, r) => Plug(up, Br(t, a, col, e, r))
    case InRight(up, a, col, e, l) => Plug(up, Br(l, a, col, e, t))
  }

  /** The context `inner` placed in the hole of `outer`. */
  function Compose(outer: Ctx, inner: Ctx): Ctx
    decreases inner
  {
    match inner
    case Top => outer
    case InLeft(up, a, col, e, r) => InLeft(Compose(outer, up), a, col, e, r)
    case InRight(up, a, col, e, l) => InRight(Compose(outer, up), a, col, e, l)
  }

  lemma {:induction false} PlugCompose(outer: Ctx, inner: Ctx, t: Tree)
    ensures Plug(Compose(outer, inner), t) == Plug(outer, Plug(inner, t))
    decreases inner
  {
    match inner
    case Top =>
    case InLeft(up, a, col, e, r) => PlugCompose(outer, up, Br(t, a, col, e, r));
    case InRight(up, a, col, e, l) => PlugCompose(outer, up, Br(l, a, col, e, t));
  }

  // ---------------------------------------------------------------------------------------------
  // Contents

  function InOrder(t: Tree): seq<Entry> {
    match t
    case Leaf => []
    case Br(l, _, _, e, r) => InOrder(l) + [e] + InOrder(r)
  }

  /** The entries to the left of the hole. */
  function Before(c: Ctx): seq<Entry> {
    match c
    case Top => []
    case InLeft(up, _, _, _, _) => Before(up)
    case InRight(up, _, _, e, l) => Before(up) + InOrder(l) + [e]
  }

  /** The entries to the right of the hole. */
  function After(c: Ctx): seq<Entry> {
    match c
    case Top => []
    case InLeft(up, _, _, e, r) => [e] + InOrder(r) + After(up)
    case InRight(up, _, _, _, _) => After(up)
  }

  lemma {:induction false} PlugInOrder(c: Ctx, t: Tree)
    ensures InOrder(Plug(c, t)) == Before(c) + InOrder(t) + After(c)
    decreases c
  {
    match c
    case Top =>
    case InLeft(up, a, col, e, r) =>
      PlugInOrder(up, Br(t, a, col, e, r));
      RegroupLeft(Before(up), InOrder(t), e, InOrder(r), After(up));
    case InRight(up, a, col, e, l) =>
      PlugInOrder(up, Br(l, a, col, e, t));
      RegroupRight(Before(up), InOrder(l), e, InOrder(t), After(up));
  }

  lemma {:induction false} RegroupLeft<T>(b: seq<T>, x: seq<T>, e: T, r: seq<T>, a: seq<T>)
    ensures b + (x + [e] + r) + a == b + x + ([e] + r + a)
  {
  }

  lemma {:induction false} RegroupRight<T>(b: seq<T>, l: seq<T>, e: T, x: seq<T>, a: seq<T>)
    ensures b + (l + [e] + x) + a == (b + l + [e]) + x + a
  {
  }

  // ---------------------------------------------------------------------------------------------
  // Addresses

  function Addresses(t: Tree): set<Address> {
    match t
    case Leaf => {}
    case Br(l, a, _, _, r) => Addresses(l) + {a} + Addresses(r)
  }

  function CtxAddresses(c: Ctx): set<Address> {
    match c
    case Top => {}
    case InLeft(up, a, _, _, s) => CtxAddresses(up) + {a} + Addresses(s)
    case InRight(up, a, _, _, s) => CtxAddresses(up) + {a} + Addresses(s)
  }

  /** No address occurs twice in the tree. */
  predicate Unique(t: Tree) {
    match t
    case Leaf => true
    case Br(l, a, _, _, r) =>
      Unique(l) && Unique(r) && a !in Addresses(l) && a !in Addresses(r) && Addresses(l) !! Addresses(r)
  }

  /** No address occurs twice in the context. */
  predicate CtxUnique(c: Ctx) {
    match c
    case Top => true
    case InLeft(up, a, _, _, s) =>
      CtxUnique(up) && Unique(s) && a !in Addresses(s) && a !in CtxAddresses(up) && CtxAddresses(up) !! Addresses(s)
    case InRight(up, a, _, _, s) =>
      CtxUnique(up) && Unique(s) && a !in Addresses(s) && a !in CtxAddresses(up) && CtxAddresses(up) !! Addresses(s)
  }

  lemma {:induction false} PlugUnique(c: Ctx, t: Tree)
    ensures Addresses(Plug(c, t)) == CtxAddresses(c) + Addresses(t)
    ensures Unique(Plug(c, t)) <==> CtxUnique(c) && Unique(t) && CtxAddresses(c) !! Addresses(t)
    decreases c
  {
    match c
    case Top =>
    case InLeft(up, a, col, e, r) => PlugUnique(up, Br(t, a, col, e, r));
    case InRight(up, a, col, e, l) => PlugUnique(up, Br(l, a, col, e, t));
  }

  // ---------------------------------------------------------------------------------------------
  // The colouring rules

  predicate IsRed(t: Tree) { t.Br? && t.color == Red }

  /** No red node has a red child, and every path down has n black nodes. */
  predicate Balanced(t: Tree, n: nat) {
    match t
    case Leaf => n == 0
    case Br(l, _, Red, _, r) => !IsRed(l) && !IsRed(r) && Balanced(l, n) && Balanced(r, n)
    case Br(l, _, Black, _, r) => n > 0 && Balanced(l, n - 1) && Balanced(r, n - 1)
  }

  /** A red-black tree: balanced, with a black root. */
  ghost predicate RedBlack(t: Tree) { !IsRed(t) && exists n: nat :: Balanced(t, n) }

  predicate CtxRed(c: Ctx) { !c.Top? && c.color == Red }

  /** A subtree with n black nodes on every path fits into the hole, its own root's colour aside. */
  predicate CtxBalanced(c: Ctx, n: nat) {
    if c.Top? then true
    else
      && Balanced(c.sibling, n)
      && (if c.color == Red then !IsRed(c.sibling) && !c.up.Top? && !CtxRed(c.up) && CtxBalanced(c.up, n)
          else CtxBalanced(c.up, n + 1))
  }

  function CtxBlacks(c: Ctx): nat {
    if c.Top? then 0 else (if c.color == Black then 1 else 0) + CtxBlacks(c.up)
  }

  /** The colours of hole and context agree: no red below red, no red at the top. */
  predicate ColorFits(c: Ctx, t: Tree) { IsRed(t) ==> !c.Top? && !CtxRed(c) }

  lemma {:induction false} PlugBalanced(c: Ctx, t: Tree, n: nat)
    requires Balanced(t, n) && CtxBalanced(c, n) && ColorFits(c, t)
    ensures Balanced(Plug(c, t), n + CtxBlacks(c)) && !IsRed(Plug(c, t))
    decreases c
  {
    match c
    case Top =>
    case InLeft(up, a, col, e, r) =>
      PlugBalanced(up, Br(t, a, col, e, r), if col == Red then n else n + 1);
    case InRight(up, a, col, e, l) =>
      PlugBalanced(up, Br(l, a, col, e, t), if col == Red then n else n + 1);
  }

  /** How many black nodes a path down has; in a balanced tree all paths agree. */
  function BlackHeight(t: Tree): nat {
    if t.Leaf? then 0 else (if t.color == Black then 1 else 0) + BlackHeight(t.left)
  }

  lemma {:induction false} BalancedHeight(t: Tree, n: nat)
    requires Balanced(t, n)
    ensures n == BlackHeight(t)
  {
    if t.Br? {
      BalancedHeight(t.left, if t.color == Black then n - 1 else n);
    }
  }

  lemma {:induction false} UnplugBalanced(c: Ctx, t: Tree, m: nat)
    requires Balanced(Plug(c, t), m) && !IsRed(Plug(c, t))
    ensures Balanced(t, BlackHeight(t)) && CtxBalanced(c, BlackHeight(t)) && ColorFits(c, t)
    decreases c
  {
    match c
    case Top => BalancedHeight(t, m);
    case InLeft(up, a, col, e, r) =>
      var b := Br(t, a, col, e, r);
      UnplugBalanced(up, b, m);
      var n := if col == Black then BlackHeight(b) - 1 else BlackHeight(b);
      BalancedHeight(t, n);
    case InRight(up, a, col, e, l) =>
      var b := Br(l, a, col, e, t);
      UnplugBalanced(up, b, m);
      var n := if col == Black then BlackHeight(b) - 1 else BlackHeight(b);
      BalancedHeight(t, n);
  }

  // ---------------------------------------------------------------------------------------------
  // Height

  function Height(t: Tree): nat {
    match t
    case Leaf => 0
    case Br(l, _, _, _, r) => 1 + if Height(l) < Height(r) then Height(r) else Height(l)
  }

  lemma {:induction false} Pow2Grows(m: nat, n: nat)
    requires m <= n
    ensures 0 < Pow2(m) <= Pow2(n)
    decreases n
  {
    if m < n {
      Pow2Grows(m, n - 1);
    } else if n > 0 {
      Pow2Grows(m - 1, n - 1);
    }
  }

  lemma {:induction false} Pow2Square(n: nat)
    ensures Pow2(2 * n) == Pow2(n) * Pow2(n)
  {
    if n > 0 {
      Pow2Square(n - 1);
      assert Pow2(2 * n) == 4 * Pow2(2 * (n - 1));
      assert Pow2(n) * Pow2(n) == 4 * (Pow2(n - 1) * Pow2(n - 1));
    }
  }

  lemma {:induction false} BalancedSize(t: Tree, n: nat)
    requires Balanced(t, n)
    ensures Height(t) <= 2 * n + (if IsRed(t) then 1 else 0)
    ensures Pow2(n) <= |InOrder(t)| + 1
  {
    if t.Br? {
      var m := if t.color == Black then n - 1 else n;
      BalancedSize(t.left, m);
      BalancedSize(t.right, m);
    }
  }

  /** height <= 2 * log2(size + 1), stated without the logarithm. */
  lemma {:induction false} HeightBound(t: Tree)
    requires RedBlack(t)
    ensures Pow2(Height(t)) <= (|InOrder(t)| + 1) * (|InOrder(t)| + 1)
  {
    var n: nat :| Balanced(t, n);
    BalancedSize(t, n);
    Pow2Grows(Height(t), 2 * n);
    Pow2Square(n);
    Pow2Grows(0, n);
    SquareGrows(Pow2(n), |InOrder(t)| + 1);
  }

  lemma {:induction false} SquareGrows(a: nat, b: nat)
    requires a <= b
    ensures a * a <= b * b
  {
    assert b * b - a * a == (b - a) * (b + a);
  }
}
