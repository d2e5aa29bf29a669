/**
 The red-black tree (include/data_structure/rbtree.h, class rbtree).

 The nodes live in a memory that maps addresses to their fields; NIL is the address of the sentinel.  A tree
 of RbShape describes which nodes hang together, in which colours and with which entries.
 */
module RedBlackTree {
  import opened Common
  import opened Multimap
  import opened RbShape
  import opened RbRemoval

  const NIL: Address := 0

  datatype Node = Node(parent: Address, left: Address, right: Address, entry: Entry, color: Color)

  type Heap = map<Address, Node>

  // ---------------------------------------------------------------------------------------------
  // Which memories represent a tree

  function Root(t: Tree): Address { if t.Leaf? then NIL else t.at }

  function Parent(c: Ctx): Address { if c.Top? then NIL else c.at }

  /** The nodes of t are in the heap with exactly these links, colours and entries, below a node at `parent`. */
  predicate Rep(h: Heap, t: Tree, parent: Address) {
    match t
    case Leaf => true
    case Br(l, a, col, e, r) =>
      && a != NIL && a in h && h[a] == Node(parent, Root(l), Root(r), e, col)
      && Rep(h, l, a) && Rep(h, r, a)
  }

  /** The same for the surroundings of a subtree whose root is at `hole`. */
  predicate RepCtx(h: Heap, c: Ctx, hole: Address) {
    match c
    case Top => true
    case InLeft(up, a, col, e, s) =>
      && a != NIL && a in h && h[a] == Node(Parent(up), hole, Root(s), e, col)
      && Rep(h, s, a) && RepCtx(h, up, a)
    case InRight(up, a, col, e, s) =>
      && a != NIL && a in h && h[a] == Node(Parent(up), Root(s), hole, e, col)
      && Rep(h, s, a) && RepCtx(h, up, a)
  }

  lemma {:induction false} RepPlug(h: Heap, c: Ctx, t: Tree)
    ensures Rep(h, Plug(c, t), NIL) <==> RepCtx(h, c, Root(t)) && Rep(h, t, Parent(c))
    decreases c
  {
    match c
    case Top =>
    case InLeft(up, a, col, e, s) => RepPlug(h, up, Br(t, a, col, e, s));
    case InRight(up, a, col, e, s) => RepPlug(h, up, Br(s, a, col, e, t));
  }

  /** The heaps agree on these addresses. */
  predicate Same(h: Heap, h': Heap, on: set<Address>) {
    forall a :: a in on && a in h ==> a in h' && h'[a] == h[a]
  }

  lemma {:induction false} RepFrame(h: Heap, h': Heap, t: Tree, parent: Address)
    requires Rep(h, t, parent) && Same(h, h', Addresses(t))
    ensures Rep(h', t, parent)
  {
    if t.Br? {
      RepFrame(h, h', t.left, t.at);
      RepFrame(h, h', t.right, t.at);
    }
  }

  lemma {:induction false} CtxFrame(h: Heap, h': Heap, c: Ctx, hole: Address)
    requires RepCtx(h, c, hole) && Same(h, h', CtxAddresses(c))
    ensures RepCtx(h', c, hole)
  {
    if !c.Top? {
      RepFrame(h, h', c.sibling, c.at);
      CtxFrame(h, h', c.up, c.at);
    }
  }

  /** A subtree whose root got another parent. */
  lemma {:induction false} Reparent(h: Heap, h': Heap, t: Tree, parent: Address, parent': Address)
    requires Rep(h, t, parent) && Unique(t) && Same(h, h', Addresses(t) - {Root(t)})
    requires t.Br? ==> t.at in h' && h'[t.at] == h[t.at].(parent := parent')
    ensures Rep(h', t, parent')
  {
    if t.Br? {
      RepFrame(h, h', t.left, t.at);
      RepFrame(h, h', t.right, t.at);
    }
  }

  /** The context node's link to the hole now points to `hole'`. */
  function Relink(h: Heap, c: Ctx, hole': Address): Heap
    requires !c.Top? && c.at in h
  {
    h[c.at := if c.InLeft? then h[c.at].(left := hole') else h[c.at].(right := hole')]
  }

  lemma {:induction false} Rehole(h: Heap, h': Heap, c: Ctx, hole: Address, hole': Address)
    requires RepCtx(h, c, hole) && CtxUnique(c)
    requires !c.Top? ==> c.at in h' && h'[c.at] == Relink(h, c, hole')[c.at]
    requires !c.Top? ==> Same(h, h', CtxAddresses(c) - {c.at})
    ensures RepCtx(h', c, hole')
  {
    if !c.Top? {
      RepFrame(h, h', c.sibling, c.at);
      CtxFrame(h, h', c.up, c.at);
    }
  }

  datatype Memory = Memory(heap: Heap, root: Address)

  predicate NilOk(h: Heap) {
    NIL in h && h[NIL].parent == NIL && h[NIL].left == NIL && h[NIL].right == NIL && h[NIL].color == Black
  }

  /** The memory holds exactly the nodes of t and the sentinel. */
  predicate Shape(m: Memory, t: Tree) {
    && NilOk(m.heap) && m.root == Root(t)
    && Rep(m.heap, t, NIL) && Unique(t) && Addresses(t) == m.heap.Keys - {NIL}
  }

  function PlugRoot(c: Ctx, a: Address): Address
  {
    match c
    case Top => a
    case InLeft(up, b, _, _, _) => PlugRoot(up, b)
    case InRight(up, b, _, _, _) => PlugRoot(up, b)
  }

  lemma {:induction false} RootPlug(c: Ctx, t: Tree)
    ensures Root(Plug(c, t)) == PlugRoot(c, Root(t))
    ensures !c.Top? ==> forall a :: PlugRoot(c, a) == PlugRoot(c, Root(t))
    decreases c
  {
    match c
    case Top =>
    case InLeft(up, a, col, e, s) => RootPlug(up, Br(t, a, col, e, s));
    case InRight(up, a, col, e, s) => RootPlug(up, Br(s, a, col, e, t));
  }

  /** Looking at one subtree: its own nodes, its surroundings, and that they share no node. */
  lemma {:induction false} Focus(m: Memory, c: Ctx, t: Tree)
    requires Shape(m, Plug(c, t))
    ensures RepCtx(m.heap, c, Root(t)) && Rep(m.heap, t, Parent(c))
    ensures CtxUnique(c) && Unique(t) && CtxAddresses(c) !! Addresses(t)
    ensures CtxAddresses(c) + Addresses(t) == m.heap.Keys - {NIL}
    ensures m.root == PlugRoot(c, Root(t))
  {
    RepPlug(m.heap, c, t);
    PlugUnique(c, t);
    RootPlug(c, t);
  }

  /** The subtree has been rearranged in place. */
  lemma {:induction false} Unfocus(m: Memory, m': Memory, c: Ctx, t: Tree, t': Tree)
    requires Shape(m, Plug(c, t))
    requires Unique(t') && Addresses(t') == Addresses(t)
    requires m'.heap.Keys == m.heap.Keys && m'.heap[NIL] == m.heap[NIL]
    requires RepCtx(m'.heap, c, Root(t')) && Rep(m'.heap, t', Parent(c))
    requires m'.root == PlugRoot(c, Root(t'))
    ensures Shape(m', Plug(c, t'))
  {
    Focus(m, c, t);
    RepPlug(m'.heap, c, t');
    PlugUnique(c, t');
    RootPlug(c, t');
  }

  /** Another tree over the same entries, put in the place of a subtree, keeps the contents. */
  lemma {:induction false} SameContents(c: Ctx, t: Tree, t': Tree)
    requires InOrder(t') == InOrder(t)
    ensures InOrder(Plug(c, t')) == InOrder(Plug(c, t))
  {
    PlugInOrder(c, t);
    PlugInOrder(c, t');
  }

  /** What the fields say about a subtree, its parent and its sibling. */
  lemma {:induction false} Links(m: Memory, c: Ctx, t: Tree)
    requires Shape(m, Plug(c, t))
    ensures Root(t) in m.heap && (IsRed(t) <==> m.heap[Root(t)].color == Red)
    ensures t.Br? ==> t.at != NIL && m.heap[t.at] == Node(Parent(c), Root(t.left), Root(t.right), t.entry, t.color)
    ensures Parent(c) in m.heap && (CtxRed(c) <==> m.heap[Parent(c)].color == Red)
    ensures c.Top? <==> Parent(c) == NIL
    ensures c.Top? <==> m.root == Root(t)
    ensures c.InLeft? ==> m.heap[c.at] == Node(Parent(c.up), Root(t), Root(c.sibling), c.entry, c.color)
    ensures c.InRight? ==> m.heap[c.at] == Node(Parent(c.up), Root(c.sibling), Root(t), c.entry, c.color)
    ensures t.Br? && c.InLeft? ==> m.heap[c.at].right != t.at
    ensures t.Br? && c.InRight? ==> m.heap[c.at].left != t.at
  {
    Focus(m, c, t);
    if !c.Top? {
      RootInside(c, Root(t));
    }
  }

  lemma {:induction false} RootInside(c: Ctx, hole: Address)
    requires !c.Top?
    ensures PlugRoot(c, hole) in CtxAddresses(c)
  {
    if !c.up.Top? {
      RootInside(c.up, c.at);
    }
  }

  /** Overwriting the colour and the entry of one node. */
  lemma {:induction false} Repaint(m: Memory, m': Memory, c: Ctx, t: Tree, color: Color, entry: Entry)
    requires Shape(m, Plug(c, t)) && t.Br? && t.at in m.heap
    requires m' == m.(heap := m.heap[t.at := m.heap[t.at].(color := color, entry := entry)])
    ensures Shape(m', Plug(c, t.(color := color, entry := entry)))
  {
    Focus(m, c, t);
    var h, h' := m.heap, m'.heap;
    assert Rep(h', t.(color := color, entry := entry), Parent(c)) by {
      RepFrame(h, h', t.left, t.at);
      RepFrame(h, h', t.right, t.at);
    }
    assert RepCtx(h', c, t.at) by {
      CtxFrame(h, h', c, t.at);
    }
    assert h'.Keys == h.Keys;
    Unfocus(m, m', c, t, t.(color := color, entry := entry));
  }

  // ---------------------------------------------------------------------------------------------
  // Rotations

  lemma {:induction false} RotationsUndo(t: Tree)
    requires t.Br?
    ensures t.right.Br? ==> RotatedRight(RotatedLeft(t)) == t
    ensures t.left.Br? ==> RotatedLeft(RotatedRight(t)) == t
  {
  }

  lemma {:induction false} RotatedUnique(t: Tree)
    requires t.Br? && Unique(t)
    ensures t.right.Br? ==> Unique(RotatedLeft(t)) && Addresses(RotatedLeft(t)) == Addresses(t)
    ensures t.left.Br? ==> Unique(RotatedRight(t)) && Addresses(RotatedRight(t)) == Addresses(t)
  {
  }

  /** The fields around a rotated edge: `down` took over the middle subtree b, `above` took the place of `down`. */
  predicate Rotated(h: Heap, h': Heap, c: Ctx, down: Address, above: Address, b: Tree)
    requires {down, above} <= h.Keys
    requires (b.Br? ==> b.at in h) && (!c.Top? ==> c.at in h)
  {
    && h'.Keys == h.Keys
    && (b.Br? ==> h'[b.at] == h[b.at].(parent := down))
    && (!c.Top? ==> h'[c.at] == Relink(h, c, above)[c.at])
    && (forall a :: a in h && a !in {down, above} && (b.Br? ==> a != b.at) && (!c.Top? ==> a != c.at) ==> h'[a] == h[a])
  }

  /** Besides the node that takes it, only the subtree's root has changed: its parent is that node now. */
  predicate HandedOver(h: Heap, h': Heap, to: Address, b: Tree)
    requires h'.Keys == h.Keys && (b.Br? ==> b.at in h)
  {
    && (b.Br? ==> h'[b.at] == h[b.at].(parent := to))
    && (forall a :: a in h && a != to && (b.Br? ==> a != b.at) ==> h'[a] == h[a])
  }

  /** The parent in the context has this child now, and this child that parent. */
  predicate PlaceTaken(h: Heap, h': Heap, c: Ctx, above: Address)
    requires above in h && (!c.Top? ==> c.at in h)
  {
    && h'.Keys == h.Keys && h'[above] == h[above].(parent := Parent(c))
    && (!c.Top? ==> h'[c.at] == Relink(h, c, above)[c.at])
    && (forall a :: a in h && a != above && (!c.Top? ==> a != c.at) ==> h'[a] == h[a])
  }

  /** Subtrees away from the rotated edge are untouched. */
  lemma {:induction false} Untouched(h: Heap, h': Heap, c: Ctx, down: Address, above: Address, b: Tree, s: Tree,
        parent: Address)
    requires {down, above} <= h.Keys && (b.Br? ==> b.at in h) && (!c.Top? ==> c.at in h)
    requires Rotated(h, h', c, down, above, b)
    requires down !in Addresses(s) && above !in Addresses(s) && Addresses(b) !! Addresses(s)
      && CtxAddresses(c) !! Addresses(s)
    requires Rep(h, s, parent)
    ensures Rep(h', s, parent)
  {
    RepFrame(h, h', s, parent);
  }

  /** The middle subtree and the surroundings change one link each. */
  lemma {:induction false} RotatedAround(h: Heap, h': Heap, c: Ctx, down: Address, above: Address, b: Tree)
    requires {down, above} <= h.Keys && (b.Br? ==> b.at in h) && (!c.Top? ==> c.at in h)
    requires Rotated(h, h', c, down, above, b)
    requires Unique(b) && CtxUnique(c) && Addresses(b) !! CtxAddresses(c)
    requires down !in Addresses(b) && above !in Addresses(b) && down !in CtxAddresses(c) && above !in CtxAddresses(c)
    requires Rep(h, b, above) && RepCtx(h, c, down)
    ensures Rep(h', b, down) && RepCtx(h', c, above)
  {
    assert Rep(h', b, down) by {
      Reparent(h, h', b, above, down);
    }
    assert RepCtx(h', c, above) by {
      Rehole(h, h', c, down, above);
    }
  }

  lemma {:induction false} LeftRotation(m: Memory, m': Memory, c: Ctx, t: Tree)
    requires Shape(m, Plug(c, t)) && t.Br? && t.right.Br?
    requires {t.at, t.right.at} <= m.heap.Keys && (t.right.left.Br? ==> t.right.left.at in m.heap)
      && (!c.Top? ==> c.at in m.heap)
    requires Rotated(m.heap, m'.heap, c, t.at, t.right.at, t.right.left)
    requires m'.heap[t.at] == m.heap[t.at].(parent := t.right.at, right := Root(t.right.left))
    requires m'.heap[t.right.at] == m.heap[t.right.at].(parent := Parent(c), left := t.at)
    requires m'.root == if c.Top? then t.right.at else m.root
    ensures Shape(m', Plug(c, RotatedLeft(t)))
  {
    Focus(m, c, t);
    var h, h', x, y, b := m.heap, m'.heap, t.at, t.right.at, t.right.left;
    assert Rep(h', RotatedLeft(t), Parent(c)) && RepCtx(h', c, y) by {
      Untouched(h, h', c, x, y, b, t.left, x);
      Untouched(h, h', c, x, y, b, t.right.right, y);
      RotatedAround(h, h', c, x, y, b);
    }
    RootPlug(c, t);
    RotatedUnique(t);
    Unfocus(m, m', c, t, RotatedLeft(t));
  }

  lemma {:induction false} RightRotation(m: Memory, m': Memory, c: Ctx, t: Tree)
    requires Shape(m, Plug(c, t)) && t.Br? && t.left.Br?
    requires {t.at, t.left.at} <= m.heap.Keys && (t.left.right.Br? ==> t.left.right.at in m.heap)
      && (!c.Top? ==> c.at in m.heap)
    requires Rotated(m.heap, m'.heap, c, t.at, t.left.at, t.left.right)
    requires m'.heap[t.at] == m.heap[t.at].(parent := t.left.at, left := Root(t.left.right))
    requires m'.heap[t.left.at] == m.heap[t.left.at].(parent := Parent(c), right := t.at)
    requires m'.root == if c.Top? then t.left.at else m.root
    ensures Shape(m', Plug(c, RotatedRight(t)))
  {
    Focus(m, c, t);
    var h, h', y, x, b := m.heap, m'.heap, t.at, t.left.at, t.left.right;
    assert Rep(h', RotatedRight(t), Parent(c)) && RepCtx(h', c, x) by {
      Untouched(h, h', c, y, x, b, t.right, y);
      Untouched(h, h', c, y, x, b, t.left.left, x);
      RotatedAround(h, h', c, y, x, b);
    }
    RootPlug(c, t);
    RotatedUnique(t);
    Unfocus(m, m', c, t, RotatedRight(t));
  }

  // ---------------------------------------------------------------------------------------------
  // Steps of the insertion fixup

  /** The node of the context with its hole filled. */
  function Fill(c: Ctx, t: Tree): (r: Tree)
    requires !c.Top?
    ensures r.Br? && Plug(c, t) == Plug(c.up, r)
  {
    if c.InLeft? then Br(t, c.at, c.color, c.entry, c.sibling) else Br(c.sibling, c.at, c.color, c.entry, t)
  }

  /** The surroundings of the sibling, seen from the same node. */
  function Beside(c: Ctx, t: Tree): (r: Ctx)
    requires !c.Top?
    ensures Plug(r, c.sibling) == Plug(c, t)
  {
    if c.InLeft? then InRight(c.up, c.at, c.color, c.entry, t) else InLeft(c.up, c.at, c.color, c.entry, t)
  }

  /** The grandparent's subtree once parent and uncle are black and it is red. */
  function Recolored(c: Ctx, t: Tree): (r: Tree)
    requires !c.Top? && !c.up.Top? && c.up.sibling.Br?
    ensures r.Br?
  {
    Fill(c.up.(color := Red, sibling := c.up.sibling.(color := Black)), Fill(c.(color := Black), t))
  }

  /** z is the left child of a left child or the right child of a right child. */
  predicate Outer(c: Ctx) { !c.Top? && !c.up.Top? && (c.InLeft? <==> c.up.InLeft?) }

  predicate Inner(c: Ctx) { !c.Top? && !c.up.Top? && (c.InLeft? <==> !c.up.InLeft?) }

  /** Where z hangs after the rotations: below a black node in the grandparent's old place. */
  function FixedCtx(c: Ctx, t: Tree): Ctx
    requires !c.Top? && !c.up.Top? && t.Br?
  {
    var g := c.up;
    match (c, g)
    case (InLeft(_, _, _, _, s), InLeft(u, _, _, _, _)) =>
      InLeft(u, c.at, Black, c.entry, Br(s, g.at, Red, g.entry, g.sibling))
    case (InRight(_, _, _, _, s), InRight(u, _, _, _, _)) =>
      InRight(u, c.at, Black, c.entry, Br(g.sibling, g.at, Red, g.entry, s))
    case (InRight(_, _, _, _, s), InLeft(u, _, _, _, _)) =>
      InLeft(u, t.at, Black, t.entry, Br(t.right, g.at, Red, g.entry, g.sibling))
    case (InLeft(_, _, _, _, s), InRight(u, _, _, _, _)) =>
      InLeft(u, t.at, Black, t.entry, Br(t.right, c.at, c.color, c.entry, s))
  }

  function FixedTree(c: Ctx, t: Tree): Tree
    requires !c.Top? && !c.up.Top? && t.Br?
  {
    if Outer(c) then t
    else if c.InRight? then Br(c.sibling, c.at, c.color, c.entry, t.left)
    else Br(c.up.sibling, c.up.at, Red, c.up.entry, t.left)
  }

  function Depth(c: Ctx): nat { if c.Top? then 0 else 1 + Depth(c.up) }

  /** The state of the fixup loop: all rules hold, except that z and its parent may both be red. */
  predicate Climbing(c: Ctx, t: Tree, n: nat) {
    t.Br? && Balanced(t, n) && CtxBalanced(c, n) && (c.Top? ==> !IsRed(t)) && (CtxRed(c) ==> IsRed(t))
  }

  lemma {:induction false} RecoloredClimbs(c: Ctx, t: Tree, n: nat)
    requires Climbing(c, t, n) && CtxRed(c) && IsRed(c.up.sibling)
    ensures var r := Recolored(c, t);
      Climbing(c.up.up, if c.up.up.Top? then r.(color := Black) else r, if c.up.up.Top? then n + 2 else n + 1)
    ensures Depth(c.up.up) < Depth(c)
  {
    var g := c.up;
    assert CtxBalanced(g, n) && g.color == Black;
    assert Balanced(g.sibling.(color := Black), n + 1);
    assert Balanced(Fill(c.(color := Black), t), n + 1);
  }

  lemma {:induction false} FixedClimbs(c: Ctx, t: Tree, n: nat)
    requires Climbing(c, t, n) && CtxRed(c) && !IsRed(c.up.sibling)
    ensures Climbing(FixedCtx(c, t), FixedTree(c, t), n) && !CtxRed(FixedCtx(c, t)) && !FixedCtx(c, t).Top?
    ensures Depth(FixedCtx(c, t)) < Depth(c)
  {
    assert Depth(c) == 2 + Depth(c.up.up);
    var g := c.up;
    assert CtxBalanced(g, n) && g.color == Black;
    assert Balanced(t.left, n) && Balanced(t.right, n);
    assert Balanced(FixedTree(c, t), n);
    assert Balanced(FixedCtx(c, t).sibling, n);
  }

  lemma {:induction false} DoneClimbing(c: Ctx, t: Tree, n: nat)
    requires Climbing(c, t, n) && !CtxRed(c)
    ensures RedBlack(Plug(c, t))
  {
    PlugBalanced(c, t, n);
  }

  /** What the fixup loop reads about z, its parent y and its uncle. */
  lemma {:induction false} FamilyLinks(m: Memory, c: Ctx, t: Tree)
    requires Shape(m, Plug(c, t)) && t.Br? && !c.Top? && !c.up.Top?
    ensures c.at in m.heap && m.heap[c.at].parent == c.up.at && c.up.at in m.heap
    ensures t.at == m.heap[c.at].left <==> c.InLeft?
    ensures c.at == m.heap[c.up.at].left <==> c.up.InLeft?
    ensures Root(c.up.sibling) in m.heap && (m.heap[Root(c.up.sibling)].color == Red <==> IsRed(c.up.sibling))
    ensures Root(c.up.sibling) == if c.up.InLeft? then m.heap[c.up.at].right else m.heap[c.up.at].left
  {
    Links(m, c, t);
    Links(m, c.up, Fill(c, t));
    Links(m, Beside(c.up, Fill(c, t)), c.up.sibling);
  }

  // ---------------------------------------------------------------------------------------------
  // Descending by key

  lemma {:induction false} SortedParts(c: Ctx, t: Tree)
    requires Sorted(InOrder(Plug(c, t))) && t.Br?
    ensures Sorted(InOrder(t))
    ensures NoneBelow(InOrder(t.right), t.entry.key)
    ensures forall i :: 0 <= i < |InOrder(t.left)| ==> InOrder(t.left)[i].key <= t.entry.key
  {
    PlugInOrder(c, t);
    SortedSlice(Before(c), InOrder(t), After(c));
    SortedAround(InOrder(t.left), t.entry, InOrder(t.right));
  }

  /** A new red leaf hung into an empty place. */
  lemma {:induction false} Attach(m: Memory, m': Memory, c: Ctx, z: Address, e: Entry)
    requires Shape(m, Plug(c, Leaf)) && !c.Top? && z !in m.heap && c.at in m.heap
    requires m' == m.(heap := Relink(m.heap, c, z)[z := Node(c.at, NIL, NIL, e, Red)])
    ensures Shape(m', Plug(c, Br(Leaf, z, Red, e, Leaf)))
  {
    var t := Br(Leaf, z, Red, e, Leaf);
    Focus(m, c, Leaf);
    Rehole(m.heap, m'.heap, c, NIL, z);
    RepPlug(m'.heap, c, t);
    PlugUnique(c, t);
    RootPlug(c, t);
    RootPlug(c, Leaf);
  }

  lemma {:induction false} BesidePlace(c: Ctx, key: int)
    requires !c.Top? && AllBelow(Before(c), key) && NoneBelow(After(c), key)
    ensures c.InLeft? <==> key <= c.entry.key
  {
    if c.InLeft? {
      assert After(c)[0] == c.entry;
    } else {
      assert Before(c)[|Before(c)| - 1] == c.entry;
    }
  }

  lemma {:induction false} AttachedClimbs(c: Ctx, z: Address, e: Entry)
    requires RedBlack(Plug(c, Leaf)) && !c.Top?
    ensures Climbing(c, Br(Leaf, z, Red, e, Leaf), 0)
  {
    var n: nat :| Balanced(Plug(c, Leaf), n);
    UnplugBalanced(c, Leaf, n);
  }

  lemma {:induction false} AttachedInOrder(c: Ctx, z: Address, e: Entry)
    requires AllBelow(Before(c), e.key) && NoneBelow(After(c), e.key)
    ensures InOrder(Plug(c, Br(Leaf, z, Red, e, Leaf))) == Inserted(InOrder(Plug(c, Leaf)), e)
  {
    var t := Br(Leaf, z, Red, e, Leaf);
    PlugInOrder(c, Leaf);
    PlugInOrder(c, t);
    assert InOrder(t) == [e];
    assert Before(c) + InOrder(Leaf) == Before(c);
    InsertedBetween(Before(c), After(c), e);
  }

  // ---------------------------------------------------------------------------------------------
  // Removal

  function Size(t: Tree): nat { if t.Leaf? then 0 else Size(t.left) + 1 + Size(t.right) }

  lemma {:induction false} SizePlug(c: Ctx, t: Tree)
    ensures Size(t) <= Size(Plug(c, t))
    decreases c
  {
    if !c.Top? {
      SizePlug(c.up, Fill(c, t));
    }
  }

  predicate SameSides(c: Ctx, c': Ctx) { Before(c') == Before(c) && After(c') == After(c) }

  lemma {:induction false} ComposeBefore(outer: Ctx, inner: Ctx)
    ensures Before(Compose(outer, inner)) == Before(outer) + Before(inner)
    decreases inner
  {
    match inner
    case Top =>
    case InLeft(up, _, _, _, _) => ComposeBefore(outer, up);
    case InRight(up, _, _, e, s) =>
      ComposeBefore(outer, up);
      Associate(Before(outer), Before(up), InOrder(s));
      Associate(Before(outer), Before(up) + InOrder(s), [e]);
  }

  lemma {:induction false} ComposeAfter(outer: Ctx, inner: Ctx)
    ensures After(Compose(outer, inner)) == After(inner) + After(outer)
    decreases inner
  {
    match inner
    case Top =>
    case InLeft(up, _, _, e, s) =>
      ComposeAfter(outer, up);
      Associate([e] + InOrder(s), After(up), After(outer));
    case InRight(up, _, _, _, _) => ComposeAfter(outer, up);
  }

  lemma {:induction false} ComposeSides(outer: Ctx, inner: Ctx)
    ensures Before(Compose(outer, inner)) == Before(outer) + Before(inner)
    ensures After(Compose(outer, inner)) == After(inner) + After(outer)
  {
    ComposeBefore(outer, inner);
    ComposeAfter(outer, inner);
  }

  /** Another sibling with the same entries. */
  lemma {:induction false} SiblingSides(c: Ctx, sibling: Tree, color: Color)
    requires !c.Top? && InOrder(sibling) == InOrder(c.sibling)
    ensures SameSides(c, c.(sibling := sibling, color := color))
  {
  }

  lemma {:induction false} NephewSides(c: Ctx, nephew: Tree)
    requires !c.Top? && c.sibling.Br?
    ensures InOrder(nephew) == InOrder(Near(c)) ==> SameSides(c, WithNear(c, nephew))
    ensures InOrder(nephew) == InOrder(Far(c)) ==> SameSides(c, WithFar(c, nephew))
  {
  }

  /** The surroundings of the near and the far nephew. */
  function NearCtx(c: Ctx, t: Tree): (r: Ctx)
    requires !c.Top? && c.sibling.Br?
    ensures forall near :: Plug(r, near) == Plug(WithNear(c, near), t)
  {
    var b, s := Beside(c, t), c.sibling;
    if c.InLeft? then InLeft(b, s.at, s.color, s.entry, s.right) else InRight(b, s.at, s.color, s.entry, s.left)
  }

  function FarCtx(c: Ctx, t: Tree): (r: Ctx)
    requires !c.Top? && c.sibling.Br?
    ensures forall far :: Plug(r, far) == Plug(WithFar(c, far), t)
  {
    var b, s := Beside(c, t), c.sibling;
    if c.InLeft? then InRight(b, s.at, s.color, s.entry, s.left) else InLeft(b, s.at, s.color, s.entry, s.right)
  }

  lemma {:induction false} LoweredSides(c: Ctx)
    requires !c.Top? && c.sibling.Br?
    ensures SameSides(c, Lowered(c))
  {
    var s, u := c.sibling, c.up;
    if c.InLeft? {
      assert [c.entry] + InOrder(s) + After(u)
        == [c.entry] + InOrder(s.left) + ([s.entry] + InOrder(s.right) + After(u));
    } else {
      assert Before(u) + InOrder(s) + [c.entry]
        == (Before(u) + InOrder(s.left) + [s.entry]) + InOrder(s.right) + [c.entry];
    }
  }

  /** Below a context that still misses n > 0 black nodes there is a sibling, and a red sibling has children. */
  lemma {:induction false} SiblingPresent(c: Ctx, n: nat)
    requires !c.Top? && CtxBalanced(c, n) && n > 0
    ensures c.sibling.Br? && (IsRed(c.sibling) ==> c.sibling.left.Br? && c.sibling.right.Br?)
  {
    assert Balanced(c.sibling, n);
    if IsRed(c.sibling) {
      assert Balanced(c.sibling.left, n) && Balanced(c.sibling.right, n);
    }
  }

  /** The fixup moved to the parent: the sibling is red now, the parent black. */
  predicate Climbed(c: Ctx, t: Tree, c': Ctx, t': Tree) {
    !c.Top? && c.sibling.Br? && c' == c.up && t' == Fill(c.(sibling := c.sibling.(color := Red), color := Black), t)
  }

  /** What the removal fixup reads about z, its parent and its sibling y. */
  lemma {:induction false} SiblingLinks(m: Memory, c: Ctx, t: Tree)
    requires Shape(m, Plug(c, t)) && t.Br? && !c.Top?
    ensures t.at in m.heap && m.heap[t.at].parent == c.at && c.at in m.heap && m.heap[c.at].color == c.color
    ensures t.at == m.heap[c.at].left <==> c.InLeft?
    ensures Root(c.sibling) == if c.InLeft? then m.heap[c.at].right else m.heap[c.at].left
    ensures c.sibling.Br? ==>
      && c.sibling.at in m.heap
      && m.heap[c.sibling.at]
         == Node(c.at, Root(c.sibling.left), Root(c.sibling.right), c.sibling.entry, c.sibling.color)
      && (c.sibling.left.Br? ==> c.sibling.left.at != NIL) && (c.sibling.right.Br? ==> c.sibling.right.at != NIL)
  {
    Links(m, c, t);
    Links(m, Beside(c, t), c.sibling);
    Focus(m, Beside(c, t), c.sibling);
  }

  lemma {:induction false} ClimbedSides(c: Ctx, inner: Ctx, t0: Tree, c': Ctx, t': Tree)
    requires Climbed(c, Plug(inner, t0), c', t')
    ensures t' == Plug(Compose(Rung(c), inner), t0)
    ensures SameSides(Compose(c, inner), Compose(c', Compose(Rung(c), inner)))
  {
    var r := Rung(c);
    PlugCompose(r, inner, t0);
    ComposeSides(c, inner);
    ComposeSides(r, inner);
    ComposeSides(c', Compose(r, inner));
    RungSides(c);
    Associate(After(inner), After(r), After(c'));
    Associate(Before(c'), Before(r), Before(inner));
  }

  lemma {:induction false} RungSides(c: Ctx)
    requires !c.Top? && c.sibling.Br?
    ensures Before(c) == Before(c.up) + Before(Rung(c)) && After(c) == After(Rung(c)) + After(c.up)
  {
    var s := Rung(c).sibling;
    assert InOrder(s) == InOrder(c.sibling);
    if c.InLeft? {
      assert Before(Rung(c)) == [];
      assert After(Rung(c)) == [c.entry] + InOrder(s) + [];
    } else {
      assert After(Rung(c)) == [];
      assert Before(Rung(c)) == [] + InOrder(s) + [c.entry];
    }
  }

  lemma {:induction false} SidesCompose(c: Ctx, c': Ctx, inner: Ctx)
    requires SameSides(c, c')
    ensures SameSides(Compose(c, inner), Compose(c', inner))
  {
    ComposeSides(c, inner);
    ComposeSides(c', inner);
  }

  /** Trees with the same colours and heights. */
  ghost predicate Alike(t: Tree, t': Tree) {
    (IsRed(t) <==> IsRed(t')) && forall n: nat :: Balanced(t, n) <==> Balanced(t', n)
  }

  lemma {:induction false} PlugAlike(c: Ctx, t: Tree, t': Tree)
    requires Alike(t, t')
    ensures Alike(Plug(c, t), Plug(c, t'))
    decreases c
  {
    if !c.Top? {
      PlugAlike(c.up, Fill(c, t), Fill(c, t'));
    }
  }

  /** In a red-black tree a node with one child has a leaf there. */
  lemma {:induction false} OneChild(c: Ctx, t: Tree)
    requires RedBlack(Plug(c, t)) && t.Br?
    ensures t.left.Leaf? && t.right.Br? ==> t.right.left.Leaf? && t.right.right.Leaf?
    ensures t.right.Leaf? && t.left.Br? ==> t.left.left.Leaf? && t.left.right.Leaf?
    ensures t.left.Leaf? && t.right.Br? ==> IsRed(t.right)
    ensures t.right.Leaf? && t.left.Br? ==> IsRed(t.left)
  {
    var m: nat :| Balanced(Plug(c, t), m);
    UnplugBalanced(c, t, m);
    var n := if t.color == Black then BlackHeight(t) - 1 else BlackHeight(t);
    assert Balanced(t.left, n) && Balanced(t.right, n);
    if t.left.Leaf? && t.right.Br? {
      assert IsRed(t.right) && Balanced(t.right.left, 0) && Balanced(t.right.right, 0);
    }
    if t.right.Leaf? && t.left.Br? {
      assert IsRed(t.left) && Balanced(t.left.left, 0) && Balanced(t.left.right, 0);
    }
  }

  /** What remains when the node at the hole is taken out. */
  function Without(c: Ctx, t: Tree): seq<Entry>
    requires t.Br?
  {
    Before(c) + InOrder(t.left) + InOrder(t.right) + After(c)
  }

  /** Swapping entries with the first node s of the right subtree and removing that node removes the old entry. */
  lemma {:induction false} SuccessorSwap(c: Ctx, t: Tree, inner: Ctx, s: Tree, e: Entry)
    requires t.Br? && t.right == Plug(inner, s) && s.Br? && s.left.Leaf? && Before(inner) == []
    ensures Without(Compose(RightOf(c, t.(entry := s.entry)), inner), s.(entry := e)) == Without(c, t)
  {
    var r := RightOf(c, t.(entry := s.entry));
    ComposeSides(r, inner);
    PlugInOrder(inner, s);
    FirstOut(Before(c), InOrder(t.left), s.entry, InOrder(s.right), After(inner), After(c));
    assert InOrder(s) == [s.entry] + InOrder(s.right);
    assert InOrder(t.right) == [] + InOrder(s) + After(inner);
  }

  lemma {:induction false} FirstOut<T>(b: seq<T>, l: seq<T>, e: T, x: seq<T>, a: seq<T>, d: seq<T>)
    ensures ((b + l + [e]) + []) + [] + x + (a + d) == b + l + ([] + ([e] + x) + a) + d
  {
  }

  lemma {:induction false} MiddleOut<T>(b: seq<T>, l: seq<T>, e: T, r: seq<T>, a: seq<T>)
    ensures var s, k := b + (l + [e] + r) + a, |b + l|;
      k < |s| && s[k] == e && b + l + r + a == s[..k] + s[k + 1..]
  {
    var s, k := b + (l + [e] + r) + a, |b + l|;
    assert s == (b + l) + [e] + (r + a);
    assert s[..k] == b + l && s[k + 1..] == r + a;
  }

  lemma {:induction false} ChildSwap(c: Ctx, t: Tree, e: Entry)
    requires t.Br?
    ensures t.left.Leaf? && t.right.Br? && t.right.left.Leaf? && t.right.right.Leaf? ==>
      Without(RightOf(c, t.(entry := t.right.entry)), t.right.(entry := e)) == Without(c, t)
    ensures t.right.Leaf? && t.left.Br? && t.left.left.Leaf? && t.left.right.Leaf? ==>
      Without(LeftOf(c, t.(entry := t.left.entry)), t.left.(entry := e)) == Without(c, t)
  {
    if t.left.Leaf? && t.right.Br? && t.right.left.Leaf? && t.right.right.Leaf? {
      assert InOrder(t.right) == [t.right.entry];
    }
    if t.right.Leaf? && t.left.Br? && t.left.left.Leaf? && t.left.right.Leaf? {
      assert InOrder(t.left) == [t.left.entry];
    }
  }

  lemma {:induction false} WithoutLeaf(c: Ctx, c': Ctx, t: Tree)
    requires SameSides(c, c') && t.Br? && t.left.Leaf? && t.right.Leaf?
    ensures InOrder(Plug(c', Leaf)) == Without(c, t)
  {
    PlugInOrder(c', Leaf);
    assert Before(c) + [] + [] == Before(c) + [];
  }

  lemma {:induction false} MiddleRemoved(b: seq<Entry>, l: seq<Entry>, e: Entry, r: seq<Entry>, a: seq<Entry>)
    ensures var s := b + (l + [e] + r) + a;
      e in s && OneRemoved(s, b + l + r + a, e.key)
  {
    MiddleOut(b, l, e, r, a);
    var s, k := b + (l + [e] + r) + a, |b + l|;
    assert s[k] == e;
  }

  lemma {:induction false} RemovedAt(c: Ctx, t: Tree)
    requires t.Br?
    ensures t.entry in InOrder(Plug(c, t)) && OneRemoved(InOrder(Plug(c, t)), Without(c, t), t.entry.key)
  {
    PlugInOrder(c, t);
    MiddleRemoved(Before(c), InOrder(t.left), t.entry, InOrder(t.right), After(c));
  }

  /** A leaf taken out of the tree and of the heap. */
  lemma {:induction false} Detach(m: Memory, m': Memory, c: Ctx, t: Tree)
    requires Shape(m, Plug(c, t)) && t.Br? && t.left.Leaf? && t.right.Leaf?
    requires !c.Top? ==> c.at in m.heap
    requires m'.heap == (if c.Top? then m.heap else Relink(m.heap, c, NIL)) - {t.at}
    requires m'.root == if c.Top? then NIL else m.root
    ensures Shape(m', Plug(c, Leaf))
  {
    Focus(m, c, t);
    if !c.Top? {
      Rehole(m.heap, m'.heap, c, t.at, NIL);
    }
    RepPlug(m'.heap, c, Leaf);
    PlugUnique(c, Leaf);
    RootPlug(c, t);
    RootPlug(c, Leaf);
  }

  // ---------------------------------------------------------------------------------------------
  // The tree object

  class RbTree {
    var heap: Heap
    var root: Address
    ghost var tree: Tree

    ghost function Mem(): Memory
      reads this
    {
      Memory(heap, root)
    }

    ghost predicate Valid()
      reads this
    {
      Shape(Mem(), tree)
    }

    /** The sentinel's entry is never looked at; it is whatever the default constructor leaves. */
    constructor (dummy: Entry)
      ensures Valid() && tree == Leaf
    {
      heap := map[NIL := Node(NIL, NIL, NIL, dummy, Black)];
      root := NIL;
      tree := Leaf;
    }

    method SetColor(a: Address, color: Color, ghost c: Ctx, ghost t: Tree)
      requires Valid() && tree == Plug(c, t) && t.Br? && t.at == a
      modifies this
      ensures Valid() && tree == Plug(c, t.(color := color))
      ensures InOrder(tree) == old(InOrder(tree)) && NIL in old(heap) && heap[NIL] == old(heap)[NIL]
    {
      Links(Mem(), c, t);
      heap := heap[a := heap[a].(color := color)];
      Repaint(old(Mem()), Mem(), c, t, color, t.entry);
      tree := Plug(c, t.(color := color));
      SameContents(c, t, t.(color := color));
    }

    method SetEntry(a: Address, entry: Entry, ghost c: Ctx, ghost t: Tree)
      requires Valid() && tree == Plug(c, t) && t.Br? && t.at == a
      modifies this
      ensures Valid() && tree == Plug(c, t.(entry := entry))
      ensures NIL in old(heap) && heap[NIL] == old(heap)[NIL]
    {
      Links(Mem(), c, t);
      heap := heap[a := heap[a].(entry := entry)];
      Repaint(old(Mem()), Mem(), c, t, t.color, entry);
      tree := Plug(c, t.(entry := entry));
    }

    /** The last links of a rotation: the parent of `down`, or the root pointer, now leads to `above`. */
    method ReplaceChild(p: Address, down: Address, above: Address)
      requires p in heap
      modifies this`heap, this`root
      ensures root == if p == NIL then above else old(root)
      ensures heap == if p == NIL then old(heap)
                      else if down == old(heap[p].left) then old(heap)[p := old(heap[p]).(left := above)]
                      else old(heap)[p := old(heap[p]).(right := above)]
    {
      if p == NIL {
        root := above;
      } else if down == heap[p].left {
        heap := heap[p := heap[p].(left := above)];
      } else {
        heap := heap[p := heap[p].(right := above)];
      }
    }

    /** The first assignments of left_rotate: the left subtree b of y becomes the right one of x. */
    method HandOverLeft(x: Address, y: Address, ghost b: Tree)
      requires x in heap && y in heap && x != y
      requires heap[y].left == Root(b) && (b.Br? ==> b.at in heap && b.at !in {NIL, x, y})
      modifies this`heap
      ensures heap.Keys == old(heap).Keys && HandedOver(old(heap), heap, x, b)
      ensures heap[x] == old(heap)[x].(right := Root(b)) && heap[y] == old(heap)[y]
    {
      heap := heap[x := heap[x].(right := heap[y].left)];
      if heap[y].left != NIL {
        heap := heap[heap[y].left := heap[heap[y].left].(parent := x)];
      }
    }

    /** The first assignments of right_rotate. */
    method HandOverRight(y: Address, x: Address, ghost b: Tree)
      requires x in heap && y in heap && x != y
      requires heap[x].right == Root(b) && (b.Br? ==> b.at in heap && b.at !in {NIL, x, y})
      modifies this`heap
      ensures heap.Keys == old(heap).Keys && HandedOver(old(heap), heap, y, b)
      ensures heap[y] == old(heap)[y].(left := Root(b)) && heap[x] == old(heap)[x]
    {
      heap := heap[y := heap[y].(left := heap[x].right)];
      if heap[x].right != NIL {
        heap := heap[heap[x].right := heap[heap[x].right].(parent := y)];
      }
    }

    /** Node `above` becomes what `down` is to its parent. */
    method TakePlace(down: Address, above: Address, ghost c: Ctx)
      requires down in heap && above in heap && down != above && heap[down].parent == Parent(c) && Parent(c) in heap
      requires !c.Top? ==> Parent(c) !in {NIL, down, above} && (heap[c.at].left == down <==> c.InLeft?)
      modifies this`heap, this`root
      ensures !c.Top? ==> c.at in old(heap)
      ensures PlaceTaken(old(heap), heap, c, above) && root == if c.Top? then above else old(root)
    {
      heap := heap[above := heap[above].(parent := heap[down].parent)];
      ReplaceChild(heap[down].parent, down, above);
    }

    /** left_rotate on a node x with a right child y, link by link; b is the subtree that changes sides. */
    method LeftRotateLinks(x: Address, y: Address, ghost c: Ctx, ghost b: Tree)
      requires x in heap && y in heap && x != y && heap[x].right == y
      requires heap[y].left == Root(b) && (b.Br? ==> b.at in heap && b.at !in {NIL, x, y})
      requires heap[x].parent == Parent(c) && Parent(c) in heap
      requires !c.Top? ==> Parent(c) !in {NIL, x, y} && (b.Br? ==> Parent(c) != b.at)
      requires !c.Top? ==> (heap[c.at].left == x <==> c.InLeft?)
      modifies this`heap, this`root
      ensures {x, y} <= old(heap).Keys && (b.Br? ==> b.at in old(heap)) && (!c.Top? ==> c.at in old(heap))
      ensures Rotated(old(heap), heap, c, x, y, b)
      ensures heap[x] == old(heap)[x].(parent := y, right := Root(b))
      ensures heap[y] == old(heap)[y].(parent := Parent(c), left := x)
      ensures root == if c.Top? then y else old(root)
    {
      HandOverLeft(x, y, b);
      TakePlace(x, y, c);
      heap := heap[y := heap[y].(left := x)];
      heap := heap[x := heap[x].(parent := y)];
    }

    method LeftRotate(x: Address, ghost c: Ctx, ghost t: Tree)
      requires Valid() && tree == Plug(c, t) && t.Br? && t.at == x
      modifies this
      ensures Valid() && tree == Plug(c, if t.right.Br? then RotatedLeft(t) else t)
      ensures InOrder(tree) == old(InOrder(tree)) && NIL in old(heap) && heap[NIL] == old(heap)[NIL]
    {
      Links(Mem(), c, t);
      Focus(Mem(), c, t);
      var y := heap[x].right;
      if y == NIL { return; }
      LeftRotateLinks(x, y, c, t.right.left);
      LeftRotation(old(Mem()), Mem(), c, t);
      tree := Plug(c, RotatedLeft(t));
      SameContents(c, t, RotatedLeft(t));
    }

    method RightRotateLinks(y: Address, x: Address, ghost c: Ctx, ghost b: Tree)
      requires y in heap && x in heap && x != y && heap[y].left == x
      requires heap[x].right == Root(b) && (b.Br? ==> b.at in heap && b.at !in {NIL, x, y})
      requires heap[y].parent == Parent(c) && Parent(c) in heap
      requires !c.Top? ==> Parent(c) !in {NIL, x, y} && (b.Br? ==> Parent(c) != b.at)
      requires !c.Top? ==> (heap[c.at].left == y <==> c.InLeft?)
      modifies this`heap, this`root
      ensures {x, y} <= old(heap).Keys && (b.Br? ==> b.at in old(heap)) && (!c.Top? ==> c.at in old(heap))
      ensures Rotated(old(heap), heap, c, y, x, b)
      ensures heap[y] == old(heap)[y].(parent := x, left := Root(b))
      ensures heap[x] == old(heap)[x].(parent := Parent(c), right := y)
      ensures root == if c.Top? then x else old(root)
    {
      HandOverRight(y, x, b);
      TakePlace(y, x, c);
      heap := heap[x := heap[x].(right := y)];
      heap := heap[y := heap[y].(parent := x)];
    }

    method RightRotate(y: Address, ghost c: Ctx, ghost t: Tree)
      requires Valid() && tree == Plug(c, t) && t.Br? && t.at == y
      modifies this
      ensures Valid() && tree == Plug(c, if t.left.Br? then RotatedRight(t) else t)
      ensures InOrder(tree) == old(InOrder(tree)) && NIL in old(heap) && heap[NIL] == old(heap)[NIL]
    {
      Links(Mem(), c, t);
      Focus(Mem(), c, t);
      var x := heap[y].left;
      if x == NIL { return; }
      RightRotateLinks(y, x, c, t.left.right);
      RightRotation(old(Mem()), Mem(), c, t);
      tree := Plug(c, RotatedRight(t));
      SameContents(c, t, RotatedRight(t));
    }

    // -------------------------------------------------------------------------------------------
    // Insertion

    /** Uncle red: parent and uncle turn black, the grandparent red. */
    method Recolor(y: Address, uncle: Address, ghost c: Ctx, ghost t: Tree) returns (z': Address, y': Address)
      requires Valid() && tree == Plug(c, t)
      requires !c.Top? && !c.up.Top? && IsRed(c.up.sibling) && y == c.at && uncle == c.up.sibling.at
      modifies this
      ensures Valid() && tree == Plug(c.up.up, Recolored(c, t)) && z' == c.up.at && y' == Parent(c.up.up)
      ensures InOrder(tree) == old(InOrder(tree)) && NIL in old(heap) && heap[NIL] == old(heap)[NIL]
    {
      ghost var yt := Fill(c, t);
      SetColor(y, Black, c.up, yt);
      ghost var over := Beside(c.up, yt.(color := Black));
      SetColor(uncle, Black, over, c.up.sibling);
      Links(Mem(), c.up.(sibling := c.up.sibling.(color := Black)), yt.(color := Black));
      ghost var gt := Recolored(c, t);
      SetColor(heap[y].parent, Red, c.up.up, gt.(color := c.up.color));
      Links(Mem(), c.up.(color := Red, sibling := c.up.sibling.(color := Black)), yt.(color := Black));
      z' := heap[y].parent;
      y' := heap[z'].parent;
    }

    /** Uncle black, z an outer grandchild: recolour and rotate the grandparent. */
    method RotateOuter(y: Address, ghost c: Ctx, ghost t: Tree)
      requires Valid() && tree == Plug(c, t) && t.Br? && Outer(c) && y == c.at
      modifies this
      ensures Valid() && tree == Plug(FixedCtx(c, t), t)
      ensures InOrder(tree) == old(InOrder(tree)) && NIL in old(heap) && heap[NIL] == old(heap)[NIL]
    {
      ghost var yt := Fill(c, t);
      yt := yt.(color := Black);
      SetColor(y, Black, c.up, Fill(c, t));
      Links(Mem(), c.up, yt);
      SetColor(heap[y].parent, Red, c.up.up, Fill(c.up, yt));
      ghost var gt := Fill(c.up, yt).(color := Red);
      Links(Mem(), c.up.(color := Red), yt);
      if heap[heap[y].parent].left == y {
        RightRotate(heap[y].parent, c.up.up, gt);
      } else {
        LeftRotate(heap[y].parent, c.up.up, gt);
      }
    }

    /** Uncle black, z an inner grandchild: rotate the parent, then the grandparent. */
    method RotateInner(z: Address, y: Address, ghost c: Ctx, ghost t: Tree) returns (z': Address, y': Address)
      requires Valid() && tree == Plug(c, t) && t.Br? && Inner(c) && z == t.at && y == c.at
      modifies this
      ensures Valid() && tree == Plug(FixedCtx(c, t), FixedTree(c, t)) && z' == FixedTree(c, t).at && y' == z
      ensures InOrder(tree) == old(InOrder(tree)) && NIL in old(heap) && heap[NIL] == old(heap)[NIL]
    {
      ghost var black := t.(color := Black);
      SetColor(z, Black, c, t);
      Links(Mem(), c.up, Fill(c, black));
      SetColor(heap[y].parent, Red, c.up.up, Fill(c.up, Fill(c, black)));
      ghost var g := c.up.(color := Red);
      Links(Mem(), c.(up := g), black);
      if z == heap[y].right {
        LeftRotate(y, g, Fill(c, black));
        Links(Mem(), g, RotatedLeft(Fill(c, black)));
        RightRotate(heap[z].parent, g.up, Fill(g, RotatedLeft(Fill(c, black))));
      } else {
        RightRotate(y, g, Fill(c, black));
        Links(Mem(), g, RotatedRight(Fill(c, black)));
        LeftRotate(heap[z].parent, g.up, Fill(g, RotatedRight(Fill(c, black))));
      }
      y' := z;
      Links(Mem(), FixedCtx(c, t).up, Fill(FixedCtx(c, t), FixedTree(c, t)));
      z' := heap[y'].left;
    }

    /** One round of the fixup loop, entered with z and its parent y both red. */
    method FixupRound(z: Address, y: Address, ghost c: Ctx, ghost t: Tree, ghost n: nat)
      returns (z': Address, y': Address, ghost c': Ctx, ghost t': Tree, ghost n': nat)
      requires Valid() && tree == Plug(c, t) && Climbing(c, t, n) && z == t.at && y == Parent(c) && CtxRed(c)
      modifies this
      ensures Valid() && tree == Plug(c', t') && Climbing(c', t', n') && z' == t'.at && y' == Parent(c')
      ensures Depth(c') < Depth(c)
      ensures InOrder(tree) == old(InOrder(tree)) && NIL in old(heap) && heap[NIL] == old(heap)[NIL]
    {
      FamilyLinks(Mem(), c, t);
      var uncle := if y == heap[heap[y].parent].left then heap[heap[y].parent].right else heap[heap[y].parent].left;
      if heap[uncle].color == Red {
        RecoloredClimbs(c, t, n);
        z', y' := Recolor(y, uncle, c, t);
        c', t', n' := c.up.up, Recolored(c, t), n + 1;
        if y' == NIL {
          Links(Mem(), c', t');
          SetColor(z', Black, c', t');
          t', n' := t'.(color := Black), n' + 1;
          root := z';
        }
      } else {
        FixedClimbs(c, t, n);
        z', y' := z, y;
        if z == heap[y].left <==> y == heap[heap[y].parent].left {
          RotateOuter(y, c, t);
        } else {
          z', y' := RotateInner(z, y, c, t);
        }
        c', t', n' := FixedCtx(c, t), FixedTree(c, t), n;
      }
    }

    method RbtreeInsertFixup(start: Address, ghost c0: Ctx, ghost t0: Tree, ghost n0: nat)
      requires Valid() && tree == Plug(c0, t0) && Climbing(c0, t0, n0) && start == t0.at
      modifies this
      ensures Valid() && RedBlack(tree)
      ensures InOrder(tree) == old(InOrder(tree)) && NIL in old(heap) && heap[NIL] == old(heap)[NIL]
    {
      ghost var c, t, n := c0, t0, n0;
      Links(Mem(), c, t);
      var z := start;
      var y := heap[z].parent;
      while heap[y].color == Red
        invariant Valid() && tree == Plug(c, t) && Climbing(c, t, n) && z == t.at && y == Parent(c) && y in heap
        invariant heap[y].color == Red <==> CtxRed(c)
        invariant InOrder(tree) == old(InOrder(tree)) && NIL in old(heap) && heap[NIL] == old(heap)[NIL]
        decreases Depth(c)
      {
        z, y, c, t, n := FixupRound(z, y, c, t, n);
        Links(Mem(), c, t);
      }
      DoneClimbing(c, t, n);
    }

    /** The descent of insert: the empty place below `parent` in front of every entry with a key not smaller. */
    method FindPlace(key: int) returns (parent: Address, ghost c: Ctx)
      requires Valid() && tree != Leaf && Sorted(InOrder(tree))
      ensures tree == Plug(c, Leaf) && !c.Top? && parent == c.at && parent in heap
      ensures AllBelow(Before(c), key) && NoneBelow(After(c), key)
    {
      var target := root;
      parent := NIL;
      ghost var t := tree;
      c := Top;
      while target != NIL
        invariant tree == Plug(c, t) && target == Root(t) && parent == Parent(c)
        invariant c.Top? ==> target != NIL
        invariant AllBelow(Before(c), key) && NoneBelow(After(c), key)
        decreases t
      {
        Links(Mem(), c, t);
        SortedParts(c, t);
        parent := target;
        if key <= heap[target].entry.key {
          target := heap[target].left;
          c, t := InLeft(c, t.at, t.color, t.entry, t.right), t.left;
        } else {
          target := heap[target].right;
          c, t := InRight(c, t.at, t.color, t.entry, t.left), t.right;
        }
      }
      Links(Mem(), c, t);
    }

    /** insert(key, value); z is the address the allocator hands out for the new node. */
    method Insert(key: int, val: Value, z: Address)
      requires Valid() && RedBlack(tree) && Sorted(InOrder(tree)) && z !in heap
      modifies this
      ensures InOrder(tree) == Inserted(old(InOrder(tree)), Entry(key, val))
      ensures Valid() && RedBlack(tree) && Sorted(InOrder(tree))
      ensures NIL in old(heap) && heap[NIL] == old(heap)[NIL]
    {
      InsertUnsorted(key, val, z);
      assert Sorted(InOrder(tree)) by {
        InsertedIsSorted(old(InOrder(tree)), Entry(key, val));
      }
    }

    /** The first node is the root, and black. */
    method InsertRoot(key: int, val: Value, z: Address)
      requires Valid() && root == NIL && z !in heap
      modifies this
      ensures InOrder(tree) == Inserted(old(InOrder(tree)), Entry(key, val))
      ensures Valid() && RedBlack(tree) && NIL in old(heap) && heap[NIL] == old(heap)[NIL]
    {
      assert tree == Leaf;
      heap := heap[z := Node(NIL, NIL, NIL, Entry(key, val), Black)];
      root := z;
      tree := Br(Leaf, z, Black, Entry(key, val), Leaf);
      assert Balanced(tree, 1);
    }

    /** The same, but for the order of the keys. */
    method InsertUnsorted(key: int, val: Value, z: Address)
      requires Valid() && RedBlack(tree) && Sorted(InOrder(tree)) && z !in heap
      modifies this
      ensures InOrder(tree) == Inserted(old(InOrder(tree)), Entry(key, val))
      ensures Valid() && RedBlack(tree) && NIL in old(heap) && heap[NIL] == old(heap)[NIL]
    {
      ghost var m := Mem();
      ghost var e := Entry(key, val);
      if root == NIL {
        InsertRoot(key, val, z);
        return;
      }
      ghost var c;
      var parent;
      parent, c := FindPlace(key);
      Links(Mem(), c, Leaf);
      BesidePlace(c, key);
      if key <= heap[parent].entry.key {
        heap := heap[parent := heap[parent].(left := z)];
      } else {
        heap := heap[parent := heap[parent].(right := z)];
      }
      heap := heap[z := Node(parent, NIL, NIL, Entry(key, val), Red)];
      tree := Plug(c, Br(Leaf, z, Red, e, Leaf));
      Attach(m, Mem(), c, z, e);
      AttachedClimbs(c, z, e);
      AttachedInOrder(c, z, e);
      RbtreeInsertFixup(z, c, Br(Leaf, z, Red, e, Leaf), 0);
    }

    // -------------------------------------------------------------------------------------------
    // Lookup

    method FindNode(key: int) returns (z: Address, ghost c: Ctx, ghost t: Tree)
      requires Valid() && Sorted(InOrder(tree))
      ensures tree == Plug(c, t) && z == Root(t) && z in heap
      ensures z != NIL ==> heap[z].entry.key == key && heap[z].entry == t.entry
      ensures z == NIL ==> forall e :: e in InOrder(tree) ==> e.key != key
      ensures Search(Top, tree, key) == Place(c, t)
    {
      z := root;
      c, t := Top, tree;
      while z != NIL
        invariant tree == Plug(c, t) && z == Root(t)
        invariant AllBelow(Before(c), key) && AllAbove(After(c), key)
        invariant Search(Top, tree, key) == Search(c, t, key)
        decreases t
      {
        Links(Mem(), c, t);
        SortedParts(c, t);
        if heap[z].entry.key == key {
          return;
        } else if heap[z].entry.key < key {
          z := heap[z].right;
          c, t := InRight(c, t.at, t.color, t.entry, t.left), t.right;
        } else {
          z := heap[z].left;
          c, t := InLeft(c, t.at, t.color, t.entry, t.right), t.left;
        }
      }
      Links(Mem(), c, t);
      PlugInOrder(c, t);
    }

    /** The exception for an absent key is None. */
    method Find(key: int) returns (r: Option<Value>)
      requires Valid() && Sorted(InOrder(tree))
      ensures r.Some? ==> Entry(key, r.value) in InOrder(tree)
      ensures r.None? ==> forall e :: e in InOrder(tree) ==> e.key != key
    {
      ghost var c, t;
      var z;
      z, c, t := FindNode(key);
      Links(Mem(), c, t);
      PlugInOrder(c, t);
      r := if z != NIL then Some(heap[z].entry.val) else None;
    }

    // -------------------------------------------------------------------------------------------
    // Removal

    /** The rotation around the parent p of a node on its left (or right) side, which lowers that node. */
    method Lower(p: Address, left: bool, ghost c: Ctx, ghost t: Tree)
      requires Valid() && tree == Plug(c, t) && !c.Top? && c.sibling.Br? && p == c.at && left == c.InLeft?
      modifies this
      ensures Valid() && tree == Plug(Lowered(c), t) && SameSides(c, Lowered(c))
      ensures NIL in old(heap) && heap[NIL] == old(heap)[NIL]
    {
      if left {
        LeftRotate(p, c.up, Fill(c, t));
      } else {
        RightRotate(p, c.up, Fill(c, t));
      }
      LoweredSides(c);
    }

    /** Red sibling. */
    method SiblingRed(y: Address, left: bool, ghost c: Ctx, ghost t: Tree) returns (ghost c': Ctx)
      requires Valid() && tree == Plug(c, t) && t.Br? && !c.Top? && c.sibling.Br? && Near(c).Br?
      requires y == c.sibling.at && left == c.InLeft?
      modifies this
      ensures Valid() && tree == Plug(c', t) && SameSides(c, c') && c' == RedFixed(c)
      ensures NIL in old(heap) && heap[NIL] == old(heap)[NIL]
    {
      SiblingLinks(Mem(), c, t);
      SetColor(if left then heap[y].left else heap[y].right, Red, NearCtx(c, t), Near(c));
      ghost var c1 := WithNear(c, Near(c).(color := Red));
      SetColor(y, Black, Beside(c1, t), c1.sibling);
      ghost var c2 := c1.(sibling := c1.sibling.(color := Black));
      SiblingLinks(Mem(), c2, t);
      Lower(heap[y].parent, left, c2, t);
      c' := Lowered(c2);
      NephewSides(c, Near(c).(color := Red));
      SiblingSides(c1, c2.sibling, c1.color);
    }

    /** Black sibling with a far child. */
    method FarNephew(y: Address, left: bool, ghost c: Ctx, ghost t: Tree) returns (ghost c': Ctx)
      requires Valid() && tree == Plug(c, t) && t.Br? && !c.Top? && c.sibling.Br? && Far(c).Br?
      requires y == c.sibling.at && left == c.InLeft?
      modifies this
      ensures Valid() && tree == Plug(c', t) && SameSides(c, c') && c' == FarFixed(c)
      ensures NIL in old(heap) && heap[NIL] == old(heap)[NIL]
    {
      SiblingLinks(Mem(), c, t);
      SetColor(y, heap[heap[y].parent].color, Beside(c, t), c.sibling);
      ghost var c1 := c.(sibling := c.sibling.(color := c.color));
      SiblingLinks(Mem(), c1, t);
      SetColor(if left then heap[y].right else heap[y].left, Black, FarCtx(c1, t), Far(c1));
      ghost var c2 := WithFar(c1, Far(c1).(color := Black));
      SiblingLinks(Mem(), c2, t);
      SetColor(heap[y].parent, Black, c2.up, Fill(c2, t));
      ghost var c3 := c2.(color := Black);
      SiblingLinks(Mem(), c3, t);
      Lower(heap[y].parent, left, c3, t);
      c' := Lowered(c3);
      SiblingSides(c, c1.sibling, c.color);
      NephewSides(c1, Far(c1).(color := Black));
      SiblingSides(c2, c2.sibling, Black);
    }

    /** The double rotation of a sibling with a near child, its colours already set. */
    method LowerTwice(y: Address, left: bool, ghost c: Ctx, ghost t: Tree) returns (ghost c': Ctx)
      requires Valid() && tree == Plug(c, t) && t.Br? && !c.Top? && c.sibling.Br? && Near(c).Br?
      requires y == c.sibling.at && left == c.InLeft?
      modifies this
      ensures Valid() && tree == Plug(c', t) && SameSides(c, c') && c' == Lowered(NearUp(c))
      ensures NIL in old(heap) && heap[NIL] == old(heap)[NIL]
    {
      ghost var c1;
      if left {
        RightRotate(y, Beside(c, t), c.sibling);
        c1 := WithSibling(c, RotatedRight(c.sibling));
        Links(Mem(), RightOf(Beside(c1, t), c1.sibling), c1.sibling.right);
      } else {
        LeftRotate(y, Beside(c, t), c.sibling);
        c1 := WithSibling(c, RotatedLeft(c.sibling));
        Links(Mem(), LeftOf(Beside(c1, t), c1.sibling), c1.sibling.left);
      }
      SiblingLinks(Mem(), c1, t);
      Lower(heap[heap[y].parent].parent, left, c1, t);
      SiblingSides(c, c1.sibling, c.color);
      c' := Lowered(c1);
    }

    /** Black sibling with only a near child. */
    method NearNephew(y: Address, left: bool, ghost c: Ctx, ghost t: Tree) returns (ghost c': Ctx)
      requires Valid() && tree == Plug(c, t) && t.Br? && !c.Top? && c.sibling.Br? && Near(c).Br?
      requires y == c.sibling.at && left == c.InLeft?
      modifies this
      ensures Valid() && tree == Plug(c', t) && SameSides(c, c') && c' == NearFixed(c)
      ensures NIL in old(heap) && heap[NIL] == old(heap)[NIL]
    {
      SiblingLinks(Mem(), c, t);
      SetColor(if left then heap[y].left else heap[y].right, heap[heap[y].parent].color, NearCtx(c, t), Near(c));
      ghost var c1 := WithNear(c, Near(c).(color := c.color));
      NephewSides(c, Near(c).(color := c.color));
      SiblingLinks(Mem(), c1, t);
      SetColor(heap[y].parent, Black, c1.up, Fill(c1, t));
      SiblingSides(c1, c1.sibling, Black);
      c' := LowerTwice(y, left, c1.(color := Black), t);
    }

    /** One round of the removal fixup at a node z with a sibling; `done` when the source leaves the loop. */
    method RemovalRound(z: Address, ghost c: Ctx, ghost t: Tree, ghost n: nat) returns (done: bool, z': Address,
          ghost c': Ctx, ghost t': Tree)
      requires Valid() && tree == Plug(c, t) && t.Br? && z == t.at && !c.Top? && CtxBalanced(c, n) && n > 0
      modifies this
      ensures Valid() && tree == Plug(c', t')
      ensures done ==> t' == t && SameSides(c, c') && c' == Repaired(c)
      ensures !done ==> Climbed(c, t, c', t') && z' == t'.at && Repaired(c) == Compose(Repaired(c.up), Rung(c))
      ensures NIL in old(heap) && heap[NIL] == old(heap)[NIL]
    {
      SiblingPresent(c, n);
      SiblingLinks(Mem(), c, t);
      RepairedCases(c);
      var left := z == heap[heap[z].parent].left;
      var y := if left then heap[heap[z].parent].right else heap[heap[z].parent].left;
      done, z', t' := true, z, t;
      if heap[y].color == Red {
        c' := SiblingRed(y, left, c, t);
      } else if (if left then heap[y].right else heap[y].left) != NIL {
        c' := FarNephew(y, left, c, t);
      } else if (if left then heap[y].left else heap[y].right) != NIL {
        c' := NearNephew(y, left, c, t);
      } else {
        assert Far(c).Leaf? && Near(c).Leaf? && !IsRed(c.sibling);
        done := false;
        SetColor(y, Red, Beside(c, t), c.sibling);
        ghost var c1 := c.(sibling := c.sibling.(color := Red));
        SiblingLinks(Mem(), c1, t);
        SetColor(heap[y].parent, Black, c.up, Fill(c1, t));
        c', t' := c.up, Fill(c1.(color := Black), t);
        SiblingLinks(Mem(), c1.(color := Black), t);
        z' := heap[y].parent;
      }
    }

    method RbtreeDeleteFixup(start: Address, ghost c0: Ctx, ghost t0: Tree) returns (ghost c': Ctx)
      requires Valid() && tree == Plug(c0, t0) && t0.Br? && start == t0.at && RedBlack(tree) && t0.color == Black
      modifies this
      ensures Valid() && tree == Plug(c', t0) && SameSides(c0, c') && c' == Repaired(c0)
      ensures NIL in old(heap) && heap[NIL] == old(heap)[NIL]
    {
      ghost var m: nat :| Balanced(tree, m);
      UnplugBalanced(c0, t0, m);
      ghost var c, inner, t, n := c0, Top, t0, BlackHeight(t0);
      var z, done := start, false;
      Links(Mem(), c, t);
      while z != root && heap[z].color == Black
        invariant Valid() && tree == Plug(c, t) && t == Plug(inner, t0) && t.Br? && z == t.at && z in heap
        invariant SameSides(c0, Compose(c, inner)) && CtxBalanced(c, n) && n > 0
        invariant Repaired(c0) == Compose(Repaired(c), inner) && t.color == Black && heap[z].color == Black
        invariant NIL in old(heap) && heap[NIL] == old(heap)[NIL]
        decreases Depth(c)
      {
        ghost var t';
        Links(Mem(), c, t);
        done, z, c', t' := RemovalRound(z, c, t, n);
        if done {
          SidesCompose(c, c', inner);
          PlugCompose(c', inner, t0);
          c' := Compose(c', inner);
          return;
        }
        ClimbedSides(c, inner, t0, c', t');
        ComposeAssociates(Repaired(c'), Rung(c), inner);
        n := if c.color == Black then n + 1 else n;
        c, inner, t := c', Compose(Rung(c), inner), t';
        Links(Mem(), c, t);
      }
      Links(Mem(), c, t);
      PlugCompose(c, inner, t0);
      c' := Compose(c, inner);
    }

    method Minimum(x: Address, ghost c: Ctx, ghost t: Tree) returns (r: Address, ghost inner: Ctx, ghost s: Tree)
      requires Valid() && tree == Plug(c, t) && t.Br? && x == t.at
      ensures t == Plug(inner, s) && s.Br? && s.left.Leaf? && Before(inner) == []
      ensures r == s.at && r != NIL && r in heap && heap[r].entry == s.entry && LeftPath(inner)
    {
      r := x;
      inner, s := Top, t;
      Links(Mem(), c, t);
      while heap[r].left != NIL
        invariant t == Plug(inner, s) && s.Br? && r == s.at && r != NIL && r in heap && Before(inner) == []
        invariant LeftPath(inner)
        invariant heap[r] == Node(Parent(Compose(c, inner)), Root(s.left), Root(s.right), s.entry, s.color)
        decreases s
      {
        r := heap[r].left;
        inner, s := LeftOf(inner, s), s.left;
        PlugCompose(c, inner, s);
        Links(Mem(), Compose(c, inner), s);
      }
      if s.left.Br? {
        PlugCompose(c, LeftOf(inner, s), s.left);
        Links(Mem(), Compose(c, LeftOf(inner, s)), s.left);
      }
    }

    method Unlink(z: Address, ghost c: Ctx, ghost t: Tree)
      requires Valid() && tree == Plug(c, t) && t.Br? && t.left.Leaf? && t.right.Leaf? && z == t.at
      modifies this
      ensures Valid() && tree == Plug(c, Leaf)
      ensures heap.Keys == old(heap).Keys - {z} && NIL in old(heap) && heap[NIL] == old(heap)[NIL]
    {
      Links(Mem(), c, t);
      if z == root {
        root := NIL;
      } else if z == heap[heap[z].parent].left {
        heap := heap[heap[z].parent := heap[heap[z].parent].(left := NIL)];
      } else {
        heap := heap[heap[z].parent := heap[heap[z].parent].(right := NIL)];
      }
      heap := heap - {z};
      Detach(old(Mem()), Mem(), c, t);
      tree := Plug(c, Leaf);
    }

    /** The node holding the next entry in order, or the sentinel. */
    method FindSuccessor(z: Address, ghost c: Ctx, ghost t: Tree) returns (r: Address, ghost inner: Ctx, ghost s: Tree)
      requires Valid() && tree == Plug(c, t) && t.Br? && z == t.at
      ensures r == NIL <==> InOrder(t.right) + After(c) == []
      ensures r != NIL ==> r in heap && heap[r].entry == (InOrder(t.right) + After(c))[0]
      ensures t.right.Br? ==> t.right == Plug(inner, s) && s.Br? && s.left.Leaf? && Before(inner) == [] && r == s.at
      ensures t.right.Br? ==> r in heap && heap[r].entry == s.entry && LeftPath(inner)
    {
      Links(Mem(), c, t);
      r := heap[z].right;
      inner, s := Top, t.right;
      Focus(Mem(), c, t);
      if r != NIL {
        r, inner, s := Minimum(r, RightOf(c, t), t.right);
        PlugInOrder(inner, s);
        return;
      }
      var node := z;
      var father := heap[z].parent;
      ghost var cc, tt := c, t;
      while father != NIL && node == heap[father].right
        invariant tree == Plug(cc, tt) && tt.Br? && node == tt.at && father == Parent(cc) && father in heap
        invariant After(cc) == After(c)
        decreases Depth(cc)
      {
        Links(Mem(), cc, tt);
        cc, tt := cc.up, Fill(cc, tt);
        Links(Mem(), cc, tt);
        node := father;
        father := heap[node].parent;
      }
      Links(Mem(), cc, tt);
      r := father;
    }

    /** The key and the value of z change places with those of a node below it. */
    method SwapEntries(z: Address, other: Address, ghost c: Ctx, ghost t: Tree, ghost c': Ctx, ghost s: Tree)
      requires Valid() && RedBlack(tree) && tree == Plug(c, t) && t.Br? && z == t.at && s.Br? && other == s.at
      requires other in heap && heap[other].entry == s.entry && Plug(c, t.(entry := s.entry)) == Plug(c', s)
      modifies this
      ensures Valid() && RedBlack(tree) && tree == Plug(c', s.(entry := t.entry))
      ensures NIL in old(heap) && heap[NIL] == old(heap)[NIL]
    {
      Links(Mem(), c, t);
      var mine, theirs := heap[z].entry, heap[other].entry;
      SetEntry(z, theirs, c, t);
      PlugAlike(c, t, t.(entry := theirs));
      SetEntry(other, mine, c', s);
      PlugAlike(c', s, s.(entry := mine));
    }

    method SwapWithSuccessor(z: Address, ghost c: Ctx, ghost t: Tree)
      returns (suc: Address, ghost c': Ctx, ghost t': Tree)
      requires Valid() && RedBlack(tree) && tree == Plug(c, t) && t.Br? && t.left.Br? && t.right.Br? && z == t.at
      modifies this
      ensures Valid() && RedBlack(tree) && tree == Plug(c', t') && t'.Br? && suc == t'.at
      ensures Without(c', t') == Without(c, t) && Size(t') < Size(t) && KeepsRules(c', t') == KeepsRules(c, t)
      ensures NIL in old(heap) && heap[NIL] == old(heap)[NIL]
    {
      ghost var inner, s;
      suc, inner, s := FindSuccessor(z, c, t);
      ghost var t1 := t.(entry := s.entry);
      c' := Compose(RightOf(c, t1), inner);
      t' := s.(entry := t.entry);
      PlugCompose(RightOf(c, t), inner, s);
      PlugCompose(RightOf(c, t1), inner, s);
      Links(Mem(), Compose(RightOf(c, t), inner), s);
      SwapEntries(z, suc, c, t, c', s);
      SuccessorSwap(c, t, inner, s, t.entry);
      KeepsAtSuccessor(c, t, inner, s, t.entry);
      SizePlug(inner, s);
    }

    method SwapWithChild(z: Address, ghost c: Ctx, ghost t: Tree)
      returns (child: Address, ghost c': Ctx, ghost t': Tree)
      requires Valid() && RedBlack(tree) && tree == Plug(c, t) && t.Br? && z == t.at
      requires t.left.Br? <==> t.right.Leaf?
      modifies this
      ensures Valid() && RedBlack(tree) && tree == Plug(c', t') && t'.Br? && child == t'.at
      ensures Without(c', t') == Without(c, t) && Size(t') < Size(t) && KeepsRules(c', t') && KeepsRules(c, t)
      ensures NIL in old(heap) && heap[NIL] == old(heap)[NIL]
    {
      Links(Mem(), c, t);
      OneChild(c, t);
      Focus(Mem(), c, t);
      child := if heap[z].left != NIL then heap[z].left else heap[z].right;
      ghost var s := if t.left.Br? then t.left else t.right;
      ghost var t1 := t.(entry := s.entry);
      c' := if t.left.Br? then LeftOf(c, t1) else RightOf(c, t1);
      t' := s.(entry := t.entry);
      Links(Mem(), if t.left.Br? then LeftOf(c, t) else RightOf(c, t), s);
      SwapEntries(z, child, c, t, c', s);
      ChildSwap(c, t, t.entry);
    }

    method DeleteNode(z: Address, ghost c: Ctx, ghost t: Tree)
      requires Valid() && RedBlack(tree) && tree == Plug(c, t) && t.Br? && z == t.at
      modifies this
      ensures Valid() && InOrder(tree) == Without(c, t)
      ensures RedBlack(tree) <==> KeepsRules(c, t)
      ensures NIL in old(heap) && heap[NIL] == old(heap)[NIL]
      decreases Size(t)
    {
      Links(Mem(), c, t);
      Focus(Mem(), c, t);
      if heap[z].right != NIL && heap[z].left != NIL {
        var suc;
        ghost var c', t';
        suc, c', t' := SwapWithSuccessor(z, c, t);
        DeleteNode(suc, c', t');
      } else if heap[z].left != NIL || heap[z].right != NIL {
        var child;
        ghost var c', t';
        child, c', t' := SwapWithChild(z, c, t);
        DeleteNode(child, c', t');
      } else {
        ghost var c' := c;
        ChildlessOut(c, t);
        if heap[z].color == Black {
          c' := RbtreeDeleteFixup(z, c, t);
        }
        Unlink(z, c', t);
        WithoutLeaf(c, c', t);
      }
    }

    /** remove(key): an absent key changes nothing, a present one loses exactly one of its entries. */
    method Remove(key: int)
      requires Valid() && RedBlack(tree) && Sorted(InOrder(tree))
      modifies this
      ensures Valid() && NIL in old(heap) && heap[NIL] == old(heap)[NIL]
      ensures (forall e :: e in old(InOrder(tree)) ==> e.key != key) ==> Mem() == old(Mem()) && tree == old(tree)
      ensures (exists e :: e in old(InOrder(tree)) && e.key == key) ==>
        OneRemoved(old(InOrder(tree)), InOrder(tree), key)
      ensures var p := Search(Top, old(tree), key); p.sub.Br? ==> (RedBlack(tree) <==> KeepsRules(p.ctx, p.sub))
    {
      ghost var s := InOrder(tree);
      var target;
      ghost var c, t;
      target, c, t := FindNode(key);
      Links(Mem(), c, t);
      if target == NIL { return; }
      RemovedAt(c, t);
      DeleteNode(target, c, t);
    }
  }
}
