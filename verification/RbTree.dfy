/** The red-black tree `pure_rbtree`. A subtree together with its `Place`, the way from its parent up to the
    root, stands for a node of the original with its parent links: going to the parent is going up the place.
    Keys may repeat. */
module RbTrees {
  import opened Options

  datatype Colour = Black | Red

  datatype Entry<T> = Entry(key: nat, data: T)

  datatype Tree<T> = Nil | Node(colour: Colour, left: Tree<T>, entry: Entry<T>, right: Tree<T>)

  /** Where a subtree hangs: as the left or the right son of a node with this colour and entry, whose other
      son is `sibling`. */
  datatype Place<T> =
    | Top
    | Left(colour: Colour, entry: Entry<T>, sibling: Tree<T>, up: Place<T>)
    | Right(colour: Colour, entry: Entry<T>, sibling: Tree<T>, up: Place<T>)

  // ---------------------------------------------------------------------------------------------
  // Contents

  function Entries<T>(t: Tree<T>): seq<Entry<T>> {
    if t.Nil? then [] else Entries(t.left) + [t.entry] + Entries(t.right)
  }

  function Before<T>(p: Place<T>): seq<Entry<T>> {
    match p
    case Top => []
    case Left(_, _, _, up) => Before(up)
    case Right(_, e, s, up) => Before(up) + Entries(s) + [e]
  }

  function After<T>(p: Place<T>): seq<Entry<T>> {
    match p
    case Top => []
    case Left(_, e, s, up) => [e] + Entries(s) + After(up)
    case Right(_, _, _, up) => After(up)
  }

  /** The entries, in order, of the whole tree that `t` at `p` is part of. */
  function Whole<T>(t: Tree<T>, p: Place<T>): seq<Entry<T>> {
    Before(p) + Entries(t) + After(p)
  }

  /** The node the subtree `t` at `p` is a son of. */
  function Parent<T>(t: Tree<T>, p: Place<T>): Tree<T>
    requires !p.Top?
  {
    if p.Left? then Node(p.colour, t, p.entry, p.sibling) else Node(p.colour, p.sibling, p.entry, t)
  }

  function Root<T>(t: Tree<T>, p: Place<T>): Tree<T>
    decreases p
  {
    if p.Top? then t else Root(Parent(t, p), p.up)
  }

  lemma Regroup<X>(a: seq<X>, b: seq<X>, c: seq<X>, d: seq<X>, e: seq<X>)
    ensures a + (b + c + d) + e == a + b + (c + d + e) == (a + b + c) + d + e
  {
  }

  lemma WholeParent<T>(t: Tree<T>, p: Place<T>)
    requires !p.Top?
    ensures Whole(Parent(t, p), p.up) == Whole(t, p)
  {
    if p.Left? {
      Regroup(Before(p.up), Entries(t), [p.entry], Entries(p.sibling), After(p.up));
    } else {
      Regroup(Before(p.up), Entries(p.sibling), [p.entry], Entries(t), After(p.up));
    }
  }

  lemma {:induction false} WholeRoot<T>(t: Tree<T>, p: Place<T>)
    ensures Entries(Root(t, p)) == Whole(t, p)
    decreases p
  {
    if p.Top? {
      assert Whole(t, p) == Entries(t);
    } else {
      WholeParent(t, p);
      WholeRoot(Parent(t, p), p.up);
    }
  }

  // ---------------------------------------------------------------------------------------------
  // Red-black shape

  predicate IsRed<T>(t: Tree<T>) {
    t.Node? && t.colour == Red
  }

  predicate ParentRed<T>(p: Place<T>) {
    !p.Top? && p.colour == Red
  }

  function Blacken<T>(t: Tree<T>): Tree<T> {
    if t.Nil? then Nil else t.(colour := Black)
  }

  function Weight(c: Colour): nat {
    if c == Black then 1 else 0
  }

  function BlackHeight<T>(t: Tree<T>): nat {
    if t.Nil? then 0 else BlackHeight(t.left) + Weight(t.colour)
  }

  /** Every path down meets as many black nodes, and no red node has a red son. */
  ghost predicate RedBlack<T>(t: Tree<T>) {
    t.Node? ==>
      && RedBlack(t.left) && RedBlack(t.right) && BlackHeight(t.left) == BlackHeight(t.right)
      && (t.colour == Red ==> !IsRed(t.left) && !IsRed(t.right))
  }

  /** The way up has red-black shape around a subtree of black height `h`. */
  ghost predicate Fits<T>(p: Place<T>, h: nat) {
    !p.Top? ==>
      && RedBlack(p.sibling) && BlackHeight(p.sibling) == h
      && (p.colour == Red ==> !IsRed(p.sibling) && !ParentRed(p.up) && !p.up.Top?)
      && Fits(p.up, h + Weight(p.colour))
  }

  /** `t` is in its place in a red-black tree with a black root. */
  ghost predicate InPlace<T>(t: Tree<T>, p: Place<T>) {
    RedBlack(t) && Fits(p, BlackHeight(t)) && (IsRed(t) ==> !ParentRed(p) && !p.Top?)
  }

  lemma {:induction false} RootInPlace<T>(t: Tree<T>, p: Place<T>)
    requires InPlace(t, p)
    ensures RedBlack(Root(t, p)) && !IsRed(Root(t, p))
    decreases p
  {
    if !p.Top? {
      RootInPlace(Parent(t, p), p.up);
    }
  }

  // ---------------------------------------------------------------------------------------------
  // Order

  ghost predicate Sorted<T>(s: seq<Entry<T>>) {
    forall i, j :: 0 <= i < j < |s| ==> s[i].key <= s[j].key
  }

  ghost predicate AtMost<T>(s: seq<Entry<T>>, key: nat) {
    forall i :: 0 <= i < |s| ==> s[i].key <= key
  }

  ghost predicate AtLeast<T>(s: seq<Entry<T>>, key: nat) {
    forall i :: 0 <= i < |s| ==> key <= s[i].key
  }

  ghost predicate Above<T>(s: seq<Entry<T>>, key: nat) {
    forall i :: 0 <= i < |s| ==> key < s[i].key
  }

  ghost predicate Below<T>(s: seq<Entry<T>>, key: nat) {
    forall i :: 0 <= i < |s| ==> s[i].key < key
  }

  lemma SortedSplit<T>(l: seq<Entry<T>>, e: Entry<T>, r: seq<Entry<T>>)
    requires Sorted(l + [e] + r)
    ensures AtMost(l, e.key) && AtLeast(r, e.key)
  {
    var s := l + [e] + r;
    assert s[|l|] == e;
    assert forall i :: 0 <= i < |l| ==> s[i] == l[i];
    assert forall i :: 0 <= i < |r| ==> s[|l| + 1 + i] == r[i];
  }

  /** Going down from `t`, its entry divides what is left behind from what lies ahead. */
  lemma Divides<T>(t: Tree<T>, p: Place<T>)
    requires t.Node? && Sorted(Whole(t, p))
    ensures AtMost(Before(p) + Entries(t.left) + [t.entry], t.entry.key)
    ensures AtLeast([t.entry] + Entries(t.right) + After(p), t.entry.key)
  {
    assert Whole(t, p) == (Before(p) + Entries(t.left)) + [t.entry] + (Entries(t.right) + After(p));
    SortedSplit(Before(p) + Entries(t.left), t.entry, Entries(t.right) + After(p));
    assert [t.entry] + Entries(t.right) + After(p) == [t.entry] + (Entries(t.right) + After(p));
  }

  /** Going to a son. */
  function LeftOf<T>(t: Tree<T>, p: Place<T>): Place<T>
    requires t.Node?
  {
    Left(t.colour, t.entry, t.right, p)
  }

  function RightOf<T>(t: Tree<T>, p: Place<T>): Place<T>
    requires t.Node?
  {
    Right(t.colour, t.entry, t.left, p)
  }

  lemma GoDown<T>(t: Tree<T>, p: Place<T>)
    requires t.Node?
    ensures Whole(t.left, LeftOf(t, p)) == Whole(t, p) == Whole(t.right, RightOf(t, p))
    ensures InPlace(t, p) ==> InPlace(t.left, LeftOf(t, p)) && InPlace(t.right, RightOf(t, p))
  {
    WholeParent(t.left, LeftOf(t, p));
    WholeParent(t.right, RightOf(t, p));
  }

  // ---------------------------------------------------------------------------------------------
  // Insertion

  /** The red uncle and the parent turn black, the grandparent red; the fix-up goes on there. */
  function Recoloured<T>(z: Tree<T>, p: Place<T>): Tree<T>
    requires !p.Top? && !p.up.Top?
  {
    Parent(Blacken(Parent(z, p)), p.up.(colour := Red, sibling := Blacken(p.up.sibling)))
  }

  lemma RecolouredWhole<T>(z: Tree<T>, p: Place<T>)
    requires !p.Top? && !p.up.Top?
    ensures Whole(Recoloured(z, p), p.up.up) == Whole(z, p)
  {
    WholeParent(z, p);
    WholeParent(Parent(z, p), p.up);
    assert Entries(Recoloured(z, p)) == Entries(Parent(Parent(z, p), p.up));
  }

  lemma RecolouredFits<T>(z: Tree<T>, p: Place<T>)
    requires IsRed(z) && RedBlack(z) && Fits(p, BlackHeight(z)) && ParentRed(p) && IsRed(p.up.sibling)
    ensures IsRed(Recoloured(z, p)) && RedBlack(Recoloured(z, p))
    ensures Fits(p.up.up, BlackHeight(Recoloured(z, p)))
  {
  }

  /** A right son under a left son, or the other way round: rotating the parent makes `z` the outer one. */
  function Straightened<T>(z: Tree<T>, p: Place<T>): (Tree<T>, Place<T>)
    requires z.Node? && !p.Top?
  {
    if p.Right? then (Node(p.colour, p.sibling, p.entry, z.left), Left(z.colour, z.entry, z.right, p.up))
    else (Node(p.colour, z.right, p.entry, p.sibling), Right(z.colour, z.entry, z.left, p.up))
  }

  lemma StraightenedWhole<T>(z: Tree<T>, p: Place<T>)
    requires z.Node? && !p.Top?
    ensures Whole(Straightened(z, p).0, Straightened(z, p).1) == Whole(z, p)
  {
    var (z', p') := Straightened(z, p);
    WholeParent(z, p);
    WholeParent(z', p');
    if p.Right? {
      Regroup(Entries(p.sibling), [p.entry], Entries(z.left), [z.entry], Entries(z.right));
    } else {
      Regroup(Entries(z.left), [z.entry], Entries(z.right), [p.entry], Entries(p.sibling));
    }
    assert Entries(Parent(z, p)) == Entries(Parent(z', p'));
  }

  lemma StraightenedFits<T>(z: Tree<T>, p: Place<T>)
    requires IsRed(z) && RedBlack(z) && Fits(p, BlackHeight(z)) && ParentRed(p)
    ensures var (z', p') := Straightened(z, p);
            && IsRed(z') && RedBlack(z') && Fits(p', BlackHeight(z')) && ParentRed(p')
            && p'.up == p.up && p'.Left? == p.Right?
  {
  }

  /** The parent turns black, the grandparent red and is rotated under it: where `z` hangs then. */
  function Raised<T>(p: Place<T>): Place<T>
    requires !p.Top? && !p.up.Top?
  {
    var g := p.up;
    if p.Left? then Left(Black, p.entry, Node(Red, p.sibling, g.entry, g.sibling), g.up)
    else Right(Black, p.entry, Node(Red, g.sibling, g.entry, p.sibling), g.up)
  }

  lemma RaisedWhole<T>(z: Tree<T>, p: Place<T>)
    requires !p.Top? && !p.up.Top? && p.Left? == p.up.Left?
    ensures Whole(z, Raised(p)) == Whole(z, p)
  {
    var g := p.up;
    if p.Left? {
      Regroup([p.entry], Entries(p.sibling), [g.entry], Entries(g.sibling), After(g.up));
      assert After(Raised(p)) == After(p) && Before(Raised(p)) == Before(g.up) == Before(p);
    } else {
      Regroup(Before(g.up), Entries(g.sibling), [g.entry], Entries(p.sibling), [p.entry]);
      assert Before(Raised(p)) == Before(p) && After(Raised(p)) == After(g.up) == After(p);
    }
  }

  lemma RaisedFits<T>(h: nat, p: Place<T>)
    requires Fits(p, h) && ParentRed(p) && !IsRed(p.up.sibling)
    ensures Fits(Raised(p), h) && !ParentRed(Raised(p))
  {
  }

  function Depth<T>(p: Place<T>): nat {
    if p.Top? then 0 else 1 + Depth(p.up)
  }

  lemma RaisedDepth<T>(p: Place<T>)
    requires !p.Top? && !p.up.Top?
    ensures Depth(Raised(p)) == Depth(p.up) < Depth(p)
  {
  }

  lemma BlackenedRoot<T>(z: Tree<T>, p: Place<T>)
    requires IsRed(z) && RedBlack(z) && Fits(p, BlackHeight(z)) && !ParentRed(p)
    ensures RedBlack(Blacken(Root(z, p))) && Entries(Blacken(Root(z, p))) == Whole(z, p)
  {
    WholeRoot(z, p);
    if !p.Top? {
      RootInPlace(z, p);
    }
  }

  /** `rb_insert_fixup`: `z` is red and fits, but its parent may be red too. */
  method InsertFixup<T>(z0: Tree<T>, p0: Place<T>) returns (root: Tree<T>)
    requires IsRed(z0) && RedBlack(z0) && Fits(p0, BlackHeight(z0))
    ensures RedBlack(root) && !IsRed(root) && Entries(root) == Whole(z0, p0)
  {
    hide Whole, Entries, Raised, Straightened, Recoloured;
    var z, p := z0, p0;
    while ParentRed(p)
      invariant IsRed(z) && RedBlack(z) && Fits(p, BlackHeight(z)) && Whole(z, p) == Whole(z0, p0)
      decreases Depth(p)
    {
      assert Depth(p) == 1 + Depth(p.up) == 2 + Depth(p.up.up);
      if IsRed(p.up.sibling) {
        RecolouredWhole(z, p);
        RecolouredFits(z, p);
        z, p := Recoloured(z, p), p.up.up;
      } else {
        if p.Left? != p.up.Left? {
          StraightenedWhole(z, p);
          StraightenedFits(z, p);
          var r := Straightened(z, p);
          z, p := r.0, r.1;
        }
        RaisedWhole(z, p);
        RaisedFits(BlackHeight(z), p);
        RaisedDepth(p);
        p := Raised(p);
      }
    }
    root := Blacken(Root(z, p));
    BlackenedRoot(z, p);
  }

  // ---------------------------------------------------------------------------------------------
  // Deletion

  /** Red-black below the top node, whatever the colours at the top. */
  ghost predicate Nearly<T>(t: Tree<T>) {
    t.Node? ==> RedBlack(t.left) && RedBlack(t.right) && BlackHeight(t.left) == BlackHeight(t.right)
  }

  /** The red sibling turns black, the parent red and is rotated under it: where `x` hangs then. */
  function Lowered<T>(q: Place<T>): Place<T>
    requires !q.Top? && q.sibling.Node?
  {
    var w := q.sibling;
    if q.Left? then Left(Red, q.entry, w.left, Left(Black, w.entry, w.right, q.up))
    else Right(Red, q.entry, w.right, Right(Black, w.entry, w.left, q.up))
  }

  lemma LoweredWhole<T>(x: Tree<T>, q: Place<T>)
    requires !q.Top? && q.sibling.Node?
    ensures Whole(x, Lowered(q)) == Whole(x, q)
  {
    var w := q.sibling;
    if q.Left? {
      Regroup([q.entry], Entries(w.left), [w.entry], Entries(w.right), After(q.up));
      assert After(Lowered(q)) == [q.entry] + Entries(w.left) + ([w.entry] + Entries(w.right) + After(q.up));
      assert Before(Lowered(q)) == Before(Lowered(q).up) == Before(q);
    } else {
      Regroup(Before(q.up), Entries(w.left), [w.entry], Entries(w.right), [q.entry]);
      assert Before(Lowered(q)) == (Before(q.up) + Entries(w.left) + [w.entry]) + Entries(w.right) + [q.entry];
      assert After(Lowered(q)) == After(Lowered(q).up) == After(q);
    }
  }

  lemma LoweredFits<T>(h: nat, q: Place<T>)
    requires !q.Top? && Fits(q, h + 1) && IsRed(q.sibling)
    ensures Fits(Lowered(q), h + 1) && ParentRed(Lowered(q)) && !IsRed(Lowered(q).sibling)
    ensures Depth(Lowered(q).up) == Depth(q) && Lowered(q).Left? == q.Left?
  {
  }

  /** The black sibling turns red, and the lack of a black node passes to the parent. */
  function Merged<T>(x: Tree<T>, q: Place<T>): Tree<T>
    requires !q.Top? && q.sibling.Node?
  {
    Parent(x, q.(sibling := q.sibling.(colour := Red)))
  }

  lemma MergedWhole<T>(x: Tree<T>, q: Place<T>)
    requires !q.Top? && q.sibling.Node?
    ensures Whole(Merged(x, q), q.up) == Whole(x, q)
  {
    WholeParent(x, q);
    assert Entries(Merged(x, q)) == Entries(Parent(x, q));
  }

  lemma MergedFits<T>(x: Tree<T>, q: Place<T>)
    requires RedBlack(x) && !q.Top? && Fits(q, BlackHeight(x) + 1) && !IsRed(q.sibling)
    requires q.sibling.Node? && !IsRed(q.sibling.left) && !IsRed(q.sibling.right)
    ensures Nearly(Merged(x, q)) && Fits(q.up, BlackHeight(Merged(x, q)) + 1)
    ensures IsRed(Merged(x, q)) <==> ParentRed(q)
  {
  }

  /** The sibling's sons, the one next to `x` and the one away from it. */
  function Near<T>(q: Place<T>): Tree<T>
    requires !q.Top? && q.sibling.Node?
  {
    if q.Left? then q.sibling.left else q.sibling.right
  }

  function Far<T>(q: Place<T>): Tree<T>
    requires !q.Top? && q.sibling.Node?
  {
    if q.Left? then q.sibling.right else q.sibling.left
  }

  /** The near son turns black, the sibling red and is rotated under it. */
  function Turned<T>(q: Place<T>): Place<T>
    requires !q.Top? && q.sibling.Node? && Near(q).Node?
  {
    var w, n := q.sibling, Near(q);
    q.(sibling := if q.Left? then Node(Black, n.left, n.entry, Node(Red, n.right, w.entry, w.right))
                  else Node(Black, Node(Red, w.left, w.entry, n.left), n.entry, n.right))
  }

  lemma TurnedWhole<T>(x: Tree<T>, q: Place<T>)
    requires !q.Top? && q.sibling.Node? && Near(q).Node?
    ensures Whole(x, Turned(q)) == Whole(x, q)
  {
    var w, n := q.sibling, Near(q);
    if q.Left? {
      Regroup(Entries(n.left), [n.entry], Entries(n.right), [w.entry], Entries(w.right));
    } else {
      Regroup(Entries(w.left), [w.entry], Entries(n.left), [n.entry], Entries(n.right));
    }
    assert Entries(Turned(q).sibling) == Entries(w);
  }

  lemma TurnedFits<T>(h: nat, q: Place<T>)
    requires !q.Top? && Fits(q, h + 1) && !IsRed(q.sibling) && q.sibling.Node?
    requires IsRed(Near(q)) && !IsRed(Far(q))
    ensures !Turned(q).Top? && Fits(Turned(q), h + 1) && !IsRed(Turned(q).sibling) && IsRed(Far(Turned(q)))
    ensures Turned(q).up == q.up
  {
    var w, n, f := q.sibling, Near(q), Far(Turned(q));
    assert RedBlack(w.left) && RedBlack(w.right);
    assert RedBlack(n) && RedBlack(Far(q));
    assert BlackHeight(w.left) == BlackHeight(w.right) == h;
    assert RedBlack(n.left) && RedBlack(n.right) && BlackHeight(n.left) == BlackHeight(n.right) == h;
    assert RedBlack(f) && BlackHeight(f) == h;
  }

  /** The sibling takes the parent's colour and place, the parent and the far son turn black: the missing
      black node is made up for. */
  function Settled<T>(x: Tree<T>, q: Place<T>): Tree<T>
    requires !q.Top? && q.sibling.Node?
  {
    var w := q.sibling;
    if q.Left? then Node(q.colour, Node(Black, x, q.entry, w.left), w.entry, Blacken(w.right))
    else Node(q.colour, Blacken(w.left), w.entry, Node(Black, w.right, q.entry, x))
  }

  lemma SettledWhole<T>(x: Tree<T>, q: Place<T>)
    requires !q.Top? && q.sibling.Node?
    ensures Whole(Settled(x, q), q.up) == Whole(x, q)
  {
    var w := q.sibling;
    WholeParent(x, q);
    if q.Left? {
      Regroup(Entries(x), [q.entry], Entries(w.left), [w.entry], Entries(w.right));
    } else {
      Regroup(Entries(w.left), [w.entry], Entries(w.right), [q.entry], Entries(x));
    }
    assert Entries(Settled(x, q)) == Entries(Parent(x, q));
  }

  lemma SettledInPlace<T>(x: Tree<T>, q: Place<T>)
    requires RedBlack(x) && !q.Top? && Fits(q, BlackHeight(x) + 1) && !IsRed(q.sibling)
    requires q.sibling.Node? && IsRed(Far(q))
    ensures InPlace(Settled(x, q), q.up)
  {
    var w, f := q.sibling, Blacken(Far(q));
    assert RedBlack(w.left) && RedBlack(w.right);
    assert RedBlack(Far(q));
    assert BlackHeight(w.left) == BlackHeight(w.right) == BlackHeight(x);
    assert RedBlack(f) && BlackHeight(f) == BlackHeight(x) + 1;
    var n := if q.Left? then Node(Black, x, q.entry, w.left) else Node(Black, w.right, q.entry, x);
    assert RedBlack(n) && BlackHeight(n) == BlackHeight(x) + 1;
  }

  lemma SiblingNode<T>(h: nat, q: Place<T>)
    requires !q.Top? && Fits(q, h + 1)
    ensures q.sibling.Node? && RedBlack(q.sibling)
    ensures Depth(q) == Depth(q.up) + 1
  {
  }

  lemma AtTop<T>(t: Tree<T>)
    requires RedBlack(t)
    ensures Nearly(t) && Fits<T>(Top, BlackHeight(t) + 1) && Whole(t, Top) == Entries(t)
  {
  }

  /** One turn of `rb_delete_fixup` at a black sibling. */
  method FixupStep<T>(x: Tree<T>, q: Place<T>) returns (x': Tree<T>, q': Place<T>)
    requires RedBlack(x) && !q.Top? && Fits(q, BlackHeight(x) + 1) && !IsRed(q.sibling)
    ensures Nearly(x') && Fits(q', BlackHeight(x') + 1) && Whole(x', q') == Whole(x, q)
    ensures q'.Top? || (q' == q.up && (IsRed(x') <==> ParentRed(q)))
  {
    hide Whole, Fits, RedBlack, Settled, Turned, Merged;
    SiblingNode(BlackHeight(x), q);
    if !IsRed(q.sibling.left) && !IsRed(q.sibling.right) {
      MergedWhole(x, q);
      MergedFits(x, q);
      x', q' := Merged(x, q), q.up;
    } else {
      var r := q;
      if !IsRed(Far(q)) {
        TurnedWhole(x, q);
        TurnedFits(BlackHeight(x), q);
        r := Turned(q);
        SiblingNode(BlackHeight(x), r);
      }
      SettledWhole(x, r);
      SettledInPlace(x, r);
      x', q' := Root(Settled(x, r), r.up), Top;
      WholeRoot(Settled(x, r), r.up);
      RootInPlace(Settled(x, r), r.up);
      AtTop(x');
    }
  }

  lemma NearlyRedBlack<T>(t: Tree<T>)
    ensures RedBlack(t) ==> Nearly(t)
    ensures Nearly(t) && !IsRed(t) ==> RedBlack(t)
  {
  }

  lemma BlackenedInPlace<T>(x: Tree<T>, q: Place<T>)
    requires Nearly(x) && Fits(q, BlackHeight(x) + 1) && (q.Top? || IsRed(x))
    ensures InPlace(Blacken(x), q) && Whole(Blacken(x), q) == Whole(x, q)
  {
  }

  /** `rb_delete_fixup`: the paths through `x` lack one black node. */
  method DeleteFixup<T>(x0: Tree<T>, q0: Place<T>) returns (root: Tree<T>)
    requires RedBlack(x0) && Fits(q0, BlackHeight(x0) + 1)
    ensures RedBlack(root) && !IsRed(root) && Entries(root) == Whole(x0, q0)
  {
    hide Whole, Fits, RedBlack, Lowered;
    var x, q := x0, q0;
    NearlyRedBlack(x);
    while !q.Top? && !IsRed(x)
      invariant Nearly(x) && Fits(q, BlackHeight(x) + 1) && Whole(x, q) == Whole(x0, q0)
      decreases if IsRed(x) then 0 else Depth(q) + 1
    {
      NearlyRedBlack(x);
      SiblingNode(BlackHeight(x), q);
      var r := q;
      if IsRed(q.sibling) {
        LoweredWhole(x, q);
        LoweredFits(BlackHeight(x), q);
        r := Lowered(q);
      }
      x, q := FixupStep(x, r);
    }
    root := Root(Blacken(x), q);
    BlackenedInPlace(x, q);
    WholeRoot(Blacken(x), q);
    RootInPlace(Blacken(x), q);
  }

  /** Taking a node with one son at most out of the tree: its colour decides what is missing. */
  lemma LoseNode<T>(y: Tree<T>, q: Place<T>, x: Tree<T>)
    requires y.Node? && InPlace(y, q) && (x == y.left || x == y.right)
    ensures RedBlack(x)
    ensures if y.colour == Black then Fits(q, BlackHeight(x) + 1) else InPlace(x, q)
  {
  }

  method LinkOrFix<T>(colour: Colour, x: Tree<T>, q: Place<T>) returns (root: Tree<T>)
    requires RedBlack(x) && if colour == Black then Fits(q, BlackHeight(x) + 1) else InPlace(x, q)
    ensures RedBlack(root) && !IsRed(root) && Entries(root) == Whole(x, q)
  {
    if colour == Black {
      root := DeleteFixup(x, q);
    } else {
      root := Root(x, q);
      WholeRoot(x, q);
      RootInPlace(x, q);
    }
  }

  lemma LeafEntries<T>(y: Tree<T>)
    requires y.Node? && y.left.Nil?
    ensures Entries(y) == [y.entry] + Entries(y.right)
  {
    assert [] + [y.entry] == [y.entry];
  }

  /** `tree_minimum`, with the way back up. */
  method Minimum<T>(t: Tree<T>, p: Place<T>) returns (y: Tree<T>, q: Place<T>)
    requires t.Node? && InPlace(t, p)
    ensures y.Node? && y.left.Nil? && InPlace(y, q)
    ensures Whole(y, q) == Whole(t, p) && Before(q) == Before(p)
  {
    hide Whole, InPlace;
    y, q := t, p;
    while y.left.Node?
      invariant y.Node? && InPlace(y, q) && Whole(y, q) == Whole(t, p) && Before(q) == Before(p)
      decreases y
    {
      GoDown(y, q);
      y, q := y.left, LeftOf(y, q);
    }
  }

  lemma CancelPrefix<X>(a: seq<X>, b: seq<X>, c: seq<X>, b': seq<X>, c': seq<X>)
    requires a + b + c == a + b' + c'
    ensures b + c == b' + c'
  {
    assert b + c == (a + b + c)[|a|..] && b' + c' == (a + b' + c')[|a|..];
  }

  lemma Join<X>(a: seq<X>, b: seq<X>, c: seq<X>, d: seq<X>)
    ensures (a + b) + (c + d) == a + (b + c) + d == ((a + b) + c) + d
  {
  }

  lemma SuccessorLeaves<T>(z: Tree<T>, p: Place<T>, y: Tree<T>, q: Place<T>)
    requires z.Node? && y.Node? && y.left.Nil?
    requires Before(q) == Before(p) + Entries(z.left) + [y.entry]
    requires Whole(y, q) == Whole(z.right, Right(z.colour, y.entry, z.left, p))
    ensures Whole(y.right, q) == Before(p) + (Entries(z.left) + Entries(z.right)) + After(p)
  {
    LeafEntries(y);
    CancelPrefix(Before(q), Entries(y), After(q), Entries(z.right), After(p));
    var kept := Before(p) + Entries(z.left);
    Join(kept, [y.entry], Entries(y.right), After(q));
    Join(Before(p), Entries(z.left), Entries(z.right), After(p));
    assert Whole(y.right, q) == kept + ([y.entry] + Entries(y.right)) + After(q);
    Join(kept, [], Entries(y), After(q));
    assert kept + [] == kept;
  }

  /** The entry of the leftmost node comes first. */
  lemma LeftmostFirst<T>(t: Tree<T>, p: Place<T>, y: Tree<T>, q: Place<T>)
    requires t.Node? && y.Node? && y.left.Nil? && Whole(y, q) == Whole(t, p) && Before(q) == Before(p)
    ensures Entries(t) != [] && y.entry == Entries(t)[0]
  {
    LeafEntries(y);
    assert Whole(y, q)[|Before(q)|] == y.entry;
    assert Whole(t, p)[|Before(p)|] == Entries(t)[0];
  }

  /** A node with two sons: its successor `y` leaves its own place and takes over that of `z`. */
  method RemoveInner<T>(z: Tree<T>, p: Place<T>) returns (root: Tree<T>)
    requires z.Node? && z.left.Node? && z.right.Node? && InPlace(z, p)
    ensures RedBlack(root) && !IsRed(root)
    ensures Entries(root) == Before(p) + (Entries(z.left) + Entries(z.right)) + After(p)
  {
    GoDown(z, p);
    var y, q := Minimum(z.right, RightOf(z, p));
    LeftmostFirst(z.right, RightOf(z, p), y, q);
    var place := Right(z.colour, y.entry, z.left, p);
    assert InPlace(z.right, place);
    hide InPlace, Whole, RedBlack, Fits;
    y, q := Minimum(z.right, place);
    LeftmostFirst(z.right, place, y, q);
    SuccessorLeaves(z, p, y, q);
    LoseNode(y, q, y.right);
    root := LinkOrFix(y.colour, y.right, q);
  }

  /** `rb_delete`: exactly the entry of `z` goes. */
  method Remove<T>(z: Tree<T>, p: Place<T>) returns (root: Tree<T>)
    requires z.Node? && InPlace(z, p)
    ensures RedBlack(root) && !IsRed(root)
    ensures Entries(root) == Before(p) + (Entries(z.left) + Entries(z.right)) + After(p)
  {
    if z.left.Nil? {
      LoseNode(z, p, z.right);
      root := LinkOrFix(z.colour, z.right, p);
      assert Entries(z.left) + Entries(z.right) == Entries(z.right);
    } else if z.right.Nil? {
      LoseNode(z, p, z.left);
      root := LinkOrFix(z.colour, z.left, p);
      assert Entries(z.left) + Entries(z.right) == Entries(z.left);
    } else {
      root := RemoveInner(z, p);
    }
  }

  // ---------------------------------------------------------------------------------------------
  // Height

  function Height<T>(t: Tree<T>): nat {
    if t.Nil? then 0
    else 1 + if Height(t.left) > Height(t.right) then Height(t.left) else Height(t.right)
  }

  function Pow2(n: nat): nat {
    if n == 0 then 1 else 2 * Pow2(n - 1)
  }

  /** No path is longer than twice the binary logarithm of the number of entries plus one. */
  lemma {:induction false} HeightBound<T>(t: Tree<T>)
    requires RedBlack(t)
    ensures Height(t) <= 2 * BlackHeight(t) + if IsRed(t) then 1 else 0
    ensures Pow2(BlackHeight(t)) <= |Entries(t)| + 1
  {
    if t.Node? {
      HeightBound(t.left);
      HeightBound(t.right);
    }
  }

  // ---------------------------------------------------------------------------------------------
  // The tree

  /** `s` with `e` put after every entry whose key is not greater. */
  ghost predicate InsertedInOrder<T>(s: seq<Entry<T>>, e: Entry<T>, s': seq<Entry<T>>) {
    exists i :: 0 <= i <= |s| && AtMost(s[..i], e.key) && Above(s[i..], e.key) && s' == s[..i] + [e] + s[i..]
  }

  /** `s` without one entry, `e`. */
  ghost predicate RemovedOne<T>(s: seq<Entry<T>>, e: Entry<T>, s': seq<Entry<T>>) {
    exists i :: 0 <= i < |s| && s[i] == e && s' == s[..i] + s[i + 1..]
  }

  lemma InsertBetween<T>(l: seq<Entry<T>>, e: Entry<T>, r: seq<Entry<T>>)
    requires Sorted(l + r) && AtMost(l, e.key) && Above(r, e.key)
    ensures InsertedInOrder(l + r, e, l + [e] + r) && Sorted(l + [e] + r)
  {
    var s, s' := l + r, l + [e] + r;
    assert s[..|l|] == l && s[|l|..] == r;
    forall i, j | 0 <= i < j < |s'| ensures s'[i].key <= s'[j].key {
      assert i < |l| ==> s'[i] == s[i] == l[i];
      assert i > |l| ==> s'[i] == s[i - 1];
      assert j < |l| ==> s'[j] == s[j];
      assert j > |l| ==> s'[j] == s[j - 1] == r[j - 1 - |l|];
    }
  }

  lemma RemoveBetween<T>(l: seq<Entry<T>>, e: Entry<T>, r: seq<Entry<T>>)
    requires Sorted(l + [e] + r)
    ensures RemovedOne(l + [e] + r, e, l + r) && Sorted(l + r)
  {
    var s, s' := l + [e] + r, l + r;
    assert s[|l|] == e && s[..|l|] == l && s[|l| + 1..] == r;
    forall i, j | 0 <= i < j < |s'| ensures s'[i].key <= s'[j].key {
      assert s'[i] == s[if i < |l| then i else i + 1];
      assert s'[j] == s[if j < |l| then j else j + 1];
    }
  }

  lemma AroundNode<T>(z: Tree<T>, p: Place<T>)
    requires z.Node?
    ensures var l, r := Before(p) + Entries(z.left), Entries(z.right) + After(p);
            && Whole(z, p) == l + [z.entry] + r
            && Before(p) + (Entries(z.left) + Entries(z.right)) + After(p) == l + r
  {
    Regroup(Before(p), Entries(z.left), [z.entry], Entries(z.right), After(p));
    Join(Before(p) + Entries(z.left), [z.entry], Entries(z.right), After(p));
    Join(Before(p), Entries(z.left), Entries(z.right), After(p));
    Join(Before(p) + Entries(z.left) + [z.entry], [], Entries(z.right), After(p));
  }

  /** `x` at `p` is a node of the tree with the key, and outside its subtree, above it in particular, the key
      does not occur. */
  ghost predicate Highest<T>(root: Tree<T>, x: Tree<T>, p: Place<T>, key: nat) {
    Root(x, p) == root && x.Node? && x.entry.key == key && Below(Before(p), key) && Above(After(p), key)
  }

  class RbTree<T> {
    var root: Tree<T>

    ghost predicate Valid()
      reads this
    {
      RedBlack(root) && !IsRed(root) && Sorted(Entries(root))
    }

    constructor ()
      ensures Valid() && Entries(root) == []
    {
      root := Nil;
    }

    lemma AtRoot()
      requires Valid()
      ensures InPlace(root, Top) && Whole(root, Top) == Entries(root)
    {
    }

    /** `rb_search`, with the way back up. */
    method Search(key: nat) returns (x: Tree<T>, p: Place<T>)
      requires Valid()
      ensures Root(x, p) == root && InPlace(x, p) && Whole(x, p) == Entries(root)
      ensures x.Node? ==> x.entry.key == key
      ensures Below(Before(p), key) && Above(After(p), key)
    {
      hide RedBlack, Fits, Whole, InPlace, Sorted;
      x, p := root, Top;
      AtRoot();
      while x.Node? && key != x.entry.key
        invariant Root(x, p) == root && InPlace(x, p) && Whole(x, p) == Entries(root)
        invariant Below(Before(p), key) && Above(After(p), key)
        decreases x
      {
        GoDown(x, p);
        Divides(x, p);
        if key < x.entry.key {
          x, p := x.left, LeftOf(x, p);
        } else {
          x, p := x.right, RightOf(x, p);
        }
      }
    }

    /** `rb_search_key`: the highest entry with the key, if there is one. */
    method SearchKey(key: nat) returns (data: Option<T>)
      requires Valid()
      ensures data.Some? ==> exists x, p :: Highest(root, x, p, key) && x.entry.data == data.value
      ensures data.Some? ==> Entry(key, data.value) in Entries(root)
      ensures data.None? ==> forall e :: e in Entries(root) ==> e.key != key
    {
      var x, p := Search(key);
      assert x.Node? ==> Highest(root, x, p, key);
      data := if x.Node? then Some(x.entry.data) else None;
    }

    lemma NewLeaf(z: Tree<T>, p: Place<T>)
      requires z.Node? && z.colour == Red && z.left.Nil? && z.right.Nil? && InPlace<T>(Nil, p)
      ensures RedBlack(z) && Fits(p, BlackHeight(z))
      ensures Whole(z, p) == Before(p) + [z.entry] + After(p) && Whole<T>(Nil, p) == Before(p) + After(p)
    {
      LeafEntries(z);
    }

    /** `rb_insert_key_data`: the new entry goes after all those with keys not greater. */
    method InsertKeyData(key: nat, data: T)
      requires Valid()
      modifies this
      ensures Valid() && InsertedInOrder(old(Entries(root)), Entry(key, data), Entries(root))
    {
      hide RedBlack, Fits, Whole, InPlace, Sorted, InsertedInOrder;
      var x, p := root, Top;
      AtRoot();
      while x.Node?
        invariant InPlace(x, p) && Whole(x, p) == old(Entries(root))
        invariant AtMost(Before(p), key) && Above(After(p), key)
        decreases x
      {
        GoDown(x, p);
        Divides(x, p);
        if key < x.entry.key {
          x, p := x.left, LeftOf(x, p);
        } else {
          x, p := x.right, RightOf(x, p);
        }
      }
      var z := Node(Red, Nil, Entry(key, data), Nil);
      NewLeaf(z, p);
      InsertBetween(Before(p), z.entry, After(p));
      root := InsertFixup(z, p);
    }

    /** `rb_delete_key`: the highest entry with the key goes and its data is handed out, or there is none. */
    method DeleteKey(key: nat) returns (data: Option<T>)
      requires Valid()
      modifies this
      ensures Valid()
      ensures data.Some? ==> RemovedOne(old(Entries(root)), Entry(key, data.value), Entries(root))
      ensures data.Some? ==>
                exists x, p :: Highest(old(root), x, p, key) && x.entry.data == data.value &&
                  Entries(root) == Before(p) + (Entries(x.left) + Entries(x.right)) + After(p)
      ensures data.None? ==> root == old(root) && forall e :: e in Entries(root) ==> e.key != key
    {
      var z, p := Search(key);
      if z.Nil? {
        return None;
      }
      data := Some(z.entry.data);
      assert Highest(root, z, p, key);
      hide RedBlack, InPlace, Sorted, RemovedOne;
      ghost var l, r := Before(p) + Entries(z.left), Entries(z.right) + After(p);
      AroundNode(z, p);
      RemoveBetween(l, z.entry, r);
      root := Remove(z, p);
    }

    /** `tree_minimum_key`: 0 and nothing for an empty tree, else the first entry. */
    method MinimumKey() returns (key: nat, data: Option<T>)
      requires Valid()
      ensures Entries(root) == [] ==> key == 0 && data.None?
      ensures Entries(root) != [] ==> data.Some? && Entry(key, data.value) == Entries(root)[0]
    {
      if root.Nil? {
        return 0, None;
      }
      AtRoot();
      var y, q := Minimum(root, Top);
      LeftmostFirst(root, Top, y, q);
      key, data := y.entry.key, Some(y.entry.data);
    }
  }
}
