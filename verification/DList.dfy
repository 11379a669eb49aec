/** The intrusive doubly linked list `TDList`: nodes carry their own links, the list holds both ends and a
    32-bit count. `nodes` is the list's abstract value, front to back. */
module DLists {

  /** Unsigned 32-bit arithmetic. */
  function U32(n: int): nat {
    n % 0x1_0000_0000
  }

  predicate IsS32(n: int) {
    -0x8000_0000 <= n < 0x8000_0000
  }

  /** `compare_index_to_zero`: stop at zero, else count down (on two's complement). */
  function CompareIndexToZero(val: int): (bool, int) {
    if val == 0 then (true, val)
    else if val == -0x8000_0000 then (false, 0x7fff_ffff)
    else (false, val - 1)
  }

  lemma U32Of(n: int)
    requires IsS32(n)
    ensures U32(n) == if n < 0 then n + 0x1_0000_0000 else n
  {
  }

  lemma CountsDown(val: int)
    requires IsS32(val)
    ensures var r := CompareIndexToZero(val);
            && r.0 == (val == 0) == (U32(val) == 0) && IsS32(r.1)
            && U32(r.1) == if r.0 then 0 else U32(val) - 1
  {
  }

  lemma U32Step(n: int)
    ensures U32(U32(n) + 1) == U32(n + 1) && U32(U32(n) - 1) == U32(n - 1)
  {
  }

  class Node<T> {
    var element: T
    var next: Node?<T>
    var prev: Node?<T>
    var deleted: bool  // given back to the allocator

    constructor (element: T)
      ensures this.element == element && next == null && prev == null && !deleted
    {
      this.element, next, prev, deleted := element, null, null, false;
    }

    /** Links are followed only out of nodes that have not been deleted. */
    function Next(): Node?<T>
      requires !deleted
      reads this
    {
      next
    }

    function Prev(): Node?<T>
      requires !deleted
      reads this
    {
      prev
    }
  }

  /** What a walk's callback does with the node it is given. */
  datatype Action = Keep | Unlink | Delete

  /** Of the first `n` elements of `s`, those whose call keeps them, in order. */
  function Kept<X>(s: seq<X>, n: nat, actions: nat -> Action): seq<X>
    requires n <= |s|
  {
    if n == 0 then []
    else Kept(s, n - 1, actions) + if actions(n - 1).Keep? then [s[n - 1]] else []
  }

  /** The first `n` calls are none of the marked ones. */
  ghost predicate Unmarked(marked: nat -> bool, n: nat) {
    forall i :: 0 <= i < n ==> !marked(i)
  }

  lemma NoneMarkedYet(marked: nat -> bool)
    ensures Unmarked(marked, 0)
  {
  }

  lemma UnmarkedOn(marked: nat -> bool, n: nat)
    requires Unmarked(marked, n) && !marked(n)
    ensures Unmarked(marked, n + 1)
  {
  }

  lemma {:induction false} KeptNone<X>(s: seq<X>, n: nat, actions: nat -> Action)
    requires n <= |s| && forall i: nat :: !actions(i).Keep?
    ensures Kept(s, n, actions) == []
  {
    if n > 0 {
      KeptNone(s, n - 1, actions);
    }
  }

  /** `t` reads `s` from its end. */
  ghost predicate Backwards<X>(t: seq<X>, s: seq<X>) {
    |t| <= |s| && forall i :: 0 <= i < |t| ==> t[i] == s[|s| - 1 - i]
  }

  ghost predicate Distinct<X>(s: seq<X>) {
    forall i, j :: 0 <= i < j < |s| ==> s[i] != s[j]
  }

  /** `Kept` holds exactly the elements kept. */
  lemma {:induction false} KeptExactly<X>(s: seq<X>, n: nat, actions: nat -> Action, x: X)
    requires n <= |s|
    ensures x in Kept(s, n, actions) <==> exists i :: 0 <= i < n && s[i] == x && actions(i).Keep?
  {
    if n > 0 {
      KeptExactly(s, n - 1, actions, x);
    }
  }

  /** `s` without its element at `k`. */
  function Cut<X>(s: seq<X>, k: nat): (t: seq<X>)
    requires k < |s|
    ensures |t| == |s| - 1
  {
    s[..k] + s[k + 1..]
  }

  lemma DistinctLast<X>(s: seq<X>, x: X, repr: set<X>)
    requires Distinct(s) && x !in repr && forall i :: 0 <= i < |s| ==> s[i] in repr
    ensures Distinct(s + [x]) && forall i :: 0 <= i < |s| + 1 ==> (s + [x])[i] in repr + {x}
  {
  }

  lemma DistinctFirst<X>(s: seq<X>, x: X, repr: set<X>)
    requires Distinct(s) && x !in repr && forall i :: 0 <= i < |s| ==> s[i] in repr
    ensures Distinct([x] + s) && forall i :: 0 <= i < |s| + 1 ==> ([x] + s)[i] in repr + {x}
  {
  }

  lemma CutOut<X>(s: seq<X>, k: nat, repr: set<X>)
    requires k < |s| && Distinct(s) && forall i :: 0 <= i < |s| ==> s[i] in repr
    ensures Distinct(Cut(s, k)) && forall i :: 0 <= i < |s| - 1 ==> Cut(s, k)[i] in repr - {s[k]}
  {
  }

  lemma WholeSlice<X>(s: seq<X>)
    ensures s[..|s|] == s
  {
  }

  lemma OneMore<X>(s: seq<X>, i: nat)
    requires i < |s|
    ensures s[..i + 1] == s[..i] + [s[i]]
  {
  }

  /** What a turn at `s[i]` does to the list. */
  lemma KeptStep<X>(s: seq<X>, i: nat, actions: nat -> Action)
    requires i < |s|
    ensures var k, t := |Kept(s, i, actions)|, Kept(s, i, actions) + s[i..];
            && k < |t| && t[k] == s[i]
            && Kept(s, i + 1, actions) + s[i + 1..] == if actions(i).Keep? then t else Cut(t, k)
  {
  }

  class DList<T> {
    var head: Node?<T>
    var tail: Node?<T>
    var count: nat
    ghost var nodes: seq<Node<T>>
    ghost var repr: set<Node<T>>

    static ghost function At(s: seq<Node<T>>, i: int): Node?<T> {
      if 0 <= i < |s| then s[i] else null
    }

    ghost predicate Linked(i: nat)
      requires i < |nodes|
      reads this, nodes
    {
      nodes[i].next == At(nodes, i + 1) && nodes[i].prev == At(nodes, i - 1)
    }

    /** The full link invariant: distinct nodes, both ends right, next and prev mutually inverse. */
    ghost predicate Valid()
      reads this, nodes
    {
      && Distinct(nodes) && (forall i :: 0 <= i < |nodes| ==> nodes[i] in repr && !nodes[i].deleted)
      && head == At(nodes, 0) && tail == At(nodes, |nodes| - 1)
      && count == U32(|nodes|)
      && (forall i :: 0 <= i < |nodes| ==> Linked(i))
    }

    constructor ()
      ensures Valid() && nodes == [] && repr == {}
    {
      head, tail, count, nodes, repr := null, null, 0, [], {};
    }

    /** The checks `validate_links` makes at each node it passes. */
    ghost predicate LinksAgree(node: Node<T>)
      reads this, node, node.prev, node.next
    {
      && (head == node || (node.prev != null && node.prev.next == node))
      && (tail == node || (node.next != null && node.next.prev == node))
      && (node.next == null ==> tail == node)
      && (node.prev == null ==> head == node)
    }

    lemma LinksAgreeAt(i: nat)
      requires Valid() && i < |nodes|
      ensures LinksAgree(nodes[i]) && Linked(i)
    {
      assert Linked(i) && (i > 0 ==> Linked(i - 1)) && (i + 1 < |nodes| ==> Linked(i + 1));
    }

    method WalkForward() returns (seen: seq<Node<T>>)
      requires Valid()
      ensures seen == nodes && forall n :: n in seen ==> LinksAgree(n)
    {
      seen := [];
      var cur := head;
      ghost var i := 0;
      while cur != null
        invariant i <= |nodes| && cur == At(nodes, i) && seen == nodes[..i]
        invariant forall n :: n in seen ==> LinksAgree(n)
        decreases |nodes| - i
      {
        var node: Node<T> := cur;
        LinksAgreeAt(i);
        OneMore(nodes, i);
        seen := seen + [node];
        cur := node.Next();
        i := i + 1;
      }
    }

    method WalkBackward() returns (seen: seq<Node<T>>)
      requires Valid()
      ensures Backwards(seen, nodes) && |seen| == |nodes| && forall n :: n in seen ==> LinksAgree(n)
    {
      seen := [];
      var cur := tail;
      ghost var i := |nodes|;
      while cur != null
        invariant 0 <= i <= |nodes| && cur == At(nodes, i - 1) && |seen| == |nodes| - i && Backwards(seen, nodes)
        invariant forall n :: n in seen ==> LinksAgree(n)
        decreases i
      {
        var node: Node<T> := cur;
        LinksAgreeAt(i - 1);
        seen := seen + [node];
        cur := node.Prev();
        i := i - 1;
      }
    }

    /** `validate_links`: its assertions hold at the ends and at every node both walks pass; the backward
        walk is the forward walk reversed. */
    method ValidateLinks() returns (forward: seq<Node<T>>, backward: seq<Node<T>>)
      requires Valid()
      ensures head == null <==> tail == null
      ensures head != null ==> head.prev == null && tail.next == null
      ensures forward == nodes && |backward| == |forward| && Backwards(backward, forward)
      ensures forall n :: n in forward ==> LinksAgree(n)
    {
      assert head != null ==> Linked(0) && Linked(|nodes| - 1);
      forward := WalkForward();
      backward := WalkBackward();
    }

    /** `nodes[i]` is linked as it will be in the list with `first` before it and `last` after it. */
    ghost predicate LinkedBetween(first: Node?<T>, last: Node?<T>, i: nat)
      requires i < |nodes|
      reads this, nodes
    {
      && nodes[i].next == (if i + 1 < |nodes| then nodes[i + 1] else last)
      && nodes[i].prev == (if i > 0 then nodes[i - 1] else first)
    }

    /** The pointer surgery of an append: `node` comes after the last. */
    method LinkLast(node: Node<T>)
      requires Valid() && node !in repr && !node.deleted
      modifies this`head, this`tail, node`next, node`prev, repr`next, repr`prev
      ensures head == (if nodes == [] then node else nodes[0]) && tail == node
      ensures node.next == null && node.prev == At(nodes, |nodes| - 1)
      ensures forall i :: 0 <= i < |nodes| ==> LinkedBetween(null, node, i)
    {
      if tail != null {
        tail.next := node;
      }
      node.prev := tail;
      node.next := null;
      tail := node;
      if head == null {
        head := node;
      }
      forall i | 0 <= i < |nodes| ensures LinkedBetween(null, node, i) {
        assert old(Linked(i));
      }
    }

    method AddNodeToTail(node: Node<T>)
      requires Valid() && node !in repr && !node.deleted
      modifies this, node`next, node`prev, repr`next, repr`prev
      ensures Valid() && nodes == old(nodes) + [node] && repr == old(repr) + {node}
    {
      hide Distinct, U32;
      LinkLast(node);
      U32Step(|nodes|);
      label linked:
      DistinctLast(nodes, node, repr);
      count := U32(count + 1);
      nodes, repr := nodes + [node], repr + {node};
      forall i | 0 <= i < |nodes| ensures Linked(i) {
        assert i < |nodes| - 1 ==> old@linked(LinkedBetween(null, node, i));
      }
    }

    /** The pointer surgery of a prepend: `node` comes before the first. */
    method LinkFirst(node: Node<T>)
      requires Valid() && node !in repr && !node.deleted
      modifies this`head, this`tail, node`next, node`prev, repr`next, repr`prev
      ensures head == node && tail == if nodes == [] then node else nodes[|nodes| - 1]
      ensures node.next == At(nodes, 0) && node.prev == null
      ensures forall i :: 0 <= i < |nodes| ==> LinkedBetween(node, null, i)
    {
      if head != null {
        head.prev := node;
      }
      node.prev := null;
      node.next := head;
      head := node;
      if tail == null {
        tail := node;
      }
      forall i | 0 <= i < |nodes| ensures LinkedBetween(node, null, i) {
        assert old(Linked(i));
      }
    }

    method AddNode(node: Node<T>)
      requires Valid() && node !in repr && !node.deleted
      modifies this, node`next, node`prev, repr`next, repr`prev
      ensures Valid() && nodes == [node] + old(nodes) && repr == old(repr) + {node}
    {
      hide Distinct, U32;
      LinkFirst(node);
      U32Step(|nodes|);
      label linked:
      DistinctFirst(nodes, node, repr);
      count := U32(count + 1);
      nodes, repr := [node] + nodes, repr + {node};
      forall i | 0 <= i < |nodes| ensures Linked(i) {
        assert i > 0 ==> old@linked(LinkedBetween(node, null, i - 1));
      }
    }

    /** With `nodes[k]` passed over, `nodes[i]` and its neighbours are linked. */
    ghost predicate LinkedPast(k: nat, i: nat)
      requires i < |nodes|
      reads this, nodes
    {
      && nodes[i].next == At(nodes, if i + 1 == k then k + 1 else i + 1)
      && nodes[i].prev == At(nodes, if i - 1 == k then k - 1 else i - 1)
    }

    /** The pointer surgery of a removal: the neighbours, or the list's ends, pass over `node`. */
    method PassOver(node: Node<T>, ghost k: nat)
      requires Valid() && k < |nodes| && nodes[k] == node
      modifies this`head, this`tail, repr`next, repr`prev
      ensures head == if k == 0 then At(nodes, 1) else old(head)
      ensures tail == if k == |nodes| - 1 then At(nodes, k - 1) else old(tail)
      ensures forall i :: 0 <= i < |nodes| && i != k ==> LinkedPast(k, i)
      ensures node.next == null && node.prev == null
    {
      assert Linked(k) && (k > 0 ==> Linked(k - 1)) && (k + 1 < |nodes| ==> Linked(k + 1));
      if head == node {
        head := node.Next();
      } else {
        node.Prev().next := node.Next();
      }
      if tail == node {
        tail := node.Prev();
      } else {
        node.Next().prev := node.Prev();
      }
      node.prev := null;
      node.next := null;
      forall i | 0 <= i < |nodes| && i != k ensures LinkedPast(k, i) {
        assert old(Linked(i));
      }
    }

    static lemma CutAt(s: seq<Node<T>>, k: nat, i: nat)
      requires k < |s| && i < |s| - 1
      ensures var j := if i < k then i else i + 1;
              && Cut(s, k)[i] == s[j]
              && At(Cut(s, k), i + 1) == At(s, if j + 1 == k then k + 1 else j + 1)
              && At(Cut(s, k), i - 1) == At(s, if j - 1 == k then k - 1 else j - 1)
    {
    }

    static lemma CutEnds(s: seq<Node<T>>, k: nat)
      requires k < |s|
      ensures At(Cut(s, k), 0) == if k == 0 then At(s, 1) else s[0]
      ensures At(Cut(s, k), |s| - 2) == if k == |s| - 1 then At(s, k - 1) else s[|s| - 1]
    {
    }

    /** Passing over a node has linked the list without it. */
    lemma CutIsLinked(k: nat)
      requires k < |nodes| && forall i :: 0 <= i < |nodes| ==> !nodes[i].deleted
      requires forall i :: 0 <= i < |nodes| && i != k ==> LinkedPast(k, i)
      ensures var t := Cut(nodes, k);
              forall i :: 0 <= i < |t| ==>
                t[i].next == At(t, i + 1) && t[i].prev == At(t, i - 1) && !t[i].deleted
    {
      hide Cut, At;
      var t := Cut(nodes, k);
      forall i | 0 <= i < |t| ensures t[i].next == At(t, i + 1) && t[i].prev == At(t, i - 1) && !t[i].deleted {
        CutAt(nodes, k, i);
        assert LinkedPast(k, if i < k then i else i + 1);
      }
    }

    /** Unlinks exactly this node; its own links are cleared. */
    method RemoveNode(node: Node<T>, ghost k: nat)
      requires Valid() && k < |nodes| && nodes[k] == node
      modifies this, repr`next, repr`prev
      ensures Valid() && nodes == Cut(old(nodes), k)
      ensures repr == old(repr) - {node} && node.next == null && node.prev == null
    {
      hide Distinct, Cut, U32;
      PassOver(node, k);
      U32Step(|nodes|);
      CutOut(nodes, k, repr);
      CutEnds(nodes, k);
      CutIsLinked(k);
      count := U32(count - 1);
      nodes, repr := Cut(nodes, k), repr - {node};
      assert forall i :: 0 <= i < |nodes| ==> Linked(i);
    }

    /** The list after `n` turns over `all`: what the callback spared, then what it has not seen. */
    ghost predicate Walked(all: seq<Node<T>>, n: nat, actions: nat -> Action)
      reads this
    {
      n <= |all| && nodes == Kept(all, n, actions) + all[n..]
    }

    /** Of the first `n` nodes of `all`, just those are deleted whose call said so; no other is. */
    ghost predicate DeletedBy(all: seq<Node<T>>, n: nat, actions: nat -> Action)
      reads all
    {
      forall i :: 0 <= i < |all| ==> (all[i].deleted <==> i < n && actions(i).Delete?)
    }

    lemma WalkStarts(actions: nat -> Action)
      requires Valid()
      ensures head == At(nodes, 0) && Walked(nodes, 0, actions) && Distinct(nodes) && DeletedBy(nodes, 0, actions)
      ensures forall i :: 0 <= i < |nodes| ==> nodes[i] in repr
    {
    }

    lemma WalkedAll(all: seq<Node<T>>, actions: nat -> Action)
      requires Walked(all, |all|, actions)
      ensures nodes == Kept(all, |all|, actions)
    {
    }

    /** The callback: `do_clear_list` is the one that always deletes. */
    method Act(node: Node<T>, action: Action, ghost k: nat)
      requires Valid() && k < |nodes| && nodes[k] == node
      modifies this, repr`next, repr`prev, node`deleted
      ensures Valid() && nodes == (if action.Keep? then old(nodes) else Cut(old(nodes), k)) && repr <= old(repr)
      ensures node.deleted <==> action.Delete?
    {
      if !action.Keep? {
        RemoveNode(node, k);
        if action.Delete? {
          node.deleted := true;
        }
      }
    }

    /** One turn of the walks: the next node is read before the callback, which may unlink or delete this
        one. */
    method Turn(node: Node<T>, i: nat, actions: nat -> Action, ghost all: seq<Node<T>>) returns (next: Node?<T>)
      requires Valid() && Distinct(all) && Walked(all, i, actions) && i < |all| && node == all[i]
      requires DeletedBy(all, i, actions)
      modifies this, repr`next, repr`prev, node`deleted
      ensures Valid() && Walked(all, i + 1, actions) && repr <= old(repr) && DeletedBy(all, i + 1, actions)
      ensures next == At(all, i + 1)
    {
      ghost var k := |Kept(all, i, actions)|;
      KeptStep(all, i, actions);
      assert nodes[k] == node && Linked(k);
      assert i + 1 < |all| ==> nodes[k + 1] == all[i + 1];
      next := node.Next();
      hide Valid;
      Act(node, actions(i), k);
    }

    /** Visits every node of the initial list once, in order, for any callback that may unlink or delete the
        node it is given; what stays is what it kept, and what is deleted is what it deleted. */
    method ForEach(actions: nat -> Action) returns (visited: seq<Node<T>>)
      requires Valid()
      modifies this, repr`next, repr`prev, repr`deleted
      ensures Valid() && visited == old(nodes) && repr <= old(repr)
      ensures nodes == Kept(old(nodes), |old(nodes)|, actions)
      ensures DeletedBy(visited, |visited|, actions)
    {
      hide Valid, Walked, DeletedBy, Distinct;
      WalkStarts(actions);
      ghost var all := nodes;
      visited := [];
      var cur, i := head, 0;
      while cur != null
        invariant i <= |all| && cur == At(all, i) && visited == all[..i]
        invariant Valid() && Walked(all, i, actions) && repr <= old(repr) && DeletedBy(all, i, actions)
        decreases |all| - i
      {
        var node: Node<T> := cur;
        OneMore(all, i);
        visited := visited + [node];
        cur := Turn(node, i, actions, all);
        i := i + 1;
      }
      WholeSlice(all);
      assert i == |all|;
      WalkedAll(all, actions);
    }

    /** As `ForEach`, up to and including the first call that asks to stop, whose node is returned. */
    method ForEachUntil(stop: nat -> bool, actions: nat -> Action) returns (node: Node?<T>, k: nat)
      requires Valid()
      modifies this, repr`next, repr`prev, repr`deleted
      ensures Valid() && k <= |old(nodes)| && node == At(old(nodes), k)
      ensures Unmarked(stop, k)
      ensures k < |old(nodes)| ==> stop(k)
      ensures var seen := if k < |old(nodes)| then k + 1 else k;
              Walked(old(nodes), seen, actions) && DeletedBy(old(nodes), seen, actions)
    {
      hide Valid, Walked, DeletedBy, Unmarked, Distinct;
      WalkStarts(actions);
      NoneMarkedYet(stop);
      ghost var all := nodes;
      node, k := head, 0;
      while node != null
        invariant k <= |all| && node == At(all, k) && Unmarked(stop, k)
        invariant Valid() && Walked(all, k, actions) && repr <= old(repr) && DeletedBy(all, k, actions)
        decreases |all| - k
      {
        var next := Turn(node, k, actions, all);
        if stop(k) {
          return;
        }
        UnmarkedOn(stop, k);
        node, k := next, k + 1;
      }
    }

    /** `for_each` with a callback that deletes every node: each original node is unlinked and deleted, in
        order and once. That no link is followed out of a deleted node is what `Next` and `Prev` require. */
    method ClearList() returns (cleared: seq<Node<T>>)
      requires Valid()
      modifies this, repr`next, repr`prev, repr`deleted
      ensures Valid() && nodes == [] && head == null && tail == null && count == 0
      ensures cleared == old(nodes) && Distinct(cleared) && forall n :: n in cleared ==> n.deleted
    {
      cleared := ForEach(_ => Delete);
      KeptNone(cleared, |cleared|, _ => Delete);
    }

    /** `for_each_until(compare_index_to_zero)`: the node at `index`, a negative one counting as its
        unsigned value, or null past the end; nothing changes. */
    method GetNthNode(index: int) returns (node: Node?<T>)
      requires Valid() && IsS32(index)
      ensures 0 <= index < |nodes| ==> node == nodes[index]
      ensures index >= |nodes| ==> node == null
      ensures index < 0 ==> node == At(nodes, index + 0x1_0000_0000)
    {
      hide U32, Distinct, CompareIndexToZero;
      U32Of(index);
      var val, stopped := index, false;
      node := head;
      ghost var k := 0;
      while node != null && !stopped
        invariant k <= |nodes| && node == At(nodes, k)
        invariant IsS32(val) && U32(val) == U32(index) - k && (stopped ==> U32(val) == 0)
        decreases |nodes| - k, !stopped
      {
        assert Linked(k);
        var next := node.Next();
        CountsDown(val);
        var r := CompareIndexToZero(val);
        stopped, val := r.0, r.1;
        if !stopped {
          node := next;
          k := k + 1;
        }
      }
    }
  }

  // ---------------------------------------------------------------------------------------------
  // Two lists

  /** Take the node at `at` out of one list and put it at an end of the other. */
  datatype Move = Move(fromFirst: bool, at: int, toTail: bool)

  ghost predicate Apart<T>(a: DList<T>, b: DList<T>)
    reads a, b, a.nodes, b.nodes
  {
    a != b && a.Valid() && b.Valid() && a.repr !! b.repr
  }

  lemma CutMultiset<X>(s: seq<X>, k: nat)
    requires k < |s|
    ensures multiset(s) == multiset(Cut(s, k)) + multiset{s[k]}
  {
    assert s == s[..k] + [s[k]] + s[k + 1..];
  }

  method Transfer<T>(a: DList<T>, b: DList<T>, node: Node<T>, ghost k: nat, toTail: bool)
    requires Apart(a, b) && k < |a.nodes| && a.nodes[k] == node
    modifies a, b, a.repr`next, a.repr`prev, b.repr`next, b.repr`prev
    ensures Apart(a, b) && a.repr + b.repr == old(a.repr + b.repr)
    ensures a.nodes == Cut(old(a.nodes), k)
    ensures b.nodes == if toTail then old(b.nodes) + [node] else [node] + old(b.nodes)
  {
    a.RemoveNode(node, k);
    if toTail {
      b.AddNodeToTail(node);
    } else {
      b.AddNode(node);
    }
  }

  /** The index a signed 32-bit `at` counts down from. */
  function Index(at: int): int {
    if at < 0 then at + 0x1_0000_0000 else at
  }

  /** What one move makes of the two lists; past the end there is nothing to move. */
  ghost function Moved<X>(from: seq<X>, to: seq<X>, at: int, toTail: bool): (r: (seq<X>, seq<X>))
    requires IsS32(at)
  {
    var k := Index(at);
    if k >= |from| then (from, to)
    else (Cut(from, k), if toTail then to + [from[k]] else [from[k]] + to)
  }

  ghost function MovedAll<X>(a: seq<X>, b: seq<X>, moves: seq<Move>): (r: (seq<X>, seq<X>))
    requires forall m :: m in moves ==> IsS32(m.at)
    decreases |moves|
  {
    if moves == [] then (a, b)
    else
      var m, r := moves[|moves| - 1], MovedAll(a, b, moves[..|moves| - 1]);
      if m.fromFirst then Moved(r.0, r.1, m.at, m.toTail)
      else var swapped := Moved(r.1, r.0, m.at, m.toTail); (swapped.1, swapped.0)
  }

  lemma MovedPool<X>(from: seq<X>, to: seq<X>, at: int, toTail: bool)
    requires IsS32(at)
    ensures var r := Moved(from, to, at, toTail);
            multiset(r.0) + multiset(r.1) == multiset(from) + multiset(to)
  {
    if Index(at) < |from| {
      CutMultiset(from, Index(at));
    }
  }

  /** However they are moved, no node is lost or repeated. */
  lemma {:induction false} MovedAllPool<X>(a: seq<X>, b: seq<X>, moves: seq<Move>)
    requires forall m :: m in moves ==> IsS32(m.at)
    ensures var r := MovedAll(a, b, moves);
            multiset(r.0) + multiset(r.1) == multiset(a) + multiset(b) && |r.0| + |r.1| == |a| + |b|
    decreases |moves|
  {
    if moves != [] {
      var m, r := moves[|moves| - 1], MovedAll(a, b, moves[..|moves| - 1]);
      MovedAllPool(a, b, moves[..|moves| - 1]);
      if m.fromFirst {
        MovedPool(r.0, r.1, m.at, m.toTail);
      } else {
        MovedPool(r.1, r.0, m.at, m.toTail);
        assert multiset(r.1) + multiset(r.0) == multiset(r.0) + multiset(r.1);
      }
      var all := MovedAll(a, b, moves);
      assert |multiset(all.0) + multiset(all.1)| == |all.0| + |all.1|;
      assert multiset(all.1) + multiset(all.0) == multiset(all.0) + multiset(all.1);
    }
  }

  /** One move. */
  method MoveAt<T>(a: DList<T>, b: DList<T>, at: int, toTail: bool)
    requires Apart(a, b) && IsS32(at)
    modifies a, b, a.repr`next, a.repr`prev, b.repr`next, b.repr`prev
    ensures Apart(a, b) && a.repr + b.repr == old(a.repr + b.repr)
    ensures (a.nodes, b.nodes) == Moved(old(a.nodes), old(b.nodes), at, toTail)
  {
    var node := a.GetNthNode(at);
    if node != null {
      Transfer(a, b, node, Index(at), toTail);
    }
  }

  /** Any number of moves between two lists: each takes the node asked for to the end asked for, both lists
      stay valid and apart, and no node is lost or repeated. */
  method Exchange<T>(a: DList<T>, b: DList<T>, moves: seq<Move>)
    requires Apart(a, b) && forall m :: m in moves ==> IsS32(m.at)
    modifies a, b, a.repr`next, a.repr`prev, b.repr`next, b.repr`prev
    ensures Apart(a, b) && a.repr + b.repr == old(a.repr + b.repr)
    ensures (a.nodes, b.nodes) == MovedAll(old(a.nodes), old(b.nodes), moves)
    ensures multiset(a.nodes) + multiset(b.nodes) == old(multiset(a.nodes) + multiset(b.nodes))
    ensures |a.nodes| + |b.nodes| == old(|a.nodes| + |b.nodes|)
  {
    hide Moved;
    for i := 0 to |moves|
      invariant Apart(a, b) && a.repr + b.repr == old(a.repr + b.repr)
      invariant (a.nodes, b.nodes) == MovedAll(old(a.nodes), old(b.nodes), moves[..i])
    {
      assert moves[i] in moves;
      assert moves[..i + 1][..i] == moves[..i];
      if moves[i].fromFirst {
        MoveAt(a, b, moves[i].at, moves[i].toTail);
      } else {
        assert Apart(b, a);
        MoveAt(b, a, moves[i].at, moves[i].toTail);
      }
    }
    assert moves[..|moves|] == moves;
    MovedAllPool(old(a.nodes), old(b.nodes), moves);
  }
}
