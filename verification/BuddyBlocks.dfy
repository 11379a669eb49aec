/** The buddy allocator as a step machine.

Memory is an array of units of the smallest block size. A block of order `k` is `2^k` units that start at a
multiple of that, so a block is known by its order and its number, the unit index shifted right by the order.
Each event is one critical section of `Alloc` or `Free`; a run is any interleaving of the critical sections of
any number of threads. A block that is in no free list is held: by the caller it was given to, or by the call
that is splitting or merging it.
*/
module BuddyBlocks {

  const MAX_ORDER: nat := 9

  datatype Block = Block(number: nat, order: nat)

  // ---------------------------------------------------------------------------------------------
  // Blocks inside blocks

  function Shr(n: nat, k: nat): nat {
    if k == 0 then n else Shr(n, k - 1) / 2
  }

  function Shl(n: nat, k: nat): nat
    decreases k
  {
    if k == 0 then n else Shl(2 * n, k - 1)
  }

  function Size(k: nat): (size: nat)
    ensures size > 0
  {
    if k == 0 then 1 else 2 * Size(k - 1)
  }

  /** `b` lies in `c`. */
  predicate Under(b: Block, c: Block) {
    b.order <= c.order && Shr(b.number, c.order - b.order) == c.number
  }

  function Lower(b: Block): Block
    requires b.order > 0
  {
    Block(2 * b.number, b.order - 1)
  }

  function Upper(b: Block): Block
    requires b.order > 0
  {
    Block(2 * b.number + 1, b.order - 1)
  }

  /** What a block and its buddy make together. */
  function Whole(b: Block): Block {
    Block(b.number / 2, b.order + 1)
  }

  function Buddy(b: Block): Block {
    Block(if b.number % 2 == 0 then b.number + 1 else b.number - 1, b.order)
  }

  lemma {:induction false} ShrAdd(n: nat, j: nat, k: nat)
    ensures Shr(Shr(n, j), k) == Shr(n, j + k)
    decreases k
  {
    if k > 0 {
      ShrAdd(n, j, k - 1);
    }
  }

  lemma UnderTrans(a: Block, b: Block, c: Block)
    requires Under(a, b) && Under(b, c)
    ensures Under(a, c)
  {
    ShrAdd(a.number, b.order - a.order, c.order - b.order);
  }

  /** Two blocks with a part in common lie one in the other. */
  lemma Nested(a: Block, b: Block, c: Block)
    requires Under(a, b) && Under(a, c)
    ensures Under(b, c) || Under(c, b)
  {
    if b.order <= c.order {
      ShrAdd(a.number, b.order - a.order, c.order - b.order);
    } else {
      ShrAdd(a.number, c.order - a.order, b.order - c.order);
    }
  }

  lemma UnderWhole(b: Block)
    ensures Under(b, Whole(b))
  {
    assert Shr(b.number, 1) == Shr(b.number, 0) / 2;
  }

  /** What lies in a block, and is not the block itself, lies in one of its halves. */
  lemma UnderHalf(b: Block, c: Block)
    requires Under(b, c) && b != c
    ensures c.order > 0 && (Under(b, Lower(c)) || Under(b, Upper(c)))
  {
  }

  /** What a block properly lies in, its whole lies in. */
  lemma WholeUnder(b: Block, c: Block)
    requires Under(b, c) && b != c
    ensures Under(Whole(b), c)
  {
    ShrAdd(b.number, 1, c.order - b.order - 1);
    assert Shr(b.number, 1) == Shr(b.number, 0) / 2;
  }

  lemma {:induction false} ShrShl(n: nat, k: nat)
    ensures Shr(Shl(n, k), k) == n
    decreases k
  {
    if k > 0 {
      ShrShl(2 * n, k - 1);
    }
  }

  lemma {:induction false} ShlNext(n: nat, k: nat)
    ensures Shl(n + 1, k) == Shl(n, k) + Size(k)
    decreases k
  {
    if k > 0 {
      ShlNext(2 * n, k - 1);
      ShlNext(2 * n + 1, k - 1);
    }
  }

  lemma {:induction false} ShlGrows(n: nat, k: nat)
    ensures n <= Shl(n, k)
    decreases k
  {
    if k > 0 {
      ShlGrows(2 * n, k - 1);
    }
  }

  lemma {:induction false} ShrBelow(u: nat, k: nat, n: nat)
    requires u < Shl(n, k)
    ensures Shr(u, k) < n
    decreases k
  {
    if k > 0 {
      ShrBelow(u, k - 1, 2 * n);
    }
  }

  lemma {:induction false} ShrAbove(u: nat, k: nat, n: nat)
    requires u >= Shl(n, k)
    ensures Shr(u, k) >= n
    decreases k
  {
    if k > 0 {
      ShrAbove(u, k - 1, 2 * n);
    }
  }

  function Start(b: Block): nat {
    Shl(b.number, b.order)
  }

  /** Of two blocks with the same first unit, one lies in the other. */
  lemma SameStart(b: Block, c: Block)
    requires Start(b) == Start(c)
    ensures Under(b, c) || Under(c, b)
  {
    ShrShl(b.number, b.order);
    ShrShl(c.number, c.order);
    if b.order <= c.order {
      ShrAdd(Start(b), b.order, c.order - b.order);
    } else {
      ShrAdd(Start(b), c.order, b.order - c.order);
    }
  }

  /** The block ends at or before unit `units`. */
  predicate Inside(b: Block, units: nat) {
    Shl(b.number + 1, b.order) <= units
  }

  function Unit(u: nat): Block {
    Block(u, 0)
  }

  /** The unit is one of the block's. */
  predicate Contains(b: Block, u: nat) {
    Start(b) <= u < Start(b) + Size(b.order)
  }

  lemma UnitUnder(u: nat, b: Block)
    ensures Under(Unit(u), b) <==> Contains(b, u)
  {
    ShlNext(b.number, b.order);
    if u < Start(b) {
      ShrBelow(u, b.order, b.number);
    } else if u < Shl(b.number + 1, b.order) {
      ShrBelow(u, b.order, b.number + 1);
      ShrAbove(u, b.order, b.number);
    } else {
      ShrAbove(u, b.order, b.number + 1);
    }
  }

  // ---------------------------------------------------------------------------------------------
  // The memory

  /** `free` has one list for each order, `bits` one bit for each order and pair of buddies. */
  datatype Mem = Mem(units: nat, free: seq<seq<nat>>, bits: seq<seq<bool>>, held: set<Block>)

  predicate Shaped(m: Mem) {
    && |m.free| == MAX_ORDER + 1 && |m.bits| == MAX_ORDER + 1
    && forall k :: 0 <= k <= MAX_ORDER ==> m.units <= 2 * |m.bits[k]|
  }

  predicate InBitmap(m: Mem, b: Block) {
    b.order < |m.bits| && b.number / 2 < |m.bits[b.order]|
  }

  predicate IsFree(m: Mem, b: Block) {
    b.order < |m.free| && b.number in m.free[b.order]
  }

  predicate IsPart(m: Mem, b: Block) {
    b in m.held || IsFree(m, b)
  }

  predicate NoDuplicates(s: seq<nat>) {
    forall i, j :: 0 <= i < j < |s| ==> s[i] != s[j]
  }

  ghost predicate Covered(m: Mem, u: nat) {
    exists c :: IsPart(m, c) && Under(Unit(u), c)
  }

  /** Every unit belongs to exactly one block. */
  ghost predicate Tiled(m: Mem) {
    && (forall b :: IsPart(m, b) ==> b.order <= MAX_ORDER && Inside(b, m.units))
    && (forall b, c :: IsPart(m, b) && IsPart(m, c) && Under(b, c) ==> b == c)
    && (forall u: nat :: u < m.units ==> Covered(m, u))
  }

  /** No block is in a list twice, or both listed and held. */
  ghost predicate ListsOk(m: Mem) {
    && (forall k :: 0 <= k < |m.free| ==> NoDuplicates(m.free[k]))
    && (forall b :: b in m.held ==> !IsFree(m, b))
  }

  /** A pair's bit says whether exactly one of the two is in the free list. */
  ghost predicate BitsOk(m: Mem) {
    forall b {:trigger Buddy(b)} :: InBitmap(m, b) ==> (m.bits[b.order][b.number / 2] <==> IsFree(m, b) != IsFree(m, Buddy(b)))
  }

  /** No two buddies are both free, except where there is nothing to merge them into. */
  ghost predicate Coalesced(m: Mem) {
    forall b: Block {:trigger Buddy(b)} :: b.order < MAX_ORDER && IsFree(m, b) ==> !IsFree(m, Buddy(b))
  }

  ghost predicate Inv(m: Mem) {
    Shaped(m) && Tiled(m) && ListsOk(m) && BitsOk(m) && Coalesced(m)
  }

  // ---------------------------------------------------------------------------------------------
  // Steps

  datatype Event =
    | Take(order: nat)  // the first block of a list leaves it
    | Split(b: Block)   // the upper half goes to the list below
    | Merge(b: Block)   // the buddy leaves its list and joins
    | Put(b: Block)     // the block goes to its list

  function Flip(bits: seq<seq<bool>>, b: Block): seq<seq<bool>>
    requires b.order < |bits| && b.number / 2 < |bits[b.order]|
  {
    bits[b.order := bits[b.order][b.number / 2 := !bits[b.order][b.number / 2]]]
  }

  function Add(free: seq<seq<nat>>, b: Block): seq<seq<nat>>
    requires b.order < |free|
  {
    free[b.order := [b.number] + free[b.order]]
  }

  /** The list without the first occurrence of `n`, or as it was. */
  function Without(s: seq<nat>, n: nat): seq<nat> {
    if s == [] then [] else if s[0] == n then s[1..] else [s[0]] + Without(s[1..], n)
  }

  predicate Possible(m: Mem, e: Event)
    requires Shaped(m)
  {
    match e
    case Take(k) => k <= MAX_ORDER && m.free[k] != [] && InBitmap(m, Block(m.free[k][0], k))
    case Split(b) => b in m.held && 0 < b.order <= MAX_ORDER && InBitmap(m, Upper(b))
    case Merge(b) =>
      b in m.held && b.order < MAX_ORDER && InBitmap(m, b) && m.bits[b.order][b.number / 2]
    case Put(b) =>
      && b in m.held && b.order <= MAX_ORDER && InBitmap(m, b)
      && (b.order < MAX_ORDER ==> !m.bits[b.order][b.number / 2])
  }

  function Step(m: Mem, e: Event): (m': Mem)
    requires Shaped(m) && Possible(m, e)
    ensures Shaped(m') && m'.units == m.units
  {
    match e
    case Take(k) =>
      var b := Block(m.free[k][0], k);
      m.(free := m.free[k := m.free[k][1..]], bits := Flip(m.bits, b), held := m.held + {b})
    case Split(b) =>
      m.(free := Add(m.free, Upper(b)), bits := Flip(m.bits, Upper(b)), held := m.held - {b} + {Lower(b)})
    case Merge(b) =>
      m.(free := m.free[b.order := Without(m.free[b.order], Buddy(b).number)], bits := Flip(m.bits, b),
         held := m.held - {b} + {Whole(b)})
    case Put(b) =>
      m.(free := Add(m.free, b), bits := Flip(m.bits, b), held := m.held - {b})
  }

  /** The bitmap has a bit for every block, and for the halves of every block. */
  lemma BitmapSuffices(m: Mem, b: Block)
    requires Shaped(m) && b.order <= MAX_ORDER && Inside(b, m.units)
    ensures InBitmap(m, b)
    ensures b.order > 0 ==> InBitmap(m, Upper(b))
  {
    ShlGrows(b.number + 1, b.order);
    if b.order > 0 {
      ShlGrows(2 * b.number + 2, b.order - 1);
    }
  }

  // ---------------------------------------------------------------------------------------------
  // What every step keeps

  ghost predicate Gains(m: Mem, m': Mem, b: Block) {
    && !IsFree(m, b) && InBitmap(m, b) && m'.bits == Flip(m.bits, b)
    && (forall c :: IsFree(m', c) <==> IsFree(m, c) || c == b)
  }

  ghost predicate Loses(m: Mem, m': Mem, b: Block) {
    && IsFree(m, b) && InBitmap(m, b) && m'.bits == Flip(m.bits, b)
    && (forall c :: IsFree(m', c) <==> IsFree(m, c) && c != b)
  }

  lemma SamePair(b: Block, c: Block)
    ensures Buddy(b).number / 2 == b.number / 2 && Buddy(Buddy(b)) == b != Buddy(b)
    ensures c.order == b.order && c.number / 2 == b.number / 2 <==> c == b || c == Buddy(b)
  {
  }

  lemma FlipAt(bits: seq<seq<bool>>, b: Block, c: Block)
    requires b.order < |bits| && b.number / 2 < |bits[b.order]|
    requires c.order < |bits| && c.number / 2 < |bits[c.order]|
    ensures |Flip(bits, b)| == |bits| && |Flip(bits, b)[c.order]| == |bits[c.order]|
    ensures Flip(bits, b)[c.order][c.number / 2] == (bits[c.order][c.number / 2] != (c == b || c == Buddy(b)))
  {
    SamePair(b, c);
  }

  lemma ChangeKeepsBits(m: Mem, m': Mem, b: Block)
    requires BitsOk(m) && (Gains(m, m', b) || Loses(m, m', b))
    ensures BitsOk(m')
  {
    forall c | InBitmap(m', c)
      ensures m'.bits[c.order][c.number / 2] <==> IsFree(m', c) != IsFree(m', Buddy(c))
    {
      assert InBitmap(m, c);
      FlipAt(m.bits, b, c);
      SamePair(b, c);
      SamePair(c, b);
      hide Flip, Buddy, IsFree, InBitmap;
    }
  }

  lemma GainKeepsCoalesced(m: Mem, m': Mem, b: Block)
    requires Coalesced(m) && Gains(m, m', b) && (b.order < MAX_ORDER ==> !IsFree(m, Buddy(b)))
    ensures Coalesced(m')
  {
    forall c: Block | c.order < MAX_ORDER && IsFree(m', c) ensures !IsFree(m', Buddy(c)) {
      SamePair(c, b);
      SamePair(b, c);
    }
  }

  lemma AddGains(m: Mem, m': Mem, b: Block)
    requires b.order < |m.free| && !IsFree(m, b) && InBitmap(m, b)
    requires m'.free == Add(m.free, b) && m'.bits == Flip(m.bits, b)
    ensures Gains(m, m', b)
    ensures (forall k :: 0 <= k < |m.free| ==> NoDuplicates(m.free[k])) ==>
              forall k :: 0 <= k < |m'.free| ==> NoDuplicates(m'.free[k])
  {
  }

  lemma {:induction false} WithoutIs(s: seq<nat>, n: nat)
    requires NoDuplicates(s)
    ensures NoDuplicates(Without(s, n)) && forall x :: x in Without(s, n) <==> x in s && x != n
  {
    if s != [] {
      var rest := s[1..];
      assert s == [s[0]] + rest;
      assert s[0] !in rest && NoDuplicates(rest) by {
        assert forall i :: 0 <= i < |rest| ==> rest[i] == s[i + 1];
      }
      WithoutIs(rest, n);
    }
  }

  /** The blocks are the same, whoever has them. */
  lemma SameParts(m: Mem, m': Mem)
    requires Tiled(m) && m'.units == m.units && forall c :: IsPart(m', c) <==> IsPart(m, c)
    ensures Tiled(m')
  {
    forall u: nat | u < m.units ensures Covered(m', u) {
      assert Covered(m, u);
    }
  }

  lemma HalvesInside(b: Block, units: nat)
    requires b.order > 0
    ensures Inside(b, units) ==> Inside(Lower(b), units) && Inside(Upper(b), units)
    ensures Inside(Upper(b), units) ==> Inside(b, units)
  {
    ShlNext(2 * b.number + 1, b.order - 1);
  }

  /** Under both orders of magnitude, halves are comparable to what their whole is comparable to. */
  lemma HalfMeets(half: Block, c: Block)
    requires half != c && (Under(half, c) || Under(c, half))
    ensures Under(Whole(half), c) || Under(c, Whole(half))
  {
    if Under(half, c) {
      WholeUnder(half, c);
    } else {
      UnderWhole(half);
      UnderTrans(c, half, Whole(half));
    }
  }

  /** One block has given way to its halves. */
  lemma SplitTiles(m: Mem, m': Mem, b: Block)
    requires Tiled(m) && m'.units == m.units && b.order > 0 && IsPart(m, b)
    requires forall c :: IsPart(m', c) <==> (IsPart(m, c) && c != b) || c == Lower(b) || c == Upper(b)
    ensures Tiled(m')
  {
    hide IsPart, Inside;
    HalvesInside(b, m.units);
    forall c, d | IsPart(m', c) && IsPart(m', d) && Under(c, d) ensures c == d {
      if c != d {
        if Whole(c) == b { HalfMeets(c, d); }
        if Whole(d) == b { HalfMeets(d, c); }
      }
    }
    forall u: nat | u < m.units ensures Covered(m', u) {
      assert Covered(m, u);
      var c :| IsPart(m, c) && Under(Unit(u), c);
      if c == b { UnderHalf(Unit(u), b); }
    }
  }

  /** A block and its buddy have become one. */
  lemma MergeTiles(m: Mem, m': Mem, b: Block)
    requires Tiled(m) && m'.units == m.units && b.order < MAX_ORDER && IsPart(m, b) && IsPart(m, Buddy(b))
    requires forall c :: IsPart(m', c) <==> (IsPart(m, c) && c != b && c != Buddy(b)) || c == Whole(b)
    ensures Tiled(m')
  {
    hide IsPart, Inside, Shr;
    var whole := Whole(b);
    assert (Lower(whole) == b && Upper(whole) == Buddy(b)) || (Lower(whole) == Buddy(b) && Upper(whole) == b);
    HalvesInside(whole, m.units);
    UnderWhole(b);
    UnderWhole(Buddy(b));
    forall c, d | IsPart(m', c) && IsPart(m', d) && Under(c, d) ensures c == d {
      if c != d {
        if c == whole {
          UnderTrans(b, c, d);
        } else if d == whole {
          UnderHalf(c, d);
        }
      }
    }
    forall u: nat | u < m.units ensures Covered(m', u) {
      assert Covered(m, u);
      var c :| IsPart(m, c) && Under(Unit(u), c);
      if c == b || c == Buddy(b) { UnderTrans(Unit(u), c, whole); }
    }
  }

  lemma TakeKeeps(m: Mem, k: nat)
    requires Inv(m) && Possible(m, Take(k))
    ensures Inv(Step(m, Take(k)))
  {
    var m', b := Step(m, Take(k)), Block(m.free[k][0], k);
    assert m.free[k] == [b.number] + m'.free[k];
    assert Loses(m, m', b);
    ChangeKeepsBits(m, m', b);
    SameParts(m, m');
  }

  lemma PutKeeps(m: Mem, b: Block)
    requires Inv(m) && Possible(m, Put(b))
    ensures Inv(Step(m, Put(b)))
  {
    var m' := Step(m, Put(b));
    AddGains(m, m', b);
    ChangeKeepsBits(m, m', b);
    SameParts(m, m');
  }

  lemma HalvesAreNew(m: Mem, b: Block)
    requires Tiled(m) && IsPart(m, b) && b.order > 0
    ensures !IsPart(m, Lower(b)) && !IsPart(m, Upper(b))
  {
    UnderWhole(Lower(b));
    UnderWhole(Upper(b));
  }

  lemma SplitKeeps(m: Mem, b: Block)
    requires Inv(m) && Possible(m, Split(b))
    ensures Inv(Step(m, Split(b)))
  {
    hide Tiled, BitsOk, Coalesced, Flip, InBitmap;
    var m' := Step(m, Split(b));
    HalvesAreNew(m, b);
    AddGains(m, m', Upper(b));
    ChangeKeepsBits(m, m', Upper(b));
    GainKeepsCoalesced(m, m', Upper(b));
    SplitTiles(m, m', b);
  }

  /** `del_block` always finds the buddy in its list. */
  lemma MergeFindsBuddy(m: Mem, b: Block)
    requires Inv(m) && Possible(m, Merge(b))
    ensures IsFree(m, Buddy(b))
  {
  }

  lemma MergeLoses(m: Mem, b: Block)
    requires Inv(m) && Possible(m, Merge(b))
    ensures Loses(m, Step(m, Merge(b)), Buddy(b))
    ensures forall k :: 0 <= k < |m.free| ==> NoDuplicates(Step(m, Merge(b)).free[k])
  {
    MergeFindsBuddy(m, b);
    WithoutIs(m.free[b.order], Buddy(b).number);
    SamePair(b, b);
    assert Flip(m.bits, b) == Flip(m.bits, Buddy(b));
  }

  lemma WholeIsNew(m: Mem, b: Block)
    requires Tiled(m) && IsPart(m, b)
    ensures !IsPart(m, Whole(b))
  {
    UnderWhole(b);
  }

  lemma MergeKeeps(m: Mem, b: Block)
    requires Inv(m) && Possible(m, Merge(b))
    ensures Inv(Step(m, Merge(b)))
  {
    hide Tiled, BitsOk, Flip, InBitmap, NoDuplicates;
    var m' := Step(m, Merge(b));
    MergeLoses(m, b);
    ChangeKeepsBits(m, m', Buddy(b));
    WholeIsNew(m, b);
    MergeTiles(m, m', b);
  }

  lemma StepKeepsInv(m: Mem, e: Event)
    requires Inv(m) && Possible(m, e)
    ensures Inv(Step(m, e))
  {
    match e
    case Take(k) => TakeKeeps(m, k);
    case Split(b) => SplitKeeps(m, b);
    case Merge(b) => MergeKeeps(m, b);
    case Put(b) => PutKeeps(m, b);
  }

  // ---------------------------------------------------------------------------------------------
  // Runs

  ghost predicate Feasible(m: Mem, es: seq<Event>)
    requires Shaped(m)
    decreases |es|
  {
    es == [] || (Possible(m, es[0]) && Feasible(Step(m, es[0]), es[1..]))
  }

  ghost function Run(m: Mem, es: seq<Event>): (m': Mem)
    requires Shaped(m) && Feasible(m, es)
    ensures Shaped(m') && m'.units == m.units
    decreases |es|
  {
    if es == [] then m else Run(Step(m, es[0]), es[1..])
  }

  /** Whatever calls overlap: every unit stays in exactly one block, the bitmap stays true to the lists, and
      no two buddies stay unmerged. */
  lemma {:induction false} RunKeepsInv(m: Mem, es: seq<Event>)
    requires Inv(m) && Feasible(m, es)
    ensures Inv(Run(m, es))
    decreases |es|
  {
    if es != [] {
      StepKeepsInv(m, es[0]);
      RunKeepsInv(Step(m, es[0]), es[1..]);
    }
  }

  /** Whatever calls overlap, every unit belongs to exactly one block, free or held. */
  lemma EachUnitOnce(m: Mem, es: seq<Event>, u: nat)
    requires Inv(m) && Feasible(m, es) && u < m.units
    ensures exists b :: IsPart(Run(m, es), b) && Contains(b, u)
    ensures forall b, c :: IsPart(Run(m, es), b) && IsPart(Run(m, es), c) && Contains(b, u) && Contains(c, u) ==> b == c
  {
    RunKeepsInv(m, es);
    var m' := Run(m, es);
    assert Covered(m', u);
    var d :| IsPart(m', d) && Under(Unit(u), d);
    UnitUnder(u, d);
    forall b, c | IsPart(m', b) && IsPart(m', c) && Contains(b, u) && Contains(c, u) ensures b == c {
      UnitUnder(u, b);
      UnitUnder(u, c);
      Nested(Unit(u), b, c);
    }
  }

  /** No held block and `b` have a unit in common. */
  ghost predicate Unheld(m: Mem, b: Block) {
    forall h :: h in m.held ==> !Under(h, b) && !Under(b, h)
  }

  lemma HalvesUnheld(m: Mem, b: Block, half: Block)
    requires b.order > 0 && Inside(b, m.units) && Unheld(m, b) && (half == Lower(b) || half == Upper(b))
    ensures Inside(half, m.units) && Unheld(m, half)
  {
    HalvesInside(b, m.units);
    UnderWhole(half);
    assert Whole(half) == b;
    forall h | h in m.held ensures !Under(h, half) && !Under(half, h) {
      if h != half && (Under(h, half) || Under(half, h)) {
        HalfMeets(half, h);
      }
    }
  }

  lemma UnitIsFree(m: Mem, b: Block) returns (c: Block)
    requires Tiled(m) && b.order == 0 && Inside(b, m.units) && Unheld(m, b)
    ensures IsFree(m, c) && Under(b, c)
  {
    assert Covered(m, b.number) && Unit(b.number) == b;
    c :| IsPart(m, c) && Under(b, c);
  }

  lemma {:induction false} UnheldIsFree(m: Mem, b: Block) returns (c: Block)
    requires Tiled(m) && Coalesced(m) && b.order <= MAX_ORDER && Inside(b, m.units) && Unheld(m, b)
    ensures IsFree(m, c) && Under(b, c)
    decreases b.order
  {
    hide Tiled, Unheld, Inside, Shr;
    if b.order == 0 {
      c := UnitIsFree(m, b);
    } else {
      HalvesUnheld(m, b, Lower(b));
      HalvesUnheld(m, b, Upper(b));
      c := UnheldIsFree(m, Lower(b));
      if c != Lower(b) {
        WholeUnder(Lower(b), c);
      } else {
        c := UnheldIsFree(m, Upper(b));
        assert Buddy(Lower(b)) == Upper(b);
        WholeUnder(Upper(b), c);
      }
    }
  }

  /** Coalescing is complete: an aligned stretch of memory, up to the largest block size, lies inside one
      free block exactly when nobody holds any of it. */
  lemma FreeExactly(m: Mem, b: Block)
    requires Inv(m) && b.order <= MAX_ORDER && Inside(b, m.units)
    ensures Unheld(m, b) <==> exists c :: IsFree(m, c) && Under(b, c)
  {
    if Unheld(m, b) {
      var c := UnheldIsFree(m, b);
    } else if c :| IsFree(m, c) && Under(b, c) {
      var h :| h in m.held && (Under(h, b) || Under(b, h));
      if Under(h, b) {
        UnderTrans(h, b, c);
      } else {
        Nested(b, c, h);
      }
    }
  }

  lemma FreeIsUnheld(m: Mem, b: Block)
    requires Inv(m) && IsFree(m, b)
    ensures Unheld(m, b)
  {
  }

  lemma FreeInBoth(m: Mem, m': Mem, b: Block)
    requires Inv(m) && Inv(m') && m.units == m'.units && m.held == m'.held && IsFree(m, b)
    ensures IsFree(m', b)
  {
    FreeIsUnheld(m, b);
    assert Unheld(m', b);
    var c := UnheldIsFree(m', b);
    FreeIsUnheld(m', c);
    assert Unheld(m, c);
    var d := UnheldIsFree(m, c);
    UnderTrans(b, c, d);
    assert b == d;
  }

  /** What is free depends only on what is held, not on the order in which it was split and merged. */
  lemma FreeDetermined(m: Mem, m': Mem)
    requires Inv(m) && Inv(m') && m.units == m'.units && m.held == m'.held
    ensures forall b :: IsFree(m, b) <==> IsFree(m', b)
  {
    forall b ensures IsFree(m, b) <==> IsFree(m', b) {
      if IsFree(m, b) { FreeInBoth(m, m', b); }
      if IsFree(m', b) { FreeInBoth(m', m, b); }
    }
  }

  /** Once everything that was handed out has come back, in whatever order and interleaving, the same blocks
      are free as before. */
  lemma AllComesBack(m: Mem, es: seq<Event>)
    requires Inv(m) && Feasible(m, es) && Run(m, es).held == m.held
    ensures forall b :: IsFree(Run(m, es), b) <==> IsFree(m, b)
  {
    RunKeepsInv(m, es);
    FreeDetermined(Run(m, es), m);
  }

  // ---------------------------------------------------------------------------------------------
  // Growing the memory, as it is set up

  lemma BeforeNotUnder(c: Block, b: Block)
    requires Inside(c, Start(b))
    ensures !Under(c, b) && !Under(b, c)
  {
    ShlNext(c.number, c.order);
    ShrShl(c.number, c.order);
    ShrShl(b.number, b.order);
    ShrBelow(Start(c), b.order, b.number);
    ShrAbove(Start(b), c.order, c.number + 1);
    if Under(c, b) {
      ShrAdd(Start(c), c.order, b.order - c.order);
    } else if Under(b, c) {
      ShrAdd(Start(b), b.order, c.order - b.order);
    }
  }

  ghost predicate Grows(m: Mem, m': Mem, b: Block)
    requires Shaped(m)
  {
    && m.units == Start(b) && m'.units == Shl(b.number + 1, b.order)
    && b.order <= MAX_ORDER && InBitmap(m, b) && m'.held == m.held
    && m'.free == Add(m.free, b) && m'.bits == Flip(m.bits, b)
  }

  lemma UnderSelf(b: Block)
    ensures Under(b, b)
  {
  }

  lemma GrowTiles(m: Mem, m': Mem, b: Block)
    requires Shaped(m) && Tiled(m) && Grows(m, m', b)
    ensures Tiled(m') && !IsPart(m, b)
  {
    hide Under, Shr, Shl;
    ShlNext(b.number, b.order);
    assert forall c :: IsPart(m', c) <==> IsPart(m, c) || c == b;
    forall c | IsPart(m, c) ensures !Under(c, b) && !Under(b, c) && Inside(c, m'.units) {
      BeforeNotUnder(c, b);
    }
    UnderSelf(b);
    forall u: nat | u < m'.units ensures Covered(m', u) {
      if u < m.units {
        assert Covered(m, u);
        var c :| IsPart(m, c) && Under(Unit(u), c);
        assert IsPart(m', c);
      } else {
        UnitUnder(u, b);
      }
    }
  }

  /** One more block at the end of the memory. */
  lemma GrowKeepsInv(m: Mem, m': Mem, b: Block)
    requires Inv(m) && Shaped(m') && Grows(m, m', b) && (b.order < MAX_ORDER ==> !IsFree(m, Buddy(b)))
    ensures Inv(m')
  {
    hide Tiled, BitsOk, Coalesced;
    GrowTiles(m, m', b);
    AddGains(m, m', b);
    ChangeKeepsBits(m, m', b);
    GainKeepsCoalesced(m, m', b);
  }

  // ---------------------------------------------------------------------------------------------
  // What one call undoes

  /** The splits that lead from `b` down to its first block of order `k`. */
  function Splits(b: Block, k: nat): seq<Event>
    requires k <= b.order
    decreases b.order
  {
    if b.order == k then [] else [Split(b)] + Splits(Lower(b), k)
  }

  function FirstOf(b: Block, k: nat): Block
    requires k <= b.order
    decreases b.order
  {
    if b.order == k then b else FirstOf(Lower(b), k)
  }

  /** The events of freeing `b`: merges with one buddy after another, until the whole is put into a list. */
  predicate FreesBlock(es: seq<Event>, b: Block)
    decreases |es|
  {
    es == [Put(b)] || (es != [] && es[0] == Merge(b) && FreesBlock(es[1..], Whole(b)))
  }

  /** The merges that lead from `b` up to `c`. */
  predicate MergesUp(es: seq<Event>, b: Block, c: Block)
    decreases |es|
  {
    if es == [] then b == c else es[0] == Merge(b) && MergesUp(es[1..], Whole(b), c)
  }

  lemma {:induction false} MergesOn(es: seq<Event>, b: Block, c: Block)
    requires MergesUp(es, b, c)
    ensures MergesUp(es + [Merge(c)], b, Whole(c)) && FreesBlock(es + [Put(c)], b)
    decreases |es|
  {
    if es == [] {
      assert (es + [Merge(c)])[1..] == [];
    } else {
      MergesOn(es[1..], Whole(b), c);
      assert (es + [Merge(c)])[1..] == es[1..] + [Merge(c)];
      assert (es + [Put(c)])[1..] == es[1..] + [Put(c)];
    }
  }

  lemma {:induction false} FirstOfStart(b: Block, k: nat)
    requires k <= b.order
    ensures FirstOf(b, k).order == k && Start(FirstOf(b, k)) == Start(b)
    decreases b.order
  {
    if b.order > k {
      FirstOfStart(Lower(b), k);
    }
  }

  lemma FlipTwice(bits: seq<seq<bool>>, b: Block, c: Block)
    requires b.order == c.order && b.number / 2 == c.number / 2
    requires b.order < |bits| && b.number / 2 < |bits[b.order]|
    ensures |Flip(bits, b)| == |bits| && |Flip(bits, b)[c.order]| == |bits[c.order]|
    ensures Flip(Flip(bits, b), c) == bits
  {
    var k, j, row := b.order, b.number / 2, bits[b.order];
    assert row[j := !row[j]][j := row[j]] == row;
    assert bits[k := row[j := !row[j]]][k := row] == bits;
  }

  /** A block that is taken and put back is first in its list again. */
  lemma PutUndoesTake(m: Mem, k: nat)
    requires Inv(m) && Possible(m, Take(k))
    ensures var b, m' := Block(m.free[k][0], k), Step(m, Take(k));
            b in m'.held && Possible(m', Put(b)) && !Possible(m', Merge(b)) && Step(m', Put(b)) == m
  {
    var b, m' := Block(m.free[k][0], k), Step(m, Take(k));
    assert m.free[k] == [b.number] + m'.free[k] && IsFree(m, b) && IsPart(m, b);
    FlipTwice(m.bits, b, b);
    SamePair(b, b);
    assert m'.held - {b} == m.held;
    assert Add(m'.free, b) == m.free;
    assert !m'.bits[k][b.number / 2] || k == MAX_ORDER by {
      assert m.bits[k][b.number / 2] <==> IsFree(m, b) != IsFree(m, Buddy(b));
    }
  }

  /** And a block put into its list is the next to be taken from it. */
  lemma TakeUndoesPut(m: Mem, b: Block)
    requires Inv(m) && Possible(m, Put(b))
    ensures Possible(Step(m, Put(b)), Take(b.order)) && Step(Step(m, Put(b)), Take(b.order)) == m
  {
    var m' := Step(m, Put(b));
    assert m'.free[b.order][0] == b.number && m'.free[b.order][1..] == m.free[b.order];
    FlipTwice(m.bits, b, b);
    assert m'.free[b.order := m.free[b.order]] == m.free;
  }

  /** The halves of a block just split can only be merged again. */
  lemma MergeUndoesSplit(m: Mem, b: Block)
    requires Inv(m) && Possible(m, Split(b))
    ensures var m' := Step(m, Split(b));
            && !Possible(m', Put(Lower(b))) && Possible(m', Merge(Lower(b))) && Step(m', Merge(Lower(b))) == m
  {
    var m' := Step(m, Split(b));
    HalvesAreNew(m, b);
    StepKeepsInv(m, Split(b));
    assert Buddy(Lower(b)) == Upper(b) && IsFree(m', Upper(b)) && !IsFree(m', Lower(b));
    FlipTwice(m.bits, Upper(b), Lower(b));
    assert m'.held - {Lower(b)} + {b} == m.held;
    assert m'.free[b.order - 1][1..] == m.free[b.order - 1];
    assert m'.free[b.order - 1 := m.free[b.order - 1]] == m.free;
  }

  /** What comes after the splits of `b` and frees its first part begins with merging `b` together again. */
  lemma {:induction false} UndoSplits(m: Mem, b: Block, k: nat, es: seq<Event>) returns (rest: seq<Event>)
    requires Inv(m) && k <= b.order && Feasible(m, Splits(b, k)) && FreesBlock(es, FirstOf(b, k))
    requires Feasible(Run(m, Splits(b, k)), es)
    ensures FreesBlock(rest, b) && Feasible(m, rest) && Run(m, rest) == Run(Run(m, Splits(b, k)), es)
    decreases b.order
  {
    if b.order == k {
      rest := es;
    } else {
      var m' := Step(m, Split(b));
      StepKeepsInv(m, Split(b));
      assert Splits(b, k)[1..] == Splits(Lower(b), k);
      var tail := UndoSplits(m', Lower(b), k, es);
      MergeUndoesSplit(m, b);
      assert Whole(Lower(b)) == b;
      rest := tail[1..];
    }
  }

  /** Freeing the block just allocated puts everything back: the lists in their order, the bitmaps, and what
      is held. */
  lemma FreeUndoesAlloc(m: Mem, j: nat, k: nat, es: seq<Event>)
    requires Inv(m) && k <= j && Possible(m, Take(j))
    requires Feasible(Step(m, Take(j)), Splits(Block(m.free[j][0], j), k))
    requires FreesBlock(es, FirstOf(Block(m.free[j][0], j), k))
    requires Feasible(Run(Step(m, Take(j)), Splits(Block(m.free[j][0], j), k)), es)
    ensures Run(Run(Step(m, Take(j)), Splits(Block(m.free[j][0], j), k)), es) == m
  {
    var b, m' := Block(m.free[j][0], j), Step(m, Take(j));
    StepKeepsInv(m, Take(j));
    var rest := UndoSplits(m', b, k, es);
    PutUndoesTake(m, j);
    assert rest == [Put(b)];
    assert rest[1..] == [] && Run(m', rest) == Step(m', Put(b));
  }
}
