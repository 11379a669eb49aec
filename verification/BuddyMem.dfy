/** `CBuddymem` as the code has it, changing its lists, bitmaps and block headers in place. Each call is proved
    to perform a run of the step machine, so that what is proved there about all interleavings holds of it. */
module BuddyMems {
  import opened Options
  import opened BuddyBlocks

  const MIN_BLOCK_SIZE: nat := 64
  const CACHE_LINE_SIZE: nat := 64
  const HEADER_SIZE: nat := 24  // a block's header, rounded up
  const AREA_SIZE: nat := 56    // a free area without its bitmap

  // ---------------------------------------------------------------------------------------------
  // Which order a request gets

  function U32(x: int): nat {
    x % 0x1_0000_0000
  }

  /** The position of the highest set bit. */
  function BitScan(i: nat): nat
    requires i > 0
  {
    if i == 1 then 0 else 1 + BitScan(i / 2)
  }

  /** The order `Alloc` computes for a request of `len` bytes, in 32-bit arithmetic. */
  function OrderFor(len: nat): nat {
    var i := U32(U32(4 * U32(len + HEADER_SIZE)) - 1) / MIN_BLOCK_SIZE;
    if i > 0 then BitScan(i) else 0
  }

  function Bytes(k: nat): nat {
    MIN_BLOCK_SIZE * Size(k)
  }

  lemma {:induction false} BitScanBounds(i: nat)
    requires i > 0
    ensures Size(BitScan(i)) <= i < 2 * Size(BitScan(i))
  {
    if i > 1 {
      BitScanBounds(i / 2);
    }
  }

  lemma Wraps(n: nat)
    ensures U32(4 * U32(n)) == 4 * (n % 0x4000_0000)
  {
  }

  lemma {:induction false} SizeGrows(j: nat, k: nat)
    requires j <= k
    ensures Size(j) <= Size(k)
    decreases k
  {
    if j < k {
      SizeGrows(j, k - 1);
    }
  }

  lemma LargestSize()
    ensures Size(MAX_ORDER) == 512
  {
    assert Size(4) == 16;
  }

  lemma ScansTooLarge(i: nat)
    requires i >= 1024
    ensures BitScan(i) > MAX_ORDER
  {
    BitScanBounds(i);
    LargestSize();
    if BitScan(i) <= MAX_ORDER { SizeGrows(BitScan(i), MAX_ORDER); }
  }

  lemma ScansLeast(t: nat)
    requires t > 0
    ensures var i := (4 * t - 1) / MIN_BLOCK_SIZE;
            var k := if i > 0 then BitScan(i) else 0;
            2 * t <= Bytes(k) && (k > 0 ==> Bytes(k - 1) < 2 * t)
  {
    var i := (4 * t - 1) / MIN_BLOCK_SIZE;
    if i > 0 { BitScanBounds(i); }
  }

  /** What counts is the length with the header modulo 2^30: the order is the least whose blocks hold that
      twice over, except that 0 gets one that is too large for any block. */
  lemma OrderExactly(len: nat)
    ensures var t, k := (len + HEADER_SIZE) % 0x4000_0000, OrderFor(len);
            if t == 0 then k > MAX_ORDER
            else 2 * t <= Bytes(k) && (k > 0 ==> Bytes(k - 1) < 2 * t)
  {
    hide BitScan;
    var t := (len + HEADER_SIZE) % 0x4000_0000;
    Wraps(len + HEADER_SIZE);
    if t == 0 {
      ScansTooLarge(0xffff_ffff / MIN_BLOCK_SIZE);
    } else {
      ScansLeast(t);
    }
  }

  /** A request that gets an order gets enough room exactly when the arithmetic does not wrap around. */
  lemma RoomExactly(len: nat)
    requires len < 0x1_0000_0000 && OrderFor(len) <= MAX_ORDER
    ensures len + HEADER_SIZE <= Bytes(OrderFor(len)) <==> len + HEADER_SIZE < 0x4000_0000
  {
    if len + HEADER_SIZE < 0x4000_0000 {
      OrderExactly(len);
    } else {
      SizeGrows(OrderFor(len), MAX_ORDER);
      LargestSize();
    }
  }

  /** The input that shows it: a request of 2^30 bytes is given the smallest block. */
  lemma WrappedRequest()
    ensures OrderFor(0x4000_0000) == 0 && Bytes(0) == 64
  {
    assert U32(4 * U32(0x4000_0000 + HEADER_SIZE)) == 96;
  }

  // ---------------------------------------------------------------------------------------------
  // Runs

  /** `es` leads from `m` to `m'`. */
  ghost predicate Leads(m: Mem, es: seq<Event>, m': Mem) {
    Inv(m) && Feasible(m, es) && Run(m, es) == m'
  }

  ghost predicate Takes(m: Mem, e: Event, m': Mem) {
    Shaped(m) && Possible(m, e) && Step(m, e) == m'
  }

  lemma LeadsNowhere(m: Mem)
    requires Inv(m)
    ensures Leads(m, [], m)
  {
  }

  lemma {:induction false} RunOn(m: Mem, es: seq<Event>, e: Event)
    requires Shaped(m) && Feasible(m, es) && Possible(Run(m, es), e)
    ensures Feasible(m, es + [e]) && Run(m, es + [e]) == Step(Run(m, es), e)
    decreases |es|
  {
    if es == [] {
      var rest := (es + [e])[1..];
      assert Feasible(Step(m, e), rest) && Run(Step(m, e), rest) == Step(m, e);
    } else {
      RunOn(Step(m, es[0]), es[1..], e);
      assert (es + [e])[0] == es[0] && (es + [e])[1..] == es[1..] + [e];
    }
  }

  lemma LeadsOn(m: Mem, es: seq<Event>, m1: Mem, e: Event, m2: Mem)
    requires Leads(m, es, m1) && Takes(m1, e, m2)
    ensures Leads(m, es + [e], m2) && Inv(m2)
  {
    RunKeepsInv(m, es);
    RunOn(m, es, e);
    StepKeepsInv(m1, e);
  }

  lemma {:induction false} WithoutAt(s: seq<nat>, i: nat)
    requires i < |s| && s[i] !in s[..i]
    ensures Without(s, s[i]) == s[..i] + s[i + 1..]
  {
    if i > 0 {
      WithoutAt(s[1..], i - 1);
      assert s[1..][..i - 1] == s[1..i] && s[..i] == [s[0]] + s[1..i];
    }
  }

  lemma {:induction false} WithoutNone(s: seq<nat>, n: nat)
    requires n !in s
    ensures Without(s, n) == s
  {
    if s != [] {
      WithoutNone(s[1..], n);
    }
  }

  /** The block with this first unit, at this order. */
  function BlockAt(index: nat, k: nat): Block {
    Block(Shr(index, k), k)
  }

  lemma BlockAtStart(b: Block)
    ensures BlockAt(Start(b), b.order) == b
  {
    ShrShl(b.number, b.order);
  }

  /** Every block handed out says in its header what order it has. */
  ghost predicate HeadersOk(held: set<Block>, header: map<nat, nat>) {
    forall b :: b in held ==> Start(b) in header && header[Start(b)] == b.order
  }

  /** Writing the header of a block leaves those of all other blocks alone. */
  lemma HeadersApart(m: Mem, held: set<Block>, header: map<nat, nat>, b: Block)
    requires Tiled(m) && held <= m.held && IsPart(m, b) && b !in held && HeadersOk(held, header)
    ensures HeadersOk(held, header[Start(b) := b.order])
  {
    forall c | c in held ensures Start(c) != Start(b) {
      if Start(c) == Start(b) { SameStart(b, c); }
    }
  }

  lemma HeadersJoin(held: set<Block>, header: map<nat, nat>, b: Block)
    requires HeadersOk(held, header) && Start(b) in header && header[Start(b)] == b.order
    ensures HeadersOk(held + {b}, header)
  {
  }

  /** With nothing in the lists from order `k` on, every block of that order has a held part. */
  lemma NothingToTake(m: Mem, k: nat)
    requires Inv(m) && k <= MAX_ORDER && forall j :: k <= j <= MAX_ORDER ==> m.free[j] == []
    ensures forall b: Block :: b.order == k && Inside(b, m.units) ==> !Unheld(m, b)
  {
    forall b: Block | b.order == k && Inside(b, m.units) ensures !Unheld(m, b) {
      FreeExactly(m, b);
    }
  }

  lemma ShrHalf(n: nat, k: nat)
    ensures Shr(n, k + 1) == Shr(n, k) / 2
  {
  }

  /** Where the halves of a block are. */
  lemma HalvesAt(index: nat, k: nat)
    requires index == Start(BlockAt(index, k + 1))
    ensures var b := BlockAt(index, k + 1);
            && BlockAt(index, k) == Lower(b) && index == Start(Lower(b))
            && BlockAt(index + Size(k), k) == Upper(b) && index + Size(k) == Start(Upper(b))
  {
    var n := Shr(index, k + 1);
    ShrShl(2 * n, k);
    ShrShl(2 * n + 1, k);
    ShlNext(2 * n, k);
  }

  lemma SplitPossible(m: Mem, b: Block)
    requires Inv(m) && b in m.held && b.order > 0
    ensures Possible(m, Split(b)) && Lower(b) !in m.held
    ensures b.order - 1 < |m.bits| && Upper(b).number / 2 < |m.bits[b.order - 1]|
  {
    assert IsPart(m, b);
    BitmapSuffices(m, b);
    HalvesAreNew(m, b);
  }

  lemma SplitHeaders(m: Mem, b: Block, header: map<nat, nat>)
    requires Inv(m) && Possible(m, Split(b)) && Lower(b) !in m.held && HeadersOk(m.held - {b}, header)
    ensures HeadersOk(Step(m, Split(b)).held - {Lower(b)}, header[Start(Upper(b)) := b.order - 1])
  {
    var m' := Step(m, Split(b));
    HalvesAreNew(m, b);
    StepKeepsInv(m, Split(b));
    assert m'.held - {Lower(b)} == m.held - {b};
    assert IsFree(m', Upper(b));
    HeadersApart(m', m.held - {b}, header, Upper(b));
  }

  /** What a held block's bit, changed, decides. */
  lemma FreeChoice(m: Mem, index: nat, k: nat)
    requires Inv(m) && k <= MAX_ORDER && BlockAt(index, k) in m.held
    ensures InBitmap(m, BlockAt(index, k)) && k < |m.bits| && Shr(index, k) / 2 < |m.bits[k]|
    ensures Whole(BlockAt(index, k)) == BlockAt(index, k + 1) && BlockAt(index, k + 1) !in m.held
    ensures Possible(m, if m.bits[k][Shr(index, k) / 2] && k < MAX_ORDER then Merge(BlockAt(index, k))
                        else Put(BlockAt(index, k)))
  {
    assert IsPart(m, BlockAt(index, k));
    BitmapSuffices(m, BlockAt(index, k));
    WholeIsNew(m, BlockAt(index, k));
  }

  lemma LetGo(m: Mem, header: map<nat, nat>, b: Block)
    requires Inv(m) && b in m.held && HeadersOk(m.held, header)
    ensures b.order <= MAX_ORDER && m.held == m.held - {b} + {b} && HeadersOk(m.held - {b}, header)
  {
    assert IsPart(m, b);
  }

  /** A block that has joined the held ones had no unit in common with any of them. */
  lemma JoinedApart(m: Mem, m': Mem, b: Block)
    requires Inv(m') && m'.held == m.held + {b} && b !in m.held
    ensures b.order <= MAX_ORDER && Inside(b, m'.units) && Unheld(m, b)
  {
    assert IsPart(m', b);
    assert forall h :: h in m.held ==> IsPart(m', h);
  }

  function BitAmount(remainLen: nat): nat {
    (remainLen / MIN_BLOCK_SIZE + 15) / 16
  }

  /** A free area with its bitmap, rounded up to whole cache lines. */
  function AreaLen(remainLen: nat): nat {
    (AREA_SIZE + BitAmount(remainLen) + CACHE_LINE_SIZE - 1) / CACHE_LINE_SIZE * CACHE_LINE_SIZE
  }

  /** The bitmap has whole bytes, a bit for each pair of units and no byte too many, and an area holds its
      header and that bitmap with no cache line too many. */
  predicate HasBitmap(remainLen: nat, bitCount: nat) {
    && bitCount % 8 == 0 && 2 * bitCount - 16 < remainLen / MIN_BLOCK_SIZE <= 2 * bitCount
    && AreaLen(remainLen) % CACHE_LINE_SIZE == 0
    && AREA_SIZE + bitCount / 8 <= AreaLen(remainLen) < AREA_SIZE + bitCount / 8 + CACHE_LINE_SIZE
  }

  lemma BitmapFits(remainLen: nat)
    ensures HasBitmap(remainLen, 8 * BitAmount(remainLen))
  {
    var n := AREA_SIZE + BitAmount(remainLen) + CACHE_LINE_SIZE - 1;
    assert n == n / CACHE_LINE_SIZE * CACHE_LINE_SIZE + n % CACHE_LINE_SIZE;
  }

  predicate Descending(s: seq<nat>) {
    forall i, j :: 0 <= i < j < |s| ==> s[i] > s[j]
  }

  /** Blocks put into a list one after another, from the front of the memory on. */
  lemma DescendingOn(s: seq<nat>, n: nat)
    requires Descending(s) && forall x :: x in s ==> x < n
    ensures Descending([n] + s) && forall x :: x in [n] + s ==> x < n + 1
  {
    assert forall i :: 0 < i < |[n] + s| ==> ([n] + s)[i] == s[i - 1] && s[i - 1] in s;
  }

  lemma {:induction false} ShlZero(k: nat)
    ensures Shl(0, k) == 0
  {
    if k > 0 { ShlZero(k - 1); }
  }

  lemma ShlTwice(n: nat, k: nat)
    requires k > 0
    ensures Shl(n, k) == Shl(2 * n, k - 1)
  {
  }

  /** The memory before any block has been added. */
  function Empty(pairs: nat): Mem {
    Mem(0, seq(MAX_ORDER + 1, _ => []), seq(MAX_ORDER + 1, _ => seq(pairs, _ => false)), {})
  }

  lemma EmptyInv(pairs: nat)
    ensures Inv(Empty(pairs))
  {
    var m := Empty(pairs);
    assert forall b :: !IsPart(m, b);
  }

  /** The first unit of the first block of list `j`, after splitting it down to order `k`; all lists in between
      are empty. */
  ghost predicate CutFrom(m: Mem, j: nat, k: nat, es: seq<Event>, index: nat) {
    && k <= j < |m.free| && m.free[j] != []
    && (forall d :: IsFree(m, d) && k <= d.order ==> j <= d.order)
    && es == [Take(j)] + Splits(Block(m.free[j][0], j), k)
    && index == Start(Block(m.free[j][0], j))
  }

  /** `Free` undoes `Alloc`: the lists, in their order, and the bitmaps are as they were. */
  lemma AllocThenFree(m: Mem, j: nat, k: nat, index: nat, es: seq<Event>, m1: Mem, fs: seq<Event>, m2: Mem)
    requires Leads(m, es, m1) && CutFrom(m, j, k, es, index)
    requires Leads(m1, fs, m2) && FreesBlock(fs, BlockAt(index, k))
    ensures m2 == m
  {
    var b := Block(m.free[j][0], j);
    assert es[0] == Take(j) && es[1..] == Splits(b, k);
    FirstOfStart(b, k);
    BlockAtStart(FirstOf(b, k));
    FreeUndoesAlloc(m, j, k, fs);
  }

  class BuddyMem {
    var free: seq<seq<nat>>
    var bits: seq<seq<bool>>
    var header: map<nat, nat>
    ghost var units: nat
    ghost var held: set<Block>

    ghost function View(): Mem
      reads this
    {
      Mem(units, free, bits, held)
    }

    ghost predicate Valid()
      reads this
    {
      Inv(View()) && HeadersOk(held, header)
    }

    constructor ()
    {
      free, bits, header, units, held := [], [], map[], 0, {};
    }

    /** The bit of a pair changes; its new value is returned. */
    method SetBitmap(index: nat, k: nat) returns (bit: bool)
      requires k < |bits| && Shr(index, k + 1) < |bits[k]|
      modifies this`bits
      ensures bits == Flip(old(bits), BlockAt(index, k)) && |bits| == |old(bits)|
      ensures bit == !old(bits)[k][Shr(index, k) / 2]
    {
      var pair := Shr(index, k + 1);
      bit := !bits[k][pair];
      bits := bits[k := bits[k][pair := bit]];
    }

    method AddBlock(index: nat, k: nat)
      requires k < |free|
      modifies this`free, this`header
      ensures free == Add(old(free), BlockAt(index, k)) && header == old(header)[index := k]
    {
      free := free[k := [Shr(index, k)] + free[k]];
      header := header[index := k];
    }

    /** Walks the list to the block and unlinks it. */
    method DelBlock(number: nat, k: nat) returns (code: int)
      requires k < |free|
      modifies this`free
      ensures free == old(free)[k := Without(old(free)[k], number)]
      ensures code == if number in old(free)[k] then 0 else -1
    {
      var list, i := free[k], 0;
      while i < |list|
        invariant i <= |list| && number !in list[..i] && free == old(free) && list == free[k]
      {
        if list[i] == number {
          WithoutAt(list, i);
          free := free[k := list[..i] + list[i + 1..]];
          return 0;
        }
        i := i + 1;
      }
      assert list[..i] == list;
      WithoutNone(list, number);
      assert free == old(free)[k := list];
      code := -1;
    }

    // -------------------------------------------------------------------------------------------
    // Setting up

    /** The next block of order `k` is cut off what remains. */
    method CutBlock(index: nat, k: nat, ghost n: nat)
      requires Inv(View()) && k <= MAX_ORDER && index == units == Shl(n, k)
      requires forall j :: 0 <= j <= MAX_ORDER ==> Shl(n + 1, k) <= 2 * |bits[j]|
      requires k < MAX_ORDER ==> free[k] == []
      modifies this`free, this`bits, this`header, this`units
      ensures Inv(View()) && units == Shl(n + 1, k)
      ensures free == old(free)[k := [n] + old(free)[k]]
      ensures forall j :: 0 <= j <= MAX_ORDER ==> |bits[j]| == |old(bits)[j]|
    {
      hide Tiled, ListsOk, BitsOk, Coalesced, Shl, Shr;
      ghost var m := View();
      ShrShl(n, k);
      ShlGrows(n + 1, k);
      ShrHalf(index, k);
      AddBlock(index, k);
      var _ := SetBitmap(index, k);
      units := Shl(n + 1, k);
      GrowKeepsInv(m, View(), Block(n, k));
    }

    /** All blocks of one order are cut off, as long as what remains is large enough. */
    method CutBlocks(k: nat, remain: nat, index: nat, ghost n: nat) returns (left: nat, next: nat, ghost n': nat)
      requires Inv(View()) && k <= MAX_ORDER && index == units == Shl(n, k)
      requires forall j :: 0 <= j <= MAX_ORDER ==> remain + MIN_BLOCK_SIZE * index <= 2 * MIN_BLOCK_SIZE * |bits[j]|
      requires free[k] == [] && (k < MAX_ORDER ==> remain < 2 * Bytes(k))
      modifies this`free, this`bits, this`header, this`units
      ensures Inv(View()) && next == units == Shl(n', k)
      ensures left < Bytes(k) && left + MIN_BLOCK_SIZE * next == remain + MIN_BLOCK_SIZE * index
      ensures Descending(free[k]) && forall j :: 0 <= j <= MAX_ORDER && j != k ==> free[j] == old(free)[j]
      ensures forall j :: 0 <= j <= MAX_ORDER ==> |bits[j]| == |old(bits)[j]|
    {
      hide Tiled, ListsOk, BitsOk, Coalesced, Shl, Size;
      left, next, n' := remain, index, n;
      while left >= Bytes(k)
        invariant Inv(View()) && next == units == Shl(n', k)
        invariant left + MIN_BLOCK_SIZE * next == remain + MIN_BLOCK_SIZE * index
        invariant k < MAX_ORDER ==> (free[k] == [] && left < 2 * Bytes(k)) || left < Bytes(k)
        invariant Descending(free[k]) && forall x :: x in free[k] ==> x < n'
        invariant forall j :: 0 <= j <= MAX_ORDER && j != k ==> free[j] == old(free)[j]
        invariant forall j :: 0 <= j <= MAX_ORDER ==> |bits[j]| == |old(bits)[j]|
      {
        ShlNext(n', k);
        DescendingOn(free[k], n');
        CutBlock(next, k, n');
        left, next, n' := left - Bytes(k), next + Size(k), n' + 1;
      }
    }

    /** The whole memory is cut into blocks, largest first, none of them handed out. */
    method InitFree(remainLen: nat) returns (code: int)
      modifies this
      ensures code == if AreaLen(remainLen) * (MAX_ORDER + 1) > remainLen then -1 else 0
      ensures code == 0 ==> Valid() && held == {}
      ensures code == 0 ==> units == (remainLen - AreaLen(remainLen) * (MAX_ORDER + 1)) / MIN_BLOCK_SIZE
      ensures code == 0 ==> forall k :: 0 <= k <= MAX_ORDER ==>
                HasBitmap(remainLen, |bits[k]|) && Descending(free[k])
    {
      var areas := AreaLen(remainLen) * (MAX_ORDER + 1);
      if areas > remainLen {
        return -1;
      }
      var pairs := 8 * BitAmount(remainLen);
      free, bits := seq(MAX_ORDER + 1, _ => []), seq(MAX_ORDER + 1, _ => seq(pairs, _ => false));
      header, units, held := map[], 0, {};
      EmptyInv(pairs);
      BitmapFits(remainLen);
      hide Inv, Shl, AreaLen;
      assert View() == Empty(pairs);
      var order: nat, remain: nat, index: nat := MAX_ORDER + 1, remainLen - areas, 0;
      ghost var n: nat := 0;
      ShlZero(order);
      while order > 0
        invariant Inv(View()) && |free| == |bits| == MAX_ORDER + 1 && held == {}
        invariant order <= MAX_ORDER + 1 && index == units == Shl(n, order)
        invariant remain + MIN_BLOCK_SIZE * index == remainLen - areas
        invariant order <= MAX_ORDER ==> remain < Bytes(order)
        invariant forall j :: 0 <= j < order && j <= MAX_ORDER ==> free[j] == []
        invariant forall j :: 0 <= j <= MAX_ORDER ==> |bits[j]| == pairs && Descending(free[j])
      {
        ShlTwice(n, order);
        order := order - 1;
        remain, index, n := CutBlocks(order, remain, index, 2 * n);
      }
      assert Bytes(0) == MIN_BLOCK_SIZE;
      code := 0;
    }

    // -------------------------------------------------------------------------------------------
    // Alloc

    /** The critical section that takes a block out of its list. */
    method TakeFirst(k: nat) returns (index: nat)
      requires Valid() && k <= MAX_ORDER && free[k] != []
      modifies this`free, this`bits, this`held
      ensures Takes(old(View()), Take(k), View())
      ensures BlockAt(index, k) == Block(old(free)[k][0], k) && index == Start(BlockAt(index, k))
      ensures BlockAt(index, k) !in old(held) && held == old(held) + {BlockAt(index, k)}
    {
      ghost var b := Block(free[k][0], k);
      assert IsPart(View(), b);
      BitmapSuffices(View(), b);
      index := Shl(free[k][0], k);
      ShrShl(free[k][0], k);
      free := free[k := free[k][1..]];
      var _ := SetBitmap(index, k);
      held := held + {b};
    }

    /** The critical section that gives the upper half of a block to the list below. */
    method GiveUpper(index: nat, k: nat)
      requires Inv(View()) && k < MAX_ORDER
      requires BlockAt(index, k + 1) in held && index == Start(BlockAt(index, k + 1))
      requires HeadersOk(held - {BlockAt(index, k + 1)}, header)
      modifies this`free, this`bits, this`held, this`header
      ensures Takes(old(View()), Split(BlockAt(index, k + 1)), View())
      ensures index == Start(BlockAt(index, k))
      ensures held == old(held) - {BlockAt(index, k + 1)} + {BlockAt(index, k)} && BlockAt(index, k) !in old(held)
      ensures HeadersOk(held - {BlockAt(index, k)}, header)
    {
      hide Tiled, ListsOk, BitsOk, Coalesced, HeadersOk, Start, Shr, InBitmap;
      ghost var m, b := View(), BlockAt(index, k + 1);
      HalvesAt(index, k);
      SplitPossible(m, b);
      SplitHeaders(m, b, header);
      var upper := index + Size(k);
      AddBlock(upper, k);
      ShrHalf(upper, k);
      var _ := SetBitmap(upper, k);
      held := held - {b} + {Lower(b)};
    }

    /** A block for `len` bytes, as its first unit, or nothing: exactly when no aligned stretch of the block's
        size is free of held blocks. It is cut from the front of the first block of a list, and no list of
        smaller blocks would have done. */
    method Alloc(len: nat) returns (r: Option<nat>, ghost es: seq<Event>)
      requires Valid() && len < 0x1_0000_0000
      modifies this`free, this`bits, this`header, this`held
      ensures Valid() && Leads(old(View()), es, View())
      ensures r.None? ==> View() == old(View())
      ensures r.None? ==> OrderFor(len) > MAX_ORDER ||
                          forall b: Block :: b.order == OrderFor(len) && Inside(b, units) ==> !Unheld(old(View()), b)
      ensures r.Some? ==>
                var b := BlockAt(r.value, OrderFor(len));
                && b.order <= MAX_ORDER && Start(b) == r.value && Inside(b, units) && Unheld(old(View()), b)
                && held == old(held) + {b} && b !in old(held)
      ensures r.Some? ==> es != [] && es[0].Take? && CutFrom(old(View()), es[0].order, OrderFor(len), es, r.value)
    {
      hide Tiled, ListsOk, BitsOk, Coalesced, Leads, Takes, HeadersOk, Shr;
      ghost var m := View();
      es := [];
      LeadsNowhere(m);
      var k := OrderFor(len);
      if k > MAX_ORDER {
        return None, es;
      }
      var order := k;
      while order <= MAX_ORDER && free[order] == []
        invariant k <= order <= MAX_ORDER + 1 && forall j :: k <= j < order ==> free[j] == []
      {
        order := order + 1;
      }
      if order > MAX_ORDER {
        NothingToTake(m, k);
        return None, es;
      }
      ghost var first, from := order, Block(free[order][0], order);
      var index := TakeFirst(order);
      LeadsOn(m, es, m, Take(order), View());
      es := es + [Take(order)];
      while order > k
        invariant k <= order <= MAX_ORDER && Leads(m, es, View()) && Inv(View())
        invariant index == Start(BlockAt(index, order)) && BlockAt(index, order) !in m.held
        invariant held == m.held + {BlockAt(index, order)} && HeadersOk(m.held, header)
        invariant es + Splits(BlockAt(index, order), k) == [Take(first)] + Splits(from, k)
      {
        ghost var m1 := View();
        ghost var b := BlockAt(index, order);
        order := order - 1;
        assert held - {b} == m.held;
        HalvesAt(index, order);
        GiveUpper(index, order);
        assert held - {BlockAt(index, order)} == m.held;
        LeadsOn(m, es, m1, Split(b), View());
        assert es + [Split(b)] + Splits(Lower(b), k) == es + Splits(b, k);
        es := es + [Split(b)];
      }
      ghost var b := BlockAt(index, k);
      assert es == es + Splits(b, k);
      JoinedApart(m, View(), b);
      HeadersApart(View(), m.held, header, b);
      header := header[index := k];
      HeadersJoin(m.held, header, b);
      r := Some(index);
    }

    // -------------------------------------------------------------------------------------------
    // Free

    /** The critical section that merges a block with its buddy or puts it into its list. */
    method MergeOrPut(index: nat, block: nat, k: nat) returns (bit: bool, ghost e: Event)
      requires Inv(View()) && k <= MAX_ORDER && BlockAt(index, k) in held && block == Start(BlockAt(index, k))
      requires HeadersOk(held - {BlockAt(index, k)}, header)
      modifies this`free, this`bits, this`held, this`header
      ensures Takes(old(View()), e, View())
      ensures e == if !bit && k < MAX_ORDER then Merge(BlockAt(index, k)) else Put(BlockAt(index, k))
      ensures held == old(held) - {BlockAt(index, k)} + if e.Merge? then {BlockAt(index, k + 1)} else {}
      ensures BlockAt(index, k + 1) !in old(held)
      ensures HeadersOk(old(held) - {BlockAt(index, k)}, header)
    {
      hide Tiled, ListsOk, BitsOk, Coalesced, HeadersOk, Start, Shr, InBitmap;
      ghost var m, b := View(), BlockAt(index, k);
      FreeChoice(m, index, k);
      HeadersApart(m, held - {b}, header, b);
      ShrHalf(index, k);
      var buddy := if Shr(index, k) % 2 == 0 then Shr(index, k) + 1 else Shr(index, k) - 1;
      bit := SetBitmap(index, k);
      if !bit && k < MAX_ORDER {
        e := Merge(b);
        MergeFindsBuddy(m, b);
        var code := DelBlock(buddy, k);
        assert code == 0;
        held := held - {b} + {Whole(b)};
      } else {
        e := Put(b);
        BlockAtStart(b);
        AddBlock(block, k);
        held := held - {b};
      }
    }

    /** The block at `index` goes back, merged with its buddies as far as they are free. The index is the
        first block's throughout: what is shifted out of it does not matter. */
    method Free(index: nat) returns (ghost es: seq<Event>)
      requires Valid() && index in header
      requires BlockAt(index, header[index]) in held && Start(BlockAt(index, header[index])) == index
      modifies this`free, this`bits, this`header, this`held
      ensures Valid() && Leads(old(View()), es, View())
      ensures held == old(held) - {BlockAt(index, old(header)[index])}
      ensures FreesBlock(es, BlockAt(index, old(header)[index]))
    {
      hide Inv, Leads, Takes, HeadersOk, Shr, FreesBlock;
      ghost var m := View();
      es := [];
      LeadsNowhere(m);
      var k, block, bit := header[index], index, false;
      ghost var rest := held - {BlockAt(index, k)};
      LetGo(m, header, BlockAt(index, k));
      ghost var start := BlockAt(index, k);
      while !bit && k <= MAX_ORDER
        invariant Leads(m, es, View()) && Inv(View())
        invariant !bit && k <= MAX_ORDER ==> block == Start(BlockAt(index, k))
        invariant held == if !bit && k <= MAX_ORDER then rest + {BlockAt(index, k)} else rest
        invariant !bit && k <= MAX_ORDER ==> BlockAt(index, k) !in rest
        invariant HeadersOk(rest, header)
        invariant if !bit && k <= MAX_ORDER then MergesUp(es, start, BlockAt(index, k)) else FreesBlock(es, start)
        decreases MAX_ORDER + 1 - k, !bit
      {
        ghost var m1, b := View(), BlockAt(index, k);
        assert held - {b} == rest;
        ghost var e;
        bit, e := MergeOrPut(index, block, k);
        LeadsOn(m, es, m1, e, View());
        MergesOn(es, start, b);
        ShrHalf(index, k);
        es := es + [e];
        if !bit && k < MAX_ORDER {
          block := Shl(Shr(index, k + 1), k + 1);
        }
        k := k + 1;
      }
    }
  }
}
