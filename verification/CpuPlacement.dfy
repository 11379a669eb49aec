/** Placing threads on the least loaded CPU: `thread_info_init` and `spawn_thread`. */
module CpuPlacement {

  const MAX_LOAD: nat := 0x7fff_ffff  // the counters are signed 32-bit
  const NO_MINIMUM: nat := 0xffff_ffff

  // ---------------------------------------------------------------------------------------------
  // The range of CPUs

  function LowTh(cpuNums: int, low: int): int {
    if low < 0 || low >= cpuNums then 0 else low - 1
  }

  function HighTh(cpuNums: int, low: int, high: int): int {
    if high <= LowTh(cpuNums, low) || high >= cpuNums then cpuNums - 1 else high
  }

  /** The range is never empty, and it lies inside the counters exactly when `low` is not 0: for 0 the
      scan would start at index -1. */
  lemma RangeInBounds(cpuNums: int, low: int, high: int)
    requires cpuNums >= 1
    ensures LowTh(cpuNums, low) <= HighTh(cpuNums, low, high) < cpuNums
    ensures 0 <= LowTh(cpuNums, low) <==> low != 0
  {
  }

  /** CPU `i` is one of those asked for: from `low`, counted from 1, if there is such a CPU, up to `high`,
      counted from 0, if there is such a CPU and it is not before the start. */
  predicate AskedFor(cpuNums: int, low: int, high: int, i: int) {
    && 0 <= i < cpuNums
    && (0 < low < cpuNums ==> low - 1 <= i)
    && (0 < high < cpuNums && (0 < low < cpuNums ==> low <= high) ==> i <= high)
  }

  lemma RangeAsAsked(cpuNums: int, low: int, high: int, i: int)
    requires cpuNums >= 1 && low != 0
    ensures LowTh(cpuNums, low) <= i <= HighTh(cpuNums, low, high) <==> AskedFor(cpuNums, low, high, i)
  {
  }

  // ---------------------------------------------------------------------------------------------
  // Round robin

  /** How many of the first `k` threads CPU `i` gets when they go to `lo..hi` in turn. */
  function Load(lo: nat, hi: nat, k: nat, i: nat): nat
    requires lo <= hi
  {
    var w := hi - lo + 1;
    if lo <= i <= hi then k / w + (if i - lo < k % w then 1 else 0) else 0
  }

  function Loads(n: nat, lo: nat, hi: nat, k: nat): (s: seq<nat>)
    requires lo <= hi < n
    ensures |s| == n
  {
    seq(n, i requires 0 <= i < n => Load(lo, hi, k, i))
  }

  function Turn(lo: nat, hi: nat, k: nat): (i: nat)
    requires lo <= hi
    ensures lo <= i <= hi
  {
    lo + k % (hi - lo + 1)
  }

  function Total(s: seq<nat>): nat {
    if s == [] then 0 else Total(s[..|s| - 1]) + s[|s| - 1]
  }

  /** `i` is the first of the least loaded CPUs in `lo..hi`. */
  ghost predicate FirstLeast(s: seq<nat>, lo: nat, hi: nat, i: nat) {
    && lo <= i <= hi < |s|
    && (forall j :: lo <= j <= hi ==> s[i] <= s[j])
    && (forall j :: lo <= j < i ==> s[i] < s[j])
  }

  lemma Scaled(a: nat, b: nat, w: nat)
    requires a <= b
    ensures a * w <= b * w
  {
  }

  lemma DivModUnique(n: nat, w: nat, q: nat, r: nat)
    requires w > 0 && n == q * w + r && r < w
    ensures n / w == q && n % w == r
  {
    var p := n / w;
    assert n == p * w + n % w;
    if p < q {
      Scaled(p + 1, q, w);
    } else if p > q {
      Scaled(q + 1, p, w);
    }
  }

  lemma DivModNext(k: nat, w: nat)
    requires w > 0
    ensures k % w < w - 1 ==> (k + 1) / w == k / w && (k + 1) % w == k % w + 1
    ensures k % w == w - 1 ==> (k + 1) / w == k / w + 1 && (k + 1) % w == 0
  {
    var q, r := k / w, k % w;
    assert k == q * w + r;
    if r < w - 1 {
      DivModUnique(k + 1, w, q, r + 1);
    } else {
      assert (q + 1) * w == q * w + w;
      DivModUnique(k + 1, w, q + 1, 0);
    }
  }

  /** No counter leaves its range before all of them are full. */
  lemma LoadFits(lo: nat, hi: nat, k: nat, i: nat)
    requires lo <= hi && k <= MAX_LOAD * (hi - lo + 1)
    ensures Load(lo, hi, k, i) <= MAX_LOAD
  {
    var w := hi - lo + 1;
    assert k == (k / w) * w + k % w;
    if k / w >= MAX_LOAD {
      Scaled(MAX_LOAD, k / w, w);
      if k / w > MAX_LOAD {
        Scaled(MAX_LOAD + 1, k / w, w);
      }
    }
  }

  /** On round-robin loads the scan's choice is the next CPU in turn. */
  lemma LeastIsNextInTurn(n: nat, lo: nat, hi: nat, k: nat, i: nat)
    requires lo <= hi < n && FirstLeast(Loads(n, lo, hi, k), lo, hi, i)
    ensures i == Turn(lo, hi, k)
  {
    var s, t := Loads(n, lo, hi, k), Turn(lo, hi, k);
    assert s[t] == k / (hi - lo + 1);
    assert forall j :: lo <= j < t ==> s[j] == k / (hi - lo + 1) + 1;
  }

  /** Counting one more thread on the next CPU in turn gives round-robin loads again. */
  lemma NextInTurn(n: nat, lo: nat, hi: nat, k: nat)
    requires lo <= hi < n
    ensures Loads(n, lo, hi, k + 1) == Loads(n, lo, hi, k)[Turn(lo, hi, k) := Load(lo, hi, k, Turn(lo, hi, k)) + 1]
  {
    DivModNext(k, hi - lo + 1);
  }

  lemma {:induction false} TotalUpdate(s: seq<nat>, i: nat)
    requires i < |s|
    ensures Total(s[i := s[i] + 1]) == Total(s) + 1
  {
    var n := |s| - 1;
    var t := s[i := s[i] + 1];
    if i == n {
      assert t[..n] == s[..n];
    } else {
      assert t[..n] == s[..n][i := s[i] + 1];
      TotalUpdate(s[..n], i);
    }
  }

  lemma {:induction false} TotalZero(s: seq<nat>)
    requires forall i :: 0 <= i < |s| ==> s[i] == 0
    ensures Total(s) == 0
  {
    if s != [] {
      TotalZero(s[..|s| - 1]);
    }
  }

  /** Loads in the range differ by at most one, there are none outside it, and together they are `k`. */
  lemma {:induction false} LoadsBalanced(n: nat, lo: nat, hi: nat, k: nat)
    requires lo <= hi < n
    ensures var s := Loads(n, lo, hi, k);
            && (forall i, j :: lo <= i <= hi && lo <= j <= hi ==> s[i] <= s[j] + 1)
            && (forall i :: 0 <= i < n && !(lo <= i <= hi) ==> s[i] == 0)
            && Total(s) == k
    decreases k
  {
    if k == 0 {
      assert 0 / (hi - lo + 1) == 0;
      TotalZero(Loads(n, lo, hi, k));
    } else {
      LoadsBalanced(n, lo, hi, k - 1);
      NextInTurn(n, lo, hi, k - 1);
      TotalUpdate(Loads(n, lo, hi, k - 1), Turn(lo, hi, k - 1));
    }
  }

  // ---------------------------------------------------------------------------------------------
  // The code

  function Successes(results: seq<bool>): nat {
    if results == [] then 0
    else Successes(results[..|results| - 1]) + if results[|results| - 1] then 1 else 0
  }

  lemma {:induction false} SuccessesGrow(results: seq<bool>, i: nat)
    requires i <= |results|
    ensures Successes(results[..i]) <= Successes(results)
    decreases |results|
  {
    if i == |results| {
      assert results[..i] == results;
    } else {
      assert results[..|results| - 1][..i] == results[..i];
      SuccessesGrow(results[..|results| - 1], i);
    }
  }

  class ThreadInfo {
    const cpuNums: nat
    const lowTh: int
    const highTh: int
    const bindCpu: bool
    const threadsOnCpu: array<nat>
    ghost var binds: nat  // successful binds so far

    predicate Usable() {
      0 <= lowTh <= highTh < cpuNums == threadsOnCpu.Length
    }

    /** The counters hold a round-robin distribution of the binds made so far. */
    ghost predicate Valid()
      reads this, threadsOnCpu
    {
      Usable() && threadsOnCpu[..] == Loads(cpuNums, lowTh, highTh, binds)
    }

    /** `thread_info_init` */
    constructor (cpuNums: nat, low: int, high: int, bindSig: bool)
      requires cpuNums >= 1
      ensures this.cpuNums == cpuNums && bindCpu == bindSig && binds == 0 && fresh(threadsOnCpu)
      ensures lowTh == LowTh(cpuNums, low) && highTh == HighTh(cpuNums, low, high)
      ensures threadsOnCpu.Length == cpuNums && forall i :: 0 <= i < cpuNums ==> threadsOnCpu[i] == 0
      ensures low != 0 <==> Usable()
      ensures low != 0 ==> forall i :: lowTh <= i <= highTh <==> AskedFor(cpuNums, low, high, i)
      ensures low != 0 ==> Valid()
    {
      this.cpuNums, this.bindCpu := cpuNums, bindSig;
      lowTh, highTh := LowTh(cpuNums, low), HighTh(cpuNums, low, high);
      threadsOnCpu := new nat[cpuNums](_ => 0);
      binds := 0;
      new;
      RangeInBounds(cpuNums, low, high);
      if low != 0 {
        forall i ensures lowTh <= i <= highTh <==> AskedFor(cpuNums, low, high, i) {
          RangeAsAsked(cpuNums, low, high, i);
        }
        assert 0 / (highTh - lowTh + 1) == 0;
        assert threadsOnCpu[..] == Loads(cpuNums, lowTh, highTh, 0);
      }
    }

    /** The scan of `spawn_thread`, for any counter values in range. */
    method LeastLoaded() returns (index: nat)
      requires Usable() && forall i :: 0 <= i < cpuNums ==> threadsOnCpu[i] <= MAX_LOAD
      ensures FirstLeast(threadsOnCpu[..], lowTh, highTh, index)
    {
      var min: nat := NO_MINIMUM;
      index := 0;
      for i := lowTh to highTh + 1
        invariant i == lowTh ==> min == NO_MINIMUM
        invariant i > lowTh ==> lowTh <= index < i && min == threadsOnCpu[index]
        invariant forall j :: lowTh <= j < i ==> min <= threadsOnCpu[j]
        invariant forall j :: lowTh <= j < i && j < index ==> min < threadsOnCpu[j]
      {
        if threadsOnCpu[i] < min {
          min, index := threadsOnCpu[i], i;
        }
      }
    }

    /** `spawn_thread`; `bound` says whether `thread_set_cpu` succeeds. With binding enabled the thread goes
        to the next CPU in turn, and only a successful bind is counted. */
    method SpawnThread(bound: bool) returns (placed: bool, cpu: int)
      requires bindCpu ==> Valid() && binds + (if bound then 1 else 0) <= MAX_LOAD * (highTh - lowTh + 1)
      modifies this`binds, threadsOnCpu
      ensures placed == bindCpu
      ensures placed ==> Valid() && cpu == lowTh + old(binds) % (highTh - lowTh + 1)
      ensures binds == old(binds) + if placed && bound then 1 else 0
      ensures !placed ==> threadsOnCpu[..] == old(threadsOnCpu[..])
    {
      if !bindCpu {
        return false, 0;
      }
      ghost var s := threadsOnCpu[..];
      forall i | 0 <= i < cpuNums ensures threadsOnCpu[i] <= MAX_LOAD {
        assert s[i] == Load(lowTh, highTh, binds, i);
        LoadFits(lowTh, highTh, binds, i);
      }
      var index := LeastLoaded();
      LeastIsNextInTurn(cpuNums, lowTh, highTh, binds, index);
      placed, cpu := true, index;
      if bound {
        NextInTurn(cpuNums, lowTh, highTh, binds);
        threadsOnCpu[index] := threadsOnCpu[index] + 1;
        binds := binds + 1;
        assert threadsOnCpu[..] == s[index := s[index] + 1];
      }
    }

    /** Any sequence of calls from a fresh record: call `j` goes to the CPU whose turn it is after the
        binds that succeeded before it, and the counters end up balanced and complete. */
    method SpawnAll(results: seq<bool>) returns (cpus: seq<int>)
      requires Valid() && bindCpu && binds == 0
      requires Successes(results) <= MAX_LOAD * (highTh - lowTh + 1)
      modifies this`binds, threadsOnCpu
      ensures Valid() && |cpus| == |results| && binds == Successes(results)
      ensures forall j :: 0 <= j < |cpus| ==>
                cpus[j] == lowTh + Successes(results[..j]) % (highTh - lowTh + 1)
      ensures Total(threadsOnCpu[..]) == Successes(results)
      ensures forall i, j :: lowTh <= i <= highTh && lowTh <= j <= highTh ==>
                threadsOnCpu[i] <= threadsOnCpu[j] + 1
      ensures forall i :: 0 <= i < cpuNums && !(lowTh <= i <= highTh) ==> threadsOnCpu[i] == 0
    {
      cpus := [];
      for i := 0 to |results|
        invariant Valid() && |cpus| == i && binds == Successes(results[..i])
        invariant forall j :: 0 <= j < i ==>
                    cpus[j] == lowTh + Successes(results[..j]) % (highTh - lowTh + 1)
      {
        assert results[..i + 1][..i] == results[..i];
        assert results[..i + 1][i] == results[i];
        SuccessesGrow(results, i + 1);
        var _, cpu := SpawnThread(results[i]);
        cpus := cpus + [cpu];
      }
      assert results[..|results|] == results;
      LoadsBalanced(cpuNums, lowTh, highTh, binds);
    }
  }
}
