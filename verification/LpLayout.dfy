/** Where the module keeps each logical processor's local data, and the global data after them.  All sums
    are the code's own 64-bit sums; what is proved is when they land where they should. */
module LpLayout {
  import opened Words

  const PAGE: int := 4096

  datatype SysInfo = SysInfo(dataRgnBase: u64, stackRgnSize: u64, numStackPages: u64, numTlsPages: u64,
                             numHandoffPages: u16)

  function LocalDataSizePerLp(s: SysInfo): u64 {
    (PAGE * (s.numTlsPages + 1)) % TWO64
  }

  function CurrentThreadNum(s: SysInfo, localData: u64): int
    requires LocalDataSizePerLp(s) != 0
  {
    Sub64(localData, Add64(s.dataRgnBase, (s.numHandoffPages + 1) * PAGE)) / LocalDataSizePerLp(s)
  }

  /** The handoff page count here is the one recorded in the global data. */
  function OtherLpLocalData(globalHandoffPages: u16, s: SysInfo, lp: u64): u64 {
    var start := Add64(s.dataRgnBase, (globalHandoffPages + 1) * PAGE);
    Add64(start, (LocalDataSizePerLp(s) * lp) % TWO64)
  }

  function NumAddressableLps(s: SysInfo): int
    requires s.numStackPages + 2 < TWO64
  {
    s.stackRgnSize / PAGE / (s.numStackPages + 1 + 1)
  }

  function GlobalData(s: SysInfo): u64
    requires s.numStackPages + 2 < TWO64
  {
    var addr := Add64(s.dataRgnBase, (NumAddressableLps(s) * LocalDataSizePerLp(s)) % TWO64);
    Add64(addr, (s.numHandoffPages + 1) * PAGE)
  }

  /** Where LP n's area ends, in unbounded arithmetic: the areas lie one after the other. */
  function AreaEnd(s: SysInfo, handoffPages: u16, n: nat): (end: int)
  {
    4096 * (s.numTlsPages + 1)
    + if n == 0 then s.dataRgnBase + (handoffPages + 1) * 4096 else AreaEnd(s, handoffPages, n - 1)
  }

  /** The data region up to the end of LP n's area fits in the address space. */
  predicate Fits(s: SysInfo, handoffPages: u16, n: u64) {
    AreaEnd(s, handoffPages, n) < TWO64
  }

  lemma {:induction false} AreaEndIs(s: SysInfo, handoffPages: u16, n: nat)
    ensures AreaEnd(s, handoffPages, n)
         == s.dataRgnBase + (handoffPages + 1) * 4096 + 4096 * (s.numTlsPages + 1) * (n + 1)
  {
    if n > 0 {
      AreaEndIs(s, handoffPages, n - 1);
      assert 4096 * (s.numTlsPages + 1) * (n + 1) == 4096 * (s.numTlsPages + 1) * n + 4096 * (s.numTlsPages + 1);
    }
  }

  lemma NoWrap(x: int)
    requires 0 <= x < TWO64
    ensures x % TWO64 == x
  {
  }

  lemma SizeFits(s: SysInfo, handoffPages: u16, n: u64)
    requires Fits(s, handoffPages, n)
    ensures LocalDataSizePerLp(s) == 4096 * (s.numTlsPages + 1)
    ensures 0 <= LocalDataSizePerLp(s) * n
    ensures s.dataRgnBase + (handoffPages + 1) * PAGE + LocalDataSizePerLp(s) * n + LocalDataSizePerLp(s) < TWO64
  {
    AreaEndIs(s, handoffPages, n);
    var size := PAGE * (s.numTlsPages + 1);
    assert size * (n + 1) == size * n + size;
    assert size * n >= 0;
    NoWrap(size);
  }

  lemma AreaStart(s: SysInfo, handoffPages: u16, n: u64)
    requires Fits(s, handoffPages, n)
    ensures OtherLpLocalData(handoffPages, s, n)
         == s.dataRgnBase + (handoffPages + 1) * 4096 + LocalDataSizePerLp(s) * n
  {
    SizeFits(s, handoffPages, n);
    var offset := LocalDataSizePerLp(s) * n;
    NoWrap(offset);
    NoWrap(s.dataRgnBase + (handoffPages + 1) * PAGE);
    NoWrap(s.dataRgnBase + (handoffPages + 1) * PAGE + offset);
  }

  lemma QuotientIs(value: int, size: int, n: int)
    requires size > 0
    ensures value / size == n <==> size * n <= value < size * n + size
  {
    var q := value / size;
    assert value == size * q + value % size;
    if q < n {
      assert size * (q + 1) <= size * n;
    } else if q > n {
      assert size * (n + 1) <= size * q;
    }
  }

  /** The address `offset` bytes into LP n's area, and the number computed from it: n iff the two handoff
      counts are close enough for the address to stay in the area the SYSINFO count gives. */
  lemma ThreadNumAt(s: SysInfo, globalHandoffPages: u16, n: u64, offset: u64)
    requires Fits(s, globalHandoffPages, n) && Fits(s, s.numHandoffPages, n)
    requires 0 <= offset < LocalDataSizePerLp(s)
    ensures CurrentThreadNum(s, Add64(OtherLpLocalData(globalHandoffPages, s, n), offset)) == n
       <==> 0 <= (globalHandoffPages - s.numHandoffPages) * PAGE + offset < LocalDataSizePerLp(s)
  {
    var size := LocalDataSizePerLp(s);
    AreaStart(s, globalHandoffPages, n);
    SizeFits(s, globalHandoffPages, n);
    SizeFits(s, s.numHandoffPages, n);
    var start: u64 := s.dataRgnBase + (s.numHandoffPages + 1) * PAGE;
    var addr: u64 := OtherLpLocalData(globalHandoffPages, s, n) + offset;
    NoWrap(start);
    NoWrap(addr);
    DifferenceIs(addr, start);
    QuotientIs(Sub64(addr, start), size, n);
  }

  lemma DifferenceIs(a: u64, b: u64)
    ensures Sub64(a, b) == if a < b then a - b + TWO64 else a - b
  {
  }

  /** The thread number computed from an address is LP n's own, for every address of LP n's area, iff the
      global data and the SYSINFO table agree on the number of handoff pages. */
  lemma ThreadNumIsRightIffHandoffAgrees(s: SysInfo, globalHandoffPages: u16, n: u64)
    requires Fits(s, globalHandoffPages, n) && Fits(s, s.numHandoffPages, n)
    ensures LocalDataSizePerLp(s) != 0
    ensures (forall offset: u64 | offset < LocalDataSizePerLp(s) ::
               CurrentThreadNum(s, Add64(OtherLpLocalData(globalHandoffPages, s, n), offset)) == n)
       <==> globalHandoffPages == s.numHandoffPages
  {
    SizeFits(s, s.numHandoffPages, n);
    var size := LocalDataSizePerLp(s);
    var area := OtherLpLocalData(globalHandoffPages, s, n);
    var shift := (globalHandoffPages - s.numHandoffPages) * PAGE;
    forall offset: u64 | offset < size
      ensures CurrentThreadNum(s, Add64(area, offset)) == n <==> 0 <= shift + offset < size
    {
      ThreadNumAt(s, globalHandoffPages, n, offset);
    }
    var first: u64, last: u64 := 0, size - 1;
    assert CurrentThreadNum(s, Add64(area, first)) == n <==> 0 <= shift < size;
    assert CurrentThreadNum(s, Add64(area, last)) == n <==> 0 <= shift + last < size;
  }

  lemma {:induction false} OffsetsStayApart(size: nat, m: nat, n: nat)
    requires m < n
    ensures size * m + size <= size * n
  {
    assert size * n == size * (n - 1) + size;
    if m < n - 1 {
      OffsetsStayApart(size, m, n - 1);
    }
  }

  /** Areas of different LPs share no address. */
  lemma AreasAreDisjoint(s: SysInfo, handoffPages: u16, m: u64, n: u64, a: u64, b: u64)
    requires Fits(s, handoffPages, m) && Fits(s, handoffPages, n) && m != n
    requires a < LocalDataSizePerLp(s) && b < LocalDataSizePerLp(s)
    ensures Add64(OtherLpLocalData(handoffPages, s, m), a) != Add64(OtherLpLocalData(handoffPages, s, n), b)
  {
    var size := LocalDataSizePerLp(s);
    AreaStart(s, handoffPages, m);
    AreaStart(s, handoffPages, n);
    SizeFits(s, handoffPages, m);
    SizeFits(s, handoffPages, n);
    NoWrap(OtherLpLocalData(handoffPages, s, m) + a);
    NoWrap(OtherLpLocalData(handoffPages, s, n) + b);
    if m < n {
      OffsetsStayApart(size, m, n);
    } else {
      OffsetsStayApart(size, n, m);
    }
  }

  lemma StackRegionCountsLps(s: SysInfo, n: u64)
    requires s.numStackPages + 2 < TWO64
    requires s.stackRgnSize == (s.numStackPages + 2) * n * 4096
    ensures NumAddressableLps(s) == n
  {
    var pages := s.numStackPages + 2;
    QuotientIs(s.stackRgnSize, PAGE, pages * n);
    QuotientIs(pages * n, pages, n);
  }

  lemma SumOfThree(base: u64, size: u64, n: u64, handoff: u64, all: int)
    requires all == n * size >= 0 && base + all + handoff < TWO64
    ensures Add64(Add64(base, (n * size) % TWO64), handoff) == base + all + handoff
  {
    NoWrap(all);
    NoWrap(base + all);
    NoWrap(base + all + handoff);
  }

  /** From a stack region of D data pages and one shadow page for each of n LPs, the number of LPs is
      recovered, and the global data starts exactly where the last LP's area ends. */
  lemma GlobalDataFollowsLastLp(s: SysInfo, n: u64)
    requires 0 < n && s.numStackPages + 2 < TWO64
    requires s.stackRgnSize == (s.numStackPages + 2) * n * 4096
    requires Fits(s, s.numHandoffPages, n - 1)
    ensures NumAddressableLps(s) == n
    ensures GlobalData(s) == OtherLpLocalData(s.numHandoffPages, s, n - 1) + LocalDataSizePerLp(s)
  {
    StackRegionCountsLps(s, n);
    AreaStart(s, s.numHandoffPages, n - 1);
    SizeFits(s, s.numHandoffPages, n - 1);
    var size := LocalDataSizePerLp(s);
    EndOfArea(size, n);
    SumOfThree(s.dataRgnBase, size, n, (s.numHandoffPages + 1) * PAGE, n * size);
  }

  lemma EndOfArea(size: int, n: int)
    ensures n * size == size * (n - 1) + size
  {
  }
}
