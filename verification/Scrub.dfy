/** Processor state across a TD exit and the next TD entry.

    On exit the module saves the guest's registers and then resets them for the host, skipping each write
    whose saved copy says that the register already holds its reset value.  What is proved: for a live exit
    the skipping is invisible, the next entry gives the guest back every register it had, and the host gets
    its own back, each with the exact condition where there is one. */
module Scrub {
  // Register contents.  Nothing here adds or multiplies them, so their width plays no part.
  type Value = nat

  datatype Reg = Msr(addr: nat) | Dr(n: nat) | Cr2 | Xcr0

  const STAR := Msr(0xC000_0081)
  const LSTAR := Msr(0xC000_0082)
  const FMASK := Msr(0xC000_0084)
  const KERNEL_GS_BASE := Msr(0xC000_0102)
  const TSC_AUX := Msr(0xC000_0103)
  const XFD := Msr(0x1C4)
  const XFD_ERROR := Msr(0x1C5)
  const LBR_DEPTH := Msr(0x14CF)
  const DS_AREA := Msr(0x600)
  const FIXED_CTR_CTRL := Msr(0x38D)
  const FIXED_CTR0: nat := 0x309
  const A_PMC0: nat := 0x4C1
  const PERFEVTSEL0: nat := 0x186
  const OFFCORE_RSP0: nat := 0x1A6
  const PERF_METRICS := Msr(0x329)
  const PERF_GLOBAL_STATUS := Msr(0x38E)
  const PEBS_ENABLE := Msr(0x3F1)
  const PEBS_DATA_CFG := Msr(0x3F2)
  const PEBS_LD_LAT := Msr(0x3F6)
  const PEBS_FRONTEND := Msr(0x3F7)
  const UMWAIT_CONTROL := Msr(0xE1)
  const TSX_CTRL := Msr(0x122)
  const UARCH_MISC_CTL := Msr(0x1B01)

  const NUM_PMC: nat := 8
  const MAX_FIXED_CTR: nat := 7
  const TSX_CTRL_DISABLE: Value := 3

  type Regs = map<Reg, Value>

  function Get(m: Regs, r: Reg): Value {
    if r in m then m[r] else 0
  }

  function ResetOf(r: Reg): Value {
    if r == Dr(6) then 0xFFFF_0FF0 else if r == FMASK then 0x20200 else if r == LBR_DEPTH then 0x20 else 0
  }

  /** What the platform and the TD support; the first two exist twice, in the TDCS and, copied at entry, in
      the LP's own vp_ctx, which alone may be read when the TD is dead. */
  datatype Config = Config(xfd: bool, perfmon: bool, lbr: bool, waitpkg: bool, tsx: bool, fixedCtrs: nat,
                           fcBitmap: seq<bool>, perfMetrics: bool, bigCore: bool, hleOrRtm: bool, archTsxCtrl: bool)

  predicate Sane(c: Config) {
    c.fixedCtrs <= MAX_FIXED_CTR && c.fixedCtrs <= |c.fcBitmap|
  }

  // ---- Which registers ----

  predicate IsFixedCtr(c: Config, r: Reg)
    requires Sane(c)
  {
    r.Msr? && FIXED_CTR0 <= r.addr < FIXED_CTR0 + c.fixedCtrs && c.fcBitmap[r.addr - FIXED_CTR0]
  }

  predicate IsArrayMsr(r: Reg, first: nat, count: nat) {
    r.Msr? && first <= r.addr < first + count
  }

  predicate IsDebugReg(r: Reg) {
    r.Dr? && r.n in {0, 1, 2, 3, 6}
  }

  predicate IsSyscallMsr(r: Reg) {
    r in {UARCH_MISC_CTL, TSC_AUX, STAR, LSTAR, FMASK, KERNEL_GS_BASE}
  }

  predicate IsCounterArray(c: Config, r: Reg)
    requires Sane(c)
  {
    IsFixedCtr(c, r) || IsArrayMsr(r, A_PMC0, NUM_PMC) || IsArrayMsr(r, OFFCORE_RSP0, 2)
  }

  /** Counters that are both saved and reset. */
  predicate IsCounter(c: Config, r: Reg)
    requires Sane(c)
  {
    IsCounterArray(c, r) || (c.perfMetrics && r == PERF_METRICS)
  }

  /** Performance monitoring controls that are saved but not reset here. */
  predicate IsPerfControl(c: Config, r: Reg) {
    IsArrayMsr(r, PERFEVTSEL0, NUM_PMC) || r in {FIXED_CTR_CTRL, PERF_GLOBAL_STATUS} || IsPebs(c, r)
  }

  predicate IsPebs(c: Config, r: Reg) {
    r in {PEBS_ENABLE, PEBS_DATA_CFG, PEBS_LD_LAT} || (c.bigCore && r == PEBS_FRONTEND)
  }

  predicate IsOptionalMsr(c: Config, r: Reg) {
    || (c.lbr && r == LBR_DEPTH)
    || (c.waitpkg && r == UMWAIT_CONTROL)
    || (c.tsx && r == TSX_CTRL)
  }

  predicate IsScrubbed(c: Config, r: Reg)
    requires Sane(c)
  {
    || IsDebugReg(r)
    || IsSyscallMsr(r)
    || (c.xfd && r in {XFD, XFD_ERROR})
    || (c.perfmon && IsCounter(c, r))
  }

  predicate IsSaved(c: Config, r: Reg)
    requires Sane(c)
  {
    || IsScrubbed(c, r)
    || r in {Cr2, Xcr0, DS_AREA}
    || (c.perfmon && IsPerfControl(c, r))
    || IsOptionalMsr(c, r)
  }

  /** The registers that the host must find reset, by number, and the values it finds. */
  lemma ScrubbedByNumber(c: Config, r: Reg)
    requires Sane(c)
    ensures IsScrubbed(c, r) <==>
            match r
            case Dr(n) => n in {0, 1, 2, 3, 6}
            case Msr(a) =>
              || a in {0xC000_0081, 0xC000_0082, 0xC000_0084, 0xC000_0102, 0xC000_0103, 0x1B01}
              || (c.xfd && a in {0x1C4, 0x1C5})
              || (c.perfmon && (0x4C1 <= a <= 0x4C8 || a in {0x1A6, 0x1A7} || (c.perfMetrics && a == 0x329)
                                || (0x309 <= a < 0x309 + c.fixedCtrs && c.fcBitmap[a - 0x309])))
            case _ => false
    ensures ResetOf(r) == match r
                          case Dr(n) => if n == 6 then 0xFFFF_0FF0 else 0
                          case Msr(a) => if a == 0xC000_0084 then 0x20200 else if a == 0x14CF then 0x20 else 0
                          case _ => 0
  {
  }

  /** The registers that the guest must find again, by number: those, and these. */
  lemma SavedByNumber(c: Config, r: Reg)
    requires Sane(c)
    ensures IsSaved(c, r) <==>
            || IsScrubbed(c, r) || r.Cr2? || r.Xcr0?
            || (r.Msr? && (|| r.addr == 0x600 || (c.lbr && r.addr == 0x14CF) || (c.waitpkg && r.addr == 0xE1)
                           || (c.tsx && r.addr == 0x122)
                           || (c.perfmon && (|| 0x186 <= r.addr <= 0x18D
                                             || r.addr in {0x38D, 0x38E, 0x3F1, 0x3F2, 0x3F6}
                                             || (c.bigCore && r.addr == 0x3F7)))))
  {
  }

  // ---- What each half does to a register, register by register ----

  /** The host's values that an exit puts back. */
  datatype HostState = HostState(dsArea: Value, tsxCtrl: Value)

  function WriteOpt(now: Value, wanted: Value, believed: Value): Value {
    if wanted != believed then wanted else now
  }

  // A register after the reset that trusts the saved copy.
  function ResetOpt(saved: Regs, hw: Regs, r: Reg): Value {
    WriteOpt(Get(hw, r), ResetOf(r), Get(saved, r))
  }

  /** The reset as coded: `saved` is the TDVPS copy that decides whether a write is needed. */
  function ScrubbedValue(c: Config, host: HostState, saved: Regs, hw: Regs, r: Reg): Value
    requires Sane(c)
  {
    if IsScrubbed(c, r) then ResetOpt(saved, hw, r)
    else if r == Cr2 || (c.perfmon && r == PERF_GLOBAL_STATUS) then 0
    else if r == DS_AREA then WriteOpt(Get(hw, r), host.dsArea, Get(saved, r))
    else if r == TSX_CTRL then ScrubbedTsx(c, host, hw)
    else Get(hw, r)
  }

  function ScrubbedTsx(c: Config, host: HostState, hw: Regs): Value {
    if c.tsx then 0
    else if c.hleOrRtm && c.archTsxCtrl then WriteOpt(Get(hw, TSX_CTRL), host.tsxCtrl, TSX_CTRL_DISABLE)
    else Get(hw, TSX_CTRL)
  }

  // The three stages of the reset.
  function BasicValue(xfd: bool, host: HostState, saved: Regs, hw: Regs, r: Reg): Value {
    if r == Cr2 then 0
    else if r == DS_AREA then WriteOpt(Get(hw, r), host.dsArea, Get(saved, r))
    else if IsDebugReg(r) || (xfd && r in {XFD, XFD_ERROR}) then ResetOpt(saved, hw, r)
    else Get(hw, r)
  }

  function MonitoringValue(c: Config, saved: Regs, hw: Regs, r: Reg): Value
    requires Sane(c)
  {
    if c.perfmon && IsCounter(c, r) then ResetOpt(saved, hw, r)
    else if c.perfmon && r == PERF_GLOBAL_STATUS then 0
    else Get(hw, r)
  }

  function LateValue(c: Config, host: HostState, saved: Regs, hw: Regs, r: Reg): Value {
    if IsSyscallMsr(r) then ResetOpt(saved, hw, r)
    else if r == TSX_CTRL then ScrubbedTsx(c, host, hw)
    else Get(hw, r)
  }

  lemma StagesScrub(c: Config, host: HostState, saved: Regs, hw0: Regs, hw1: Regs, hw2: Regs, r: Reg)
    requires Sane(c)
    requires Get(hw1, r) == BasicValue(c.xfd, host, saved, hw0, r)
    requires Get(hw2, r) == MonitoringValue(c, saved, hw1, r)
    ensures LateValue(c, host, saved, hw2, r) == ScrubbedValue(c, host, saved, hw0, r)
  {
  }

  /** The reset as meant: every register written, no matter what it holds. */
  function PlainScrubbedValue(c: Config, host: HostState, hw: Regs, r: Reg): Value
    requires Sane(c)
  {
    if IsScrubbed(c, r) then ResetOf(r)
    else if r == Cr2 || (c.perfmon && r == PERF_GLOBAL_STATUS) then 0
    else if r == DS_AREA then host.dsArea
    else if r == TSX_CTRL && c.tsx then 0
    else if r == TSX_CTRL && c.hleOrRtm && c.archTsxCtrl then host.tsxCtrl
    else Get(hw, r)
  }

  /** What the host finds then, by number. */
  ghost predicate HostFinds(c: Config, hw: Regs)
    requires Sane(c)
  {
    && Get(hw, Cr2) == Get(hw, Dr(0)) == Get(hw, Dr(1)) == Get(hw, Dr(2)) == Get(hw, Dr(3)) == 0
    && Get(hw, Dr(6)) == 0xFFFF_0FF0
    && Get(hw, Msr(0xC000_0081)) == Get(hw, Msr(0xC000_0082)) == Get(hw, Msr(0xC000_0102)) == 0
    && Get(hw, Msr(0xC000_0103)) == Get(hw, Msr(0x1B01)) == 0 && Get(hw, Msr(0xC000_0084)) == 0x20200
    && (c.xfd ==> Get(hw, Msr(0x1C4)) == Get(hw, Msr(0x1C5)) == 0)
    && (c.perfmon ==>
          && (forall a | 0x4C1 <= a <= 0x4C8 || 0x1A6 <= a <= 0x1A7 || a == 0x38E :: Get(hw, Msr(a)) == 0)
          && (forall i | 0 <= i < c.fixedCtrs && c.fcBitmap[i] :: Get(hw, Msr(0x309 + i)) == 0)
          && (c.perfMetrics ==> Get(hw, Msr(0x329)) == 0))
    && (c.tsx ==> Get(hw, Msr(0x122)) == 0)
  }

  lemma PlainScrubSuffices(c: Config, host: HostState, before: Regs, hw: Regs)
    requires Sane(c) && forall r :: Get(hw, r) == PlainScrubbedValue(c, host, before, r)
    ensures HostFinds(c, hw)
  {
    forall a | 0x4C1 <= a <= 0x4C8 || 0x1A6 <= a <= 0x1A7 || a == 0x38E
      ensures c.perfmon ==> Get(hw, Msr(a)) == 0
    {
      ScrubbedByNumber(c, Msr(a));
    }
    forall i | 0 <= i < c.fixedCtrs && c.fcBitmap[i]
      ensures c.perfmon ==> Get(hw, Msr(0x309 + i)) == 0
    {
      ScrubbedByNumber(c, Msr(0x309 + i));
    }
  }

  /** What the guest finds again, by number, if nothing that is saved has changed. */
  ghost predicate GuestFinds(c: Config, left: Regs, hw: Regs)
    requires Sane(c)
  {
    && (forall n <- {0, 1, 2, 3, 6} :: Get(hw, Dr(n)) == Get(left, Dr(n)))
    && Get(hw, Cr2) == Get(left, Cr2) && Get(hw, Xcr0) == Get(left, Xcr0)
    && (forall a <- {0xC000_0081, 0xC000_0082, 0xC000_0084, 0xC000_0102, 0xC000_0103, 0x1B01, 0x600} ::
          Get(hw, Msr(a)) == Get(left, Msr(a)))
    && (c.xfd ==> forall a <- {0x1C4, 0x1C5} :: Get(hw, Msr(a)) == Get(left, Msr(a)))
    && (c.perfmon ==>
          && (forall a | 0x4C1 <= a <= 0x4C8 || 0x186 <= a <= 0x18D || 0x1A6 <= a <= 0x1A7 ::
                Get(hw, Msr(a)) == Get(left, Msr(a)))
          && (forall a <- {0x38D, 0x38E, 0x3F1, 0x3F2, 0x3F6} :: Get(hw, Msr(a)) == Get(left, Msr(a)))
          && (forall i | 0 <= i < c.fixedCtrs && c.fcBitmap[i] :: Get(hw, Msr(0x309 + i)) == Get(left, Msr(0x309 + i)))
          && (c.perfMetrics ==> Get(hw, Msr(0x329)) == Get(left, Msr(0x329)))
          && (c.bigCore ==> Get(hw, Msr(0x3F7)) == Get(left, Msr(0x3F7))))
    && (c.lbr ==> Get(hw, Msr(0x14CF)) == Get(left, Msr(0x14CF)))
    && (c.waitpkg ==> Get(hw, Msr(0xE1)) == Get(left, Msr(0xE1)))
    && (c.tsx ==> Get(hw, Msr(0x122)) == Get(left, Msr(0x122)))
  }

  lemma SavedSuffices(c: Config, left: Regs, hw: Regs)
    requires Sane(c) && forall r | IsSaved(c, r) :: Get(hw, r) == Get(left, r)
    ensures GuestFinds(c, left, hw)
  {
    forall a
      ensures IsSaved(c, Msr(a)) ==> Get(hw, Msr(a)) == Get(left, Msr(a))
    {
    }
    forall i | 0 <= i < c.fixedCtrs && c.fcBitmap[i]
      ensures c.perfmon ==> Get(hw, Msr(0x309 + i)) == Get(left, Msr(0x309 + i))
    {
      assert c.perfmon ==> IsSaved(c, Msr(0x309 + i));
    }
  }

  predicate MustDisableTsx(v: Value) {
    v % 2 == 0 || v / 4 != 0
  }

  /** What TD entry leaves in a register. */
  function EnteredValue(c: Config, saved: Regs, hw: Regs, r: Reg): Value
    requires Sane(c)
  {
    if IsSaved(c, r) then Get(saved, r)
    else if r == TSX_CTRL && c.archTsxCtrl && MustDisableTsx(Get(hw, r)) then TSX_CTRL_DISABLE
    else Get(hw, r)
  }

  /** IA32_TSX_CTRL of a TD without TSX, which cannot write it: still as entry left it. */
  predicate TsxAsEntered(c: Config, host: HostState, hw: Regs) {
    !c.tsx && c.archTsxCtrl ==> Get(hw, TSX_CTRL) in {TSX_CTRL_DISABLE, host.tsxCtrl}
  }

  ghost predicate SavedIsCurrent(c: Config, saved: Regs, hw: Regs)
    requires Sane(c)
  {
    forall r | IsSaved(c, r) :: Get(saved, r) == Get(hw, r)
  }

  /** Skipping writes is invisible after a save: every register ends as if it had been written. */
  lemma ConditionalScrubRefinesPlain(c: Config, host: HostState, saved: Regs, hw: Regs, r: Reg)
    requires Sane(c) && SavedIsCurrent(c, saved, hw) && TsxAsEntered(c, host, hw)
    ensures ScrubbedValue(c, host, saved, hw, r) == PlainScrubbedValue(c, host, hw, r)
  {
    assert IsSaved(c, r) ==> Get(saved, r) == Get(hw, r);
  }

  /** Without a save, as on a dead TD's exit, a register to be reset is reset iff its old saved copy differs
      from the reset value or the register holds that value anyway. */
  lemma StaleScrubCompleteIff(c: Config, host: HostState, saved: Regs, hw: Regs)
    requires Sane(c)
    ensures (forall r | IsScrubbed(c, r) :: ScrubbedValue(c, host, saved, hw, r) == ResetOf(r))
       <==> (forall r | IsScrubbed(c, r) && Get(saved, r) == ResetOf(r) :: Get(hw, r) == ResetOf(r))
  {
    forall r | IsScrubbed(c, r)
      ensures ScrubbedValue(c, host, saved, hw, r) == ResetOf(r)
         <==> (Get(saved, r) == ResetOf(r) ==> Get(hw, r) == ResetOf(r))
    {
    }
  }

  /** It does fail for every guest that entered with a register at its reset value and has since written
      anything else to it: the value is left for the host. */
  lemma StaleScrubCanMiss(c: Config, host: HostState, saved: Regs, hostHw: Regs, entered: Regs, r: Reg, v: Value)
    requires Sane(c) && IsScrubbed(c, r) && v != ResetOf(r)
    requires forall q :: Get(entered, q) == EnteredValue(c, saved, hostHw, q)
    requires Get(entered, r) == ResetOf(r)
    ensures ScrubbedValue(c, host, saved, entered[r := v], r) == v
  {
    assert Get(saved, r) == EnteredValue(c, saved, hostHw, r) == Get(entered, r);
  }

  /** A TD without TSX runs with TSX disabled, if the processor has the register: RTM disabled (bit 0) and no
      other bit than that and bit 1 set. */
  lemma TsxIsOffInGuest(c: Config, saved: Regs, hw: Regs)
    requires Sane(c) && !c.tsx && c.archTsxCtrl
    ensures var v := Get(hw, Msr(0x122));
            EnteredValue(c, saved, hw, Msr(0x122)) == if v in {1, 3} then v else 3
  {
  }

  /** The host's IA32_TSX_CTRL survives a TD entry and exit, from value v, iff one of these holds. */
  predicate HostTsxSurvives(c: Config, v: Value) {
    if c.tsx then v == 0
    else c.hleOrRtm || !c.archTsxCtrl || v in {1, 3}
  }

  lemma HostTsxSurvivesIff(c: Config, host: HostState, entrySaved: Regs, exitSaved: Regs, hostHw: Regs, guestHw: Regs)
    requires Sane(c)
    requires c.archTsxCtrl && !c.tsx ==> host.tsxCtrl == Get(hostHw, TSX_CTRL)
    requires !c.tsx ==> Get(guestHw, TSX_CTRL) == EnteredValue(c, entrySaved, hostHw, TSX_CTRL)
    ensures ScrubbedValue(c, host, exitSaved, guestHw, TSX_CTRL) == Get(hostHw, TSX_CTRL)
       <==> HostTsxSurvives(c, Get(hostHw, TSX_CTRL))
  {
    var v := Get(hostHw, TSX_CTRL);
    assert !MustDisableTsx(TSX_CTRL_DISABLE);
    assert MustDisableTsx(v) ==> v != TSX_CTRL_DISABLE;
    assert !IsScrubbed(c, TSX_CTRL);
    assert !c.tsx ==> !IsSaved(c, TSX_CTRL);
  }

  // ---- Bits ----

  function ClearBits(a: nat, mask: nat): nat {
    if a == 0 then 0 else (if mask % 2 == 1 then 0 else a % 2) + 2 * ClearBits(a / 2, mask / 2)
  }

  function SetBits(a: nat, mask: nat): nat {
    if a == 0 && mask == 0 then 0
    else (if mask % 2 == 1 then 1 else a % 2) + 2 * SetBits(a / 2, mask / 2)
  }

  function Bit(a: nat, k: nat): nat {
    if k == 0 then a % 2 else Bit(a / 2, k - 1)
  }

  /** What the two command MSRs do to a status, bit by bit. */
  lemma {:induction false} BitsAre(a: nat, mask: nat, k: nat)
    ensures Bit(ClearBits(a, mask), k) == if Bit(mask, k) == 1 then 0 else Bit(a, k)
    ensures Bit(SetBits(a, mask), k) == if Bit(mask, k) == 1 then 1 else Bit(a, k)
  {
    var cleared := if mask % 2 == 1 then 0 else a % 2;
    var set1 := if mask % 2 == 1 then 1 else a % 2;
    HalfOf(cleared, ClearBits(a / 2, mask / 2));
    HalfOf(set1, SetBits(a / 2, mask / 2));
    assert ClearBits(a, mask) == cleared + 2 * ClearBits(a / 2, mask / 2);
    assert SetBits(a, mask) == set1 + 2 * SetBits(a / 2, mask / 2);
    if k > 0 {
      BitsAre(a / 2, mask / 2, k - 1);
    }
  }

  lemma HalfOf(bit: nat, rest: nat)
    requires bit < 2
    ensures (bit + 2 * rest) % 2 == bit && (bit + 2 * rest) / 2 == rest
  {
  }

  /** Clearing every bit that is set and then setting the wanted ones leaves exactly the wanted ones. */
  lemma {:induction false} ClearThenSet(a: nat, b: nat)
    ensures ClearBits(a, a) == 0 && SetBits(0, b) == b
    decreases a + b
  {
    if a != 0 || b != 0 {
      ClearThenSet(a / 2, b / 2);
    }
  }

  // ---- The code ----

  class LpState {
    const tdcs: Config
    // vp_ctx: copies usable without touching the TD's memory
    var vpXfd: bool
    var vpPerfmon: bool
    // the processor's registers, the TDVPS save area, and the host's saved values
    var hw: Regs
    var tdvps: Regs
    var host: HostState

    constructor (c: Config)
      requires Sane(c)
      ensures tdcs == c && hw == map[] && tdvps == map[]
    {
      tdcs, vpXfd, vpPerfmon, hw, tdvps, host := c, false, false, map[], map[], HostState(0, 0);
    }

    function VpConfig(): (c: Config)
      requires Sane(tdcs)
      reads this
      ensures Sane(c) && c.xfd == vpXfd && c.perfmon == vpPerfmon
      ensures (vpXfd == tdcs.xfd && vpPerfmon == tdcs.perfmon ==> c == tdcs)
    {
      tdcs.(xfd := vpXfd, perfmon := vpPerfmon)
    }

    // ---- saving ----

    method SaveReg(r: Reg)
      modifies this`tdvps
      ensures forall q :: Get(tdvps, q) == if q == r then Get(hw, r) else Get(old(tdvps), q)
    {
      tdvps := tdvps[r := Get(hw, r)];
    }

    method SaveFixedCtrs()
      requires Sane(tdcs)
      modifies this`tdvps
      ensures forall r :: Get(tdvps, r) == if IsFixedCtr(tdcs, r) then Get(hw, r) else Get(old(tdvps), r)
    {
      for i := 0 to tdcs.fixedCtrs
        invariant forall r :: Get(tdvps, r) == if IsFixedCtr(tdcs, r) && r.addr < FIXED_CTR0 + i then Get(hw, r)
                                               else Get(old(tdvps), r)
      {
        if tdcs.fcBitmap[i] {
          SaveReg(Msr(FIXED_CTR0 + i));
        }
      }
    }

    method SavePmcs()
      modifies this`tdvps
      ensures forall r :: Get(tdvps, r) ==
                if IsArrayMsr(r, A_PMC0, NUM_PMC) || IsArrayMsr(r, PERFEVTSEL0, NUM_PMC) then Get(hw, r)
                else Get(old(tdvps), r)
    {
      for i := 0 to NUM_PMC
        invariant forall r :: Get(tdvps, r) == if IsArrayMsr(r, A_PMC0, i) || IsArrayMsr(r, PERFEVTSEL0, i)
                                               then Get(hw, r) else Get(old(tdvps), r)
      {
        SaveReg(Msr(A_PMC0 + i));
        SaveReg(Msr(PERFEVTSEL0 + i));
      }
    }

    method SaveOffcore()
      modifies this`tdvps
      ensures forall r :: Get(tdvps, r) == if IsArrayMsr(r, OFFCORE_RSP0, 2) then Get(hw, r) else Get(old(tdvps), r)
    {
      for i := 0 to 2
        invariant forall r :: Get(tdvps, r) == if IsArrayMsr(r, OFFCORE_RSP0, i) then Get(hw, r) else Get(old(tdvps), r)
      {
        SaveReg(Msr(OFFCORE_RSP0 + i));
      }
    }

    method SavePebs()
      modifies this`tdvps
      ensures forall r :: Get(tdvps, r) == if IsPebs(tdcs, r) then Get(hw, r) else Get(old(tdvps), r)
    {
      SaveReg(PEBS_ENABLE);
      SaveReg(PEBS_DATA_CFG);
      SaveReg(PEBS_LD_LAT);
      if tdcs.bigCore {
        SaveReg(PEBS_FRONTEND);
      }
    }

    method SavePerfmon()
      requires Sane(tdcs)
      modifies this`tdvps
      ensures forall r :: Get(tdvps, r) ==
                if IsCounter(tdcs, r) || IsPerfControl(tdcs, r) then Get(hw, r) else Get(old(tdvps), r)
    {
      SaveReg(FIXED_CTR_CTRL);
      SaveFixedCtrs();
      SavePmcs();
      SaveOffcore();
      SaveReg(PERF_GLOBAL_STATUS);
      if tdcs.perfMetrics {
        SaveReg(PERF_METRICS);
      }
      SavePebs();
    }

    method SaveDebugState()
      modifies this`tdvps
      ensures forall r :: Get(tdvps, r) == if IsDebugReg(r) then Get(hw, r) else Get(old(tdvps), r)
    {
      SaveReg(Dr(0));
      SaveReg(Dr(1));
      SaveReg(Dr(2));
      SaveReg(Dr(3));
      SaveReg(Dr(6));
    }

    method SaveSyscallMsrs()
      modifies this`tdvps
      ensures forall r :: Get(tdvps, r) == if IsSyscallMsr(r) then Get(hw, r) else Get(old(tdvps), r)
    {
      SaveReg(UARCH_MISC_CTL);
      SaveReg(STAR);
      SaveReg(LSTAR);
      SaveReg(FMASK);
      SaveReg(KERNEL_GS_BASE);
      SaveReg(TSC_AUX);
    }

    method SaveOptionalMsrs()
      modifies this`tdvps
      ensures forall r :: Get(tdvps, r) == if IsOptionalMsr(tdcs, r) then Get(hw, r) else Get(old(tdvps), r)
    {
      if tdcs.lbr {
        SaveReg(LBR_DEPTH);
      }
      if tdcs.waitpkg {
        SaveReg(UMWAIT_CONTROL);
      }
      if tdcs.tsx {
        SaveReg(TSX_CTRL);
      }
    }

    /** save_guest_td_state_before_td_exit: exactly the saved registers are copied. */
    method SaveGuestState()
      requires Sane(tdcs)
      modifies this`tdvps
      ensures forall r :: Get(tdvps, r) == if IsSaved(tdcs, r) then Get(hw, r) else Get(old(tdvps), r)
    {
      if tdcs.xfd {
        SaveReg(XFD);
        SaveReg(XFD_ERROR);
      }
      SaveReg(Cr2);
      SaveReg(Xcr0);
      SaveDebugState();
      SaveReg(DS_AREA);
      if tdcs.perfmon {
        SavePerfmon();
      }
      SaveOptionalMsrs();
      SaveSyscallMsrs();
    }

    // ---- resetting ----

    /** init_msr_opt, and each step of init_all_dr_opt. */
    method InitOpt(r: Reg)
      modifies this`hw
      ensures forall q :: Get(hw, q) == if q == r then ResetOpt(tdvps, old(hw), q) else Get(old(hw), q)
    {
      if Get(tdvps, r) != ResetOf(r) {
        hw := hw[r := ResetOf(r)];
      }
    }

    method WrmsrOpt(r: Reg, wanted: Value, believed: Value)
      modifies this`hw
      ensures forall q :: Get(hw, q) == if q == r then WriteOpt(Get(old(hw), r), wanted, believed) else Get(old(hw), q)
    {
      if wanted != believed {
        hw := hw[r := wanted];
      }
    }

    method InitDebugRegs()
      modifies this`hw
      ensures forall r :: Get(hw, r) == if IsDebugReg(r) then ResetOpt(tdvps, old(hw), r) else Get(old(hw), r)
    {
      InitOpt(Dr(0));
      InitOpt(Dr(1));
      InitOpt(Dr(2));
      InitOpt(Dr(3));
      InitOpt(Dr(6));
    }

    method InitFixedCtrs()
      requires Sane(tdcs)
      modifies this`hw
      ensures forall r :: Get(hw, r) == if IsFixedCtr(tdcs, r) then ResetOpt(tdvps, old(hw), r) else Get(old(hw), r)
    {
      for i := 0 to tdcs.fixedCtrs
        invariant forall r :: Get(hw, r) == if IsFixedCtr(tdcs, r) && r.addr < FIXED_CTR0 + i
                                            then ResetOpt(tdvps, old(hw), r) else Get(old(hw), r)
      {
        if tdcs.fcBitmap[i] {
          InitOpt(Msr(FIXED_CTR0 + i));
        }
      }
    }

    method InitArrayMsrs(first: nat, count: nat)
      modifies this`hw
      ensures forall r :: Get(hw, r) == if IsArrayMsr(r, first, count) then ResetOpt(tdvps, old(hw), r)
                                        else Get(old(hw), r)
    {
      for i := 0 to count
        invariant forall r :: Get(hw, r) == if IsArrayMsr(r, first, i) then ResetOpt(tdvps, old(hw), r)
                                            else Get(old(hw), r)
      {
        InitOpt(Msr(first + i));
      }
    }

    /** IA32_PERF_GLOBAL_STATUS is not written itself: one command MSR clears bits in it, another sets them. */
    method WriteGlobalStatusReset(command: Value)
      modifies this`hw
      ensures hw == old(hw)[PERF_GLOBAL_STATUS := ClearBits(Get(old(hw), PERF_GLOBAL_STATUS), command)]
    {
      hw := hw[PERF_GLOBAL_STATUS := ClearBits(Get(hw, PERF_GLOBAL_STATUS), command)];
    }

    method WriteGlobalStatusSet(command: Value)
      modifies this`hw
      ensures hw == old(hw)[PERF_GLOBAL_STATUS := SetBits(Get(old(hw), PERF_GLOBAL_STATUS), command)]
    {
      hw := hw[PERF_GLOBAL_STATUS := SetBits(Get(hw, PERF_GLOBAL_STATUS), command)];
    }

    method ClearGlobalStatus()
      modifies this`hw
      ensures forall r :: Get(hw, r) == if r == PERF_GLOBAL_STATUS then 0 else Get(old(hw), r)
    {
      var status := Get(hw, PERF_GLOBAL_STATUS);
      ClearThenSet(status, 0);
      WriteGlobalStatusReset(status);
    }

    method InitCounterArrays()
      requires Sane(tdcs)
      modifies this`hw
      ensures forall r :: Get(hw, r) == if IsCounterArray(tdcs, r) then ResetOpt(tdvps, old(hw), r) else Get(old(hw), r)
    {
      InitFixedCtrs();
      InitArrayMsrs(A_PMC0, NUM_PMC);
      InitArrayMsrs(OFFCORE_RSP0, 2);
    }

    method InitCounters()
      requires Sane(tdcs)
      modifies this`hw
      ensures forall r :: Get(hw, r) == if IsCounter(tdcs, r) then ResetOpt(tdvps, old(hw), r)
                                        else if r == PERF_GLOBAL_STATUS then 0 else Get(old(hw), r)
    {
      InitCounterArrays();
      ClearGlobalStatus();
      if tdcs.perfMetrics {
        InitOpt(PERF_METRICS);
      }
    }

    method InitSyscallMsrs()
      modifies this`hw
      ensures forall r :: Get(hw, r) == if IsSyscallMsr(r) then ResetOpt(tdvps, old(hw), r) else Get(old(hw), r)
    {
      InitOpt(UARCH_MISC_CTL);
      InitOpt(TSC_AUX);
      InitOpt(STAR);
      InitOpt(LSTAR);
      InitOpt(FMASK);
      InitOpt(KERNEL_GS_BASE);
    }

    method InitXfd()
      modifies this`hw
      ensures forall r :: Get(hw, r) == if vpXfd && r in {XFD, XFD_ERROR} then ResetOpt(tdvps, old(hw), r)
                                        else Get(old(hw), r)
    {
      if vpXfd {
        InitOpt(XFD);
        InitOpt(XFD_ERROR);
      }
    }

    method InitBasics()
      modifies this`hw
      ensures forall r :: Get(hw, r) == BasicValue(vpXfd, host, tdvps, old(hw), r)
    {
      hw := hw[Cr2 := 0];
      InitDebugRegs();
      WrmsrOpt(DS_AREA, host.dsArea, Get(tdvps, DS_AREA));
      InitXfd();
    }

    method InitTsx()
      modifies this`hw
      ensures forall r :: Get(hw, r) == if r == TSX_CTRL then ScrubbedTsx(tdcs, host, old(hw)) else Get(old(hw), r)
    {
      if tdcs.tsx {
        hw := hw[TSX_CTRL := 0];
      } else if tdcs.hleOrRtm && tdcs.archTsxCtrl {
        WrmsrOpt(TSX_CTRL, host.tsxCtrl, TSX_CTRL_DISABLE);
      }
    }

    method InitSyscallAndTsx()
      modifies this`hw
      ensures forall r :: Get(hw, r) == LateValue(tdcs, host, tdvps, old(hw), r)
    {
      InitSyscallMsrs();
      InitTsx();
    }

    method InitMonitoring()
      requires Sane(tdcs)
      modifies this`hw
      ensures forall r :: Get(hw, r) == MonitoringValue(VpConfig(), tdvps, old(hw), r)
    {
      if vpPerfmon {
        InitCounters();
      }
    }

    /** The processor-state part of load_vmm_state_before_td_exit. */
    method LoadVmmState()
      requires Sane(tdcs)
      modifies this`hw
      ensures forall r :: Get(hw, r) == ScrubbedValue(VpConfig(), host, tdvps, old(hw), r)
    {
      InitBasics();
      ghost var hw1 := hw;
      InitMonitoring();
      ghost var hw2 := hw;
      InitSyscallAndTsx();
      forall r
        ensures Get(hw, r) == ScrubbedValue(VpConfig(), host, tdvps, old(hw), r)
      {
        StagesScrub(VpConfig(), host, tdvps, old(hw), hw1, hw2, r);
      }
    }

    // ---- entering ----

    method RestoreReg(r: Reg)
      modifies this`hw
      ensures forall q :: Get(hw, q) == if q == r then Get(tdvps, r) else Get(old(hw), q)
    {
      hw := hw[r := Get(tdvps, r)];
    }

    method RestoreDebugState()
      modifies this`hw
      ensures forall r :: Get(hw, r) == if IsDebugReg(r) then Get(tdvps, r) else Get(old(hw), r)
    {
      RestoreReg(Dr(0));
      RestoreReg(Dr(1));
      RestoreReg(Dr(2));
      RestoreReg(Dr(3));
      RestoreReg(Dr(6));
    }

    method RestoreXfd()
      modifies this`hw
      ensures forall r :: Get(hw, r) == if tdcs.xfd && r in {XFD, XFD_ERROR} then Get(tdvps, r) else Get(old(hw), r)
    {
      if tdcs.xfd {
        RestoreReg(XFD);
        RestoreReg(XFD_ERROR);
      }
    }

    method RestoreSyscallMsrs()
      modifies this`hw
      ensures forall r :: Get(hw, r) == if IsSyscallMsr(r) then Get(tdvps, r) else Get(old(hw), r)
    {
      RestoreReg(UARCH_MISC_CTL);
      RestoreReg(TSC_AUX);
      RestoreReg(STAR);
      RestoreReg(LSTAR);
      RestoreReg(FMASK);
      RestoreReg(KERNEL_GS_BASE);
    }

    method RestoreBasics()
      modifies this`hw
      ensures forall r :: Get(hw, r) == if IsDebugReg(r) || IsSyscallMsr(r) || r in {Cr2, DS_AREA} then Get(tdvps, r)
                                        else Get(old(hw), r)
    {
      RestoreReg(Cr2);
      RestoreDebugState();
      RestoreSyscallMsrs();
      RestoreReg(DS_AREA);
    }

    method RestoreFixedCtrs()
      requires Sane(tdcs)
      modifies this`hw
      ensures forall r :: Get(hw, r) == if IsFixedCtr(tdcs, r) then Get(tdvps, r) else Get(old(hw), r)
    {
      for i := 0 to tdcs.fixedCtrs
        invariant forall r :: Get(hw, r) == if IsFixedCtr(tdcs, r) && r.addr < FIXED_CTR0 + i then Get(tdvps, r)
                                            else Get(old(hw), r)
      {
        if tdcs.fcBitmap[i] {
          RestoreReg(Msr(FIXED_CTR0 + i));
        }
      }
    }

    method RestoreArrayMsrs(first: nat, count: nat)
      modifies this`hw
      ensures forall r :: Get(hw, r) == if IsArrayMsr(r, first, count) then Get(tdvps, r) else Get(old(hw), r)
    {
      for i := 0 to count
        invariant forall r :: Get(hw, r) == if IsArrayMsr(r, first, i) then Get(tdvps, r) else Get(old(hw), r)
      {
        RestoreReg(Msr(first + i));
      }
    }

    /** ia32_perf_global_status_write: reset every bit that is set, then set the saved ones. */
    method RestoreGlobalStatus()
      modifies this`hw
      ensures forall r :: Get(hw, r) == Get(if r == PERF_GLOBAL_STATUS then tdvps else old(hw), r)
    {
      var status := Get(tdvps, PERF_GLOBAL_STATUS);
      ClearGlobalStatus();
      ClearThenSet(0, status);
      WriteGlobalStatusSet(status);
    }

    method RestorePebs()
      modifies this`hw
      ensures forall r :: Get(hw, r) == if IsPebs(tdcs, r) then Get(tdvps, r) else Get(old(hw), r)
    {
      RestoreReg(PEBS_ENABLE);
      RestoreReg(PEBS_DATA_CFG);
      RestoreReg(PEBS_LD_LAT);
      if tdcs.bigCore {
        RestoreReg(PEBS_FRONTEND);
      }
    }

    method RestorePerfmon()
      requires Sane(tdcs)
      modifies this`hw
      ensures forall r :: Get(hw, r) ==
                if IsCounter(tdcs, r) || IsPerfControl(tdcs, r) then Get(tdvps, r) else Get(old(hw), r)
    {
      RestoreReg(FIXED_CTR_CTRL);
      RestoreFixedCtrs();
      RestoreArrayMsrs(A_PMC0, NUM_PMC);
      RestoreArrayMsrs(PERFEVTSEL0, NUM_PMC);
      RestoreArrayMsrs(OFFCORE_RSP0, 2);
      RestoreGlobalStatus();
      if tdcs.perfMetrics {
        RestoreReg(PERF_METRICS);
      }
      RestorePebs();
    }

    /** IA32_TSX_CTRL of a TD without TSX: remember the host's value and make sure TSX is off. */
    method DisableTsx()
      requires Sane(tdcs) && !tdcs.tsx
      modifies this`hw, this`host
      ensures forall r :: Get(hw, r) == if r == TSX_CTRL && tdcs.archTsxCtrl && MustDisableTsx(Get(old(hw), r))
                                        then TSX_CTRL_DISABLE else Get(old(hw), r)
      ensures host == if tdcs.archTsxCtrl then old(host).(tsxCtrl := Get(old(hw), TSX_CTRL)) else old(host)
    {
      if tdcs.archTsxCtrl {
        host := host.(tsxCtrl := Get(hw, TSX_CTRL));
        if MustDisableTsx(Get(hw, TSX_CTRL)) {
          hw := hw[TSX_CTRL := TSX_CTRL_DISABLE];
        }
      }
    }

    method RestoreOptionalMsrs()
      requires Sane(tdcs)
      modifies this`hw, this`host
      ensures forall r :: Get(hw, r) ==
                if IsOptionalMsr(tdcs, r) then Get(tdvps, r)
                else if r == TSX_CTRL && tdcs.archTsxCtrl && MustDisableTsx(Get(old(hw), r)) then TSX_CTRL_DISABLE
                else Get(old(hw), r)
      ensures host.dsArea == old(host).dsArea
      ensures !tdcs.tsx && tdcs.archTsxCtrl ==> host.tsxCtrl == Get(old(hw), TSX_CTRL)
    {
      if tdcs.lbr {
        RestoreReg(LBR_DEPTH);
      }
      if tdcs.waitpkg {
        RestoreReg(UMWAIT_CONTROL);
      }
      if tdcs.tsx {
        RestoreReg(TSX_CTRL);
      } else {
        DisableTsx();
      }
    }

    /** The processor state at TD entry, with no register value refused by the processor. */
    method TdEntry()
      requires Sane(tdcs)
      modifies this`hw, this`host, this`vpXfd, this`vpPerfmon
      ensures forall r :: Get(hw, r) == EnteredValue(tdcs, tdvps, old(hw), r)
      ensures VpConfig() == tdcs && host.dsArea == Get(old(hw), DS_AREA)
      ensures !tdcs.tsx && tdcs.archTsxCtrl ==> host.tsxCtrl == Get(old(hw), TSX_CTRL)
    {
      host := host.(dsArea := Get(hw, DS_AREA));
      vpPerfmon := tdcs.perfmon;
      vpXfd := tdcs.xfd;
      RestoreBasics();
      if tdcs.perfmon {
        RestorePerfmon();
      }
      RestoreOptionalMsrs();
      RestoreReg(Xcr0);
      RestoreXfd();
    }

    /** The processor state at TD exit; a dead TD's save area is neither written nor brought up to date. */
    method TdExit(isTdDead: bool)
      requires Sane(tdcs)
      modifies this`hw, this`tdvps
      ensures isTdDead ==> tdvps == old(tdvps)
      ensures !isTdDead ==>
                forall r :: Get(tdvps, r) == if IsSaved(tdcs, r) then Get(old(hw), r) else Get(old(tdvps), r)
      ensures forall r :: Get(hw, r) == ScrubbedValue(VpConfig(), host, tdvps, old(hw), r)
      ensures !isTdDead && VpConfig() == tdcs && TsxAsEntered(tdcs, host, old(hw)) ==>
                (forall r :: Get(hw, r) == PlainScrubbedValue(tdcs, host, old(hw), r)) && HostFinds(tdcs, hw)
    {
      if !isTdDead {
        SaveGuestState();
      }
      LoadVmmState();
      if !isTdDead && VpConfig() == tdcs && TsxAsEntered(tdcs, host, old(hw)) {
        forall r
          ensures Get(hw, r) == PlainScrubbedValue(tdcs, host, old(hw), r)
        {
          ConditionalScrubRefinesPlain(tdcs, host, tdvps, old(hw), r);
        }
        PlainScrubSuffices(tdcs, host, old(hw), hw);
      }
    }

    // A live TD's exit, for the host.
    method LeaveLive()
      requires Sane(tdcs) && VpConfig() == tdcs && TsxAsEntered(tdcs, host, hw)
      modifies this`hw, this`tdvps
      ensures HostFinds(tdcs, hw) && Get(hw, DS_AREA) == host.dsArea
      ensures Get(hw, TSX_CTRL) == ScrubbedValue(tdcs, host, tdvps, old(hw), TSX_CTRL)
    {
      TdExit(false);
    }

    /** A guest cannot tell that it was away: whatever the host does with the registers between a live exit
        and the next entry, every saved register is back. */
    method GuestAcrossExit(byHost: Regs)
      requires Sane(tdcs)
      modifies this`hw, this`tdvps, this`host, this`vpXfd, this`vpPerfmon
      ensures forall r | IsSaved(tdcs, r) :: Get(hw, r) == Get(old(hw), r)
      ensures GuestFinds(tdcs, old(hw), hw)
    {
      TdExit(false);
      hw := byHost;
      TdEntry();
      SavedSuffices(tdcs, old(hw), hw);
    }

    /** A TD that is entered, writes one register, and dies before its next exit: the host gets the value,
        although every register it finds there should be reset. */
    method GuestValueAfterDeath(r: Reg, v: Value)
      requires Sane(tdcs) && IsScrubbed(tdcs, r) && Get(tdvps, r) == ResetOf(r) != v
      modifies this`hw, this`tdvps, this`host, this`vpXfd, this`vpPerfmon
      ensures Get(hw, r) == v
    {
      TdEntry();
      hw := hw[r := v];
      TdExit(true);
    }

    /** What the host finds after running a TD that did `byGuest` to the registers: nothing of the guest's in
        any register to be reset, its own IA32_DS_AREA, and its own IA32_TSX_CTRL under the exact condition. */
    method HostAcrossRun(byGuest: Regs)
      requires Sane(tdcs)
      requires !tdcs.tsx ==> Get(byGuest, TSX_CTRL) == EnteredValue(tdcs, tdvps, hw, TSX_CTRL)
      modifies this`hw, this`tdvps, this`host, this`vpXfd, this`vpPerfmon
      ensures HostFinds(tdcs, hw)
      ensures Get(hw, Msr(0x600)) == Get(old(hw), Msr(0x600))
      ensures Get(hw, Msr(0x122)) == Get(old(hw), Msr(0x122)) <==> HostTsxSurvives(tdcs, Get(old(hw), Msr(0x122)))
    {
      ghost var entrySaved := tdvps;
      TdEntry();
      hw := byGuest;
      assert TsxAsEntered(tdcs, host, hw);
      LeaveLive();
      HostTsxSurvivesIff(tdcs, host, entrySaved, tdvps, old(hw), byGuest);
    }
  }
}
