/** What the flows of one vCPU work on, and what each comes to: its outcome and the whole state it leaves, as
    functions of the state it finds and of what the processor, the handlers and the host decide.

    The methods of Vcpu do step by step what the module's C functions do, and are proved to leave exactly this.
    What these functions mean is proved in VcpuLaws, of single flows and of runs. */
module VcpuSpec {
  import opened Words
  import opened NestedCall
  import Stepping
  import Epoch

  const MAX_VMS: nat := 4

  type VmId = n: nat | n < 4
  type Flags = s: seq<bool> | |s| == 4 witness [false, false, false, false]
  type Hpas = s: seq<Option<u64>> | |s| == 4 witness [None, None, None, None]
  type Words4 = s: seq<u64> | |s| == 4 witness [0, 0, 0, 0]
  const NONE: Flags := [false, false, false, false]
  const NO_HPAS: Hpas := [None, None, None, None]
  const NO_REGS := Regs(0, 0, 0, 0)
  type Regs4 = s: seq<Regs> | |s| == 4 witness [NO_REGS, NO_REGS, NO_REGS, NO_REGS]

  const ACTIVE_VMCS_NONE: nat := 0xFFFF

  datatype VcpuState = Ready | Active | Disabled

  /** Completion statuses of TD exits. */
  datatype Status =
    | Success | CrossTdFault | BeforeL2Entry | OnL2ToL1 | OnL2VmExit
    | CrossTdTrap | HostPriorityTimeout
    | NonRecoverableVcpu
    | NonRecoverableTd | WrongApicMode | NonAccessible | CorruptedMd

  predicate IsTrap(s: Status) {
    s.CrossTdTrap? || s.HostPriorityTimeout?
  }

  predicate KillsTd(s: Status) {
    s.NonRecoverableTd? || s.WrongApicMode? || s.NonAccessible? || s.CorruptedMd?
  }

  /** Exits by async_tdexit_empty_reason and async_tdexit_cross_td, which report no exit reason. */
  predicate IsQuiet(s: Status) {
    s.BeforeL2Entry? || s.CrossTdFault? || s.CorruptedMd? || IsTrap(s)
  }

  // The vCPU cannot be entered again.
  predicate IsFinal(s: Status) {
    KillsTd(s) || s.NonRecoverableVcpu?
  }

  datatype Refusal = TdFatal | StateIncorrect | OperandInvalid | EarlyError | EpochBusy | SeptBusy | EptViolation

  /** How a flow of the module ends. */
  datatype Outcome =
    | Entered(vm: VmId, resume: bool)            // the VM runs, by VMRESUME or VMLAUNCH
    | TdExit(status: Status, busLock: bool)      // back to the host
    | VmcallTdExit(busLock: bool)                // TDG.VP.VMCALL
    | Refused(why: Refusal)                      // TDH.VP.ENTER fails
    | SanityFailure
    | Halted                                     // FATAL_ERROR

  datatype EntryFailure = GuestState | MachineCheck | Unexpected

  /** What the processor delivers with a VM exit, or with an entry that fails.  `lists` is L1's memory. */
  datatype HwExit = HwExit(gprs: seq<u64>, regs: Regs, interruptStatus: u64, len: u64, lists: Lists,
                           busLock: bool, failed: bool, failure: EntryFailure)

  /** TDG.VP.ENTER's operands, and what its checks find; `listWalk` is where a walk of the Secure EPT would
      find the list. */
  datatype EnterArgs = EnterArgs(vm: VmId, list: u64, listValid: bool, reservedZero: bool, vapicSet: bool,
                                 pendingInterrupt: bool, exitBefore: bool, listWalk: Option<u64>, vapicMapped: bool)

  /** What the handler of a VM exit decides. */
  datatype Handled =
    | Resume(gprs: seq<u64>, advance: bool)             // no advance if an event is injected or delivered
    | Leave(status: Status)                              // async_tdexit_to_vmm
    | LeaveQuietly(status: Status)                       // async_tdexit_empty_reason, async_tdexit_cross_td
    | VmCall(accepted: bool, gprs: seq<u64>)
    | VpEnter(args: EnterArgs, gprs: seq<u64>)          // gprs: if it returns a status
    | ToL1
    | PostedInterrupt(rvi: u8, ppr: u8)                 // for L1: requested vector, and L1's priority
    | Fatal                                              // FATAL_ERROR

  // The checks of TDG.VP.ENTER that end in a completion status.
  predicate EnterChecksPass(a: EnterArgs, numL2Vms: VmId) {
    a.listValid && 0 < a.vm <= numL2Vms && a.reservedZero && a.vapicSet && !a.pendingInterrupt
  }

  // The exit was caused by an instruction, so that it comes with a length.
  predicate HasLength(v: Handled) {
    (v.Resume? && v.advance) || v.VmCall? || v.VpEnter? || v.LeaveQuietly?
  }

  predicate L1Handles(v: Handled) {
    && !v.ToL1? && !v.PostedInterrupt?
    && (v.Leave? ==> !IsQuiet(v.status))
    && (v.LeaveQuietly? ==> IsQuiet(v.status) && !v.status.BeforeL2Entry?)
  }

  predicate L2Handles(v: Handled) {
    !v.LeaveQuietly? && !v.VpEnter? && (v.Leave? ==> !IsQuiet(v.status))
  }

  /** The host's side of TDH.VP.ENTER, and what its checks find. */
  datatype HostArgs = HostArgs(resumeL1: bool, hint: bool, earlyError: bool, epochLockFree: bool,
                               filter: Stepping.FilterResult, privateEptViolation: bool, voe: bool,
                               answer: seq<u64> -> seq<u64>, hinted: seq<u64>, exitInfo: seq<u64>,
                               listWalk: Option<u64>, vapicMapped: bool)

  /** What happens next to a vCPU: a VM exit with what its handlers decide, or an action of the host. */
  datatype Input =
    | VmExit(e: HwExit, filter: Stepping.FilterResult, l1: Handled, l2: Handled, exitOnL2: bool, exitInstead: bool,
             voe: bool, info: seq<u64>)
    | VpEnterByHost(args: HostArgs)
    | VpFlush
    | OtherVcpus(fatal: bool, epoch: u64, refcount: Epoch.Slots)

  // What the processor, the stepping filter and the handlers can deliver.
  predicate Possible(i: Input, lists: Lists) {
    match i
    case VmExit(e, filter, l1, l2, _, _, _, _) =>
      && e.lists.Keys == lists.Keys && L1Handles(l1) && L2Handles(l2)
      && (!e.failed && (HasLength(l1) || HasLength(l2)) ==> e.len != 0)
      && filter in {Stepping.OkContinue, Stepping.OkResumeTd, Stepping.FailTdexitWrongApicMode}
      && (e.failed ==> filter == Stepping.OkContinue)
    case _ => true
  }

  /** The fields of the logical processor's own data that matter here. */
  datatype VpCtx = VpCtx(activeVmcs: nat, currentTdVmId: nat, busLockPreempted: bool)

  /** The fields of the TDVPS; a list's host address is None if NULL_PA. */
  datatype Tdvps = Tdvps(state: VcpuState, lastTdExit: LastExit, routed: Routing, currVm: VmId, vmLaunched: Flags,
                         gprs: seq<u64>, listGpa: Words4, listHpa: Hpas, associated: bool, vcpuEpoch: u64)

  /** The VMs' VMCSes, a sequence for each field; `launched` is the processor's own launch state. */
  datatype Vmcses = Vmcses(launched: Flags, regs: Regs4, interruptStatus: Words4, exitLen: Words4)

  /** The whole state at one moment.  `lists` holds the register lists in L1's memory; `fatal`, `epoch` and
      `refcount` are the TD's; `counted` is history: this vCPU is counted in a slot of `refcount`. */
  datatype Snap = Snap(vp: VpCtx, tdvps: Tdvps, vmcs: Vmcses, lists: Lists, fatal: bool, epoch: u64,
                       refcount: Epoch.Slots, counted: bool)

  /** What a part of a flow comes to: the flow ends, or goes on. */
  datatype Flow = Ends(o: Outcome, s: Snap) | GoesOn(s: Snap)

  // ---- Small changes ----

  function L2Image(t: Tdvps, v: Vmcses): Image {
    Image(t.gprs, v.regs[t.currVm], v.interruptStatus[t.currVm])
  }

  function Advanced(v: Vmcses, vm: VmId): Vmcses {
    v.(regs := v.regs[vm := Advance(v.regs[vm], v.exitLen[vm])])
  }

  function WrittenBack(t: Tdvps, v: Vmcses, lists: Lists): Lists {
    lists[t.listGpa[t.currVm] := L2Image(t, v)]
  }

  function Loaded(v: Vmcses, vm: VmId, i: Image): Vmcses {
    v.(regs := v.regs[vm := i.regs], interruptStatus := v.interruptStatus[vm := i.interruptStatus])
  }

  // A kept translation stays; otherwise a walk that finds the page is kept.
  function Translated(walk: Option<u64>, vm: VmId, t: Tdvps, lists: Lists): Tdvps {
    if t.listHpa[vm].None? && walk.Some? && t.listGpa[vm] in lists then t.(listHpa := t.listHpa[vm := walk]) else t
  }

  predicate Reaches(walk: Option<u64>, vm: VmId, t: Tdvps, lists: Lists) {
    Translated(walk, vm, t, lists).listHpa[vm].Some?
  }

  // A new list address drops the translation of the old one.
  function ListTaken(a: EnterArgs, t: Tdvps): Tdvps {
    if t.listGpa[a.vm] == a.list then t
    else t.(listGpa := t.listGpa[a.vm := a.list], listHpa := t.listHpa[a.vm := None])
  }

  /** L1's guest interrupt status, with the requested vector in the low byte raised to at least `rvi`. */
  function WithRvi(status: u64, rvi: u8): (r: u64)
    ensures r / 256 == status / 256 && r % 256 == if rvi > status % 256 then rvi else status % 256
  {
    if rvi > status % 256 then status - status % 256 + rvi else status
  }

  // The interrupt is of higher priority class than what L1 is doing.
  predicate Delivers(status: u64, rvi: u8, ppr: u8) {
    WithRvi(status, rvi) % 256 / 16 > ppr / 16
  }

  // ---- TD exits ----

  function LastAfter(s: Status, last: LastExit): LastExit {
    if IsFinal(s) then last else if IsTrap(s) then AsyncTrap else AsyncFault
  }

  function StateAfter(s: Status, state: VcpuState): VcpuState {
    if KillsTd(s) then state else if IsFinal(s) then Disabled else Ready
  }

  /** The shared tail of every TD exit: a trap-like exit completes the instruction, a fault-like one puts L2's
      image on its list; then the vCPU is counted out.  A dead TD's exit touches nothing of the TD. */
  function LeftVm(state: VcpuState, last: LastExit, dead: bool, trap: bool, x: Snap): Snap {
    var t := x.tdvps;
    var y := x.(vp := x.vp.(activeVmcs := ACTIVE_VMCS_NONE));
    if dead then y
    else y.(tdvps := t.(state := state, lastTdExit := last),
            lists := if t.currVm != 0 && !trap then WrittenBack(t, x.vmcs, x.lists) else x.lists,
            vmcs := if trap then Advanced(x.vmcs, t.currVm) else x.vmcs,
            refcount := Epoch.CountOut(x.refcount, t.vcpuEpoch), counted := false)
  }

  function Unowed(x: Snap): Snap {
    x.(vp := x.vp.(busLockPreempted := false))
  }

  /** async_tdexit_internal, with a bus lock reported or not. */
  function Left(s: Status, report: bool, x: Snap): Flow {
    var y := Unowed(x).(fatal := x.fatal || KillsTd(s));
    Ends(TdExit(s, report),
         LeftVm(StateAfter(s, x.tdvps.state), LastAfter(s, x.tdvps.lastTdExit), s.NonAccessible?, IsTrap(s), y))
  }

  /** async_tdexit_to_vmm. */
  function LeftToVmm(s: Status, reasonBusLock: bool, x: Snap): Flow {
    Left(s, reasonBusLock || x.vp.busLockPreempted, x)
  }

  /** TDG.VP.VMCALL. */
  function LeftByVmcall(x: Snap): Flow {
    Ends(VmcallTdExit(x.vp.busLockPreempted), LeftVm(Ready, TdVmcall, false, true, Unowed(x)))
  }

  // ---- Returns to the guest ----

  /** tdx_return_to_td. */
  function Returned(resume: bool, x: Snap): Flow {
    Ends(Entered(x.tdvps.currVm, resume), x.(vp := x.vp.(currentTdVmId := x.tdvps.currVm)))
  }

  /** L1 is current, past its TDCALL, with new registers. */
  function AtL1(gprs: seq<u64>, x: Snap): Snap {
    x.(tdvps := x.tdvps.(gprs := gprs, currVm := 0), vp := x.vp.(activeVmcs := 0), vmcs := Advanced(x.vmcs, 0))
  }

  /** An L2-to-L1 exit, or the TD exit that the debugger wants instead. */
  function ToL1Flow(exitInstead: bool, reasonBusLock: bool, info: seq<u64>, x: Snap): Flow {
    if exitInstead then LeftToVmm(OnL2ToL1, reasonBusLock, x)
    else Returned(x.tdvps.vmLaunched[0], AtL1(info, x.(lists := WrittenBack(x.tdvps, x.vmcs, x.lists))))
  }

  // The VM's list has been translated: L2 is current, with the image on its list.
  function AtL2(vm: VmId, x: Snap): Snap {
    if x.tdvps.listGpa[vm] in x.lists then
      var i := x.lists[x.tdvps.listGpa[vm]];
      x.(tdvps := x.tdvps.(currVm := vm, gprs := i.gprs), vmcs := Loaded(x.vmcs, vm, i))
    else x
  }

  function Prepared(a: EnterArgs, x: Snap): Snap {
    x.(tdvps := Translated(a.listWalk, a.vm, ListTaken(a, x.tdvps), x.lists), vp := x.vp.(activeVmcs := a.vm))
  }

  /** TDG.VP.ENTER. */
  function VpEnterFlow(a: EnterArgs, gprs: seq<u64>, n: VmId, x: Snap): Flow {
    if !EnterChecksPass(a, n) then GoesOn(Emulated(gprs, true, x))
    else if a.exitBefore then Left(BeforeL2Entry, false, x)
    else
      var y := Prepared(a, x);
      if y.tdvps.listHpa[a.vm].None? || !a.vapicMapped then LeftToVmm(Success, false, y)
      else Returned(y.tdvps.vmLaunched[a.vm], AtL2(a.vm, y))
  }

  // ---- A VM exit ----

  /** What the processor and the first part of the prologue leave; nothing if the entry failed. */
  function Arrived(e: HwExit, x: Snap): Snap {
    var vm := x.tdvps.currVm;
    if e.failed then x
    else x.(tdvps := x.tdvps.(gprs := e.gprs, vmLaunched := x.tdvps.vmLaunched[vm := true]),
            vmcs := Vmcses(x.vmcs.launched[vm := true], x.vmcs.regs[vm := e.regs],
                           x.vmcs.interruptStatus[vm := e.interruptStatus], x.vmcs.exitLen[vm := e.len]),
            lists := if vm == 0 then e.lists else x.lists)
  }

  // The flag is sticky.
  function Noted(busLock: bool, x: Snap): Snap {
    x.(vp := x.vp.(busLockPreempted := x.vp.busLockPreempted || busLock))
  }

  /** Where both dispatchers may leave before they look at the exit reason. */
  function EarlyFlow(e: HwExit, exitOnL2: bool, filter: Stepping.FilterResult, x: Snap): Flow {
    if x.fatal then LeftToVmm(NonAccessible, e.busLock, x)
    else
      var y := Noted(e.busLock, x);
      if exitOnL2 && x.tdvps.currVm > 0 then LeftToVmm(OnL2VmExit, e.busLock, y)
      else if filter == Stepping.FailTdexitWrongApicMode then LeftToVmm(WrongApicMode, e.busLock, y)
      else GoesOn(y)
  }

  // Emulation for the current VM: new registers, and its instruction completed if `advance`.
  function Emulated(gprs: seq<u64>, advance: bool, x: Snap): Snap {
    x.(tdvps := x.tdvps.(gprs := gprs), vmcs := if advance then Advanced(x.vmcs, x.tdvps.currVm) else x.vmcs)
  }

  function VmcallFlow(accepted: bool, gprs: seq<u64>, x: Snap): Flow {
    if accepted then LeftByVmcall(x) else GoesOn(Emulated(gprs, true, x))
  }

  /** The switch of the L1 dispatcher, and the RIP advance after it. */
  function SwitchL1(e: HwExit, v: Handled, n: VmId, x: Snap): Flow {
    match v
    case Resume(gprs, advance) => GoesOn(Emulated(gprs, advance, x))
    case Leave(status) => LeftToVmm(status, e.busLock, x)
    case LeaveQuietly(status) => Left(status, false, x)
    case VmCall(accepted, gprs) => VmcallFlow(accepted, gprs, x)
    case VpEnter(a, gprs) => VpEnterFlow(a, gprs, n, x)
    case _ => Ends(Halted, x)
  }

  /** The end of the L1 dispatcher; `heldBack` if the filter sent the flow straight there. */
  function FinishL1(heldBack: bool, voe: bool, x: Snap): Flow {
    if !heldBack && x.vp.busLockPreempted then LeftToVmm(Success, false, x)
    else if voe then LeftToVmm(Success, false, x)
    else Returned(true, x)
  }

  function FailedEntryL1(e: HwExit, debug: bool, x: Snap): Flow {
    match e.failure
    case GuestState => LeftToVmm(if debug then Success else NonRecoverableTd, e.busLock, x)
    case MachineCheck => LeftToVmm(NonAccessible, e.busLock, x)
    case Unexpected => Ends(Halted, x)
  }

  /** A VM exit of L1, after the prologue. */
  function LateL1(e: HwExit, filter: Stepping.FilterResult, v: Handled, voe: bool, n: VmId, debug: bool, x: Snap): Flow
  {
    if filter != Stepping.OkContinue then FinishL1(true, voe, x)
    else if e.failed then FailedEntryL1(e, debug, x)
    else
      var f := SwitchL1(e, v, n, x);
      if f.Ends? then f else FinishL1(false, voe, f.s)
  }

  function Notified(rvi: u8, x: Snap): Snap {
    x.(vmcs := x.vmcs.(
         interruptStatus := x.vmcs.interruptStatus[0 := WithRvi(x.vmcs.interruptStatus[0], rvi)]))
  }

  function InterruptFlow(e: HwExit, rvi: u8, ppr: u8, exitInstead: bool, info: seq<u64>, x: Snap): Flow {
    if Delivers(x.vmcs.interruptStatus[0], rvi, ppr) then ToL1Flow(exitInstead, e.busLock, info, Notified(rvi, x))
    else GoesOn(Notified(rvi, x))
  }

  /** The switch of the L2 dispatcher, and the RIP advance after it. */
  function SwitchL2(e: HwExit, v: Handled, exitInstead: bool, info: seq<u64>, x: Snap): Flow {
    match v
    case Resume(gprs, advance) => GoesOn(Emulated(gprs, advance, x))
    case Leave(status) => LeftToVmm(status, e.busLock, x)
    case VmCall(accepted, gprs) => VmcallFlow(accepted, gprs, x)
    case ToL1 => ToL1Flow(exitInstead, e.busLock, info, x)
    case PostedInterrupt(rvi, ppr) => InterruptFlow(e, rvi, ppr, exitInstead, info, x)
    case _ => Ends(Halted, x)
  }

  function FinishL2(heldBack: bool, voe: bool, exitInstead: bool, info: seq<u64>, x: Snap): Flow {
    if !heldBack && x.vp.busLockPreempted then LeftToVmm(Success, false, x)
    else if voe then ToL1Flow(exitInstead, false, info, x)
    else Returned(true, x)
  }

  function FailedEntryL2(e: HwExit, exitInstead: bool, info: seq<u64>, x: Snap): Flow {
    match e.failure
    case GuestState => ToL1Flow(exitInstead, e.busLock, info, x)
    case MachineCheck => LeftToVmm(NonAccessible, e.busLock, x)
    case Unexpected => Ends(Halted, x)
  }

  /** A VM exit of an L2 VM, after the prologue. */
  function LateL2(e: HwExit, filter: Stepping.FilterResult, v: Handled, exitInstead: bool, voe: bool, info: seq<u64>,
                  x: Snap): Flow
  {
    if filter != Stepping.OkContinue then FinishL2(true, voe, exitInstead, info, x)
    else if e.failed then FailedEntryL2(e, exitInstead, info, x)
    else
      var f := SwitchL2(e, v, exitInstead, info, x);
      if f.Ends? then f else FinishL2(false, voe, exitInstead, info, f.s)
  }

  /** A VM exit, of whichever VM runs. */
  function Dispatched(n: VmId, debug: bool, i: Input, x: Snap): Flow
    requires i.VmExit?
  {
    var f := EarlyFlow(i.e, i.exitOnL2, i.filter, Arrived(i.e, x));
    if f.Ends? then f
    else if x.tdvps.currVm == 0 then LateL1(i.e, i.filter, i.l1, i.voe, n, debug, f.s)
    else LateL2(i.e, i.filter, i.l2, i.exitInstead, i.voe, i.info, f.s)
  }

  // ---- TDH.VP.ENTER ----

  /** A refusal; the SEAM VMCS is the active one again. */
  function Refuse(why: Refusal, x: Snap): Flow {
    Ends(Refused(why), x.(vp := x.vp.(activeVmcs := ACTIVE_VMCS_NONE)))
  }

  function Associated(x: Snap): Snap {
    x.(tdvps := x.tdvps.(associated := true), vp := x.vp.(activeVmcs := x.tdvps.currVm))
  }

  function Routed(t: Tdvps): Tdvps {
    if t.routed.NotRouted? then t.(routed := if t.lastTdExit.TdVmcall? then RoutedTdVmcall else RoutedAsync) else t
  }

  /** Counted in, in the TD's current epoch; translations of an earlier epoch go. */
  function CountedIn(newAssociation: bool, x: Snap): Snap {
    var t := x.tdvps;
    x.(tdvps := t.(vcpuEpoch := x.epoch,
                   listHpa := if t.vcpuEpoch != x.epoch && !newAssociation then NO_HPAS else t.listHpa),
       refcount := Epoch.CountIn(x.refcount, x.epoch), counted := true)
  }

  function CountedOut(x: Snap): Snap {
    x.(refcount := Epoch.CountOut(x.refcount, x.tdvps.vcpuEpoch), counted := false)
  }

  /** Refused as if the guest had taken an EPT violation. */
  function RefuseAsFault(x: Snap): Flow {
    Refuse(EptViolation, CountedOut(x.(tdvps := x.tdvps.(state := Ready, lastTdExit := AsyncFault))))
  }

  // L2's TDCALL is completed with the host's answer before L1 is resumed.
  function AnswerTaken(t: Tdvps, f: seq<u64> -> seq<u64>): Tdvps {
    if t.lastTdExit.TdVmcall? then t.(gprs := f(t.gprs), lastTdExit := AsyncFault) else t
  }

  /** L1 is to be resumed: L2's image is written if its TDG.VP.VMCALL has left that to do. */
  function ResumeL1Flow(a: HostArgs, x: Snap): Flow {
    var y := x.(tdvps := AnswerTaken(x.tdvps, a.answer));
    if !x.tdvps.routed.RoutedTdVmcall? then GoesOn(AtL1(a.exitInfo, y.(tdvps := y.tdvps.(routed := NotRouted))))
    else
      var z := y.(tdvps := Translated(a.listWalk, y.tdvps.currVm, y.tdvps, y.lists));
      if z.tdvps.listHpa[z.tdvps.currVm].None? then RefuseAsFault(z)
      else GoesOn(AtL1(a.exitInfo, z.(tdvps := z.tdvps.(routed := NotRouted),
                                      lists := WrittenBack(z.tdvps, z.vmcs, z.lists))))
  }

  /** The host, or an event for L1, asks for L1. */
  predicate AsksForL1(a: HostArgs) {
    a.voe || (a.filter == Stepping.OkNotifyEpsFault && a.privateEptViolation)
  }

  /** An entry while L2 is current. */
  function FromL2Flow(a: HostArgs, x: Snap): Flow {
    var y := if AsksForL1(a) then x.(tdvps := Routed(x.tdvps)) else x;
    if y.tdvps.routed.NotRouted? then GoesOn(y) else ResumeL1Flow(a, y)
  }

  // What the guest finds in its registers: the host's answer to a TDG.VP.VMCALL, or its hint after a trap.
  function Restored(t: Tdvps, a: HostArgs): Tdvps {
    if t.lastTdExit.TdVmcall? then t.(gprs := a.answer(t.gprs))
    else if t.lastTdExit.AsyncTrap? then t.(gprs := a.hinted)
    else t
  }

  function GuestFlow(a: HostArgs, x: Snap): Flow {
    Returned(x.tdvps.vmLaunched[x.tdvps.currVm], x.(tdvps := Restored(x.tdvps, a).(state := Active)))
  }

  /** The VM to be entered is known. */
  function ChosenFlow(a: HostArgs, x: Snap): Flow {
    if a.filter == Stepping.FailTdenterEpfs then RefuseAsFault(x)
    else
      var vm := x.tdvps.currVm;
      var y := if vm == 0 then x else x.(tdvps := Translated(a.listWalk, vm, x.tdvps, x.lists));
      if vm != 0 && (y.tdvps.listHpa[vm].None? || !a.vapicMapped) then RefuseAsFault(y)
      else GuestFlow(a, y)
  }

  /** From the stepping filter on: the vCPU is counted in, and is counted out again if the entry fails. */
  function CountedFlow(a: HostArgs, x: Snap): Flow {
    if a.filter == Stepping.FailSeptTreeBusy then Refuse(SeptBusy, CountedOut(x))
    else if x.tdvps.currVm == 0 then ChosenFlow(a, x)
    else
      var f := FromL2Flow(a, x);
      if f.Ends? then f else ChosenFlow(a, f.s)
  }

  /** The checks of the host's request; a request to resume L1 is noted, and stays. */
  function RequestFlow(a: HostArgs, x: Snap): Flow {
    if a.hint && !x.tdvps.lastTdExit.AsyncTrap? then Refuse(OperandInvalid, x)
    else if a.resumeL1 && x.tdvps.currVm == 0 then Refuse(OperandInvalid, x)
    else
      var y := if a.resumeL1 then x.(tdvps := Routed(x.tdvps)) else x;
      if a.earlyError then Refuse(EarlyError, y) else GoesOn(y)
  }

  /** TDH.VP.ENTER. */
  function EntryFlow(a: HostArgs, x: Snap): Flow {
    if x.fatal then Ends(Refused(TdFatal), x)
    else if !x.tdvps.state.Ready? then Ends(Refused(StateIncorrect), x)
    else
      var f := RequestFlow(a, Associated(x));
      if f.Ends? then f
      else if !a.epochLockFree then Refuse(EpochBusy, f.s)
      else CountedFlow(a, CountedIn(!x.tdvps.associated, f.s))
  }

  /** TDH.VP.FLUSH. */
  function Flushed(x: Snap): Snap {
    x.(tdvps := x.tdvps.(associated := false, vmLaunched := NONE, listHpa := NO_HPAS),
       vmcs := x.vmcs.(launched := NONE))
  }

  // ---- Invariants ----

  /** Nothing is current, launched or translated beyond the TD's VMs; the TDVPS knows what is launched; kept
      translations are of lists that exist. */
  ghost predicate Sane(n: VmId, x: Snap) {
    var t := x.tdvps;
    && t.vmLaunched == x.vmcs.launched && t.currVm <= n
    && (forall k | n < k < MAX_VMS :: !t.vmLaunched[k])
    && (forall k | 0 < k < MAX_VMS && t.listHpa[k].Some? :: k <= n && t.listGpa[k] in x.lists)
    && (t.currVm != 0 ==> x.vmcs.exitLen[0] != 0 && t.listGpa[t.currVm] in x.lists)
  }

  /** The guest runs, or its VM exit is being handled: the active VMCS, and the VM that the assembly stub
      dispatches by, are the current VM's, and its list is translated. */
  ghost predicate InGuest(n: VmId, x: Snap) {
    var t := x.tdvps;
    && Sane(n, x) && x.counted && t.state.Active? && t.associated && t.routed.NotRouted?
    && x.vp.activeVmcs == t.currVm == x.vp.currentTdVmId
    && (t.currVm != 0 ==> t.listHpa[t.currVm].Some?)
  }

  /** The host runs.  The vCPU is still counted only if the TD is dead. */
  ghost predicate AtHost(n: VmId, x: Snap) {
    var t := x.tdvps;
    && Sane(n, x) && x.vp.activeVmcs == ACTIVE_VMCS_NONE && !x.vp.busLockPreempted
    && (x.counted || t.state.Active? ==> x.fatal)
    && (t.currVm == 0 ==> t.routed.NotRouted?) && (t.currVm != 0 && t.state.Ready? ==> !t.lastTdExit.AsyncTrap?)
    && (!t.associated ==> t.vmLaunched == NONE && t.listHpa == NO_HPAS)
  }

  // ---- Runs ----

  predicate InGuestNow(x: Snap) {
    x.vp.activeVmcs != ACTIVE_VMCS_NONE
  }

  function Result(f: Flow): (Option<Outcome>, Snap) {
    match f
    case Ends(o, s) => (Some(o), s)
    case GoesOn(s) => (None, s)
  }

  /** One input of a run: what comes of it, and the state after it.  An input that does not fit, a VM exit at
      the host or a host action while the guest runs, does nothing. */
  function StepOf(n: VmId, debug: bool, i: Input, x: Snap): (Option<Outcome>, Snap) {
    match i
    case OtherVcpus(fatal, epoch, refcount) =>
      (None, x.(fatal := x.fatal || fatal, epoch := epoch, refcount := refcount))
    case VpFlush => (None, if InGuestNow(x) then x else Flushed(x))
    case VpEnterByHost(args) =>
      if InGuestNow(x) then (None, x) else Result(EntryFlow(args, x))
    case VmExit(_, _, _, _, _, _, _, _) =>
      if !InGuestNow(x) || !Possible(i, x.lists) then (None, x)
      else Result(Dispatched(n, debug, i, x))
  }

  function RunOf(n: VmId, debug: bool, x: Snap, inputs: seq<Input>): Snap {
    if inputs == [] then x
    else StepOf(n, debug, inputs[|inputs| - 1], RunOf(n, debug, x, inputs[..|inputs| - 1])).1
  }
}
