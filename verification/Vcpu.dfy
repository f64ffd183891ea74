/** One vCPU on its logical processor: VM exits of L1 and L2, TDG.VP.ENTER, L2-to-L1 exits, TD exits and
    TDH.VP.ENTER.

    The methods do what the module's C functions do to the fields that decide which VM runs and with which
    registers.  Calls that do not return there end in an Outcome here.  What a handler or the host decides
    is input.  Each method leaves exactly the state that its function in VcpuSpec gives; what that means,
    of one flow and of runs, is proved in VcpuLaws and VcpuPages. */
module Vcpu {
  import opened Words
  import opened NestedCall
  import opened VcpuSpec
  import Epoch
  import Stepping
  import VcpuLaws

  class LpVcpu {
    const td: Epoch.TdShared
    const numL2Vms: VmId
    const debug: bool
    var vp: VpCtx
    var tdvps: Tdvps
    var vmcs: Vmcses
    // the register lists in L1's memory, by guest address
    var lists: Lists
    // counted in a slot of the TD's reference counts
    ghost var counted: bool

    constructor (td: Epoch.TdShared, numL2Vms: VmId, debug: bool, lists: Lists, regs: Regs)
      ensures AtHost(numL2Vms, Now()) && VcpuLaws.NoHistory(Now())
      ensures this.td == td && this.numL2Vms == numL2Vms && this.debug == debug && this.lists == lists
    {
      this.td, this.numL2Vms, this.debug := td, numL2Vms, debug;
      vp := VpCtx(ACTIVE_VMCS_NONE, 0, false);
      var noGpa := TWO64 - 1;
      tdvps := Tdvps(Ready, AsyncFault, NotRouted, 0, NONE, [], [noGpa, noGpa, noGpa, noGpa], NO_HPAS, true, 0);
      vmcs := Vmcses(NONE, [regs, regs, regs, regs], [0, 0, 0, 0], [0, 0, 0, 0]);
      this.lists := lists;
      counted := false;
    }

    ghost function Now(): Snap
      reads this, td
    {
      Snap(vp, tdvps, vmcs, lists, td.fatal, td.tdEpoch, td.refcount, counted)
    }

    // A flow that has come to `end` if that is something, and else goes on.
    ghost function Came(end: Option<Outcome>): Flow
      reads this, td
    {
      if end.Some? then Ends(end.value, Now()) else GoesOn(Now())
    }

    // ---- Small helpers of the module ----

    method SetVmVmcsAsActive(vm: VmId)
      modifies this`vp
      ensures vp == old(vp).(activeVmcs := vm)
    {
      if vp.activeVmcs != vm {
        vp := vp.(activeVmcs := vm);
      }
    }

    method SetSeamVmcsAsActive()
      modifies this`vp
      ensures vp == old(vp).(activeVmcs := ACTIVE_VMCS_NONE)
    {
      vp := vp.(activeVmcs := ACTIVE_VMCS_NONE);
    }

    /** Works on whatever VMCS is active.  The precondition is the module's sanity check on the length. */
    method AdvanceGuestRip()
      requires vp.activeVmcs < MAX_VMS && vmcs.exitLen[vp.activeVmcs] != 0
      modifies this`vmcs
      ensures vmcs == Advanced(old(vmcs), vp.activeVmcs)
    {
      var r := vmcs.regs[vp.activeVmcs];
      vmcs := vmcs.(regs := vmcs.regs[vp.activeVmcs := r.(rip := Add64(r.rip, vmcs.exitLen[vp.activeVmcs]))]);
    }

    /** Only for a translated list, through the VM's own VMCS, and while the vCPU is counted. */
    method WriteL2EnterOutputs()
      requires tdvps.currVm != 0 && vp.activeVmcs == tdvps.currVm && tdvps.listHpa[tdvps.currVm].Some? && counted
      modifies this`lists
      ensures lists == WrittenBack(tdvps, vmcs, old(lists))
    {
      var vm := tdvps.currVm;
      lists := lists[tdvps.listGpa[vm] := Image(tdvps.gprs, vmcs.regs[vm], vmcs.interruptStatus[vm])];
    }

    method TdxReturnToTd(launchState: bool) returns (o: Outcome)
      modifies this`vp
      ensures Ends(o, Now()) == Returned(launchState, old(Now()))
    {
      vp := vp.(currentTdVmId := tdvps.currVm);
      o := Entered(tdvps.currVm, launchState);
    }

    // ---- TD exit ----

    /** The shared tail of every TD exit. */
    method TdVmexitToVmm(newState: VcpuState, newLast: LastExit, isTdDead: bool, isTrapExit: bool)
      requires counted
      requires !isTdDead && isTrapExit ==> vp.activeVmcs == tdvps.currVm && vmcs.exitLen[tdvps.currVm] != 0
      requires !isTdDead && !isTrapExit && tdvps.currVm != 0 ==>
                 vp.activeVmcs == tdvps.currVm && tdvps.listHpa[tdvps.currVm].Some?
      modifies this`tdvps, this`lists, this`vmcs, this`vp, this`counted, td`refcount
      ensures Now() == LeftVm(newState, newLast, isTdDead, isTrapExit, old(Now()))
    {
      if !isTdDead {
        tdvps := tdvps.(state := newState, lastTdExit := newLast);
        if tdvps.currVm != 0 && !isTrapExit {
          WriteL2EnterOutputs();
        }
        if isTrapExit {
          AdvanceGuestRip();
        }
        td.CountOutVcpu(tdvps.vcpuEpoch);
        counted := false;
      }
      SetSeamVmcsAsActive();
    }

    /** The switch of async_tdexit_internal. */
    method NoteStatus(status: Status) returns (newState: VcpuState, newLast: LastExit)
      modifies td`fatal
      ensures td.fatal == (old(td.fatal) || KillsTd(status))
      ensures !status.NonAccessible? ==>
                newLast == LastAfter(status, tdvps.lastTdExit) && newState == StateAfter(status, tdvps.state)
    {
      newState, newLast := tdvps.state, tdvps.lastTdExit;
      if KillsTd(status) {
        td.fatal := true;
      } else if status.NonRecoverableVcpu? {
        newState := Disabled;
      } else {
        newState := Ready;
        newLast := if IsTrap(status) then AsyncTrap else AsyncFault;
      }
    }

    // L1 can be left; and so can L2, through its own VMCS and with its list translated.
    ghost predicate CanLeave()
      reads this
    {
      && counted
      && (tdvps.currVm != 0 ==> vp.activeVmcs == tdvps.currVm && tdvps.listHpa[tdvps.currVm].Some?)
    }

    /** async_tdexit_internal. */
    method AsyncTdExit(status: Status, reasonBusLock: bool, checkBusLock: bool) returns (o: Outcome)
      requires CanLeave()
      requires IsTrap(status) ==> vp.activeVmcs == tdvps.currVm && vmcs.exitLen[tdvps.currVm] != 0
      modifies this`tdvps, this`lists, this`vmcs, this`vp, this`counted, td`fatal, td`refcount
      ensures Ends(o, Now())
           == Left(status, reasonBusLock || (checkBusLock && old(vp.busLockPreempted)), old(Now()))
    {
      var busLock := reasonBusLock || (checkBusLock && vp.busLockPreempted);
      vp := vp.(busLockPreempted := false);
      var newState, newLast := NoteStatus(status);
      TdVmexitToVmm(newState, newLast, status.NonAccessible?, IsTrap(status));
      o := TdExit(status, busLock);
    }

    method AsyncTdExitToVmm(status: Status, reasonBusLock: bool) returns (o: Outcome)
      requires CanLeave() && !IsTrap(status)
      modifies this`tdvps, this`lists, this`vmcs, this`vp, this`counted, td`fatal, td`refcount
      ensures Ends(o, Now()) == LeftToVmm(status, reasonBusLock, old(Now()))
    {
      o := AsyncTdExit(status, reasonBusLock, true);
    }

    /** async_tdexit_empty_reason and async_tdexit_cross_td. */
    method AsyncTdExitQuietly(status: Status) returns (o: Outcome)
      requires CanLeave()
      requires IsTrap(status) ==> vp.activeVmcs == tdvps.currVm && vmcs.exitLen[tdvps.currVm] != 0
      modifies this`tdvps, this`lists, this`vmcs, this`vp, this`counted, td`fatal, td`refcount
      ensures Ends(o, Now()) == Left(status, false, old(Now()))
    {
      o := AsyncTdExit(status, false, false);
    }

    /** TDG.VP.VMCALL: a trap-like exit of the current VM, so no list is written yet. */
    method TdgVpVmcall() returns (o: Outcome)
      requires counted && vp.activeVmcs == tdvps.currVm && vmcs.exitLen[tdvps.currVm] != 0
      modifies this`tdvps, this`lists, this`vmcs, this`vp, this`counted, td`refcount
      ensures Ends(o, Now()) == LeftByVmcall(old(Now()))
    {
      var busLock := vp.busLockPreempted;
      vp := vp.(busLockPreempted := false);
      TdVmexitToVmm(Ready, TdVmcall, false, true);
      o := VmcallTdExit(busLock);
    }

    // ---- L2-to-L1 exit ----

    /** td_l2_to_l1_exit: L2's image goes to its list, and L1 continues after its TDG.VP.ENTER; unless the
        debugger asked for a TD exit instead, which leaves L2 current. */
    method L2ToL1Exit(exitInstead: bool, reasonBusLock: bool, exitInfo: seq<u64>) returns (o: Outcome)
      requires CanLeave() && tdvps.currVm != 0 && vmcs.exitLen[0] != 0
      modifies this`tdvps, this`lists, this`vmcs, this`vp, this`counted, td`fatal, td`refcount
      ensures Ends(o, Now()) == ToL1Flow(exitInstead, reasonBusLock, exitInfo, old(Now()))
    {
      if exitInstead {
        o := AsyncTdExitToVmm(OnL2ToL1, reasonBusLock);
        return;
      }
      WriteL2EnterOutputs();
      tdvps := tdvps.(gprs := exitInfo, currVm := 0);
      SetVmVmcsAsActive(tdvps.currVm);
      AdvanceGuestRip();
      o := TdxReturnToTd(tdvps.vmLaunched[tdvps.currVm]);
    }

    // ---- TDG.VP.ENTER ----

    /** translate_l2_enter_guest_state_gpa: a walk of the Secure EPT, unless its result is still kept. */
    method TranslateListGpa(vm: VmId, walk: Option<u64>) returns (ok: bool)
      modifies this`tdvps
      ensures tdvps == Translated(walk, vm, old(tdvps), lists) && ok == tdvps.listHpa[vm].Some?
    {
      if tdvps.listHpa[vm].None? {
        if walk.None? || tdvps.listGpa[vm] !in lists {
          return false;
        }
        tdvps := tdvps.(listHpa := tdvps.listHpa[vm := walk]);
      }
      return true;
    }

    /** translate_gpas; the virtual APIC page is translated likewise. */
    method TranslateGpas(vm: VmId, listWalk: Option<u64>, vapicMapped: bool) returns (ok: bool)
      requires vm != 0 && vp.activeVmcs == vm
      modifies this`tdvps
      ensures tdvps == Translated(listWalk, vm, old(tdvps), lists)
      ensures ok <==> tdvps.listHpa[vm].Some? && vapicMapped
    {
      ok := TranslateListGpa(vm, listWalk);
      ok := ok && vapicMapped;
    }

    /** tdg_vp_enter, with the registers that L1 gets if it returns a status. */
    method TdgVpEnter(a: EnterArgs, gprs: seq<u64>) returns (end: Option<Outcome>)
      requires InGuest(numL2Vms, Now()) && tdvps.currVm == 0 && vmcs.exitLen[0] != 0
      modifies this`tdvps, this`lists, this`vmcs, this`vp, this`counted, td`fatal, td`refcount
      ensures Came(end) == VpEnterFlow(a, gprs, numL2Vms, old(Now()))
    {
      var vm := a.vm;
      if !a.listValid || vm == 0 || vm > numL2Vms || !a.reservedZero || !a.vapicSet || a.pendingInterrupt {
        Handle(gprs, true);
        return None;
      }
      if a.exitBefore {
        var o := AsyncTdExitQuietly(BeforeL2Entry);
        return Some(o);
      }
      var ok := PrepareL2(a);
      if !ok {
        var o := AsyncTdExitToVmm(Success, false);
        return Some(o);
      }
      var o := EnterL2(vm);
      end := Some(o);
    }

    // Takes a new list address, drops the translation of the old one, and translates, with L2's VMCS active.
    method PrepareL2(a: EnterArgs) returns (ok: bool)
      requires InGuest(numL2Vms, Now()) && a.vm != 0
      modifies this`tdvps, this`vp
      ensures Now() == Prepared(a, old(Now())) && (ok <==> tdvps.listHpa[a.vm].Some? && a.vapicMapped)
      ensures ok ==> tdvps.listGpa[a.vm] in lists
    {
      if tdvps.listGpa[a.vm] != a.list {
        tdvps := tdvps.(listGpa := tdvps.listGpa[a.vm := a.list], listHpa := tdvps.listHpa[a.vm := None]);
      }
      SetVmVmcsAsActive(a.vm);
      ok := TranslateGpas(a.vm, a.listWalk, a.vapicMapped);
    }

    // All checks passed.
    method EnterL2(vm: VmId) returns (o: Outcome)
      requires vp.activeVmcs == vm && tdvps.listGpa[vm] in lists
      modifies this`tdvps, this`vmcs, this`vp
      ensures Ends(o, Now()) == Returned(old(tdvps).vmLaunched[vm], AtL2(vm, old(Now())))
    {
      tdvps := tdvps.(currVm := vm);
      ReadL2EnterGuestState();
      o := TdxReturnToTd(tdvps.vmLaunched[vm]);
    }

    /** read_l2_enter_guest_state, into the VM whose VMCS is active. */
    method ReadL2EnterGuestState()
      requires vp.activeVmcs == tdvps.currVm && tdvps.listGpa[tdvps.currVm] in lists
      modifies this`tdvps, this`vmcs
      ensures var i := lists[old(tdvps).listGpa[old(tdvps).currVm]];
              tdvps == old(tdvps).(gprs := i.gprs) && vmcs == Loaded(old(vmcs), tdvps.currVm, i)
    {
      var i := lists[tdvps.listGpa[tdvps.currVm]];
      tdvps := tdvps.(gprs := i.gprs);
      vmcs := vmcs.(regs := vmcs.regs[vp.activeVmcs := i.regs],
                    interruptStatus := vmcs.interruptStatus[vp.activeVmcs := i.interruptStatus]);
    }

    // ---- Dispatching a VM exit ----

    /** The processor and the assembly stub, then the first part of the prologue: after an exit, and only
        then, the VM is marked as launched. */
    method TakeExit(e: HwExit)
      modifies this`tdvps, this`vmcs, this`lists
      ensures Now() == Arrived(e, old(Now()))
    {
      var vm := tdvps.currVm;
      if !e.failed {
        vmcs := Vmcses(vmcs.launched[vm := true], vmcs.regs[vm := e.regs],
                       vmcs.interruptStatus[vm := e.interruptStatus], vmcs.exitLen[vm := e.len]);
        if vm == 0 {
          lists := e.lists;
        }
        tdvps := tdvps.(gprs := e.gprs);
        tdvps := tdvps.(vmLaunched := tdvps.vmLaunched[vm := true]);
      }
    }

    /** tdx_td_l1_l2_dispatcher_common_prologue.  `exitOnL2` is the debugger's request. */
    method Prologue(e: HwExit, exitOnL2: bool, filter: Stepping.FilterResult) returns (end: Option<Outcome>)
      requires CanLeave()
      modifies this`tdvps, this`lists, this`vmcs, this`vp, this`counted, td`fatal, td`refcount
      ensures Came(end) == EarlyFlow(e, exitOnL2, filter, Arrived(e, old(Now())))
    {
      TakeExit(e);
      var o: Outcome;
      if td.fatal {
        o := AsyncTdExitToVmm(NonAccessible, e.busLock);
        return Some(o);
      }
      // sticky: only a TD exit clears it
      if e.busLock {
        vp := vp.(busLockPreempted := true);
      }
      if exitOnL2 && tdvps.currVm > 0 {
        o := AsyncTdExitToVmm(OnL2VmExit, e.busLock);
        return Some(o);
      }
      if filter == Stepping.FailTdexitWrongApicMode {
        o := AsyncTdExitToVmm(WrongApicMode, e.busLock);
        return Some(o);
      }
      return None;
    }

    /** Emulation for the current VM: new registers, and its instruction completed if `advance`. */
    method Handle(gprs: seq<u64>, advance: bool)
      requires vp.activeVmcs == tdvps.currVm && (advance ==> vmcs.exitLen[tdvps.currVm] != 0)
      modifies this`tdvps, this`vmcs
      ensures Now() == Emulated(gprs, advance, old(Now()))
    {
      tdvps := tdvps.(gprs := gprs);
      if advance {
        AdvanceGuestRip();
      }
    }

    // The TDCALL handler for TDG.VP.VMCALL: a TD exit, or a status for the guest.
    method HandleVmcall(accepted: bool, gprs: seq<u64>) returns (end: Option<Outcome>)
      requires counted && vp.activeVmcs == tdvps.currVm && vmcs.exitLen[tdvps.currVm] != 0
      modifies this`tdvps, this`lists, this`vmcs, this`vp, this`counted, td`refcount
      ensures Came(end) == VmcallFlow(accepted, gprs, old(Now()))
    {
      if !accepted {
        Handle(gprs, true);
        return None;
      }
      var o := TdgVpVmcall();
      return Some(o);
    }

    /** bus_lock_exit and bus_lock_exit_l2. */
    method BusLockExit() returns (end: Option<Outcome>)
      requires CanLeave()
      modifies this`tdvps, this`lists, this`vmcs, this`vp, this`counted, td`fatal, td`refcount
      ensures Came(end) == var x := old(Now());
                           if x.vp.busLockPreempted then LeftToVmm(Success, false, x) else GoesOn(x)
    {
      if !vp.busLockPreempted {
        return None;
      }
      var o := AsyncTdExitToVmm(Success, false);
      return Some(o);
    }

    /** The switch of the L1 dispatcher and the RIP advance after it. */
    method HandleL1(e: HwExit, v: Handled) returns (end: Option<Outcome>)
      requires InGuest(numL2Vms, Now()) && tdvps.currVm == 0 && L1Handles(v) && (HasLength(v) ==> vmcs.exitLen[0] != 0)
      modifies this`tdvps, this`lists, this`vmcs, this`vp, this`counted, td`fatal, td`refcount
      ensures Came(end) == SwitchL1(e, v, numL2Vms, old(Now()))
    {
      match v {
        case Resume(gprs, advance) =>
          Handle(gprs, advance);
          end := None;
        case Leave(status) =>
          var o := AsyncTdExitToVmm(status, e.busLock);
          end := Some(o);
        case LeaveQuietly(status) =>
          var o := AsyncTdExitQuietly(status);
          end := Some(o);
        case VmCall(accepted, gprs) =>
          end := HandleVmcall(accepted, gprs);
        case VpEnter(a, gprs) =>
          end := TdgVpEnter(a, gprs);
        case Fatal =>
          end := Some(Halted);
      }
    }

    /** handle_vm_entry_failures: invalid guest state, a machine check, or nothing the module expects. */
    method HandleEntryFailureL1(e: HwExit) returns (o: Outcome)
      requires CanLeave()
      modifies this`tdvps, this`lists, this`vmcs, this`vp, this`counted, td`fatal, td`refcount
      ensures Ends(o, Now()) == FailedEntryL1(e, debug, old(Now()))
    {
      match e.failure
      case GuestState =>
        o := AsyncTdExitToVmm(if debug then Success else NonRecoverableTd, e.busLock);
      case MachineCheck =>
        o := AsyncTdExitToVmm(NonAccessible, e.busLock);
      case Unexpected =>
        o := Halted;
    }

    /** The end of the L1 dispatcher, from the EXIT label if the filter holds the exit back. */
    method FinishL1Exit(heldBack: bool, voeExit: bool) returns (o: Outcome)
      requires CanLeave()
      modifies this`tdvps, this`lists, this`vmcs, this`vp, this`counted, td`fatal, td`refcount
      ensures Ends(o, Now()) == FinishL1(heldBack, voeExit, old(Now()))
    {
      if !heldBack {
        var end := BusLockExit();
        if end.Some? {
          return end.value;
        }
      }
      if voeExit {
        o := AsyncTdExitToVmm(Success, false);
        return;
      }
      o := TdxReturnToTd(true);
    }

    /** tdx_td_dispatcher.  Its sanity check never fails. */
    method TdxTdDispatcher(i: Input) returns (o: Outcome)
      requires InGuest(numL2Vms, Now()) && vp.currentTdVmId == 0 && i.VmExit? && Possible(i, lists)
      modifies this`tdvps, this`lists, this`vmcs, this`vp, this`counted, td`fatal, td`refcount
      ensures Ends(o, Now()) == Dispatched(numL2Vms, debug, i, old(Now()))
    {
      if tdvps.currVm != vp.currentTdVmId || tdvps.currVm != 0 {
        return SanityFailure;
      }
      VcpuLaws.PrologueKeepsInGuest(numL2Vms, i, Now());
      var end := Prologue(i.e, i.exitOnL2, i.filter);
      if end.Some? {
        return end.value;
      }
      if i.filter == Stepping.OkContinue {
        if i.e.failed {
          o := HandleEntryFailureL1(i.e);
          return;
        }
        VcpuLaws.SwitchL1KeepsInGuest(i.e, i.l1, numL2Vms, Now());
        end := HandleL1(i.e, i.l1);
        if end.Some? {
          return end.value;
        }
      }
      o := FinishL1Exit(i.filter != Stepping.OkContinue, i.voe);
    }

    /** The end of handle_l2_posted_interrupt: through L1's VMCS and back.  The requested vector becomes the higher
        of the two, and is delivered iff its class is above what L1 is doing. */
    method NotifyL1(rvi: u8, ppr: u8) returns (deliver: bool)
      requires vp.activeVmcs == tdvps.currVm
      modifies this`vp, this`vmcs
      ensures Now() == Notified(rvi, old(Now()))
      ensures deliver == Delivers(old(vmcs).interruptStatus[0], rvi, ppr)
    {
      SetVmVmcsAsActive(0);
      var status := vmcs.interruptStatus[vp.activeVmcs];
      if rvi > status % 256 {
        status := status - status % 256 + rvi;
        vmcs := vmcs.(interruptStatus := vmcs.interruptStatus[vp.activeVmcs := status]);
      }
      SetVmVmcsAsActive(tdvps.currVm);
      deliver := status % 256 / 16 > ppr / 16;
    }

    /** The dispatcher's case of an interrupt that notifies L1: if it can be delivered, L2 exits to L1. */
    method InterruptExitL2(e: HwExit, rvi: u8, ppr: u8, exitInstead: bool, info: seq<u64>)
      returns (end: Option<Outcome>)
      requires CanLeave() && tdvps.currVm != 0 && vmcs.exitLen[0] != 0
      modifies this`tdvps, this`lists, this`vmcs, this`vp, this`counted, td`fatal, td`refcount
      ensures Came(end) == InterruptFlow(e, rvi, ppr, exitInstead, info, old(Now()))
    {
      var deliver := NotifyL1(rvi, ppr);
      if !deliver {
        return None;
      }
      var o := L2ToL1Exit(exitInstead, e.busLock, info);
      return Some(o);
    }

    /** The switch of the L2 dispatcher and the RIP advance after it. */
    method HandleL2(e: HwExit, v: Handled, exitInstead: bool, info: seq<u64>) returns (end: Option<Outcome>)
      requires CanLeave() && tdvps.currVm != 0 && vmcs.exitLen[0] != 0
      requires L2Handles(v) && (HasLength(v) ==> vmcs.exitLen[tdvps.currVm] != 0)
      modifies this`tdvps, this`lists, this`vmcs, this`vp, this`counted, td`fatal, td`refcount
      ensures Came(end) == SwitchL2(e, v, exitInstead, info, old(Now()))
    {
      match v {
        case Resume(gprs, advance) =>
          Handle(gprs, advance);
          end := None;
        case Leave(status) =>
          var o := AsyncTdExitToVmm(status, e.busLock);
          end := Some(o);
        case VmCall(accepted, gprs) =>
          end := HandleVmcall(accepted, gprs);
        case ToL1 =>
          var o := L2ToL1Exit(exitInstead, e.busLock, info);
          end := Some(o);
        case PostedInterrupt(rvi, ppr) =>
          end := InterruptExitL2(e, rvi, ppr, exitInstead, info);
        case Fatal =>
          end := Some(Halted);
      }
    }

    /** handle_l2_vm_entry_failures: an invalid guest state is L1's affair. */
    method HandleEntryFailureL2(e: HwExit, exitInstead: bool, info: seq<u64>) returns (o: Outcome)
      requires CanLeave() && tdvps.currVm != 0 && vmcs.exitLen[0] != 0
      modifies this`tdvps, this`lists, this`vmcs, this`vp, this`counted, td`fatal, td`refcount
      ensures Ends(o, Now()) == FailedEntryL2(e, exitInstead, info, old(Now()))
    {
      match e.failure
      case GuestState =>
        o := L2ToL1Exit(exitInstead, e.busLock, info);
      case MachineCheck =>
        o := AsyncTdExitToVmm(NonAccessible, e.busLock);
      case Unexpected =>
        o := Halted;
    }

    /** The end of the L2 dispatcher, from the EXIT label if the filter holds the exit back.  `voe`: the event
        to be injected is one that L1 intercepts. */
    method FinishL2Exit(heldBack: bool, voe: bool, exitInstead: bool, info: seq<u64>) returns (o: Outcome)
      requires CanLeave() && tdvps.currVm != 0 && vmcs.exitLen[0] != 0
      modifies this`tdvps, this`lists, this`vmcs, this`vp, this`counted, td`fatal, td`refcount
      ensures Ends(o, Now()) == FinishL2(heldBack, voe, exitInstead, info, old(Now()))
    {
      if !heldBack {
        var end := BusLockExit();
        if end.Some? {
          return end.value;
        }
      }
      if voe {
        o := L2ToL1Exit(exitInstead, false, info);
        return;
      }
      o := TdxReturnToTd(true);
    }

    /** tdx_td_l2_dispatcher.  Its sanity check never fails. */
    method TdxTdL2Dispatcher(i: Input) returns (o: Outcome)
      requires InGuest(numL2Vms, Now()) && vp.currentTdVmId != 0 && i.VmExit? && Possible(i, lists)
      modifies this`tdvps, this`lists, this`vmcs, this`vp, this`counted, td`fatal, td`refcount
      ensures Ends(o, Now()) == Dispatched(numL2Vms, debug, i, old(Now()))
    {
      var vm := tdvps.currVm;
      if vm != vp.currentTdVmId || vm == 0 || vm >= MAX_VMS {
        return SanityFailure;
      }
      VcpuLaws.PrologueKeepsInGuest(numL2Vms, i, Now());
      var end := Prologue(i.e, i.exitOnL2, i.filter);
      if end.Some? {
        return end.value;
      }
      if i.filter == Stepping.OkContinue {
        if i.e.failed {
          o := HandleEntryFailureL2(i.e, i.exitInstead, i.info);
          return;
        }
        VcpuLaws.SwitchL2KeepsInGuest(i.e, i.l2, i.exitInstead, i.info, numL2Vms, Now());
        end := HandleL2(i.e, i.l2, i.exitInstead, i.info);
        if end.Some? {
          return end.value;
        }
      }
      o := FinishL2Exit(i.filter != Stepping.OkContinue, i.voe, i.exitInstead, i.info);
    }

    // ---- TDH.VP.ENTER ----

    /** invalidate_all_gpa_translations. */
    method InvalidateAllGpaTranslations()
      requires Sane(numL2Vms, Now())
      modifies this`tdvps
      ensures tdvps == old(tdvps).(listHpa := NO_HPAS)
    {
      for vm := 0 to numL2Vms + 1
        invariant tdvps == old(tdvps).(listHpa := tdvps.listHpa)
        invariant forall k | 0 <= k < vm || numL2Vms < k < MAX_VMS :: tdvps.listHpa[k].None?
      {
        tdvps := tdvps.(listHpa := tdvps.listHpa[vm := None]);
      }
      assert tdvps.listHpa == NO_HPAS;
    }

    /** adjust_tlb_tracking_state: counts the vCPU in, in the TD's current epoch; translations of an earlier
        epoch go. */
    method AdjustTlbTrackingState(newAssociation: bool, epochLockFree: bool) returns (ok: bool)
      requires Sane(numL2Vms, Now()) && !counted
      modifies this`tdvps, this`counted, td`refcount
      ensures ok == epochLockFree && Now() == if ok then CountedIn(newAssociation, old(Now())) else old(Now())
    {
      var epoch: u64;
      ok, epoch := td.CountInVcpu(epochLockFree);
      if !ok {
        return;
      }
      counted := true;
      if epoch != tdvps.vcpuEpoch {
        if !newAssociation {
          InvalidateAllGpaTranslations();
        }
        tdvps := tdvps.(vcpuEpoch := epoch);
      }
    }

    method SetL2ExitHostRouting()
      modifies this`tdvps
      ensures tdvps == Routed(old(tdvps))
    {
      if tdvps.routed.NotRouted? {
        tdvps := tdvps.(routed := if tdvps.lastTdExit.TdVmcall? then RoutedTdVmcall else RoutedAsync);
      }
    }

    method RevertTlbTrackingState()
      requires counted
      modifies this`counted, td`refcount
      ensures Now() == CountedOut(old(Now()))
    {
      td.CountOutVcpu(tdvps.vcpuEpoch);
      counted := false;
    }

    // The common failure exit of TDH.VP.ENTER.
    method FailEntry(why: Refusal) returns (o: Outcome)
      modifies this`vp
      ensures Ends(o, Now()) == Refuse(why, old(Now()))
    {
      SetSeamVmcsAsActive();
      o := Refused(why);
    }

    /** Refuses the entry as if the guest had taken an EPT violation; of emulate_ept_violation_td_exit, what
        outlasts the call. */
    method RefuseByEptViolation() returns (o: Outcome)
      requires counted
      modifies this`tdvps, this`vp, this`counted, td`refcount
      ensures Ends(o, Now()) == RefuseAsFault(old(Now()))
    {
      RevertTlbTrackingState();
      tdvps := tdvps.(state := Ready, lastTdExit := AsyncFault);
      o := FailEntry(EptViolation);
    }

    /** The second half of handle_l2_entry: finish L2's call for L1. */
    method ResumeL1(a: HostArgs) returns (end: Option<Outcome>)
      requires counted && tdvps.currVm != 0 && vp.activeVmcs == tdvps.currVm && vmcs.exitLen[0] != 0
      modifies this`tdvps, this`lists, this`vmcs, this`vp, this`counted, td`refcount
      ensures Came(end) == ResumeL1Flow(a, old(Now()))
    {
      if tdvps.lastTdExit.TdVmcall? {
        tdvps := tdvps.(gprs := a.answer(tdvps.gprs), lastTdExit := AsyncFault);
      }
      if tdvps.routed.RoutedTdVmcall? {
        var ok := TranslateListGpa(tdvps.currVm, a.listWalk);
        if !ok {
          var o := RefuseByEptViolation();
          return Some(o);
        }
        WriteL2EnterOutputs();
      }
      tdvps := tdvps.(gprs := a.exitInfo, routed := NotRouted);
      SetVmVmcsAsActive(0);
      AdvanceGuestRip();
      tdvps := tdvps.(currVm := 0);
      return None;
    }

    /** handle_l2_entry, and the routing that the stepping filter's notification asks for before it. */
    method HandleL2Entry(a: HostArgs) returns (end: Option<Outcome>)
      requires counted && tdvps.currVm != 0 && vp.activeVmcs == tdvps.currVm && vmcs.exitLen[0] != 0
      modifies this`tdvps, this`lists, this`vmcs, this`vp, this`counted, td`refcount
      ensures Came(end) == FromL2Flow(a, old(Now()))
    {
      if a.filter == Stepping.OkNotifyEpsFault && a.privateEptViolation {
        SetL2ExitHostRouting();
      }
      if a.voe {
        SetL2ExitHostRouting();
      }
      if tdvps.routed.NotRouted? {
        return None;
      }
      end := ResumeL1(a);
    }

    /** The VM to be entered is known. */
    method EnterChosenVm(a: HostArgs) returns (o: Outcome)
      requires counted && vp.activeVmcs == tdvps.currVm
      modifies this`tdvps, this`vp, this`counted, td`refcount
      ensures Ends(o, Now()) == ChosenFlow(a, old(Now()))
    {
      if a.filter == Stepping.FailTdenterEpfs {
        o := RefuseByEptViolation();
        return;
      }
      if tdvps.currVm != 0 {
        var ok := TranslateGpas(tdvps.currVm, a.listWalk, a.vapicMapped);
        if !ok {
          o := RefuseByEptViolation();
          return;
        }
      }
      o := EnterGuest(a);
    }

    // All checks passed: the guest gets the host's answer to a TDG.VP.VMCALL, or its hint after a trap-like exit.
    method EnterGuest(a: HostArgs) returns (o: Outcome)
      modifies this`tdvps, this`vp
      ensures Ends(o, Now()) == GuestFlow(a, old(Now()))
    {
      if tdvps.lastTdExit.TdVmcall? {
        tdvps := tdvps.(gprs := a.answer(tdvps.gprs));
      } else if tdvps.lastTdExit.AsyncTrap? {
        tdvps := tdvps.(gprs := a.hinted);
      }
      tdvps := tdvps.(state := Active);
      o := TdxReturnToTd(tdvps.vmLaunched[tdvps.currVm]);
    }

    /** From the stepping filter on: the vCPU is counted in, and is counted out again if the entry fails. */
    method EnterCounted(a: HostArgs) returns (o: Outcome)
      requires counted && vp.activeVmcs == tdvps.currVm && (tdvps.currVm != 0 ==> vmcs.exitLen[0] != 0)
      modifies this`tdvps, this`lists, this`vmcs, this`vp, this`counted, td`refcount
      ensures Ends(o, Now()) == CountedFlow(a, old(Now()))
    {
      if a.filter == Stepping.FailSeptTreeBusy {
        RevertTlbTrackingState();
        o := FailEntry(SeptBusy);
        return;
      }
      if tdvps.currVm != 0 {
        var end := HandleL2Entry(a);
        if end.Some? {
          return end.value;
        }
      }
      o := EnterChosenVm(a);
    }

    /** The checks of the host's request; a request to resume L1 is noted, and stays pending. */
    method CheckEntry(a: HostArgs) returns (end: Option<Outcome>)
      modifies this`tdvps, this`vp
      ensures Came(end) == RequestFlow(a, old(Now()))
    {
      var o: Outcome;
      if a.hint && !tdvps.lastTdExit.AsyncTrap? {
        o := FailEntry(OperandInvalid);
        return Some(o);
      }
      if a.resumeL1 {
        if tdvps.currVm == 0 {
          o := FailEntry(OperandInvalid);
          return Some(o);
        }
        SetL2ExitHostRouting();
      }
      if a.earlyError {
        o := FailEntry(EarlyError);
        return Some(o);
      }
      return None;
    }

    /** tdh_vp_enter, from the point where the vCPU is locked. */
    method TdhVpEnter(a: HostArgs) returns (o: Outcome)
      requires AtHost(numL2Vms, Now())
      modifies this`tdvps, this`lists, this`vmcs, this`vp, this`counted, td`refcount
      ensures Ends(o, Now()) == EntryFlow(a, old(Now()))
    {
      if td.fatal {
        return Refused(TdFatal);
      }
      if !tdvps.state.Ready? {
        return Refused(StateIncorrect);
      }
      // associate_vcpu
      var newAssociation := !tdvps.associated;
      tdvps := tdvps.(associated := true);
      SetVmVmcsAsActive(tdvps.currVm);
      var end := CheckEntry(a);
      if end.Some? {
        return end.value;
      }
      var ok := AdjustTlbTrackingState(newAssociation, a.epochLockFree);
      if !ok {
        o := FailEntry(EpochBusy);
        return;
      }
      o := EnterCounted(a);
    }

    /** TDH.VP.FLUSH: every VMCS is cleared, so that its next entry is a launch, and no translation is kept. */
    method TdhVpFlush()
      requires AtHost(numL2Vms, Now())
      modifies this`tdvps, this`vmcs
      ensures Now() == Flushed(old(Now()))
    {
      InvalidateAllGpaTranslations();
      for vm := 0 to numL2Vms + 1
        invariant tdvps == old(tdvps).(listHpa := NO_HPAS, vmLaunched := tdvps.vmLaunched)
        invariant vmcs == old(vmcs).(launched := tdvps.vmLaunched)
        invariant forall k | 0 <= k < vm || numL2Vms < k < MAX_VMS :: !tdvps.vmLaunched[k]
      {
        vmcs := vmcs.(launched := vmcs.launched[vm := false]);
        tdvps := tdvps.(vmLaunched := tdvps.vmLaunched[vm := false]);
      }
      tdvps := tdvps.(associated := false);
    }

    // ---- Runs ----

    /** The assembly stub: the VM last entered picks the dispatcher. */
    method Dispatch(i: Input) returns (o: Outcome)
      requires InGuest(numL2Vms, Now()) && i.VmExit? && Possible(i, lists)
      modifies this`tdvps, this`lists, this`vmcs, this`vp, this`counted, td`fatal, td`refcount
      ensures Ends(o, Now()) == Dispatched(numL2Vms, debug, i, old(Now()))
    {
      if vp.currentTdVmId == 0 {
        o := TdxTdDispatcher(i);
      } else {
        o := TdxTdL2Dispatcher(i);
      }
    }

    /** One input of a run. */
    method Take(i: Input) returns (o: Option<Outcome>)
      requires VcpuLaws.Good(numL2Vms, Now())
      modifies this`tdvps, this`lists, this`vmcs, this`vp, this`counted, td
      ensures (o, Now()) == StepOf(numL2Vms, debug, i, old(Now()))
    {
      o := None;
      match i
      case OtherVcpus(fatal, epoch, refcount) =>
        td.fatal := td.fatal || fatal;
        td.tdEpoch, td.refcount := epoch, refcount;
      case VpFlush =>
        if vp.activeVmcs == ACTIVE_VMCS_NONE {
          TdhVpFlush();
        }
      case VpEnterByHost(args) =>
        if vp.activeVmcs == ACTIVE_VMCS_NONE {
          var out := TdhVpEnter(args);
          o := Some(out);
        }
      case VmExit(_, _, _, _, _, _, _, _) =>
        if vp.activeVmcs != ACTIVE_VMCS_NONE && Possible(i, lists) {
          var out := Dispatch(i);
          o := Some(out);
        }
    }

    /** Main result, over every sequence of inputs, until one halts the module: the run is RunOf's, and each
        outcome is that of its step.  VcpuLaws proves what such runs are like. */
    method Drive(inputs: seq<Input>) returns (outs: seq<Option<Outcome>>)
      requires AtHost(numL2Vms, Now())
      modifies this`tdvps, this`lists, this`vmcs, this`vp, this`counted, td
      ensures |outs| == |inputs| || (0 < |outs| < |inputs| && outs[|outs| - 1] == Some(Halted))
      ensures VcpuLaws.HasRun(numL2Vms, debug, old(Now()), inputs[..|outs|], outs, Now())
    {
      outs := [];
      for k := 0 to |inputs|
        invariant |outs| == k && Some(Halted) !in outs
        invariant VcpuLaws.HasRun(numL2Vms, debug, old(Now()), inputs[..k], outs, Now())
        invariant VcpuLaws.Good(numL2Vms, Now())
      {
        ghost var y := Now();
        var o := Take(inputs[k]);
        VcpuLaws.RunGoesOn(numL2Vms, debug, old(Now()), inputs[..k], outs, y, inputs[k], o, Now());
        assert inputs[..k] + [inputs[k]] == inputs[..k + 1];
        outs := outs + [o];
        if o == Some(Halted) {
          return;
        }
      }
    }
  }
}
