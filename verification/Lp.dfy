/** One vCPU on its logical processor with its stepping defence, in place: the filters of StepGuard are asked where
    the common prologue of the dispatchers and TDH.VP.ENTER ask them, and an EPT fault that leaves to the host is
    logged.  Each method leaves what its flow in LpSpec gives, and restores the host's task priority where it
    should. */
module Lp {
  import opened Words
  import opened VcpuSpec
  import opened VcpuLaws
  import opened VcpuEntries
  import opened LpSpec
  import EpfTracking
  import StepGuard
  import Stepping
  import Vcpu

  class LogicalProcessor {
    const guard: StepGuard.Guard
    const vcpu: Vcpu.LpVcpu

    constructor (guard: StepGuard.Guard, vcpu: Vcpu.LpVcpu)
      ensures this.guard == guard && this.vcpu == vcpu
    {
      this.guard, this.vcpu := guard, vcpu;
    }

    ghost function Both(): LpSnap
      reads guard, vcpu, vcpu.td
    {
      LpSnap(vcpu.Now(), guard.StepState(), guard.faults)
    }

    // The generator decides the draw.
    ghost predicate Draws(c: Cause)
      reads guard`lfsrValue
    {
      c.draw == StepGuard.StepsDrawn(StepGuard.Lfsr(guard.lfsrValue))
    }

    // ---- VM exits ----

    // The prologue records the time, and asks the filter if the flow gets that far.
    method RunFilter(bypass: bool, vm: VmId, rip: u64, c: Cause, d: StepGuard.DebugState)
      returns (filter: Stepping.FilterResult, ipis: seq<Stepping.Ipi>)
      requires guard.Valid() && |d.bps| == 4 && Draws(c)
      modifies guard
      ensures guard.Valid() && guard.tpr == old(guard.tpr)
      ensures var x := Stepping.Exit(vm, c.reason, c.vector, c.msmi, rip, c.tsc, c.apicEnabled, c.draw);
              var r := if bypass then Stepping.Outcome(old(guard.StepState()), Stepping.OkContinue, [])
                       else Stepping.Step(old(guard.StepState()), x);
              guard.StepState() == r.next && filter == r.result && ipis == r.ipis
      ensures guard.GateState() == if bypass then old(guard.GateState())
                                   else EpfTracking.GateStep(old(guard.GateState()), EpfTracking.ExitAt(rip))
    {
      guard.NoteExitTime(c.tsc);
      if bypass {
        return Stepping.OkContinue, [];
      }
      filter, ipis := guard.VmexitSteppingFilter(vm, c.reason, c.vector, c.msmi, rip, c.apicEnabled, d);
    }

    method FilterExit(i: Input, c: Cause, d: StepGuard.DebugState)
      returns (filter: Stepping.FilterResult, ipis: seq<Stepping.Ipi>, rip: u64)
      requires i.VmExit? && guard.Valid() && |d.bps| == 4 && Draws(c)
      modifies guard
      ensures guard.Valid() && guard.tpr == old(guard.tpr) && rip == RipOf(i.e, vcpu.Now())
      ensures var r := FilterOf(i, c, old(Both()));
              guard.StepState() == r.next && filter == r.result && ipis == r.ipis
      ensures guard.GateState() == if Bypasses(i, vcpu.Now()) then old(guard.GateState())
                                   else EpfTracking.GateStep(old(guard.GateState()), EpfTracking.ExitAt(rip))
    {
      var vm := vcpu.tdvps.currVm;
      rip := if i.e.failed then vcpu.vmcs.regs[vm].rip else i.e.regs.rip;
      filter, ipis := RunFilter(vcpu.td.fatal || (i.exitOnL2 && vm > 0), vm, rip, c, d);
    }

    // The handler of an EPT fault on a private GPA, if the flow gets there, logs it before it leaves.
    method LogFault(i: Input, rip: u64, epf: Option<u64>)
      requires i.VmExit? && guard.Valid()
      modifies guard, guard.lastEpfGpaList
      ensures guard.Valid() && guard.tpr == old(guard.tpr) && guard.StepState() == old(guard.StepState())
      ensures guard.GateState() ==
              if epf.Some? && Handles(i, vcpu.Now())
              then EpfTracking.GateStep(old(guard.GateState()), EpfTracking.FaultAt(rip, epf.value))
              else old(guard.GateState())
    {
      if vcpu.td.fatal || (i.exitOnL2 && vcpu.tdvps.currVm > 0) {
      } else if i.filter == Stepping.OkContinue && !i.e.failed && epf.Some? {
        guard.EpfSteppingLog(rip, epf.value);
      }
    }

    // The defence's part of a VM exit; CR8 is 15 exactly while the walk is under way.
    method Defend(i: Input, c: Cause, d: StepGuard.DebugState, ghost z: LpSnap)
      returns (j: Input, ipis: seq<Stepping.Ipi>)
      requires i.VmExit? && guard.Valid() && |d.bps| == 4 && Draws(c) && 1 <= c.draw <= 32 && z == Both()
      modifies guard, guard.lastEpfGpaList
      ensures guard.Valid() && guard.tpr == old(guard.tpr)
      ensures j == WithFilter(i, c, z) && ipis == FilterOf(i, c, z).ipis
      ensures guard.StepState() == FilterOf(i, c, z).next && guard.faults == FaultsAfter(GateOps(i, c, z), z)
      ensures guard.cr8 == if guard.StepState().phase.Walking? then 15 else guard.tpr
    {
      var filter, rip;
      filter, ipis, rip := FilterExit(i, c, d);
      j := i.(filter := filter);
      LogFault(j, rip, c.epf);
      GateOpsRun(i, c, z);
    }

    /** A VM exit: the state after it is that of the flow, and the self-IPIs are the filter's.  The host gets its
        task priority back, unless it gets control in the middle of a walk, which is exactly when LeavesWalking
        says. */
    method VmExit(i: Input, c: Cause, d: StepGuard.DebugState) returns (o: Outcome, ipis: seq<Stepping.Ipi>)
      requires i.VmExit? && guard.Valid() && InGuest(vcpu.numL2Vms, vcpu.Now()) && |d.bps| == 4 && Draws(c)
      requires Deliverable(i, c, vcpu.debug, vcpu.Now())
      modifies guard, guard.lastEpfGpaList,
               vcpu`tdvps, vcpu`lists, vcpu`vmcs, vcpu`vp, vcpu`counted, vcpu.td`fatal, vcpu.td`refcount
      ensures (Ends(o, vcpu.Now()), Both()) == ExitFlow(vcpu.numL2Vms, vcpu.debug, i, c, old(Both()))
      ensures ipis == FilterOf(i, c, old(Both())).ipis && guard.Valid() && guard.tpr == old(guard.tpr)
      ensures ToHost(o) ==> guard.cr8 == if LeavesWalking(i, c, old(Both())) then 15 else guard.tpr
    {
      ghost var z := Both();
      var j;
      j, ipis := Defend(i, c, d, z);
      WithFilterIsPossible(i, c, vcpu.debug, z);
      o := vcpu.Dispatch(j);
      HostInMidWalkIff(vcpu.numL2Vms, vcpu.debug, i, c, z);
    }

    // ---- TDH.VP.ENTER ----

    // No earlier check refuses the entry.
    method AsksFilter(a: HostArgs) returns (asks: bool)
      ensures asks == EntryCounts(a, vcpu.Now())
    {
      asks := !vcpu.td.fatal && vcpu.tdvps.state.Ready? && (a.hint ==> vcpu.tdvps.lastTdExit.AsyncTrap?)
              && (a.resumeL1 ==> vcpu.tdvps.currVm != 0) && !a.earlyError && a.epochLockFree;
    }

    method FilterEntry(a: HostArgs, translating: set<u64>, notify: bool, gpaIn: u64)
      returns (b: HostArgs, locked: bool)
      requires guard.Valid() && guard.septLock != StepGuard.HeldHere
      modifies guard`guestRipOnTdEntry, guard`septLock
      ensures guard.Valid() && locked == (guard.septLock == StepGuard.HeldHere)
      ensures guard.septLock == if locked then StepGuard.HeldHere else old(guard.septLock)
      ensures locked ==> old(guard.septLock) == StepGuard.Free
      ensures b == Asked(a, old(guard.septLock) == StepGuard.Free, translating, notify, old(Both()))
      ensures guard.StepState() == EntrySteps(a, false, 0, old(Both()))
    {
      b, locked := a.(filter := Stepping.OkContinue), false;
      var asks := AsksFilter(a);
      if asks {
        var filter, faultingGpa;
        var rip := vcpu.vmcs.regs[vcpu.tdvps.currVm].rip;
        filter, faultingGpa, locked := guard.TdEntrySteppingFilter(rip, translating, notify, gpaIn);
        b := a.(filter := filter);
      }
    }

    method LeaveFilter(locked: bool, entered: bool, tsc: u64)
      requires guard.Valid()
      modifies guard`septLock, guard`lastEntryTsc
      ensures guard.Valid() && guard.septLock == if locked then StepGuard.Free else old(guard.septLock)
      ensures guard.StepState() == var s := old(guard.StepState()); if entered then s.(lastEntryTsc := tsc) else s
    {
      if locked {
        guard.septLock := StepGuard.Free;
      }
      if entered {
        guard.NoteEntryTime(tsc);
      }
    }

    /** TDH.VP.ENTER with the entry filter's answer: the state after it is that of the flow, and however it ends,
        the Secure EPT lock is as it was.  The guest is entered only if every listed GPA translates. */
    method VpEnter(a: HostArgs, translating: set<u64>, notify: bool, gpaIn: u64, tsc: u64) returns (o: Outcome)
      requires guard.Valid() && AtHost(vcpu.numL2Vms, vcpu.Now()) && guard.septLock != StepGuard.HeldHere
      modifies guard`guestRipOnTdEntry, guard`septLock, guard`lastEntryTsc,
               vcpu`tdvps, vcpu`lists, vcpu`vmcs, vcpu`vp, vcpu`counted, vcpu.td`refcount
      ensures (Ends(o, vcpu.Now()), Both())
           == EnterFlow(a, old(guard.septLock) == StepGuard.Free, translating, notify, tsc, old(Both()))
      ensures guard.Valid() && guard.septLock == old(guard.septLock)
      ensures o.Entered? ==> forall gpa | gpa in EpfTracking.Listed(guard.faults) :: gpa in translating
    {
      ghost var z := Both();
      var b, locked := FilterEntry(a, translating, notify, gpaIn);
      o := vcpu.TdhVpEnter(b);
      EnteredIsAdmitted(vcpu.numL2Vms, a, guard.septLock != StepGuard.HeldElsewhere, translating, notify, z);
      LeaveFilter(locked, o.Entered?, tsc);
    }
  }
}
