/** One vCPU on its logical processor with its stepping defence.

    The common prologue of the dispatchers calls the exit filter, and TDH.VP.ENTER the entry filter; here the
    answers of the two filters go to the flows of VcpuSpec, where they are input.  The RIP that the filters read
    is the one in the VMCS; an EPT fault that is about to leave to the host is logged; and a monitor trap exit
    has no case in either dispatcher.  What is proved here is of single flows and of runs that mix them. */
module LpSpec {
  import opened Words
  import opened VcpuSpec
  import opened VcpuLaws
  import opened VcpuEntries
  import EpfTracking
  import NestedCall
  import Stepping

  /** What else the processor delivers with a VM exit; `draw` is the number that the random generator would give,
      and `epf` the private GPA of an EPT fault that its handler finds it cannot resolve. */
  datatype Cause = Cause(reason: nat, vector: nat, msmi: bool, apicEnabled: bool, tsc: u64, draw: nat, epf: Option<u64>)

  /** The vCPU, the stepping machine, and the EPT faults logged since the last progress. */
  datatype LpSnap = LpSnap(x: Snap, s: Stepping.State, faults: seq<u64>)

  // The default case of both dispatchers.
  function NoCase(debug: bool): Handled {
    Leave(if debug then Success else NonRecoverableTd)
  }

  // The handler of the VM that runs.
  function HandlerOf(i: Input, x: Snap): Handled
    requires i.VmExit?
  {
    if x.tdvps.currVm == 0 then i.l1 else i.l2
  }

  predicate Deliverable(i: Input, c: Cause, debug: bool, x: Snap)
    requires i.VmExit?
  {
    && Possible(i.(filter := Stepping.OkContinue), x.lists) && 1 <= c.draw <= 32
    && (i.e.failed ==> c.reason in {Stepping.REASON_FAILED_VMENTER_GS, Stepping.REASON_FAILED_VMENTER_MSR,
                                    Stepping.REASON_FAILED_VMENTER_MC})
    && (c.reason == Stepping.REASON_MTF ==> HandlerOf(i, x) == NoCase(debug))
    && (c.epf.Some? ==> HandlerOf(i, x) == Leave(Success))
  }

  // ---- VM exits ----

  // The flow leaves to the host before it calls the filter.
  predicate Bypasses(i: Input, x: Snap)
    requires i.VmExit?
  {
    x.fatal || (i.exitOnL2 && x.tdvps.currVm > 0)
  }

  // A failed entry leaves the RIP as it was.
  function RipOf(e: HwExit, x: Snap): u64 {
    if e.failed then x.vmcs.regs[x.tdvps.currVm].rip else e.regs.rip
  }

  function Seen(e: HwExit, c: Cause, x: Snap): Stepping.Exit {
    Stepping.Exit(x.tdvps.currVm, c.reason, c.vector, c.msmi, RipOf(e, x), c.tsc, c.apicEnabled, c.draw)
  }

  /** What the exit filter does: its answer, the machine after it, and the self-IPIs it sends. */
  function FilterOf(i: Input, c: Cause, z: LpSnap): Stepping.Outcome
    requires i.VmExit? && 1 <= c.draw <= 32
  {
    if Bypasses(i, z.x) then Stepping.Outcome(z.s, Stepping.OkContinue, []) else Stepping.Step(z.s, Seen(i.e, c, z.x))
  }

  function WithFilter(i: Input, c: Cause, z: LpSnap): Input
    requires i.VmExit? && 1 <= c.draw <= 32
  {
    i.(filter := FilterOf(i, c, z).result)
  }

  /** What a VM exit does to the fault gate: the filter looks for progress, and the handler logs its fault. */
  function GateOps(i: Input, c: Cause, z: LpSnap): seq<EpfTracking.Op>
    requires i.VmExit? && 1 <= c.draw <= 32
  {
    var rip := RipOf(i.e, z.x);
    if Bypasses(i, z.x) then []
    else if c.epf.Some? && Handles(WithFilter(i, c, z), z.x) then
      [EpfTracking.ExitAt(rip), EpfTracking.FaultAt(rip, c.epf.value)]
    else [EpfTracking.ExitAt(rip)]
  }

  function FaultsAfter(ops: seq<EpfTracking.Op>, z: LpSnap): seq<u64> {
    EpfTracking.GateRun(EpfTracking.Gate(z.s.ripOnEntry, z.faults), ops).faults
  }

  // The dispatchers can take what the filter answers.
  lemma WithFilterIsPossible(i: Input, c: Cause, debug: bool, z: LpSnap)
    requires i.VmExit? && Deliverable(i, c, debug, z.x)
    ensures Possible(WithFilter(i, c, z), z.x.lists)
  {
    if i.e.failed && !Bypasses(i, z.x) {
      Stepping.EntryFailureIsNeverHeldBack(z.s, Seen(i.e, c, z.x));
    }
  }

  lemma GateOpsRun(i: Input, c: Cause, z: LpSnap)
    requires i.VmExit? && 1 <= c.draw <= 32
    ensures var g, rip := EpfTracking.Gate(z.s.ripOnEntry, z.faults), RipOf(i.e, z.x);
            EpfTracking.GateRun(g, GateOps(i, c, z)) ==
            if Bypasses(i, z.x) then g
            else
              var p := EpfTracking.GateStep(g, EpfTracking.ExitAt(rip));
              if c.epf.Some? && Handles(WithFilter(i, c, z), z.x) then
                EpfTracking.GateStep(p, EpfTracking.FaultAt(rip, c.epf.value))
              else p
  {
    var g, rip := EpfTracking.Gate(z.s.ripOnEntry, z.faults), RipOf(i.e, z.x);
    assert EpfTracking.GateRun(g, []) == g;
    assert [EpfTracking.ExitAt(rip)][..0] == [];
    if c.epf.Some? {
      assert [EpfTracking.ExitAt(rip), EpfTracking.FaultAt(rip, c.epf.value)][..1] == [EpfTracking.ExitAt(rip)];
    }
  }

  /** A VM exit: the dispatcher with the filter's answer. */
  function ExitFlow(n: VmId, debug: bool, i: Input, c: Cause, z: LpSnap): (Flow, LpSnap)
    requires i.VmExit? && 1 <= c.draw <= 32
  {
    var f := Dispatched(n, debug, WithFilter(i, c, z), z.x);
    (f, LpSnap(f.s, FilterOf(i, c, z).next, FaultsAfter(GateOps(i, c, z), z)))
  }

  // ---- TDH.VP.ENTER ----

  /** What the entry filter answers, from the faults logged so far and what the Secure EPT maps. */
  function EntryAnswer(faults: seq<u64>, lockFree: bool, translating: set<u64>, notify: bool): Stepping.FilterResult
  {
    if EpfTracking.Listed(faults) == [] then Stepping.OkContinue
    else if !lockFree then Stepping.FailSeptTreeBusy
    else if exists gpa | gpa in EpfTracking.Listed(faults) :: gpa !in translating then Stepping.FailTdenterEpfs
    else if notify then Stepping.OkNotifyEpsFault
    else Stepping.OkContinue
  }

  // The host's arguments with that answer; an entry that an earlier check refuses does not ask.
  function Asked(a: HostArgs, lockFree: bool, translating: set<u64>, notify: bool, z: LpSnap): HostArgs {
    a.(filter := if EntryCounts(a, z.x) then EntryAnswer(z.faults, lockFree, translating, notify)
                 else Stepping.OkContinue)
  }

  function EntryOps(a: HostArgs, entered: bool, tsc: u64, x: Snap): seq<Stepping.Op> {
    (if EntryCounts(a, x) then [Stepping.EntryChecked(x.vmcs.regs[x.tdvps.currVm].rip)] else [])
    + (if entered then [Stepping.EntryMade(tsc)] else [])
  }

  // The filter captures the RIP of the VM that is current; an entry that is made starts the clock.
  function EntrySteps(a: HostArgs, entered: bool, tsc: u64, z: LpSnap): Stepping.State {
    var s := if EntryCounts(a, z.x) then z.s.(ripOnEntry := z.x.vmcs.regs[z.x.tdvps.currVm].rip) else z.s;
    if entered then s.(lastEntryTsc := tsc) else s
  }

  /** TDH.VP.ENTER with the entry filter's answer. */
  function EnterFlow(a: HostArgs, lockFree: bool, translating: set<u64>, notify: bool, tsc: u64, z: LpSnap):
    (Flow, LpSnap)
  {
    var f := EntryFlow(Asked(a, lockFree, translating, notify, z), z.x);
    (f, LpSnap(f.s, EntrySteps(a, f.Ends? && f.o.Entered?, tsc, z), z.faults))
  }

  /** The guest is entered only past the filter, so only if every listed GPA translates. */
  lemma EnteredIsAdmitted(n: VmId, a: HostArgs, lockFree: bool, translating: set<u64>, notify: bool, z: LpSnap)
    requires AtHost(n, z.x)
    ensures var f := EntryFlow(Asked(a, lockFree, translating, notify, z), z.x);
            && f.Ends?
            && (f.o.Entered? ==> && EntryCounts(a, z.x) && (EpfTracking.Listed(z.faults) != [] ==> lockFree)
                                 && forall gpa | gpa in EpfTracking.Listed(z.faults) :: gpa in translating)
  {
    var b := Asked(a, lockFree, translating, notify, z);
    assert EntryCounts(b, z.x) == EntryCounts(a, z.x);
    EntryComesTo(n, b, z.x);
  }

  /** The filter captures the RIP of the VM that was current.  That is the RIP at which the guest is entered
      exactly if the entry does not resume L1, unless L1 happens to resume at that address. */
  lemma CapturedRipIsEnteredIff(n: VmId, a: HostArgs, lockFree: bool, translating: set<u64>, notify: bool, tsc: u64,
                                z: LpSnap)
    requires AtHost(n, z.x) && EnterFlow(a, lockFree, translating, notify, tsc, z).0.Ends?
    requires EnterFlow(a, lockFree, translating, notify, tsc, z).0.o.Entered?
    ensures var (f, y) := EnterFlow(a, lockFree, translating, notify, tsc, z);
            (y.x.vmcs.regs[f.o.vm].rip == y.s.ripOnEntry
             <==> !ResumesL1(Asked(a, lockFree, translating, notify, z), z.x)
                  || Add64(z.x.vmcs.regs[0].rip, z.x.vmcs.exitLen[0]) == y.s.ripOnEntry)
  {
    EnteredIsAdmitted(n, a, lockFree, translating, notify, z);
    EntryComesTo(n, Asked(a, lockFree, translating, notify, z), z.x);
  }

  // ---- Runs ----

  datatype Happening =
    | Exit(i: Input, c: Cause)
    | Entry(a: HostArgs, lockFree: bool, translating: set<u64>, notify: bool, tsc: u64)
    | Other(i: Input)

  // A VM exit of the vCPU, as the processor can deliver it; it traps only where the trap flag is on.
  predicate Exits(debug: bool, h: Happening, z: LpSnap) {
    && h.Exit? && h.i.VmExit? && InGuestNow(z.x) && Deliverable(h.i, h.c, debug, z.x)
    && (h.c.reason == Stepping.REASON_MTF ==> z.x.tdvps.currVm in z.s.mtf)
  }

  /** What happens next; what does not fit does nothing. */
  function LpStep(n: VmId, debug: bool, h: Happening, z: LpSnap): (Option<Outcome>, LpSnap) {
    match h
    case Exit(i, c) =>
      if Exits(debug, h, z) then
        var (f, y) := ExitFlow(n, debug, i, c, z);
        (Result(f).0, y)
      else (None, z)
    case Entry(a, lockFree, translating, notify, tsc) =>
      if InGuestNow(z.x) then (None, z)
      else
        var (f, y) := EnterFlow(a, lockFree, translating, notify, tsc, z);
        (Result(f).0, y)
    case Other(i) =>
      if i.VmExit? || i.VpEnterByHost? then (None, z) else (None, z.(x := StepOf(n, debug, i, z.x).1))
  }

  function LpRun(n: VmId, debug: bool, z: LpSnap, hs: seq<Happening>): LpSnap {
    if hs == [] then z else LpStep(n, debug, hs[|hs| - 1], LpRun(n, debug, z, hs[..|hs| - 1])).1
  }

  // ---- Single VM exits ----

  predicate ToHost(o: Outcome) {
    o.TdExit? || o.VmcallTdExit?
  }

  /** Exactly when a VM exit reaches the host in the middle of a walk: the filter was not asked while the walk
      was under way; or it held the exit back, and a vector-on-entry then kept the guest from being resumed. */
  predicate LeavesWalking(i: Input, c: Cause, z: LpSnap)
    requires i.VmExit? && 1 <= c.draw <= 32
  {
    if Bypasses(i, z.x) then z.s.phase.Walking?
    else FilterOf(i, c, z).next.phase.Walking? && i.voe && (z.x.tdvps.currVm == 0 || i.exitInstead)
  }

  lemma HostInMidWalkIff(n: VmId, debug: bool, i: Input, c: Cause, z: LpSnap)
    requires InGuest(n, z.x) && i.VmExit? && Deliverable(i, c, debug, z.x)
    ensures var (f, y) := ExitFlow(n, debug, i, c, z);
            f.Ends? && (ToHost(f.o) && y.s.phase.Walking? <==> LeavesWalking(i, c, z))
  {
    var j := WithFilter(i, c, z);
    DispatchEndsWell(n, debug, j, z.x);
    if !Bypasses(i, z.x) && j.filter == Stepping.OkResumeTd {
      if z.x.tdvps.currVm == 0 {
        L1RunsOnIff(n, debug, j, z.x);
        L1HeldBack(n, debug, j, z.x);
      } else {
        L2HeldBack(n, debug, j, z.x);
      }
    }
  }

  // A VM exit that the filter holds back reaches the host by a vector-on-entry, or not at all.
  lemma L1HeldBack(n: VmId, debug: bool, j: Input, x: Snap)
    requires InGuest(n, x) && x.tdvps.currVm == 0 && j.VmExit? && j.filter == Stepping.OkResumeTd && !x.fatal
    ensures var f := Dispatched(n, debug, j, x); f.Ends? && (ToHost(f.o) <==> j.voe)
  {
  }

  lemma L2HeldBack(n: VmId, debug: bool, j: Input, x: Snap)
    requires InGuest(n, x) && x.tdvps.currVm != 0 && j.VmExit? && j.filter == Stepping.OkResumeTd
    requires !x.fatal && !j.exitOnL2
    ensures var f := Dispatched(n, debug, j, x); f.Ends? && (ToHost(f.o) <==> j.voe && j.exitInstead)
  {
  }

  /** A monitor trap exit that reaches the filter kills a TD that is not being debugged exactly if the filter is
      idle and nobody seems to be stepping; Stepping says when that can be. */
  lemma TrapKillsIff(n: VmId, i: Input, c: Cause, z: LpSnap)
    requires InGuest(n, z.x) && i.VmExit? && Deliverable(i, c, false, z.x) && c.reason == Stepping.REASON_MTF
    requires !Bypasses(i, z.x)
    ensures var (f, y) := ExitFlow(n, false, i, c, z);
            && f.Ends? && (f.o.TdExit? && f.o.status.NonRecoverableTd? ==> f.s.fatal)
            && ((f.o.TdExit? && f.o.status.NonRecoverableTd?)
                <==> z.s.phase.Idle? && Stepping.LooksUndisturbed(z.s, Seen(i.e, c, z.x)))
  {
    var j := WithFilter(i, c, z);
    Stepping.TrapIsResumedIff(z.s, Seen(i.e, c, z.x));
    DispatchEndsWell(n, false, j, z.x);
    DispatchAccounts(n, false, j, z.x);
    if z.x.tdvps.currVm == 0 {
      NoCaseL1(n, j, z.x);
    } else {
      NoCaseL2(n, j, z.x);
    }
  }

  // The default case, if the flow gets there, and no other, leaves with that status.
  lemma NoCaseL1(n: VmId, j: Input, x: Snap)
    requires InGuest(n, x) && x.tdvps.currVm == 0 && j.VmExit? && !j.e.failed && !x.fatal
    requires j.l1 == NoCase(false)
    ensures var f := Dispatched(n, false, j, x);
            f.Ends? && ((f.o.TdExit? && f.o.status.NonRecoverableTd?) <==> j.filter == Stepping.OkContinue)
  {
  }

  lemma NoCaseL2(n: VmId, j: Input, x: Snap)
    requires InGuest(n, x) && x.tdvps.currVm != 0 && j.VmExit? && !j.e.failed && !x.fatal && !j.exitOnL2
    requires j.l2 == NoCase(false)
    ensures var f := Dispatched(n, false, j, x);
            f.Ends? && ((f.o.TdExit? && f.o.status.NonRecoverableTd?) <==> j.filter == Stepping.OkContinue)
  {
  }

  // ---- An entry and the next VM exit ----

  /** The defence at work.  A VM that is entered where it was, and exits within 32 bytes and 4096 ticks of that by an
      external interrupt (1), an INIT (3), a monitor trap (37), an SMI that is no machine-check SMI (6) or an NMI
      (0, vector 2), starts a walk, and is resumed at once unless an event is to be delivered; any other exit, or a
      later one, starts none.  The TD dies if the local APIC is off. */
  lemma EarlyExitIsCaughtIff(n: VmId, debug: bool, a: HostArgs, lockFree: bool, translating: set<u64>, notify: bool,
                             tsc: u64, z: LpSnap, i: Input, c: Cause)
    requires AtHost(n, z.x) && z.s.phase.Idle? && i.VmExit? && !i.e.failed
    requires var (f, y) := EnterFlow(a, lockFree, translating, notify, tsc, z);
             && f.Ends? && f.o.Entered? && Deliverable(i, c, debug, y.x) && (i.exitOnL2 ==> f.o.vm == 0)
             && f.o.vm == z.x.tdvps.currVm
    ensures var (f, y) := EnterFlow(a, lockFree, translating, notify, tsc, z);
            var (g, w) := ExitFlow(n, debug, i, c, y);
            var rip := y.x.vmcs.regs[f.o.vm].rip;
            var kind := || c.reason in {1, 3, 37} || (c.reason == 6 && !c.msmi)
                        || (c.reason == 0 && c.vector == 2);
            var soon := -32 <= i.e.regs.rip - rip <= 32 && (c.tsc - tsc) % 0x1_0000_0000_0000_0000 <= 4096;
            && InGuest(n, y.x)
            && (kind && soon && c.apicEnabled ==>
                  && w.s.phase == Stepping.Walking(c.draw - 1, c.reason == 0, c.reason == 3) && f.o.vm in w.s.mtf
                  && (!i.voe ==> g.Ends? && g.o == Entered(f.o.vm, true)))
            && (kind && soon && !c.apicEnabled ==> g.Ends? && g.o.TdExit? && g.o.status.WrongApicMode? && g.s.fatal)
            && (!(kind && soon) ==> w.s == y.s && g == Dispatched(n, debug, i.(filter := Stepping.OkContinue), y.x))
  {
    var (f, y) := EnterFlow(a, lockFree, translating, notify, tsc, z);
    EntryStartsClock(n, a, lockFree, translating, notify, tsc, z);
    ExitAtClock(n, debug, i, c, f.o.vm, tsc, y);
  }

  lemma ExitAtClock(n: VmId, debug: bool, i: Input, c: Cause, vm: VmId, tsc: u64, y: LpSnap)
    requires InGuest(n, y.x) && y.s.phase.Idle? && i.VmExit? && !i.e.failed && Deliverable(i, c, debug, y.x)
    requires (i.exitOnL2 ==> vm == 0) && y.x.tdvps.currVm == vm && !y.x.fatal
    requires y.s.lastEntryTsc == tsc && y.s.ripOnEntry == y.x.vmcs.regs[vm].rip
    ensures var (g, w) := ExitFlow(n, debug, i, c, y);
            var rip := y.x.vmcs.regs[vm].rip;
            var kind := || c.reason in {1, 3, 37} || (c.reason == 6 && !c.msmi)
                        || (c.reason == 0 && c.vector == 2);
            var soon := -32 <= i.e.regs.rip - rip <= 32 && (c.tsc - tsc) % 0x1_0000_0000_0000_0000 <= 4096;
            && (kind && soon && c.apicEnabled ==>
                  && w.s.phase == Stepping.Walking(c.draw - 1, c.reason == 0, c.reason == 3) && vm in w.s.mtf
                  && (!i.voe ==> g.Ends? && g.o == Entered(vm, true)))
            && (kind && soon && !c.apicEnabled ==> g.Ends? && g.o.TdExit? && g.o.status.WrongApicMode? && g.s.fatal)
            && (!(kind && soon) ==> w.s == y.s && g == Dispatched(n, debug, i.(filter := Stepping.OkContinue), y.x))
  {
    Stepping.IdleFilterAnswers(y.s, Seen(i.e, c, y.x));
    ExitAfterEntry(n, debug, i, c, y);
  }

  lemma EntryStartsClock(n: VmId, a: HostArgs, lockFree: bool, translating: set<u64>, notify: bool, tsc: u64, z: LpSnap)
    requires AtHost(n, z.x)
    requires var (f, y) := EnterFlow(a, lockFree, translating, notify, tsc, z);
             f.Ends? && f.o.Entered? && f.o.vm == z.x.tdvps.currVm
    ensures var (f, y) := EnterFlow(a, lockFree, translating, notify, tsc, z);
            && InGuest(n, y.x) && y.x.tdvps.currVm == f.o.vm && !y.x.fatal && y.s.phase == z.s.phase
            && y.s.lastEntryTsc == tsc && y.s.ripOnEntry == y.x.vmcs.regs[f.o.vm].rip
  {
    var b := Asked(a, lockFree, translating, notify, z);
    EnteredIsAdmitted(n, a, lockFree, translating, notify, z);
    EntryComesTo(n, b, z.x);
    EntryEndsWell(n, b, z.x);
  }

  lemma ExitAfterEntry(n: VmId, debug: bool, i: Input, c: Cause, y: LpSnap)
    requires InGuest(n, y.x) && i.VmExit? && !i.e.failed && Deliverable(i, c, debug, y.x) && !Bypasses(i, y.x)
    ensures var (g, w) := ExitFlow(n, debug, i, c, y);
            var o := Stepping.Step(y.s, Seen(i.e, c, y.x));
            && w.s == o.next && g == Dispatched(n, debug, i.(filter := o.result), y.x)
            && (o.result == Stepping.OkResumeTd && !i.voe ==> g.Ends? && g.o == Entered(y.x.tdvps.currVm, true))
            && (o.result == Stepping.FailTdexitWrongApicMode ==>
                  g.Ends? && g.o.TdExit? && g.o.status.WrongApicMode? && g.s.fatal)
  {
    var j := WithFilter(i, c, y);
    WithFilterIsPossible(i, c, debug, y);
    DispatchAccounts(n, debug, j, y.x);
    if y.x.tdvps.currVm == 0 {
      L1ExitDecides(n, debug, j, y.x);
    } else {
      L2ExitDecides(n, debug, j, y.x);
    }
  }

  /** A fault that its handler leaves to the host with is logged; and from the seventh at the RIP of the entry on,
      its GPA is on the list after it, unless 32 others are. */
  lemma FaultIsLogged(n: VmId, debug: bool, i: Input, c: Cause, z: LpSnap)
    requires i.VmExit? && Deliverable(i, c, debug, z.x) && c.epf.Some? && Handles(WithFilter(i, c, z), z.x)
    ensures var w := ExitFlow(n, debug, i, c, z).1;
            && w.faults == (if i.e.regs.rip == z.s.ripOnEntry then z.faults else []) + [c.epf.value]
            && (i.e.regs.rip == z.s.ripOnEntry && |z.faults| >= 6 && |EpfTracking.Listed(z.faults)| < 32 ==>
                  c.epf.value in EpfTracking.Listed(w.faults))
  {
    GateOpsRun(i, c, z);
    EpfTracking.ListedGrowsByOne(z.faults, c.epf.value);
    if |EpfTracking.Listed(z.faults)| < 32 && c.epf.value !in EpfTracking.Listed(z.faults) {
      assert c.epf.value in EpfTracking.Listed(z.faults) + [c.epf.value];
    }
  }

  // ---- Runs ----

  /** What a happening is to the stepping machine ... */
  function StepOps(n: VmId, debug: bool, h: Happening, z: LpSnap): seq<Stepping.Op> {
    match h
    case Exit(i, c) => if Exits(debug, h, z) && !Bypasses(i, z.x) then [Stepping.ExitSeen(Seen(i.e, c, z.x))] else []
    case Entry(a, _, _, _, tsc) =>
      var o := LpStep(n, debug, h, z).0;
      if InGuestNow(z.x) then [] else EntryOps(a, o.Some? && o.value.Entered?, tsc, z.x)
    case Other(_) => []
  }

  /** ... and to the fault gate. */
  function GateOpsOf(debug: bool, h: Happening, z: LpSnap): seq<EpfTracking.Op> {
    match h
    case Exit(i, c) => if Exits(debug, h, z) then GateOps(i, c, z) else []
    case Entry(a, lockFree, translating, _, _) =>
      if InGuestNow(z.x) || !EntryCounts(a, z.x) then []
      else [EpfTracking.EnterAt(z.x.vmcs.regs[z.x.tdvps.currVm].rip, lockFree, translating)]
    case Other(_) => []
  }

  function GateOf(z: LpSnap): EpfTracking.Gate {
    EpfTracking.Gate(z.s.ripOnEntry, z.faults)
  }

  function StepOpsAlong(n: VmId, debug: bool, z: LpSnap, hs: seq<Happening>): seq<Stepping.Op> {
    if hs == [] then []
    else
      var m := |hs| - 1;
      StepOpsAlong(n, debug, z, hs[..m]) + StepOps(n, debug, hs[m], LpRun(n, debug, z, hs[..m]))
  }

  function GateOpsAlong(n: VmId, debug: bool, z: LpSnap, hs: seq<Happening>): seq<EpfTracking.Op> {
    if hs == [] then []
    else
      var m := |hs| - 1;
      GateOpsAlong(n, debug, z, hs[..m]) + GateOpsOf(debug, hs[m], LpRun(n, debug, z, hs[..m]))
  }

  lemma ExitIsBoth(n: VmId, debug: bool, h: Happening, z: LpSnap)
    requires h.Exit?
    ensures var y := LpStep(n, debug, h, z).1;
            && Stepping.AllWellFormed(StepOps(n, debug, h, z))
            && y.s == Stepping.After(z.s, StepOps(n, debug, h, z))
            && GateOf(y) == EpfTracking.GateRun(GateOf(z), GateOpsOf(debug, h, z))
  {
    if Exits(debug, h, z) {
      var ops := StepOps(n, debug, h, z);
      if ops != [] {
        assert Stepping.After(z.s, ops[..0]) == z.s;
      }
      FaultOpsKeepRip(GateOf(z), GateOps(h.i, h.c, z));
    }
  }

  lemma {:induction false} FaultOpsKeepRip(g: EpfTracking.Gate, ops: seq<EpfTracking.Op>)
    requires forall op <- ops :: !op.EnterAt?
    ensures EpfTracking.GateRun(g, ops).ripOnEntry == g.ripOnEntry
  {
    if ops != [] {
      FaultOpsKeepRip(g, ops[..|ops| - 1]);
    }
  }

  lemma EntryIsBoth(n: VmId, debug: bool, h: Happening, z: LpSnap)
    requires h.Entry?
    ensures var y := LpStep(n, debug, h, z).1;
            && Stepping.AllWellFormed(StepOps(n, debug, h, z))
            && y.s == Stepping.After(z.s, StepOps(n, debug, h, z))
            && GateOf(y) == EpfTracking.GateRun(GateOf(z), GateOpsOf(debug, h, z))
  {
    if !InGuestNow(z.x) {
      var o := LpStep(n, debug, h, z).0;
      EntryOpsAre(h.a, o.Some? && o.value.Entered?, h.tsc, z);
      if EntryCounts(h.a, z.x) {
        assert EpfTracking.GateRun(GateOf(z), GateOpsOf(debug, h, z)[..0]) == GateOf(z);
      }
    }
  }

  lemma EntryOpsAre(a: HostArgs, entered: bool, tsc: u64, z: LpSnap)
    ensures var ops := EntryOps(a, entered, tsc, z.x);
            Stepping.AllWellFormed(ops) && Stepping.After(z.s, ops) == EntrySteps(a, entered, tsc, z)
  {
    var first := if EntryCounts(a, z.x) then [Stepping.EntryChecked(z.x.vmcs.regs[z.x.tdvps.currVm].rip)] else [];
    var then2 := if entered then [Stepping.EntryMade(tsc)] else [];
    Stepping.AfterAppend(z.s, first, then2);
    if first != [] {
      assert Stepping.After(z.s, first[..0]) == z.s;
    }
    if entered {
      assert then2[..0] == [];
    }
  }

  /** A run of both together is a run of each: so what Stepping and EpfTracking prove of their runs holds of it. */
  lemma {:induction false} RunIsBoth(n: VmId, debug: bool, z: LpSnap, hs: seq<Happening>)
    ensures var y := LpRun(n, debug, z, hs);
            && Stepping.AllWellFormed(StepOpsAlong(n, debug, z, hs))
            && y.s == Stepping.After(z.s, StepOpsAlong(n, debug, z, hs))
            && GateOf(y) == EpfTracking.GateRun(GateOf(z), GateOpsAlong(n, debug, z, hs))
  {
    if hs != [] {
      var m := |hs| - 1;
      var y := LpRun(n, debug, z, hs[..m]);
      RunIsBoth(n, debug, z, hs[..m]);
      StepIsBoth(n, debug, hs[m], y);
      Stepping.AfterAppend(z.s, StepOpsAlong(n, debug, z, hs[..m]), StepOps(n, debug, hs[m], y));
      EpfTracking.GateAppend(GateOf(z), GateOpsAlong(n, debug, z, hs[..m]), GateOpsOf(debug, hs[m], y));
    }
  }

  lemma StepIsBoth(n: VmId, debug: bool, h: Happening, z: LpSnap)
    ensures var y := LpStep(n, debug, h, z).1;
            && Stepping.AllWellFormed(StepOps(n, debug, h, z))
            && y.s == Stepping.After(z.s, StepOps(n, debug, h, z))
            && GateOf(y) == EpfTracking.GateRun(GateOf(z), GateOpsOf(debug, h, z))
  {
    match h
    case Exit(_, _) => ExitIsBoth(n, debug, h, z);
    case Entry(_, _, _, _, _) => EntryIsBoth(n, debug, h, z);
    case Other(_) =>
  }

  // ---- What holds of all runs ----

  predicate LpNeverHalts(n: VmId, debug: bool, z: LpSnap, hs: seq<Happening>) {
    if hs == [] then true
    else
      var m := |hs| - 1;
      LpNeverHalts(n, debug, z, hs[..m]) && LpStep(n, debug, hs[m], LpRun(n, debug, z, hs[..m])).0 != Some(Halted)
  }

  lemma {:induction false} LpRunStaysGood(n: VmId, debug: bool, z: LpSnap, hs: seq<Happening>)
    requires Good(n, z.x) && LpNeverHalts(n, debug, z, hs)
    ensures Good(n, LpRun(n, debug, z, hs).x)
  {
    if hs != [] {
      var m := |hs| - 1;
      LpRunStaysGood(n, debug, z, hs[..m]);
      LpStepStaysGood(n, debug, hs[m], LpRun(n, debug, z, hs[..m]));
    }
  }

  lemma LpStepStaysGood(n: VmId, debug: bool, h: Happening, z: LpSnap)
    requires Good(n, z.x) && LpStep(n, debug, h, z).0 != Some(Halted)
    ensures Good(n, LpStep(n, debug, h, z).1.x)
  {
    match h
    case Exit(_, _) => LpExitStaysGood(n, debug, h, z);
    case Entry(_, _, _, _, _) => LpEntryStaysGood(n, debug, h, z);
    case Other(i) =>
      if !i.VmExit? && !i.VpEnterByHost? {
        StepKeepsGood(n, debug, i, z.x);
      }
  }

  lemma LpExitStaysGood(n: VmId, debug: bool, h: Happening, z: LpSnap)
    requires h.Exit? && Good(n, z.x) && LpStep(n, debug, h, z).0 != Some(Halted)
    ensures Good(n, LpStep(n, debug, h, z).1.x)
  {
    if Exits(debug, h, z) {
      var f := Dispatched(n, debug, WithFilter(h.i, h.c, z), z.x);
      ExitIsDispatch(n, debug, h, z);
      DispatchEndsWell(n, debug, WithFilter(h.i, h.c, z), z.x);
      EndsWellIsGood(n, f);
    }
  }

  lemma ExitIsDispatch(n: VmId, debug: bool, h: Happening, z: LpSnap)
    requires Exits(debug, h, z)
    ensures var f, r := Dispatched(n, debug, WithFilter(h.i, h.c, z), z.x), LpStep(n, debug, h, z);
            r.0 == Result(f).0 && r.1.x == f.s
  {
  }

  lemma LpEntryStaysGood(n: VmId, debug: bool, h: Happening, z: LpSnap)
    requires h.Entry? && Good(n, z.x) && LpStep(n, debug, h, z).0 != Some(Halted)
    ensures Good(n, LpStep(n, debug, h, z).1.x)
  {
    if !InGuestNow(z.x) {
      var a := Asked(h.a, h.lockFree, h.translating, h.notify, z);
      EntryEndsWell(n, a, z.x);
      EndsWellIsGood(n, EntryFlow(a, z.x));
      EntryIsEntry(n, debug, h, z);
    }
  }

  lemma EntryIsEntry(n: VmId, debug: bool, h: Happening, z: LpSnap)
    requires h.Entry? && !InGuestNow(z.x)
    ensures var f, r := EntryFlow(Asked(h.a, h.lockFree, h.translating, h.notify, z), z.x), LpStep(n, debug, h, z);
            r.0 == Result(f).0 && r.1.x == f.s
  {
  }

  // The last VM exit to the host of the run got there in the middle of a walk.
  predicate LeftInMidWalk(n: VmId, debug: bool, z: LpSnap, hs: seq<Happening>) {
    if hs == [] then false
    else
      var m := |hs| - 1;
      var y := LpRun(n, debug, z, hs[..m]);
      if Exits(debug, hs[m], y) then LeavesWalking(hs[m].i, hs[m].c, y) else LeftInMidWalk(n, debug, z, hs[..m])
  }

  /** In every run, whenever the host has control, the walk is still under way iff the last VM exit to it left it
      so, as LeavesWalking says; otherwise the host has its task priority back. */
  lemma {:induction false} HostFindsWalkIff(n: VmId, debug: bool, z: LpSnap, hs: seq<Happening>)
    requires AtHost(n, z.x) && z.s.phase.Idle? && LpNeverHalts(n, debug, z, hs)
    ensures var y := LpRun(n, debug, z, hs);
            !InGuestNow(y.x) ==> (y.s.phase.Walking? <==> LeftInMidWalk(n, debug, z, hs))
  {
    if hs != [] {
      var m := |hs| - 1;
      var y := LpRun(n, debug, z, hs[..m]);
      HostFindsWalkIff(n, debug, z, hs[..m]);
      LpRunStaysGood(n, debug, z, hs[..m]);
      StepFindsWalk(n, debug, hs[m], y);
    }
  }

  lemma StepFindsWalk(n: VmId, debug: bool, h: Happening, z: LpSnap)
    requires Good(n, z.x) && LpStep(n, debug, h, z).0 != Some(Halted)
    ensures var y := LpStep(n, debug, h, z).1;
            !InGuestNow(y.x) ==>
              if Exits(debug, h, z) then y.s.phase.Walking? <==> LeavesWalking(h.i, h.c, z)
              else !InGuestNow(z.x) && y.s.phase == z.s.phase
  {
    if Exits(debug, h, z) {
      HostInMidWalkIff(n, debug, h.i, h.c, z);
      DispatchEndsWell(n, debug, WithFilter(h.i, h.c, z), z.x);
    }
  }

  /** A TD without L2 VMs is never killed by a trap of the defence's own: in every run, a monitor trap exit finds
      the walk under way. */
  lemma TrapsNeverKillWithoutL2(z: LpSnap, hs: seq<Happening>, h: Happening)
    requires Good(0, z.x) && z.s.phase.Idle? && z.s.mtf == {} && LpNeverHalts(0, false, z, hs)
    requires Exits(false, h, LpRun(0, false, z, hs)) && h.c.reason == Stepping.REASON_MTF
    ensures var o := LpStep(0, false, h, LpRun(0, false, z, hs)).0;
            o.Some? && !(o.value.TdExit? && o.value.status.NonRecoverableTd?)
  {
    var y := LpRun(0, false, z, hs);
    LpRunStaysGood(0, false, z, hs);
    RunIsBoth(0, false, z, hs);
    SeenOnlyL1(z, hs);
    Stepping.OneVmInvariant(z.s, StepOpsAlong(0, false, z, hs), 0);
    DispatchAccounts(0, false, WithFilter(h.i, h.c, y), y.x);
    if !Bypasses(h.i, y.x) {
      TrapKillsIff(0, h.i, h.c, y);
    }
  }

  lemma {:induction false} SeenOnlyL1(z: LpSnap, hs: seq<Happening>)
    requires Good(0, z.x) && LpNeverHalts(0, false, z, hs)
    ensures Stepping.OnlyFrom(0, StepOpsAlong(0, false, z, hs))
  {
    if hs != [] {
      var m := |hs| - 1;
      SeenOnlyL1(z, hs[..m]);
      LpRunStaysGood(0, false, z, hs[..m]);
      assert LpRun(0, false, z, hs[..m]).x.tdvps.currVm == 0;
    }
  }

  /** After a seventh fault without progress no entry of a run is made, before an exit shows progress, unless each
      GPA listed by then translates again. */
  lemma EntersOnlyRepaired(n: VmId, debug: bool, z: LpSnap, hs: seq<Happening>, h: Happening)
    requires Good(n, z.x) && LpNeverHalts(n, debug, z, hs) && h.Entry? && EpfTracking.Listed(z.faults) != []
    requires EpfTracking.NoProgress(GateOf(z), GateOpsAlong(n, debug, z, hs))
    requires !InGuestNow(LpRun(n, debug, z, hs).x)
    requires var o := LpStep(n, debug, h, LpRun(n, debug, z, hs)).0; o.Some? && o.value.Entered?
    ensures h.lockFree && forall gpa | gpa in EpfTracking.Listed(z.faults) :: gpa in h.translating
  {
    var y := LpRun(n, debug, z, hs);
    LpRunStaysGood(n, debug, z, hs);
    RunIsBoth(n, debug, z, hs);
    var a := Asked(h.a, h.lockFree, h.translating, h.notify, y);
    EntryComesTo(n, a, y.x);
    var entry := EpfTracking.EnterAt(0, h.lockFree, h.translating);
    assert EpfTracking.Admits(GateOf(y), entry);
    EpfTracking.AdmittedMeansRepaired(GateOf(z), GateOpsAlong(n, debug, z, hs), entry);
  }

  // ---- With an L2 VM ----

  function PlainExit(rip: u64, len: u64, lists: NestedCall.Lists): HwExit {
    HwExit([], NestedCall.Regs(0, 0, rip, 0), 0, len, lists, false, false, MachineCheck)
  }

  // An interrupt comes while an L2 VM runs, and an event that L1 intercepts is to be injected.
  function InterruptForL1(z: LpSnap): Happening {
    Exit(VmExit(PlainExit(z.s.ripOnEntry, 0, z.x.lists), Stepping.OkContinue, Resume([], false), Resume([], false),
                false, false, true, []),
         Cause(Stepping.REASON_INTERRUPT, 32, false, true, z.s.lastEntryTsc, 1, None))
  }

  // L1 enters that VM again, with the same list.
  function EnterAgain(vm: VmId, z: LpSnap): Happening {
    var args := EnterArgs(vm, z.x.tdvps.listGpa[vm], true, true, true, false, false, None, true);
    Exit(VmExit(PlainExit(0, 3, z.x.lists), Stepping.OkContinue, VpEnter(args, []), Resume([], false),
                false, false, false, []),
         Cause(10, 0, false, true, 0, 1, None))
  }

  // The VM's next instruction traps.
  function Trap(rip: u64, tsc: u64, z: LpSnap): Happening {
    Exit(VmExit(PlainExit(rip, 0, z.x.lists), Stepping.OkContinue, NoCase(false), NoCase(false),
                false, false, false, []),
         Cause(Stepping.REASON_MTF, 0, false, true, tsc, 1, None))
  }

  /** With an L2 VM it can happen, from every state in which one runs with the defence idle: an interrupt starts
      the walk, the exit is held back and becomes an exit to L1, whose own exit ends the walk; back in the VM, its
      trap flag is still on, and the trap kills the TD. */
  lemma StaleTrapKills(n: VmId, z: LpSnap, rip: u64, tsc: u64)
    requires InGuest(n, z.x) && z.x.tdvps.currVm != 0 && !z.x.fatal && !z.x.vp.busLockPreempted
    requires z.s.phase.Idle? && z.s.mtf == {} && rip > z.s.ripOnEntry + 2 * Stepping.MAX_INST_LEN
    ensures var vm := z.x.tdvps.currVm;
            var r1 := LpStep(n, false, InterruptForL1(z), z);
            var r2 := LpStep(n, false, EnterAgain(vm, r1.1), r1.1);
            var r3 := LpStep(n, false, Trap(rip, tsc, r2.1), r2.1);
            && r1.0 == Some(Entered(0, z.x.vmcs.launched[0])) && r1.1.s.mtf == {vm}
            && r2.0 == Some(Entered(vm, true)) && r2.1.s.phase.Idle? && r2.1.s.mtf == {vm}
            && r3.0.Some? && r3.0.value.TdExit? && r3.0.value.status.NonRecoverableTd? && r3.1.x.fatal
  {
    var vm := z.x.tdvps.currVm;
    WalkChangesVm(n, z);
    var z1 := LpStep(n, false, InterruptForL1(z), z).1;
    L1EndsWalk(n, vm, z1);
    TrapKills(n, rip, tsc, LpStep(n, false, EnterAgain(vm, z1), z1).1);
  }

  lemma WalkChangesVm(n: VmId, z: LpSnap)
    requires InGuest(n, z.x) && z.x.tdvps.currVm != 0 && !z.x.fatal && !z.x.vp.busLockPreempted
    requires z.s.phase.Idle? && z.s.mtf == {}
    ensures var vm := z.x.tdvps.currVm;
            var (o, y) := LpStep(n, false, InterruptForL1(z), z);
            && o == Some(Entered(0, z.x.vmcs.launched[0])) && InGuest(n, y.x) && y.x.tdvps.currVm == 0
            && y.s == z.s.(phase := Stepping.Walking(0, false, false), mtf := {vm})
            && y.x.vmcs.launched[vm] && y.x.tdvps.listHpa[vm].Some? && y.x.tdvps.listGpa[vm] in y.x.lists
            && !y.x.fatal && !y.x.vp.busLockPreempted
  {
    var h := InterruptForL1(z);
    var j := WithFilter(h.i, h.c, z);
    assert Stepping.Step(z.s, Seen(h.i.e, h.c, z.x)).result == Stepping.OkResumeTd;
    L1IsBackIff(n, false, j, z.x);
    DispatchEndsWell(n, false, j, z.x);
    DispatchAccounts(n, false, j, z.x);
    L2AfterExit(n, false, j, z.x);
  }

  lemma L1EndsWalk(n: VmId, vm: VmId, z: LpSnap)
    requires InGuest(n, z.x) && z.x.tdvps.currVm == 0 && 0 < vm <= n && z.x.vmcs.launched[vm]
    requires z.x.tdvps.listHpa[vm].Some? && z.x.tdvps.listGpa[vm] in z.x.lists
    requires z.s.phase == Stepping.Walking(0, false, false) && z.s.mtf == {vm}
    requires !z.x.fatal && !z.x.vp.busLockPreempted
    ensures var (o, y) := LpStep(n, false, EnterAgain(vm, z), z);
            && o == Some(Entered(vm, true)) && InGuest(n, y.x) && y.x.tdvps.currVm == vm && !y.x.fatal
            && y.s == z.s.(phase := Stepping.Idle)
  {
    var h := EnterAgain(vm, z);
    var j := WithFilter(h.i, h.c, z);
    assert Stepping.Step(z.s, Seen(h.i.e, h.c, z.x)).result == Stepping.OkContinue;
    assert {vm} - {0} == {vm};
    L2IsEnteredIff(n, false, j, z.x);
    DispatchEndsWell(n, false, j, z.x);
    DispatchAccounts(n, false, j, z.x);
  }

  lemma TrapKills(n: VmId, rip: u64, tsc: u64, z: LpSnap)
    requires InGuest(n, z.x) && z.x.tdvps.currVm != 0 && !z.x.fatal
    requires z.s.phase.Idle? && z.x.tdvps.currVm in z.s.mtf && rip > z.s.ripOnEntry + 2 * Stepping.MAX_INST_LEN
    ensures var (o, y) := LpStep(n, false, Trap(rip, tsc, z), z);
            o.Some? && o.value.TdExit? && o.value.status.NonRecoverableTd? && y.x.fatal
  {
    var h := Trap(rip, tsc, z);
    TrapKillsIff(n, h.i, h.c, z);
  }

  /** Both ways to leave in mid-walk happen, from every state in which an L2 VM runs: the same interrupt with the
      debugger asking for a TD exit instead; and, with the walk under way, any exit of a TD that has become
      fatal. */
  lemma MidWalkHappens(n: VmId, z: LpSnap)
    requires InGuest(n, z.x) && z.x.tdvps.currVm != 0 && !z.x.fatal && z.s.phase.Idle?
    ensures var h := InterruptForL1(z);
            var i := h.i.(exitInstead := true);
            && LeavesWalking(i, h.c, z)
            && (var y := z.(x := z.x.(fatal := true), s := FilterOf(i, h.c, z).next); LeavesWalking(i, h.c, y))
  {
  }
}
