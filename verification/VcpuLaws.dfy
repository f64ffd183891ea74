/** What the flows of VcpuSpec mean, of one flow and of runs.

    Every flow that starts in the guest ends there, or at the host, in a state that the next one can start from;
    exactly which VM exits let L1 run on, enter an L2 VM, let it run on or bring L1 back; what each leaves of the
    VMs' registers and of the lists; and that no bus lock gets lost, no vCPU is counted twice, and nothing but
    its own list is written. */
module VcpuLaws {
  import opened Words
  import opened NestedCall
  import opened VcpuSpec
  import Epoch
  import Stepping

  // ---- Invariants ----

  ghost predicate Good(n: VmId, x: Snap) {
    InGuest(n, x) || AtHost(n, x)
  }

  ghost predicate NoHistory(x: Snap) {
    x.tdvps.currVm == 0 && x.tdvps.lastTdExit.AsyncFault? && x.tdvps.routed.NotRouted? && !x.counted
  }

  lemma ArrivedKeepsInGuest(n: VmId, e: HwExit, x: Snap)
    requires InGuest(n, x) && e.lists.Keys == x.lists.Keys
    ensures InGuest(n, Arrived(e, x))
  {
  }

  lemma PrologueKeepsInGuest(n: VmId, i: Input, x: Snap)
    requires InGuest(n, x) && i.VmExit? && Possible(i, x.lists)
    ensures var f := EarlyFlow(i.e, i.exitOnL2, i.filter, Arrived(i.e, x));
            f.GoesOn? ==>
              && InGuest(n, f.s) && f.s.tdvps.currVm == x.tdvps.currVm
              && (!i.e.failed ==> f.s.vmcs.exitLen[x.tdvps.currVm] == i.e.len && f.s.vmcs.launched[x.tdvps.currVm])
  {
    ArrivedKeepsInGuest(n, i.e, x);
  }

  lemma SwitchL1KeepsInGuest(e: HwExit, v: Handled, n: VmId, x: Snap)
    requires InGuest(n, x) && x.tdvps.currVm == 0
    ensures var f := SwitchL1(e, v, n, x);
            f.GoesOn? ==> InGuest(n, f.s) && f.s.tdvps.currVm == 0 && f.s.vmcs.launched == x.vmcs.launched
  {
  }

  lemma SwitchL2KeepsInGuest(e: HwExit, v: Handled, exitInstead: bool, info: seq<u64>, n: VmId, x: Snap)
    requires InGuest(n, x) && x.tdvps.currVm != 0
    ensures var f := SwitchL2(e, v, exitInstead, info, x);
            f.GoesOn? ==>
              && InGuest(n, f.s) && f.s.tdvps.currVm == x.tdvps.currVm
              && f.s.vmcs.launched == x.vmcs.launched
  {
  }

  /** How every flow ends: in the guest, entered by VMRESUME iff the processor has the VMCS launched, with the
      right VMCS active; or at the host; or the module halts. */
  ghost predicate EndsWell(n: VmId, f: Flow) {
    && f.Ends?
    && match f.o
       case Entered(vm, resume) => InGuest(n, f.s) && vm == f.s.tdvps.currVm && resume == f.s.vmcs.launched[vm]
       case TdExit(_, _) => AtHost(n, f.s)
       case VmcallTdExit(_) => AtHost(n, f.s)
       case Refused(_) => AtHost(n, f.s)
       case SanityFailure => false
       case Halted => true
  }

  lemma EndsWellIsGood(n: VmId, f: Flow)
    requires EndsWell(n, f)
    ensures !f.o.Halted? ==> Good(n, f.s)
    ensures f.o.Refused? ==> !InGuestNow(f.s)
  {
  }

  // A TD exit out of L1, whatever VMCS is active, or out of L2.
  lemma LeavingEndsWell(n: VmId, s: Status, report: bool, x: Snap)
    requires InGuest(n, x.(vp := x.vp.(activeVmcs := x.tdvps.currVm))) && (IsTrap(s) ==> x.tdvps.currVm == 0)
    ensures EndsWell(n, Left(s, report, x))
  {
  }

  lemma ToL1EndsWell(n: VmId, exitInstead: bool, reasonBusLock: bool, info: seq<u64>, x: Snap)
    requires InGuest(n, x) && x.tdvps.currVm != 0
    ensures EndsWell(n, ToL1Flow(exitInstead, reasonBusLock, info, x))
  {
    LeavingEndsWell(n, OnL2ToL1, reasonBusLock || x.vp.busLockPreempted, x);
  }

  lemma VpEnterEndsWell(n: VmId, a: EnterArgs, gprs: seq<u64>, x: Snap)
    requires InGuest(n, x) && x.tdvps.currVm == 0 && x.vmcs.exitLen[0] != 0
    ensures var f := VpEnterFlow(a, gprs, n, x); f.Ends? ==> EndsWell(n, f)
  {
    if !EnterChecksPass(a, n) {
    } else if a.exitBefore {
      LeavingEndsWell(n, BeforeL2Entry, false, x);
    } else {
      PreparedIsSane(n, a, x);
      var y := Prepared(a, x);
      LeavingEndsWell(n, Success, y.vp.busLockPreempted, y);
    }
  }

  lemma PreparedIsSane(n: VmId, a: EnterArgs, x: Snap)
    requires InGuest(n, x) && x.tdvps.currVm == 0 && 0 < a.vm <= n
    ensures var y := Prepared(a, x); InGuest(n, y.(vp := y.vp.(activeVmcs := 0))) && y.vp.activeVmcs == a.vm
  {
  }

  lemma LateL1EndsWell(n: VmId, debug: bool, i: Input, x: Snap)
    requires InGuest(n, x) && x.tdvps.currVm == 0 && i.VmExit? && Possible(i, x.lists)
    requires !i.e.failed ==> x.vmcs.exitLen[0] == i.e.len && x.vmcs.launched[0]
    ensures EndsWell(n, LateL1(i.e, i.filter, i.l1, i.voe, n, debug, x))
  {
    if i.filter == Stepping.OkContinue && i.e.failed {
      forall s, r | !IsTrap(s)
        ensures EndsWell(n, Left(s, r, x))
      {
        LeavingEndsWell(n, s, r, x);
      }
    } else if i.filter == Stepping.OkContinue {
      SwitchL1EndsWell(n, i.e, i.l1, x);
      SwitchL1KeepsInGuest(i.e, i.l1, n, x);
      var f := SwitchL1(i.e, i.l1, n, x);
      if f.GoesOn? {
        LeavingEndsWell(n, Success, f.s.vp.busLockPreempted, f.s);
      }
    } else {
      LeavingEndsWell(n, Success, x.vp.busLockPreempted, x);
    }
  }

  lemma SwitchL1EndsWell(n: VmId, e: HwExit, v: Handled, x: Snap)
    requires InGuest(n, x) && x.tdvps.currVm == 0 && L1Handles(v) && (HasLength(v) ==> x.vmcs.exitLen[0] != 0)
    ensures var f := SwitchL1(e, v, n, x); f.Ends? ==> EndsWell(n, f)
  {
    match v
    case Leave(s) => LeavingEndsWell(n, s, e.busLock || x.vp.busLockPreempted, x);
    case LeaveQuietly(s) => LeavingEndsWell(n, s, false, x);
    case VpEnter(a, gprs) => VpEnterEndsWell(n, a, gprs, x);
    case _ =>
  }

  lemma LateL2EndsWell(n: VmId, i: Input, x: Snap)
    requires InGuest(n, x) && x.tdvps.currVm != 0 && i.VmExit? && Possible(i, x.lists)
    requires !i.e.failed ==> x.vmcs.launched[x.tdvps.currVm]
    ensures EndsWell(n, LateL2(i.e, i.filter, i.l2, i.exitInstead, i.voe, i.info, x))
  {
    if i.filter == Stepping.OkContinue && i.e.failed {
      ToL1EndsWell(n, i.exitInstead, i.e.busLock, i.info, x);
      LeavingEndsWell(n, NonAccessible, i.e.busLock || x.vp.busLockPreempted, x);
    } else if i.filter == Stepping.OkContinue {
      SwitchL2EndsWell(n, i.e, i.l2, i.exitInstead, i.info, x);
      SwitchL2KeepsInGuest(i.e, i.l2, i.exitInstead, i.info, n, x);
      var f := SwitchL2(i.e, i.l2, i.exitInstead, i.info, x);
      if f.GoesOn? {
        FinishL2EndsWell(n, false, i, f.s);
      }
    } else {
      FinishL2EndsWell(n, true, i, x);
    }
  }

  lemma SwitchL2EndsWell(n: VmId, e: HwExit, v: Handled, exitInstead: bool, info: seq<u64>, x: Snap)
    requires InGuest(n, x) && x.tdvps.currVm != 0 && L2Handles(v)
    ensures var f := SwitchL2(e, v, exitInstead, info, x); f.Ends? ==> EndsWell(n, f)
  {
    match v
    case Leave(s) => LeavingEndsWell(n, s, e.busLock || x.vp.busLockPreempted, x);
    case ToL1 => ToL1EndsWell(n, exitInstead, e.busLock, info, x);
    case PostedInterrupt(rvi, _) => ToL1EndsWell(n, exitInstead, e.busLock, info, Notified(rvi, x));
    case _ =>
  }

  lemma FinishL2EndsWell(n: VmId, heldBack: bool, i: Input, x: Snap)
    requires i.VmExit? && InGuest(n, x) && x.tdvps.currVm != 0 && x.vmcs.launched[x.tdvps.currVm]
    ensures EndsWell(n, FinishL2(heldBack, i.voe, i.exitInstead, i.info, x))
  {
    LeavingEndsWell(n, Success, x.vp.busLockPreempted, x);
    ToL1EndsWell(n, i.exitInstead, false, i.info, x);
  }

  /** A VM exit always ends well. */
  lemma DispatchEndsWell(n: VmId, debug: bool, i: Input, x: Snap)
    requires InGuest(n, x) && i.VmExit? && Possible(i, x.lists)
    ensures EndsWell(n, Dispatched(n, debug, i, x)) && !Dispatched(n, debug, i, x).o.Refused?
  {
    PrologueKeepsInGuest(n, i, x);
    ArrivedKeepsInGuest(n, i.e, x);
    var y := Arrived(i.e, x);
    var f := EarlyFlow(i.e, i.exitOnL2, i.filter, y);
    if f.Ends? {
      LeavingEndsWell(n, f.o.status, f.o.busLock, y);
      LeavingEndsWell(n, f.o.status, f.o.busLock, Noted(i.e.busLock, y));
    } else if x.tdvps.currVm == 0 {
      LateL1EndsWell(n, debug, i, f.s);
    } else {
      LateL2EndsWell(n, i, f.s);
    }
  }

  /** In TDH.VP.ENTER, with the current VM's VMCS active. */
  ghost predicate Entering(n: VmId, x: Snap) {
    var t := x.tdvps;
    && Sane(n, x) && x.vp.activeVmcs == t.currVm && !x.vp.busLockPreempted
    && t.state.Ready? && t.associated && !x.fatal
    && (t.currVm == 0 ==> t.routed.NotRouted?) && (t.currVm != 0 ==> !t.lastTdExit.AsyncTrap?)
  }

  lemma ChosenEndsWell(n: VmId, a: HostArgs, x: Snap)
    requires Entering(n, x) && x.counted && x.tdvps.routed.NotRouted?
    ensures EndsWell(n, ChosenFlow(a, x)) && !ChosenFlow(a, x).s.vp.busLockPreempted
  {
  }

  lemma FromL2EndsWell(n: VmId, a: HostArgs, x: Snap)
    requires Entering(n, x) && x.counted && x.tdvps.currVm != 0
    ensures var f := FromL2Flow(a, x);
            if f.Ends? then EndsWell(n, f) else Entering(n, f.s) && f.s.counted && f.s.tdvps.routed.NotRouted?
  {
    var y := if AsksForL1(a) then x.(tdvps := Routed(x.tdvps)) else x;
    if !y.tdvps.routed.NotRouted? {
      ResumeL1EndsWell(n, a, y);
    }
  }

  lemma ResumeL1EndsWell(n: VmId, a: HostArgs, x: Snap)
    requires Entering(n, x) && x.counted && x.tdvps.currVm != 0
    ensures var f := ResumeL1Flow(a, x);
            if f.Ends? then EndsWell(n, f) else Entering(n, f.s) && f.s.counted && f.s.tdvps.routed.NotRouted?
  {
  }

  lemma CountedEndsWell(n: VmId, a: HostArgs, x: Snap)
    requires Entering(n, x) && x.counted
    ensures EndsWell(n, CountedFlow(a, x)) && !CountedFlow(a, x).s.vp.busLockPreempted
  {
    if a.filter == Stepping.FailSeptTreeBusy {
    } else if x.tdvps.currVm == 0 {
      ChosenEndsWell(n, a, x);
    } else {
      FromL2EndsWell(n, a, x);
      if FromL2Flow(a, x).GoesOn? {
        ChosenEndsWell(n, a, FromL2Flow(a, x).s);
      }
    }
  }

  /** TDH.VP.ENTER always ends well: the guest is entered, or the host has the vCPU back. */
  lemma EntryEndsWell(n: VmId, a: HostArgs, x: Snap)
    requires AtHost(n, x)
    ensures EndsWell(n, EntryFlow(a, x)) && !EntryFlow(a, x).s.vp.busLockPreempted
  {
    if !x.fatal && x.tdvps.state.Ready? {
      var f := RequestFlow(a, Associated(x));
      if f.GoesOn? && a.epochLockFree {
        CountedIsSane(n, !x.tdvps.associated, f.s);
        CountedEndsWell(n, a, CountedIn(!x.tdvps.associated, f.s));
      }
    }
  }

  lemma CountedIsSane(n: VmId, newAssociation: bool, x: Snap)
    requires Entering(n, x)
    ensures Entering(n, CountedIn(newAssociation, x)) && CountedIn(newAssociation, x).counted
  {
  }

  predicate NeverHalts(n: VmId, debug: bool, x: Snap, inputs: seq<Input>) {
    forall k | 0 <= k < |inputs| :: StepOf(n, debug, inputs[k], RunOf(n, debug, x, inputs[..k])).0 != Some(Halted)
  }

  lemma NeverHaltsBefore(n: VmId, debug: bool, x: Snap, inputs: seq<Input>, m: nat)
    requires NeverHalts(n, debug, x, inputs) && m <= |inputs|
    ensures NeverHalts(n, debug, x, inputs[..m])
  {
    forall k | 0 <= k < m
      ensures StepOf(n, debug, inputs[..m][k], RunOf(n, debug, x, inputs[..m][..k])).0 != Some(Halted)
    {
      assert inputs[..m][..k] == inputs[..k];
    }
  }

  /** Every run stays good. */
  lemma {:induction false} RunStaysGood(n: VmId, debug: bool, x: Snap, inputs: seq<Input>)
    requires Good(n, x) && NeverHalts(n, debug, x, inputs)
    ensures Good(n, RunOf(n, debug, x, inputs))
  {
    if inputs != [] {
      var k := |inputs| - 1;
      NeverHaltsBefore(n, debug, x, inputs, k);
      RunStaysGood(n, debug, x, inputs[..k]);
      StepKeepsGood(n, debug, inputs[k], RunOf(n, debug, x, inputs[..k]));
    }
  }

  /** The outcomes of a run ... */
  predicate IsRun(n: VmId, debug: bool, x: Snap, inputs: seq<Input>, outs: seq<Option<Outcome>>) {
    && |outs| == |inputs|
    && forall k | 0 <= k < |outs| :: outs[k] == StepOf(n, debug, inputs[k], RunOf(n, debug, x, inputs[..k])).0
  }

  // ... and where it has come to.
  predicate HasRun(n: VmId, debug: bool, x: Snap, inputs: seq<Input>, outs: seq<Option<Outcome>>, s: Snap) {
    IsRun(n, debug, x, inputs, outs) && s == RunOf(n, debug, x, inputs)
  }

  lemma RunGoesOn(n: VmId, debug: bool, x: Snap, inputs: seq<Input>, outs: seq<Option<Outcome>>, y: Snap, i: Input,
                  o: Option<Outcome>, s: Snap)
    requires HasRun(n, debug, x, inputs, outs, y) && Good(n, y) && (o, s) == StepOf(n, debug, i, y)
    ensures HasRun(n, debug, x, inputs + [i], outs + [o], s)
    ensures o != Some(Halted) ==> Good(n, s)
  {
    assert (inputs + [i])[..|inputs|] == inputs;
    forall k | 0 <= k < |outs|
      ensures outs[k] == StepOf(n, debug, (inputs + [i])[k], RunOf(n, debug, x, (inputs + [i])[..k])).0
    {
      assert (inputs + [i])[..k] == inputs[..k];
    }
    StepKeepsGood(n, debug, i, y);
  }

  /** Host actions do nothing while the guest runs, nor a VM exit at the host; and of what the other vCPUs do, this
      one sees the fatal flag, which they cannot clear, the epoch and the counts. */
  lemma OnlyWhatFits(n: VmId, debug: bool, i: Input, x: Snap)
    ensures (if InGuestNow(x) then i.VpEnterByHost? || i.VpFlush? else i.VmExit?) ==>
              StepOf(n, debug, i, x) == (None, x)
    ensures i.OtherVcpus? ==>
              StepOf(n, debug, i, x)
              == (None, x.(fatal := x.fatal || i.fatal, epoch := i.epoch, refcount := i.refcount))
  {
  }

  lemma StepKeepsGood(n: VmId, debug: bool, i: Input, x: Snap)
    requires Good(n, x)
    ensures StepOf(n, debug, i, x).0 != Some(Halted) ==> Good(n, StepOf(n, debug, i, x).1)
  {
    match i
    case VmExit(_, _, _, _, _, _, _, _) => VmExitKeepsGood(n, debug, i, x);
    case VpEnterByHost(args) => EntryKeepsGood(n, debug, args, x);
    case _ =>
  }

  lemma VmExitKeepsGood(n: VmId, debug: bool, i: Input, x: Snap)
    requires Good(n, x) && i.VmExit?
    ensures StepOf(n, debug, i, x).0 != Some(Halted) ==> Good(n, StepOf(n, debug, i, x).1)
  {
    if InGuestNow(x) && Possible(i, x.lists) {
      DispatchEndsWell(n, debug, i, x);
    }
  }

  lemma EntryKeepsGood(n: VmId, debug: bool, a: HostArgs, x: Snap)
    requires Good(n, x)
    ensures Good(n, StepOf(n, debug, VpEnterByHost(a), x).1)
  {
    if !InGuestNow(x) {
      EntryEndsWell(n, a, x);
      EndsWellIsGood(n, EntryFlow(a, x));
    }
  }

  // ---- When what happens ----

  /** A bus lock is to be reported. */
  predicate Owes(i: Input, x: Snap)
    requires i.VmExit?
  {
    x.vp.busLockPreempted || i.e.busLock
  }

  // The flow gets past the prologue.
  predicate PastPrologue(i: Input, x: Snap)
    requires i.VmExit?
  {
    !x.fatal && !(i.exitOnL2 && x.tdvps.currVm > 0) && i.filter != Stepping.FailTdexitWrongApicMode
  }

  // The flow gets to the handler.
  predicate Handles(i: Input, x: Snap)
    requires i.VmExit?
  {
    PastPrologue(i, x) && i.filter == Stepping.OkContinue && !i.e.failed
  }

  // TDG.VP.ENTER's operands are in order: the VM's number first of all.
  predicate EntersVm(a: EnterArgs, n: VmId) {
    a.listValid && 1 <= a.vm <= n && a.reservedZero && a.vapicSet && !a.pendingInterrupt
  }

  // The host address of its list is known, and the list is the one it is kept for, or a walk finds it.
  predicate FindsList(a: EnterArgs, t: Tdvps, lists: Lists) {
    || (t.listGpa[a.vm] == a.list && t.listHpa[a.vm].Some?)
    || (a.listWalk.Some? && a.list in lists)
  }

  // The handler leaves it at that.
  predicate GoesOnL1(v: Handled, n: VmId) {
    v.Resume? || (v.VmCall? && !v.accepted) || (v.VpEnter? && !EntersVm(v.args, n))
  }

  /** The handler completes the instruction that caused L1's exit. */
  predicate Completes(v: Handled, n: VmId) {
    match v
    case Resume(_, advance) => advance
    case VmCall(_, _) => true
    case VpEnter(a, _) => !EntersVm(a, n)
    case LeaveQuietly(s) => s.CrossTdTrap? || s.HostPriorityTimeout?
    case _ => false
  }

  // The interrupt's priority class is above L1's: it is delivered, with whatever L1 had requested before.
  predicate IsAbove(status: u64, rvi: u8, ppr: u8) {
    rvi / 16 > ppr / 16 || status % 256 / 16 > ppr / 16
  }

  predicate GoesOnL2(v: Handled, x: Snap) {
    || v.Resume? || (v.VmCall? && !v.accepted)
    || (v.PostedInterrupt? && !IsAbove(x.vmcs.interruptStatus[0], v.rvi, v.ppr))
  }

  // Nothing more than the bus lock and the event to be injected can stop L1 ...
  function ThenL1(i: Input, x: Snap): Outcome
    requires i.VmExit?
  {
    if Owes(i, x) then TdExit(Success, true) else if i.voe then TdExit(Success, false) else Entered(0, true)
  }

  // ... or L2.
  function ThenL2(i: Input, x: Snap): Outcome
    requires i.VmExit?
  {
    if Owes(i, x) then TdExit(Success, true) else if i.voe then BackToL1(i, x) else Entered(x.tdvps.currVm, true)
  }

  function BackToL1(i: Input, x: Snap): Outcome
    requires i.VmExit?
  {
    if i.exitInstead then TdExit(OnL2ToL1, Owes(i, x)) else Entered(0, x.vmcs.launched[0])
  }

  /** What comes of a VM exit of L1, of all that it depends on. */
  function L1Outcome(n: VmId, debug: bool, i: Input, x: Snap): Outcome
    requires i.VmExit?
  {
    if x.fatal then TdExit(NonAccessible, Owes(i, x))
    else if i.filter == Stepping.FailTdexitWrongApicMode then TdExit(WrongApicMode, Owes(i, x))
    else if i.filter == Stepping.OkResumeTd then if i.voe then TdExit(Success, Owes(i, x)) else Entered(0, true)
    else if i.e.failed then
      match i.e.failure
      case GuestState => TdExit(if debug then Success else NonRecoverableTd, Owes(i, x))
      case MachineCheck => TdExit(NonAccessible, Owes(i, x))
      case Unexpected => Halted
    else
      match i.l1
      case Resume(_, _) => ThenL1(i, x)
      case Leave(s) => TdExit(s, Owes(i, x))
      case LeaveQuietly(s) => TdExit(s, false)
      case VmCall(accepted, _) => if accepted then VmcallTdExit(Owes(i, x)) else ThenL1(i, x)
      case VpEnter(a, _) =>
        if !EntersVm(a, n) then ThenL1(i, x)
        else if a.exitBefore then TdExit(BeforeL2Entry, false)
        else if !FindsList(a, x.tdvps, i.e.lists) || !a.vapicMapped then TdExit(Success, Owes(i, x))
        else Entered(a.vm, x.vmcs.launched[a.vm])
      case _ => Halted
  }

  /** ... and of one of L2. */
  function L2Outcome(i: Input, x: Snap): Outcome
    requires i.VmExit?
  {
    if x.fatal then TdExit(NonAccessible, Owes(i, x))
    else if i.exitOnL2 then TdExit(OnL2VmExit, Owes(i, x))
    else if i.filter == Stepping.FailTdexitWrongApicMode then TdExit(WrongApicMode, Owes(i, x))
    else if i.filter == Stepping.OkResumeTd then if i.voe then BackToL1(i, x) else Entered(x.tdvps.currVm, true)
    else if i.e.failed then
      match i.e.failure
      case GuestState => BackToL1(i, x)
      case MachineCheck => TdExit(NonAccessible, Owes(i, x))
      case Unexpected => Halted
    else
      match i.l2
      case Resume(_, _) => ThenL2(i, x)
      case Leave(s) => TdExit(s, Owes(i, x))
      case VmCall(accepted, _) => if accepted then VmcallTdExit(Owes(i, x)) else ThenL2(i, x)
      case ToL1 => BackToL1(i, x)
      case PostedInterrupt(rvi, ppr) =>
        if IsAbove(x.vmcs.interruptStatus[0], rvi, ppr) then BackToL1(i, x) else ThenL2(i, x)
      case _ => Halted
  }

  /** The dispatchers decide as those tables say. */
  lemma L1ExitDecides(n: VmId, debug: bool, i: Input, x: Snap)
    requires InGuest(n, x) && x.tdvps.currVm == 0 && i.VmExit? && Possible(i, x.lists)
    ensures Dispatched(n, debug, i, x).Ends? && Dispatched(n, debug, i, x).o == L1Outcome(n, debug, i, x)
  {
    if !PastPrologue(i, x) {
    } else if i.filter != Stepping.OkContinue {
    } else if i.e.failed {
    } else {
      match i.l1
      case VmCall(_, _) =>
      case VpEnter(a, _) =>
        if EntersVm(a, n) && !a.exitBefore {
        }
      case _ =>
    }
  }

  lemma L2ExitDecides(n: VmId, debug: bool, i: Input, x: Snap)
    requires InGuest(n, x) && x.tdvps.currVm != 0 && i.VmExit? && Possible(i, x.lists)
    ensures Dispatched(n, debug, i, x).Ends? && Dispatched(n, debug, i, x).o == L2Outcome(i, x)
  {
    if !PastPrologue(i, x) {
    } else if i.filter != Stepping.OkContinue {
    } else if i.e.failed {
    } else {
      match i.l2
      case VmCall(_, _) =>
      case PostedInterrupt(_, _) =>
      case _ =>
    }
  }

  /** So L1 is resumed, by VMRESUME, exactly if nothing makes its exit a TD exit or an entry to L2: the TD is not
      fatal, the filter holds the exit back or lets it through to a handler that goes on with no bus lock owed,
      and no vector-on-entry is to be turned into a TD exit. */
  lemma L1RunsOnIff(n: VmId, debug: bool, i: Input, x: Snap)
    requires InGuest(n, x) && x.tdvps.currVm == 0 && i.VmExit? && Possible(i, x.lists)
    ensures Dispatched(n, debug, i, x).o == Entered(0, true)
       <==> && PastPrologue(i, x) && !i.voe
            && (i.filter != Stepping.OkContinue || (!i.e.failed && GoesOnL1(i.l1, n) && !Owes(i, x)))
  {
    L1ExitDecides(n, debug, i, x);
  }

  /** L2 is entered exactly if L1's TDG.VP.ENTER gets to its handler, no check fails with a status, the debugger
      wants no TD exit first, and both addresses translate; by VMRESUME iff that VM is launched. */
  lemma L2IsEnteredIff(n: VmId, debug: bool, i: Input, x: Snap)
    requires InGuest(n, x) && x.tdvps.currVm == 0 && i.VmExit? && Possible(i, x.lists)
    ensures (Dispatched(n, debug, i, x).o.Entered? && Dispatched(n, debug, i, x).o.vm != 0)
       <==> && Handles(i, x) && i.l1.VpEnter? && EntersVm(i.l1.args, n) && !i.l1.args.exitBefore
            && FindsList(i.l1.args, x.tdvps, i.e.lists) && i.l1.args.vapicMapped
    ensures var o := Dispatched(n, debug, i, x).o;
            o.Entered? && o.vm != 0 ==> o == Entered(i.l1.args.vm, x.vmcs.launched[i.l1.args.vm])
  {
    L1ExitDecides(n, debug, i, x);
  }

  /** L2 is resumed ... */
  lemma L2RunsOnIff(n: VmId, debug: bool, i: Input, x: Snap)
    requires InGuest(n, x) && x.tdvps.currVm != 0 && i.VmExit? && Possible(i, x.lists)
    ensures Dispatched(n, debug, i, x).o == Entered(x.tdvps.currVm, true)
       <==> && PastPrologue(i, x) && !i.voe
            && (i.filter != Stepping.OkContinue || (!i.e.failed && GoesOnL2(i.l2, x) && !Owes(i, x)))
  {
    L2ExitDecides(n, debug, i, x);
  }

  // Something in the flow is for L1.
  predicate IsForL1(i: Input, x: Snap)
    requires i.VmExit?
  {
    if i.filter != Stepping.OkContinue then i.voe
    else if i.e.failed then i.e.failure.GuestState?
    else i.l2.ToL1? || (i.l2.PostedInterrupt? && !GoesOnL2(i.l2, x)) || (GoesOnL2(i.l2, x) && !Owes(i, x) && i.voe)
  }

  /** ... and exits to L1 exactly if the exit, a posted interrupt, a vector-on-entry or an invalid guest state is
      for L1 and the debugger does not want a TD exit instead. */
  lemma L1IsBackIff(n: VmId, debug: bool, i: Input, x: Snap)
    requires InGuest(n, x) && x.tdvps.currVm != 0 && i.VmExit? && Possible(i, x.lists)
    ensures Dispatched(n, debug, i, x).o == Entered(0, x.vmcs.launched[0])
       <==> PastPrologue(i, x) && IsForL1(i, x) && !i.exitInstead
  {
    L2ExitDecides(n, debug, i, x);
  }

  // ---- What changes ----

  /** A VM exit of L1.  L1 moves exactly when its instruction is completed, and once; the lists are as L1 left
      them; and the VM that runs next does so with the registers due to it. */
  lemma L1AfterExit(n: VmId, debug: bool, i: Input, x: Snap)
    requires InGuest(n, x) && x.tdvps.currVm == 0 && i.VmExit? && Possible(i, x.lists)
    ensures L1Left(n, Handles(i, x), i, Arrived(i.e, x), Dispatched(n, debug, i, x))
  {
    if Handles(i, x) {
      PrologueKeepsInGuest(n, i, x);
      SwitchL1Leaves(n, i, Noted(i.e.busLock, Arrived(i.e, x)));
    } else {
      UnhandledL1Leaves(n, debug, i, x);
    }
  }

  lemma UnhandledL1Leaves(n: VmId, debug: bool, i: Input, x: Snap)
    requires x.tdvps.currVm == 0 && i.VmExit? && !Handles(i, x)
    ensures L1Left(n, false, i, Arrived(i.e, x), Dispatched(n, debug, i, x))
  {
    var z := Noted(i.e.busLock, Arrived(i.e, x));
    if !PastPrologue(i, x) {
      EarlyLeavesL1(n, i, Arrived(i.e, x));
    } else if i.filter != Stepping.OkContinue {
      HeldBackLeavesL1(n, i, z);
    } else {
      FailedLeavesL1(n, debug, i, z);
    }
  }

  lemma EarlyLeavesL1(n: VmId, i: Input, y: Snap)
    requires y.tdvps.currVm == 0 && i.VmExit? && !PastPrologue(i, y)
    ensures L1Left(n, false, i, y, EarlyFlow(i.e, i.exitOnL2, i.filter, y))
  {
  }

  lemma HeldBackLeavesL1(n: VmId, i: Input, z: Snap)
    requires z.tdvps.currVm == 0 && i.VmExit?
    ensures L1Left(n, false, i, z, FinishL1(true, i.voe, z))
  {
  }

  lemma FailedLeavesL1(n: VmId, debug: bool, i: Input, z: Snap)
    requires z.tdvps.currVm == 0 && i.VmExit?
    ensures L1Left(n, false, i, z, FailedEntryL1(i.e, debug, z))
  {
  }

  ghost predicate L1Left(n: VmId, handled: bool, i: Input, y: Snap, f: Flow)
    requires i.VmExit?
  {
    && f.Ends? && f.s.lists == y.lists && f.s.vmcs.launched == y.vmcs.launched
    && f.s.tdvps.currVm == (if f.o.Entered? then f.o.vm else 0)
    && f.s.vmcs.interruptStatus[0] == y.vmcs.interruptStatus[0]
    && (if handled && Completes(i.l1, n) then PastOnly(y.vmcs.regs[0], i.e.len, f.s.vmcs.regs[0])
        else f.s.vmcs.regs[0] == y.vmcs.regs[0])
    && (if f.o.Entered? && f.o.vm != 0 then
          && handled && i.l1.VpEnter? && f.s.tdvps.listGpa[f.o.vm] == i.l1.args.list && i.l1.args.list in f.s.lists
          && f.s.lists[i.l1.args.list] == Image(f.s.tdvps.gprs, f.s.vmcs.regs[f.o.vm], f.s.vmcs.interruptStatus[f.o.vm])
        else
          f.s.tdvps.gprs == if handled && GoesOnL1(i.l1, n) then i.l1.gprs else y.tdvps.gprs)
  }

  lemma SwitchL1Leaves(n: VmId, i: Input, y: Snap)
    requires InGuest(n, y) && y.tdvps.currVm == 0 && i.VmExit? && L1Handles(i.l1) && y.vmcs.exitLen[0] == i.e.len
    ensures var f := SwitchL1(i.e, i.l1, n, y);
            L1Left(n, true, i, y, if f.Ends? then f else FinishL1(false, i.voe, f.s))
  {
    match i.l1
    case VpEnter(a, gprs) =>
      if EnterChecksPass(a, n) {
        VpEnterLeaves(n, a, gprs, i, y);
      }
    case Resume(gprs, advance) => GoesOnLeaves(n, gprs, advance, i, y);
    case VmCall(accepted, gprs) =>
      if !accepted {
        GoesOnLeaves(n, gprs, true, i, y);
      }
    case Leave(s) => TdExitLeaves(n, s, i.e.busLock || y.vp.busLockPreempted, i, y);
    case LeaveQuietly(s) => TdExitLeaves(n, s, false, i, y);
    case _ =>
  }

  lemma TdExitLeaves(n: VmId, s: Status, report: bool, i: Input, y: Snap)
    requires InGuest(n, y) && y.tdvps.currVm == 0 && i.VmExit? && y.vmcs.exitLen[0] == i.e.len
    requires (i.l1 == Leave(s) && !IsQuiet(s)) || i.l1 == LeaveQuietly(s)
    ensures L1Left(n, true, i, y, Left(s, report, y))
  {
    if IsTrap(s) {
    } else {
    }
  }

  lemma GoesOnLeaves(n: VmId, gprs: seq<u64>, advance: bool, i: Input, y: Snap)
    requires InGuest(n, y) && y.tdvps.currVm == 0 && i.VmExit? && GoesOnL1(i.l1, n) && y.vmcs.exitLen[0] == i.e.len
    requires gprs == i.l1.gprs && (advance <==> Completes(i.l1, n))
    ensures L1Left(n, true, i, y, FinishL1(false, i.voe, Emulated(gprs, advance, y)))
  {
  }

  lemma VpEnterLeaves(n: VmId, a: EnterArgs, gprs: seq<u64>, i: Input, y: Snap)
    requires InGuest(n, y) && y.tdvps.currVm == 0 && i.VmExit? && i.l1 == VpEnter(a, gprs) && EnterChecksPass(a, n)
    ensures L1Left(n, true, i, y, VpEnterFlow(a, gprs, n, y))
  {
    if !a.exitBefore {
      PreparedIsSane(n, a, y);
    }
  }

  function Past(r: Regs, len: u64): Regs {
    Regs(r.rsp, r.rflags, (r.rip + len) % 0x1_0000_0000_0000_0000, r.ssp)
  }

  // What the handler makes of L2's image: its registers, and the instruction that it completes.
  function HandledImage(v: Handled, len: u64, image: Image): Image {
    match v
    case Resume(gprs, advance) =>
      Image(gprs, if advance then Past(image.regs, len) else image.regs, image.interruptStatus)
    case VmCall(accepted, gprs) =>
      Image(if accepted then image.gprs else gprs, Past(image.regs, len), image.interruptStatus)
    case _ => image
  }

  /** What a VM exit makes of L2's image: what the processor delivered, and then what the handler did, if the
      flow gets there. */
  function L2After(i: Input, x: Snap): Image
    requires i.VmExit?
  {
    var vm := x.tdvps.currVm;
    var image := if i.e.failed then Image(x.tdvps.gprs, x.vmcs.regs[vm], x.vmcs.interruptStatus[vm])
                 else Image(i.e.gprs, i.e.regs, i.e.interruptStatus);
    if Handles(i, x) then HandledImage(i.l2, i.e.len, image) else image
  }

  /** A VM exit of L2.  L2 runs on with exactly that image; an exit to the host that leaves the TD accessible
      puts it on L2's list, and no other list changes; TDG.VP.VMCALL and a dead TD write nothing.  L1 moves only
      when it is back, past its TDG.VP.ENTER, once. */
  lemma L2AfterExit(n: VmId, debug: bool, i: Input, x: Snap)
    requires InGuest(n, x) && x.tdvps.currVm != 0 && i.VmExit? && Possible(i, x.lists)
    ensures L2Left(L2After(i, x), i.info, Arrived(i.e, x), Dispatched(n, debug, i, x))
  {
    var y := Noted(i.e.busLock, Arrived(i.e, x));
    if Handles(i, x) {
      PrologueKeepsInGuest(n, i, x);
      SwitchL2Leaves(n, i, y);
    } else {
      UnhandledLeaves(n, debug, i, x);
    }
  }

  lemma UnhandledLeaves(n: VmId, debug: bool, i: Input, x: Snap)
    requires i.VmExit? && x.tdvps.currVm != 0 && !Handles(i, x)
    ensures L2Left(L2After(i, x), i.info, Arrived(i.e, x), Dispatched(n, debug, i, x))
  {
    var y := Noted(i.e.busLock, Arrived(i.e, x));
    if !PastPrologue(i, x) {
      EarlyLeaves(i, Arrived(i.e, x));
    } else if i.filter != Stepping.OkContinue {
      FinishL2Leaves(true, i, y);
    } else {
      FailedL2Leaves(i, y);
    }
  }

  lemma FailedL2Leaves(i: Input, z: Snap)
    requires i.VmExit? && z.tdvps.currVm != 0
    ensures L2Left(L2Image(z.tdvps, z.vmcs), i.info, z, FailedEntryL2(i.e, i.exitInstead, i.info, z))
  {
    ToL1Leaves(i.exitInstead, i.e.busLock, i.info, z);
  }

  lemma EarlyLeaves(i: Input, y: Snap)
    requires i.VmExit? && y.tdvps.currVm != 0 && !PastPrologue(i, y)
    ensures L2Left(L2Image(y.tdvps, y.vmcs), i.info, y, EarlyFlow(i.e, i.exitOnL2, i.filter, y))
  {
  }

  // That VM is current, with that image.
  predicate HasImage(vm: VmId, image: Image, s: Snap) {
    && s.tdvps.currVm == vm && s.tdvps.gprs == image.gprs && s.vmcs.regs[vm] == image.regs
    && s.vmcs.interruptStatus[vm] == image.interruptStatus
  }

  ghost predicate L2Left(image: Image, info: seq<u64>, y: Snap, f: Flow) {
    var vm, list := y.tdvps.currVm, y.tdvps.listGpa[y.tdvps.currVm];
    && f.Ends? && f.s.vmcs.launched == y.vmcs.launched
    && match f.o
       case Entered(to, _) =>
         if to == 0 then
           && f.s.lists == y.lists[list := image] && f.s.tdvps.currVm == 0 && f.s.tdvps.gprs == info
           && PastOnly(y.vmcs.regs[0], y.vmcs.exitLen[0], f.s.vmcs.regs[0])
         else
           f.s.lists == y.lists && HasImage(vm, image, f.s) && f.s.vmcs.regs[0] == y.vmcs.regs[0]
       case TdExit(s, _) =>
         && f.s.lists == (if s.NonAccessible? then y.lists else y.lists[list := image])
         && HasImage(vm, image, f.s) && f.s.vmcs.regs[0] == y.vmcs.regs[0]
       case VmcallTdExit(_) =>
         f.s.lists == y.lists && HasImage(vm, image, f.s) && f.s.vmcs.regs[0] == y.vmcs.regs[0]
       case _ => true
  }

  lemma SwitchL2Leaves(n: VmId, i: Input, y: Snap)
    requires InGuest(n, y) && y.tdvps.currVm != 0 && i.VmExit? && L2Handles(i.l2) && !i.e.failed
    requires y.vmcs.exitLen[y.tdvps.currVm] == i.e.len
    ensures var f := SwitchL2(i.e, i.l2, i.exitInstead, i.info, y);
            L2Left(HandledImage(i.l2, i.e.len, L2Image(y.tdvps, y.vmcs)), i.info, y,
                   if f.Ends? then f else FinishL2(false, i.voe, i.exitInstead, i.info, f.s))
  {
    match i.l2
    case Resume(gprs, advance) => FinishL2Leaves(false, i, Emulated(gprs, advance, y));
    case VmCall(accepted, gprs) => VmcallLeaves(accepted, gprs, i, y);
    case ToL1 => ToL1Leaves(i.exitInstead, i.e.busLock, i.info, y);
    case PostedInterrupt(rvi, ppr) =>
      if Delivers(y.vmcs.interruptStatus[0], rvi, ppr) {
        ToL1Leaves(i.exitInstead, i.e.busLock, i.info, Notified(rvi, y));
      } else {
        FinishL2Leaves(false, i, Notified(rvi, y));
      }
    case Leave(_) =>
    case _ =>
  }

  lemma VmcallLeaves(accepted: bool, gprs: seq<u64>, i: Input, y: Snap)
    requires y.tdvps.currVm != 0 && i.VmExit? && y.vmcs.exitLen[y.tdvps.currVm] == i.e.len
    ensures var f := VmcallFlow(accepted, gprs, y);
            L2Left(HandledImage(VmCall(accepted, gprs), i.e.len, L2Image(y.tdvps, y.vmcs)), i.info, y,
                   if f.Ends? then f else FinishL2(false, i.voe, i.exitInstead, i.info, f.s))
  {
    if !accepted {
      FinishL2Leaves(false, i, Emulated(gprs, true, y));
    }
  }

  lemma ToL1Leaves(exitInstead: bool, reasonBusLock: bool, info: seq<u64>, z: Snap)
    requires z.tdvps.currVm != 0
    ensures L2Left(L2Image(z.tdvps, z.vmcs), info, z, ToL1Flow(exitInstead, reasonBusLock, info, z))
  {
  }

  lemma FinishL2Leaves(heldBack: bool, i: Input, z: Snap)
    requires i.VmExit? && z.tdvps.currVm != 0
    ensures L2Left(L2Image(z.tdvps, z.vmcs), i.info, z, FinishL2(heldBack, i.voe, i.exitInstead, i.info, z))
  {
    ToL1Leaves(i.exitInstead, false, i.info, z);
  }

  predicate SameVmcs(k: VmId, v: Vmcses, w: Vmcses) {
    && w.exitLen[k] == v.exitLen[k] && w.launched[k] == v.launched[k] && w.regs[k] == v.regs[k]
    && w.interruptStatus[k] == v.interruptStatus[k]
  }

  // Not that of another L2 VM, unless the flow enters it.
  predicate Stays(k: VmId, x: Snap, f: Flow) {
    SameVmcs(k, x.vmcs, f.s.vmcs) || (f.Ends? && f.o.Entered? && f.o.vm == k)
  }

  /** Whatever VM exits, no other L2 VM's VMCS changes, except that of the VM that L1 enters. */
  lemma OthersStay(n: VmId, debug: bool, i: Input, x: Snap, k: VmId)
    requires InGuest(n, x) && i.VmExit? && Possible(i, x.lists) && k != 0 && k != x.tdvps.currVm
    ensures Stays(k, x, Dispatched(n, debug, i, x))
  {
    var y := Noted(i.e.busLock, Arrived(i.e, x));
    if !PastPrologue(i, x) {
    } else if x.tdvps.currVm == 0 {
      LateL1Stays(n, debug, i, y, k);
    } else {
      LateL2Stays(i, y, k);
    }
  }

  lemma LateL1Stays(n: VmId, debug: bool, i: Input, y: Snap, k: VmId)
    requires i.VmExit? && y.tdvps.currVm == 0 && k != 0
    ensures Stays(k, y, LateL1(i.e, i.filter, i.l1, i.voe, n, debug, y))
  {
    if i.filter != Stepping.OkContinue {
    } else if i.e.failed {
    } else {
      SwitchL1Stays(n, i, y, k);
      var f := SwitchL1(i.e, i.l1, n, y);
      if f.GoesOn? {
        FinishL1Stays(i.voe, f.s, k);
      }
    }
  }

  lemma SwitchL1Stays(n: VmId, i: Input, y: Snap, k: VmId)
    requires i.VmExit? && y.tdvps.currVm == 0 && k != 0
    ensures var f := SwitchL1(i.e, i.l1, n, y); Stays(k, y, f) && (f.GoesOn? ==> f.s.tdvps.currVm == 0)
  {
    match i.l1
    case VpEnter(a, gprs) => VpEnterStays(n, a, gprs, y, k);
    case Resume(_, _) =>
    case VmCall(_, _) =>
    case Leave(_) =>
    case _ =>
  }

  lemma VpEnterStays(n: VmId, a: EnterArgs, gprs: seq<u64>, y: Snap, k: VmId)
    requires y.tdvps.currVm == 0 && k != 0
    ensures var f := VpEnterFlow(a, gprs, n, y); Stays(k, y, f) && (f.GoesOn? ==> f.s.tdvps.currVm == 0)
  {
    if !EntersVm(a, n) {
    } else if a.exitBefore {
    } else {
      EnteringStays(a, y, k);
    }
  }

  lemma EnteringStays(a: EnterArgs, y: Snap, k: VmId)
    requires y.tdvps.currVm == 0 && k != 0
    ensures var z := Prepared(a, y);
            && SameVmcs(k, y.vmcs, LeftToVmm(Success, false, z).s.vmcs)
            && (k != a.vm ==> SameVmcs(k, y.vmcs, AtL2(a.vm, z).vmcs))
  {
  }

  lemma FinishL1Stays(voe: bool, y: Snap, k: VmId)
    requires y.tdvps.currVm == 0 && k != 0
    ensures Stays(k, y, FinishL1(false, voe, y))
  {
  }

  lemma LateL2Stays(i: Input, y: Snap, k: VmId)
    requires i.VmExit? && y.tdvps.currVm != 0 && k != 0 && k != y.tdvps.currVm
    ensures Stays(k, y, LateL2(i.e, i.filter, i.l2, i.exitInstead, i.voe, i.info, y))
  {
    if i.filter != Stepping.OkContinue {
      FinishL2Stays(true, i, y, k);
    } else if i.e.failed {
      ToL1Stays(i.exitInstead, i.e.busLock, i.info, y, k);
    } else {
      SwitchL2Stays(i, y, k);
      var f := SwitchL2(i.e, i.l2, i.exitInstead, i.info, y);
      if f.GoesOn? {
        FinishL2Stays(false, i, f.s, k);
      }
    }
  }

  lemma SwitchL2Stays(i: Input, y: Snap, k: VmId)
    requires i.VmExit? && y.tdvps.currVm != 0 && k != 0 && k != y.tdvps.currVm
    ensures var f := SwitchL2(i.e, i.l2, i.exitInstead, i.info, y);
            SameVmcs(k, y.vmcs, f.s.vmcs) && (f.GoesOn? ==> f.s.tdvps.currVm == y.tdvps.currVm)
  {
    match i.l2
    case Resume(_, _) =>
    case Leave(s) => LeftStays(s, i.e.busLock || y.vp.busLockPreempted, y, k);
    case VmCall(accepted, _) =>
      if accepted {
        VmcallStays(y, k);
      }
    case ToL1 => ToL1Stays(i.exitInstead, i.e.busLock, i.info, y, k);
    case PostedInterrupt(rvi, ppr) =>
      if Delivers(y.vmcs.interruptStatus[0], rvi, ppr) {
        ToL1Stays(i.exitInstead, i.e.busLock, i.info, Notified(rvi, y), k);
      }
    case _ =>
  }

  lemma LeftStays(s: Status, report: bool, y: Snap, k: VmId)
    requires k != y.tdvps.currVm
    ensures SameVmcs(k, y.vmcs, Left(s, report, y).s.vmcs)
  {
  }

  lemma VmcallStays(y: Snap, k: VmId)
    requires k != y.tdvps.currVm
    ensures SameVmcs(k, y.vmcs, LeftByVmcall(y).s.vmcs)
  {
  }

  lemma ToL1Stays(exitInstead: bool, reasonBusLock: bool, info: seq<u64>, y: Snap, k: VmId)
    requires y.tdvps.currVm != 0 && k != 0 && k != y.tdvps.currVm
    ensures SameVmcs(k, y.vmcs, ToL1Flow(exitInstead, reasonBusLock, info, y).s.vmcs)
  {
  }

  lemma FinishL2Stays(heldBack: bool, i: Input, y: Snap, k: VmId)
    requires i.VmExit? && y.tdvps.currVm != 0 && k != 0 && k != y.tdvps.currVm
    ensures SameVmcs(k, y.vmcs, FinishL2(heldBack, i.voe, i.exitInstead, i.info, y).s.vmcs)
  {
    ToL1Stays(i.exitInstead, false, i.info, y, k);
  }

  /** Nor does L1's interrupt status, while L2 runs, but for the vector that a posted interrupt requests: the low
      byte is raised to it, and the rest stays. */
  lemma L1IsNotified(n: VmId, debug: bool, i: Input, x: Snap)
    requires InGuest(n, x) && i.VmExit? && Possible(i, x.lists) && x.tdvps.currVm != 0
    ensures var status := x.vmcs.interruptStatus[0];
            Dispatched(n, debug, i, x).s.vmcs.interruptStatus[0] ==
            if Handles(i, x) && i.l2.PostedInterrupt? && i.l2.rvi > status % 256 then status / 256 * 256 + i.l2.rvi
            else status
  {
    if !PastPrologue(i, x) {
    } else if i.filter != Stepping.OkContinue {
    } else if i.e.failed {
    } else {
      match i.l2
      case VmCall(_, _) =>
      case PostedInterrupt(rvi, ppr) =>
        if Delivers(x.vmcs.interruptStatus[0], rvi, ppr) {
        }
      case _ =>
    }
  }

  // ---- The accounts ----

  // Exits whose completion status comes with an exit reason, and so with the bus-lock bit.
  predicate GivesReason(s: Status) {
    || s.Success? || s.OnL2ToL1? || s.OnL2VmExit? || s.NonRecoverableVcpu?
    || s.NonRecoverableTd? || s.WrongApicMode? || s.NonAccessible?
  }

  // The vCPU can be entered again, unless it is disabled or the TD is dead.
  function StateLeft(s: Status, before: VcpuState): VcpuState {
    match s
    case NonRecoverableVcpu => Disabled
    case NonRecoverableTd => before
    case WrongApicMode => before
    case NonAccessible => before
    case CorruptedMd => before
    case _ => Ready
  }

  function LastLeft(s: Status, before: LastExit): LastExit {
    match s
    case CrossTdTrap => AsyncTrap
    case HostPriorityTimeout => AsyncTrap
    case Success => AsyncFault
    case CrossTdFault => AsyncFault
    case BeforeL2Entry => AsyncFault
    case OnL2ToL1 => AsyncFault
    case OnL2VmExit => AsyncFault
    case _ => before
  }

  // One taken, with 16-bit wrap-around, from the slot of the epoch's parity.
  function OneLess(r: Epoch.Slots, epoch: u64): Epoch.Slots {
    r[epoch % 2 := if r[epoch % 2] == 0 then 0xFFFF else r[epoch % 2] - 1]
  }

  /** A flow that starts with a VM exit reports the bus lock if it is owed, except by an exit that gives no
      reason; if the guest runs on, it stays owed.  A vCPU that leaves without its TD being killed, nor itself
      disabled, is ready to be entered again.  It is counted out of the slot it is counted in, once,
      by every exit to the host but a dead TD's, and stays counted otherwise; fatal is set by the statuses that
      kill the TD, and never cleared. */
  ghost predicate Accounts(owed: bool, x: Snap, f: Flow) {
    && f.Ends? && f.s.epoch == x.epoch && f.s.tdvps.routed == x.tdvps.routed
    && f.s.tdvps.vcpuEpoch == x.tdvps.vcpuEpoch && f.s.tdvps.associated == x.tdvps.associated
    && match f.o
       case TdExit(s, busLock) =>
         && !f.s.vp.busLockPreempted && (busLock <==> owed && GivesReason(s))
         && (f.s.fatal <==> x.fatal || s.NonRecoverableTd? || s.WrongApicMode? || s.NonAccessible? || s.CorruptedMd?)
         && f.s.tdvps.state == StateLeft(s, x.tdvps.state) && f.s.tdvps.lastTdExit == LastLeft(s, x.tdvps.lastTdExit)
         && f.s.refcount == (if s.NonAccessible? then x.refcount else OneLess(x.refcount, x.tdvps.vcpuEpoch))
         && f.s.counted == (s.NonAccessible? && x.counted)
       case VmcallTdExit(busLock) =>
         && !f.s.vp.busLockPreempted && (busLock <==> owed)
         && f.s.tdvps.state.Ready? && f.s.tdvps.lastTdExit.TdVmcall?
         && f.s.fatal == x.fatal && f.s.refcount == OneLess(x.refcount, x.tdvps.vcpuEpoch) && !f.s.counted
       case Entered(_, _) =>
         && (f.s.vp.busLockPreempted <==> owed)
         && f.s.tdvps.state == x.tdvps.state && f.s.tdvps.lastTdExit == x.tdvps.lastTdExit
         && f.s.fatal == x.fatal && f.s.refcount == x.refcount && f.s.counted == x.counted
       case _ => true
  }

  // Nothing has been accounted for yet.
  ghost predicate SameAccounts(x: Snap, s: Snap) {
    && s.tdvps.state == x.tdvps.state && s.tdvps.lastTdExit == x.tdvps.lastTdExit && s.tdvps.routed == x.tdvps.routed
    && s.vp == x.vp && s.epoch == x.epoch && s.fatal == x.fatal && s.refcount == x.refcount && s.counted == x.counted
    && s.tdvps.vcpuEpoch == x.tdvps.vcpuEpoch && s.tdvps.associated == x.tdvps.associated
  }

  // The list addresses and their translations.
  ghost predicate SameLists(t: Tdvps, s: Snap) {
    s.tdvps.listGpa == t.listGpa && s.tdvps.listHpa == t.listHpa
  }

  // The address is the new one; its translation is the kept one, if it is kept for that address, or the walk's.
  function ListNoted(a: EnterArgs, t: Tdvps, lists: Lists): Tdvps {
    var kept := if t.listGpa[a.vm] == a.list then t.listHpa[a.vm] else None;
    t.(listGpa := t.listGpa[a.vm := a.list],
       listHpa := t.listHpa[a.vm := if kept.None? && a.list in lists then a.listWalk else kept])
  }

  // ... that a flow leaves: TDG.VP.ENTER may take a new address, and translates it.
  function ListsLeft(n: VmId, i: Input, x: Snap): Tdvps
    requires i.VmExit?
  {
    if Handles(i, x) && x.tdvps.currVm == 0 && i.l1.VpEnter? && EntersVm(i.l1.args, n) && !i.l1.args.exitBefore
    then ListNoted(i.l1.args, x.tdvps, i.e.lists)
    else x.tdvps
  }

  /** Every VM exit settles its accounts. */
  lemma DispatchAccounts(n: VmId, debug: bool, i: Input, x: Snap)
    requires InGuest(n, x) && i.VmExit? && Possible(i, x.lists)
    ensures var f := Dispatched(n, debug, i, x); Accounts(Owes(i, x), x, f) && SameLists(ListsLeft(n, i, x), f.s)
    ensures x.fatal ==> Dispatched(n, debug, i, x).o == TdExit(NonAccessible, Owes(i, x))
  {
    var y := Noted(i.e.busLock, Arrived(i.e, x));
    if !PastPrologue(i, x) {
      EarlyAccounts(i, Arrived(i.e, x));
    } else if x.tdvps.currVm == 0 {
      LateL1Accounts(n, debug, i, y);
    } else {
      LateL2Accounts(i, y);
    }
  }

  lemma EarlyAccounts(i: Input, y: Snap)
    requires i.VmExit? && !PastPrologue(i, y)
    ensures var f := EarlyFlow(i.e, i.exitOnL2, i.filter, y); Accounts(Owes(i, y), y, f) && SameLists(y.tdvps, f.s)
    ensures y.fatal ==> EarlyFlow(i.e, i.exitOnL2, i.filter, y).o == TdExit(NonAccessible, Owes(i, y))
  {
    var z := Noted(i.e.busLock, y);
    if y.fatal {
    } else if i.exitOnL2 && y.tdvps.currVm > 0 {
      LeftAccounts(OnL2VmExit, Owes(i, y), z);
    } else {
      LeftAccounts(WrongApicMode, Owes(i, y), z);
    }
  }

  // An exit that gives a reason, with what is owed.
  lemma LeftAccounts(status: Status, owed: bool, z: Snap)
    requires GivesReason(status) && (owed <==> z.vp.busLockPreempted)
    ensures var f := Left(status, owed, z); status != NonAccessible ==> Accounts(owed, z, f) && SameLists(z.tdvps, f.s)
  {
  }

  lemma LateL1Accounts(n: VmId, debug: bool, i: Input, y: Snap)
    requires i.VmExit? && L1Handles(i.l1) && (i.e.busLock ==> y.vp.busLockPreempted) && y.counted
    ensures var f := LateL1(i.e, i.filter, i.l1, i.voe, n, debug, y);
            && Accounts(y.vp.busLockPreempted, y, f)
            && SameLists(if i.filter == Stepping.OkContinue && !i.e.failed && i.l1.VpEnter?
                            && EnterChecksPass(i.l1.args, n) && !i.l1.args.exitBefore
                         then Translated(i.l1.args.listWalk, i.l1.args.vm, ListTaken(i.l1.args, y.tdvps), y.lists)
                         else y.tdvps, f.s)
  {
    if i.filter != Stepping.OkContinue {
      FinishL1Accounts(true, i.voe, y);
    } else if i.e.failed {
      FailedL1Accounts(debug, i, y);
    } else {
      SwitchL1Accounts(n, i, y);
      var f := SwitchL1(i.e, i.l1, n, y);
      if f.GoesOn? {
        FinishL1Accounts(false, i.voe, f.s);
      }
    }
  }

  lemma LeavingAccounts(status: Status, reasonBusLock: bool, y: Snap)
    requires y.counted && !IsQuiet(status) && (reasonBusLock ==> y.vp.busLockPreempted)
    ensures var f := LeftToVmm(status, reasonBusLock, y);
            Accounts(y.vp.busLockPreempted, y, f) && SameLists(y.tdvps, f.s)
  {
  }

  lemma FailedL1Accounts(debug: bool, i: Input, y: Snap)
    requires i.VmExit? && (i.e.busLock ==> y.vp.busLockPreempted) && y.counted
    ensures var f := FailedEntryL1(i.e, debug, y); Accounts(y.vp.busLockPreempted, y, f) && SameLists(y.tdvps, f.s)
  {
    match i.e.failure
    case GuestState => LeavingAccounts(if debug then Success else NonRecoverableTd, i.e.busLock, y);
    case MachineCheck => LeavingAccounts(NonAccessible, i.e.busLock, y);
    case Unexpected =>
  }

  lemma SwitchL1Accounts(n: VmId, i: Input, y: Snap)
    requires i.VmExit? && L1Handles(i.l1) && (i.e.busLock ==> y.vp.busLockPreempted) && y.counted
    ensures var f := SwitchL1(i.e, i.l1, n, y);
            && (if f.Ends? then Accounts(y.vp.busLockPreempted, y, f) else SameAccounts(y, f.s))
            && SameLists(if i.l1.VpEnter? && EnterChecksPass(i.l1.args, n) && !i.l1.args.exitBefore
                         then Translated(i.l1.args.listWalk, i.l1.args.vm, ListTaken(i.l1.args, y.tdvps), y.lists)
                         else y.tdvps, f.s)
  {
    match i.l1
    case VpEnter(a, gprs) => VpEnterAccounts(a, gprs, n, y);
    case Leave(status) => LeavingAccounts(status, i.e.busLock, y);
    case LeaveQuietly(status) => QuietAccounts(status, y);
    case VmCall(accepted, _) =>
      if accepted {
        VmcallAccounts(y);
      }
    case _ =>
  }

  lemma QuietAccounts(status: Status, y: Snap)
    requires y.counted && IsQuiet(status)
    ensures var f := Left(status, false, y); Accounts(y.vp.busLockPreempted, y, f) && SameLists(y.tdvps, f.s)
  {
  }

  lemma PreparedAccounts(a: EnterArgs, y: Snap)
    requires y.counted
    ensures var z, owed := Prepared(a, y), y.vp.busLockPreempted;
            && Accounts(owed, y, LeftToVmm(Success, false, z))
            && Accounts(owed, y, Returned(z.tdvps.vmLaunched[a.vm], AtL2(a.vm, z)))
            && SameLists(ListNoted(a, y.tdvps, y.lists), LeftToVmm(Success, false, z).s)
            && SameLists(ListNoted(a, y.tdvps, y.lists), AtL2(a.vm, z))
  {
    PreparedLists(a, y);
    LeavingAccounts(Success, false, Prepared(a, y));
  }

  lemma PreparedLists(a: EnterArgs, y: Snap)
    ensures SameLists(ListNoted(a, y.tdvps, y.lists), Prepared(a, y))
  {
  }

  lemma VpEnterAccounts(a: EnterArgs, gprs: seq<u64>, n: VmId, y: Snap)
    requires y.counted
    ensures var f := VpEnterFlow(a, gprs, n, y);
            && (if f.Ends? then Accounts(y.vp.busLockPreempted, y, f) else SameAccounts(y, f.s))
            && SameLists(if EnterChecksPass(a, n) && !a.exitBefore
                         then Translated(a.listWalk, a.vm, ListTaken(a, y.tdvps), y.lists)
                         else y.tdvps, f.s)
  {
    if !EntersVm(a, n) {
    } else if a.exitBefore {
    } else {
      PreparedAccounts(a, y);
    }
  }

  lemma FinishL1Accounts(heldBack: bool, voe: bool, y: Snap)
    requires y.counted
    ensures var f := FinishL1(heldBack, voe, y);
            Accounts(y.vp.busLockPreempted, y, f) && SameLists(y.tdvps, f.s)
  {
  }

  lemma LateL2Accounts(i: Input, y: Snap)
    requires i.VmExit? && L2Handles(i.l2) && (i.e.busLock ==> y.vp.busLockPreempted) && y.counted
    ensures var f := LateL2(i.e, i.filter, i.l2, i.exitInstead, i.voe, i.info, y);
            Accounts(y.vp.busLockPreempted, y, f) && SameLists(y.tdvps, f.s)
  {
    if i.filter != Stepping.OkContinue {
      FinishL2Accounts(true, i, y);
    } else if i.e.failed {
      ToL1Accounts(i.exitInstead, i.e.busLock, i.info, y);
    } else {
      SwitchL2Accounts(i, y);
      var f := SwitchL2(i.e, i.l2, i.exitInstead, i.info, y);
      if f.GoesOn? {
        FinishL2Accounts(false, i, f.s);
      }
    }
  }

  lemma VmcallAccounts(y: Snap)
    requires y.counted
    ensures var f := LeftByVmcall(y); Accounts(y.vp.busLockPreempted, y, f) && SameLists(y.tdvps, f.s)
  {
  }

  lemma SwitchL2Accounts(i: Input, y: Snap)
    requires i.VmExit? && L2Handles(i.l2) && (i.e.busLock ==> y.vp.busLockPreempted) && y.counted
    ensures var f := SwitchL2(i.e, i.l2, i.exitInstead, i.info, y);
            && (if f.Ends? then Accounts(y.vp.busLockPreempted, y, f) else SameAccounts(y, f.s))
            && SameLists(y.tdvps, f.s)
  {
    match i.l2
    case ToL1 => ToL1Accounts(i.exitInstead, i.e.busLock, i.info, y);
    case PostedInterrupt(rvi, ppr) =>
      if Delivers(y.vmcs.interruptStatus[0], rvi, ppr) {
        ToL1Accounts(i.exitInstead, i.e.busLock, i.info, Notified(rvi, y));
      }
    case Leave(status) => LeavingAccounts(status, i.e.busLock, y);
    case VmCall(accepted, _) =>
      if accepted {
        VmcallAccounts(y);
      }
    case Resume(_, _) =>
    case _ =>
  }

  lemma ToL1Accounts(exitInstead: bool, reasonBusLock: bool, info: seq<u64>, y: Snap)
    requires y.counted && (reasonBusLock ==> y.vp.busLockPreempted)
    ensures var f := ToL1Flow(exitInstead, reasonBusLock, info, y);
            Accounts(y.vp.busLockPreempted, y, f) && SameLists(y.tdvps, f.s)
  {
  }

  lemma FinishL2Accounts(heldBack: bool, i: Input, y: Snap)
    requires i.VmExit? && y.counted
    ensures var f := FinishL2(heldBack, i.voe, i.exitInstead, i.info, y);
            Accounts(y.vp.busLockPreempted, y, f) && SameLists(y.tdvps, f.s)
  {
    ToL1Accounts(i.exitInstead, false, i.info, y);
  }

  /** The bus-lock bits of the VM exits since the last TD exit, read off the run alone. */
  function CarriedBy(inputs: seq<Input>, outs: seq<Option<Outcome>>): seq<bool>
    requires |outs| <= |inputs|
  {
    if outs == [] then []
    else
      var k := |outs| - 1;
      var before := CarriedBy(inputs, outs[..k]);
      if outs[k].None? || !inputs[k].VmExit? then before
      else if outs[k].value.Entered? then before + [inputs[k].e.busLock]
      else []
  }

  /** Along every run the sticky flag says whether one of those bits was set. */
  lemma {:induction false} CarriedAlongRuns(n: VmId, debug: bool, x: Snap, inputs: seq<Input>,
                                            outs: seq<Option<Outcome>>)
    requires AtHost(n, x) && IsRun(n, debug, x, inputs, outs) && NeverHalts(n, debug, x, inputs)
    ensures RunOf(n, debug, x, inputs).vp.busLockPreempted <==> true in CarriedBy(inputs, outs)
  {
    if inputs != [] {
      var k := |inputs| - 1;
      IsRunBefore(n, debug, x, inputs, outs, k);
      NeverHaltsBefore(n, debug, x, inputs, k);
      CarriedAlongRuns(n, debug, x, inputs[..k], outs[..k]);
      RunStaysGood(n, debug, x, inputs[..k]);
      CarriedStep(n, debug, inputs[k], RunOf(n, debug, x, inputs[..k]));
      CarriedByPrefix(inputs, outs, k);
    }
  }

  lemma {:induction false} CarriedByPrefix(inputs: seq<Input>, outs: seq<Option<Outcome>>, k: nat)
    requires k <= |outs| <= |inputs|
    decreases k
    ensures CarriedBy(inputs[..k], outs[..k]) == CarriedBy(inputs, outs[..k])
  {
    if k > 0 {
      assert inputs[..k][..k - 1] == inputs[..k - 1] && outs[..k][..k - 1] == outs[..k - 1];
      CarriedByPrefix(inputs, outs, k - 1);
      CarriedByPrefix(inputs[..k], outs[..k], k - 1);
    }
  }

  lemma IsRunBefore(n: VmId, debug: bool, x: Snap, inputs: seq<Input>, outs: seq<Option<Outcome>>, m: nat)
    requires IsRun(n, debug, x, inputs, outs) && m <= |inputs|
    ensures IsRun(n, debug, x, inputs[..m], outs[..m])
  {
    forall k | 0 <= k < m
      ensures outs[..m][k] == StepOf(n, debug, inputs[..m][k], RunOf(n, debug, x, inputs[..m][..k])).0
    {
      assert inputs[..m][..k] == inputs[..k];
    }
  }

  lemma CarriedStep(n: VmId, debug: bool, i: Input, x: Snap)
    requires Good(n, x)
    ensures var r := StepOf(n, debug, i, x);
            r.0 != Some(Halted) ==>
              (r.1.vp.busLockPreempted <==>
                 if r.0.None? || !i.VmExit? then x.vp.busLockPreempted
                 else r.0.value.Entered? && (x.vp.busLockPreempted || i.e.busLock))
  {
    match i
    case VmExit(_, _, _, _, _, _, _, _) => ExitCarries(n, debug, i, x);
    case VpEnterByHost(a) =>
      if !InGuestNow(x) {
        EntryEndsWell(n, a, x);
      }
    case _ =>
  }

  lemma ExitCarries(n: VmId, debug: bool, i: Input, x: Snap)
    requires Good(n, x) && i.VmExit?
    ensures var r := StepOf(n, debug, i, x);
            r.0 != Some(Halted) ==>
              (r.1.vp.busLockPreempted <==>
                 if r.0.None? then x.vp.busLockPreempted else r.0.value.Entered? && Owes(i, x))
  {
    if InGuestNow(x) && Possible(i, x.lists) {
      assert StepOf(n, debug, i, x) == Result(Dispatched(n, debug, i, x));
      DispatchAccounts(n, debug, i, x);
      NeverRefused(n, debug, i, x);
      if !Dispatched(n, debug, i, x).o.Halted? {
        AccountsCarry(Owes(i, x), x, Dispatched(n, debug, i, x));
      }
    }
  }

  lemma AccountsCarry(owed: bool, x: Snap, f: Flow)
    requires Accounts(owed, x, f) && !f.o.Refused? && !f.o.SanityFailure? && !f.o.Halted?
    ensures f.s.vp.busLockPreempted <==> f.o.Entered? && owed
  {
  }

  lemma NeverRefused(n: VmId, debug: bool, i: Input, x: Snap)
    requires InGuest(n, x) && i.VmExit? && Possible(i, x.lists)
    ensures var f := Dispatched(n, debug, i, x); f.Ends? && !f.o.Refused? && !f.o.SanityFailure?
  {
    DispatchEndsWell(n, debug, i, x);
  }

  /** In every run, a TD exit that follows a VM exit reports a bus lock iff it gives a reason at all and one of
      the VM exits since the last TD exit, this one included, came with the bit. */
  lemma BusLocksAreReported(n: VmId, debug: bool, x: Snap, inputs: seq<Input>, outs: seq<Option<Outcome>>, k: nat)
    requires AtHost(n, x) && IsRun(n, debug, x, inputs, outs) && k < |inputs| && inputs[k].VmExit? && outs[k].Some?
    requires NeverHalts(n, debug, x, inputs[..k])
    ensures var owed := inputs[k].e.busLock || true in CarriedBy(inputs, outs[..k]);
            match outs[k].value
            case TdExit(status, busLock) => busLock <==> owed && GivesReason(status)
            case VmcallTdExit(busLock) => busLock <==> owed
            case _ => true
  {
    IsRunBefore(n, debug, x, inputs, outs, k);
    CarriedAlongRuns(n, debug, x, inputs[..k], outs[..k]);
    CarriedByPrefix(inputs, outs, k);
    RunStaysGood(n, debug, x, inputs[..k]);
    DispatchAccounts(n, debug, inputs[k], RunOf(n, debug, x, inputs[..k]));
  }

  /** A bus lock does get lost, from every state in which L1 runs: L1's exit comes with the bit, and the TD exit that
      the debugger wants before L2 is entered reports nothing and clears the flag. */
  lemma BusLockGetsLost(n: VmId, debug: bool, i: Input, x: Snap)
    requires InGuest(n, x) && x.tdvps.currVm == 0 && !x.fatal && i.VmExit? && Possible(i, x.lists) && !i.e.failed
    requires i.e.busLock && i.filter == Stepping.OkContinue
    requires i.l1.VpEnter? && EnterChecksPass(i.l1.args, n) && i.l1.args.exitBefore
    ensures var f := Dispatched(n, debug, i, x);
            f == Ends(TdExit(BeforeL2Entry, false), f.s) && !f.s.vp.busLockPreempted
  {
  }
}
