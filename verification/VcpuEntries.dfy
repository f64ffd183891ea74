/** TDH.VP.ENTER: which requests enter which VM, which are refused and with what, and what each leaves. */
module VcpuEntries {
  import opened Words
  import opened NestedCall
  import opened VcpuSpec
  import opened VcpuLaws
  import Epoch
  import Stepping

  // What an entry in the TD's current epoch still holds.
  function Kept(x: Snap): Tdvps {
    var t := x.tdvps;
    t.(listHpa := if t.vcpuEpoch != x.epoch && t.associated then [None, None, None, None] else t.listHpa)
  }

  // The host's request is taken up.
  predicate RequestTaken(a: HostArgs, x: Snap) {
    && !x.fatal && x.tdvps.state.Ready? && (a.hint ==> x.tdvps.lastTdExit.AsyncTrap?)
    && (a.resumeL1 ==> x.tdvps.currVm != 0)
  }

  // No check stops the entry before the vCPU is counted in ...
  predicate EntryCounts(a: HostArgs, x: Snap) {
    RequestTaken(a, x) && !a.earlyError && a.epochLockFree
  }

  // ... and the Secure EPT lock does not either.
  predicate PastFilter(a: HostArgs, x: Snap) {
    EntryCounts(a, x) && a.filter != Stepping.FailSeptTreeBusy
  }

  /** L1 is to be resumed: the host asks for it, now or in a request still pending, or an event for L1 does. */
  predicate WantsL1(a: HostArgs, x: Snap) {
    && x.tdvps.currVm != 0
    && (|| a.resumeL1 || a.voe || (a.filter == Stepping.OkNotifyEpsFault && a.privateEptViolation)
        || !x.tdvps.routed.NotRouted?)
  }

  /** How: as after a TDG.VP.VMCALL, if that was the last exit when L1 was first asked for. */
  function RouteTo(t: Tdvps): Routing {
    if !t.routed.NotRouted? then t.routed else if t.lastTdExit.TdVmcall? then RoutedTdVmcall else RoutedAsync
  }

  // The current VM's list has a host address: one kept from this epoch, or one that a walk finds.
  predicate HasList(a: HostArgs, x: Snap) {
    || Kept(x).listHpa[x.tdvps.currVm].Some?
    || (a.listWalk.Some? && x.tdvps.listGpa[x.tdvps.currVm] in x.lists)
  }

  /** It cannot be: L2's image has still to be written, and its list is not there. */
  predicate CannotResumeL1(a: HostArgs, x: Snap) {
    RouteTo(x.tdvps).RoutedTdVmcall? && !HasList(a, x)
  }

  predicate ResumesL1(a: HostArgs, x: Snap) {
    PastFilter(a, x) && WantsL1(a, x) && !CannotResumeL1(a, x)
  }

  /** The entry of the current VM is refused as if by an EPT violation: a listed GPA would fault again, or
      L2's list, not kept from this epoch, or its virtual APIC page does not translate. */
  predicate Faults(a: HostArgs, x: Snap) {
    || a.filter == Stepping.FailTdenterEpfs
    || (x.tdvps.currVm != 0 && !(HasList(a, x) && a.vapicMapped))
  }

  /** The exact condition, on what the host asks for and what the entry finds: a TDG.VP.VMCALL is unanswered,
      L1 is not to be resumed, nothing stops the entry earlier, and then it faults. */
  predicate ForgetsVmcall(a: HostArgs, x: Snap) {
    x.tdvps.lastTdExit.TdVmcall? && PastFilter(a, x) && !WantsL1(a, x) && Faults(a, x)
  }

  // What the entry finds once it is counted in.
  function Begun(a: HostArgs, x: Snap): Snap {
    CountedIn(!x.tdvps.associated, RequestFlow(a, Associated(x)).s)
  }

  lemma RequestKeepsEntering(n: VmId, a: HostArgs, x: Snap)
    requires AtHost(n, x) && RequestTaken(a, x) && !a.earlyError
    ensures Entering(n, RequestFlow(a, Associated(x)).s)
  {
  }

  // Taking the host's request over does not change what the entry will do.
  lemma BegunIsSame(a: HostArgs, x: Snap)
    requires RequestTaken(a, x)
    ensures var y := Begun(a, x);
            && y.tdvps.currVm == x.tdvps.currVm && y.lists == x.lists && y.vmcs == x.vmcs
            && y.tdvps.lastTdExit == x.tdvps.lastTdExit && y.tdvps.listHpa == Kept(x).listHpa
            && y.tdvps.listGpa == x.tdvps.listGpa
            && (x.tdvps.currVm != 0 ==>
                  && (WantsL1(a, x) <==> AsksForL1(a) || !y.tdvps.routed.NotRouted?)
                  && RouteTo(y.tdvps) == RouteTo(x.tdvps))
  {
  }

  // The VM that will be entered if nothing stops the entry.
  function ChosenVm(a: HostArgs, x: Snap): VmId {
    if WantsL1(a, x) then 0 else x.tdvps.currVm
  }

  /** What TDH.VP.ENTER returns, or which VM it enters and how. */
  function EntryOutcome(a: HostArgs, x: Snap): Outcome {
    if x.fatal then Refused(TdFatal)
    else if !x.tdvps.state.Ready? then Refused(StateIncorrect)
    else if !RequestTaken(a, x) then Refused(OperandInvalid)
    else if a.earlyError then Refused(EarlyError)
    else if !a.epochLockFree then Refused(EpochBusy)
    else if a.filter == Stepping.FailSeptTreeBusy then Refused(SeptBusy)
    else if if WantsL1(a, x) then CannotResumeL1(a, x) || a.filter == Stepping.FailTdenterEpfs else Faults(a, x) then
      Refused(EptViolation)
    else Entered(ChosenVm(a, x), x.vmcs.launched[ChosenVm(a, x)])
  }

  // L2's image as the entry finds it, with the host's answer to its TDG.VP.VMCALL.
  function AnsweredImage(a: HostArgs, x: Snap): Image {
    var t, vm := x.tdvps, x.tdvps.currVm;
    Image(if t.lastTdExit.TdVmcall? then a.answer(t.gprs) else t.gprs, x.vmcs.regs[vm], x.vmcs.interruptStatus[vm])
  }

  /** The entry moves L1 past its TDG.VP.ENTER, and writes L2's image if that is still to be done; or it leaves
      the call alone, with a request to resume L1 still pending. */
  ghost predicate CallLeft(a: HostArgs, x: Snap, s: Snap) {
    if ResumesL1(a, x) then
      && s.tdvps.currVm == 0 && s.tdvps.routed.NotRouted?
      && PastOnly(x.vmcs.regs[0], x.vmcs.exitLen[0], s.vmcs.regs[0])
      && s.vmcs == x.vmcs.(regs := x.vmcs.regs[0 := s.vmcs.regs[0]])
      && s.lists == if RouteTo(x.tdvps).RoutedTdVmcall?
                    then x.lists[x.tdvps.listGpa[x.tdvps.currVm] := AnsweredImage(a, x)] else x.lists
    else
      && s.tdvps.currVm == x.tdvps.currVm && s.vmcs == x.vmcs && s.lists == x.lists
      && s.tdvps.routed == if (RequestTaken(a, x) && a.resumeL1) || (PastFilter(a, x) && WantsL1(a, x))
                           then RouteTo(x.tdvps) else x.tdvps.routed
  }

  // The last TD exit, as later entries will see it.
  function LastLeft(a: HostArgs, x: Snap): LastExit {
    if EntryOutcome(a, x) == Refused(EptViolation) || (ResumesL1(a, x) && x.tdvps.lastTdExit.TdVmcall?)
    then AsyncFault else x.tdvps.lastTdExit
  }

  // The entry looks for L2's list: to write its image, or to enter it.
  predicate LooksForList(a: HostArgs, x: Snap) {
    PastFilter(a, x) && x.tdvps.currVm != 0
    && if WantsL1(a, x) then RouteTo(x.tdvps).RoutedTdVmcall? else a.filter != Stepping.FailTdenterEpfs
  }

  /** The translations it leaves. */
  function HpasLeft(a: HostArgs, x: Snap): Hpas {
    if !EntryCounts(a, x) then x.tdvps.listHpa
    else if LooksForList(a, x) && Kept(x).listHpa[x.tdvps.currVm].None? && HasList(a, x) then
      Kept(x).listHpa[x.tdvps.currVm := a.listWalk]
    else Kept(x).listHpa
  }

  /** What the entered VM finds in its GPRs: L1 that is resumed, the host's exit information; after a
      TDG.VP.VMCALL, the host's answer; after a trap-like exit, its hint; and otherwise what it left there.  A
      refused entry leaves them alone, except that it may have got as far as L1 or as L2's answer. */
  function GprsLeft(a: HostArgs, x: Snap): seq<u64> {
    if ResumesL1(a, x) then a.exitInfo
    else if EntryOutcome(a, x).Entered? then
      match x.tdvps.lastTdExit
      case TdVmcall => a.answer(x.tdvps.gprs)
      case AsyncTrap => a.hinted
      case AsyncFault => x.tdvps.gprs
    else if PastFilter(a, x) && WantsL1(a, x) && x.tdvps.lastTdExit.TdVmcall? then a.answer(x.tdvps.gprs)
    else x.tdvps.gprs
  }

  // One added, with 16-bit wrap-around, to the slot of the epoch's parity.
  function OneMore(r: Epoch.Slots, epoch: u64): Epoch.Slots {
    r[epoch % 2 := if r[epoch % 2] == 0xFFFF then 0 else r[epoch % 2] + 1]
  }

  /** What an entry leaves: the guest is entered with the registers due to it and counted in, or nothing is
      counted; and the last TD exit is one only until it is dealt with. */
  ghost predicate EntryLeft(a: HostArgs, x: Snap, o: Outcome, s: Snap) {
    && CallLeft(a, x, s) && s.tdvps.lastTdExit == LastLeft(a, x)
    && s.fatal == x.fatal && s.epoch == x.epoch && s.tdvps.state == (if o.Entered? then Active else x.tdvps.state)
    && s.tdvps.gprs == GprsLeft(a, x)
    && s.tdvps.listGpa == x.tdvps.listGpa && s.tdvps.listHpa == HpasLeft(a, x)
    && s.tdvps.vcpuEpoch == (if EntryCounts(a, x) then x.epoch else x.tdvps.vcpuEpoch)
    && s.tdvps.associated == (x.tdvps.associated || (!x.fatal && x.tdvps.state.Ready?))
    && (if o.Entered? then
          s.refcount == OneMore(x.refcount, x.epoch) && s.counted
        else
          s.refcount == x.refcount && s.counted == x.counted)
  }

  /** TDH.VP.ENTER comes to just that. */
  lemma EntryComesTo(n: VmId, a: HostArgs, x: Snap)
    requires AtHost(n, x)
    ensures var f := EntryFlow(a, x); f == Ends(EntryOutcome(a, x), f.s) && EntryLeft(a, x, f.o, f.s)
  {
    if PastFilter(a, x) {
      RequestKeepsEntering(n, a, x);
      BegunIsSame(a, x);
      assert EntryFlow(a, x) == CountedFlow(a, Begun(a, x));
      PastFilterComesTo(n, a, x);
    } else {
      StoppedComesTo(n, a, x);
    }
  }

  lemma StoppedComesTo(n: VmId, a: HostArgs, x: Snap)
    requires !PastFilter(a, x) && AtHost(n, x)
    ensures var f := EntryFlow(a, x); f == Ends(EntryOutcome(a, x), f.s) && EntryLeft(a, x, f.o, f.s)
  {
    Epoch.CountingOutUndoesCountingIn(x.refcount, x.epoch);
    if !RequestTaken(a, x) {
    } else if !EntryCounts(a, x) {
    }
  }

  lemma PastFilterComesTo(n: VmId, a: HostArgs, x: Snap)
    requires PastFilter(a, x) && AtHost(n, x)
    ensures var f := CountedFlow(a, Begun(a, x)); f == Ends(EntryOutcome(a, x), f.s) && EntryLeft(a, x, f.o, f.s)
  {
    if WantsL1(a, x) {
      ToL1ComesTo(n, a, x);
    } else {
      SameVmComesTo(n, a, x);
    }
  }

  lemma ToL1ComesTo(n: VmId, a: HostArgs, x: Snap)
    requires PastFilter(a, x) && AtHost(n, x) && WantsL1(a, x)
    ensures var f := CountedFlow(a, Begun(a, x)); f == Ends(EntryOutcome(a, x), f.s) && EntryLeft(a, x, f.o, f.s)
  {
    BegunIsSame(a, x);
    FromL2ComesTo(a, x);
    if CannotResumeL1(a, x) {
      Epoch.CountingOutUndoesCountingIn(x.refcount, x.epoch);
    } else {
      ResumedComesTo(n, a, x);
    }
  }

  lemma ResumedComesTo(n: VmId, a: HostArgs, x: Snap)
    requires PastFilter(a, x) && AtHost(n, x) && WantsL1(a, x) && !CannotResumeL1(a, x)
    ensures var f := CountedFlow(a, Begun(a, x)); f == Ends(EntryOutcome(a, x), f.s) && EntryLeft(a, x, f.o, f.s)
  {
    BegunIsSame(a, x);
    FromL2ComesTo(a, x);
    Epoch.CountingOutUndoesCountingIn(x.refcount, x.epoch);
    ChosenComesTo(a, FromL2Flow(a, Begun(a, x)).s);
  }

  lemma SameVmComesTo(n: VmId, a: HostArgs, x: Snap)
    requires PastFilter(a, x) && AtHost(n, x) && !WantsL1(a, x)
    ensures var f := CountedFlow(a, Begun(a, x)); f == Ends(EntryOutcome(a, x), f.s) && EntryLeft(a, x, f.o, f.s)
  {
    BegunIsSame(a, x);
    Epoch.CountingOutUndoesCountingIn(x.refcount, x.epoch);
    if x.tdvps.currVm != 0 {
      L2StaysChosen(a, x);
    }
    ChosenComesTo(a, Begun(a, x));
  }

  // Nothing of the call changes, nor of what the entry keeps.
  ghost predicate SameCall(z: Snap, s: Snap) {
    && s.tdvps.currVm == z.tdvps.currVm && s.vmcs == z.vmcs && s.lists == z.lists
    && s.tdvps.routed == z.tdvps.routed && s.tdvps.vcpuEpoch == z.tdvps.vcpuEpoch
    && s.tdvps.listGpa == z.tdvps.listGpa && s.tdvps.associated == z.tdvps.associated
    && s.fatal == z.fatal && s.epoch == z.epoch
  }

  // What the VM to be entered then faults on.
  predicate ChosenFaults(a: HostArgs, z: Snap) {
    || a.filter == Stepping.FailTdenterEpfs
    || (z.tdvps.currVm != 0 && !(Reaches(a.listWalk, z.tdvps.currVm, z.tdvps, z.lists) && a.vapicMapped))
  }

  function ChosenHpas(a: HostArgs, z: Snap): Hpas {
    if a.filter == Stepping.FailTdenterEpfs || z.tdvps.currVm == 0 then z.tdvps.listHpa
    else Translated(a.listWalk, z.tdvps.currVm, z.tdvps, z.lists).listHpa
  }

  // It is entered or refused.
  lemma ChosenComesTo(a: HostArgs, z: Snap)
    ensures var f := ChosenFlow(a, z);
            && SameCall(z, f.s) && f.s.tdvps.listHpa == ChosenHpas(a, z)
            && if ChosenFaults(a, z) then IsRefusal(z, f) else IsEntry(a, z, f)
  {
    if a.filter == Stepping.FailTdenterEpfs {
      RefusalComesTo(z);
    } else {
      var vm := z.tdvps.currVm;
      var y := if vm == 0 then z else z.(tdvps := Translated(a.listWalk, vm, z.tdvps, z.lists));
      RefusalComesTo(y);
      GuestComesTo(a, y);
    }
  }

  ghost predicate IsRefusal(z: Snap, f: Flow) {
    && f == Ends(Refused(EptViolation), f.s) && f.s.tdvps.lastTdExit == AsyncFault && f.s.tdvps.state.Ready?
    && f.s.refcount == Epoch.CountOut(z.refcount, z.tdvps.vcpuEpoch) && !f.s.counted
  }

  ghost predicate IsEntry(a: HostArgs, z: Snap, f: Flow) {
    && f == Ends(Entered(z.tdvps.currVm, z.tdvps.vmLaunched[z.tdvps.currVm]), f.s)
    && f.s.tdvps.lastTdExit == z.tdvps.lastTdExit && f.s.tdvps.state.Active?
    && f.s.refcount == z.refcount && f.s.counted == z.counted && f.s.tdvps.gprs == Restored(z.tdvps, a).gprs
  }

  lemma RefusalComesTo(z: Snap)
    ensures var f := RefuseAsFault(z); IsRefusal(z, f) && SameCall(z, f.s) && f.s.tdvps.listHpa == z.tdvps.listHpa
  {
  }

  lemma GuestComesTo(a: HostArgs, z: Snap)
    ensures var f := GuestFlow(a, z); IsEntry(a, z, f) && SameCall(z, f.s) && f.s.tdvps.listHpa == z.tdvps.listHpa
  {
  }

  // L2 is to be entered as it is ...
  lemma L2StaysChosen(a: HostArgs, x: Snap)
    requires PastFilter(a, x) && x.tdvps.currVm != 0 && !WantsL1(a, x)
    ensures FromL2Flow(a, Begun(a, x)) == GoesOn(Begun(a, x))
  {
    BegunIsSame(a, x);
  }

  // ... or L1 is resumed, or cannot be.
  lemma FromL2ComesTo(a: HostArgs, x: Snap)
    requires PastFilter(a, x) && WantsL1(a, x)
    ensures var y, f := Begun(a, x), FromL2Flow(a, Begun(a, x));
            && (f.Ends? <==> CannotResumeL1(a, x))
            && CallLeft(a, x, f.s)
            && f.s.fatal == x.fatal && f.s.epoch == x.epoch && f.s.tdvps.vcpuEpoch == x.epoch
            && f.s.tdvps.state.Ready? && f.s.tdvps.listGpa == x.tdvps.listGpa && f.s.tdvps.associated
            && f.s.tdvps.listHpa == HpasLeft(a, x)
            && (if f.Ends? then
                  && f.o == Refused(EptViolation) && f.s.tdvps.lastTdExit == AsyncFault && !f.s.counted
                  && f.s.refcount == Epoch.CountOut(y.refcount, x.epoch)
                else
                  && f.s.counted && f.s.refcount == y.refcount && f.s.tdvps.vmLaunched == x.tdvps.vmLaunched
                  && f.s.tdvps.gprs == a.exitInfo
                  && f.s.tdvps.lastTdExit == AnswerTaken(x.tdvps, a.answer).lastTdExit)
  {
    BegunIsSame(a, x);
    var y := Begun(a, x);
    var z := y.(tdvps := Routed(y.tdvps));
    assert FromL2Flow(a, y) == ResumeL1Flow(a, z) by {
      assert AsksForL1(a) || z == y;
    }
    ResumeL1ComesTo(a, z);
    if CannotResumeL1(a, x) {
    } else if z.tdvps.routed.RoutedTdVmcall? {
    }
  }

  lemma ResumeL1ComesTo(a: HostArgs, z: Snap)
    requires z.counted && z.tdvps.currVm != 0 && !z.tdvps.routed.NotRouted? && z.tdvps.state.Ready?
    ensures var f, vmcall, vm := ResumeL1Flow(a, z), z.tdvps.routed.RoutedTdVmcall?, z.tdvps.currVm;
            var t := f.s.tdvps;
            && (f.Ends? <==> vmcall && !Reaches(a.listWalk, vm, z.tdvps, z.lists))
            && f.s.fatal == z.fatal && f.s.epoch == z.epoch && t.vcpuEpoch == z.tdvps.vcpuEpoch
            && t.vmLaunched == z.tdvps.vmLaunched && t.state.Ready?
            && t.listGpa == z.tdvps.listGpa && t.associated == z.tdvps.associated
            && t.listHpa == (if vmcall then Translated(a.listWalk, vm, z.tdvps, z.lists) else z.tdvps).listHpa
            && if f.Ends? then
                 && f.o == Refused(EptViolation) && !f.s.counted && t.currVm == vm && t.routed == z.tdvps.routed
                 && f.s.refcount == Epoch.CountOut(z.refcount, z.tdvps.vcpuEpoch) && t.lastTdExit == AsyncFault
                 && f.s.vmcs == z.vmcs && f.s.lists == z.lists
               else
                 && f.s.counted && f.s.refcount == z.refcount && t.gprs == a.exitInfo && t.currVm == 0
                 && t.lastTdExit == AnswerTaken(z.tdvps, a.answer).lastTdExit && t.routed.NotRouted?
                 && f.s.vmcs == Advanced(z.vmcs, 0)
                 && f.s.lists == if vmcall then z.lists[z.tdvps.listGpa[vm] := AnsweredImage(a, z)] else z.lists
  {
  }

  // ---- There and back ----

  // The statuses after which the host may enter the vCPU again.
  predicate IsPassing(s: Status) {
    || s.Success? || s.CrossTdFault? || s.BeforeL2Entry? || s.OnL2ToL1? || s.OnL2VmExit?
    || s.CrossTdTrap? || s.HostPriorityTimeout?
  }

  // An entry that asks for nothing special, and for which nothing is in the way.
  predicate IsPlain(a: HostArgs) {
    && !a.resumeL1 && !a.hint && !a.earlyError && a.epochLockFree && a.filter == Stepping.OkContinue && !a.voe
    && a.listWalk.Some? && a.vapicMapped
  }

  lemma ExitLeavesResumable(n: VmId, debug: bool, i: Input, x: Snap)
    requires InGuest(n, x) && i.VmExit? && Possible(i, x.lists)
    requires var o := Dispatched(n, debug, i, x).o; o.VmcallTdExit? || (o.TdExit? && IsPassing(o.status))
    ensures var s := Dispatched(n, debug, i, x).s;
            && AtHost(n, s) && !s.fatal && s.tdvps.state.Ready? && s.tdvps.currVm == x.tdvps.currVm
            && s.tdvps.routed.NotRouted?
            && s.vmcs.launched[x.tdvps.currVm] == (!i.e.failed || x.vmcs.launched[x.tdvps.currVm])
  {
    DispatchEndsWell(n, debug, i, x);
    DispatchAccounts(n, debug, i, x);
    if x.tdvps.currVm == 0 {
      L1AfterExit(n, debug, i, x);
    } else {
      L2AfterExit(n, debug, i, x);
    }
  }

  /** After every TD exit but the final ones a plain entry enters the same VM, by VMRESUME if it had been launched,
      and that VM finds what it left: its registers as the processor delivered them, with the instruction that
      was completed behind it; and in its GPRs the host's answer after a TDG.VP.VMCALL, its hint after a trap-like
      exit, and else its own. */
  lemma ThereAndBack(n: VmId, debug: bool, i: Input, x: Snap, a: HostArgs)
    requires InGuest(n, x) && i.VmExit? && Possible(i, x.lists) && !i.e.failed && IsPlain(a)
    requires var o := Dispatched(n, debug, i, x).o; o.VmcallTdExit? || (o.TdExit? && IsPassing(o.status))
    ensures var vm, f := x.tdvps.currVm, Dispatched(n, debug, i, x);
            var g := EntryFlow(a, f.s);
            var completes := if vm == 0 then Handles(i, x) && Completes(i.l1, n)
                             else Handles(i, x) && (i.l2.VmCall? || (i.l2.Resume? && i.l2.advance));
            var gprs := if vm == 0 then (if Handles(i, x) && GoesOnL1(i.l1, n) then i.l1.gprs else i.e.gprs)
                        else L2After(i, x).gprs;
            && g == Ends(Entered(vm, true), g.s) && InGuest(n, g.s)
            && g.s.vmcs.regs[vm] == (if completes then Past(i.e.regs, i.e.len) else i.e.regs)
            && g.s.vmcs.interruptStatus[vm] == i.e.interruptStatus
            && g.s.tdvps.gprs == if f.o.VmcallTdExit? then a.answer(gprs)
                                 else if f.o.status.CrossTdTrap? || f.o.status.HostPriorityTimeout? then a.hinted
                                 else gprs
  {
    var f := Dispatched(n, debug, i, x);
    ExitLeavesResumable(n, debug, i, x);
    EntryEndsWell(n, a, f.s);
    DispatchAccounts(n, debug, i, x);
    PlainEntryEnters(n, a, f.s);
    if x.tdvps.currVm == 0 {
      L1LeavesBehind(n, debug, i, x);
    } else {
      L2LeavesBehind(n, debug, i, x);
    }
  }

  // What the VM that exited to the host has in its VMCS and its GPRs.
  predicate Behind(completes: bool, gprs: seq<u64>, e: HwExit, vm: VmId, s: Snap) {
    && s.vmcs.regs[vm] == (if completes then Past(e.regs, e.len) else e.regs)
    && s.vmcs.interruptStatus[vm] == e.interruptStatus && s.tdvps.gprs == gprs
  }

  lemma L1LeavesBehind(n: VmId, debug: bool, i: Input, x: Snap)
    requires InGuest(n, x) && x.tdvps.currVm == 0 && i.VmExit? && Possible(i, x.lists) && !i.e.failed
    requires !Dispatched(n, debug, i, x).o.Entered?
    ensures Behind(Handles(i, x) && Completes(i.l1, n),
                   if Handles(i, x) && GoesOnL1(i.l1, n) then i.l1.gprs else i.e.gprs, i.e, 0,
                   Dispatched(n, debug, i, x).s)
  {
    L1AfterExit(n, debug, i, x);
    L1LeftIsBehind(n, i, x, Dispatched(n, debug, i, x));
  }

  lemma L1LeftIsBehind(n: VmId, i: Input, x: Snap, f: Flow)
    requires i.VmExit? && !i.e.failed && x.tdvps.currVm == 0 && L1Left(n, Handles(i, x), i, Arrived(i.e, x), f)
    requires !f.o.Entered?
    ensures Behind(Handles(i, x) && Completes(i.l1, n),
                   if Handles(i, x) && GoesOnL1(i.l1, n) then i.l1.gprs else i.e.gprs, i.e, 0, f.s)
  {
  }

  lemma L2LeavesBehind(n: VmId, debug: bool, i: Input, x: Snap)
    requires InGuest(n, x) && x.tdvps.currVm != 0 && i.VmExit? && Possible(i, x.lists) && !i.e.failed
    requires var o := Dispatched(n, debug, i, x).o; o.TdExit? || o.VmcallTdExit?
    ensures Behind(Handles(i, x) && (i.l2.VmCall? || (i.l2.Resume? && i.l2.advance)), L2After(i, x).gprs, i.e,
                   x.tdvps.currVm, Dispatched(n, debug, i, x).s)
  {
    L2AfterExit(n, debug, i, x);
  }

  lemma PlainEntryEnters(n: VmId, a: HostArgs, s: Snap)
    requires AtHost(n, s) && !s.fatal && s.tdvps.state.Ready? && s.tdvps.routed.NotRouted? && IsPlain(a)
    ensures var vm, g := s.tdvps.currVm, EntryFlow(a, s);
            && g == Ends(Entered(vm, s.vmcs.launched[vm]), g.s) && g.s.vmcs == s.vmcs
            && g.s.tdvps.gprs == match s.tdvps.lastTdExit
                                 case TdVmcall => a.answer(s.tdvps.gprs)
                                 case AsyncTrap => a.hinted
                                 case AsyncFault => s.tdvps.gprs
  {
    EntryComesTo(n, a, s);
  }

  /** TDH.VP.FLUSH: no VM is launched, nor any list translated, so that the next entry is by VMLAUNCH; what the guest
      left stays. */
  lemma FlushedIsLaunched(n: VmId, x: Snap, a: HostArgs)
    requires AtHost(n, x)
    ensures var s := Flushed(x);
            && AtHost(n, s) && !s.tdvps.associated
            && (forall k: VmId :: !s.vmcs.launched[k] && !s.tdvps.vmLaunched[k] && s.tdvps.listHpa[k].None?)
            && s == x.(tdvps := x.tdvps.(associated := false, vmLaunched := s.tdvps.vmLaunched,
                                         listHpa := s.tdvps.listHpa),
                       vmcs := x.vmcs.(launched := s.vmcs.launched))
    ensures EntryFlow(a, Flushed(x)).o.Entered? ==> !EntryFlow(a, Flushed(x)).o.resume
  {
    EntryComesTo(n, a, Flushed(x));
  }

  /** The same refusal forgets a trap-like exit, under the same condition: the host's recoverability hint is then
      never merged, and an entry that comes with one is refused.  Otherwise the guest gets the hint when it is
      entered. */
  lemma HintForgottenIff(n: VmId, a: HostArgs, x: Snap, b: HostArgs)
    requires AtHost(n, x) && !x.fatal && x.tdvps.state.Ready? && x.tdvps.lastTdExit.AsyncTrap?
    ensures var f := EntryFlow(a, x);
            && (f.s.tdvps.lastTdExit.AsyncFault? <==> PastFilter(a, x) && Faults(a, x))
            && (f.o.Entered? ==> f.s.tdvps.gprs == a.hinted)
            && (PastFilter(a, x) && Faults(a, x) && b.hint ==> EntryFlow(b, f.s).o == Refused(OperandInvalid))
  {
    EntryComesTo(n, a, x);
    EntryEndsWell(n, a, x);
    if PastFilter(a, x) && Faults(a, x) && b.hint {
      EntryComesTo(n, b, EntryFlow(a, x).s);
    }
  }
}
