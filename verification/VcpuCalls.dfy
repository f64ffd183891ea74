/** The runs of a vCPU are runs of NestedCall's machine.

    The events of the machine are read off the inputs: what the processor delivers, what the handlers and the
    host decide, and how each flow ends.  Through every run the machine they drive agrees with the vCPU's own
    fields; so what NestedCall proves of TDG.VP.ENTER holds of the vCPU, with L2's effects and the host's
    answers being those of the inputs. */
module VcpuCalls {
  import opened Words
  import opened NestedCall
  import opened VcpuSpec
  import opened VcpuEntries
  import opened VcpuLaws
  import Epoch
  import Stepping

  // ---- Effects on L2's image ----

  // L2 ran until a VM exit.
  function Delivered(e: HwExit): Effect {
    (i: Image) => Image(e.gprs, e.regs, e.interruptStatus)
  }

  // The module emulated something: new GPRs, and L2's instruction completed if `advance`.
  function Emulation(gprs: seq<u64>, advance: bool, len: u64): Effect {
    (i: Image) => Image(gprs, if advance then Past(i.regs, len) else i.regs, i.interruptStatus)
  }

  function Passed(len: u64): Effect {
    (i: Image) => i.(regs := Past(i.regs, len))
  }

  // What save_regs_after_tdvmcall does with the host's registers.
  function Answered(f: seq<u64> -> seq<u64>): Effect {
    (i: Image) => i.(gprs := f(i.gprs))
  }

  // ---- Events of a VM exit ----

  function ArriveEvents(e: HwExit, vm: VmId): seq<Event> {
    if e.failed then [] else if vm == 0 then [L1Runs(e.regs, e.len, e.lists)] else [L2Does(Delivered(e))]
  }

  function HandlerEvents(n: VmId, i: Input, vm: VmId): seq<Event>
    requires i.VmExit?
  {
    if vm == 0 then if Completes(i.l1, n) then [L1Advances] else []
    else
      match i.l2
      case Resume(gprs, advance) => [L2Does(Emulation(gprs, advance, i.e.len))]
      case VmCall(accepted, gprs) => [L2Does(if accepted then Passed(i.e.len) else Emulation(gprs, true, i.e.len))]
      case _ => []
  }

  function EndEvents(o: Outcome, vm: VmId, list: u64): seq<Event> {
    match o
    case TdExit(s, _) =>
      if s.NonAccessible? then [FinalExit(false)]
      else if s.NonRecoverableVcpu? || s.NonRecoverableTd? || s.WrongApicMode? || s.CorruptedMd? then [FinalExit(true)]
      else if s.CrossTdTrap? || s.HostPriorityTimeout? then [TrapExit]
      else [FaultExit]
    case VmcallTdExit(_) => [VmcallExit]
    case Entered(to, _) => if to == vm then [] else if to == 0 then [Returns] else [Enters(to, list)]
    case _ => []
  }

  function ListNamed(i: Input): u64
    requires i.VmExit?
  {
    if i.l1.VpEnter? then i.l1.args.list else 0
  }

  function ExitEvents(n: VmId, debug: bool, i: Input, x: Snap): seq<Event>
    requires i.VmExit?
  {
    var vm, f := x.tdvps.currVm, Dispatched(n, debug, i, x);
    ArriveEvents(i.e, vm)
    + (if Handles(i, x) then HandlerEvents(n, i, vm) else [])
    + (if f.Ends? then EndEvents(f.o, vm, ListNamed(i)) else [])
  }

  // ---- Coupling ----

  /** The machine's lists, call and so on are the vCPU's. */
  ghost predicate Coupled(x: Snap, h: State) {
    var t := x.tdvps;
    && h.l1 == x.vmcs.regs[0] && h.l1Len == x.vmcs.exitLen[0] && h.routed == t.routed
    && h.lists == x.lists && h.last == t.lastTdExit
    && if t.currVm == 0 then h.call.None?
       else
         && h.call.Some? && h.call.value.vm == t.currVm && h.call.value.list == t.listGpa[t.currVm]
         && h.call.value.l2 == L2Image(t, x.vmcs)
  }

  /** ... and so is where it is.  `Gone` is for good: the TD is fatal, or the vCPU disabled. */
  ghost predicate Agrees(x: Snap, h: State) {
    && Coupled(x, h) && (h.place.Guest? <==> InGuestNow(x))
    && (h.place.Gone? ==> x.fatal || x.tdvps.state.Disabled?)
  }

  // The end of a flow that began in the guest.
  ghost predicate EndAgrees(f: Flow, h: State, evs: seq<Event>) {
    f.Ends? && (!f.o.Halted? ==> Agrees(f.s, Run(h, evs)))
  }

  lemma ArriveAgrees(n: VmId, e: HwExit, x: Snap, h: State)
    requires InGuest(n, x) && Coupled(x, h) && h.place.Guest?
    ensures var g := Run(h, ArriveEvents(e, x.tdvps.currVm));
            Coupled(Arrived(e, x), g) && g.place.Guest?
  {
    if !e.failed {
      RunOne(h, ArriveEvents(e, x.tdvps.currVm)[0]);
    }
  }

  lemma LeavingAgrees(s: Status, report: bool, list: u64, x: Snap, h: State)
    requires Coupled(x, h) && h.place.Guest? && !IsTrap(s)
    ensures EndAgrees(Left(s, report, x), h, EndEvents(TdExit(s, report), x.tdvps.currVm, list))
  {
    RunOne(h, EndEvents(TdExit(s, report), x.tdvps.currVm, list)[0]);
  }

  lemma TrapAgrees(s: Status, report: bool, list: u64, x: Snap, h: State)
    requires Coupled(x, h) && h.place.Guest? && IsTrap(s) && x.tdvps.currVm == 0
    ensures EndAgrees(Left(s, report, x), Run(h, [L1Advances]), EndEvents(TdExit(s, report), 0, list))
  {
    RunOne(h, L1Advances);
    RunOne(Step(h, L1Advances), TrapExit);
  }

  lemma ToL1Agrees(exitInstead: bool, reasonBusLock: bool, info: seq<u64>, list: u64, x: Snap, h: State)
    requires Coupled(x, h) && h.place.Guest? && x.tdvps.currVm != 0
    requires x.tdvps.routed.NotRouted? && x.vp.activeVmcs == x.tdvps.currVm
    ensures var f := ToL1Flow(exitInstead, reasonBusLock, info, x);
            EndAgrees(f, h, EndEvents(f.o, x.tdvps.currVm, list))
  {
    if exitInstead {
      LeavingAgrees(OnL2ToL1, reasonBusLock || x.vp.busLockPreempted, list, x, h);
    } else {
      RunOne(h, Returns);
    }
  }

  lemma FinishL1Agrees(heldBack: bool, voe: bool, list: u64, x: Snap, h: State)
    requires Coupled(x, h) && h.place.Guest? && x.tdvps.currVm == 0 && InGuestNow(x)
    ensures var f := FinishL1(heldBack, voe, x); EndAgrees(f, h, EndEvents(f.o, 0, list))
  {
    LeavingAgrees(Success, x.vp.busLockPreempted, list, x, h);
  }

  lemma FinishL2Agrees(heldBack: bool, i: Input, list: u64, n: VmId, x: Snap, h: State)
    requires i.VmExit? && Coupled(x, h) && h.place.Guest? && x.tdvps.currVm != 0 && InGuest(n, x)
    ensures var f := FinishL2(heldBack, i.voe, i.exitInstead, i.info, x);
            EndAgrees(f, h, EndEvents(f.o, x.tdvps.currVm, list))
  {
    if !heldBack && x.vp.busLockPreempted {
      LeavingAgrees(Success, x.vp.busLockPreempted, list, x, h);
    } else if i.voe {
      ToL1Agrees(i.exitInstead, false, i.info, list, x, h);
    }
  }

  // The call begins as L1 made it, with the image on the list.
  lemma VpEnterAgrees(n: VmId, a: EnterArgs, gprs: seq<u64>, x: Snap, h: State)
    requires InGuest(n, x) && Coupled(x, h) && h.place.Guest? && x.tdvps.currVm == 0 && EnterChecksPass(a, n)
    ensures var f := VpEnterFlow(a, gprs, n, x); EndAgrees(f, h, EndEvents(f.o, 0, a.list))
  {
    if a.exitBefore {
      LeavingAgrees(BeforeL2Entry, false, a.list, x, h);
    } else {
      PreparedIsSane(n, a, x);
      var y := Prepared(a, x);
      if y.tdvps.listHpa[a.vm].None? || !a.vapicMapped {
        LeavingAgrees(Success, y.vp.busLockPreempted, a.list, y, h);
      } else {
        RunOne(h, Enters(a.vm, a.list));
      }
    }
  }

  lemma SwitchL1Agrees(n: VmId, i: Input, x: Snap, h: State)
    requires InGuest(n, x) && Coupled(x, h) && h.place.Guest? && x.tdvps.currVm == 0
    requires i.VmExit? && L1Handles(i.l1)
    ensures var f, g := SwitchL1(i.e, i.l1, n, x), Run(h, HandlerEvents(n, i, 0));
            if f.Ends? then EndAgrees(f, g, EndEvents(f.o, 0, ListNamed(i))) else Coupled(f.s, g) && g.place.Guest?
  {
    if Completes(i.l1, n) {
      RunOne(h, L1Advances);
    }
    match i.l1
    case Leave(s) => LeavingAgrees(s, i.e.busLock || x.vp.busLockPreempted, ListNamed(i), x, h);
    case LeaveQuietly(s) =>
      if IsTrap(s) {
        TrapAgrees(s, false, ListNamed(i), x, h);
      } else {
        LeavingAgrees(s, false, ListNamed(i), x, h);
      }
    case VmCall(accepted, _) =>
      if accepted {
        RunOne(Step(h, L1Advances), VmcallExit);
      }
    case VpEnter(a, gprs) =>
      if EnterChecksPass(a, n) {
        VpEnterAgrees(n, a, gprs, x, h);
      }
    case _ =>
  }

  lemma SwitchL2Agrees(n: VmId, i: Input, x: Snap, h: State)
    requires InGuest(n, x) && Coupled(x, h) && h.place.Guest? && x.tdvps.currVm != 0
    requires i.VmExit? && L2Handles(i.l2) && x.vmcs.exitLen[x.tdvps.currVm] == i.e.len
    ensures var vm := x.tdvps.currVm;
            var f, g := SwitchL2(i.e, i.l2, i.exitInstead, i.info, x), Run(h, HandlerEvents(n, i, vm));
            if f.Ends? then EndAgrees(f, g, EndEvents(f.o, vm, ListNamed(i))) else Coupled(f.s, g) && g.place.Guest?
  {
    var vm := x.tdvps.currVm;
    match i.l2
    case Resume(gprs, advance) => EmulatedAgrees(gprs, advance, i.e.len, x, h);
    case Leave(s) => LeavingAgrees(s, i.e.busLock || x.vp.busLockPreempted, ListNamed(i), x, h);
    case VmCall(accepted, gprs) =>
      if accepted {
        VmcallAgrees(i.e.len, x, h);
      } else {
        EmulatedAgrees(gprs, true, i.e.len, x, h);
      }
    case ToL1 => ToL1Agrees(i.exitInstead, i.e.busLock, i.info, ListNamed(i), x, h);
    case PostedInterrupt(rvi, _) =>
      ToL1Agrees(i.exitInstead, i.e.busLock, i.info, ListNamed(i), Notified(rvi, x), h);
    case _ =>
  }

  lemma EmulatedAgrees(gprs: seq<u64>, advance: bool, len: u64, x: Snap, h: State)
    requires Coupled(x, h) && h.place.Guest? && x.tdvps.currVm != 0 && x.vmcs.exitLen[x.tdvps.currVm] == len
    ensures var g := Run(h, [L2Does(Emulation(gprs, advance, len))]);
            Coupled(Emulated(gprs, advance, x), g) && g.place.Guest?
  {
    RunOne(h, L2Does(Emulation(gprs, advance, len)));
  }

  lemma VmcallAgrees(len: u64, x: Snap, h: State)
    requires Coupled(x, h) && h.place.Guest? && x.tdvps.currVm != 0 && x.vmcs.exitLen[x.tdvps.currVm] == len
    ensures EndAgrees(LeftByVmcall(x), Run(h, [L2Does(Passed(len))]), [VmcallExit])
  {
    RunOne(h, L2Does(Passed(len)));
    RunOne(Step(h, L2Does(Passed(len))), VmcallExit);
  }

  lemma LateL1Agrees(n: VmId, debug: bool, i: Input, x: Snap, h: State)
    requires InGuest(n, x) && Coupled(x, h) && h.place.Guest? && x.tdvps.currVm == 0
    requires i.VmExit? && Possible(i, x.lists) && (!i.e.failed ==> x.vmcs.exitLen[0] == i.e.len)
    ensures var f := LateL1(i.e, i.filter, i.l1, i.voe, n, debug, x);
            var mid := if i.filter == Stepping.OkContinue && !i.e.failed then HandlerEvents(n, i, 0) else [];
            f.Ends? ==> EndAgrees(f, Run(h, mid), EndEvents(f.o, 0, ListNamed(i)))
  {
    if i.filter != Stepping.OkContinue {
      FinishL1Agrees(true, i.voe, ListNamed(i), x, h);
    } else if i.e.failed {
      var report := i.e.busLock || x.vp.busLockPreempted;
      LeavingAgrees(if debug then Success else NonRecoverableTd, report, ListNamed(i), x, h);
      LeavingAgrees(NonAccessible, report, ListNamed(i), x, h);
    } else {
      SwitchL1Agrees(n, i, x, h);
      SwitchL1KeepsInGuest(i.e, i.l1, n, x);
      var f := SwitchL1(i.e, i.l1, n, x);
      if f.GoesOn? {
        FinishL1Agrees(false, i.voe, ListNamed(i), f.s, Run(h, HandlerEvents(n, i, 0)));
      }
    }
  }

  lemma LateL2Agrees(n: VmId, i: Input, x: Snap, h: State)
    requires InGuest(n, x) && Coupled(x, h) && h.place.Guest? && x.tdvps.currVm != 0
    requires i.VmExit? && Possible(i, x.lists) && (!i.e.failed ==> x.vmcs.exitLen[x.tdvps.currVm] == i.e.len)
    ensures var f := LateL2(i.e, i.filter, i.l2, i.exitInstead, i.voe, i.info, x);
            var vm := x.tdvps.currVm;
            var mid := if i.filter == Stepping.OkContinue && !i.e.failed then HandlerEvents(n, i, vm) else [];
            f.Ends? ==> EndAgrees(f, Run(h, mid), EndEvents(f.o, vm, ListNamed(i)))
  {
    if i.filter != Stepping.OkContinue {
      FinishL2Agrees(true, i, ListNamed(i), n, x, h);
    } else if i.e.failed {
      ToL1Agrees(i.exitInstead, i.e.busLock, i.info, ListNamed(i), x, h);
      LeavingAgrees(NonAccessible, i.e.busLock || x.vp.busLockPreempted, ListNamed(i), x, h);
    } else {
      SwitchL2Agrees(n, i, x, h);
      SwitchL2KeepsInGuest(i.e, i.l2, i.exitInstead, i.info, n, x);
      var f := SwitchL2(i.e, i.l2, i.exitInstead, i.info, x);
      if f.GoesOn? {
        FinishL2Agrees(false, i, ListNamed(i), n, f.s, Run(h, HandlerEvents(n, i, x.tdvps.currVm)));
      }
    }
  }

  /** A VM exit drives the machine by the events read off it. */
  lemma ExitAgrees(n: VmId, debug: bool, i: Input, x: Snap, h: State)
    requires InGuest(n, x) && Agrees(x, h) && i.VmExit? && Possible(i, x.lists)
    ensures EndAgrees(Dispatched(n, debug, i, x), h, ExitEvents(n, debug, i, x))
  {
    var vm, f := x.tdvps.currVm, Dispatched(n, debug, i, x);
    DispatchEndsWell(n, debug, i, x);
    ArriveAgrees(n, i.e, x, h);
    PrologueKeepsInGuest(n, i, x);
    var arrive := ArriveEvents(i.e, vm);
    var mid := if Handles(i, x) then HandlerEvents(n, i, vm) else [];
    var end := EndEvents(f.o, vm, ListNamed(i));
    RunAppend(h, arrive + mid, end);
    RunAppend(h, arrive, mid);
    EarlyOrLateAgrees(n, debug, i, x, Run(h, arrive));
  }

  lemma EarlyOrLateAgrees(n: VmId, debug: bool, i: Input, x: Snap, g: State)
    requires InGuest(n, x) && i.VmExit? && Possible(i, x.lists) && g.place.Guest? && Coupled(Arrived(i.e, x), g)
    ensures var f := Dispatched(n, debug, i, x);
            var mid := if Handles(i, x) then HandlerEvents(n, i, x.tdvps.currVm) else [];
            f.Ends? ==> EndAgrees(f, Run(g, mid), EndEvents(f.o, x.tdvps.currVm, ListNamed(i)))
  {
    PrologueKeepsInGuest(n, i, x);
    var y := Arrived(i.e, x);
    var f := EarlyFlow(i.e, i.exitOnL2, i.filter, y);
    if f.Ends? {
      LeavingAgrees(f.o.status, f.o.busLock, ListNamed(i), y, g);
      LeavingAgrees(f.o.status, f.o.busLock, ListNamed(i), Noted(i.e.busLock, y), g);
    } else if x.tdvps.currVm == 0 {
      LateL1Agrees(n, debug, i, f.s, g);
    } else {
      LateL2Agrees(n, i, f.s, g);
    }
  }

  // ---- Events of TDH.VP.ENTER ----

  function RequestEvents(a: HostArgs, x: Snap): seq<Event> {
    if RequestTaken(a, x) && a.resumeL1 then [HostRoutes] else []
  }

  function ResumeEvents(a: HostArgs, x: Snap): seq<Event> {
    if PastFilter(a, x) && WantsL1(a, x) then [HostRoutes, HostResumesL1(Answered(a.answer), !CannotResumeL1(a, x))]
    else []
  }

  function FinalEvents(a: HostArgs, x: Snap): seq<Event> {
    var f := EntryFlow(a, x);
    if f.Ends? && f.o.Entered? then [HostEnters(Answered(a.answer))]
    else if PastFilter(a, x) && !(WantsL1(a, x) && CannotResumeL1(a, x)) then [HostRefuses]
    else []
  }

  function EntryEvents(a: HostArgs, x: Snap): seq<Event> {
    RequestEvents(a, x) + ResumeEvents(a, x) + FinalEvents(a, x)
  }

  lemma ChosenAgrees(n: VmId, a: HostArgs, x: Snap, h: State)
    requires Entering(n, x) && Coupled(x, h) && h.place.Host? && x.tdvps.routed.NotRouted?
    ensures var f := ChosenFlow(a, x);
            f.Ends? && EndAgrees(f, h, [if f.o.Entered? then HostEnters(Answered(a.answer)) else HostRefuses])
  {
    var vm := x.tdvps.currVm;
    var y := if vm == 0 then x else x.(tdvps := Translated(a.listWalk, vm, x.tdvps, x.lists));
    RefuseAgrees(x, h);
    RefuseAgrees(y, h);
    RestoredAgrees(n, a, y, h);
  }

  lemma RefuseAgrees(x: Snap, h: State)
    requires Coupled(x, h) && h.place.Host? && x.tdvps.routed.NotRouted?
    ensures EndAgrees(RefuseAsFault(x), h, [HostRefuses])
  {
    RunOne(h, HostRefuses);
  }

  lemma RestoredAgrees(n: VmId, a: HostArgs, x: Snap, h: State)
    requires Entering(n, x) && Coupled(x, h) && h.place.Host? && x.tdvps.routed.NotRouted?
    ensures EndAgrees(GuestFlow(a, x), h, [HostEnters(Answered(a.answer))])
  {
    RunOne(h, HostEnters(Answered(a.answer)));
  }

  lemma ResumeL1Agrees(n: VmId, a: HostArgs, x: Snap, h: State)
    requires Entering(n, x) && Coupled(x, h) && h.place.Host? && x.tdvps.currVm != 0 && !x.tdvps.routed.NotRouted?
    ensures var f, g := ResumeL1Flow(a, x), Step(h, HostResumesL1(Answered(a.answer), ResumeL1Flow(a, x).GoesOn?));
            if f.Ends? then Agrees(f.s, g) else Coupled(f.s, g) && g.place.Host?
  {
    var ok := ResumeL1Flow(a, x).GoesOn?;
    var y, g := x.(tdvps := AnswerTaken(x.tdvps, a.answer)), AnswerAsFault(h, Answered(a.answer));
    AnswerAgrees(a, x, h);
    var z := y.(tdvps := Translated(a.listWalk, y.tdvps.currVm, y.tdvps, y.lists));
    assert Step(h, HostResumesL1(Answered(a.answer), ok)) == ResumeL1(g, ok);
    if ok {
      BackAgrees(a.exitInfo, y, g);
      BackAgrees(a.exitInfo, z.(lists := WrittenBack(z.tdvps, z.vmcs, z.lists)), WriteBack(g));
    }
  }

  lemma BackAgrees(info: seq<u64>, x: Snap, h: State)
    requires Coupled(x, h) && h.call.Some?
    ensures Coupled(AtL1(info, x.(tdvps := x.tdvps.(routed := NotRouted))), BackInL1(h))
  {
  }

  lemma AnswerAgrees(a: HostArgs, x: Snap, h: State)
    requires Coupled(x, h)
    ensures Coupled(x.(tdvps := AnswerTaken(x.tdvps, a.answer)), AnswerAsFault(h, Answered(a.answer)))
  {
  }

  lemma BegunAgrees(n: VmId, a: HostArgs, x: Snap, h: State)
    requires AtHost(n, x) && Agrees(x, h) && RequestTaken(a, x)
    ensures var g := Run(h, RequestEvents(a, x));
            && g.place.Host? && Coupled(RequestFlow(a, Associated(x)).s, g)
            && (!a.earlyError ==> Entering(n, Begun(a, x)) && Begun(a, x).counted && Coupled(Begun(a, x), g))
  {
    RunOne(h, HostRoutes);
    if !a.earlyError {
      RequestKeepsEntering(n, a, x);
      CountedIsSane(n, !x.tdvps.associated, RequestFlow(a, Associated(x)).s);
    }
  }

  // From L2: on to the VM chosen, or refused for want of a place to put L2's image.
  lemma FromL2Agrees(n: VmId, a: HostArgs, x: Snap, h: State)
    requires PastFilter(a, x) && x.tdvps.currVm != 0 && h.place.Host?
    requires Entering(n, Begun(a, x)) && Begun(a, x).counted && Coupled(Begun(a, x), h)
    ensures var f, g := FromL2Flow(a, Begun(a, x)), Run(h, ResumeEvents(a, x));
            && (f.Ends? <==> WantsL1(a, x) && CannotResumeL1(a, x))
            && if f.Ends? then Agrees(f.s, g)
               else Coupled(f.s, g) && g.place.Host? && Entering(n, f.s) && f.s.tdvps.routed.NotRouted?
  {
    BegunIsSame(a, x);
    var y := Begun(a, x);
    FromL2EndsWell(n, a, y);
    if WantsL1(a, x) {
      var z := y.(tdvps := Routed(y.tdvps));
      assert (if AsksForL1(a) then z else y) == z;
      RouteThenResume(n, a, y, !CannotResumeL1(a, x), h);
    }
  }

  lemma RouteThenResume(n: VmId, a: HostArgs, y: Snap, ok: bool, h: State)
    requires Entering(n, y) && Coupled(y, h) && h.place.Host? && y.tdvps.currVm != 0
    requires ok <==> ResumeL1Flow(a, y.(tdvps := Routed(y.tdvps))).GoesOn?
    ensures var f := ResumeL1Flow(a, y.(tdvps := Routed(y.tdvps)));
            var g := Run(h, [HostRoutes, HostResumesL1(Answered(a.answer), ok)]);
            if f.Ends? then Agrees(f.s, g) else Coupled(f.s, g) && g.place.Host?
  {
    var resume := HostResumesL1(Answered(a.answer), ok);
    ResumeL1Agrees(n, a, y.(tdvps := Routed(y.tdvps)), Step(h, HostRoutes));
    RunOne(h, HostRoutes);
    RunOne(Step(h, HostRoutes), resume);
    RunAppend(h, [HostRoutes], [resume]);
    assert [HostRoutes] + [resume] == [HostRoutes, resume];
  }

  /** TDH.VP.ENTER drives the machine by the events read off it. */
  lemma EntryAgrees(n: VmId, a: HostArgs, x: Snap, h: State)
    requires AtHost(n, x) && Agrees(x, h)
    ensures EndAgrees(EntryFlow(a, x), h, EntryEvents(a, x))
  {
    EntryEndsWell(n, a, x);
    RunAppend(h, RequestEvents(a, x) + ResumeEvents(a, x), FinalEvents(a, x));
    RunAppend(h, RequestEvents(a, x), ResumeEvents(a, x));
    if RequestTaken(a, x) {
      BegunAgrees(n, a, x, h);
      if PastFilter(a, x) {
        PastFilterAgrees(n, a, x, Run(h, RequestEvents(a, x)));
      }
    }
  }

  lemma PastFilterAgrees(n: VmId, a: HostArgs, x: Snap, h: State)
    requires PastFilter(a, x) && h.place.Host?
    requires Entering(n, Begun(a, x)) && Begun(a, x).counted && Coupled(Begun(a, x), h)
    ensures EndAgrees(CountedFlow(a, Begun(a, x)), Run(h, ResumeEvents(a, x)), FinalEvents(a, x))
  {
    BegunIsSame(a, x);
    var y := Begun(a, x);
    assert EntryFlow(a, x) == CountedFlow(a, y);
    if y.tdvps.currVm == 0 {
      ChosenAgrees(n, a, y, h);
    } else {
      FromL2Agrees(n, a, x, h);
      var f := FromL2Flow(a, y);
      if f.GoesOn? {
        ChosenAgrees(n, a, f.s, Run(h, ResumeEvents(a, x)));
      }
    }
  }

  // ---- Runs ----

  function EventsOf(n: VmId, debug: bool, i: Input, x: Snap): seq<Event> {
    match i
    case VmExit(_, _, _, _, _, _, _, _) =>
      if InGuestNow(x) && Possible(i, x.lists) then ExitEvents(n, debug, i, x) else []
    case VpEnterByHost(a) => if InGuestNow(x) then [] else EntryEvents(a, x)
    case _ => []
  }

  function EventsAlong(n: VmId, debug: bool, x: Snap, inputs: seq<Input>): seq<Event> {
    if inputs == [] then []
    else
      var k := |inputs| - 1;
      EventsAlong(n, debug, x, inputs[..k]) + EventsOf(n, debug, inputs[k], RunOf(n, debug, x, inputs[..k]))
  }

  lemma StepAgrees(n: VmId, debug: bool, i: Input, x: Snap, h: State)
    requires Good(n, x) && Agrees(x, h) && StepOf(n, debug, i, x).0 != Some(Halted)
    ensures Agrees(StepOf(n, debug, i, x).1, Run(h, EventsOf(n, debug, i, x)))
  {
    match i
    case VmExit(_, _, _, _, _, _, _, _) =>
      if InGuestNow(x) && Possible(i, x.lists) {
        ExitAgrees(n, debug, i, x, h);
      }
    case VpEnterByHost(a) =>
      if !InGuestNow(x) {
        EntryAgrees(n, a, x, h);
      }
    case _ =>
  }

  /** Through every run the machine, driven by the events read off the inputs, agrees with the vCPU. */
  lemma {:induction false} RunAgrees(n: VmId, debug: bool, x: Snap, inputs: seq<Input>, h: State)
    requires Good(n, x) && Agrees(x, h) && NeverHalts(n, debug, x, inputs)
    ensures Agrees(RunOf(n, debug, x, inputs), Run(h, EventsAlong(n, debug, x, inputs)))
  {
    if inputs != [] {
      var k := |inputs| - 1;
      NeverHaltsBefore(n, debug, x, inputs, k);
      RunAgrees(n, debug, x, inputs[..k], h);
      RunStaysGood(n, debug, x, inputs[..k]);
      var y := RunOf(n, debug, x, inputs[..k]);
      StepAgrees(n, debug, inputs[k], y, Run(h, EventsAlong(n, debug, x, inputs[..k])));
      RunAppend(h, EventsAlong(n, debug, x, inputs[..k]), EventsOf(n, debug, inputs[k], y));
    }
  }

  // ---- Forgotten calls ----

  lemma EntryForgetsIff(n: VmId, a: HostArgs, x: Snap, h: State)
    requires AtHost(n, x) && Agrees(x, h)
    ensures NothingForgotten(h, EntryEvents(a, x)) <==> !ForgetsVmcall(a, x)
  {
    var begun := RequestEvents(a, x) + ResumeEvents(a, x);
    ForgottenAppend(h, begun, FinalEvents(a, x));
    NoRefusalForgetsNothing(h, begun);
    RunAppend(h, RequestEvents(a, x), ResumeEvents(a, x));
    if PastFilter(a, x) && !(WantsL1(a, x) && CannotResumeL1(a, x)) {
      BegunAgrees(n, a, x, h);
      LastBeforeChoice(n, a, x, Run(h, RequestEvents(a, x)));
      assert FinalEvents(a, x) == [FinalEvents(a, x)[0]];
      OneForgetsIff(Run(h, begun), FinalEvents(a, x)[0]);
    } else {
      NoRefusalForgetsNothing(Run(h, begun), FinalEvents(a, x));
    }
  }

  // The machine, when the VM to be entered is known.
  lemma LastBeforeChoice(n: VmId, a: HostArgs, x: Snap, h: State)
    requires PastFilter(a, x) && !(WantsL1(a, x) && CannotResumeL1(a, x)) && h.place.Host?
    requires Entering(n, Begun(a, x)) && Begun(a, x).counted && Coupled(Begun(a, x), h)
    ensures var g := Run(h, ResumeEvents(a, x));
            && g.place.Host? && g.routed.NotRouted?
            && (g.last.TdVmcall? <==> x.tdvps.lastTdExit.TdVmcall? && !WantsL1(a, x))
    ensures !WantsL1(a, x) ==> (EntryFlow(a, x).o.Entered? <==> !Faults(a, x))
  {
    BegunIsSame(a, x);
    if x.tdvps.currVm != 0 {
      FromL2Agrees(n, a, x, h);
    }
  }

  lemma ExitForgetsNothing(n: VmId, debug: bool, i: Input, x: Snap, h: State)
    requires i.VmExit?
    ensures NothingForgotten(h, ExitEvents(n, debug, i, x))
  {
    var f := Dispatched(n, debug, i, x);
    assert f.Ends? ==> forall ev <- EndEvents(f.o, x.tdvps.currVm, ListNamed(i)) :: !ev.HostRefuses?;
    NoRefusalForgetsNothing(h, ExitEvents(n, debug, i, x));
  }

  predicate InputForgets(i: Input, x: Snap) {
    i.VpEnterByHost? && !InGuestNow(x) && ForgetsVmcall(i.args, x)
  }

  // No input of the run is such an entry.
  predicate NeverForgets(n: VmId, debug: bool, x: Snap, inputs: seq<Input>) {
    if inputs == [] then true
    else
      var m := |inputs| - 1;
      NeverForgets(n, debug, x, inputs[..m]) && !InputForgets(inputs[m], RunOf(n, debug, x, inputs[..m]))
  }

  /** The machine forgets nothing in a run iff no entry does. */
  lemma {:induction false} RunForgetsIff(n: VmId, debug: bool, x: Snap, inputs: seq<Input>, h: State)
    requires Good(n, x) && Agrees(x, h) && NeverHalts(n, debug, x, inputs)
    ensures NothingForgotten(h, EventsAlong(n, debug, x, inputs)) <==> NeverForgets(n, debug, x, inputs)
  {
    if inputs != [] {
      var m := |inputs| - 1;
      var y, g := RunOf(n, debug, x, inputs[..m]), Run(h, EventsAlong(n, debug, x, inputs[..m]));
      NeverHaltsBefore(n, debug, x, inputs, m);
      RunForgetsIff(n, debug, x, inputs[..m], h);
      RunAgrees(n, debug, x, inputs[..m], h);
      RunStaysGood(n, debug, x, inputs[..m]);
      ForgottenAppend(h, EventsAlong(n, debug, x, inputs[..m]), EventsOf(n, debug, inputs[m], y));
      StepForgetsIff(n, debug, inputs[m], y, g);
    }
  }

  lemma StepForgetsIff(n: VmId, debug: bool, i: Input, x: Snap, h: State)
    requires Good(n, x) && Agrees(x, h)
    ensures NothingForgotten(h, EventsOf(n, debug, i, x))
       <==> !InputForgets(i, x)
  {
    match i
    case VmExit(_, _, _, _, _, _, _, _) => ExitForgetsNothing(n, debug, i, x, h);
    case VpEnterByHost(a) =>
      if !InGuestNow(x) {
        EntryForgetsIff(n, a, x, h);
      }
    case _ =>
  }

  // ---- One call ----

  /** L1's TDG.VP.ENTER begins a call with what L1 has at that moment: its registers and lists as the processor
      delivered them, the image on the list it names, and the length of its TDCALL. */
  lemma CallBegins(n: VmId, debug: bool, i: Input, x: Snap, h: State)
    requires InGuest(n, x) && Agrees(x, h) && i.VmExit? && Possible(i, x.lists) && x.tdvps.currVm == 0
    requires Dispatched(n, debug, i, x).o.Entered? && Dispatched(n, debug, i, x).o.vm != 0
    ensures i.l1.VpEnter? && i.l1.args.list in i.e.lists && !i.e.failed
    ensures var list := i.l1.args.list;
            Run(h, ExitEvents(n, debug, i, x)).call
            == Some(Call(i.l1.args.vm, list, i.e.lists[list], View(i.e.regs, i.e.lists), i.e.len, []))
  {
    EntersFromL1(n, debug, i, x);
    var ran := L1Runs(i.e.regs, i.e.len, i.e.lists);
    var enter := Enters(i.l1.args.vm, i.l1.args.list);
    assert ExitEvents(n, debug, i, x) == [ran] + [enter];
    RunAppend(h, [ran], [enter]);
    RunOne(h, ran);
    RunOne(Step(h, ran), enter);
  }

  lemma EntersFromL1(n: VmId, debug: bool, i: Input, x: Snap)
    requires InGuest(n, x) && i.VmExit? && Possible(i, x.lists) && x.tdvps.currVm == 0
    requires Dispatched(n, debug, i, x).o.Entered? && Dispatched(n, debug, i, x).o.vm != 0
    ensures i.l1.VpEnter? && Handles(i, x) && !Completes(i.l1, n)
    ensures Dispatched(n, debug, i, x).o.vm == i.l1.args.vm && i.l1.args.list in i.e.lists
  {
    PrologueKeepsInGuest(n, i, x);
  }

  // What a VM exit of L2 did to its image: what L2 itself did, and what the handler made of it.
  function L2Effects(n: VmId, i: Input, x: Snap): seq<Effect>
    requires i.VmExit?
  {
    (if i.e.failed then [] else [Delivered(i.e)])
    + if !Handles(i, x) then []
      else
        match i.l2
        case Resume(gprs, advance) => [Emulation(gprs, advance, i.e.len)]
        case VmCall(accepted, gprs) => [if accepted then Passed(i.e.len) else Emulation(gprs, true, i.e.len)]
        case _ => []
  }

  lemma {:induction false} EffectsAppend(s: State, effects: seq<Effect>)
    requires s.place.Guest? && s.call.Some?
    ensures var r := Run(s, Does(effects)); r.call.Some? && r == s.(call := r.call)
    ensures var c, d := s.call.value, Run(s, Does(effects)).call.value;
            d == c.(l2 := d.l2, did := c.did + effects)
  {
    if effects == [] {
      assert s.call.value.did + effects == s.call.value.did;
    } else {
      var k := |effects| - 1;
      assert Does(effects)[..k] == Does(effects[..k]);
      EffectsAppend(s, effects[..k]);
      assert effects == effects[..k] + [effects[k]];
    }
  }

  function Does(effects: seq<Effect>): (evs: seq<Event>)
    ensures |evs| == |effects| && forall k | 0 <= k < |evs| :: evs[k] == L2Does(effects[k])
  {
    seq(|effects|, k requires 0 <= k < |effects| => L2Does(effects[k]))
  }

  /** A VM exit of L2 adds exactly its effects to the call; an exit to L1 completes it. */
  lemma CallGoesOn(n: VmId, debug: bool, i: Input, x: Snap, h: State)
    requires InGuest(n, x) && Agrees(x, h) && i.VmExit? && Possible(i, x.lists) && x.tdvps.currVm != 0
    requires !Dispatched(n, debug, i, x).o.Halted?
    ensures var o, g := Dispatched(n, debug, i, x).o, Run(h, ExitEvents(n, debug, i, x));
            var did := h.call.value.did + L2Effects(n, i, x);
            if o.Entered? && o.vm == 0 then
              |g.log| == |h.log| + 1 && g.log[|h.log|].call == h.call.value.(l2 := g.log[|h.log|].call.l2, did := did)
            else
              g.log == h.log && g.call.Some? && g.call.value == h.call.value.(l2 := g.call.value.l2, did := did)
  {
    var vm, o := x.tdvps.currVm, Dispatched(n, debug, i, x).o;
    var does := Does(L2Effects(n, i, x));
    DispatchEndsWell(n, debug, i, x);
    assert ArriveEvents(i.e, vm) + (if Handles(i, x) then HandlerEvents(n, i, vm) else []) == does;
    EffectsAppend(h, L2Effects(n, i, x));
    RunAppend(h, does, EndEvents(o, vm, ListNamed(i)));
    L2EndsHow(n, debug, i, x);
    CallEnds(o, vm, ListNamed(i), Run(h, does));
  }

  lemma CallEnds(o: Outcome, vm: VmId, list: u64, h: State)
    requires h.place.Guest? && h.call.Some? && vm != 0
    requires o.Entered? ==> o.vm == 0 || o.vm == vm
    requires o.TdExit? ==> !IsTrap(o.status)
    ensures var g := Run(h, EndEvents(o, vm, list));
            if o.Entered? && o.vm == 0 then
              |g.log| == |h.log| + 1 && g.log[|h.log|].call == h.call.value
            else
              g.log == h.log && g.call == h.call
  {
    if EndEvents(o, vm, list) != [] {
      RunOne(h, EndEvents(o, vm, list)[0]);
    }
  }

  lemma L2EndsHow(n: VmId, debug: bool, i: Input, x: Snap)
    requires InGuest(n, x) && i.VmExit? && Possible(i, x.lists) && x.tdvps.currVm != 0
    ensures match Dispatched(n, debug, i, x).o
            case Entered(vm, _) => vm == 0 || vm == x.tdvps.currVm
            case TdExit(s, _) => !IsTrap(s)
            case _ => true
  {
    PrologueKeepsInGuest(n, i, x);
    if !PastPrologue(i, x) {
    } else if i.filter != Stepping.OkContinue {
    } else if i.e.failed {
    } else {
      match i.l2
      case Leave(_) =>
      case PostedInterrupt(_, _) =>
      case _ =>
    }
  }

  // ---- What it means ----

  // The machine of a vCPU that has just been set up.
  function Begin(x: Snap): State {
    State(x.vmcs.regs[0], x.vmcs.exitLen[0], x.lists, None, AsyncFault, NotRouted, Host, false, [])
  }

  /** Main result, over every run of a vCPU from its set-up.  The machine driven by the events read off the
      inputs agrees with the vCPU at the end; each TDG.VP.ENTER completed on the way moved L1 past it, once,
      and changed no list but its own; and if no entry of the run is one that forgets a TDG.VP.VMCALL, each was
      a call: its list holds the image that it held, transformed by what the inputs did to L2, in order. */
  lemma EntersAreCalls(n: VmId, debug: bool, x: Snap, inputs: seq<Input>)
    requires AtHost(n, x) && NoHistory(x) && NeverHalts(n, debug, x, inputs)
    ensures var h := Run(Begin(x), EventsAlong(n, debug, x, inputs));
            && Agrees(RunOf(n, debug, x, inputs), h)
            && (forall c <- h.log :: MovedL1Once(c))
            && (NeverForgets(n, debug, x, inputs) ==> Synced(h) && forall c <- h.log :: IsACall(c))
  {
    var evs := EventsAlong(n, debug, x, inputs);
    RunAgrees(n, debug, x, inputs, Begin(x));
    EnterMovesL1Once(Begin(x), evs);
    RunForgetsIff(n, debug, x, inputs, Begin(x));
    if NothingForgotten(Begin(x), evs) {
      EnterIsACall(Begin(x), evs);
    }
  }
}
