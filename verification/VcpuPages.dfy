/** The vCPU among the others: its fields move as one vCPU of Epoch and ListPage does.

    A VM exit is the machine's VmExit with the disposition of its outcome; TDH.VP.ENTER is an entry, or an entry
    that is called off, or nothing; and what a flow keeps of list translations is what UseList, Translate and
    FlushVp keep.  So the reference counts and the translations of the vCPU's own code mean what those files
    prove, while the other vCPUs and the host do whatever they can. */
module VcpuPages {
  import opened Words
  import opened VcpuSpec
  import opened VcpuEntries
  import opened VcpuLaws
  import Epoch
  import ListPage
  import NestedCall
  import Stepping

  type World = ListPage.World
  type PageEvent = ListPage.Event

  function PlaceOf(x: Snap): Epoch.Vcpu {
    if InGuestNow(x) then Epoch.InGuest(x.tdvps.vcpuEpoch)
    else if x.counted then Epoch.Died(x.tdvps.vcpuEpoch)
    else Epoch.Out
  }

  /** Number k of the world is this vCPU, with the list of its VM number vm. */
  predicate Matches(w: World, k: nat, vm: VmId, x: Snap) {
    && k < |w.vps| == |w.td.vcpus|
    && w.td.fatal == x.fatal && w.td.epoch == x.epoch && w.td.refcount == x.refcount
    && w.td.vcpus[k] == PlaceOf(x)
    && w.vps[k] == ListPage.Vp(x.tdvps.listGpa[vm], x.tdvps.listHpa[vm], x.tdvps.vcpuEpoch, x.tdvps.associated)
  }

  // What a walk of the Secure EPT finds now.
  function Walk(w: World, gpa: u64): Option<u64> {
    if ListPage.EntryAt(w, gpa).Mapped? then Some(ListPage.EntryAt(w, gpa).hpa) else None
  }

  /** The input with the walks that the world answers. */
  function SeenIn(w: World, i: Input, x: Snap): Input {
    match i
    case VmExit(_, _, _, _, _, _, _, _) =>
      if i.l1.VpEnter? then
        i.(l1 := VpEnter(i.l1.args.(listWalk := Walk(w, i.l1.args.list)), i.l1.gprs))
      else i
    case VpEnterByHost(a) => VpEnterByHost(a.(listWalk := Walk(w, x.tdvps.listGpa[x.tdvps.currVm])))
    case _ => i
  }

  function DispositionOf(o: Outcome): Epoch.Disposition {
    match o
    case Entered(_, _) => Epoch.Resume
    case TdExit(s, _) =>
      if s.NonAccessible? then Epoch.ExitInaccessible
      else if s.NonRecoverableTd? || s.WrongApicMode? || s.CorruptedMd? then Epoch.ExitAndKillTd
      else Epoch.ExitToHost
    case _ => Epoch.ExitToHost
  }

  // TDG.VP.ENTER gets as far as looking at the list.
  predicate LooksAtList(n: VmId, i: Input, x: Snap)
    requires i.VmExit?
  {
    Handles(i, x) && x.tdvps.currVm == 0 && i.l1.VpEnter? && EntersVm(i.l1.args, n) && !i.l1.args.exitBefore
  }

  function ListEvents(k: nat, vm: VmId, n: VmId, i: Input, x: Snap): seq<PageEvent>
    requires i.VmExit?
  {
    if LooksAtList(n, i, x) && i.l1.args.vm == vm then
      [ListPage.UseList(k, i.l1.args.list)]
      + (if ListsLeft(n, i, x).listHpa[vm].Some? then [ListPage.Translate(k)] else [])
    else []
  }

  function ExitEvents(k: nat, vm: VmId, n: VmId, debug: bool, i: Input, x: Snap): seq<PageEvent>
    requires i.VmExit?
  {
    var f := Dispatched(n, debug, i, x);
    ListEvents(k, vm, n, i, x)
    + [ListPage.Sched(Epoch.VmExit(k, if f.Ends? then DispositionOf(f.o) else Epoch.Resume))]
  }

  lemma {:induction false} RunAppend(w: World, a: seq<PageEvent>, b: seq<PageEvent>)
    requires ListPage.Inv(w)
    ensures ListPage.Run(w, a + b) == ListPage.Run(ListPage.Run(w, a), b)
  {
    if b == [] {
      assert a + b == a;
    } else {
      var m := |b| - 1;
      RunAppend(w, a, b[..m]);
      assert (a + b)[..|a + b| - 1] == a + b[..m];
    }
  }

  lemma RunOne(w: World, ev: PageEvent)
    requires ListPage.Inv(w)
    ensures ListPage.Run(w, [ev]) == ListPage.Step(w, ev)
  {
    assert ListPage.Run(w, [ev][..0]) == w;
  }

  // ... once its list addresses and translations are those of t.
  predicate MatchesWith(t: Tdvps, w: World, k: nat, vm: VmId, x: Snap) {
    Matches(w, k, vm, x.(tdvps := x.tdvps.(listGpa := t.listGpa, listHpa := t.listHpa)))
  }

  lemma ListsMatch(k: nat, vm: VmId, n: VmId, i: Input, x: Snap, w: World)
    requires InGuest(n, x) && i.VmExit? && ListPage.Inv(w) && Matches(w, k, vm, x) && vm != 0
    requires i.l1.VpEnter? ==> i.l1.args.listWalk == Walk(w, i.l1.args.list)
    ensures MatchesWith(ListsLeft(n, i, x), ListPage.Run(w, ListEvents(k, vm, n, i, x)), k, vm, x)
  {
    if LooksAtList(n, i, x) && i.l1.args.vm == vm {
      var use, look := ListPage.UseList(k, i.l1.args.list), ListPage.Translate(k);
      RunOne(w, use);
      var v := ListPage.Run(w, [use]);
      assert MatchesWith(ListTaken(i.l1.args, x.tdvps), v, k, vm, x);
      if ListsLeft(n, i, x).listHpa[vm].Some? {
        RunOne(v, look);
        RunAppend(w, [use], [look]);
        LookKeeps(k, vm, i.l1.args, x, i.e.lists, v);
      } else {
        assert [use] + [] == [use];
      }
    }
  }

  lemma LookKeeps(k: nat, vm: VmId, a: EnterArgs, x: Snap, lists: map<u64, NestedCall.Image>, v: World)
    requires ListPage.Inv(v) && vm == a.vm != 0 && a.listWalk == Walk(v, a.list) && InGuestNow(x)
    requires MatchesWith(ListTaken(a, x.tdvps), v, k, vm, x)
    ensures var t := Translated(a.listWalk, vm, ListTaken(a, x.tdvps), lists);
            t.listHpa[vm].Some? ==> MatchesWith(t, ListPage.Step(v, ListPage.Translate(k)), k, vm, x)
  {
  }

  lemma SchedMatches(k: nat, vm: VmId, t: Tdvps, x: Snap, f: Flow, owed: bool, n: VmId, w: World)
    requires InGuest(n, x) && ListPage.Inv(w) && MatchesWith(t, w, k, vm, x)
    requires EndsWell(n, f) && !f.o.Halted? && !f.o.Refused? && Accounts(owed, x, f) && SameLists(t, f.s)
    requires x.fatal ==> f.o == TdExit(NonAccessible, owed)
    ensures Matches(ListPage.Step(w, ListPage.Sched(Epoch.VmExit(k, DispositionOf(f.o)))), k, vm, f.s)
  {
  }

  /** A VM exit moves this vCPU in the world by the events read off it. */
  lemma ExitMatches(k: nat, vm: VmId, n: VmId, debug: bool, i: Input, x: Snap, w: World)
    requires InGuest(n, x) && i.VmExit? && Possible(i, x.lists) && !Dispatched(n, debug, i, x).o.Halted?
    requires ListPage.Inv(w) && Matches(w, k, vm, x) && vm != 0
    requires i.l1.VpEnter? ==> i.l1.args.listWalk == Walk(w, i.l1.args.list)
    ensures Matches(ListPage.Run(w, ExitEvents(k, vm, n, debug, i, x)), k, vm, Dispatched(n, debug, i, x).s)
  {
    DispatchEndsWell(n, debug, i, x);
    DispatchAccounts(n, debug, i, x);
    ListsMatch(k, vm, n, i, x, w);
    var f, v := Dispatched(n, debug, i, x), ListPage.Run(w, ListEvents(k, vm, n, i, x));
    var sched := ListPage.Sched(Epoch.VmExit(k, DispositionOf(f.o)));
    SchedMatches(k, vm, ListsLeft(n, i, x), x, f, Owes(i, x), n, v);
    RunOne(v, sched);
    RunAppend(w, ListEvents(k, vm, n, i, x), [sched]);
  }

  // ---- TDH.VP.ENTER and TDH.VP.FLUSH ----

  function LookEvents(k: nat, vm: VmId, a: HostArgs, x: Snap): seq<PageEvent> {
    if LooksForList(a, x) && x.tdvps.currVm == vm && HpasLeft(a, x)[vm].Some? then [ListPage.Translate(k)] else []
  }

  function CountedEvents(k: nat, vm: VmId, a: HostArgs, x: Snap): seq<PageEvent> {
    if EntryCounts(a, x) then
      [ListPage.Sched(Epoch.Enter(k))] + LookEvents(k, vm, a, x)
      + (if EntryOutcome(a, x).Entered? then [] else [ListPage.Sched(Epoch.FailEntry(k))])
    else []
  }

  function EntryEvents(k: nat, vm: VmId, a: HostArgs, x: Snap): seq<PageEvent> {
    if x.fatal || !x.tdvps.state.Ready? then [] else [ListPage.Associate(k)] + CountedEvents(k, vm, a, x)
  }

  // The vCPU once it is counted in.
  function InAt(x: Snap, t: Tdvps): Snap {
    x.(tdvps := t.(vcpuEpoch := x.epoch, associated := true),
       refcount := Epoch.CountIn(x.refcount, x.epoch), counted := true, vp := x.vp.(activeVmcs := 0))
  }

  lemma EnterMatches(k: nat, vm: VmId, x: Snap, w: World)
    requires ListPage.Inv(w) && vm != 0 && !x.fatal && PlaceOf(x) == Epoch.Out
    requires Matches(w, k, vm, x.(tdvps := x.tdvps.(associated := true)))
    requires !x.tdvps.associated ==> x.tdvps.listHpa == NO_HPAS
    ensures Matches(ListPage.Step(w, ListPage.Sched(Epoch.Enter(k))), k, vm, InAt(x, Kept(x)))
  {
  }

  lemma LookMatches(k: nat, vm: VmId, a: HostArgs, x: Snap, w: World)
    requires ListPage.Inv(w) && vm != 0 && EntryCounts(a, x) && Matches(w, k, vm, InAt(x, Kept(x)))
    requires a.listWalk == Walk(w, x.tdvps.listGpa[x.tdvps.currVm])
    ensures Matches(ListPage.Run(w, LookEvents(k, vm, a, x)), k, vm, InAt(x, x.tdvps.(listHpa := HpasLeft(a, x))))
  {
    if LookEvents(k, vm, a, x) != [] {
      RunOne(w, ListPage.Translate(k));
    }
  }

  lemma EntryMatches(k: nat, vm: VmId, n: VmId, a: HostArgs, x: Snap, w: World)
    requires AtHost(n, x) && ListPage.Inv(w) && Matches(w, k, vm, x) && vm != 0
    requires a.listWalk == Walk(w, x.tdvps.listGpa[x.tdvps.currVm])
    ensures Matches(ListPage.Run(w, EntryEvents(k, vm, a, x)), k, vm, EntryFlow(a, x).s)
  {
    EntryComesTo(n, a, x);
    EntryEndsWell(n, a, x);
    if !x.fatal && x.tdvps.state.Ready? {
      var w1 := ListPage.Step(w, ListPage.Associate(k));
      RunOne(w, ListPage.Associate(k));
      RunAppend(w, [ListPage.Associate(k)], CountedEvents(k, vm, a, x));
      assert Matches(w1, k, vm, x.(tdvps := x.tdvps.(associated := true)));
      if EntryCounts(a, x) {
        CountedMatches(k, vm, n, a, x, w1);
      }
    }
  }

  lemma CountedRun(k: nat, vm: VmId, a: HostArgs, x: Snap, w: World)
    requires ListPage.Inv(w) && EntryCounts(a, x)
    ensures var w1 := ListPage.Step(w, ListPage.Sched(Epoch.Enter(k)));
            && ListPage.Inv(w1) && ListPage.Inv(ListPage.Run(w1, LookEvents(k, vm, a, x)))
            && ListPage.Run(w, CountedEvents(k, vm, a, x)) ==
               var w2 := ListPage.Run(w1, LookEvents(k, vm, a, x));
               if EntryOutcome(a, x).Entered? then w2 else ListPage.Step(w2, ListPage.Sched(Epoch.FailEntry(k)))
  {
    var enter, fail := ListPage.Sched(Epoch.Enter(k)), ListPage.Sched(Epoch.FailEntry(k));
    var look := LookEvents(k, vm, a, x);
    RunOne(w, enter);
    RunAppend(w, [enter], look);
    if EntryOutcome(a, x).Entered? {
      assert CountedEvents(k, vm, a, x) == [enter] + look;
    } else {
      assert CountedEvents(k, vm, a, x) == [enter] + look + [fail];
      RunOne(ListPage.Run(w, [enter] + look), fail);
      RunAppend(w, [enter] + look, [fail]);
    }
  }

  // What the match depends on.
  predicate SamePages(x: Snap, y: Snap) {
    && x.fatal == y.fatal && x.epoch == y.epoch && x.refcount == y.refcount && PlaceOf(x) == PlaceOf(y)
    && x.tdvps.listGpa == y.tdvps.listGpa && x.tdvps.listHpa == y.tdvps.listHpa
    && x.tdvps.vcpuEpoch == y.tdvps.vcpuEpoch && x.tdvps.associated == y.tdvps.associated
  }

  // The vCPU counted out again.
  function OutAgain(x: Snap, y: Snap): Snap {
    y.(refcount := x.refcount, counted := false, vp := y.vp.(activeVmcs := ACTIVE_VMCS_NONE))
  }

  lemma EntryLeavesPages(n: VmId, a: HostArgs, x: Snap)
    requires AtHost(n, x) && EntryCounts(a, x)
    ensures var f, y := EntryFlow(a, x), InAt(x, x.tdvps.(listHpa := HpasLeft(a, x)));
            f == Ends(EntryOutcome(a, x), f.s) && SamePages(f.s, if f.o.Entered? then y else OutAgain(x, y))
  {
    var f := EntryFlow(a, x);
    EntryComesTo(n, a, x);
    EntryEndsWell(n, a, x);
    if f.o.Entered? {
      EnteredPages(n, a, x, f.o, f.s);
    } else {
      RefusedPages(n, a, x, f.o, f.s);
    }
  }

  lemma EnteredPages(n: VmId, a: HostArgs, x: Snap, o: Outcome, s: Snap)
    requires EntryCounts(a, x) && EntryLeft(a, x, o, s) && o.Entered? && InGuest(n, s)
    ensures SamePages(s, InAt(x, x.tdvps.(listHpa := HpasLeft(a, x))))
  {
  }

  lemma RefusedPages(n: VmId, a: HostArgs, x: Snap, o: Outcome, s: Snap)
    requires EntryCounts(a, x) && EntryLeft(a, x, o, s) && o.Refused? && AtHost(n, x) && AtHost(n, s)
    ensures SamePages(s, OutAgain(x, InAt(x, x.tdvps.(listHpa := HpasLeft(a, x)))))
  {
  }

  lemma CountedMatches(k: nat, vm: VmId, n: VmId, a: HostArgs, x: Snap, w: World)
    requires AtHost(n, x) && ListPage.Inv(w) && vm != 0 && EntryCounts(a, x)
    requires Matches(w, k, vm, x.(tdvps := x.tdvps.(associated := true)))
    requires a.listWalk == Walk(w, x.tdvps.listGpa[x.tdvps.currVm])
    ensures Matches(ListPage.Run(w, CountedEvents(k, vm, a, x)), k, vm, EntryFlow(a, x).s)
  {
    EntryLeavesPages(n, a, x);
    CountedRun(k, vm, a, x, w);
    var w1 := ListPage.Step(w, ListPage.Sched(Epoch.Enter(k)));
    EnterMatches(k, vm, x, w);
    LookMatches(k, vm, a, x, w1);
    if !EntryOutcome(a, x).Entered? {
      FailMatches(k, vm, a, x, ListPage.Run(w1, LookEvents(k, vm, a, x)));
    }
  }

  lemma FailMatches(k: nat, vm: VmId, a: HostArgs, x: Snap, w: World)
    requires ListPage.Inv(w) && Matches(w, k, vm, InAt(x, x.tdvps.(listHpa := HpasLeft(a, x))))
    ensures var y := InAt(x, x.tdvps.(listHpa := HpasLeft(a, x)));
            Matches(ListPage.Step(w, ListPage.Sched(Epoch.FailEntry(k))), k, vm, OutAgain(x, y))
  {
    Epoch.CountingOutUndoesCountingIn(x.refcount, x.epoch);
  }

  // ---- Runs among the others ----

  /** What happens next: something to this vCPU, or something to another one or to the pages. */
  datatype Move = Ours(i: Input) | Theirs(ev: PageEvent)

  datatype Duo = Duo(x: Snap, w: World)

  predicate IsForeign(k: nat, ev: PageEvent) {
    match ev
    case Sched(e) => (e.Enter? || e.FailEntry? || e.VmExit?) ==> e.i != k
    case UseList(i, _) => i != k
    case Translate(i) => i != k
    case Associate(i) => i != k
    case FlushVp(i) => i != k
    case _ => true
  }

  function EventsOf(k: nat, vm: VmId, n: VmId, debug: bool, i: Input, x: Snap): seq<PageEvent> {
    match i
    case VmExit(_, _, _, _, _, _, _, _) =>
      if InGuestNow(x) && Possible(i, x.lists) then ExitEvents(k, vm, n, debug, i, x) else []
    case VpEnterByHost(a) => if InGuestNow(x) then [] else EntryEvents(k, vm, a, x)
    case VpFlush => if InGuestNow(x) then [] else [ListPage.FlushVp(k)]
    case OtherVcpus(_, _, _) => []
  }

  /** This vCPU's code sees the walks that the world answers, and what the others did to the TD's fields. */
  function DuoStep(k: nat, vm: VmId, n: VmId, debug: bool, m: Move, d: Duo): (r: Duo)
    requires ListPage.Inv(d.w)
    ensures ListPage.Inv(r.w)
  {
    match m
    case Ours(i) =>
      if i.OtherVcpus? then d
      else
        var j := SeenIn(d.w, i, d.x);
        Duo(StepOf(n, debug, j, d.x).1, ListPage.Run(d.w, EventsOf(k, vm, n, debug, j, d.x)))
    case Theirs(ev) =>
      if !IsForeign(k, ev) then d
      else
        var v := ListPage.Step(d.w, ev);
        ListPage.StepKeepsInv(d.w, ev);
        Duo(d.x.(fatal := v.td.fatal, epoch := v.td.epoch, refcount := v.td.refcount), v)
  }

  ghost predicate DuoGood(k: nat, vm: VmId, n: VmId, d: Duo) {
    ListPage.Inv(d.w) && Matches(d.w, k, vm, d.x) && Good(n, d.x) && vm != 0
  }

  predicate Halts(n: VmId, debug: bool, m: Move, d: Duo) {
    m.Ours? && StepOf(n, debug, SeenIn(d.w, m.i, d.x), d.x).0 == Some(Halted)
  }

  lemma DuoStepKeeps(k: nat, vm: VmId, n: VmId, debug: bool, m: Move, d: Duo)
    requires DuoGood(k, vm, n, d) && !Halts(n, debug, m, d)
    ensures DuoGood(k, vm, n, DuoStep(k, vm, n, debug, m, d))
  {
    match m
    case Ours(i) => OursKeeps(k, vm, n, debug, i, d);
    case Theirs(ev) => TheirsKeeps(k, vm, n, debug, ev, d);
  }

  lemma OursKeeps(k: nat, vm: VmId, n: VmId, debug: bool, i: Input, d: Duo)
    requires DuoGood(k, vm, n, d) && !Halts(n, debug, Ours(i), d)
    ensures DuoGood(k, vm, n, DuoStep(k, vm, n, debug, Ours(i), d))
  {
    var j := SeenIn(d.w, i, d.x);
    StepKeepsGood(n, debug, j, d.x);
    if !i.OtherVcpus? {
      StepMatches(k, vm, n, debug, j, d.x, d.w);
    }
  }

  lemma StepMatches(k: nat, vm: VmId, n: VmId, debug: bool, j: Input, x: Snap, w: World)
    requires Good(n, x) && ListPage.Inv(w) && Matches(w, k, vm, x) && vm != 0
    requires j == SeenIn(w, j, x) && !j.OtherVcpus? && StepOf(n, debug, j, x).0 != Some(Halted)
    ensures Matches(ListPage.Run(w, EventsOf(k, vm, n, debug, j, x)), k, vm, StepOf(n, debug, j, x).1)
  {
    match j
    case VmExit(_, _, _, _, _, _, _, _) =>
      if InGuestNow(x) && Possible(j, x.lists) {
        ExitMatches(k, vm, n, debug, j, x, w);
      }
    case VpEnterByHost(a) =>
      if !InGuestNow(x) {
        EntryMatches(k, vm, n, a, x, w);
      }
    case VpFlush =>
      if !InGuestNow(x) {
        FlushMatches(k, vm, n, x, w);
      }
    case OtherVcpus(_, _, _) =>
  }

  lemma FlushMatches(k: nat, vm: VmId, n: VmId, x: Snap, w: World)
    requires AtHost(n, x) && ListPage.Inv(w) && Matches(w, k, vm, x) && vm != 0
    ensures Matches(ListPage.Run(w, [ListPage.FlushVp(k)]), k, vm, Flushed(x))
  {
    RunOne(w, ListPage.FlushVp(k));
  }

  lemma TheirsKeeps(k: nat, vm: VmId, n: VmId, debug: bool, ev: PageEvent, d: Duo)
    requires DuoGood(k, vm, n, d)
    ensures DuoGood(k, vm, n, DuoStep(k, vm, n, debug, Theirs(ev), d))
  {
    if IsForeign(k, ev) {
      ListPage.StepKeepsInv(d.w, ev);
      ForeignLeavesUs(k, ev, d.w);
    }
  }

  lemma ForeignLeavesUs(k: nat, ev: PageEvent, w: World)
    requires ListPage.Inv(w) && IsForeign(k, ev) && k < |w.vps|
    ensures var v := ListPage.Step(w, ev);
            && |v.vps| == |w.vps| && |v.td.vcpus| == |w.td.vcpus|
            && v.vps[k] == w.vps[k] && v.td.vcpus[k] == w.td.vcpus[k] && (w.td.fatal ==> v.td.fatal)
  {
  }

  function DuoRun(k: nat, vm: VmId, n: VmId, debug: bool, d: Duo, moves: seq<Move>): (r: Duo)
    requires ListPage.Inv(d.w)
    ensures ListPage.Inv(r.w)
  {
    if moves == [] then d
    else
      var front := DuoRun(k, vm, n, debug, d, moves[..|moves| - 1]);
      DuoStep(k, vm, n, debug, moves[|moves| - 1], front)
  }

  predicate DuoNeverHalts(k: nat, vm: VmId, n: VmId, debug: bool, d: Duo, moves: seq<Move>)
    requires ListPage.Inv(d.w)
  {
    if moves == [] then true
    else
      var m := |moves| - 1;
      && DuoNeverHalts(k, vm, n, debug, d, moves[..m])
      && !Halts(n, debug, moves[m], DuoRun(k, vm, n, debug, d, moves[..m]))
  }

  /** Main result, over every interleaving of this vCPU's inputs with what the other vCPUs do and with the host's
      operations on the pages.  The vCPU's fields stay those of the machine: each slot counts it exactly while it
      is in, or died in, the guest.  And while an L2 VM runs, the kept host address of its list is where the
      Secure EPT has the list, mapped or blocked; so what a TD exit writes lands on the list. */
  lemma {:induction false} ListLandsWhereItIs(k: nat, vm: VmId, n: VmId, debug: bool, d: Duo, moves: seq<Move>)
    requires DuoGood(k, vm, n, d) && DuoNeverHalts(k, vm, n, debug, d, moves)
    ensures var r := DuoRun(k, vm, n, debug, d, moves);
            && DuoGood(k, vm, n, r)
            && (InGuestNow(r.x) && r.x.tdvps.currVm == vm ==>
                  var at := ListPage.EntryAt(r.w, r.x.tdvps.listGpa[vm]);
                  r.x.tdvps.listHpa[vm].Some? && !at.Free? && at.hpa == r.x.tdvps.listHpa[vm].value)
  {
    if moves != [] {
      var m := |moves| - 1;
      ListLandsWhereItIs(k, vm, n, debug, d, moves[..m]);
      DuoStepKeeps(k, vm, n, debug, moves[m], DuoRun(k, vm, n, debug, d, moves[..m]));
    }
    var r := DuoRun(k, vm, n, debug, d, moves);
    InGuestIsInside(k, vm, n, r);
  }

  lemma InGuestIsInside(k: nat, vm: VmId, n: VmId, r: Duo)
    requires DuoGood(k, vm, n, r)
    ensures InGuestNow(r.x) && r.x.tdvps.currVm == vm ==>
              var at := ListPage.EntryAt(r.w, r.x.tdvps.listGpa[vm]);
              r.x.tdvps.listHpa[vm].Some? && !at.Free? && at.hpa == r.x.tdvps.listHpa[vm].value
  {
    assert ListPage.VpOk(r.w, k);
  }
}
