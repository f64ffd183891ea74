/** TDG.VP.ENTER seen as one call made by L1.

    L1 enters an L2 VM with the address of a register list; the VM runs, possibly with many TD exits and TD
    entries in between, until it exits to L1.  The state here is what the module keeps about that, plus a
    history: what L1 and the lists were when the VM was entered, what the VM did since, and the calls
    completed so far.  The class in Vcpu drives this machine; this file proves what its runs mean. */
module NestedCall {
  import opened Words

  // The guest registers that live in a VMCS, and a VM's whole register image as a list holds it.
  datatype Regs = Regs(rsp: u64, rflags: u64, rip: u64, ssp: u64)

  datatype Image = Image(gprs: seq<u64>, regs: Regs, interruptStatus: u64)

  type Effect = Image -> Image

  type Lists = map<u64, Image>

  /** What L1 can tell apart. */
  datatype View = View(regs: Regs, lists: Lists)

  datatype Call = Call(vm: nat, list: u64, l2: Image, before: View, len: u64, did: seq<Effect>)

  datatype Completion = Completion(call: Call, after: View)

  datatype LastExit = AsyncFault | AsyncTrap | TdVmcall

  datatype Routing = NotRouted | RoutedAsync | RoutedTdVmcall

  datatype Place = Guest | Host | Gone

  /** `l1Len` is the exit instruction length in L1's VMCS; `due` says that a TDG.VP.VMCALL has left and
      that the host's answer has not reached the guest yet. */
  datatype State = State(l1: Regs, l1Len: u64, lists: Lists, call: Option<Call>, last: LastExit, routed: Routing,
                         place: Place, due: bool, log: seq<Completion>)

  datatype Event =
    | L1Runs(regs: Regs, len: u64, lists: Lists)   // L1 executes up to a VM exit
    | L1Advances                                    // the module completes L1's instruction
    | Enters(vm: nat, list: u64)                    // TDG.VP.ENTER succeeds
    | L2Does(effect: Effect)                        // L2 executes, or the module emulates for it
    | Returns                                       // L2-to-L1 exit
    | FaultExit                                     // TD exits
    | TrapExit
    | VmcallExit
    | FinalExit(accessible: bool)                   // ... after which the vCPU cannot be entered
    | HostRoutes                                    // parts of TDH.VP.ENTER: L1 is to be resumed
    | HostResumesL1(answer: Effect, listOk: bool)
    | HostEnters(answer: Effect)
    | HostRefuses                                   // ... refused as if by an EPT violation

  function Advance(r: Regs, len: u64): Regs {
    r.(rip := Add64(r.rip, len))
  }

  function Did(c: Call, f: Effect): Call {
    c.(l2 := f(c.l2), did := c.did + [f])
  }

  // Writes L2's image to its list.
  function WriteBack(s: State): State {
    if s.call.Some? then s.(lists := s.lists[s.call.value.list := s.call.value.l2]) else s
  }

  // Makes L1 current again, past its TDCALL.
  function BackInL1(s: State): State
    requires s.call.Some?
  {
    var l1 := Advance(s.l1, s.l1Len);
    s.(l1 := l1, call := None, routed := NotRouted, log := s.log + [Completion(s.call.value, View(l1, s.lists))])
  }

  function Answer(s: State, f: Effect): State {
    if !s.last.TdVmcall? then s
    else s.(due := false, call := if s.call.Some? then Some(Did(s.call.value, f)) else None)
  }

  function Route(s: State): State {
    if !s.routed.NotRouted? || s.call.None? then s
    else s.(routed := if s.last.TdVmcall? then RoutedTdVmcall else RoutedAsync)
  }

  // The host resumes L1 while L2 is current: first finish L2's TDCALL, if that is what it left by.
  function AnswerAsFault(s: State, f: Effect): State {
    if s.last.TdVmcall? then Answer(s, f).(last := AsyncFault) else s
  }

  function ResumeL1(s: State, listOk: bool): State
    requires s.call.Some?
  {
    if !s.routed.RoutedTdVmcall? then BackInL1(s)
    else if listOk then BackInL1(WriteBack(s))
    else s.(last := AsyncFault)
  }

  function Step(s: State, ev: Event): State {
    if s.place.Guest? then GuestStep(s, ev) else if s.place.Host? then HostStep(s, ev) else s
  }

  function HostStep(s: State, ev: Event): State {
    match ev
    case HostRoutes => Route(s)
    case HostResumesL1(f, listOk) =>
      if s.call.Some? && !s.routed.NotRouted? then ResumeL1(AnswerAsFault(s, f), listOk) else s
    case HostEnters(f) => if s.routed.NotRouted? then Answer(s, f).(place := Guest) else s
    case HostRefuses => if s.routed.NotRouted? then s.(last := AsyncFault) else s
    case _ => s
  }

  function GuestStep(s: State, ev: Event): State {
    match ev
    case L1Runs(regs, len, lists) => if s.call.None? then s.(l1 := regs, l1Len := len, lists := lists) else s
    case L1Advances => if s.call.None? then s.(l1 := Advance(s.l1, s.l1Len)) else s
    case Enters(vm, list) =>
      if s.call.None? && list in s.lists then
        s.(call := Some(Call(vm, list, s.lists[list], View(s.l1, s.lists), s.l1Len, [])))
      else s
    case L2Does(f) => if s.call.Some? then s.(call := Some(Did(s.call.value, f))) else s
    case Returns => if s.call.Some? then BackInL1(WriteBack(s)) else s
    case FaultExit => WriteBack(s).(place := Host, last := AsyncFault)
    case TrapExit => if s.call.None? then s.(place := Host, last := AsyncTrap) else s
    case VmcallExit => s.(place := Host, last := TdVmcall, due := true)
    case FinalExit(accessible) => (if accessible then WriteBack(s) else s).(place := Gone)
    case _ => s
  }

  function Run(s: State, evs: seq<Event>): State {
    if |evs| == 0 then s else Step(Run(s, evs[..|evs| - 1]), evs[|evs| - 1])
  }

  lemma {:induction false} RunAppend(s: State, a: seq<Event>, b: seq<Event>)
    ensures Run(s, a + b) == Run(Run(s, a), b)
  {
    if |b| == 0 {
      assert a + b == a;
    } else {
      var n := |b| - 1;
      RunAppend(s, a, b[..n]);
      assert (a + b)[..|a + b| - 1] == a + b[..n];
    }
  }

  lemma RunOne(s: State, ev: Event)
    ensures Run(s, [ev]) == Step(s, ev)
  {
    assert Run(s, [ev][..0]) == s;
  }

  // ---- What always holds ----

  function Apply(did: seq<Effect>, i: Image): Image {
    if |did| == 0 then i else did[|did| - 1](Apply(did[..|did| - 1], i))
  }

  /** A call under way: L1 is exactly as it made it, no list but its own has changed, and the VM's image is
      the one read at entry, transformed by what the VM did, in that order. */
  ghost predicate UnderWay(c: Call, s: State) {
    && c.before.regs == s.l1 && c.len == s.l1Len
    && c.list in c.before.lists && c.list in s.lists
    && s.lists == c.before.lists[c.list := s.lists[c.list]]
    && c.l2 == Apply(c.did, c.before.lists[c.list])
  }

  /** The instruction pointer has moved by len, and wraps at 64 bits; the other registers are as they were. */
  predicate PastOnly(before: Regs, len: u64, after: Regs) {
    && after.rip == (before.rip + len) % 0x1_0000_0000_0000_0000
    && after.rsp == before.rsp && after.rflags == before.rflags && after.ssp == before.ssp
  }

  /** L1's instruction pointer moved once, past its TDCALL, its other registers did not change, and no list
      but its own did. */
  ghost predicate MovedL1Once(c: Completion) {
    && PastOnly(c.call.before.regs, c.call.len, c.after.regs)
    && c.call.list in c.after.lists
    && c.after.lists == c.call.before.lists[c.call.list := c.after.lists[c.call.list]]
  }

  ghost predicate CallInv(s: State) {
    && (s.call.Some? ==> UnderWay(s.call.value, s))
    && (s.place.Guest? || s.call.None? ==> s.routed.NotRouted?)
    && (s.routed.RoutedAsync? ==> !s.last.TdVmcall?)
    && (s.place.Host? && s.call.Some? ==> !s.last.AsyncTrap?)
    && forall c <- s.log :: MovedL1Once(c)
  }

  lemma GuestStepKeepsCallInv(s: State, ev: Event)
    requires CallInv(s) && s.place.Guest?
    ensures CallInv(GuestStep(s, ev))
  {
  }

  lemma HostStepKeepsCallInv(s: State, ev: Event)
    requires CallInv(s) && s.place.Host?
    ensures CallInv(HostStep(s, ev))
  {
  }

  lemma StepKeepsCallInv(s: State, ev: Event)
    requires CallInv(s)
    ensures CallInv(Step(s, ev))
  {
    if s.place.Guest? {
      GuestStepKeepsCallInv(s, ev);
    } else if s.place.Host? {
      HostStepKeepsCallInv(s, ev);
    }
  }

  /** A vCPU in L1 with no history. */
  ghost predicate Start(s: State) {
    s.call.None? && s.routed.NotRouted? && !s.place.Gone? && s.last.AsyncFault? && !s.due && |s.log| == 0
  }

  /** In every run, whatever exits and entries come between: each completed call moved L1's instruction
      pointer exactly once, left L1's other registers alone, and changed no list but its own; and L1 is
      still where it made the call for as long as the call lasts. */
  lemma {:induction false} EnterMovesL1Once(s: State, evs: seq<Event>)
    requires Start(s)
    ensures CallInv(Run(s, evs))
    ensures forall c <- Run(s, evs).log :: MovedL1Once(c)
    ensures Run(s, evs).call.Some? ==> Run(s, evs).l1 == Run(s, evs).call.value.before.regs
  {
    if |evs| > 0 {
      EnterMovesL1Once(s, evs[..|evs| - 1]);
      StepKeepsCallInv(Run(s, evs[..|evs| - 1]), evs[|evs| - 1]);
    }
  }

  // ---- When the list is right ----

  /** The host may find the image on the list: unless a TDG.VP.VMCALL of L2 is unfinished, it is there. */
  ghost predicate Synced(s: State) {
    && (s.place.Guest? ==> !s.due)
    && (s.place.Host? ==> (s.due <==> s.last.TdVmcall?))
    && (s.place.Host? && s.call.Some? && !s.last.TdVmcall? && !s.routed.RoutedTdVmcall? ==> OnList(s))
  }

  ghost predicate OnList(s: State) {
    s.call.Some? && s.call.value.list in s.lists && s.lists[s.call.value.list] == s.call.value.l2
  }

  /** An entry refused while the answer to a TDG.VP.VMCALL is due and L1 is not being resumed: the refusal
      marks the last exit as a fault, and the TDCALL is forgotten. */
  ghost predicate Forgets(s: State, ev: Event) {
    s.place.Host? && ev.HostRefuses? && s.last.TdVmcall? && s.routed.NotRouted?
  }

  /** This is the only way to lose it. */
  lemma SyncedKeptIff(s: State, ev: Event)
    requires CallInv(s) && Synced(s)
    ensures Synced(Step(s, ev)) <==> !Forgets(s, ev)
  {
  }

  ghost predicate NothingForgotten(s: State, evs: seq<Event>) {
    forall i | 0 <= i < |evs| :: !Forgets(Run(s, evs[..i]), evs[i])
  }

  lemma ForgottenAppend(s: State, a: seq<Event>, b: seq<Event>)
    ensures NothingForgotten(s, a + b) <==> NothingForgotten(s, a) && NothingForgotten(Run(s, a), b)
  {
    forall i | 0 <= i < |a + b|
      ensures Run(s, (a + b)[..i]) == if i < |a| then Run(s, a[..i]) else Run(Run(s, a), b[..i - |a|])
    {
      if i < |a| {
        assert (a + b)[..i] == a[..i];
      } else {
        assert (a + b)[..i] == a + b[..i - |a|];
        RunAppend(s, a, b[..i - |a|]);
      }
    }
    if NothingForgotten(s, a + b) {
      forall i | 0 <= i < |a|
        ensures !Forgets(Run(s, a[..i]), a[i])
      {
        assert (a + b)[i] == a[i] && !Forgets(Run(s, (a + b)[..i]), (a + b)[i]);
      }
      forall i | 0 <= i < |b|
        ensures !Forgets(Run(Run(s, a), b[..i]), b[i])
      {
        assert (a + b)[|a| + i] == b[i] && !Forgets(Run(s, (a + b)[..|a| + i]), (a + b)[|a| + i]);
      }
    }
  }

  lemma OneForgetsIff(s: State, ev: Event)
    ensures NothingForgotten(s, [ev]) <==> !Forgets(s, ev)
  {
    assert Run(s, [ev][..0]) == s && [ev][0] == ev;
  }

  lemma NoRefusalForgetsNothing(s: State, evs: seq<Event>)
    requires forall ev <- evs :: !ev.HostRefuses?
    ensures NothingForgotten(s, evs)
  {
  }

  /** TDG.VP.ENTER as a call: one step for L1, and for its memory nothing but the list, which now holds the
      image that it held, transformed by what the VM did. */
  ghost predicate IsACall(c: Completion) {
    && PastOnly(c.call.before.regs, c.call.len, c.after.regs)
    && c.call.list in c.call.before.lists
    && c.after.lists == c.call.before.lists[c.call.list := Apply(c.call.did, c.call.before.lists[c.call.list])]
  }

  ghost predicate AllCalls(s: State) {
    forall c <- s.log :: IsACall(c)
  }

  lemma GuestStepKeepsCalls(s: State, ev: Event)
    requires CallInv(s) && Synced(s) && AllCalls(s) && s.place.Guest?
    ensures AllCalls(GuestStep(s, ev))
  {
  }

  lemma HostStepKeepsCalls(s: State, ev: Event)
    requires CallInv(s) && Synced(s) && AllCalls(s) && s.place.Host?
    ensures AllCalls(HostStep(s, ev))
  {
  }

  lemma StepKeepsCalls(s: State, ev: Event)
    requires CallInv(s) && Synced(s) && AllCalls(s)
    ensures AllCalls(Step(s, ev))
  {
    if s.place.Guest? {
      GuestStepKeepsCalls(s, ev);
    } else if s.place.Host? {
      HostStepKeepsCalls(s, ev);
    }
  }

  /** Main result.  In every run that forgets nothing, every completed TDG.VP.ENTER was a call, and every
      answer of the host to a TDG.VP.VMCALL was in before the guest continued. */
  lemma {:induction false} EnterIsACall(s: State, evs: seq<Event>)
    requires Start(s) && NothingForgotten(s, evs)
    ensures Synced(Run(s, evs))
    ensures forall c <- Run(s, evs).log :: IsACall(c)
    ensures Run(s, evs).place.Guest? ==> !Run(s, evs).due
  {
    if |evs| > 0 {
      var front, ev := evs[..|evs| - 1], evs[|evs| - 1];
      assert forall i | 0 <= i < |front| :: front[..i] == evs[..i] && front[i] == evs[i];
      EnterIsACall(s, front);
      EnterMovesL1Once(s, front);
      assert !Forgets(Run(s, front), ev);
      SyncedKeptIff(Run(s, front), ev);
      StepKeepsCalls(Run(s, front), ev);
    }
  }

  /** The condition is exact: a run keeps list and answers in order all the way iff it forgets nothing. */
  lemma AlwaysSyncedIff(s: State, evs: seq<Event>)
    requires Start(s)
    ensures (forall i | 0 <= i <= |evs| :: Synced(Run(s, evs[..i]))) <==> NothingForgotten(s, evs)
  {
    if NothingForgotten(s, evs) {
      forall i | 0 <= i <= |evs|
        ensures Synced(Run(s, evs[..i]))
      {
        assert forall j | 0 <= j < i :: evs[..i][..j] == evs[..j] && evs[..i][j] == evs[j];
        EnterIsACall(s, evs[..i]);
      }
    }
    if forall i | 0 <= i <= |evs| :: Synced(Run(s, evs[..i])) {
      forall i | 0 <= i < |evs|
        ensures !Forgets(Run(s, evs[..i]), evs[i])
      {
        EnterMovesL1Once(s, evs[..i]);
        assert evs[..i + 1][..i] == evs[..i];
        assert Synced(Run(s, evs[..i + 1]));
        SyncedKeptIff(Run(s, evs[..i]), evs[i]);
      }
    }
  }

  /** A VM that changes nothing leaves its list as it was. */
  lemma {:induction false} NothingDone(did: seq<Effect>, i: Image)
    requires forall f <- did :: f(i) == i
    ensures Apply(did, i) == i
  {
    if |did| > 0 {
      NothingDone(did[..|did| - 1], i);
    }
  }

  /** Without the condition it fails, for every call whose VM has changed anything: L2 makes a
      TDG.VP.VMCALL, the next entry is refused because an address cannot be translated, and the host then
      resumes L1.  L1 finds the list as it was, and the answer, whatever it is, is never delivered. */
  lemma ForgottenVmcall(s: State, answer: Effect)
    requires CallInv(s) && s.place.Guest? && s.call.Some? && !OnList(s)
    ensures var refused := Step(Step(s, VmcallExit), HostRefuses);
            var resumed := Step(Step(refused, HostRoutes), HostResumesL1(answer, true));
            && resumed.lists == s.lists && resumed.due
            && |resumed.log| == |s.log| + 1 && !IsACall(resumed.log[|s.log|])
  {
  }
}
