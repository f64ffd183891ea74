/** The single-step defence, seen as a two-phase machine.

    The module either lets VM exits through (Idle) or is walking the guest through a random number of
    instructions with external interrupts masked (Walking).  One call of the exit filter is one Step; the
    imperative filter in StepGuard refines it.  What this file proves is about whole runs of the filter. */
module Stepping {
  import opened Words

  const TSC_THRESHOLD: int := 4096
  const MAX_INST_LEN: int := 16

  // Basic exit reasons and the vector the filter looks at.
  const REASON_EXCEPTION_OR_NMI: nat := 0
  const REASON_INTERRUPT: nat := 1
  const REASON_INIT: nat := 3
  const REASON_SMI_OTHER: nat := 6
  const REASON_FAILED_VMENTER_GS: nat := 33
  const REASON_FAILED_VMENTER_MSR: nat := 34
  const REASON_MTF: nat := 37
  const REASON_FAILED_VMENTER_MC: nat := 41
  const NMI_VECTOR: nat := 2

  datatype FilterResult =
    | OkContinue
    | OkResumeTd
    | OkNotifyEpsFault
    | FailTdexitWrongApicMode
    | FailTdenterEpfs
    | FailSeptTreeBusy

  datatype Ipi = FixedIpi(vector: nat) | NmiIpi | InitIpi

  /** One VM exit as the filter sees it.  `draw` is the number the random generator would give if an
      episode started at this exit. */
  datatype Exit = Exit(vm: nat, reason: nat, vector: nat, msmi: bool, rip: u64, tsc: u64,
                       apicEnabled: bool, draw: nat)

  predicate WellFormed(e: Exit) {
    1 <= e.draw <= 32
  }

  predicate IsNmi(e: Exit) {
    e.reason == REASON_EXCEPTION_OR_NMI && e.vector == NMI_VECTOR
  }

  predicate IsInterrupt(e: Exit) {
    e.reason == REASON_INTERRUPT
  }

  predicate IsMtf(e: Exit) {
    e.reason == REASON_MTF
  }

  predicate IsInit(e: Exit) {
    e.reason == REASON_INIT
  }

  predicate IsSmiNotMsmi(e: Exit) {
    e.reason == REASON_SMI_OTHER && !e.msmi
  }

  predicate IsInterruption(e: Exit) {
    IsInterrupt(e) || IsMtf(e) || IsSmiNotMsmi(e) || IsNmi(e) || IsInit(e)
  }

  predicate IsEntryFailure(e: Exit) {
    e.reason in {REASON_FAILED_VMENTER_GS, REASON_FAILED_VMENTER_MSR, REASON_FAILED_VMENTER_MC}
  }

  datatype Phase = Idle | Walking(left: nat, nmi: bool, init: bool)

  /** `mtf` is the set of VMs whose VMCS has the monitor trap flag on. */
  datatype State = State(phase: Phase, lastEntryTsc: u64, ripOnEntry: u64, mtf: set<nat>)

  datatype Outcome = Outcome(next: State, result: FilterResult, ipis: seq<Ipi>)

  function RipDelta(s: State, e: Exit): u64 {
    if e.rip > s.ripOnEntry then e.rip - s.ripOnEntry else s.ripOnEntry - e.rip
  }

  // The guest ran long enough, or far enough, that nobody is stepping it.
  predicate LooksUndisturbed(s: State, e: Exit) {
    RipDelta(s, e) > MAX_INST_LEN * 2 || Sub64(e.tsc, s.lastEntryTsc) > TSC_THRESHOLD
  }

  // Events swallowed during the episode that the ending exit does not itself carry.
  function Resend(p: Phase, e: Exit): seq<Ipi> {
    if p.Idle? then []
    else (if p.nmi && !IsNmi(e) then [NmiIpi] else []) + (if p.init && !IsInit(e) then [InitIpi] else [])
  }

  function Step(s: State, e: Exit): Outcome
    requires WellFormed(e)
  {
    match s.phase
    case Idle =>
      if !IsInterruption(e) || LooksUndisturbed(s, e) then
        Outcome(s, OkContinue, [])
      else if !e.apicEnabled then
        Outcome(s, FailTdexitWrongApicMode, [])
      else
        Outcome(s.(phase := Walking(e.draw - 1, IsNmi(e), IsInit(e)), mtf := s.mtf + {e.vm}),
                OkResumeTd,
                if IsInterrupt(e) then [FixedIpi(e.vector)] else [])
    case Walking(left, nmi, init) =>
      if IsInterruption(e) && left > 0 then
        Outcome(s.(phase := Walking(left - 1, nmi || IsNmi(e), init || IsInit(e))), OkResumeTd, [])
      else
        var p := Walking(0, nmi || IsNmi(e), init || IsInit(e));
        var idle := s.(phase := Idle, mtf := s.mtf - {e.vm});
        if IsMtf(e) then
          Outcome(idle.(lastEntryTsc := 0), OkResumeTd, Resend(p, e))
        else
          Outcome(idle, OkContinue, Resend(p, e))
  }

  // ---- Runs ----

  /** What touches the machine: the filter sees a VM exit; TDH.VP.ENTER captures the RIP when it consults the
      entry filter, even if it then fails; and a TD entry that is made records its time stamp. */
  datatype Op = ExitSeen(e: Exit) | EntryChecked(rip: u64) | EntryMade(tsc: u64)

  predicate AllWellFormed(es: seq<Op>) {
    forall i | 0 <= i < |es| && es[i].ExitSeen? :: WellFormed(es[i].e)
  }

  function Follow(s: State, op: Op): State
    requires op.ExitSeen? ==> WellFormed(op.e)
  {
    match op
    case ExitSeen(e) => Step(s, e).next
    case EntryChecked(rip) => s.(ripOnEntry := rip)
    case EntryMade(tsc) => s.(lastEntryTsc := tsc)
  }

  function After(s: State, es: seq<Op>): State
    requires AllWellFormed(es)
  {
    if es == [] then s
    else Follow(After(s, es[..|es| - 1]), es[|es| - 1])
  }

  function At(s: State, es: seq<Op>, i: nat): Outcome
    requires AllWellFormed(es) && i < |es| && es[i].ExitSeen?
  {
    Step(After(s, es[..i]), es[i].e)
  }

  lemma AfterPrefix(s: State, es: seq<Op>, i: nat)
    requires AllWellFormed(es) && i < |es|
    ensures After(s, es[..i + 1]) == Follow(After(s, es[..i]), es[i])
    ensures es[i].ExitSeen? ==> After(s, es[..i + 1]) == At(s, es, i).next
  {
    assert es[..i + 1][..i] == es[..i];
  }

  lemma {:induction false} AfterAppend(s: State, a: seq<Op>, b: seq<Op>)
    requires AllWellFormed(a) && AllWellFormed(b)
    ensures AllWellFormed(a + b) && After(s, a + b) == After(After(s, a), b)
  {
    if b == [] {
      assert a + b == a;
    } else {
      var m := |b| - 1;
      AfterAppend(s, a, b[..m]);
      assert (a + b)[..|a + b| - 1] == a + b[..m];
    }
  }

  predicate Bounded(s: State) {
    s.phase.Walking? ==> s.phase.left <= 31
  }

  /** An entry that failed is never held back by the filter, in whatever phase it arrives. */
  lemma EntryFailureIsNeverHeldBack(s: State, e: Exit)
    requires WellFormed(e) && e.reason in {33, 34, 41}
    ensures IsEntryFailure(e) && Step(s, e).result == OkContinue && Step(s, e).next.phase.Idle?
  {
  }

  /** What an idle filter answers, in the processor's numbers.  An external interrupt (1), an INIT (3), a monitor
      trap (37), an SMI that is no machine-check SMI (6) or an NMI (0, vector 2) that comes within 32 bytes and
      4096 ticks of the entry starts a walk, which remembers an NMI or INIT and sends an interrupt again; with the
      local APIC off it kills the TD.  Every other exit is passed on, and changes nothing. */
  lemma IdleFilterAnswers(s: State, e: Exit)
    requires WellFormed(e) && s.phase.Idle?
    ensures var kind := || e.reason in {1, 3, 37} || (e.reason == 6 && !e.msmi)
                        || (e.reason == 0 && e.vector == 2);
            var soon := -32 <= e.rip - s.ripOnEntry <= 32
                        && (e.tsc - s.lastEntryTsc) % 0x1_0000_0000_0000_0000 <= 4096;
            Step(s, e) ==
            if !(kind && soon) then Outcome(s, OkContinue, [])
            else if !e.apicEnabled then Outcome(s, FailTdexitWrongApicMode, [])
            else Outcome(State(Walking(e.draw - 1, e.reason == 0, e.reason == 3), s.lastEntryTsc, s.ripOnEntry,
                               s.mtf + {e.vm}),
                         OkResumeTd, if e.reason == 1 then [FixedIpi(e.vector)] else [])
  {
  }

  /** What a walking filter answers, likewise.  While steps are left those exits take one, and an NMI or INIT is
      remembered; any other exit, or the last, ends the walk and clears the trap flag of its own VM.  What is
      remembered is sent again unless it is the ending exit; and a trap that ends it is still answered by a
      resume, with the entry time forgotten. */
  lemma WalkingFilterAnswers(s: State, e: Exit)
    requires WellFormed(e) && s.phase.Walking?
    ensures var kind := || e.reason in {1, 3, 37} || (e.reason == 6 && !e.msmi)
                        || (e.reason == 0 && e.vector == 2);
            var nmi := e.reason == 0 && e.vector == 2;
            Step(s, e) ==
            if kind && s.phase.left > 0 then
              Outcome(s.(phase := Walking(s.phase.left - 1, s.phase.nmi || nmi, s.phase.init || e.reason == 3)),
                      OkResumeTd, [])
            else
              Outcome(State(Idle, if e.reason == 37 then 0 else s.lastEntryTsc, s.ripOnEntry, s.mtf - {e.vm}),
                      if e.reason == 37 then OkResumeTd else OkContinue,
                      (if s.phase.nmi && !nmi then [NmiIpi] else [])
                      + (if s.phase.init && e.reason != 3 then [InitIpi] else []))
  {
  }

  // ---- Streaks of resumes are finite ----

  /** After a resume the guest runs on without a TD entry, so a streak is made of exits alone. */
  predicate AllResume(s: State, es: seq<Op>)
    requires AllWellFormed(es)
  {
    forall i | 0 <= i < |es| :: es[i].ExitSeen? && At(s, es, i).result == OkResumeTd
  }

  /** How many more resumes a state can give while the time stamp counter is past the threshold. */
  function Rank(s: State): nat {
    if s.phase.Walking? then s.phase.left + 1 else if s.lastEntryTsc == 0 then 0 else 33
  }

  predicate LateTsc(es: seq<Op>) {
    forall i | 0 <= i < |es| && es[i].ExitSeen? :: es[i].e.tsc > TSC_THRESHOLD
  }

  lemma RankDecreases(s: State, e: Exit)
    requires WellFormed(e) && e.tsc > TSC_THRESHOLD
    requires Step(s, e).result == OkResumeTd
    ensures Rank(Step(s, e).next) < Rank(s)
    ensures s.phase.Idle? ==> Rank(Step(s, e).next) == e.draw
  {
  }

  lemma AllResumePrefix(s: State, es: seq<Op>, n: nat)
    requires AllWellFormed(es) && AllResume(s, es) && n <= |es|
    ensures AllResume(s, es[..n])
  {
    forall i | 0 <= i < n
      ensures es[..n][i].ExitSeen? && At(s, es[..n], i).result == OkResumeTd
    {
      assert es[..n][..i] == es[..i];
      assert At(s, es, i).result == OkResumeTd;
    }
  }

  /** Every streak of consecutive resumes is at most draw + 1 <= 33 long, the draw being that of the
      exit which opens the streak; a streak entered while walking is bounded by the steps left. */
  lemma {:induction false} ResumeStreakBound(s: State, es: seq<Op>)
    requires AllWellFormed(es) && LateTsc(es) && Bounded(s)
    requires AllResume(s, es)
    ensures Rank(After(s, es)) + |es| <= Rank(s)
    ensures es != [] && s.phase.Idle? ==> Rank(After(s, es)) + |es| <= es[0].e.draw + 1
    ensures |es| <= 33
  {
    if es != [] {
      var n := |es| - 1;
      var m := After(s, es[..n]);
      AllResumePrefix(s, es, n);
      ResumeStreakBound(s, es[..n]);
      RankDropsAtEnd(s, es);
      if n == 0 {
        assert m == s;
      }
    }
  }

  lemma RankDropsAtEnd(s: State, es: seq<Op>)
    requires AllWellFormed(es) && LateTsc(es) && AllResume(s, es) && es != []
    ensures var n := |es| - 1;
            var m := After(s, es[..n]);
            && es[n].ExitSeen? && Rank(After(s, es)) < Rank(m)
            && (m.phase.Idle? ==> Rank(After(s, es)) == es[n].e.draw)
  {
    var n := |es| - 1;
    assert At(s, es, n).result == OkResumeTd;
    RankDecreases(After(s, es[..n]), es[n].e);
  }

  function MtfExit(vm: nat, rip: u64, tsc: u64, draw: nat): Exit {
    Exit(vm, REASON_MTF, 0, false, rip, tsc, true, draw)
  }

  function Repeat(e: Exit, n: nat): (es: seq<Op>)
    ensures |es| == n && forall i | 0 <= i < n :: es[i] == ExitSeen(e)
  {
    seq(n, _ => ExitSeen(e))
  }

  lemma {:induction false} WalkOfMtfExits(s: State, e: Exit, n: nat)
    requires WellFormed(e) && IsMtf(e) && e.apicEnabled && n <= e.draw
    requires s.phase.Idle? && !LooksUndisturbed(s, e)
    ensures var r := After(s, Repeat(e, n));
            if n == 0 then r == s else r.phase == Walking(e.draw - n, false, false)
    ensures AllResume(s, Repeat(e, n))
  {
    if n > 0 {
      WalkOfMtfExits(s, e, n - 1);
      assert Repeat(e, n)[..n - 1] == Repeat(e, n - 1);
      OneMoreResume(s, e, n - 1);
    }
  }

  lemma OneMoreResume(s: State, e: Exit, n: nat)
    requires WellFormed(e) && AllResume(s, Repeat(e, n))
    requires Step(After(s, Repeat(e, n)), e).result == OkResumeTd
    ensures AllResume(s, Repeat(e, n + 1))
  {
    var es := Repeat(e, n + 1);
    assert es[..n] == Repeat(e, n);
    forall i | 0 <= i < n + 1
      ensures es[i].ExitSeen? && At(s, es, i).result == OkResumeTd
    {
      if i < n {
        assert es[..i] == Repeat(e, n)[..i];
        assert At(s, Repeat(e, n), i).result == OkResumeTd;
      }
    }
  }

  /** The bound is met: for every draw there is a run of exactly draw + 1 resumes. */
  lemma StreakBoundIsTight(s: State, e: Exit)
    requires WellFormed(e) && IsMtf(e) && e.apicEnabled
    requires s.phase.Idle? && !LooksUndisturbed(s, e)
    ensures AllResume(s, Repeat(e, e.draw + 1))
  {
    WalkOfMtfExits(s, e, e.draw);
    OneMoreResume(s, e, e.draw);
  }

  /** The threshold matters: with the counter still at or below it, a guest that keeps trapping without
      moving is resumed for ever, because each episode can be followed at once by the next. */
  lemma {:induction false} EarlyTscStreakUnbounded(s: State, e: Exit, n: nat)
    requires WellFormed(e) && IsMtf(e) && e.apicEnabled && e.tsc <= TSC_THRESHOLD
    requires s.lastEntryTsc == 0 && RipDelta(s, e) <= MAX_INST_LEN * 2
    ensures AllResume(s, Repeat(e, n))
    ensures var r := After(s, Repeat(e, n)); r.lastEntryTsc == 0 && r.ripOnEntry == s.ripOnEntry
  {
    if n > 0 {
      EarlyTscStreakUnbounded(s, e, n - 1);
      var r := After(s, Repeat(e, n - 1));
      EarlyTrapIsResumed(r, e);
      OneMoreResume(s, e, n - 1);
      assert Repeat(e, n)[..n - 1] == Repeat(e, n - 1);
      assert After(s, Repeat(e, n)) == Step(r, e).next;
    }
  }

  lemma EarlyTrapIsResumed(r: State, e: Exit)
    requires WellFormed(e) && IsMtf(e) && e.apicEnabled && e.tsc <= TSC_THRESHOLD
    requires r.lastEntryTsc == 0 && RipDelta(r, e) <= MAX_INST_LEN * 2
    ensures var o := Step(r, e);
            o.result == OkResumeTd && o.next.lastEntryTsc == 0 && o.next.ripOnEntry == r.ripOnEntry
  {
    assert Sub64(e.tsc, 0) == e.tsc;
  }

  // ---- No event is lost ----

  datatype Kind = NmiKind | InitKind

  predicate Is(k: Kind, e: Exit) {
    match k case NmiKind => IsNmi(e) case InitKind => IsInit(e)
  }

  predicate Brings(k: Kind, op: Op) {
    op.ExitSeen? && Is(k, op.e)
  }

  function IpiOf(k: Kind): Ipi {
    match k case NmiKind => NmiIpi case InitKind => InitIpi
  }

  predicate Remembered(k: Kind, p: Phase) {
    p.Walking? && match k case NmiKind => p.nmi case InitKind => p.init
  }

  /** Over a run: has an event of kind k occurred that has since been neither handed to the dispatcher
      nor sent again?  This reads the run only, never the machine's own flags. */
  predicate Owed(k: Kind, s: State, es: seq<Op>)
    requires AllWellFormed(es)
  {
    if es == [] then false
    else
      var n := |es| - 1;
      if !es[n].ExitSeen? then Owed(k, s, es[..n])
      else
        var o := At(s, es, n);
        var passedOn := Is(k, es[n].e) && o.result != OkResumeTd;
        (Owed(k, s, es[..n]) || Is(k, es[n].e)) && !passedOn && IpiOf(k) !in o.ipis
  }

  /** From an idle start, over any run of exits and TD entries, an NMI (or INIT) is owed exactly while the
      current episode remembers it: whenever the filter is idle nothing is owed, so no event is lost. */
  lemma {:induction false} NothingOwedWhenIdle(k: Kind, s: State, es: seq<Op>)
    requires AllWellFormed(es) && s.phase.Idle?
    ensures Owed(k, s, es) <==> Remembered(k, After(s, es).phase)
  {
    if es != [] {
      NothingOwedWhenIdle(k, s, es[..|es| - 1]);
    }
  }

  /** Nothing is made up either: a self-IPI of kind k is sent only for an event that is owed, and never
      at an exit that carries that event itself. */
  lemma ResentOnlyIfOwed(k: Kind, s: State, es: seq<Op>, i: nat)
    requires AllWellFormed(es) && s.phase.Idle? && i < |es| && es[i].ExitSeen?
    requires IpiOf(k) in At(s, es, i).ipis
    ensures Owed(k, s, es[..i]) && !Is(k, es[i].e) && At(s, es, i).next.phase.Idle?
  {
    NothingOwedWhenIdle(k, s, es[..i]);
  }

  /** A whole episode: it starts idle, walks, and is idle again only after the last exit.  TD exits that the
      filter does not see, and TD entries, may come inside. */
  predicate Episode(s: State, es: seq<Op>)
    requires AllWellFormed(es)
  {
    && s.phase.Idle?
    && |es| >= 2
    && (forall i | 0 < i < |es| :: After(s, es[..i]).phase.Walking?)
    && After(s, es).phase.Idle?
  }

  predicate Occurs(k: Kind, es: seq<Op>) {
    exists i | 0 <= i < |es| :: Brings(k, es[i])
  }

  lemma OccursByPrefix(k: Kind, es: seq<Op>, n: nat)
    requires n < |es|
    ensures Occurs(k, es[..n + 1]) <==> Occurs(k, es[..n]) || Brings(k, es[n])
  {
    var longer, shorter := es[..n + 1], es[..n];
    assert forall i | 0 <= i < n :: shorter[i] == longer[i];
    assert longer[n] == es[n];
  }

  /** An episode begins and ends at exits. */
  lemma EpisodeEnds(s: State, es: seq<Op>)
    requires AllWellFormed(es) && Episode(s, es)
    ensures es[0].ExitSeen? && es[|es| - 1].ExitSeen?
    ensures After(s, es[..|es| - 1]).phase.Walking? && After(s, es) == At(s, es, |es| - 1).next
  {
    AfterPrefix(s, es, 0);
    assert After(s, es[..1]).phase.Walking? && es[..0] == [];
    assert After(s, es[..|es| - 1]).phase.Walking?;
  }

  lemma {:induction false} EpisodeRemembers(k: Kind, s: State, es: seq<Op>, n: nat)
    requires AllWellFormed(es) && Episode(s, es) && 1 <= n < |es|
    ensures Remembered(k, After(s, es[..n]).phase) <==> Occurs(k, es[..n])
  {
    AfterPrefix(s, es, n - 1);
    OccursByPrefix(k, es, n - 1);
    assert After(s, es[..n]).phase.Walking?;
    if n == 1 {
      assert es[..0] == [];
    } else {
      EpisodeRemembers(k, s, es, n - 1);
      assert After(s, es[..n - 1]).phase.Walking?;
    }
  }

  /** In every episode an NMI (or INIT) occurred iff at its end either it is sent again or the ending exit
      is that event and is handed on, and never both. */
  lemma EpisodeConservesEvents(k: Kind, s: State, es: seq<Op>)
    requires AllWellFormed(es) && Episode(s, es)
    ensures es[|es| - 1].ExitSeen?
    ensures var last := At(s, es, |es| - 1);
            var resent := IpiOf(k) in last.ipis;
            var passedOn := Is(k, es[|es| - 1].e) && last.result == OkContinue;
            && (Occurs(k, es) <==> resent || passedOn)
            && !(resent && passedOn)
  {
    var n := |es| - 1;
    EpisodeEnds(s, es);
    EpisodeRemembers(k, s, es, n);
    assert es[..n + 1] == es;
    OccursByPrefix(k, es, n);
  }

  predicate Interrupts(op: Op) {
    op.ExitSeen? && IsInterrupt(op.e)
  }

  predicate InterruptServed(s: State, es: seq<Op>, i: nat)
    requires AllWellFormed(es) && i < |es| && Interrupts(es[i])
  {
    At(s, es, i).ipis == [FixedIpi(es[i].e.vector)] || At(s, es, i).result == OkContinue
  }

  lemma EpisodeServesIndex(s: State, es: seq<Op>, i: nat)
    requires AllWellFormed(es) && Episode(s, es) && i < |es| && Interrupts(es[i])
    ensures i == 0 ==> At(s, es, i).ipis == [FixedIpi(es[i].e.vector)]
    ensures InterruptServed(s, es, i) <==> i == 0 || i == |es| - 1
  {
    AfterPrefix(s, es, i);
    if i == 0 {
      assert es[..0] == [];
      assert After(s, es[..1]).phase.Walking?;
    } else {
      assert After(s, es[..i]).phase.Walking?;
      if i == |es| - 1 {
        assert es[..i + 1] == es;
      } else {
        assert After(s, es[..i + 1]).phase.Walking?;
      }
    }
  }

  /** External interrupts of an episode: the one that opens it is sent again with its own vector, one that
      ends it is handed on, and all of them are served iff none arrives in between, which is what raising
      the task priority to 15 is for. */
  lemma EpisodeServesInterrupts(s: State, es: seq<Op>)
    requires AllWellFormed(es) && Episode(s, es)
    ensures Interrupts(es[0]) ==> At(s, es, 0).ipis == [FixedIpi(es[0].e.vector)]
    ensures (forall i | 0 <= i < |es| && Interrupts(es[i]) :: InterruptServed(s, es, i))
       <==> (forall i | 0 < i < |es| - 1 :: !Interrupts(es[i]))
  {
    forall i | 0 <= i < |es| && Interrupts(es[i])
      ensures i == 0 ==> At(s, es, i).ipis == [FixedIpi(es[i].e.vector)]
      ensures InterruptServed(s, es, i) <==> i == 0 || i == |es| - 1
    {
      EpisodeServesIndex(s, es, i);
    }
  }

  // ---- The monitor trap flag ----

  lemma {:induction false} EpisodeTrapFlag(s: State, es: seq<Op>, n: nat)
    requires AllWellFormed(es) && Episode(s, es) && 1 <= n < |es|
    ensures es[0].ExitSeen? && After(s, es[..n]).mtf == s.mtf + {es[0].e.vm}
  {
    EpisodeEnds(s, es);
    AfterPrefix(s, es, n - 1);
    assert After(s, es[..n]).phase.Walking?;
    if n == 1 {
      assert es[..0] == [];
    } else {
      EpisodeTrapFlag(s, es, n - 1);
      assert After(s, es[..n - 1]).phase.Walking?;
    }
  }

  /** With every trap flag clear at the start, an episode leaves them all clear iff the VM whose exit ends
      it is the VM whose exit started it: the flag is switched off in the VMCS that is active then. */
  lemma TrapFlagClearedIffSameVm(s: State, es: seq<Op>)
    requires AllWellFormed(es) && Episode(s, es) && s.mtf == {}
    ensures es[0].ExitSeen? && es[|es| - 1].ExitSeen?
    ensures After(s, es).mtf == {} <==> es[|es| - 1].e.vm == es[0].e.vm
  {
    EpisodeEnds(s, es);
    EpisodeTrapFlag(s, es, |es| - 1);
    assert es[0].e.vm in {es[0].e.vm};
  }

  predicate OnlyFrom(vm: nat, es: seq<Op>) {
    forall i | 0 <= i < |es| && es[i].ExitSeen? :: es[i].e.vm == vm
  }

  /** Run by one VM, with any TD entries in between, the filter keeps its trap flag on exactly while it walks,
      and never promises more than 31 further steps; it lets an exit through, or kills the TD, only when it
      is idle. */
  lemma {:induction false} OneVmInvariant(s: State, es: seq<Op>, vm: nat)
    requires AllWellFormed(es) && s.phase.Idle? && s.mtf == {} && OnlyFrom(vm, es)
    ensures var r := After(s, es);
            r.mtf == (if r.phase.Walking? then {vm} else {}) && Bounded(r)
    ensures forall i | 0 <= i < |es| && es[i].ExitSeen? && At(s, es, i).result != OkResumeTd ::
              At(s, es, i).next.phase.Idle?
  {
    if es != [] {
      OneVmInvariant(s, es[..|es| - 1], vm);
    }
    forall i | 0 <= i < |es| && es[i].ExitSeen? && At(s, es, i).result != OkResumeTd
      ensures At(s, es, i).next.phase.Idle?
    {
    }
  }

  /** The VM whose exit started the walk under way, read off the run; there is one only while walking. */
  function Walker(s: State, es: seq<Op>): nat
    requires AllWellFormed(es)
  {
    if es == [] then 0
    else
      var n := |es| - 1;
      if es[n].ExitSeen? && After(s, es[..n]).phase.Idle? && After(s, es).phase.Walking? then es[n].e.vm
      else Walker(s, es[..n])
  }

  /** Operation n ends a walk that another VM started. */
  predicate EndsElsewhere(s: State, es: seq<Op>, n: nat)
    requires AllWellFormed(es) && n < |es|
  {
    && es[n].ExitSeen? && After(s, es[..n]).phase.Walking? && At(s, es, n).next.phase.Idle?
    && es[n].e.vm != Walker(s, es[..n])
  }

  // Up to there the flags are right: the walker's while walking, and none while idle.
  predicate FlagsRight(s: State, es: seq<Op>)
    requires AllWellFormed(es)
  {
    var r := After(s, es);
    r.mtf == if r.phase.Walking? then {Walker(s, es)} else {}
  }

  lemma FlagsStayRightIff(s: State, es: seq<Op>)
    requires AllWellFormed(es) && es != [] && FlagsRight(s, es[..|es| - 1])
    ensures FlagsRight(s, es) <==> !EndsElsewhere(s, es, |es| - 1)
  {
    var n := |es| - 1;
    if es[n].ExitSeen? {
      var m, w := After(s, es[..n]), Walker(s, es[..n]);
      assert After(s, es) == Step(m, es[n].e).next;
      if m.phase.Walking? && Step(m, es[n].e).next.phase.Idle? && w != es[n].e.vm {
        assert w in {w} - {es[n].e.vm};
      }
    }
  }

  predicate AllFlagsRight(s: State, es: seq<Op>)
    requires AllWellFormed(es)
  {
    forall n | 0 <= n <= |es| :: FlagsRight(s, es[..n])
  }

  predicate AllEndWhereBegun(s: State, es: seq<Op>)
    requires AllWellFormed(es)
  {
    forall n | 0 <= n < |es| :: !EndsElsewhere(s, es, n)
  }

  // Both speak of the last operation and of those before it.
  lemma FlagsOneMore(s: State, es: seq<Op>)
    requires AllWellFormed(es) && es != []
    ensures AllFlagsRight(s, es) <==> AllFlagsRight(s, es[..|es| - 1]) && FlagsRight(s, es)
  {
    var m := |es| - 1;
    assert es[..m + 1] == es;
    if AllFlagsRight(s, es) {
      forall n | 0 <= n <= m
        ensures FlagsRight(s, es[..m][..n])
      {
        assert es[..m][..n] == es[..n];
      }
    }
    if AllFlagsRight(s, es[..m]) && FlagsRight(s, es) {
      forall n | 0 <= n <= |es|
        ensures FlagsRight(s, es[..n])
      {
        assert n <= m ==> es[..m][..n] == es[..n];
      }
    }
  }

  lemma EndsOneMore(s: State, es: seq<Op>)
    requires AllWellFormed(es) && es != []
    ensures AllEndWhereBegun(s, es) <==> AllEndWhereBegun(s, es[..|es| - 1]) && !EndsElsewhere(s, es, |es| - 1)
  {
    var m := |es| - 1;
    forall n | 0 <= n < m
      ensures EndsElsewhere(s, es[..m], n) == EndsElsewhere(s, es, n)
    {
      assert es[..m][..n] == es[..n];
    }
  }

  /** With any number of VMs, from an idle start with all flags off: over a whole run every trap flag is off
      whenever the filter is idle, and only the walker's is on while it walks, iff every walk ends at an exit of
      the VM that started it. */
  lemma {:induction false} FlagsAlwaysRightIff(s: State, es: seq<Op>)
    requires AllWellFormed(es) && s.phase.Idle? && s.mtf == {}
    ensures AllFlagsRight(s, es) <==> AllEndWhereBegun(s, es)
  {
    if es != [] {
      var m := |es| - 1;
      FlagsAlwaysRightIff(s, es[..m]);
      FlagsOneMore(s, es);
      EndsOneMore(s, es);
      assert AllFlagsRight(s, es[..m]) ==> FlagsRight(s, es[..m]) by {
        assert es[..m][..m] == es[..m];
      }
      if FlagsRight(s, es[..m]) {
        FlagsStayRightIff(s, es);
      }
    }
  }

  /** A VM takes monitor trap exits only while its flag is on. */
  predicate TrapsOnlyWhenFlagged(s: State, es: seq<Op>)
    requires AllWellFormed(es)
  {
    forall i | 0 <= i < |es| && es[i].ExitSeen? && IsMtf(es[i].e) :: es[i].e.vm in After(s, es[..i]).mtf
  }

  /** Then, run by one VM, every monitor trap exit is the walk's own and the guest is resumed: none ever gets
      to a dispatcher, which has no place for it. */
  lemma OneVmTrapsAreResumed(s: State, es: seq<Op>, vm: nat, i: nat)
    requires AllWellFormed(es) && s.phase.Idle? && s.mtf == {} && OnlyFrom(vm, es) && TrapsOnlyWhenFlagged(s, es)
    requires i < |es| && es[i].ExitSeen? && IsMtf(es[i].e)
    ensures At(s, es, i).result == OkResumeTd
  {
    OneVmInvariant(s, es[..i], vm);
    assert es[i].e.vm in After(s, es[..i]).mtf;
  }

  /** With a second VM this fails: an interrupt exit of one VM starts the walk, any other exit of the second
      VM ends it, and the first one's flag stays on.  Its next instruction traps, and if nobody looks to be
      stepping by then the exit is passed on to the dispatcher, with the flag still on. */
  lemma StaleTrapFlag(vm: nat, other: nat, rip: u64, late: u64)
    requires vm != other && rip > 2 * MAX_INST_LEN
    ensures var s := State(Idle, 0, 0, {});
            var es := [ExitSeen(Exit(vm, REASON_INTERRUPT, 32, false, 0, 0, true, 1)),
                       ExitSeen(Exit(other, 10, 0, false, 0, 0, true, 1)),
                       ExitSeen(MtfExit(vm, rip, late, 1))];
            && AllWellFormed(es) && TrapsOnlyWhenFlagged(s, es)
            && Episode(s, es[..2]) && After(s, es[..2]).mtf == {vm}
            && At(s, es, 2).result == OkContinue && After(s, es).mtf == {vm}
  {
    var s := State(Idle, 0, 0, {});
    var e0, e1 := Exit(vm, REASON_INTERRUPT, 32, false, 0, 0, true, 1), Exit(other, 10, 0, false, 0, 0, true, 1);
    var es := [ExitSeen(e0), ExitSeen(e1), ExitSeen(MtfExit(vm, rip, late, 1))];
    AfterPrefix(s, es, 0);
    AfterPrefix(s, es, 1);
    AfterPrefix(s, es, 2);
    assert es[..3] == es && es[..0] == [];
    assert es[..2][..1] == es[..1];
    assert After(s, es[..1]) == State(Walking(0, false, false), 0, 0, {vm});
    assert After(s, es[..2]) == State(Idle, 0, 0, {vm});
  }

  /** Exactly when a monitor trap exit is kept from the dispatchers. */
  lemma TrapIsResumedIff(s: State, e: Exit)
    requires WellFormed(e) && IsMtf(e)
    ensures Step(s, e).result == OkResumeTd <==> s.phase.Walking? || (!LooksUndisturbed(s, e) && e.apicEnabled)
    ensures Step(s, e).result == OkContinue <==> s.phase.Idle? && LooksUndisturbed(s, e)
  {
  }
}
