/** TLB tracking and the fatal flag, shared by all vCPUs of a TD.

    Each vCPU in the guest is counted in one of two 16-bit slots, chosen by the parity of the TD epoch it
    entered in.  The host may advance the epoch only when the slot about to be reused is empty.  This file
    proves, over every interleaving of the vCPUs' entries and exits, what the slots then mean. */
module Epoch {
  import opened Words

  const TWO16: int := 0x1_0000
  const MAX_VCPUS: int := 0xFFFF

  /** LOCK XADD on a 16-bit memory operand. */
  function XAdd16(m: u16, quantum: u16): u16 {
    (m + quantum) % TWO16
  }

  type Slots = s: seq<u16> | |s| == 2 witness [0, 0]

  function Parity(epoch: u64): nat {
    epoch % 2
  }

  function CountIn(r: Slots, epoch: u64): Slots {
    r[Parity(epoch) := XAdd16(r[Parity(epoch)], 1)]
  }

  /** The exit path adds (uint16_t)-1. */
  function CountOut(r: Slots, epoch: u64): Slots {
    r[Parity(epoch) := XAdd16(r[Parity(epoch)], 0xFFFF)]
  }

  /** revert_tlb_tracking_state undoes the count, whatever the slots hold. */
  lemma CountingOutUndoesCountingIn(r: Slots, epoch: u64)
    ensures CountOut(CountIn(r, epoch), epoch) == r
  {
    var p := Parity(epoch);
    assert XAdd16(XAdd16(r[p], 1), 0xFFFF) == r[p];
  }

  /** Where a vCPU is; Died means that it left with the TD inaccessible, without being counted out. */
  datatype Vcpu = Out | InGuest(epoch: u64) | Died(epoch: u64)

  datatype Td = Td(fatal: bool, epoch: u64, refcount: Slots, vcpus: seq<Vcpu>)

  /** What the handlers would do with a VM exit if the TD were accessible. */
  datatype Disposition = Resume | ExitToHost | ExitAndKillTd | ExitInaccessible

  datatype Event =
    | Enter(i: nat)                     // TDH.VP.ENTER: adjust_tlb_tracking_state
    | FailEntry(i: nat)                 // TDH.VP.ENTER fails after that: revert_tlb_tracking_state
    | VmExit(i: nat, d: Disposition)    // one dispatch of a VM exit, up to resume or TD exit
    | Track                             // TDH.MEM.TRACK
    | Pause                             // TDH.EXPORT.PAUSE

  datatype Reaction = Nothing | Resumed | LiveExit | DeadExit

  function React(td: Td, ev: Event): Reaction {
    if ev.VmExit? && ev.i < |td.vcpus| && td.vcpus[ev.i].InGuest? then
      if td.fatal || ev.d.ExitInaccessible? then DeadExit else if ev.d.Resume? then Resumed else LiveExit
    else
      Nothing
  }

  function Step(td: Td, ev: Event): Td {
    match ev
    case Enter(i) =>
      // a fatal TD cannot be entered, nor a vCPU that is not outside
      if td.fatal || i >= |td.vcpus| || !td.vcpus[i].Out? then td
      else td.(refcount := CountIn(td.refcount, td.epoch), vcpus := td.vcpus[i := InGuest(td.epoch)])
    case FailEntry(i) =>
      if i >= |td.vcpus| || !td.vcpus[i].InGuest? then td
      else td.(refcount := CountOut(td.refcount, td.vcpus[i].epoch), vcpus := td.vcpus[i := Out])
    case VmExit(i, d) =>
      (match React(td, ev)
       case Nothing => td
       case Resumed => td
       case LiveExit =>
         td.(fatal := d.ExitAndKillTd?,
             refcount := CountOut(td.refcount, td.vcpus[i].epoch), vcpus := td.vcpus[i := Out])
       case DeadExit => td.(fatal := true, vcpus := td.vcpus[i := Died(td.vcpus[i].epoch)]))
    case Track =>
      if td.refcount[1 - Parity(td.epoch)] != 0 || td.epoch >= TWO64 / 2 - 1 then td
      else td.(epoch := td.epoch + 1)
    case Pause =>
      if td.refcount != [0, 0] || td.epoch >= TWO64 / 2 - 1 then td else td.(epoch := td.epoch + 1)
  }

  function Run(td: Td, evs: seq<Event>): Td {
    if evs == [] then td else Step(Run(td, evs[..|evs| - 1]), evs[|evs| - 1])
  }

  /** A TD as TDH.MNG.INIT and TDH.VP.INIT leave it. */
  predicate Initial(td: Td) {
    && !td.fatal && td.epoch == 1 && td.refcount == [0, 0]
    && |td.vcpus| <= MAX_VCPUS
    && forall i | 0 <= i < |td.vcpus| :: td.vcpus[i].Out?
  }

  // ---- Counting ----

  predicate Counts(v: Vcpu, parity: nat) {
    !v.Out? && Parity(v.epoch) == parity
  }

  function Covered(vs: seq<Vcpu>, parity: nat): (n: nat)
    ensures n <= |vs|
  {
    if vs == [] then 0
    else Covered(vs[..|vs| - 1], parity) + if Counts(vs[|vs| - 1], parity) then 1 else 0
  }

  lemma {:induction false} CoveredUpdate(vs: seq<Vcpu>, i: nat, v: Vcpu, parity: nat)
    requires i < |vs|
    ensures Covered(vs[i := v], parity) + (if Counts(vs[i], parity) then 1 else 0)
         == Covered(vs, parity) + (if Counts(v, parity) then 1 else 0)
  {
    var n := |vs| - 1;
    if i < n {
      CoveredUpdate(vs[..n], i, v, parity);
      assert vs[i := v][..n] == vs[..n][i := v];
    } else {
      assert vs[i := v][..n] == vs[..n];
    }
  }

  lemma {:induction false} CoveredZero(vs: seq<Vcpu>, parity: nat)
    ensures Covered(vs, parity) == 0 <==> forall i | 0 <= i < |vs| :: !Counts(vs[i], parity)
  {
    if vs != [] {
      var n := |vs| - 1;
      CoveredZero(vs[..n], parity);
      assert forall i | 0 <= i < n :: vs[..n][i] == vs[i];
    }
  }

  /** The meaning of the slots: each counts exactly the vCPUs of its parity that are in the guest or died
      there, and those entered in the current epoch or the one before. */
  predicate Tracked(td: Td) {
    && 1 <= td.epoch && |td.vcpus| <= MAX_VCPUS
    && td.refcount[0] == Covered(td.vcpus, 0)
    && td.refcount[1] == Covered(td.vcpus, 1)
    && forall i | 0 <= i < |td.vcpus| && !td.vcpus[i].Out? :: td.epoch - 1 <= td.vcpus[i].epoch <= td.epoch
  }

  lemma CountingOut(td: Td, i: nat)
    requires Tracked(td) && i < |td.vcpus| && !td.vcpus[i].Out?
    ensures var p := Parity(td.vcpus[i].epoch);
            && td.refcount[p] >= 1
            && CountOut(td.refcount, td.vcpus[i].epoch) == td.refcount[p := td.refcount[p] - 1]
    ensures forall p | 0 <= p < 2 ::
              CountOut(td.refcount, td.vcpus[i].epoch)[p] == Covered(td.vcpus[i := Out], p)
  {
    CoveredUpdate(td.vcpus, i, Out, 0);
    CoveredUpdate(td.vcpus, i, Out, 1);
  }

  lemma CountingIn(td: Td, i: nat)
    requires Tracked(td) && i < |td.vcpus| && td.vcpus[i].Out?
    ensures forall p | 0 <= p < 2 ::
              CountIn(td.refcount, td.epoch)[p] == Covered(td.vcpus[i := InGuest(td.epoch)], p)
  {
    CoveredUpdate(td.vcpus, i, InGuest(td.epoch), 0);
    CoveredUpdate(td.vcpus, i, InGuest(td.epoch), 1);
  }

  lemma StepKeepsTracked(td: Td, ev: Event)
    requires Tracked(td)
    ensures Tracked(Step(td, ev))
  {
    match ev
    case Enter(i) =>
      if i < |td.vcpus| && td.vcpus[i].Out? {
        CountingIn(td, i);
      }
    case FailEntry(i) =>
      if i < |td.vcpus| && td.vcpus[i].InGuest? {
        CountingOut(td, i);
      }
    case VmExit(i, d) => VmExitKeepsTracked(td, i, d);
    case Track => NobodyIsTwoBehind(td);
    case Pause => NobodyIsTwoBehind(td);
  }

  lemma VmExitKeepsTracked(td: Td, i: nat, d: Disposition)
    requires Tracked(td)
    ensures Tracked(Step(td, VmExit(i, d)))
  {
    match React(td, VmExit(i, d))
    case Nothing =>
    case Resumed =>
    case LiveExit => CountingOut(td, i);
    case DeadExit =>
      CoveredUpdate(td.vcpus, i, Died(td.vcpus[i].epoch), 0);
      CoveredUpdate(td.vcpus, i, Died(td.vcpus[i].epoch), 1);
  }

  /** An empty slot of the other parity means that everybody entered in the current epoch. */
  lemma NobodyIsTwoBehind(td: Td)
    requires Tracked(td)
    ensures td.refcount[1 - Parity(td.epoch)] == 0 ==>
              forall i | 0 <= i < |td.vcpus| && !td.vcpus[i].Out? :: td.vcpus[i].epoch == td.epoch
  {
    CoveredZero(td.vcpus, 1 - Parity(td.epoch));
    forall i | 0 <= i < |td.vcpus| && !td.vcpus[i].Out? && td.refcount[1 - Parity(td.epoch)] == 0
      ensures td.vcpus[i].epoch == td.epoch
    {
      assert !Counts(td.vcpus[i], 1 - Parity(td.epoch));
    }
  }

  /** The slots mean what they should after any run. */
  lemma {:induction false} RunsAreTracked(td: Td, evs: seq<Event>)
    requires Initial(td)
    ensures Tracked(Run(td, evs))
  {
    if evs == [] {
      CoveredZero(td.vcpus, 0);
      CoveredZero(td.vcpus, 1);
    } else {
      RunsAreTracked(td, evs[..|evs| - 1]);
      StepKeepsTracked(Run(td, evs[..|evs| - 1]), evs[|evs| - 1]);
    }
  }

  /** In any run a live TD exit takes exactly one from the slot of the vCPU that leaves, and nothing from
      the other: adding 0xFFFF never wraps below zero. */
  lemma LiveExitCountsOutOnce(td: Td, evs: seq<Event>, ev: Event)
    requires Initial(td)
    requires React(Run(td, evs), ev) == LiveExit
    ensures var before, after := Run(td, evs), Run(td, evs + [ev]);
            var p := Parity(before.vcpus[ev.i].epoch);
            && after.refcount[p] as int == before.refcount[p] as int - 1
            && after.refcount[1 - p] == before.refcount[1 - p]
            && after.vcpus == before.vcpus[ev.i := Out]
  {
    RunsAreTracked(td, evs);
    assert (evs + [ev])[..|evs|] == evs;
    CountingOut(Run(td, evs), ev.i);
  }

  // ---- What the host may rely on ----

  /** is_tlb_tracked: may a page blocked in epoch `blocked` be taken away now? */
  predicate IsTlbTracked(td: Td, blocked: u64)
    requires 1 <= td.epoch
  {
    || (blocked == td.epoch - 1 && td.refcount[Parity(blocked)] == 0)
    || blocked < td.epoch - 1
  }

  lemma TrackedIff(td: Td, blocked: u64)
    requires Tracked(td)
    ensures IsTlbTracked(td, blocked) <==>
              && blocked < td.epoch
              && forall i | 0 <= i < |td.vcpus| && !td.vcpus[i].Out? :: td.vcpus[i].epoch > blocked
  {
    CoveredZero(td.vcpus, Parity(blocked));
    if blocked == td.epoch - 1 {
      forall i | 0 <= i < |td.vcpus| && !td.vcpus[i].Out?
        ensures td.vcpus[i].epoch > blocked <==> !Counts(td.vcpus[i], Parity(blocked))
      {
      }
    }
  }

  /** Main result: in any run, a blocked page counts as tracked iff no vCPU that could still hold a
      translation from that epoch or before is in the guest or died there. */
  lemma TrackedMeansNoStaleTranslation(td: Td, evs: seq<Event>, blocked: u64)
    requires Initial(td)
    ensures var r := Run(td, evs);
            && 1 <= r.epoch
            && (IsTlbTracked(r, blocked) <==>
                && blocked < r.epoch
                && forall i | 0 <= i < |r.vcpus| && !r.vcpus[i].Out? :: r.vcpus[i].epoch > blocked)
  {
    RunsAreTracked(td, evs);
    TrackedIff(Run(td, evs), blocked);
  }

  /** TDH.MEM.TRACK advances the epoch, by one, exactly when everybody who is in the guest, or died there, entered
      in the current epoch; TDH.EXPORT.PAUSE when there is nobody.  Neither touches anything else, nor makes the
      epoch reach the range of bit 63. */
  lemma EpochAdvancesIff(td: Td)
    requires Tracked(td)
    ensures Step(td, Track) == td.(epoch := Step(td, Track).epoch)
    ensures Step(td, Pause) == td.(epoch := Step(td, Pause).epoch)
    ensures var room := td.epoch < 0x7FFF_FFFF_FFFF_FFFF;
            && Step(td, Track).epoch == td.epoch
               + (if room && forall v <- td.vcpus :: v.Out? || v.epoch == td.epoch then 1 else 0)
            && Step(td, Pause).epoch == td.epoch + if room && forall v <- td.vcpus :: v.Out? then 1 else 0
  {
    NobodyIsTwoBehind(td);
    CoveredZero(td.vcpus, 0);
    CoveredZero(td.vcpus, 1);
    if td.refcount[1 - Parity(td.epoch)] != 0 {
      var i :| 0 <= i < |td.vcpus| && Counts(td.vcpus[i], 1 - Parity(td.epoch));
      assert td.vcpus[i] in td.vcpus && td.vcpus[i].epoch != td.epoch;
    }
    if td.refcount != [0, 0] {
      assert td.refcount[0] != 0 || td.refcount[1] != 0;
      var p :| 0 <= p < 2 && td.refcount[p] != 0;
      var i :| 0 <= i < |td.vcpus| && Counts(td.vcpus[i], p);
      assert td.vcpus[i] in td.vcpus;
    }
  }

  // ---- The fatal flag ----

  /** Once fatal, always fatal; no guest is entered or resumed again, and every further VM exit leaves
      without touching the slots, which then change only when an entry in flight is called off. */
  lemma {:induction false} FatalIsForever(td: Td, evs: seq<Event>)
    requires td.fatal
    ensures Run(td, evs).fatal
    ensures |Run(td, evs).vcpus| == |td.vcpus|
    ensures forall i | 0 <= i < |td.vcpus| && Run(td, evs).vcpus[i].InGuest? :: td.vcpus[i].InGuest?
    ensures (forall k | 0 <= k < |evs| :: !evs[k].FailEntry?) ==> Run(td, evs).refcount == td.refcount
  {
    if evs != [] {
      var front := evs[..|evs| - 1];
      FatalIsForever(td, front);
      assert forall k | 0 <= k < |front| :: front[k] == evs[k];
    }
  }

  lemma FatalStopsResumes(td: Td, evs: seq<Event>, ev: Event)
    requires td.fatal
    ensures React(Run(td, evs), ev) == Nothing || React(Run(td, evs), ev) == DeadExit
    ensures React(Run(td, evs), ev) == DeadExit ==> Step(Run(td, evs), ev).refcount == Run(td, evs).refcount
  {
    FatalIsForever(td, evs);
  }

  // ---- The fields themselves ----

  /** The epoch tracking fields of the TDCS and the fatal flag of the TDR, shared by all vCPUs. */
  class TdShared {
    var fatal: bool
    var tdEpoch: u64
    var refcount: Slots

    constructor ()
      ensures !fatal && tdEpoch == 1 && refcount == [0, 0]
    {
      fatal, tdEpoch, refcount := false, 1, [0, 0];
    }

    method LockXAdd16(slot: nat, quantum: u16)
      requires slot < 2
      modifies this`refcount
      ensures refcount == old(refcount)[slot := XAdd16(old(refcount)[slot], quantum)]
    {
      refcount := refcount[slot := (refcount[slot] + quantum) % TWO16];
    }

    /** adjust_tlb_tracking_state's critical section; fails when the epoch lock is taken. */
    method CountInVcpu(lockFree: bool) returns (ok: bool, vcpuEpoch: u64)
      modifies this`refcount
      ensures ok == lockFree && vcpuEpoch == tdEpoch
      ensures refcount == if ok then CountIn(old(refcount), tdEpoch) else old(refcount)
    {
      ok, vcpuEpoch := lockFree, tdEpoch;
      if ok {
        LockXAdd16(tdEpoch % 2, 1);
      }
    }

    method CountOutVcpu(vcpuEpoch: u64)
      modifies this`refcount
      ensures refcount == CountOut(old(refcount), vcpuEpoch)
    {
      LockXAdd16(vcpuEpoch % 2, 0xFFFF);
    }
  }
}
