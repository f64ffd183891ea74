/** The per-vCPU stepping defence as the module keeps it: counters, saved task priority, trap flags, the
    pseudo-random generator and the list of faulting GPAs, all updated in place.  Its methods refine the
    two-phase machine of Stepping and the list specification of EpfTracking. */
module StepGuard {
  import opened Words
  import opened Stepping
  import opened EpfTracking

  const BLOCK_EXTERNAL_INTERRUPTS: nat := 15
  const POLY_MASK_32: bv32 := 0xB4BCD35C

  // One step of the 32-bit feedback shift register, with the taps of POLY_MASK_32.
  function Lfsr(v: bv32): bv32 {
    if v & 1 == 0 then v >> 1 else (v >> 1) ^ POLY_MASK_32
  }

  /** Started from a nonzero seed the generator never reaches zero, where it would stick. */
  lemma LfsrStaysNonzero(v: bv32)
    requires v != 0
    ensures Lfsr(v) != 0
  {
  }

  /** No two states of the generator step to the same one, so that no draw is favoured by where it starts. */
  lemma LfsrIsInjective(v: bv32, w: bv32)
    ensures Lfsr(v) == Lfsr(w) ==> v == w
    ensures Lfsr(v) == if v % 2 == 0 then v / 2 else (v / 2) ^ 0xB4BC_D35C
  {
  }

  function StepsDrawn(v: bv32): (n: nat)
    ensures 1 <= n <= 32 && n == (v % 32) as nat + 1
  {
    var low := v & 0x1F;
    assert low <= 31;
    low as nat + 1
  }

  /** The debug and interruptibility state that decides whether MOV-SS blocking may be set. */
  datatype Breakpoint = Breakpoint(address: u64, local: bool, global: bool, rw: nat, len: nat)

  datatype DebugState = DebugState(pendingEnabled: bool, pendingBs: bool, pendingRtm: bool,
                                   blockedBySti: bool, tf: bool, btf: bool, bps: seq<Breakpoint>)

  predicate Armed(b: Breakpoint, rip: u64) {
    (b.local || b.global) && b.len == 0 && b.rw == 0 && b.address == rip
  }

  /** DR7 with no enable bit set is answered at once; this never changes the answer. */
  predicate IsCodeBreakpointOnNextRip(d: DebugState, rip: u64): (r: bool)
    requires |d.bps| == 4
    ensures r <==> exists b | b in d.bps :: (b.local || b.global) && b.len == 0 && b.rw == 0 && b.address == rip
  {
    var bp := d.bps;
    if !(bp[0].local || bp[0].global || bp[1].local || bp[1].global
         || bp[2].local || bp[2].global || bp[3].local || bp[3].global) then
      false
    else
      Armed(bp[0], rip) || Armed(bp[1], rip) || Armed(bp[2], rip) || Armed(bp[3], rip)
  }

  predicate MayBlockByMovSs(d: DebugState, rip: u64)
    requires |d.bps| == 4
  {
    && !(d.pendingEnabled || d.pendingBs || d.pendingRtm)
    && !IsCodeBreakpointOnNextRip(d, rip)
    && !d.blockedBySti
  }

  datatype SeptLock = Free | HeldHere | HeldElsewhere

  class Guard {
    // single_step_def_state
    var inInstStepMode: bool
    var numInstStep: nat
    var savedCr8: nat
    var nmiExitOccurred: bool
    var initExitOccurred: bool
    var lfsrValue: bv32
    var lastEntryTsc: u64
    var guestRipOnTdEntry: u64
    // TDVPS management
    var lastExitTsc: u64
    const lastEpfGpaList: array<u64>
    var lastEpfGpaListIdx: nat
    var possiblyEpfStepping: nat
    // the processor, the VMCSes and the TD's Secure EPT lock
    var cr8: nat
    var mtf: set<nat>
    var blockingByMovSs: bool
    var pendingBs: bool
    var septLock: SeptLock
    // the task priority outside the defence, and the EPT faults logged since the last progress
    ghost var tpr: nat
    ghost var faults: seq<u64>

    constructor (tpr: nat, seed: bv32)
      requires seed != 0
      ensures Valid() && fresh(lastEpfGpaList)
      ensures StepState() == State(Idle, 0, TWO64 - 1, {}) && this.tpr == tpr && faults == []
    {
      inInstStepMode, numInstStep, savedCr8 := false, 0, 0;
      nmiExitOccurred, initExitOccurred, lfsrValue := false, false, seed;
      lastEntryTsc, guestRipOnTdEntry, lastExitTsc := 0, TWO64 - 1, 0;
      lastEpfGpaList := new u64[LIST_SIZE](_ => 0);
      lastEpfGpaListIdx, possiblyEpfStepping := 0, 0;
      cr8, mtf, blockingByMovSs, pendingBs, septLock := tpr, {}, false, false, Free;
      this.tpr, faults := tpr, [];
    }

    /** CR8 is 15 exactly while walking, and is otherwise what it was before the episode. */
    ghost predicate WalkValid()
      reads this`cr8, this`savedCr8, this`tpr, this`inInstStepMode, this`numInstStep,
            this`nmiExitOccurred, this`initExitOccurred, this`lfsrValue
    {
      && cr8 == (if inInstStepMode then 15 else tpr)
      && savedCr8 == (if inInstStepMode then tpr else 0)
      && (inInstStepMode ==> numInstStep <= 31)
      && (!inInstStepMode ==> numInstStep == 0 && !nmiExitOccurred && !initExitOccurred)
      && lfsrValue != 0
    }

    /** The list and the counter are what the logged faults say. */
    ghost predicate TrackingValid()
      reads this`lastEpfGpaListIdx, this`possiblyEpfStepping, this`faults, lastEpfGpaList
    {
      && lastEpfGpaList.Length == LIST_SIZE
      && lastEpfGpaListIdx <= LIST_SIZE
      && lastEpfGpaList[..lastEpfGpaListIdx] == Listed(faults)
      && possiblyEpfStepping == Suspicion(faults)
    }

    ghost predicate Valid()
      reads this, lastEpfGpaList
    {
      WalkValid() && TrackingValid()
    }

    ghost function StepState(): State
      reads this
    {
      State(if inInstStepMode then Walking(numInstStep, nmiExitOccurred, initExitOccurred) else Idle,
            lastEntryTsc, guestRipOnTdEntry, mtf)
    }

    ghost function GateState(): Gate
      reads this
    {
      Gate(guestRipOnTdEntry, faults)
    }

    /** The exit the filter is looking at, with the time stamp the prologue saved and the draw it would make. */
    function Seen(vm: nat, reason: nat, vector: nat, msmi: bool, rip: u64, apicEnabled: bool): Exit
      reads this
    {
      Exit(vm, reason, vector, msmi, rip, lastExitTsc, apicEnabled, StepsDrawn(Lfsr(lfsrValue)))
    }

    method GetRandom() returns (v: bv32)
      requires lfsrValue != 0
      modifies this`lfsrValue
      ensures v == lfsrValue == Lfsr(old(lfsrValue)) && lfsrValue != 0
    {
      v := if lfsrValue & 1 == 0 then lfsrValue >> 1 else (lfsrValue >> 1) ^ POLY_MASK_32;
      LfsrStaysNonzero(lfsrValue);
      lfsrValue := v;
    }

    method SetMovSsBlocking(d: DebugState)
      modifies this`blockingByMovSs, this`pendingBs
      ensures blockingByMovSs && pendingBs == (d.tf && !d.btf)
    {
      pendingBs := d.tf && !d.btf;
      blockingByMovSs := true;
    }

    /** Stops and resets fault tracking if the RIP moved since the last TD entry. */
    method NoteProgress(rip: u64) returns (ripDelta: u64)
      requires TrackingValid()
      modifies this`lastEpfGpaListIdx, this`possiblyEpfStepping, this`faults
      ensures TrackingValid()
      ensures ripDelta == if rip > guestRipOnTdEntry then rip - guestRipOnTdEntry else guestRipOnTdEntry - rip
      ensures faults == if rip != guestRipOnTdEntry then [] else old(faults)
    {
      ripDelta := if rip > guestRipOnTdEntry then rip - guestRipOnTdEntry else guestRipOnTdEntry - rip;
      if ripDelta != 0 {
        lastEpfGpaListIdx := 0;
        possiblyEpfStepping := 0;
        faults := [];
      }
    }

    /** Starts an episode: draws the step count, raises the task priority and turns the trap flag on. */
    method StartWalk(vm: nat)
      requires WalkValid() && !inInstStepMode
      modifies this`lfsrValue, this`numInstStep, this`inInstStepMode, this`savedCr8, this`cr8, this`mtf
      ensures lfsrValue == Lfsr(old(lfsrValue)) != 0 && inInstStepMode && cr8 == 15
      ensures numInstStep == StepsDrawn(lfsrValue) && savedCr8 == old(cr8) && mtf == old(mtf) + {vm}
    {
      var random := GetRandom();
      numInstStep := StepsDrawn(random);
      inInstStepMode := true;
      savedCr8 := cr8;
      cr8 := BLOCK_EXTERNAL_INTERRUPTS;
      mtf := mtf + {vm};
    }

    /** Ends an episode: sends the remembered events again, restores the task priority, clears everything. */
    method EndWalk(vm: nat, isNmi: bool, isInit: bool) returns (ipis: seq<Ipi>)
      requires inInstStepMode && savedCr8 == tpr && lfsrValue != 0
      modifies this`cr8, this`mtf, this`inInstStepMode, this`numInstStep, this`nmiExitOccurred,
               this`initExitOccurred, this`savedCr8
      ensures WalkValid() && !inInstStepMode && mtf == old(mtf) - {vm}
      ensures ipis == (if old(nmiExitOccurred) && !isNmi then [NmiIpi] else [])
                    + (if old(initExitOccurred) && !isInit then [InitIpi] else [])
    {
      ipis := [];
      if nmiExitOccurred && !isNmi {
        ipis := ipis + [NmiIpi];
      }
      if initExitOccurred && !isInit {
        ipis := ipis + [InitIpi];
      }
      cr8 := savedCr8;
      mtf := mtf - {vm};
      inInstStepMode := false;
      numInstStep := 0;
      nmiExitOccurred := false;
      initExitOccurred := false;
      savedCr8 := 0;
    }

    /** An interruption-type exit joins the walk, starting one if none is under way and the exit came too
        soon after the entry; OkResumeTd means that a walk is now under way and remembers this exit. */
    method JoinWalk(e: Exit, ripDelta: u64) returns (result: FilterResult, ipis: seq<Ipi>)
      requires WalkValid() && e.draw == StepsDrawn(Lfsr(lfsrValue)) && IsInterruption(e)
      requires ripDelta == RipDelta(StepState(), e)
      modifies this`cr8, this`mtf, this`inInstStepMode, this`numInstStep, this`nmiExitOccurred, this`savedCr8,
               this`initExitOccurred, this`lfsrValue
      ensures result == (if old(inInstStepMode) then OkResumeTd
                         else if LooksUndisturbed(old(StepState()), e) then OkContinue
                         else if e.apicEnabled then OkResumeTd else FailTdexitWrongApicMode)
      ensures result != OkResumeTd ==> WalkValid() && StepState() == old(StepState()) && ipis == []
      ensures result == OkResumeTd ==>
              && inInstStepMode && savedCr8 == tpr && cr8 == 15 && lfsrValue != 0
              && nmiExitOccurred == (old(nmiExitOccurred) || IsNmi(e))
              && initExitOccurred == (old(initExitOccurred) || IsInit(e))
              && numInstStep == (if old(inInstStepMode) then old(numInstStep) else e.draw)
              && mtf == (if old(inInstStepMode) then old(mtf) else old(mtf) + {e.vm})
              && ipis == (if !old(inInstStepMode) && IsInterrupt(e) then [FixedIpi(e.vector)] else [])
    {
      ipis := [];
      if !inInstStepMode {
        if ripDelta > MAX_INST_LEN * 2 || Sub64(e.tsc, lastEntryTsc) > TSC_THRESHOLD {
          return OkContinue, ipis;
        }
        // the local APIC mode must be right for the later self-IPI
        if !e.apicEnabled {
          return FailTdexitWrongApicMode, ipis;
        }
        StartWalk(e.vm);
        if IsInterrupt(e) {
          ipis := [FixedIpi(e.vector)];
        }
      }
      nmiExitOccurred := nmiExitOccurred || IsNmi(e);
      initExitOccurred := initExitOccurred || IsInit(e);
      result := OkResumeTd;
    }

    /** Lets the guest execute one more instruction of the walk. */
    method TakeStep(rip: u64, d: DebugState)
      requires numInstStep > 0 && |d.bps| == 4
      modifies this`numInstStep, this`blockingByMovSs, this`pendingBs
      ensures numInstStep == old(numInstStep) - 1
      ensures if !d.pendingEnabled && !d.pendingBs && !d.pendingRtm && !d.blockedBySti
                 && forall b | b in d.bps :: b.address == rip && b.len == 0 && b.rw == 0 ==> !b.local && !b.global
              then blockingByMovSs && pendingBs == (d.tf && !d.btf)
              else blockingByMovSs == old(blockingByMovSs) && pendingBs == old(pendingBs)
    {
      if MayBlockByMovSs(d, rip) {
        SetMovSsBlocking(d);
      }
      numInstStep := numInstStep - 1;
    }

    /** The single-step part of the filter: exactly one step of the two-phase machine. */
    method FilterWalk(e: Exit, ripDelta: u64, d: DebugState)
      returns (result: FilterResult, ipis: seq<Ipi>)
      requires WalkValid() && |d.bps| == 4
      requires ripDelta == RipDelta(StepState(), e) && e.draw == StepsDrawn(Lfsr(lfsrValue))
      modifies this`cr8, this`mtf, this`inInstStepMode, this`numInstStep, this`nmiExitOccurred, this`savedCr8,
               this`initExitOccurred, this`lfsrValue, this`lastEntryTsc, this`blockingByMovSs, this`pendingBs
      ensures WalkValid()
      ensures var o := Step(old(StepState()), e); StepState() == o.next && result == o.result && ipis == o.ipis
    {
      ipis := [];
      if IsInterruption(e) {
        result, ipis := JoinWalk(e, ripDelta);
        if result != OkResumeTd {
          return;
        }
        if numInstStep > 0 {
          TakeStep(e.rip, d);
          return;
        }
      }

      if inInstStepMode {
        ipis := EndWalk(e.vm, IsNmi(e), IsInit(e));
        if IsMtf(e) {
          // the pending interruption about to be consumed must not restart the walk
          lastEntryTsc := 0;
          return OkResumeTd, ipis;
        }
      }
      return OkContinue, ipis;
    }

    /** The VM exit filter.  It makes exactly the step of the two-phase machine, and forgets the logged
        faults iff the RIP moved; it lets an exit through, or kills the TD, only with the walk over. */
    method VmexitSteppingFilter(vm: nat, reason: nat, vector: nat, msmi: bool, rip: u64, apicEnabled: bool,
                                d: DebugState)
      returns (result: FilterResult, ipis: seq<Ipi>)
      requires Valid() && |d.bps| == 4
      modifies this`cr8, this`mtf, this`inInstStepMode, this`numInstStep, this`nmiExitOccurred, this`savedCr8,
               this`initExitOccurred, this`lfsrValue, this`lastEntryTsc, this`blockingByMovSs, this`pendingBs,
               this`lastEpfGpaListIdx, this`possiblyEpfStepping, this`faults
      ensures Valid()
      ensures var o := Step(old(StepState()), old(Seen(vm, reason, vector, msmi, rip, apicEnabled)));
              StepState() == o.next && result == o.result && ipis == o.ipis
      ensures GateState() == GateStep(old(GateState()), ExitAt(rip))
      ensures result == OkContinue || result == FailTdexitWrongApicMode ==> !inInstStepMode && cr8 == tpr
    {
      var e := Seen(vm, reason, vector, msmi, rip, apicEnabled);
      var ripDelta := NoteProgress(rip);
      assert StepState() == old(StepState());
      result, ipis := FilterWalk(e, ripDelta, d);
    }

    /** The common prologue of the dispatchers records when the exit came. */
    method NoteExitTime(tsc: u64)
      modifies this`lastExitTsc
      ensures lastExitTsc == tsc
    {
      lastExitTsc := tsc;
    }

    /** TDH.VP.ENTER records when the entry is made. */
    method NoteEntryTime(tsc: u64)
      requires Valid()
      modifies this`lastEntryTsc
      ensures Valid() && StepState() == Follow(old(StepState()), EntryMade(tsc))
    {
      lastEntryTsc := tsc;
    }

    /** The TD entry filter.  `translating` holds the GPAs the Secure EPT maps now; `locked` is the caller's
        flag, false on entry. */
    method TdEntrySteppingFilter(rip: u64, translating: set<u64>, notifyEptFaults: bool, gpaIn: u64)
      returns (result: FilterResult, faultingGpa: u64, locked: bool)
      requires Valid() && septLock != HeldHere
      modifies this`guestRipOnTdEntry, this`septLock
      ensures Valid() && guestRipOnTdEntry == rip
      ensures StepState() == Follow(old(StepState()), EntryChecked(rip))
      // the caller is told of the lock exactly when it holds it, and nobody else's lock is touched
      ensures locked <==> septLock == HeldHere
      ensures !locked ==> septLock == old(septLock)
      ensures locked ==> old(septLock) == Free
      // an entry is refused iff the lock was free and a listed GPA would fault again: the first such one
      ensures result == FailSeptTreeBusy <==> Listed(faults) != [] && old(septLock) == HeldElsewhere
      ensures result == FailTdenterEpfs <==>
              old(septLock) == Free && exists k | 0 <= k < |Listed(faults)| :: Listed(faults)[k] !in translating
      ensures result == FailTdenterEpfs ==>
              exists k | 0 <= k < |Listed(faults)| ::
                && faultingGpa == Listed(faults)[k] && faultingGpa !in translating
                && forall j | 0 <= j < k :: Listed(faults)[j] in translating
      ensures result != FailTdenterEpfs ==> faultingGpa == gpaIn
      // an entry is let through only when the gate admits it, and notified iff asked for and suspicious
      ensures (result == OkContinue || result == OkNotifyEpsFault) <==>
              Admits(GateState(), EnterAt(rip, old(septLock) == Free, translating))
      ensures result == OkNotifyEpsFault ==> notifyEptFaults && Listed(faults) != []
      ensures result == OkContinue ==> !notifyEptFaults || Listed(faults) == []
      ensures locked <==> result == OkNotifyEpsFault || (result == OkContinue && Listed(faults) != [])
    {
      faultingGpa, locked := gpaIn, false;
      guestRipOnTdEntry := rip;

      if lastEpfGpaListIdx == 0 {
        return OkContinue, faultingGpa, locked;
      }
      if septLock != Free {
        return FailSeptTreeBusy, faultingGpa, locked;
      }
      septLock := HeldHere;
      locked := true;

      for i := 0 to lastEpfGpaListIdx
        invariant septLock == HeldHere && Valid()
        invariant forall j | 0 <= j < i :: lastEpfGpaList[j] in translating
      {
        assert lastEpfGpaList[i] == Listed(faults)[i];
        if lastEpfGpaList[i] !in translating {
          assert forall j | 0 <= j < i :: Listed(faults)[j] == lastEpfGpaList[j];
          septLock := Free;
          return FailTdenterEpfs, lastEpfGpaList[i], false;
        }
      }
      assert forall j | 0 <= j < |Listed(faults)| :: Listed(faults)[j] == lastEpfGpaList[j];
      if notifyEptFaults {
        return OkNotifyEpsFault, faultingGpa, locked;
      }
      return OkContinue, faultingGpa, locked;
    }

    /** Logs one EPT fault on a private GPA. */
    method EpfSteppingLog(rip: u64, gpa: u64)
      requires Valid()
      modifies this`lastEpfGpaListIdx, this`possiblyEpfStepping, this`faults, lastEpfGpaList
      ensures Valid()
      ensures GateState() == GateStep(old(GateState()), FaultAt(rip, gpa))
      ensures rip == old(guestRipOnTdEntry) ==>
                old(lastEpfGpaList[..lastEpfGpaListIdx]) <= lastEpfGpaList[..lastEpfGpaListIdx]
    {
      if rip != guestRipOnTdEntry {
        lastEpfGpaListIdx := 0;
        possiblyEpfStepping := 0;
        faults := [];
      }
      ghost var before := faults;
      ListedGrowsByOne(before, gpa);
      ListedFacts(before);
      if possiblyEpfStepping < EPF_THRESHOLD {
        possiblyEpfStepping := possiblyEpfStepping + 1;
      } else if lastEpfGpaListIdx < LIST_SIZE {
        var i := 0;
        while i < lastEpfGpaListIdx && lastEpfGpaList[i] != gpa
          invariant i <= lastEpfGpaListIdx
          invariant gpa !in lastEpfGpaList[..i]
        {
          i := i + 1;
        }
        if i == lastEpfGpaListIdx {
          lastEpfGpaList[i] := gpa;
          lastEpfGpaListIdx := lastEpfGpaListIdx + 1;
          assert lastEpfGpaList[..lastEpfGpaListIdx] == Listed(before) + [gpa];
        } else {
          assert gpa in lastEpfGpaList[..lastEpfGpaListIdx];
        }
      }
      faults := faults + [gpa];
    }
  }
}
