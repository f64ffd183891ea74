# TD transition engine of the TDX module, modelled and verified

What the module does between a guest VM exit and the next guest resume or exit to the host, and back in at
TDH.VP.ENTER. `dafny verify dfyconfig.toml` checks everything.

| file | subject |
|---|---|
| `Words.dfy` | 64-bit words and their wrap-around arithmetic |
| `Stepping.dfy`, `StepGuard.dfy` | the single-step defence: an abstract two-phase machine with its run theorems, and the in-place code refining it |
| `EpfTracking.dfy` | the zero-step defence: the list of faulting GPAs as a function of the fault history, and the gate it forms over runs |
| `NestedCall.dfy` | TDG.VP.ENTER as one call of L1: an abstract machine with its run theorems |
| `VcpuSpec.dfy`, `Vcpu.dfy` | L1/L2 switching, TD exits and TDH.VP.ENTER: the outcome and the whole state that each flow leaves, as functions, and the class whose methods follow the C functions and leave exactly that |
| `VcpuLaws.dfy`, `VcpuEntries.dfy` | what those flows mean, for VM exits and for TDH.VP.ENTER, singly and over runs |
| `VcpuCalls.dfy` | the runs of a vCPU are runs of the machine of `NestedCall.dfy`, with events read off the inputs |
| `LpSpec.dfy`, `Lp.dfy` | the stepping defence and those flows put together: runs of both, and the class that does it |
| `Epoch.dfy`, `ListPage.dfy` | all vCPUs of a TD together: the epoch's two reference counts, the fatal flag, and the list translations they protect |
| `VcpuPages.dfy` | the vCPU of `Vcpu.dfy` is one of those, whatever the others do |
| `Scrub.dfy` | saving, resetting and restoring registers around a TD exit |
| `HostPriority.dfy` | the timeout of TDCALLs that lose to the host's locks |
| `LpLayout.dfy` | address arithmetic of the per-LP data areas |

A call that does not return in C (return to the guest, TD exit, FATAL_ERROR) ends the method here with an
outcome. What a VM-exit handler decides, what an address walk finds and what the host asks for are inputs, so
the results hold for all of them. `Vcpu.LpVcpu.Drive` puts the methods together for arbitrary sequences of
inputs, and leaves the run `VcpuSpec.RunOf`; what single flows do is
`VcpuLaws.L1ExitDecides`, `VcpuLaws.L2ExitDecides` and `VcpuEntries.EntryComesTo`, on the inputs alone; the main
theorems are about runs: `VcpuCalls.EntersAreCalls`, `VcpuPages.ListLandsWhereItIs`, `VcpuLaws.BusLocksAreReported`, and with the stepping defence
`LpSpec.HostFindsWalkIff`, `LpSpec.EntersOnlyRepaired` and `LpSpec.TrapsNeverKillWithoutL2`.

## Findings

Properties that do not hold of the code as it stands; each has its exact condition.

* A TDH.VP.ENTER refused by an emulated EPT violation sets the last TD exit to an asynchronous fault
  (`src/td_transitions/tdh_vp_enter.c:128-139`). If the last exit was a TDG.VP.VMCALL and L1 is not being
  resumed, the call is forgotten: the host's answer is never merged, and if the call was L2's, a later entry
  to L1 takes the asynchronous route and does not write L2's image to its list. `NestedCall.SyncedKeptIff`
  shows that this is the only way to lose it, `NestedCall.ForgottenVmcall` what then happens, and
  `VcpuCalls.RunForgetsIff` which entries of a run do it: those under `VcpuEntries.ForgetsVmcall`, which says of
  the request and the state before it that no earlier check refuses and then a listed GPA would fault again, or
  L2 is current and its list or its virtual APIC page does not translate.
* The same refusal forgets a trap-like exit: the host's recoverability hint is then never merged, and an entry
  that comes with one is refused. The condition is the same one (`VcpuEntries.HintForgottenIff`).
* A bus lock is lost by exits that report no reason (`src/td_transitions/td_exit.c:326-335`): reported iff
  owed and the exit is not one of those, over every run (`VcpuLaws.BusLocksAreReported`, and
  `VcpuLaws.BusLockGetsLost` for an exit that does it).
* The trap flag stays on in the VMCS of the VM that started a stepping episode if another VM's exit ends it
  (`Stepping.TrapFlagClearedIffSameVm`); over a run the flags are right throughout iff no episode ends so
  (`Stepping.FlagsAlwaysRightIff`). The VM's next trap is then passed on iff the filter is idle and sees nobody
  stepping (`Stepping.TrapIsResumedIff`), and as neither dispatcher has a case for it, it kills a TD that is not
  being debugged (`LpSpec.TrapKillsIff`). `LpSpec.StaleTrapKills` builds the inputs, from every state in which
  an L2 VM runs with the filter idle. A TD without L2 VMs is never killed so (`LpSpec.TrapsNeverKillWithoutL2`).
* Only the filter restores CR8. The host gets control with CR8 at 15 and the walk under way exactly if the exit
  is taken before the filter during a walk, or by a vector-on-entry after the filter held the exit back
  (`LpSpec.HostInMidWalkIff`, over runs `LpSpec.HostFindsWalkIff`, by the code `Lp.LogicalProcessor.VmExit`);
  `LpSpec.MidWalkHappens` has inputs for both.
* At an entry that resumes L1 the RIP captured for the next exit is that of L2, which was current when the
  filter ran; otherwise it is that of the VM entered (`LpSpec.CapturedRipIsEnteredIff`).
* Resume streaks are bounded only once the time stamp counter has passed the threshold
  (`Stepping.EarlyTscStreakUnbounded`).
* A dead TD's exit trusts a save area that it did not bring up to date (`Scrub.StaleScrubCompleteIff`, and by
  the code `Scrub.LpState.GuestValueAfterDeath`).
* The host's IA32_TSX_CTRL is not always restored (`Scrub.HostTsxSurvivesIff`).
* `src/vmm_dispatcher/api_calls/tdh_mem_track.c` describes advancing the TD epoch and makes all its checks but
  has no statement that does; `src/vmm_dispatcher/migration_api_calls/tdh_export_pause.c` has one. Read so, a
  blocked page becomes removable only after an export pause (`ListPage.WithoutTrackNothingIsTaken`); the other
  theorems let both advance it, which covers either reading.

## Assumptions

* The time stamp counter is past 4096 where a theorem asks for it; a task priority of 15 masks external
  interrupts, so that none arrives inside a stepping episode.
* A VM entry fails only with an entry-failure reason, and then leaves guest state and launch state alone. The
  filter passes such an exit on in every phase (`Stepping.EntryFailureIsNeverHeldBack`), which is what the
  dispatchers' contracts require of the filter's answer, and `Lp.LogicalProcessor.VmExit` gives them.
* One dispatch of a VM exit, and one host operation, is atomic with respect to the other vCPUs; a TD has at
  most 0xFFFF vCPUs.
* The two places that hold the handoff page count agree: TDH.SYS.INIT copies it from SYSINFO
  (`src/vmm_dispatcher/api_calls/tdh_sys_init.c:1839`). `get_current_thread_num` and `get_other_lp_local_data`
  read one each, and are inverse iff they agree (`LpLayout.ThreadNumIsRightIffHandoffAgrees`).
* Nobody else writes CR8 while a stepping episode is under way.
* From L1's TDG.VP.ENTER until it is back, nobody else in the TD writes the register list.
* An exit whose handler completes the instruction comes with a nonzero instruction length.
* The guest values restored at entry are accepted by the processor.
* The TD epoch stays below 2^63 - 1.
* The TD may be running, so that taking a page away requires TLB tracking (`ListPage`).

## Model

| member | source | states |
|---|---|---|
| `Stepping.ResumeStreakBound` | src/td_transitions/td_exit_stepping.c:204-309 | every streak of consecutive resumes is at most draw + 1 <= 33 long, by a rank that the reset of last_entry_tsc keeps from starting over (time stamps above the threshold) |
| `Stepping.RankDecreases` | src/td_transitions/td_exit_stepping.c:204-309 | each resume lowers the rank; the resume that opens an episode leaves exactly the draw |
| `Stepping.StreakBoundIsTight` | src/td_transitions/td_exit_stepping.c:222-264 | for every draw there is a run of exactly draw + 1 resumes |
| `Stepping.EarlyTscStreakUnbounded` | src/td_transitions/td_exit_stepping.c:204-209 | while the time stamp is at or below the threshold, a guest that keeps trapping without moving is resumed for ever: the assumption is needed |
| `Stepping.NothingOwedWhenIdle` | src/td_transitions/td_exit_stepping.c:225-285 | over any run of exits and TD entries, from an idle start, an NMI or INIT not yet handed on nor re-sent is remembered by the current episode, and only then: when the filter is idle nothing is lost |
| `Stepping.ResentOnlyIfOwed` | src/td_transitions/td_exit_stepping.c:270-285 | an NMI or INIT is re-sent only if one was swallowed and the ending exit is not itself one |
| `Stepping.EpisodeConservesEvents` | src/td_transitions/td_exit_stepping.c:225-285 | in each episode an NMI (INIT) occurred iff it is re-sent at the end or the ending exit is it and is passed on; never both |
| `Stepping.EpisodeServesInterrupts` | src/td_transitions/td_exit_stepping.c:225-245 | the interrupt that opens an episode is re-sent with its own vector; all interrupts of the episode are served iff none arrives strictly inside it |
| `Stepping.TrapFlagClearedIffSameVm` | src/td_transitions/td_exit_stepping.c:115-121 | after an episode every VMCS has its trap flag off iff the VM of the ending exit is the VM of the starting one |
| `Stepping.FlagsAlwaysRightIff` | src/td_transitions/td_exit_stepping.c:115-121 | with any number of VMs, over a whole run: every trap flag is off while the filter is idle and only the walker's is on during a walk, iff every walk ends at an exit of the VM that started it |
| `Stepping.OneVmInvariant` | src/td_transitions/td_exit_stepping.c:204-312 | over any run of one VM, with any TD entries in between, the trap flag is on iff walking, at most 31 steps remain, and only an idle filter passes an exit on or kills the TD |
| `Stepping.OneVmTrapsAreResumed` | src/td_transitions/td_exit_stepping.c:204-312 | in every such run in which a VM traps only with its flag on, every trap is answered by a resume |
| `Stepping.StaleTrapFlag` | src/td_transitions/td_exit_stepping.c:115-121 | what the filter makes of one that does not: three exits, for any two VMs, whose trap is passed on with the flag still on |
| `Stepping.TrapIsResumedIff` | src/td_transitions/td_exit_stepping.c:196-312 | exactly when a trap is answered by a resume and when it is passed on |
| `Stepping.EntryFailureIsNeverHeldBack` | src/td_transitions/td_exit_stepping.c:204-312 | an exit with reason 33, 34 or 41, a failed VM entry, is passed on in whatever phase it comes |
| `Stepping.IdleFilterAnswers` | src/td_transitions/td_exit_stepping.c:87-119 | in the processor's numbers, what an idle filter answers to every exit: reasons 1, 3, 37, 6 if no MSMI, and 0 with vector 2, within 32 bytes and 4096 ticks, start a walk or, with the APIC off, kill the TD; everything else is passed on |
| `Stepping.WalkingFilterAnswers` | src/td_transitions/td_exit_stepping.c:240-309 | the same for a filter in mid-walk: step, remember, or end with the remembered events sent again and the trap flag off |
| `EpfTracking.DedupIsFirstOccurrences` | src/td_transitions/td_exit_stepping.c:390-404 | the reference: same elements, none twice, in order of first occurrence |
| `EpfTracking.ListedGrowsByOne` | src/td_transitions/td_exit_stepping.c:379-405 | one more fault appends its GPA iff six came before, it is new and fewer than 32 are listed |
| `EpfTracking.ListedFacts` | src/td_transitions/td_exit_stepping.c:362-406 | the list has no repetition and at most 32 GPAs, is nonempty iff there were more than six faults, and until full misses none from the seventh on |
| `EpfTracking.FaultsCountFromProgress` | src/td_transitions/td_exit_stepping.c:362-377 | which faults count: those since the last exit or fault at another RIP than the last entry attempt's |
| `EpfTracking.ListSurvivesUntilProgress` | src/td_transitions/td_exit_stepping.c:184-194 | over any run of exits, faults and entries without progress the list only grows |
| `EpfTracking.AdmittedMeansRepaired` | src/td_transitions/td_exit_stepping.c:316-360 | until an exit shows progress, no entry is let through unless every GPA listed before translates at that moment |
| `EpfTracking.ProgressResets` | src/td_transitions/td_exit_stepping.c:184-194 | an exit with a changed RIP empties the list, and six further faults are tolerated |
| `StepGuard.LfsrStaysNonzero` | src/common/helpers/helpers.c:1638-1655 | the random generator never reaches zero |
| `StepGuard.LfsrIsInjective` | src/common/helpers/helpers.c:1638-1655 | no two states of the generator step to the same one; the taps are 0xB4BCD35C |
| `StepGuard.StepsDrawn` | src/td_transitions/td_exit_stepping.c:222 | the draw is the generator modulo 32, plus one |
| `StepGuard.IsCodeBreakpointOnNextRip` | src/td_transitions/td_exit_stepping.c:63-85 | true iff some enabled instruction breakpoint is at the next RIP; the early exit changes nothing |
| `StepGuard.Guard.NoteProgress` | src/td_transitions/td_exit_stepping.c:184-194 | the RIP delta, and the reset of fault tracking iff it is not zero |
| `StepGuard.Guard.StartWalk` | src/td_transitions/td_exit_stepping.c:213-237 | mode on, step count drawn, CR8 saved and raised to 15, trap flag on |
| `StepGuard.Guard.EndWalk` | src/td_transitions/td_exit_stepping.c:267-300 | swallowed events re-sent, CR8 restored, all variables cleared |
| `StepGuard.Guard.TakeStep` | src/td_transitions/td_exit_stepping.c:240-259 | one step fewer, and MOV-SS blocking set iff no debug exception is pending, no STI blocks, and no enabled breakpoint is at the next RIP |
| `StepGuard.Guard.FilterWalk` | src/td_transitions/td_exit_stepping.c:196-312 | the in-place code makes exactly one step of the two-phase machine and keeps CR8 = 15 iff walking |
| `StepGuard.Guard.VmexitSteppingFilter` | src/td_transitions/td_exit_stepping.c:175-314 | the whole exit filter refines both the two-phase machine and the fault gate; CONTINUE and WRONG_APIC_MODE only with the mode off and CR8 as before |
| `StepGuard.Guard.TdEntrySteppingFilter` | src/td_transitions/td_exit_stepping.c:316-360 | EPFS iff the lock was free and a listed GPA would fault, reporting the first; busy iff the list is not empty and the lock taken; let through iff the gate admits; lock held iff the flag says so, on every return |
| `StepGuard.Guard.NoteExitTime` | src/td_dispatcher/tdx_td_dispatcher.c:558 | the time stamp that the filter will compare |
| `StepGuard.Guard.NoteEntryTime` | src/td_transitions/tdh_vp_enter.c:1066 | an entry that is made starts the clock: the EntryMade step of the runs |
| `StepGuard.Guard.EpfSteppingLog` | src/td_transitions/td_exit_stepping.c:362-406 | the array after the loop is the reference list of the fault history |
| `HostPriority.OperandIdIsTransparent` | include/tdx_api_defs.h:855-858 | whatever operand id is folded in, host priority is recognised iff it was, and the guest sees 0x80000200 over that id |
| `HostPriority.GuestSees` | src/td_dispatcher/tdx_td_dispatcher.c:396-420 | in numbers: 0x80000204 in the upper half becomes 0x80000200, the lower half stays, and every other status stays as it is |
| `HostPriority.MultipleInfoIsTransparent` | src/td_dispatcher/tdx_td_dispatcher.c:396-420 | the same for four folded-in details, each in its byte |
| `HostPriority.FatalIsNeverHostPriority` | include/tdx_api_defs.h:860-866 | a status built as fatal has bit 61 set, is never taken for a lost lock, and reaches the guest as it is |
| `HostPriority.StreakStartIsTheStreak` | src/td_dispatcher/tdx_td_dispatcher.c:412-446 | the recorded start is the first call of the current unbroken host-priority streak |
| `HostPriority.StreakIsUnique` | src/td_dispatcher/tdx_td_dispatcher.c:412-446 | and there is only one such call |
| `HostPriority.TimesOutAtFirstLateCall` | src/td_dispatcher/tdx_td_dispatcher.c:424-432 | the timeout exit is due exactly at the first later call of the streak at or past the limit |
| `HostPriority.TdCallTail.Finish` | src/td_dispatcher/tdx_td_dispatcher.c:396-448 | the code times out exactly then, keeps hp_lock_busy_start at the streak start, and leaves the status that `GuestSees` gives in RAX unless the call was interrupted |
| `LpLayout.ThreadNumIsRightIffHandoffAgrees` | src/common/accessors/data_accessors.h:82-92 | every address in LP i's area yields i iff both handoff page counts agree |
| `LpLayout.AreasAreDisjoint` | src/common/accessors/data_accessors.h:169-178 | areas of different LPs share no address |
| `LpLayout.StackRegionCountsLps` | src/common/accessors/data_accessors.h:94-98 | a stack region of (D + 1) * N pages yields N |
| `LpLayout.GlobalDataFollowsLastLp` | src/common/accessors/data_accessors.h:130-147 | global data starts where the last LP's area ends |
| `Scrub.ConditionalScrubRefinesPlain` | src/td_transitions/td_exit.c:63-115 | after a save, skipping writes by the saved copy leaves every register as if all were written |
| `Scrub.ScrubbedByNumber` | src/td_transitions/td_exit.c:120-190 | which registers the host must find reset and to what, by address and value |
| `Scrub.SavedByNumber` | src/td_transitions/td_exit.c:216-306 | which the guest must find again, by address |
| `Scrub.StaleScrubCompleteIff` | src/td_transitions/td_exit.c:120-190 | without a save the reset is complete iff every register whose old copy equals the reset value holds it |
| `Scrub.StaleScrubCanMiss` | src/td_transitions/td_exit.c:472-476 | it fails for every guest that entered with a register at its reset value and wrote anything else to it before the TD died |
| `Scrub.HostTsxSurvivesIff` | src/td_transitions/tdh_vp_enter.c:307-322 | exactly when the host's IA32_TSX_CTRL survives an entry and exit |
| `Scrub.TsxIsOffInGuest` | src/td_transitions/tdh_vp_enter.c:307-322 | a TD without TSX runs with the host's value if that is 1 or 3, and with 3 otherwise |
| `Scrub.ClearThenSet` | src/td_transitions/tdh_vp_enter.c:89-94 | clearing all set status bits and setting the wanted ones leaves the wanted ones |
| `Scrub.LpState.SaveGuestState` | src/td_transitions/td_exit.c:216-306 | exactly the listed registers are copied, all loops and conditions included |
| `Scrub.LpState.LoadVmmState` | src/td_transitions/td_exit.c:120-190 | each register gets the value of the conditional reset |
| `Scrub.LpState.TdEntry` | src/td_transitions/tdh_vp_enter.c:235-345 | each register gets the value of TD entry, and the host copies are taken |
| `Scrub.LpState.TdExit` | src/td_transitions/td_exit.c:472-524 | a live exit scrubs completely, so that the host finds DR0-3 and DR6, STAR, LSTAR, FMASK, KERNEL_GS_BASE, TSC_AUX, UARCH_MISC_CTL, XFD, the counters 0x4C1-0x4C8, 0x1A6-0x1A7 and 0x309 on at their reset values (`HostFinds`); a dead one leaves the save area alone |
| `Scrub.LpState.GuestAcrossExit` | src/td_transitions/td_exit.c:216-306 | round trip: whatever the host does between a live exit and the next entry, every saved register is back, listed by address in `GuestFinds` |
| `Scrub.LpState.HostAcrossRun` | src/td_transitions/td_exit.c:120-190 | after any guest run the host finds those reset values (`HostFinds`) and its own DS area, and its TSX control iff the condition holds |
| `Scrub.LpState.GuestValueAfterDeath` | src/td_transitions/td_exit.c:472-476 | the same by the code: entry, a guest write and a dead exit leave the written value for the host |
| `Epoch.StepKeepsTracked` | src/common/helpers/helpers.c:2567-2609 | each slot counts exactly the vCPUs of its parity that are in or died in the guest, through every event |
| `Epoch.RunsAreTracked` | src/td_transitions/td_exit.c:502-505 | ... in every run |
| `Epoch.LiveExitCountsOutOnce` | src/td_transitions/td_exit.c:502-505 | a live exit takes exactly one from its own slot, never wraps, and leaves the other slot |
| `Epoch.CountingOutUndoesCountingIn` | src/common/helpers/helpers.h:1244-1250 | reverting a failed entry restores the slots |
| `Epoch.TrackedMeansNoStaleTranslation` | src/common/helpers/helpers.h:1220-1238 | in every run is_tlb_tracked holds iff no vCPU that entered at or before that epoch is still in, or died in, the guest |
| `Epoch.EpochAdvancesIff` | src/vmm_dispatcher/api_calls/tdh_mem_track.c:107-157 | TDH.MEM.TRACK advances the epoch iff everybody in the guest entered in the current one, TDH.EXPORT.PAUSE iff nobody is there, and neither changes anything else |
| `Epoch.FatalIsForever` | src/td_transitions/td_exit.c:361-370 | fatal is monotone, nobody enters, and later exits leave the slots alone |
| `Epoch.FatalStopsResumes` | src/td_dispatcher/tdx_td_dispatcher.c:586-592 | once fatal every VM exit becomes a dead exit without a count |
| `Epoch.TdShared.CountInVcpu` | src/common/helpers/helpers.c:2567-2584 | the entry adds one to the slot of the sampled epoch |
| `Epoch.TdShared.CountOutVcpu` | src/common/accessors/ia32_accessors.h:467-471 | adding 0xFFFF to the slot of the vCPU's own epoch |
| `ListPage.WritesLandOnTheList` | src/common/helpers/helpers.c:2420-2470 | in every run of vCPUs and host operations a vCPU in the guest holds no list translation that the Secure EPT has since moved |
| `ListPage.RemovableIsUnused` | src/vmm_dispatcher/api_calls/tdh_mem_page_relocate.c:180-201 | a page the tracking check lets go is relied on by no vCPU in the guest or of the current epoch |
| `ListPage.PageChangesOnly` | src/vmm_dispatcher/api_calls/tdh_mem_page_relocate.c:180-201 | what each host operation makes of a page, and that there is no other way: a blocked page is mapped, moved or freed only when everybody in the guest entered later |
| `ListPage.StepKeepsInv` | src/common/helpers/helpers.c:2553-2605 | every entry, exit, translation, flush and Secure EPT change keeps that |
| `ListPage.OutsideItMayGoStale` | src/td_transitions/td_exit.c:474-486 | being counted is needed: for a vCPU outside, the host can give the page away under a kept translation |
| `ListPage.WithoutTrackNothingIsTaken` | src/vmm_dispatcher/api_calls/tdh_mem_track.c:107-157 | in every run in which neither TDH.MEM.TRACK nor TDH.EXPORT.PAUSE advances the epoch, no page blocked in it ever becomes removable |
| `NestedCall.EnterMovesL1Once` | src/td_transitions/td_exit.c:594-605 | in every run each completed TDG.VP.ENTER moved L1's RIP once, by the TDCALL's length and modulo 2^64, and left its RSP, RFLAGS and SSP and every other list alone; and L1 stays put while it lasts |
| `NestedCall.EnterIsACall` | src/td_transitions/tdg_vp_enter.c:93-208 | in every run that forgets no TDG.VP.VMCALL, each TDG.VP.ENTER is a call: the list holds the image read at entry transformed by what L2 did, other lists are untouched, and every host answer arrived |
| `NestedCall.SyncedKeptIff` | src/td_transitions/tdh_vp_enter.c:128-139 | a step loses that iff it refuses an entry by an emulated EPT violation while a TDG.VP.VMCALL is unanswered and L1 is not being resumed |
| `NestedCall.AlwaysSyncedIff` | src/td_transitions/tdh_vp_enter.c:128-139 | a run keeps list and answers in order at every point iff it never does that |
| `NestedCall.ForgottenVmcall` | src/td_transitions/tdh_vp_enter.c:135-136 | then the next entry to L1 finds the list as it was, for every L2 that changed anything, and the answer is never delivered |
| `NestedCall.StepKeepsCallInv` | src/td_transitions/td_exit.c:412-431 | through every step L1 and the other lists are as when the call was made, and L2's image is what it did to the entry image |
| `NestedCall.StepKeepsCalls` | src/td_transitions/td_exit.c:560-605 | through every step that forgets nothing the completed calls are calls |
| `NestedCall.NothingDone` | src/td_transitions/tdg_vp_enter.c:43-56 | an L2 that changes nothing leaves its list as it was |
| `VcpuCalls.EntersAreCalls` | src/td_transitions/tdg_vp_enter.c:93-208 | main result, over every run of a vCPU from its set-up: the machine of `NestedCall` driven by the events read off the inputs agrees with the vCPU at the end, each completed TDG.VP.ENTER moved L1 past it once and touched no list but its own, and if no entry forgets a TDG.VP.VMCALL each was a call whose list holds the entry image transformed by what the inputs did to L2 |
| `VcpuCalls.CallBegins` | src/td_transitions/tdg_vp_enter.c:128-208 | a call begins with the image on the list that L1 named, and with L1's registers, lists and TDCALL length as the processor delivered them |
| `VcpuCalls.CallGoesOn` | src/td_dispatcher/tdx_td_l2_dispatcher.c:91-390 | a VM exit of L2 appends to the call exactly what the processor delivered and what the handler did, and an exit to L1 completes it |
| `VcpuCalls.ExitAgrees` | src/td_dispatcher/tdx_td_transitions.S:81-99 | every VM exit, whatever the handlers decide, is those events to the machine |
| `VcpuCalls.EntryAgrees` | src/td_transitions/tdh_vp_enter.c:557-1085 | so is every TDH.VP.ENTER: routing, answer, return to L1, entry or refusal |
| `VcpuCalls.RunAgrees` | src/td_transitions/td_exit.c:541-619 | so is every run, from any state and machine that agree |
| `VcpuCalls.RunForgetsIff` | src/td_transitions/tdh_vp_enter.c:128-139 | a run forgets a TDG.VP.VMCALL iff one of its entries meets `ForgetsVmcall` |
| `VcpuLaws.RunStaysGood` | src/td_dispatcher/tdx_td_dispatcher.c:699-702 | after every run the guest is running or the host is, with everything a next flow relies on: launch state known, the active VMCS that of the current VM, its list translated, the vCPU counted in |
| `VcpuLaws.OnlyWhatFits` | src/td_dispatcher/tdx_td_transitions.S:81-99 | the steps of a run: host actions while the guest runs, and VM exits at the host, do nothing; and the other vCPUs can set the fatal flag, the epoch and the counts |
| `VcpuLaws.DispatchEndsWell` | src/td_dispatcher/tdx_td_l2_dispatcher.c:91-390 | each VM exit ends in such a state: a VM is entered through its own VMCS, known to the assembly stub, by VMRESUME iff launched; sanity checks never fail |
| `VcpuLaws.L1ExitDecides` | src/td_dispatcher/tdx_td_dispatcher.c:684-933 | what comes of every VM exit of L1, TD exits with their statuses included, as one table of the inputs |
| `VcpuLaws.L2ExitDecides` | src/td_dispatcher/tdx_td_l2_dispatcher.c:91-390 | and of every VM exit of L2; a posted interrupt goes to L1 iff a requested class is above L1's |
| `VcpuLaws.L1RunsOnIff` | src/td_dispatcher/tdx_td_dispatcher.c:684-933 | exactly when a VM exit of L1 ends with L1 resumed |
| `VcpuLaws.L2IsEnteredIff` | src/td_transitions/tdg_vp_enter.c:78-214 | exactly when it ends with L2 entered, and how |
| `VcpuLaws.L2RunsOnIff` | src/td_dispatcher/tdx_td_l2_dispatcher.c:91-390 | exactly when a VM exit of L2 ends with L2 resumed |
| `VcpuLaws.L1IsBackIff` | src/td_dispatcher/tdx_td_l2_dispatcher.c:132-159 | exactly when it ends with L1 resumed |
| `VcpuLaws.L1AfterExit` | src/td_dispatcher/tdx_td_dispatcher.c:896-933 | after a VM exit of L1: its RIP has moved by the instruction length, modulo 2^64, iff an instruction was completed, and its RSP, RFLAGS and SSP are as the processor delivered them; no list changed; and the VM that runs has the registers due to it, an entered L2 those of its list |
| `VcpuLaws.L2AfterExit` | src/td_transitions/td_exit.c:412-431 | after a VM exit of L2: L2 keeps, or its list alone receives, exactly what the processor delivered with the handler's registers and RIP past its completed instruction; VMCALL and a dead TD write nothing; L1 moves only when it is back, once, RIP alone |
| `VcpuLaws.OthersStay` | src/td_transitions/td_exit.c:461-505 | no VMCS of another L2 VM changes, except that of a VM that L1 enters |
| `VcpuLaws.L1IsNotified` | src/td_dispatcher/vm_exits_l2/td_l2_interrupt.c:90-121 | L1's interrupt status changes, while L2 runs, only in its low byte and by a posted interrupt, and to the higher vector |
| `VcpuLaws.DispatchAccounts` | src/td_transitions/td_exit.c:461-505 | each VM exit reports or keeps the bus lock it owes, is counted out of its own slot once or stays counted, sets fatal by the four statuses that kill and never clears it, leaves the vCPU ready unless one of those or NonRecoverableVcpu comes, notes the kind of the exit, and leaves epoch, routing, list addresses and translations alone but for what TDG.VP.ENTER takes |
| `VcpuLaws.BusLocksAreReported` | src/td_transitions/td_exit.c:326-335 | in every run a TD exit after a VM exit reports a bus lock iff it gives a reason and one of the VM exits since the last TD exit, this one included, came with the bit |
| `VcpuLaws.CarriedAlongRuns` | src/td_dispatcher/tdx_td_dispatcher.c:594-599 | along every run the sticky flag is what those bits say |
| `VcpuLaws.BusLockGetsLost` | src/td_transitions/tdg_vp_enter.c:121-126 | from every state in which L1 runs there is an exit whose bus lock is neither reported nor kept |
| `VcpuEntries.EntryComesTo` | src/td_transitions/tdh_vp_enter.c:557-1085 | which requests enter which VM and which are refused with what, from the host's flags and the TDVPS; counted in the current epoch iff entered; L1 moved, RIP alone, iff it is resumed; a refused request to resume L1 stays pending; the VM that is entered finds the host's exit information, its answer to a TDG.VP.VMCALL of whichever VM, its hint, or its own registers; translations kept, dropped or looked up |
| `VcpuEntries.ThereAndBack` | src/td_transitions/td_exit.c:338-353 | after every TD exit but the final ones a plain TDH.VP.ENTER enters the same VM, and it finds what it left, field by field |
| `VcpuEntries.FlushedIsLaunched` | src/vmm_dispatcher/api_calls/tdh_vp_flush.c:191-213 | after TDH.VP.FLUSH no VM is launched and no list translated, the next entry is by VMLAUNCH, and everything else is as it was |
| `VcpuEntries.BegunIsSame` | src/td_transitions/tdh_vp_enter.c:718-870 | associating the vCPU, noting the request and counting in do not change what the entry will do |
| `VcpuEntries.HintForgottenIff` | src/td_transitions/tdh_vp_enter.c:128-139 | a trap-like exit is forgotten iff the entry gets past the filter's lock and faults, and then an entry with the host's hint is refused; otherwise an entry delivers the hint |
| `VcpuPages.ListLandsWhereItIs` | src/common/helpers/helpers.c:2420-2470 | main result, over every interleaving of the vCPU's inputs with the other vCPUs and the host: its fields stay those of the machine, so the counts mean what `Epoch` proves, and while L2 runs the kept host address of its list is where the Secure EPT has the list |
| `VcpuPages.ExitMatches` | src/td_transitions/td_exit.c:461-505 | a VM exit is to the machine the use of a list and its translation, if it made one, then the exit with the disposition of its outcome |
| `VcpuPages.EntryMatches` | src/common/helpers/helpers.c:2567-2609 | TDH.VP.ENTER is to it an association, then an entry with the lookup it makes, called off if it is refused |
| `LpSpec.RunIsBoth` | src/td_dispatcher/tdx_td_dispatcher.c:550-660 | a run of vCPU and defence together is a run of the stepping machine and of the fault gate, so that their theorems hold of it |
| `LpSpec.HostInMidWalkIff` | src/td_dispatcher/tdx_td_dispatcher.c:165-185 | a TD exit leaves the walk under way iff it was taken before the filter during a walk, or a vector-on-entry turned a held-back exit into it |
| `LpSpec.HostFindsWalkIff` | src/td_dispatcher/tdx_td_dispatcher.c:165-185 | in every run, the host has control in mid-walk iff the last VM exit to it left so |
| `LpSpec.MidWalkHappens` | src/td_dispatcher/tdx_td_dispatcher.c:586-625 | from every state in which an L2 VM runs with the filter idle there are inputs for both ways |
| `LpSpec.TrapKillsIff` | src/td_dispatcher/tdx_td_dispatcher.c:879-888 | a trap that reaches the filter kills a TD that is not being debugged iff the filter is idle and nobody seems to be stepping |
| `LpSpec.TrapsNeverKillWithoutL2` | src/td_dispatcher/tdx_td_dispatcher.c:879-888 | in no run of a TD without L2 VMs does a trap that its trap flag allows do so |
| `LpSpec.StaleTrapKills` | src/td_dispatcher/tdx_td_l2_dispatcher.c:331-340 | with an L2 VM there are inputs, from every state in which one runs and the filter is idle, after which one does |
| `LpSpec.EntersOnlyRepaired` | src/td_transitions/td_exit_stepping.c:316-360 | in every run of exits, logged faults and entries, until an exit shows progress no entry is made unless every GPA listed by then translates at that moment |
| `LpSpec.EnteredIsAdmitted` | src/td_transitions/tdh_vp_enter.c:896-910 | a VM is entered only if the entry got to the filter and every listed GPA translated |
| `LpSpec.CapturedRipIsEnteredIff` | src/td_transitions/td_exit_stepping.c:319-322 | the RIP captured for the next exit is that at which the guest is entered iff the entry does not resume L1 (or L1 resumes at that address) |
| `LpSpec.EarlyExitIsCaughtIff` | src/td_transitions/td_exit_stepping.c:196-259 | over an entry and the next VM exit: one of those reasons within 32 bytes and 4096 ticks of the entry is held back and starts a walk, or kills the TD if the APIC is off, and every other exit is dispatched as if there were no filter |
| `LpSpec.FaultIsLogged` | src/td_dispatcher/vm_exits/td_ept_violation.c:130-133 | a fault that leaves to the host is logged, and is on the list from the seventh at the entry's RIP on |
| `Lp.LogicalProcessor.VmExit` | src/td_dispatcher/tdx_td_dispatcher.c:550-660 | dispatcher, exit filter and fault log together, in place: outcome and whole state are those of `LpSpec.ExitFlow`, and the host finds its CR8 unless it gets control in mid-walk, which is exactly `LeavesWalking` |
| `Lp.LogicalProcessor.LogFault` | src/td_dispatcher/vm_exits/td_ept_violation.c:130-133 | the fault is logged iff the flow gets to the handler |
| `Lp.LogicalProcessor.VpEnter` | src/td_transitions/tdh_vp_enter.c:557-1085 | TDH.VP.ENTER and entry filter together: outcome and whole state are those of `LpSpec.EnterFlow`, the Secure EPT lock is as before whatever happens, and a VM is entered only if every listed GPA translates |
| `Vcpu.LpVcpu.Drive` | src/td_dispatcher/tdx_td_dispatcher.c:699-702 | over every sequence of VM exits and host actions, until one halts the module: the outcomes and the final state are those of the run, of which the theorems above speak |
| `Vcpu.LpVcpu.Take` | src/td_dispatcher/tdx_td_transitions.S:81-99 | one input of a run leaves its step's state |
| `Vcpu.LpVcpu.Dispatch` | src/td_dispatcher/tdx_td_transitions.S:81-99 | the dispatcher of the VM last entered is the right one, and outcome and whole state are those of `VcpuSpec.Dispatched` |
| `Vcpu.LpVcpu.TdxTdDispatcher` | src/td_dispatcher/tdx_td_dispatcher.c:684-933 | for a VM exit of L1 the in-place code leaves that outcome and state |
| `Vcpu.LpVcpu.TdxTdL2Dispatcher` | src/td_dispatcher/tdx_td_l2_dispatcher.c:91-390 | for a VM exit of L2 likewise; its sanity check never fails |
| `Vcpu.LpVcpu.Prologue` | src/td_dispatcher/tdx_td_dispatcher.c:550-636 | leaves the state of `EarlyFlow`: ends iff the TD is fatal, the debugger asks for L2 exits, or the filter kills, with the status of the first of these |
| `Vcpu.LpVcpu.TakeExit` | src/td_dispatcher/tdx_td_dispatcher.c:560-581 | GPRs saved and launched marked after a successful entry only |
| `Vcpu.LpVcpu.HandleL1` | src/td_dispatcher/tdx_td_dispatcher.c:719-923 | the switch leaves the state of `SwitchL1`, of every field |
| `Vcpu.LpVcpu.HandleL2` | src/td_dispatcher/tdx_td_l2_dispatcher.c:127-357 | the switch leaves the state of `SwitchL2`, of every field |
| `Vcpu.LpVcpu.HandleEntryFailureL1` | src/td_dispatcher/tdx_td_dispatcher.c:453-494 | the status for each kind of entry failure |
| `Vcpu.LpVcpu.HandleEntryFailureL2` | src/td_dispatcher/tdx_td_l2_dispatcher.c:65-89 | an invalid L2 guest state goes to L1 (or to the debugger), a machine check exits as not accessible, anything else halts |
| `Vcpu.LpVcpu.FinishL1Exit` | src/td_dispatcher/tdx_td_dispatcher.c:922-933 | bus lock, then vector-on-entry, then resume; the first is skipped if the filter held the exit back |
| `Vcpu.LpVcpu.FinishL2Exit` | src/td_dispatcher/tdx_td_l2_dispatcher.c:359-390 | the same for L2, whose vector-on-entry exits to L1 |
| `Vcpu.LpVcpu.BusLockExit` | src/td_dispatcher/tdx_td_dispatcher.c:145-163 | exits iff the sticky flag is set, and otherwise changes nothing |
| `Vcpu.LpVcpu.AsyncTdExit` | src/td_transitions/td_exit.c:308-410 | state, last exit, fatal flag, count, list and bus-lock report for every status, and nothing else; by status in `VcpuLaws.DispatchAccounts` |
| `Vcpu.LpVcpu.AsyncTdExitQuietly` | src/td_transitions/td_exit.c:444-459 | these exits clear the bus-lock flag without reporting it |
| `Vcpu.LpVcpu.TdVmexitToVmm` | src/td_transitions/td_exit.c:461-505 | list written only for a translated address, by a counted vCPU, before it is counted out; nothing at all for a dead TD |
| `Vcpu.LpVcpu.TdgVpVmcall` | src/td_dispatcher/vm_exits/tdg_vp_vmcall.c:80-173 | a trap-like exit of either VM: RIP advanced, bus lock reported, list not written |
| `Vcpu.LpVcpu.L2ToL1Exit` | src/td_transitions/td_exit.c:541-619 | list, L1 registers, active VMCS and launch choice, or the TD exit that the debugger wants, which leaves L2 current |
| `Vcpu.LpVcpu.TdgVpEnter` | src/td_transitions/tdg_vp_enter.c:78-214 | leaves the state of `VpEnterFlow`, of every field: the meaning is in `VcpuLaws.L2IsEnteredIff`, `VcpuLaws.L1AfterExit` and `VcpuCalls.CallBegins` |
| `Vcpu.LpVcpu.TranslateGpas` | src/common/helpers/helpers.c:2483-2551 | succeeds iff the list is kept or mapped and the virtual APIC page translates, and then holds the list's translation |
| `Vcpu.LpVcpu.TranslateListGpa` | src/common/helpers/helpers.c:2420-2481 | the list is reachable iff its translation is kept or the walk finds it; a kept one stays, and a failed walk changes nothing |
| `Vcpu.LpVcpu.NotifyL1` | src/td_dispatcher/vm_exits_l2/td_l2_interrupt.c:90-121 | the requested vector is raised in L1's interrupt status alone, and it is delivered iff its class is above what L1 is doing |
| `Vcpu.LpVcpu.InterruptExitL2` | src/td_dispatcher/tdx_td_l2_dispatcher.c:132-159 | L2 exits to L1 iff that interrupt can be delivered; otherwise L2 goes on |
| `VcpuSpec.WithRvi` | src/td_dispatcher/vm_exits_l2/td_l2_interrupt.c:93-102 | only the low byte, the requested vector, changes, and to the higher of the two |
| `Vcpu.LpVcpu.TdhVpEnter` | src/td_transitions/tdh_vp_enter.c:557-1085 | outcome and whole state are those of `VcpuSpec.EntryFlow`, which `VcpuEntries.EntryComesTo` describes on the inputs, the registers of the entered VM included |
| `Vcpu.LpVcpu.CheckEntry` | src/td_transitions/tdh_vp_enter.c:741-800 | the checks of the request, in order; a request to resume L1 is noted before the later ones and stays |
| `Vcpu.LpVcpu.HandleL2Entry` | src/td_transitions/tdh_vp_enter.c:456-555 | routing is chosen by who asks; then L1 is resumed past its call with L2's image written if that was left to do, or the entry fails and counts out |
| `Vcpu.LpVcpu.AdjustTlbTrackingState` | src/common/helpers/helpers.c:2567-2609 | counts in and takes the current epoch iff the lock is free; list translations go iff the association is old and the epoch new, and stay otherwise |
| `Vcpu.LpVcpu.InvalidateAllGpaTranslations` | src/common/helpers/helpers.c:2553-2565 | the loop over the TD's VMs leaves no translation |
| `Vcpu.LpVcpu.RefuseByEptViolation` | src/td_transitions/tdh_vp_enter.c:128-139 | the refusal that can forget: the last exit becomes a fault whatever it was |
| `Vcpu.LpVcpu.TdhVpFlush` | src/vmm_dispatcher/api_calls/tdh_vp_flush.c:191-213 | nothing is launched, translated or associated afterwards, and nothing else changes |

## Left out

- `init_data_fast_ref_ptrs`: only caches pointers computed by the functions of `LpLayout`.
- The individual VM-exit handlers and TDCALL leaves other than TDG.VP.ENTER and TDG.VP.VMCALL: they appear as
  what the dispatchers act on, `VcpuSpec.Handled`: resume with or without completing the instruction, TD exit,
  exit to L1, posted interrupt, FATAL_ERROR.
- IDT vectoring, pending NMIs, NMI blocking and the preemption timer: they change VMCS fields that no decision
  modelled here reads.
- VMCS fields of the SEAM transfer, extended (XSAVE) state, XMM registers, IA32_XSS, SPEC_CTRL and the
  branch-prediction barriers: reads and writes without branching of their own.
- TLB and EPT cache instructions: TLB tracking is modelled by what its counts allow.
- The exit information that L1 receives at an L2-to-L1 exit is an input, which it receives; what the host
  finds in its GPRs at a TD exit is not kept.
- The register masks of TDG.VP.VMCALL: the host's answer is an arbitrary function on the guest's GPRs.
- Locks other than the Secure EPT lock of the entry filter and the epoch lock: a busy lock is one early error.
- Migration, PAMT and Secure EPT walks: a walk is an input that says whether the address is mapped.
- Auto-generated metadata and state tables: finite constants.
- Vcpu.LpVcpu.AdjustTlbTrackingState: drops the list translation and not also that of the virtual APIC page,
  whose later walk is an input.
- Lp.LogicalProcessor.VmExit: follows one vCPU, and so do the runs of `LpSpec`; in C the stepping state is the
  logical processor's, so that a walk left under way would meet the next vCPU to run there.
- VcpuPages.ListLandsWhereItIs: one vCPU by its own code; the others move as the machine's vCPUs can.
- VcpuCalls.EntersAreCalls: runs in which the module halts are followed up to that point.
- The #VE that tells L1 of a suspected zero-step attack: it changes event state that no decision here reads.
- Epoch.StepKeepsTracked: one event is one whole entry or dispatch, so interleavings inside an entry, between
  sampling the epoch and counting in, rest on the epoch lock.
