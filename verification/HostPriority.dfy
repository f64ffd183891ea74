/** The tail of the TDCALL handler: a guest call that keeps losing to the host's lock priority is reported to
    the guest as busy and, once it has gone on for too long, to the host as a timeout. */
module HostPriority {
  import opened Words

  const TDX_OPERAND_BUSY: u64 := 0x8000_0200_0000_0000
  const TDX_OPERAND_BUSY_HOST_PRIORITY: u64 := 0x8000_0204_0000_0000
  const UNINITIALIZE_ERROR: u64 := 0xFFFF_FFFF_FFFF_FFFF
  const FATAL_BIT: int := 0x2000_0000_0000_0000

  // api_error_code_t: the low 32 bits are details_l2, the high 32 bits the status proper.
  function DetailsL2(raw: u64): int {
    raw % TWO32
  }

  function WithDetailsL2(raw: u64, d: int): (r: u64)
    requires 0 <= d < TWO32
    ensures DetailsL2(r) == d && r / TWO32 == raw / TWO32
  {
    raw - raw % TWO32 + d
  }

  function ApiErrorWithOperandId(error: u64, id: u64): u64 {
    Add64(error, id)
  }

  function ApiErrorWithOperandIdFatal(error: u64, id: u64): u64 {
    var raw := Add64(error, id);
    if raw / FATAL_BIT % 2 == 1 then raw else raw + FATAL_BIT
  }

  function ApiErrorWithMultipleInfo(error: u64, i0: nat, i1: nat, i2: nat, i3: nat): u64
    requires i0 < 256 && i1 < 256 && i2 < 256 && i3 < 256
  {
    (error + i0 + i1 * 0x100 + i2 * 0x1_0000 + i3 * 0x100_0000) % TWO64
  }

  predicate IsHostPriority(retval: u64) {
    WithDetailsL2(retval, 0) == TDX_OPERAND_BUSY_HOST_PRIORITY
  }

  function GuestStatus(retval: u64): u64 {
    if IsHostPriority(retval) then WithDetailsL2(TDX_OPERAND_BUSY, DetailsL2(retval)) else retval
  }

  /** In numbers: a status with 0x80000204 in its upper half is shown to the guest with 0x80000200 there and the
      same lower half, and every other status as it is. */
  lemma GuestSees(retval: u64)
    ensures IsHostPriority(retval) <==> retval / 0x1_0000_0000 == 0x8000_0204
    ensures GuestStatus(retval) == if retval / 0x1_0000_0000 == 0x8000_0204
                                   then 0x8000_0200_0000_0000 + retval % 0x1_0000_0000 else retval
  {
  }

  /** Whatever operand id a leaf folds in, a status is recognised as host priority iff it was built from the
      host-priority code, and the guest then sees the ordinary busy code with the same operand id. */
  lemma OperandIdIsTransparent(error: u64, id: u64)
    requires DetailsL2(error) == 0 && id < TWO32
    ensures IsHostPriority(ApiErrorWithOperandId(error, id)) <==> error == TDX_OPERAND_BUSY_HOST_PRIORITY
    ensures error == TDX_OPERAND_BUSY_HOST_PRIORITY ==>
              GuestStatus(ApiErrorWithOperandId(error, id)) == 0x8000_0200_0000_0000 + id
  {
    assert error + id < TWO64;
    assert WithDetailsL2(error + id, 0) == error;
  }

  lemma MultipleInfoIsTransparent(error: u64, i0: nat, i1: nat, i2: nat, i3: nat)
    requires DetailsL2(error) == 0 && i0 < 256 && i1 < 256 && i2 < 256 && i3 < 256
    ensures IsHostPriority(ApiErrorWithMultipleInfo(error, i0, i1, i2, i3))
       <==> error == TDX_OPERAND_BUSY_HOST_PRIORITY
    ensures error == TDX_OPERAND_BUSY_HOST_PRIORITY ==>
              GuestStatus(ApiErrorWithMultipleInfo(error, i0, i1, i2, i3))
              == 0x8000_0200_0000_0000 + i0 + i1 * 0x100 + i2 * 0x1_0000 + i3 * 0x100_0000
  {
    OperandIdIsTransparent(error, i0 + i1 * 0x100 + i2 * 0x1_0000 + i3 * 0x100_0000);
  }

  /** A status built as fatal is never taken for a lost lock. */
  lemma FatalIsNeverHostPriority(error: u64, id: u64)
    requires DetailsL2(error) == 0 && id < TWO32
    ensures var raw := ApiErrorWithOperandIdFatal(error, id);
            && !IsHostPriority(raw) && GuestStatus(raw) == raw
            && raw == error + id + if error / 0x2000_0000_0000_0000 % 2 == 1 then 0 else 0x2000_0000_0000_0000
  {
    var raw := ApiErrorWithOperandIdFatal(error, id);
    assert raw / FATAL_BIT % 2 == 1;
    assert WithDetailsL2(raw, 0) / FATAL_BIT == raw / FATAL_BIT;
    assert TDX_OPERAND_BUSY_HOST_PRIORITY / FATAL_BIT == 4;
  }

  // ---- Streaks ----

  /** One TDCALL that came back to the handler: its status, and the time stamp at that point. */
  datatype Call = Call(retval: u64, tsc: u64)

  function Elapsed(h: seq<Call>, from: nat, to: nat): (ticks: u64)
    requires from < |h| && to < |h|
    ensures (h[from].tsc + ticks) % 0x1_0000_0000_0000_0000 == h[to].tsc
  {
    Sub64(h[to].tsc, h[from].tsc)
  }

  /** The first call of the unbroken host-priority streak that the last call of h belongs to; a timeout exit
      closes a streak as an ordinary status does. */
  function StreakStart(h: seq<Call>, timeout: u64): (s: nat)
    requires h != []
    ensures s < |h|
    decreases |h|, 0
  {
    var n := |h| - 1;
    if n > 0 && IsHostPriority(h[n - 1].retval) && !TimesOut(h[..n], timeout) then StreakStart(h[..n], timeout)
    else n
  }

  predicate TimesOut(h: seq<Call>, timeout: u64)
    requires h != []
    decreases |h|, 1
  {
    var n := |h| - 1;
    IsHostPriority(h[n].retval) && StreakStart(h, timeout) < n && Elapsed(h, StreakStart(h, timeout), n) >= timeout
  }

  /** The streak written out: it covers calls s..n, all of them host priority, nothing before s belongs to
      it, and none of its earlier calls had reached the timeout. */
  predicate StreakFrom(h: seq<Call>, timeout: u64, s: nat)
    requires h != []
  {
    && s < |h|
    && (forall k | s <= k < |h| :: IsHostPriority(h[k].retval))
    && (s == 0 || !IsHostPriority(h[s - 1].retval) || TimesOut(h[..s], timeout))
    && (forall k | s < k < |h| - 1 :: Elapsed(h, s, k) < timeout)
  }

  lemma {:induction false} StreakStartIsTheStreak(h: seq<Call>, timeout: u64)
    requires h != [] && IsHostPriority(h[|h| - 1].retval)
    ensures StreakFrom(h, timeout, StreakStart(h, timeout))
  {
    var n := |h| - 1;
    if n > 0 && IsHostPriority(h[n - 1].retval) && !TimesOut(h[..n], timeout) {
      var front := h[..n];
      StreakStartIsTheStreak(front, timeout);
      var s := StreakStart(front, timeout);
      assert forall k | 0 <= k < n :: front[k] == h[k];
      assert front[..s] == h[..s];
      assert forall k | s < k < n - 1 :: Elapsed(h, s, k) == Elapsed(front, s, k);
    }
  }

  lemma {:induction false} StreakIsUnique(h: seq<Call>, timeout: u64, s: nat)
    requires h != [] && StreakFrom(h, timeout, s)
    ensures s == StreakStart(h, timeout)
  {
    var n := |h| - 1;
    if s < n {
      var front := h[..n];
      assert forall k | 0 <= k < n :: front[k] == h[k];
      assert front[..s] == h[..s];
      assert forall k | s < k < n :: Elapsed(h, s, k) == Elapsed(front, s, k);
      StreakIsUnique(front, timeout, s);
      assert IsHostPriority(h[n - 1].retval);
    } else if n > 0 {
      assert h[..s] == h[..n];
    }
  }

  /** The timeout exit is taken exactly at the first later call of a streak at which the time since its first
      call has reached the limit. */
  lemma TimesOutAtFirstLateCall(h: seq<Call>, timeout: u64)
    requires h != []
    ensures TimesOut(h, timeout) <==>
            exists s | 0 <= s < |h| - 1 :: StreakFrom(h, timeout, s) && Elapsed(h, s, |h| - 1) >= timeout
  {
    var n := |h| - 1;
    if TimesOut(h, timeout) {
      StreakStartIsTheStreak(h, timeout);
    }
    if exists s | 0 <= s < n :: StreakFrom(h, timeout, s) && Elapsed(h, s, n) >= timeout {
      var s :| 0 <= s < n && StreakFrom(h, timeout, s) && Elapsed(h, s, n) >= timeout;
      StreakIsUnique(h, timeout, s);
    }
  }

  datatype TdCallOutcome = BackToDispatcher | HostPriorityTimeoutExit

  /** The fields of one vCPU that the handler's tail works on. */
  class TdCallTail {
    const hpLockTimeout: u64
    var hpLockBusy: bool
    var hpLockBusyStart: u64
    var rax: u64
    var movSsStiBlocking: bool
    // every TDCALL that reached the tail, oldest first
    ghost var calls: seq<Call>

    constructor (timeout: u64)
      ensures Valid() && calls == [] && hpLockTimeout == timeout
    {
      hpLockTimeout, hpLockBusy, hpLockBusyStart, rax, movSsStiBlocking := timeout, false, 0, 0, false;
      calls := [];
    }

    ghost predicate Valid()
      reads this
    {
      && (hpLockBusy <==> calls != [] && IsHostPriority(calls[|calls| - 1].retval) && !TimesOut(calls, hpLockTimeout))
      && (hpLockBusy ==> hpLockBusyStart == calls[StreakStart(calls, hpLockTimeout)].tsc)
    }

    method Finish(retval: u64, tsc: u64, interruptOccurred: bool) returns (o: TdCallOutcome)
      requires Valid() && retval != UNINITIALIZE_ERROR
      modifies this
      ensures Valid() && calls == old(calls) + [Call(retval, tsc)]
      ensures o == HostPriorityTimeoutExit <==> TimesOut(calls, hpLockTimeout)
      ensures rax == if o == BackToDispatcher && interruptOccurred then old(rax)
                     else if retval / 0x1_0000_0000 == 0x8000_0204
                     then 0x8000_0200_0000_0000 + retval % 0x1_0000_0000 else retval
      ensures movSsStiBlocking == (old(movSsStiBlocking) && !(o == BackToDispatcher && interruptOccurred))
    {
      calls := calls + [Call(retval, tsc)];
      assert calls[..|calls| - 1] == old(calls);
      assert old(calls) != [] ==> StreakStart(old(calls), hpLockTimeout) < |old(calls)|;
      var status := retval;
      if WithDetailsL2(retval, 0) == TDX_OPERAND_BUSY_HOST_PRIORITY {
        // older guests know only the plain busy code
        status := WithDetailsL2(TDX_OPERAND_BUSY, DetailsL2(retval));
        if !hpLockBusy {
          hpLockBusy := true;
          hpLockBusyStart := tsc;
        } else if Sub64(tsc, hpLockBusyStart) >= hpLockTimeout {
          hpLockBusy := false;
          rax := status;
          return HostPriorityTimeoutExit;
        }
      } else {
        hpLockBusy := false;
      }
      if !interruptOccurred {
        rax := status;
      } else {
        movSsStiBlocking := false;
      }
      return BackToDispatcher;
    }
  }
}
