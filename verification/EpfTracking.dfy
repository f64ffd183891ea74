/** Zero-step tracking: which GPAs are listed after a history of EPT faults at one guest instruction, and
    what the list guarantees at the next TD entries. */
module EpfTracking {
  import opened Words

  const EPF_THRESHOLD: nat := 6
  const LIST_SIZE: nat := 32

  /** Order-preserving removal of repetitions: each element at its first occurrence. */
  function Dedup(h: seq<u64>): (d: seq<u64>)
  {
    if h == [] then []
    else
      var d := Dedup(h[..|h| - 1]);
      if h[|h| - 1] in d then d else d + [h[|h| - 1]]
  }

  predicate NoRepeat(d: seq<u64>) {
    forall i, j | 0 <= i < j < |d| :: d[i] != d[j]
  }

  /** The first position of g in h. */
  function FirstIndex(h: seq<u64>, g: u64): (i: nat)
    requires g in h
    ensures i < |h| && h[i] == g && g !in h[..i]
  {
    if g in h[..|h| - 1] then
      var i := FirstIndex(h[..|h| - 1], g);
      assert h[..|h| - 1][..i] == h[..i];
      i
    else |h| - 1
  }

  /** Dedup is what its name says: same elements, none twice, in order of first occurrence. */
  lemma {:induction false} DedupIsFirstOccurrences(h: seq<u64>)
    ensures NoRepeat(Dedup(h))
    ensures forall g :: g in Dedup(h) <==> g in h
    ensures forall i, j | 0 <= i < j < |Dedup(h)| ::
              FirstIndex(h, Dedup(h)[i]) < FirstIndex(h, Dedup(h)[j])
  {
    if h != [] {
      var front, last := h[..|h| - 1], h[|h| - 1];
      DedupIsFirstOccurrences(front);
      assert h == front + [last];
      var d := Dedup(front);
      forall g | g in front
        ensures FirstIndex(h, g) == FirstIndex(front, g) < |front|
      {
      }
    }
  }

  function Take<T>(s: seq<T>, n: nat): seq<T> {
    if |s| <= n then s else s[..n]
  }

  function Drop<T>(s: seq<T>, n: nat): seq<T> {
    if |s| <= n then [] else s[n..]
  }

  /** The list after the faults of h, oldest first, all at one guest instruction. */
  function Listed(h: seq<u64>): seq<u64> {
    Take(Dedup(Drop(h, EPF_THRESHOLD)), LIST_SIZE)
  }

  function Suspicion(h: seq<u64>): nat {
    if |h| < EPF_THRESHOLD then |h| else EPF_THRESHOLD
  }

  /** One more fault: the first six only raise suspicion, a later one is appended iff it is new and there
      is room. */
  lemma ListedGrowsByOne(h: seq<u64>, g: u64)
    ensures Listed(h + [g]) ==
            if |h| < 6 || |Listed(h)| == 32 || g in Listed(h) then Listed(h)
            else Listed(h) + [g]
    ensures Listed(h) <= Listed(h + [g])
  {
    if |h| >= EPF_THRESHOLD {
      var d := Drop(h, EPF_THRESHOLD);
      assert Drop(h + [g], EPF_THRESHOLD) == d + [g];
      assert (d + [g])[..|d|] == d;
    }
  }

  /** What the list can be relied on for. */
  lemma ListedFacts(h: seq<u64>)
    ensures (forall i, j | 0 <= i < j < |Listed(h)| :: Listed(h)[i] != Listed(h)[j]) && |Listed(h)| <= 32
    ensures Listed(h) != [] <==> |h| > 6
    ensures Suspicion(h) == if |h| < 6 then |h| else 6
    ensures forall g | g in Listed(h) :: exists i | 6 <= i < |h| :: h[i] == g
    ensures |Listed(h)| < 32 ==> forall i | 6 <= i < |h| :: h[i] in Listed(h)
  {
    var d := Drop(h, EPF_THRESHOLD);
    DedupIsFirstOccurrences(d);
    forall g
      ensures g in d <==> exists i | 6 <= i < |h| :: h[i] == g
    {
      if g in d {
        var i :| 0 <= i < |d| && d[i] == g;
        assert h[i + 6] == g;
      }
      if i :| 6 <= i < |h| && h[i] == g {
        assert d[i - 6] == g;
      }
    }
    if d != [] {
      assert d[0] in Dedup(d);
    }
  }

  // ---- The gate over runs ----

  /** Translating is the set of GPAs that the Secure EPT maps at that moment. */
  datatype Op =
    | ExitAt(rip: u64)                                          // any VM exit: vmexit_stepping_filter
    | FaultAt(rip: u64, gpa: u64)                               // a logged EPT fault: td_exit_epf_stepping_log
    | EnterAt(rip: u64, lockFree: bool, translating: set<u64>)  // a TD entry attempt: td_entry_stepping_filter

  datatype Gate = Gate(ripOnEntry: u64, faults: seq<u64>)

  function Progress(g: Gate, rip: u64): Gate {
    if rip != g.ripOnEntry then g.(faults := []) else g
  }

  function GateStep(g: Gate, op: Op): Gate {
    match op
    case ExitAt(rip) => Progress(g, rip)
    case FaultAt(rip, gpa) =>
      var p := Progress(g, rip);
      p.(faults := p.faults + [gpa])
    case EnterAt(rip, _, _) => g.(ripOnEntry := rip)
  }

  /** Faults count from the last exit or fault at another RIP than that of the last entry attempt. */
  lemma FaultsCountFromProgress(g: Gate, op: Op)
    ensures GateStep(g, op).ripOnEntry == if op.EnterAt? then op.rip else g.ripOnEntry
    ensures GateStep(g, op).faults == (if !op.EnterAt? && op.rip != g.ripOnEntry then [] else g.faults)
                                    + (if op.FaultAt? then [op.gpa] else [])
  {
  }

  function GateRun(g: Gate, ops: seq<Op>): Gate {
    if ops == [] then g else GateStep(GateRun(g, ops[..|ops| - 1]), ops[|ops| - 1])
  }

  lemma {:induction false} GateAppend(g: Gate, a: seq<Op>, b: seq<Op>)
    ensures GateRun(g, a + b) == GateRun(GateRun(g, a), b)
  {
    if b == [] {
      assert a + b == a;
    } else {
      var m := |b| - 1;
      GateAppend(g, a, b[..m]);
      assert (a + b)[..|a + b| - 1] == a + b[..m];
    }
  }

  /** No exit of the run shows a RIP other than the one captured at the last entry. */
  predicate NoProgress(g: Gate, ops: seq<Op>) {
    forall i | 0 <= i < |ops| && !ops[i].EnterAt? :: ops[i].rip == GateRun(g, ops[..i]).ripOnEntry
  }

  lemma NoProgressBefore(g: Gate, ops: seq<Op>)
    requires NoProgress(g, ops) && ops != []
    ensures var front, last := ops[..|ops| - 1], ops[|ops| - 1];
            NoProgress(g, front) && (!last.EnterAt? ==> last.rip == GateRun(g, front).ripOnEntry)
  {
    var front := ops[..|ops| - 1];
    forall i | 0 <= i < |front| && !front[i].EnterAt?
      ensures front[i].rip == GateRun(g, front[..i]).ripOnEntry
    {
      assert front[..i] == ops[..i];
      assert !ops[i].EnterAt?;
    }
  }

  /** Until an exit shows progress the list only grows, across any number of TD entries; and it ends up
      holding everything that faulted past the threshold, unless it is full. */
  lemma {:induction false} ListSurvivesUntilProgress(g: Gate, ops: seq<Op>)
    requires NoProgress(g, ops)
    ensures g.faults <= GateRun(g, ops).faults
    ensures Listed(g.faults) <= Listed(GateRun(g, ops).faults)
    ensures forall i | 0 <= i < |ops| && ops[i].FaultAt? :: ops[i].gpa in GateRun(g, ops).faults
  {
    if ops != [] {
      var n := |ops| - 1;
      var front := ops[..n];
      NoProgressBefore(g, ops);
      ListSurvivesUntilProgress(g, front);
      var mid := GateRun(g, front);
      if ops[n].FaultAt? {
        ListedGrowsByOne(mid.faults, ops[n].gpa);
      }
      forall i | 0 <= i < |ops| && ops[i].FaultAt?
        ensures ops[i].gpa in GateRun(g, ops).faults
      {
        if i < n {
          assert front[i].gpa in mid.faults;
        }
      }
    }
  }

  /** The entry gate: with an empty list everything passes; otherwise it needs the Secure EPT lock and every
      listed GPA translating. */
  predicate Admits(g: Gate, op: Op)
    requires op.EnterAt?
  {
    Listed(g.faults) == [] || (op.lockFree && forall a | a in Listed(g.faults) :: a in op.translating)
  }

  /** After a seventh fault without progress, no later entry is admitted, before an exit shows progress,
      unless the GPA of every fault that was listed by then translates again. */
  lemma AdmittedMeansRepaired(g: Gate, ops: seq<Op>, entry: Op)
    requires NoProgress(g, ops) && entry.EnterAt?
    requires Listed(g.faults) != []
    requires Admits(GateRun(g, ops), entry)
    ensures entry.lockFree && forall a | a in Listed(g.faults) :: a in entry.translating
  {
    ListSurvivesUntilProgress(g, ops);
    assert forall a | a in Listed(g.faults) :: a in Listed(GateRun(g, ops).faults);
  }

  /** Progress clears the slate: the next six faults are tolerated without a listed GPA. */
  lemma {:induction false} ProgressResets(g: Gate, rip: u64, gpas: seq<u64>)
    requires rip != g.ripOnEntry && |gpas| <= 6
    ensures GateStep(g, ExitAt(rip)).faults == []
    ensures Listed(GateStep(g, ExitAt(rip)).faults + gpas) == []
  {
    assert [] + gpas == gpas;
  }
}
