/** Where the register list of TDG.VP.ENTER lands in memory.

    The module translates the list's guest address once and keeps the host address, outside any TLB.  The
    host may meanwhile block the page, wait for TLB tracking and give the page away.  This file joins the
    kept translations to the tracking of Epoch and proves that a vCPU in the guest never holds one that the
    Secure EPT has since moved, over every interleaving of vCPUs and host operations. */
module ListPage {
  import opened Words
  import Epoch

  /** A leaf of the Secure EPT; a blocked one with the epoch it was blocked in. */
  datatype Entry = Free | Mapped(hpa: u64) | Blocked(hpa: u64, bepoch: u64)

  /** What the TDVPS keeps for one L2 VM: list address, its translation, and the vCPU's epoch. */
  datatype Vp = Vp(gpa: u64, hpa: Option<u64>, epoch: u64, associated: bool)

  datatype World = World(td: Epoch.Td, sept: map<u64, Entry>, vps: seq<Vp>)

  datatype Event =
    | Sched(ev: Epoch.Event)              // entries, exits and epoch changes
    | UseList(i: nat, gpa: u64)           // TDG.VP.ENTER names a list
    | Translate(i: nat)
    | Associate(i: nat)                   // TDH.VP.ENTER, even if it then fails
    | FlushVp(i: nat)                     // TDH.VP.FLUSH
    | Add(gpa: u64, hpa: u64)
    | Block(gpa: u64)
    | Unblock(gpa: u64)
    | Reassign(gpa: u64, to: Option<u64>) // remove or relocate a blocked page

  predicate Inside(w: World, i: nat) {
    i < |w.vps| == |w.td.vcpus| && w.td.vcpus[i].InGuest?
  }

  function EntryAt(w: World, gpa: u64): Entry {
    if gpa in w.sept then w.sept[gpa] else Free
  }

  // adjust_tlb_tracking_state, on the vCPU's own fields.
  function Entered(v: Vp, epoch: u64): Vp {
    Vp(v.gpa, if v.epoch != epoch && v.associated then None else v.hpa, epoch, true)
  }

  function Step(w: World, ev: Event): World
    requires 1 <= w.td.epoch
  {
    match ev
    case Sched(e) =>
      var td := Epoch.Step(w.td, e);
      if e.Enter? && e.i < |w.vps| && td.vcpus != w.td.vcpus then
        w.(td := td, vps := w.vps[e.i := Entered(w.vps[e.i], w.td.epoch)])
      else
        w.(td := td)
    case UseList(i, gpa) =>
      if Inside(w, i) && w.vps[i].gpa != gpa then w.(vps := w.vps[i := w.vps[i].(gpa := gpa, hpa := None)]) else w
    case Translate(i) =>
      if Inside(w, i) && w.vps[i].hpa.None? && EntryAt(w, w.vps[i].gpa).Mapped? then
        w.(vps := w.vps[i := w.vps[i].(hpa := Some(EntryAt(w, w.vps[i].gpa).hpa))])
      else w
    case Associate(i) =>
      if i < |w.vps| == |w.td.vcpus| && w.td.vcpus[i].Out? then
        w.(vps := w.vps[i := w.vps[i].(associated := true)])
      else w
    case FlushVp(i) =>
      if i < |w.vps| == |w.td.vcpus| && !w.td.vcpus[i].InGuest? then
        w.(vps := w.vps[i := w.vps[i].(hpa := None, associated := false)])
      else w
    case Add(gpa, hpa) =>
      if EntryAt(w, gpa).Free? then w.(sept := w.sept[gpa := Mapped(hpa)]) else w
    case Block(gpa) =>
      if EntryAt(w, gpa).Mapped? then w.(sept := w.sept[gpa := Blocked(w.sept[gpa].hpa, w.td.epoch)]) else w
    case Unblock(gpa) =>
      if Removable(w, gpa) then w.(sept := w.sept[gpa := Mapped(w.sept[gpa].hpa)]) else w
    case Reassign(gpa, to) =>
      if Removable(w, gpa) then w.(sept := w.sept[gpa := if to.None? then Free else Mapped(to.value)]) else w
  }

  predicate Removable(w: World, gpa: u64)
    requires 1 <= w.td.epoch
  {
    EntryAt(w, gpa).Blocked? && Epoch.IsTlbTracked(w.td, w.sept[gpa].bepoch)
  }

  /** The translation is that of the Secure EPT, at least until the vCPU's epoch is over. */
  predicate Names(w: World, v: Vp)
    requires v.hpa.Some?
  {
    match EntryAt(w, v.gpa)
    case Free => false
    case Mapped(h) => h == v.hpa.value
    case Blocked(h, b) => h == v.hpa.value && b >= v.epoch
  }

  predicate VpOk(w: World, i: nat)
    requires i < |w.vps| == |w.td.vcpus|
  {
    var v, at := w.vps[i], w.td.vcpus[i];
    && v.epoch <= w.td.epoch
    && (!at.Out? ==> at.epoch == v.epoch) && (at.InGuest? ==> v.associated)
    && (!v.associated ==> v.hpa.None?)
    && (v.hpa.Some? && (!at.Out? || v.epoch == w.td.epoch) ==> Names(w, v))
  }

  predicate Inv(w: World) {
    && Epoch.Tracked(w.td)
    && |w.vps| == |w.td.vcpus|
    && (forall i: nat | i < |w.vps| :: VpOk(w, i))
    && (forall g <- w.sept :: w.sept[g].Blocked? ==> w.sept[g].bepoch <= w.td.epoch)
  }

  lemma SchedKeepsInv(w: World, e: Epoch.Event)
    requires Inv(w)
    ensures Inv(Step(w, Sched(e)))
  {
    Epoch.StepKeepsTracked(w.td, e);
    var t := Step(w, Sched(e));
    forall i: nat | i < |t.vps|
      ensures VpOk(t, i)
    {
      assert VpOk(w, i);
    }
  }

  /** A page may be taken back only when no vCPU relies on it. */
  lemma RemovableIsUnused(w: World, gpa: u64, i: nat)
    requires Inv(w) && Removable(w, gpa) && i < |w.vps| && w.vps[i].gpa == gpa && w.vps[i].hpa.Some?
    ensures w.td.vcpus[i].Out? && w.vps[i].epoch != w.td.epoch
  {
    Epoch.TrackedIff(w.td, w.sept[gpa].bepoch);
    assert VpOk(w, i);
  }

  lemma StepKeepsInv(w: World, ev: Event)
    requires Inv(w)
    ensures Inv(Step(w, ev))
  {
    if ev.Sched? {
      SchedKeepsInv(w, ev.ev);
    } else {
      var t := Step(w, ev);
      forall i: nat | i < |t.vps|
        ensures VpOk(t, i)
      {
        assert VpOk(w, i);
        if (ev.Unblock? || ev.Reassign?) && Removable(w, ev.gpa) && w.vps[i].gpa == ev.gpa && w.vps[i].hpa.Some? {
          RemovableIsUnused(w, ev.gpa, i);
        }
      }
    }
  }

  /** The host's operations on a page, each the only way to its change: blocking notes the epoch, and a blocked page
      is mapped again, moved or freed only when everybody in the guest entered after that epoch. */
  lemma PageChangesOnly(w: World, ev: Event, gpa: u64)
    requires Inv(w)
    ensures var over := EntryAt(w, gpa).Blocked? && EntryAt(w, gpa).bepoch < w.td.epoch
                        && forall v <- w.td.vcpus :: v.Out? || v.epoch > EntryAt(w, gpa).bepoch;
            EntryAt(Step(w, ev), gpa) ==
            match ev
            case Add(g, hpa) => if g == gpa && EntryAt(w, gpa).Free? then Mapped(hpa) else EntryAt(w, gpa)
            case Block(g) =>
              if g == gpa && EntryAt(w, gpa).Mapped? then Blocked(EntryAt(w, gpa).hpa, w.td.epoch) else EntryAt(w, gpa)
            case Unblock(g) => if g == gpa && over then Mapped(EntryAt(w, gpa).hpa) else EntryAt(w, gpa)
            case Reassign(g, to) =>
              if g == gpa && over then (if to.Some? then Mapped(to.value) else Free) else EntryAt(w, gpa)
            case _ => EntryAt(w, gpa)
  {
    if EntryAt(w, gpa).Blocked? {
      Epoch.TrackedIff(w.td, EntryAt(w, gpa).bepoch);
      if forall v <- w.td.vcpus :: v.Out? || v.epoch > EntryAt(w, gpa).bepoch {
        assert forall i | 0 <= i < |w.td.vcpus| :: w.td.vcpus[i] in w.td.vcpus;
      }
    }
  }

  function Run(w: World, evs: seq<Event>): (r: World)
    requires Inv(w)
    ensures Inv(r)
  {
    if evs == [] then w
    else
      var front := Run(w, evs[..|evs| - 1]);
      StepKeepsInv(front, evs[|evs| - 1]);
      Step(front, evs[|evs| - 1])
  }

  predicate Initial(w: World) {
    && Epoch.Initial(w.td) && |w.vps| == |w.td.vcpus|
    && (forall v <- w.vps :: v.hpa.None? && v.epoch == 0)
    && (forall g <- w.sept :: !w.sept[g].Blocked?)
  }

  /** Main result: in every run, a list address translated by a vCPU that is in the guest is translated
      as the Secure EPT has it now, mapped or blocked; so what the exit path writes before it counts the
      vCPU out is written to the page that the guest address denotes. */
  lemma WritesLandOnTheList(w: World, evs: seq<Event>, i: nat)
    requires Initial(w)
    ensures Inv(w)
    ensures var r := Run(w, evs);
            Inside(r, i) && r.vps[i].hpa.Some? ==>
              && !EntryAt(r, r.vps[i].gpa).Free?
              && EntryAt(r, r.vps[i].gpa).hpa == r.vps[i].hpa.value
  {
    Epoch.RunsAreTracked(w.td, []);
    var r := Run(w, evs);
    if Inside(r, i) {
      assert VpOk(r, i);
    }
  }

  /** Being counted is what protects it: with every vCPU outside, the host can go on and give the page away
      under a translation that a TDVPS still holds. */
  lemma OutsideItMayGoStale(w: World, i: nat)
    requires Inv(w) && i < |w.vps| && w.vps[i].hpa.Some? && EntryAt(w, w.vps[i].gpa).Mapped?
    requires (forall v <- w.td.vcpus :: v.Out?) && w.td.epoch < TWO64 / 2 - 1
    ensures var gpa := w.vps[i].gpa;
            var blocked := Step(w, Block(gpa));
            var tracked := Step(blocked, Sched(Epoch.Track));
            var freed := Step(tracked, Reassign(gpa, None));
            freed.vps[i] == w.vps[i] && EntryAt(freed, gpa).Free?
  {
    Epoch.CoveredZero(w.td.vcpus, 0);
    Epoch.CoveredZero(w.td.vcpus, 1);
  }

  /** Only these two host operations advance the epoch. */
  predicate Advances(ev: Event) {
    ev.Sched? && (ev.ev.Track? || ev.ev.Pause?)
  }

  /** In a run in which neither does, no page that gets blocked can ever be taken back: its epoch is never
      over.  So if TDH.MEM.TRACK did not advance the epoch, blocked pages would wait for an export pause. */
  lemma {:induction false} WithoutTrackNothingIsTaken(w: World, evs: seq<Event>, gpa: u64)
    requires Inv(w) && !EntryAt(w, gpa).Blocked?
    requires forall ev <- evs :: !Advances(ev)
    ensures Run(w, evs).td.epoch == w.td.epoch
    ensures EntryAt(Run(w, evs), gpa).Blocked? ==> EntryAt(Run(w, evs), gpa).bepoch == w.td.epoch
    ensures !Removable(Run(w, evs), gpa)
  {
    if evs != [] {
      WithoutTrackNothingIsTaken(w, evs[..|evs| - 1], gpa);
      assert !Advances(evs[|evs| - 1]);
      StaysBlockedNow(Run(w, evs[..|evs| - 1]), evs[|evs| - 1], gpa);
    }
  }

  lemma StaysBlockedNow(w: World, ev: Event, gpa: u64)
    requires Inv(w) && !Advances(ev)
    requires EntryAt(w, gpa).Blocked? ==> EntryAt(w, gpa).bepoch == w.td.epoch
    ensures var t := Step(w, ev);
            t.td.epoch == w.td.epoch && (EntryAt(t, gpa).Blocked? ==> EntryAt(t, gpa).bepoch == w.td.epoch)
  {
  }
}
