/**
HazPtrHolder objects over one slot list: construction, protect, move and release, in every
interleaving. A release is three steps: clear the slot, give it up, forget it.
*/
module Holders {
  import opened Wrappers
  import opened Machine
  import opened Sums
  import opened SlotInvariant

  datatype Phase = Live | Cleared | Disowned

  /** `hazard_ptr_slot_` and how far a release() of this holder has come. */
  datatype Holder = Holder(slot: Option<SlotId>, phase: Phase)

  datatype World = World(slots: seq<Slot>, holders: seq<Holder>)

  /** Take is move assignment after its release(); a release() is Clear, Disown and Forget. */
  datatype Act =
    | Construct(t: Tid)
    | MoveConstruct(from: nat)
    | Protect(h: nat, p: Option<Ptr>)
    | Clear(h: nat)
    | Disown(h: nat)
    | Forget(h: nat)
    | Take(h: nat, from: nat)

  function Perform(w: World, a: Act): World {
    match a
    case Construct(t) =>
      World(AcquireSlot(w.slots, t), w.holders + [Holder(Some(PickSlot(w.slots, |w.slots|)), Live)])
    case MoveConstruct(from) =>
      if from < |w.holders| && w.holders[from].phase.Live?
      then w.(holders := w.holders[from := Holder(None, Live)] + [w.holders[from]]) else w
    case Protect(h, p) =>
      if h < |w.holders| && w.holders[h].phase.Live? && w.holders[h].slot.Some? && w.holders[h].slot.value < |w.slots|
      then var k := w.holders[h].slot.value; w.(slots := w.slots[k := w.slots[k].(ptr := p)]) else w
    case Clear(h) =>
      if h < |w.holders| && w.holders[h].phase.Live? && w.holders[h].slot.Some? && w.holders[h].slot.value < |w.slots|
      then var k := w.holders[h].slot.value;
        World(w.slots[k := w.slots[k].(ptr := None)], w.holders[h := w.holders[h].(phase := Cleared)]) else w
    case Disown(h) =>
      if h < |w.holders| && w.holders[h].phase.Cleared?
        && w.holders[h].slot.Some? && w.holders[h].slot.value < |w.slots|
      then var k := w.holders[h].slot.value;
        World(w.slots[k := w.slots[k].(owner := None)], w.holders[h := w.holders[h].(phase := Disowned)]) else w
    case Forget(h) =>
      if h < |w.holders| && w.holders[h].phase.Disowned? then w.(holders := w.holders[h := Holder(None, Live)]) else w
    case Take(h, from) =>
      if h < |w.holders| && from < |w.holders| && h != from
        && w.holders[h] == Holder(None, Live) && w.holders[from].phase.Live?
      then w.(holders := w.holders[h := w.holders[from]][from := Holder(None, Live)]) else w
  }

  /** A holder that owns its slot: live, or releasing and not yet past giving the slot up. */
  predicate Owns(x: Holder) {
    x.slot.Some? && !x.phase.Disowned?
  }

  function OwnsOne(x: Holder): int {
    if Owns(x) then 1 else 0
  }

  ghost predicate Exclusive(w: World) {
    forall x, y :: 0 <= x < y < |w.holders| && Owns(w.holders[x]) && Owns(w.holders[y]) ==>
      w.holders[x].slot != w.holders[y].slot
  }

  ghost predicate HolderOk(w: World, x: Holder) {
    && (x.slot.None? ==> x.phase.Live?)
    && (x.slot.Some? ==> x.slot.value < |w.slots|)
    && (Owns(x) ==> w.slots[x.slot.value].owner.Some?)
    && (x.phase.Cleared? ==> w.slots[x.slot.value].ptr.None?)
  }

  ghost predicate HoldersInv(w: World) {
    && Exclusive(w)
    && (forall x :: 0 <= x < |w.holders| ==> HolderOk(w, w.holders[x]))
    && (forall k :: 0 <= k < |w.slots| && w.slots[k].owner.None? ==> w.slots[k].ptr.None?)
    && Total(w.slots, InUse) == Total(w.holders, OwnsOne)
  }

  lemma ActKeepsExclusive(w: World, a: Act)
    requires HoldersInv(w)
    ensures Exclusive(Perform(w, a))
  {
    match a
    case Construct(t) => assert forall x :: 0 <= x < |w.holders| ==> HolderOk(w, w.holders[x]);
    case _ =>
  }

  lemma ActKeepsHolders(w: World, a: Act)
    requires HoldersInv(w)
    ensures forall x :: 0 <= x < |Perform(w, a).holders| ==> HolderOk(Perform(w, a), Perform(w, a).holders[x])
    ensures forall k :: 0 <= k < |Perform(w, a).slots| && Perform(w, a).slots[k].owner.None? ==>
      Perform(w, a).slots[k].ptr.None?
  {
    var w' := Perform(w, a);
    forall x | 0 <= x < |w'.holders| ensures HolderOk(w', w'.holders[x]) {
      assert x < |w.holders| ==> HolderOk(w, w.holders[x]);
      if (a.Clear? || a.Disown? || a.Protect?) && a.h < |w.holders| && x < |w.holders| && x != a.h {
        assert HolderOk(w, w.holders[a.h]);
        assert if x < a.h then Owns(w.holders[x]) && Owns(w.holders[a.h]) ==> w.holders[x].slot != w.holders[a.h].slot
               else Owns(w.holders[a.h]) && Owns(w.holders[x]) ==> w.holders[a.h].slot != w.holders[x].slot;
      } else if (a.MoveConstruct? || a.Take?) && a.from < |w.holders| {
        assert HolderOk(w, w.holders[a.from]);
      }
    }
  }

  lemma ConstructCount(w: World, t: Tid)
    ensures Total(Perform(w, Construct(t)).slots, InUse) == Total(w.slots, InUse) + 1
    ensures Total(Perform(w, Construct(t)).holders, OwnsOne) == Total(w.holders, OwnsOne) + 1
  {
    var k := PickSlot(w.slots, |w.slots|);
    if k < |w.slots| {
      TotalUpdate(w.slots, k, w.slots[k].(owner := Some(t)), InUse);
    } else {
      TotalAppend(w.slots, Slot(None, Some(t)), InUse);
    }
    TotalAppend(w.holders, Holder(Some(k), Live), OwnsOne);
  }

  lemma MoveCount(w: World, a: Act)
    requires a.MoveConstruct? || a.Take? || a.Forget?
    ensures Perform(w, a).slots == w.slots && Total(Perform(w, a).holders, OwnsOne) == Total(w.holders, OwnsOne)
  {
    if Perform(w, a) != w {
      match a
      case MoveConstruct(from) =>
        TotalUpdate(w.holders, from, Holder(None, Live), OwnsOne);
        TotalAppend(w.holders[from := Holder(None, Live)], w.holders[from], OwnsOne);
      case Forget(h) => TotalUpdate(w.holders, h, Holder(None, Live), OwnsOne);
      case Take(h, from) =>
        TotalUpdate(w.holders, h, w.holders[from], OwnsOne);
        TotalUpdate(w.holders[h := w.holders[from]], from, Holder(None, Live), OwnsOne);
    }
  }

  lemma StoreCount(w: World, a: Act)
    requires (a.Protect? || a.Clear? || a.Disown?) && Perform(w, a) != w && HolderOk(w, w.holders[a.h])
    ensures Total(Perform(w, a).slots, InUse) - Total(w.slots, InUse) ==
            Total(Perform(w, a).holders, OwnsOne) - Total(w.holders, OwnsOne)
  {
    var k := w.holders[a.h].slot.value;
    var w' := Perform(w, a);
    TotalUpdate(w.slots, k, w'.slots[k], InUse);
    TotalUpdate(w.holders, a.h, w'.holders[a.h], OwnsOne);
    assert w'.holders == w.holders[a.h := w'.holders[a.h]];
  }

  lemma ActKeepsCount(w: World, a: Act)
    requires HoldersInv(w)
    ensures Total(Perform(w, a).slots, InUse) == Total(Perform(w, a).holders, OwnsOne)
  {
    if a.Construct? {
      ConstructCount(w, a.t);
    } else if a.MoveConstruct? || a.Take? || a.Forget? {
      MoveCount(w, a);
    } else if Perform(w, a) != w {
      StoreCount(w, a);
    }
  }

  lemma ActKeepsInv(w: World, a: Act)
    requires HoldersInv(w)
    ensures HoldersInv(Perform(w, a))
  {
    ActKeepsExclusive(w, a);
    ActKeepsHolders(w, a);
    ActKeepsCount(w, a);
  }

  /** Slot `k` of `w` has become `x`; no other slot has changed. */
  ghost predicate OnlySlot(w: World, w': World, k: SlotId, x: Slot) {
    k < |w.slots| && w'.slots == w.slots[k := x]
  }

  /** protect publishes its pointer in the holder's slot; without a slot it does nothing. */
  lemma ProtectPublishes(w: World, h: nat, p: Option<Ptr>)
    requires HoldersInv(w) && h < |w.holders| && w.holders[h].phase.Live?
    ensures var w' := Perform(w, Protect(h, p));
      && w'.holders == w.holders
      && (w.holders[h].slot.None? ==> w' == w)
      && (w.holders[h].slot.Some? ==>
            var k := w.holders[h].slot.value;
            k < |w.slots| && OnlySlot(w, w', k, Slot(p, w.slots[k].owner)))
  {
    assert HolderOk(w, w.holders[h]);
  }

  /** A move takes the slot over and leaves the source without one. */
  lemma MoveTransfers(w: World, h: nat, from: nat)
    requires from < |w.holders| && w.holders[from].phase.Live?
    ensures var w' := Perform(w, MoveConstruct(from));
      && w'.slots == w.slots && |w'.holders| == |w.holders| + 1
      && w'.holders[|w.holders|].slot == w.holders[from].slot && w'.holders[from].slot.None?
    ensures h < |w.holders| && h != from && w.holders[h] == Holder(None, Live) ==>
      var w' := Perform(w, Take(h, from));
      w'.slots == w.slots && w'.holders[h].slot == w.holders[from].slot && w'.holders[from].slot.None?
  {
  }

  /** The three acts of release() clear the slot, give it up and leave the holder empty. */
  lemma ReleaseFrees(w: World, h: nat)
    requires HoldersInv(w) && h < |w.holders| && w.holders[h].phase.Live? && w.holders[h].slot.Some?
    ensures var w' := Perform(Perform(Perform(w, Clear(h)), Act.Disown(h)), Forget(h));
      && w'.holders == w.holders[h := Holder(None, Live)]
      && OnlySlot(w, w', w.holders[h].slot.value, Slot(None, None))
  {
    assert HolderOk(w, w.holders[h]);
    var k := w.holders[h].slot.value;
    var w1 := Perform(w, Clear(h));
    var w2 := Perform(w1, Act.Disown(h));
    assert w2.slots == w.slots[k := Slot(None, None)];
    assert Perform(w2, Forget(h)).holders == w.holders[h := Holder(None, Live)];
  }

  /** The world after the acts `acts`. */
  ghost function After(acts: seq<Act>): World {
    if acts == [] then World([], []) else Perform(After(acts[..|acts| - 1]), acts[|acts| - 1])
  }

  /** The most slots that were owned at once during the run. */
  ghost function Peak(acts: seq<Act>): int {
    if acts == [] then 0
    else
      var before, now := Peak(acts[..|acts| - 1]), Total(After(acts).slots, InUse);
      if now > before then now else before
  }

  /** Two holders outside release() that hold the same slot. */
  predicate Share(x: Holder, y: Holder) {
    x.phase.Live? && y.phase.Live? && x.slot.Some? && x.slot == y.slot
  }

  /**
  In every run no two holders outside release() share a slot, a slot without owner publishes null, and
  the number of slots is the largest number of slots ever owned at once.
  */
  lemma {:induction false} HolderRuns(acts: seq<Act>)
    ensures var w := After(acts);
      && HoldersInv(w)
      && (forall x, y :: 0 <= x < y < |w.holders| ==> !Share(w.holders[x], w.holders[y]))
      && |w.slots| == Peak(acts)
  {
    if acts != [] {
      var init, a := acts[..|acts| - 1], acts[|acts| - 1];
      HolderRuns(init);
      ActKeepsInv(After(init), a);
      SlotsGrow(After(init), a);
    }
  }

  lemma {:induction false} InUseAtMost(slots: seq<Slot>)
    ensures Total(slots, InUse) <= |slots|
  {
    if |slots| > 0 {
      InUseAtMost(slots[..|slots| - 1]);
    }
  }

  /** The slot list grows only when every slot is owned, and then all of the longer list is. */
  lemma SlotsGrow(w: World, a: Act)
    ensures var w' := Perform(w, a);
      && Total(w'.slots, InUse) <= |w'.slots|
      && (|w'.slots| == |w.slots| || (|w'.slots| == |w.slots| + 1 && Total(w'.slots, InUse) == |w'.slots|))
  {
    var w' := Perform(w, a);
    InUseAtMost(w'.slots);
    if |w'.slots| > |w.slots| {
      TotalUniform(w'.slots, InUse, 1);
    }
  }
}
