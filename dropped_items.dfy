/** Picking up dropped items (src/items/dropped_items.rs). For one player, the dropped items
    of the player's chunk are visited in order; `near` tells which of them lie within reach
    (squared distance below 2). A nearby stack first tops up the hotbar slots holding the same
    item, then fills empty slots, and is despawned once nothing is left of it. */
module DroppedItems {
  import opened Items
  import opened Players

  /** `u32::MAX`, the limit passed to `transfer_to`; every stack size fits below it. */
  const TRANSFER_LIMIT: nat := 0xFFFF_FFFF

  /** A stack whose sizes fit the source's `u32` counters. */
  predicate Sized(s: ItemStack) {
    ValidStack(s) && s.capacity <= TRANSFER_LIMIT
  }

  predicate AllSized(stacks: seq<ItemStack>) {
    forall i :: 0 <= i < |stacks| ==> Sized(stacks[i])
  }

  /** The number of items in the stacks. */
  function TotalSize(stacks: seq<ItemStack>): nat {
    if stacks == [] then 0 else stacks[0].size + TotalSize(stacks[1..])
  }

  /** Replacing one stack changes the total by the difference of the two sizes. */
  lemma {:induction false} TotalSizeUpdate(stacks: seq<ItemStack>, k: nat, s: ItemStack)
    requires k < |stacks|
    ensures TotalSize(stacks[k := s]) + stacks[k].size == TotalSize(stacks) + s.size
  {
    if k > 0 {
      assert stacks[k := s][1..] == stacks[1..][k - 1 := s];
      TotalSizeUpdate(stacks[1..], k - 1, s);
    }
  }

  /** The pre-check: slot `slot` can take in part of `dropped` when it holds the same item
      and is not full, or when it is empty. */
  predicate Room(slot: ItemStack, dropped: ItemStack)
    requires ValidStack(slot)
  {
    (slot.item == dropped.item && RemainingCapacity(slot) != 0) || IsEmpty(slot)
  }

  predicate HasRoom(slots: seq<ItemStack>, dropped: ItemStack)
    requires AllSized(slots)
  {
    exists i :: 0 <= i < |slots| && Room(slots[i], dropped)
  }

  /** The loop that tests for capacity before touching the hotbar. */
  method HasCapacity(slots: seq<ItemStack>, dropped: ItemStack) returns (capacity: bool)
    requires AllSized(slots)
    ensures capacity <==> HasRoom(slots, dropped)
  {
    capacity := false;
    var i := 0;
    while i < |slots|
      invariant i <= |slots|
      invariant forall k :: 0 <= k < i ==> !Room(slots[k], dropped)
    {
      if (slots[i].item == dropped.item && RemainingCapacity(slots[i]) != 0) || IsEmpty(slots[i]) {
        capacity := true;
        return;
      }
      i := i + 1;
    }
  }

  /** The slots a pass fills: those holding the dropped item in the first pass, the empty
      ones in the second. */
  predicate Eligible(slot: ItemStack, dropped: ItemStack, sameItem: bool) {
    if sameItem then slot.item == dropped.item else IsEmpty(slot)
  }

  /** What one slot of a pass does: an eligible slot receives what the transfer allows, any
      other is passed over. Returns the rest of the dropped stack and the slot. */
  function Step(dropped: ItemStack, slot: ItemStack, sameItem: bool): (ItemStack, ItemStack) {
    if Eligible(slot, dropped, sameItem) then Transfer(dropped, slot, TRANSFER_LIMIT) else (dropped, slot)
  }

  /** One step moves items without creating or losing any and keeps both stacks within
      their bounds; a slot it passes over is untouched; while anything is left of the dropped
      stack, an eligible slot ends up full of the dropped item, and a step that takes nothing
      from the dropped stack found an eligible slot already full. */
  lemma StepFacts(dropped: ItemStack, slot: ItemStack, sameItem: bool)
    requires Sized(dropped) && Sized(slot)
    ensures var (d, s) := Step(dropped, slot, sameItem);
      && d.size + s.size == dropped.size + slot.size
      && Sized(d) && Sized(s) && d.size <= dropped.size
      && (d.size > 0 ==> d.item == dropped.item)
      && (!Eligible(slot, dropped, sameItem) ==> d == dropped && s == slot)
      && (d.size > 0 && Eligible(slot, dropped, sameItem) ==>
            !IsEmpty(s) && s.item == dropped.item && s.size == s.capacity)
      && (d.size == dropped.size > 0 && Eligible(slot, dropped, sameItem) ==>
            !IsEmpty(slot) && slot.size == slot.capacity)
  {
    TransferConserves(dropped, slot, TRANSFER_LIMIT);
  }

  /** One fill pass over the slots from index `i` on: slot by slot, stopping as soon as the
      dropped stack is empty. Returns the rest of the dropped stack and the slots. */
  function Fill(dropped: ItemStack, slots: seq<ItemStack>, sameItem: bool, i: nat): (ItemStack, seq<ItemStack>)
    decreases |slots| - i
  {
    if i >= |slots| then (dropped, slots)
    else
      var (d, s) := Step(dropped, slots[i], sameItem);
      if IsEmpty(d) then (d, slots[i := s]) else Fill(d, slots[i := s], sameItem, i + 1)
  }

  /** A pass moves items without creating or losing any, keeps every stack within its
      bounds and the slots before `i` as they were, and only ever shrinks the dropped stack,
      which keeps its item while anything is left. */
  lemma {:induction false} FillConserves(dropped: ItemStack, slots: seq<ItemStack>, sameItem: bool, i: nat)
    requires Sized(dropped) && AllSized(slots) && i <= |slots|
    ensures var (d, s) := Fill(dropped, slots, sameItem, i);
      && |s| == |slots| && d.size + TotalSize(s) == dropped.size + TotalSize(slots)
      && Sized(d) && AllSized(s) && d.size <= dropped.size
      && (d.size > 0 ==> d.item == dropped.item)
      && (forall j :: 0 <= j < i ==> s[j] == slots[j])
    decreases |slots| - i
  {
    if i < |slots| {
      var (d, s) := Step(dropped, slots[i], sameItem);
      StepFacts(dropped, slots[i], sameItem);
      TotalSizeUpdate(slots, i, s);
      if !IsEmpty(d) {
        FillConserves(d, slots[i := s], sameItem, i + 1);
      }
    }
  }

  /** A pass leaves every slot it does not fill untouched; while anything is left of the
      dropped stack, every slot it fills ends up full of the dropped item. */
  lemma {:induction false} FillEffect(dropped: ItemStack, slots: seq<ItemStack>, sameItem: bool, i: nat)
    requires Sized(dropped) && AllSized(slots) && i <= |slots|
    ensures var (d, s) := Fill(dropped, slots, sameItem, i);
      && |s| == |slots|
      && (forall j :: i <= j < |slots| && !Eligible(slots[j], dropped, sameItem) ==> s[j] == slots[j])
      && (d.size > 0 ==> forall j :: i <= j < |slots| && Eligible(slots[j], dropped, sameItem) ==>
            !IsEmpty(s[j]) && s[j].item == dropped.item && s[j].size == s[j].capacity)
    decreases |slots| - i
  {
    FillConserves(dropped, slots, sameItem, i);
    if i < |slots| {
      var (d, s) := Step(dropped, slots[i], sameItem);
      StepFacts(dropped, slots[i], sameItem);
      if !IsEmpty(d) {
        FillConserves(d, slots[i := s], sameItem, i + 1);
        FillEffect(d, slots[i := s], sameItem, i + 1);
        assert forall j :: i < j < |slots| ==> Eligible(slots[j], d, sameItem) == Eligible(slots[j], dropped, sameItem);
      }
    }
  }

  /** A pass that takes nothing from a non-empty dropped stack found every slot it could
      fill already full. */
  lemma {:induction false} FillNoProgress(dropped: ItemStack, slots: seq<ItemStack>, sameItem: bool, i: nat)
    requires Sized(dropped) && AllSized(slots) && i <= |slots|
    ensures var (d, s) := Fill(dropped, slots, sameItem, i);
      d.size == dropped.size > 0 ==> forall j :: i <= j < |slots| && Eligible(slots[j], dropped, sameItem) ==>
        !IsEmpty(slots[j]) && slots[j].size == slots[j].capacity
    decreases |slots| - i
  {
    if i < |slots| {
      var (d, s) := Step(dropped, slots[i], sameItem);
      StepFacts(dropped, slots[i], sameItem);
      if !IsEmpty(d) {
        FillConserves(d, slots[i := s], sameItem, i + 1);
        FillNoProgress(d, slots[i := s], sameItem, i + 1);
        var (dn, sn) := Fill(d, slots[i := s], sameItem, i + 1);
        if dn.size == dropped.size > 0 {
          forall j | i < j < |slots| && Eligible(slots[j], dropped, sameItem)
            ensures !IsEmpty(slots[j]) && slots[j].size == slots[j].capacity
          {
            assert slots[i := s][j] == slots[j];
            assert Eligible(slots[i := s][j], d, sameItem);
          }
        }
      }
    }
  }

  /** One fill pass of `pick_up_items` over the player's hotbar. */
  method FillSlots(hotbar: Hotbar, dropped: ItemStack, sameItem: bool) returns (rest: ItemStack)
    modifies hotbar
    ensures (rest, hotbar.items) == Fill(dropped, old(hotbar.items), sameItem, 0)
    ensures hotbar.equippedItem == old(hotbar.equippedItem)
  {
    rest := dropped;
    var i := 0;
    while i < |hotbar.items|
      invariant i <= |hotbar.items|
      invariant Fill(rest, hotbar.items, sameItem, i) == Fill(dropped, old(hotbar.items), sameItem, 0)
      invariant hotbar.equippedItem == old(hotbar.equippedItem)
    {
      var slot := hotbar.items[i];
      if (sameItem && slot.item == rest.item) || (!sameItem && IsEmpty(slot)) {
        var (d, s) := Transfer(rest, slot, TRANSFER_LIMIT);
        rest := d;
        hotbar.items := hotbar.items[i := s];
      } else {
        assert hotbar.items[i := slot] == hotbar.items;
      }
      if IsEmpty(rest) {
        return;
      }
      i := i + 1;
    }
  }

  /** The outcome of trying to pick up one nearby stack. */
  datatype Pickup =
    | NoRoom
    | Picked(dropped: ItemStack, slots: seq<ItemStack>)

  /** Picking up one stack: nothing happens when no slot has room; otherwise the slots with
      the same item are filled first, and the empty slots only if something is left. */
  function PickUp(dropped: ItemStack, slots: seq<ItemStack>): Pickup
    requires AllSized(slots)
  {
    if !HasRoom(slots, dropped) then NoRoom
    else
      var (d1, s1) := Fill(dropped, slots, true, 0);
      if IsEmpty(d1) then Picked(d1, s1)
      else
        var (d2, s2) := Fill(d1, s1, false, 0);
        Picked(d2, s2)
  }

  /** The body of `pick_up_items` for one nearby stack. Returns whether the hotbar had room
      and what is left of the stack. */
  method PickUpItem(hotbar: Hotbar, dropped: ItemStack) returns (room: bool, rest: ItemStack)
    requires AllSized(hotbar.items)
    modifies hotbar
    ensures var p := PickUp(dropped, old(hotbar.items));
      && (room <==> p.Picked?)
      && (p.Picked? ==> rest == p.dropped && hotbar.items == p.slots)
      && (p.NoRoom? ==> rest == dropped && hotbar.items == old(hotbar.items))
    ensures hotbar.equippedItem == old(hotbar.equippedItem)
  {
    room := HasCapacity(hotbar.items, dropped);
    if !room {
      return room, dropped;
    }
    rest := FillSlots(hotbar, dropped, true);
    if IsEmpty(rest) {
      return;
    }
    rest := FillSlots(hotbar, rest, false);
  }

  /** Picking stays within bounds, never creates or loses items, and leaves the hotbar its
      nine slots. */
  lemma PickUpConserves(dropped: ItemStack, slots: seq<ItemStack>)
    requires Sized(dropped) && AllSized(slots)
    ensures var p := PickUp(dropped, slots);
      p.Picked? ==> && |p.slots| == |slots| && Sized(p.dropped) && AllSized(p.slots)
                    && p.dropped.size + TotalSize(p.slots) == dropped.size + TotalSize(slots)
  {
    var (d1, s1) := Fill(dropped, slots, true, 0);
    FillConserves(dropped, slots, true, 0);
    FillConserves(d1, s1, false, 0);
  }

  /** A slot holding another item is never touched. */
  lemma PickUpKeepsOtherItems(dropped: ItemStack, slots: seq<ItemStack>)
    requires Sized(dropped) && AllSized(slots)
    ensures var p := PickUp(dropped, slots);
      p.Picked? ==> forall i :: 0 <= i < |slots| && !IsEmpty(slots[i]) && slots[i].item != dropped.item ==>
        i < |p.slots| && p.slots[i] == slots[i]
  {
    var (d1, s1) := Fill(dropped, slots, true, 0);
    FillConserves(dropped, slots, true, 0);
    FillEffect(dropped, slots, true, 0);
    if !IsEmpty(d1) {
      FillEffect(d1, s1, false, 0);
    }
  }

  /** Something is left on the ground only when the hotbar cannot take more of it: every
      slot then holds an item, and every slot holding the dropped item is full. */
  lemma PickUpLeavesOnlyWhenFull(dropped: ItemStack, slots: seq<ItemStack>)
    requires Sized(dropped) && AllSized(slots)
    ensures var p := PickUp(dropped, slots);
      p.Picked? && !IsEmpty(p.dropped) ==> forall i :: 0 <= i < |p.slots| ==>
        !IsEmpty(p.slots[i]) && (p.slots[i].item == dropped.item ==> p.slots[i].size == p.slots[i].capacity)
  {
    var p := PickUp(dropped, slots);
    var (d1, s1) := Fill(dropped, slots, true, 0);
    FillConserves(dropped, slots, true, 0);
    if p.Picked? && !IsEmpty(d1) {
      FillEffect(dropped, slots, true, 0);
      var (d2, s2) := Fill(d1, s1, false, 0);
      FillConserves(d1, s1, false, 0);
      FillEffect(d1, s1, false, 0);
      if !IsEmpty(d2) {
        forall i | 0 <= i < |s2|
          ensures !IsEmpty(s2[i]) && (s2[i].item == dropped.item ==> s2[i].size == s2[i].capacity)
        {
          if !IsEmpty(s1[i]) {
            assert s2[i] == s1[i];
            if s1[i].item == dropped.item && s1[i] == slots[i] {
              assert Eligible(slots[i], dropped, true);
            }
          }
        }
      }
    }
  }

  /** When the hotbar has room, picking takes at least one item from a non-empty stack, so
      the hotbar is never changed for nothing. */
  lemma PickUpProgress(dropped: ItemStack, slots: seq<ItemStack>)
    requires Sized(dropped) && AllSized(slots) && dropped.size > 0
    ensures var p := PickUp(dropped, slots);
      p.Picked? <==> HasRoom(slots, dropped)
    ensures var p := PickUp(dropped, slots);
      p.Picked? ==> p.dropped.size < dropped.size
  {
    if HasRoom(slots, dropped) {
      var i :| 0 <= i < |slots| && Room(slots[i], dropped);
      var (d1, s1) := Fill(dropped, slots, true, 0);
      FillConserves(dropped, slots, true, 0);
      FillNoProgress(dropped, slots, true, 0);
      FillConserves(d1, s1, false, 0);
      if d1.size == dropped.size {
        assert IsEmpty(slots[i]) by {
          if !IsEmpty(slots[i]) {
            assert Eligible(slots[i], dropped, true);
          }
        }
        FillEffect(dropped, slots, true, 0);
        assert s1[i] == slots[i];
        FillNoProgress(d1, s1, false, 0);
        assert Eligible(s1[i], d1, false);
      }
    }
  }

  /** `pick_up_items` for one player from the `k`-th dropped item of the chunk on: each
      nearby stack is picked up in turn, an emptied one is listed for despawning, and the first
      stack the hotbar has no room for ends the scan. Returns the hotbar slots, the dropped
      stacks and the despawned indices. */
  function PickUpFrom(slots: seq<ItemStack>, items: seq<ItemStack>, near: seq<bool>, k: nat, despawned: seq<nat>)
    : (seq<ItemStack>, seq<ItemStack>, seq<nat>)
    requires AllSized(slots) && AllSized(items) && |near| == |items| && k <= |items|
    decreases |items| - k
  {
    if k == |items| then (slots, items, despawned)
    else if !near[k] then PickUpFrom(slots, items, near, k + 1, despawned)
    else
      PickUpConserves(items[k], slots);
      match PickUp(items[k], slots)
        case NoRoom => (slots, items, despawned)
        case Picked(d, s) => PickUpFrom(s, items[k := d], near, k + 1, if IsEmpty(d) then despawned + [k] else despawned)
  }

  /** `pick_up_items` for one player, over the dropped items of the player's chunk. Returns
      the indices of the stacks despawned, in order. */
  method PickUpItems(hotbar: Hotbar, items: array<ItemStack>, near: seq<bool>) returns (despawned: seq<nat>)
    requires AllSized(hotbar.items) && AllSized(items[..]) && |near| == items.Length
    modifies hotbar, items
    ensures (hotbar.items, items[..], despawned) == PickUpFrom(old(hotbar.items), old(items[..]), near, 0, [])
    ensures hotbar.equippedItem == old(hotbar.equippedItem)
  {
    despawned := [];
    var k := 0;
    while k < items.Length
      invariant k <= items.Length
      invariant AllSized(hotbar.items) && AllSized(items[..])
      invariant PickUpFrom(hotbar.items, items[..], near, k, despawned) == PickUpFrom(old(hotbar.items), old(items[..]), near, 0, [])
      invariant hotbar.equippedItem == old(hotbar.equippedItem)
    {
      if !near[k] {
        k := k + 1;
        continue;
      }
      PickUpConserves(items[k], hotbar.items);
      var room, rest := PickUpItem(hotbar, items[k]);
      if !room {
        return;
      }
      items[k] := rest;
      if IsEmpty(rest) {
        despawned := despawned + [k];
      }
      k := k + 1;
    }
  }

  /** Over a whole scan no item is created or lost between the hotbar and the ground, and
      every stack stays within its bounds. */
  lemma {:induction false} PickUpFromConserves(slots: seq<ItemStack>, items: seq<ItemStack>, near: seq<bool>, k: nat, despawned: seq<nat>)
    requires AllSized(slots) && AllSized(items) && |near| == |items| && k <= |items|
    ensures var (s, it, _) := PickUpFrom(slots, items, near, k, despawned);
      && |s| == |slots| && |it| == |items| && AllSized(s) && AllSized(it)
      && TotalSize(s) + TotalSize(it) == TotalSize(slots) + TotalSize(items)
    decreases |items| - k
  {
    if k < |items| {
      if !near[k] {
        PickUpFromConserves(slots, items, near, k + 1, despawned);
      } else {
        PickUpConserves(items[k], slots);
        var p := PickUp(items[k], slots);
        if p.Picked? {
          TotalSizeUpdate(items, k, p.dropped);
          PickUpFromConserves(p.slots, items[k := p.dropped], near, k + 1, if IsEmpty(p.dropped) then despawned + [k] else despawned);
        }
      }
    }
  }

  /** Stacks out of reach, and those before the scan position, are never touched. */
  lemma {:induction false} PickUpFromKeepsFarItems(slots: seq<ItemStack>, items: seq<ItemStack>, near: seq<bool>, k: nat, despawned: seq<nat>)
    requires AllSized(slots) && AllSized(items) && |near| == |items| && k <= |items|
    ensures var (_, it, _) := PickUpFrom(slots, items, near, k, despawned);
      && |it| == |items|
      && forall j :: 0 <= j < |items| && (j < k || !near[j]) ==> it[j] == items[j]
    decreases |items| - k
  {
    if k < |items| {
      if !near[k] {
        PickUpFromKeepsFarItems(slots, items, near, k + 1, despawned);
      } else {
        PickUpConserves(items[k], slots);
        var p := PickUp(items[k], slots);
        if p.Picked? {
          PickUpFromKeepsFarItems(p.slots, items[k := p.dropped], near, k + 1, if IsEmpty(p.dropped) then despawned + [k] else despawned);
        }
      }
    }
  }

  /** The despawned list grows by the indices of nearby stacks that were emptied, in
      increasing order. */
  lemma {:induction false} PickUpFromDespawns(slots: seq<ItemStack>, items: seq<ItemStack>, near: seq<bool>, k: nat, despawned: seq<nat>)
    requires AllSized(slots) && AllSized(items) && |near| == |items| && k <= |items|
    ensures var (_, it, d) := PickUpFrom(slots, items, near, k, despawned);
      && |it| == |items|
      && |despawned| <= |d| && d[..|despawned|] == despawned
      && (forall m :: |despawned| <= m < |d| ==> k <= d[m] < |items| && near[d[m]] && IsEmpty(it[d[m]]))
      && (forall m, m' :: |despawned| <= m < m' < |d| ==> d[m] < d[m'])
    decreases |items| - k
  {
    PickUpFromKeepsFarItems(slots, items, near, k, despawned);
    if k < |items| {
      if !near[k] {
        PickUpFromDespawns(slots, items, near, k + 1, despawned);
      } else {
        PickUpConserves(items[k], slots);
        var p := PickUp(items[k], slots);
        if p.Picked? {
          var next := if IsEmpty(p.dropped) then despawned + [k] else despawned;
          PickUpFromDespawns(p.slots, items[k := p.dropped], near, k + 1, next);
          var (_, it, d) := PickUpFrom(p.slots, items[k := p.dropped], near, k + 1, next);
          assert d[..|despawned|] == next[..|despawned|];
          if IsEmpty(p.dropped) {
            PickUpFromKeepsFarItems(p.slots, items[k := p.dropped], near, k + 1, next);
            assert d[|despawned|] == k && it[k] == p.dropped;
          }
        }
      }
    }
  }

  /** Conversely, every stack the scan empties is despawned: a stack that was not empty and
      is empty afterwards has its index in the despawned list. */
  lemma {:induction false} PickUpFromDespawnsEmptied(slots: seq<ItemStack>, items: seq<ItemStack>, near: seq<bool>, k: nat, despawned: seq<nat>)
    requires AllSized(slots) && AllSized(items) && |near| == |items| && k <= |items|
    ensures var (_, it, d) := PickUpFrom(slots, items, near, k, despawned);
      forall j :: k <= j < |items| && j < |it| && !IsEmpty(items[j]) && IsEmpty(it[j]) ==> j in d
    decreases |items| - k
  {
    PickUpFromKeepsFarItems(slots, items, near, k, despawned);
    if k < |items| {
      if !near[k] {
        PickUpFromDespawnsEmptied(slots, items, near, k + 1, despawned);
      } else {
        PickUpConserves(items[k], slots);
        var p := PickUp(items[k], slots);
        if p.Picked? {
          var items' := items[k := p.dropped];
          var next := if IsEmpty(p.dropped) then despawned + [k] else despawned;
          PickUpFromDespawnsEmptied(p.slots, items', near, k + 1, next);
          PickUpFromDespawns(p.slots, items', near, k + 1, next);
          PickUpFromKeepsFarItems(p.slots, items', near, k + 1, next);
          var (_, it, d) := PickUpFrom(p.slots, items', near, k + 1, next);
          forall j | k < j < |items| && !IsEmpty(items[j]) && IsEmpty(it[j])
            ensures j in d
          {
            assert items'[j] == items[j];
          }
          if IsEmpty(p.dropped) {
            assert d[|despawned|] == next[|despawned|] == k;
          } else {
            assert it[k] == p.dropped;
          }
        }
      }
    }
  }
}
