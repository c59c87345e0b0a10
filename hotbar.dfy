/** The hotbar interface (src/players/hotbar.rs): showing it to new players, sending the
    slots when they change, and equipping a slot on the client's request. */
module HotbarInterface {
  import opened Wrappers
  import opened Items
  import opened Players

  /** `messages::InterfaceVisibilityUpdate`. */
  datatype VisibilityUpdate = VisibilityUpdate(interfacePath: string, visible: bool)

  /** `initialize_interface`: every new player is sent exactly one update making the hotbar
      visible. */
  method InitializeInterface(newPlayers: seq<Entity>) returns (sent: seq<(Entity, VisibilityUpdate)>)
    ensures |sent| == |newPlayers|
    ensures forall i :: 0 <= i < |sent| ==> sent[i] == (newPlayers[i], VisibilityUpdate("hotbar", true))
  {
    sent := [];
    for i := 0 to |newPlayers|
      invariant |sent| == i
      invariant forall k :: 0 <= k < i ==> sent[k] == (newPlayers[k], VisibilityUpdate("hotbar", true))
    {
      sent := sent + [(newPlayers[i], VisibilityUpdate("hotbar", true))];
    }
  }

  /** One item box of `messages::InterfaceItemBoxUpdate`: an empty box, or the item and
      the stack size. */
  datatype ItemBox = ItemBox(interfacePath: string, index: nat, contents: Option<(ItemId, nat)>)

  /** The boxes describe the slots: one box per slot, in slot order, each carrying its slot
      index; an empty slot gives an empty box, any other the item id and the stack size. */
  predicate DescribesSlots(boxes: seq<ItemBox>, slots: seq<ItemStack>) {
    |boxes| == |slots| &&
    forall i :: 0 <= i < |boxes| ==>
      && boxes[i].interfacePath == "hotbar" && boxes[i].index == i
      && (slots[i].item.None? <==> boxes[i].contents.None?)
      && (slots[i].item.Some? ==> boxes[i].contents == Some((slots[i].item.value, slots[i].size)))
  }

  /** The update `send_server_updates` builds for one changed hotbar. */
  method ItemBoxes(hotbar: Hotbar) returns (boxes: seq<ItemBox>)
    ensures DescribesSlots(boxes, hotbar.items)
  {
    boxes := [];
    var i := 0;
    while i < |hotbar.items|
      invariant i <= |hotbar.items|
      invariant DescribesSlots(boxes, hotbar.items[..i])
    {
      var stack := hotbar.items[i];
      if stack.item.Some? {
        boxes := boxes + [ItemBox("hotbar", i, Some((stack.item.value, stack.size)))];
      } else {
        boxes := boxes + [ItemBox("hotbar", i, None)];
      }
      i := i + 1;
    }
    assert hotbar.items[..i] == hotbar.items;
  }

  /** `send_server_updates`: one update per changed hotbar, sent to its player. */
  method SendServerUpdates(changed: seq<(Entity, Hotbar)>) returns (sent: seq<(Entity, seq<ItemBox>)>)
    ensures |sent| == |changed|
    ensures forall i :: 0 <= i < |sent| ==> sent[i].0 == changed[i].0 && DescribesSlots(sent[i].1, changed[i].1.items)
  {
    sent := [];
    for i := 0 to |changed|
      invariant |sent| == i
      invariant forall k :: 0 <= k < i ==> sent[k].0 == changed[k].0 && DescribesSlots(sent[k].1, changed[k].1.items)
    {
      var boxes := ItemBoxes(changed[i].1);
      sent := sent + [(changed[i].0, boxes)];
    }
  }

  /** `messages::InterfaceEquipItem` from a client. */
  datatype EquipEvent = EquipEvent(player: Entity, interfacePath: string, index: nat)

  /** The equipped slot of `player` after the events: events are handled in order until the
      first one for another interface, which ends the batch; an index above 8 is refused, any
      other index is equipped. */
  function Equipped(events: seq<EquipEvent>, player: Entity, current: nat): nat
    decreases |events|
  {
    if events == [] || events[0].interfacePath != "hotbar" then current
    else if events[0].index > 8 then Equipped(events[1..], player, current)
    else Equipped(events[1..], player, if events[0].player == player then events[0].index else current)
  }

  /** The players disconnected for asking for a slot above 8, in order. */
  function Disconnected(events: seq<EquipEvent>): seq<Entity>
    decreases |events|
  {
    if events == [] || events[0].interfacePath != "hotbar" then []
    else if events[0].index > 8 then [events[0].player] + Disconnected(events[1..])
    else Disconnected(events[1..])
  }

  /** `equip_item`. Each player's `Hotbar` is a distinct object, and every event comes from a
      player with a hotbar (the source unwraps the lookup). Returns the players disconnected. */
  method EquipItem(events: seq<EquipEvent>, hotbars: map<Entity, Hotbar>) returns (disconnected: seq<Entity>)
    requires forall i :: 0 <= i < |events| ==> events[i].player in hotbars
    requires forall a, b :: a in hotbars && b in hotbars && a != b ==> hotbars[a] != hotbars[b]
    modifies set p | p in hotbars :: hotbars[p]
    ensures forall p :: p in hotbars ==>
      hotbars[p].equippedItem == Equipped(events, p, old(hotbars[p].equippedItem)) &&
      hotbars[p].items == old(hotbars[p].items)
    ensures disconnected == Disconnected(events)
  {
    disconnected := [];
    var i := 0;
    while i < |events|
      invariant i <= |events|
      invariant forall p :: p in hotbars ==>
        Equipped(events, p, old(hotbars[p].equippedItem)) == Equipped(events[i..], p, hotbars[p].equippedItem) &&
        hotbars[p].items == old(hotbars[p].items)
      invariant disconnected + Disconnected(events[i..]) == Disconnected(events)
    {
      var event := events[i];
      assert events[i..][1..] == events[i + 1..];
      if event.interfacePath != "hotbar" {
        assert Disconnected(events[i..]) == [];
        return;
      }
      if event.index > 8 {
        disconnected := disconnected + [event.player];
        i := i + 1;
        continue;
      }
      var hotbar := hotbars[event.player];
      hotbar.equippedItem := event.index;
      i := i + 1;
    }
  }

  /** The equipped slot stays within the nine slots: the default is slot 0, and only indices
      up to 8 are ever equipped. */
  lemma {:induction false} EquippedStaysInRange(events: seq<EquipEvent>, player: Entity, current: nat)
    requires current < HOTBAR_SLOTS
    ensures Equipped(events, player, current) < HOTBAR_SLOTS
    decreases |events|
  {
    if events != [] && events[0].interfacePath == "hotbar" {
      EquippedStaysInRange(events[1..], player, if events[0].index <= 8 && events[0].player == player then events[0].index else current);
    }
  }

  /** An event for another interface ends the batch: nothing after it is handled. */
  lemma {:induction false} ForeignEventEndsBatch(events: seq<EquipEvent>, k: nat, player: Entity, current: nat)
    requires k < |events| && events[k].interfacePath != "hotbar"
    ensures Equipped(events, player, current) == Equipped(events[..k], player, current)
    ensures Disconnected(events) == Disconnected(events[..k])
    decreases k
  {
    if k > 0 && events[0].interfacePath == "hotbar" {
      assert events[1..][..k - 1] == events[..k][1..];
      ForeignEventEndsBatch(events[1..], k - 1, player, if events[0].index <= 8 && events[0].player == player then events[0].index else current);
    }
  }

  /** A refused index disconnects the player and leaves every equipped slot as it was; an
      accepted one equips exactly that slot. */
  lemma SingleEquipEvent(event: EquipEvent, player: Entity, current: nat)
    requires event.interfacePath == "hotbar"
    ensures event.index > 8 ==> Equipped([event], player, current) == current && Disconnected([event]) == [event.player]
    ensures event.index <= 8 ==> Equipped([event], event.player, current) == event.index && Disconnected([event]) == []
  {
    assert [event][1..] == [];
  }
}
