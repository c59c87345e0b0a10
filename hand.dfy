/** Right-clicking with the hand (src/players/hand.rs): interacting with an entity, placing the
    held block, or using the held item, tried in that order. Block and item configuration,
    the world map and the player's targets belong to the fmc library and are parameters. */
module Hand {
  import opened Wrappers
  import opened Items
  import opened Players
  import Materializer

  type BlockId = Materializer.BlockId

  datatype BlockFace = Front | Back | Right | Left | Top | Bottom

  /** What the block configurations say about a block id. */
  datatype BlockConfigs = BlockConfigs(
    solid: BlockId -> bool,
    isReplaceable: BlockId -> bool,
    placeable: (BlockId, BlockFace) -> bool,
    hasHardness: BlockId -> bool)

  /** The loaded world: the block at a position, if its chunk is loaded, and the neighbouring
      position across a face. */
  datatype World = World(blockAt: BlockPosition -> Option<BlockId>, shift: (BlockFace, BlockPosition) -> BlockPosition)

  /** `block_placement`: the block the held item places, and where, when the player clicks
      face `face` of block `blockId` at `position`; `itemBlock` is the block an item is bound
      to. */
  function BlockPlacement(held: ItemStack, blockId: BlockId, face: BlockFace, position: BlockPosition,
                          itemBlock: ItemId -> Option<BlockId>, blocks: BlockConfigs, world: World)
    : (r: Option<(BlockId, BlockPosition)>)
    ensures !blocks.solid(blockId) ==> r.None?
    ensures held.item.None? ==> r.None?
    ensures held.item.Some? && itemBlock(held.item.value).None? ==> r.None?
    ensures r.Some? ==> held.item.Some? && itemBlock(held.item.value) == Some(r.value.0)
    ensures r.Some? ==> blocks.placeable(r.value.0, face)
    ensures r.Some? && blocks.isReplaceable(blockId) ==> r.value.1 == position
    ensures r.Some? && !blocks.isReplaceable(blockId) ==>
      && r.value.1 == world.shift(face, position)
      && world.blockAt(r.value.1).Some? && blocks.isReplaceable(world.blockAt(r.value.1).value)
    ensures blocks.solid(blockId) && held.item.Some? && itemBlock(held.item.value).Some?
      && blocks.placeable(itemBlock(held.item.value).value, face)
      && (blocks.isReplaceable(blockId) ||
          (world.blockAt(world.shift(face, position)).Some? &&
           blocks.isReplaceable(world.blockAt(world.shift(face, position)).value)))
      ==> r.Some?
  {
    if !blocks.solid(blockId) then None
    else if held.item.None? then None
    else match itemBlock(held.item.value)
      case None => None
      case Some(newBlock) =>
        if !blocks.placeable(newBlock, face) then None
        else if blocks.isReplaceable(blockId) then Some((newBlock, position))
        else match world.blockAt(world.shift(face, position))
          case None => None
          case Some(neighbour) =>
            if !blocks.isReplaceable(neighbour) then None
            else Some((newBlock, world.shift(face, position)))
  }

  /** A target of the player's gaze: an entity, or a block with the face looked at and the
      entity attached to the block, if any. */
  datatype Target =
    | EntityTarget(entity: Entity)
    | BlockTarget(position: BlockPosition, blockId: BlockId, face: BlockFace, blockEntity: Option<Entity>)

  /** `Target::entity`: the entity of an entity target, or the block's entity. */
  function TargetEntity(t: Target): Option<Entity> {
    match t
      case EntityTarget(e) => Some(e)
      case BlockTarget(_, _, _, e) => e
  }

  /** The target has an entity with `HandInteractions`. */
  predicate Interactable(t: Target, interactable: set<Entity>) {
    TargetEntity(t).Some? && TargetEntity(t).value in interactable
  }

  /** `BlockUpdate::Change`, without the block state. */
  datatype BlockUpdate = BlockUpdate(position: BlockPosition, blockId: BlockId)

  /** `HandInteractions`: the players that right-clicked the entity, in order. */
  class HandInteractions {
    var players: seq<Entity>

    constructor ()
      ensures players == []
    {
      players := [];
    }

    /** `push`: appends the player, keeping the earlier entries. */
    method Push(player: Entity)
      modifies this
      ensures players == old(players) + [player]
    {
      players := players + [player];
    }

    /** `read`: yields every entry in push order and leaves the buffer empty. */
    method Read() returns (drained: seq<Entity>)
      modifies this
      ensures drained == old(players) && players == []
    {
      drained := players;
      players := [];
    }
  }

  /** Target `i` has entity `e`, and no earlier target has an entity with `HandInteractions`. */
  predicate FirstAt(targets: seq<Target>, interactable: set<Entity>, i: nat, e: Entity)
    requires i < |targets|
  {
    && TargetEntity(targets[i]) == Some(e)
    && forall k :: 0 <= k < i ==> !Interactable(targets[k], interactable)
  }

  /** The entity of the first target whose entity has `HandInteractions`. */
  function FirstInteractable(targets: seq<Target>, interactable: set<Entity>): (r: Option<Entity>)
    ensures r.None? <==> forall i :: 0 <= i < |targets| ==> !Interactable(targets[i], interactable)
    ensures r.Some? ==> r.value in interactable && exists i :: 0 <= i < |targets| && FirstAt(targets, interactable, i, r.value)
  {
    if targets == [] then None
    else if Interactable(targets[0], interactable) then
      assert FirstAt(targets, interactable, 0, TargetEntity(targets[0]).value);
      Some(TargetEntity(targets[0]).value)
    else
      var r := FirstInteractable(targets[1..], interactable);
      assert forall i :: 1 <= i < |targets| ==> targets[i] == targets[1..][i - 1];
      assert r.Some? ==> exists i :: 1 <= i < |targets| && FirstAt(targets, interactable, i, r.value) by {
        if r.Some? {
          var i :| 0 <= i < |targets[1..]| && FirstAt(targets[1..], interactable, i, r.value);
          assert FirstAt(targets, interactable, i + 1, r.value);
        }
      }
      r
  }

  /** A block target whose block has a hardness. */
  predicate HardBlock(t: Target, blocks: BlockConfigs) {
    t.BlockTarget? && blocks.hasHardness(t.blockId)
  }

  /** Target `i` is `t`, a hard block, and no earlier target is a hard block. */
  predicate FirstHardAt(targets: seq<Target>, blocks: BlockConfigs, i: nat, t: Target)
    requires i < |targets|
  {
    && targets[i] == t
    && HardBlock(t, blocks)
    && forall k :: 0 <= k < i ==> !HardBlock(targets[k], blocks)
  }

  /** `Targets::get_first_block` with the hardness test: the first block target whose block
      has a hardness. */
  function FirstHardBlock(targets: seq<Target>, blocks: BlockConfigs): (r: Option<Target>)
    ensures r.Some? ==> r.value in targets && r.value.BlockTarget? && blocks.hasHardness(r.value.blockId)
    ensures r.None? <==> forall i :: 0 <= i < |targets| && targets[i].BlockTarget? ==> !blocks.hasHardness(targets[i].blockId)
    ensures r.Some? ==> exists i :: 0 <= i < |targets| && FirstHardAt(targets, blocks, i, r.value)
  {
    if targets == [] then None
    else if HardBlock(targets[0], blocks) then
      assert FirstHardAt(targets, blocks, 0, targets[0]);
      Some(targets[0])
    else
      var r := FirstHardBlock(targets[1..], blocks);
      assert forall i :: 1 <= i < |targets| ==> targets[i] == targets[1..][i - 1];
      assert r.Some? ==> exists i :: 1 <= i < |targets| && FirstHardAt(targets, blocks, i, r.value) by {
        if r.Some? {
          var i :| 0 <= i < |targets[1..]| && FirstHardAt(targets[1..], blocks, i, r.value);
          assert FirstHardAt(targets, blocks, i + 1, r.value);
        }
      }
      r
  }

  /** What a right click does. */
  datatype Action =
    | Interact(entity: Entity)
    | Place(blockId: BlockId, position: BlockPosition)
    | Use(usesEntity: Entity)
    | NoAction

  /** The placement the player's first hard block target allows, if any. */
  function TargetPlacement(held: ItemStack, targets: seq<Target>, itemBlock: ItemId -> Option<BlockId>,
                           blocks: BlockConfigs, world: World): Option<(BlockId, BlockPosition)>
  {
    match FirstHardBlock(targets, blocks)
      case None => None
      case Some(t) => BlockPlacement(held, t.blockId, t.face, t.position, itemBlock, blocks, world)
  }

  /** The decision of `handle_right_clicks`: interacting comes first, then placing a block,
      then using the held item; a click that allows none of them does nothing. */
  function Decide(held: ItemStack, targets: seq<Target>, interactable: set<Entity>, registry: ItemRegistry,
                  itemBlock: ItemId -> Option<BlockId>, blocks: BlockConfigs, world: World): (a: Action)
    ensures a.Interact? <==> FirstInteractable(targets, interactable).Some?
    ensures a.Interact? ==> a.entity == FirstInteractable(targets, interactable).value
    ensures a.Place? <==> !a.Interact? && TargetPlacement(held, targets, itemBlock, blocks, world).Some?
    ensures a.Place? ==> TargetPlacement(held, targets, itemBlock, blocks, world) == Some((a.blockId, a.position))
    ensures a.Use? <==> !a.Interact? && !a.Place? && held.item.Some? && held.item.value in registry
    ensures a.Use? ==> a.usesEntity == registry[held.item.value]
  {
    match FirstInteractable(targets, interactable)
      case Some(e) => Interact(e)
      case None =>
        match TargetPlacement(held, targets, itemBlock, blocks, world)
          case Some((b, p)) => Place(b, p)
          case None =>
            if held.item.Some? && held.item.value in registry then Use(registry[held.item.value])
            else NoAction
  }

  datatype ActionOrder = InteractOrder | PlaceBlockOrder | UseItemOrder

  function OrderRank(order: ActionOrder): nat {
    match order
      case InteractOrder => 2
      case PlaceBlockOrder => 1
      case UseItemOrder => 0
  }

  /** `handle_right_clicks` for one click of `player`. The entities with `HandInteractions`
      and with `ItemUses` are maps to distinct objects, and the registry only names entities
      with `ItemUses` (the source unwraps that lookup). The collision test before placing has
      no effect in the source (its `continue` only moves to the next collider), so placement
      proceeds regardless of entities in the way. Returns the block update sent, if any. */
  method HandleRightClick(player: Entity, hotbar: Hotbar, targets: seq<Target>,
                          interactions: map<Entity, HandInteractions>, uses: map<Entity, ItemUses>,
                          registry: ItemRegistry, itemBlock: ItemId -> Option<BlockId>,
                          blocks: BlockConfigs, world: World)
    returns (update: Option<BlockUpdate>)
    requires hotbar.EquippedInRange()
    requires forall id :: id in registry ==> registry[id] in uses
    requires forall a, b :: a in interactions && b in interactions && a != b ==> interactions[a] != interactions[b]
    requires forall a, b :: a in uses && b in uses && a != b ==> uses[a] != uses[b]
    modifies hotbar, set e | e in interactions :: interactions[e], set e | e in uses :: uses[e]
    ensures var a := Decide(old(hotbar.HeldItemStack()), targets, interactions.Keys, registry, itemBlock, blocks, world);
      && (a.Place? ==> update == Some(BlockUpdate(a.position, a.blockId)))
      && (!a.Place? ==> update == None)
      && hotbar.equippedItem == old(hotbar.equippedItem)
      && hotbar.items == (if a.Place? then old(hotbar.items)[hotbar.equippedItem := Take(old(hotbar.HeldItemStack()), 1)]
                          else old(hotbar.items))
      && (forall e :: e in interactions ==>
            interactions[e].players == old(interactions[e].players) + (if a == Interact(e) then [player] else []))
      && (forall e :: e in uses ==>
            uses[e].uses == old(uses[e].uses) + (if a == Use(e) then [player] else []))
  {
    ghost var held := hotbar.HeldItemStack();
    ghost var decision := Decide(held, targets, interactions.Keys, registry, itemBlock, blocks, world);
    update := None;
    var order := InteractOrder;
    while true
      invariant order != InteractOrder ==> FirstInteractable(targets, interactions.Keys).None?
      invariant order == UseItemOrder ==> TargetPlacement(held, targets, itemBlock, blocks, world).None?
      invariant hotbar.items == old(hotbar.items) && hotbar.equippedItem == old(hotbar.equippedItem)
      invariant forall e :: e in interactions ==> interactions[e].players == old(interactions[e].players)
      invariant forall e :: e in uses ==> uses[e].uses == old(uses[e].uses)
      invariant update == None
      decreases OrderRank(order)
    {
      match order
      case InteractOrder =>
        var i := 0;
        while i < |targets|
          invariant i <= |targets|
          invariant forall k :: 0 <= k < i ==> !Interactable(targets[k], interactions.Keys)
        {
          var entity := TargetEntity(targets[i]);
          if entity.None? {
            i := i + 1;
            continue;
          }
          if entity.value in interactions {
            assert FirstInteractable(targets, interactions.Keys) == Some(entity.value) by {
              FirstInteractableIsFirst(targets, interactions.Keys, i);
            }
            interactions[entity.value].Push(player);
            return;
          }
          i := i + 1;
        }
        order := PlaceBlockOrder;
      case PlaceBlockOrder =>
        var target := FirstHardBlock(targets, blocks);
        if target.None? {
          order := UseItemOrder;
          continue;
        }
        var equipped := hotbar.HeldItemStack();
        var placement := BlockPlacement(equipped, target.value.blockId, target.value.face, target.value.position, itemBlock, blocks, world);
        if placement.Some? {
          var (blockId, replaced) := placement.value;
          hotbar.SetHeldItemStack(Take(equipped, 1));
          update := Some(BlockUpdate(replaced, blockId));
          return;
        }
        order := UseItemOrder;
      case UseItemOrder =>
        var equipped := hotbar.HeldItemStack();
        if equipped.item.None? {
          return;
        }
        if equipped.item.value in registry {
          uses[registry[equipped.item.value]].Push(player);
        }
        return;
    }
  }

  /** The entity `FirstInteractable` finds is that of the first interactable target. */
  lemma {:induction false} FirstInteractableIsFirst(targets: seq<Target>, interactable: set<Entity>, i: nat)
    requires i < |targets| && Interactable(targets[i], interactable)
    requires forall k :: 0 <= k < i ==> !Interactable(targets[k], interactable)
    ensures FirstInteractable(targets, interactable) == TargetEntity(targets[i])
  {
    if i > 0 {
      assert forall k :: 0 <= k < i - 1 ==> targets[1..][k] == targets[k + 1];
      FirstInteractableIsFirst(targets[1..], interactable, i - 1);
    }
  }
}
