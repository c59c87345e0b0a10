/** Item stacks, the per-item use buffer and the registry of usable items (src/items/mod.rs).
    `ItemStack` itself belongs to the fmc library; its behaviour here is the assumed contract
    of `size`, `is_empty`, `remaining_capacity`, `take` and `transfer_to`. */
module Items {
  import opened Wrappers

  type Entity = nat
  type ItemId = nat

  /** A stack of `size` items of kind `item`, holding at most `capacity`. */
  datatype ItemStack = ItemStack(item: Option<ItemId>, size: nat, capacity: nat)

  /** `ItemStack::default()`: no item. */
  function EmptyStack(): ItemStack {
    ItemStack(None, 0, 0)
  }

  /** A stack holds an item exactly when it is non-empty, and never more than its capacity. */
  predicate ValidStack(s: ItemStack) {
    (s.item.None? <==> s.size == 0) && s.size <= s.capacity
  }

  predicate IsEmpty(s: ItemStack) {
    s.size == 0
  }

  function RemainingCapacity(s: ItemStack): nat
    requires s.size <= s.capacity
  {
    s.capacity - s.size
  }

  function Min(a: nat, b: nat): nat {
    if a <= b then a else b
  }

  /** Removes `n` items (at most all of them); an emptied stack forgets its item. */
  function Take(s: ItemStack, n: nat): (r: ItemStack)
    ensures r.size == s.size - Min(n, s.size)
    ensures r.capacity == s.capacity
    ensures r.size == 0 ==> r.item.None?
    ensures r.size > 0 ==> r.item == s.item
    ensures ValidStack(s) ==> ValidStack(r)
  {
    var k := Min(n, s.size);
    if k == s.size then ItemStack(None, 0, s.capacity) else ItemStack(s.item, s.size - k, s.capacity)
  }

  /** The assumed contract of `transfer_to(dst, limit)`: items move only into an empty stack
      (which adopts the item and its capacity) or a stack of the same item, and as many move as
      the limit, the source and the destination's remaining capacity allow. */
  function Transfer(src: ItemStack, dst: ItemStack, limit: nat): (ItemStack, ItemStack)
  {
    if !IsEmpty(dst) && dst.item != src.item then (src, dst)
    else
      var cap := if IsEmpty(dst) then src.capacity else dst.capacity;
      var n := Min(limit, Min(src.size, if dst.size <= cap then cap - dst.size else 0));
      if n == 0 then (src, dst)
      else (Take(src, n), ItemStack(src.item, dst.size + n, cap))
  }

  /** A transfer never creates or destroys items, keeps both stacks valid, only fills a
      destination that was empty or held the same item, and stops only when the source is
      empty, the limit is reached or the destination is full. */
  lemma TransferConserves(src: ItemStack, dst: ItemStack, limit: nat)
    requires ValidStack(src) && ValidStack(dst)
    ensures var (s, d) := Transfer(src, dst, limit);
      && s.size + d.size == src.size + dst.size
      && ValidStack(s) && ValidStack(d)
      && s.size <= src.size
      && (s != src ==> IsEmpty(dst) || dst.item == src.item)
      && (d.size > 0 ==> d.item == (if IsEmpty(dst) then src.item else dst.item))
      && (!IsEmpty(dst) && dst.item != src.item ==> s == src && d == dst)
      && (s.size > 0 && (IsEmpty(dst) || dst.item == src.item) ==>
            src.size - s.size == limit || d.size == d.capacity)
  {
  }

  /** `ItemRegistry`: the entity holding the `ItemUses` of each usable item. */
  type ItemRegistry = map<ItemId, Entity>

  /** `ItemUses`: the players that used an item during the last tick, in order. */
  class ItemUses {
    var uses: seq<Entity>

    /** `ItemUses::default()`. */
    constructor ()
      ensures uses == []
    {
      uses := [];
    }

    /** `push`: appends the player, keeping the earlier entries. */
    method Push(player: Entity)
      modifies this
      ensures uses == old(uses) + [player]
    {
      uses := uses + [player];
    }

    /** `read`: yields every entry in push order and leaves the buffer empty. */
    method Read() returns (drained: seq<Entity>)
      modifies this
      ensures drained == old(uses) && uses == []
    {
      drained := uses;
      uses := [];
    }
  }

  /** Draining after a series of pushes yields exactly the pushed players, in order. */
  method PushThenRead(players: seq<Entity>) returns (drained: seq<Entity>)
    ensures drained == players
  {
    var buffer := new ItemUses();
    var i := 0;
    while i < |players|
      invariant i <= |players|
      invariant buffer.uses == players[..i]
    {
      buffer.Push(players[i]);
      i := i + 1;
    }
    drained := buffer.Read();
    assert players[..|players|] == players;
  }
}
