/** Which slot store `onScreenSlotChange` reports on (main.go lines
    136-154). Slot contents are left abstract: a container is known only by
    its kind and its number of slots. */
module ScreenRouting {

  /** The window id go-mc uses for the player's own inventory. */
  const InventoryId: int := -2
  /** The window id and slot index that together denote the cursor slot. */
  const CursorId: int := -1
  const CursorIndex: int := -1

  /** An open screen: a `*screen.Inventory` with its number of slots, or a
      screen of any other type. */
  datatype Container = InventoryContainer(slots: nat) | OtherContainer

  /** What the screen manager holds: the player's inventory slot count and
      the open screens by window id. */
  datatype Screens = Screens(inventorySlots: nat, open: map<int, Container>)

  /** The slot a change resolves to, or `Ignored` when the hook looks at
      nothing. */
  datatype SlotTarget =
    | Inventory(index: int)
    | Cursor
    | ScreenSlot(id: int, index: int)
    | Ignored

  /** The open screen `id` is a `*screen.Inventory`. */
  predicate IsInventoryScreen(s: Screens, id: int) {
    id in s.open && s.open[id].InventoryContainer?
  }

  /** The hook indexes a slot array in two branches; an index outside that
      array would make Go panic, so the model asks for it to be in range
      there. Elsewhere any index is accepted. */
  predicate IndexInRange(s: Screens, id: int, index: int) {
    && (id == InventoryId ==> 0 <= index < s.inventorySlots)
    && (id != InventoryId && !(id == CursorId && index == CursorIndex) && IsInventoryScreen(s, id)
        ==> 0 <= index < s.open[id].slots)
  }

  /** The routing of `onScreenSlotChange`: -2 is the inventory, (-1, -1) the
      cursor, anything else a lookup among the open screens that only an
      inventory-typed screen answers. */
  function Route(s: Screens, id: int, index: int): (t: SlotTarget)
    requires IndexInRange(s, id, index)
    ensures t.Inventory? <==> id == InventoryId
    ensures t.Cursor? <==> id == CursorId && index == CursorIndex
    ensures t.ScreenSlot? <==>
      id != InventoryId && !(id == CursorId && index == CursorIndex) && IsInventoryScreen(s, id)
    ensures !t.Ignored? ==> ValidTarget(s, t) && Address(t) == (id, index)
  {
    if id == InventoryId then Inventory(index)
    else if id == CursorId && index == CursorIndex then Cursor
    else if id in s.open then
      match s.open[id]
      case InventoryContainer(_) => ScreenSlot(id, index)
      case OtherContainer => Ignored
    else Ignored
  }

  /** A slot that some change can resolve to. */
  predicate ValidTarget(s: Screens, t: SlotTarget) {
    match t
    case Inventory(i) => 0 <= i < s.inventorySlots
    case Cursor => true
    case ScreenSlot(id, i) =>
      id != InventoryId && !(id == CursorId && i == CursorIndex)
      && IsInventoryScreen(s, id) && 0 <= i < s.open[id].slots
    case Ignored => false
  }

  /** The (window id, slot index) pair that names a slot. */
  function Address(t: SlotTarget): (int, int)
    requires !t.Ignored?
  {
    match t
    case Inventory(i) => (InventoryId, i)
    case Cursor => (CursorId, CursorIndex)
    case ScreenSlot(id, i) => (id, i)
  }

  /** Every slot the hook can report is reached from its own address, so
      the routing loses nothing and confuses no two slots. */
  lemma RouteAddressRoundTrip(s: Screens, t: SlotTarget)
    requires ValidTarget(s, t)
    ensures IndexInRange(s, Address(t).0, Address(t).1)
    ensures Route(s, Address(t).0, Address(t).1) == t
  {
  }

  /** Window id -2 is the inventory whatever the index, and never a screen
      lookup, even when a screen is open under that id. */
  lemma InventoryWins(s: Screens, index: int)
    requires 0 <= index < s.inventorySlots
    ensures Route(s, InventoryId, index) == Inventory(index)
  {
  }

  /** Window id -1 with an index other than -1 is not the cursor: it falls
      through to the lookup among the open screens. */
  lemma MinusOneFallsThrough(s: Screens, index: int)
    requires index != CursorIndex && IndexInRange(s, CursorId, index)
    ensures Route(s, CursorId, index) ==
      if IsInventoryScreen(s, CursorId) then ScreenSlot(CursorId, index) else Ignored
  {
  }

  /** An id that is not open, or whose screen is not an inventory, has no
      effect whatever the index. */
  lemma UnknownScreenIgnored(s: Screens, id: int, index: int)
    requires id != InventoryId && !(id == CursorId && index == CursorIndex)
    requires !IsInventoryScreen(s, id)
    ensures IndexInRange(s, id, index)
    ensures Route(s, id, index) == Ignored
  {
  }
}
