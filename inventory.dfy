/** The inventory panel (components/inventory/InventoryManager.tsx): a list
    of stock items held in component state, a stock adjustment that clamps
    at zero, a three-way stock status, the low-stock alert list and the
    total stock value. Prices are integer cents. */
module Inventory {
  import opened Common

  datatype Item = Item(
    id: string,
    name: string,
    category: string,
    currentStock: int,
    minStock: int,
    maxStock: int,
    price: int,
    supplier: string)

  datatype StockStatus = Low | High | Normal

  /** `getStockStatus` (lines 83-87). `currentStock >= maxStock * 0.8` is
      written over the integers as `5 * currentStock >= 4 * maxStock`. */
  function StatusOf(item: Item): (r: StockStatus)
    ensures r == Low <==> item.currentStock <= item.minStock
    ensures r == High <==> item.currentStock > item.minStock && 5 * item.currentStock >= 4 * item.maxStock
    ensures r == Normal <==> item.currentStock > item.minStock && 5 * item.currentStock < 4 * item.maxStock
  {
    if item.currentStock <= item.minStock then Low
    else if 5 * item.currentStock >= 4 * item.maxStock then High
    else Normal
  }

  /** The badge text of each status (lines 209-210). */
  function StatusLabel(status: StockStatus): (r: string)
    ensures r == "Low Stock" <==> status == Low
    ensures r == "Well Stocked" <==> status == High
    ensures r == "Normal" <==> status == Normal
  {
    match status
    case Low => "Low Stock"
    case High => "Well Stocked"
    case Normal => "Normal"
  }

  /** The badge variant of each status, `getStatusColor` (lines 89-95). */
  function StatusColor(status: StockStatus): (r: string)
    ensures r == "destructive" <==> status == Low
    ensures r == "secondary" <==> status == High
    ensures r == "outline" <==> status == Normal
  {
    match status
    case Low => "destructive"
    case High => "secondary"
    case Normal => "outline"
  }

  /** `Math.max(0, n)`. */
  function ClampAtZero(n: int): (r: nat)
    ensures r >= n && (n >= 0 ==> r == n)
    ensures n < 0 ==> r == 0
  {
    if n < 0 then 0 else n
  }

  /** `updateStock(id, change)` applied to a list (lines 76-80): every item
      with that id gets `max(0, currentStock + change)`, and nothing else
      changes, not even the order or the other fields. */
  function StockUpdated(inventory: seq<Item>, id: string, change: int): (r: seq<Item>)
    ensures |r| == |inventory|
    ensures forall i :: 0 <= i < |inventory| && inventory[i].id != id ==> r[i] == inventory[i]
    ensures forall i :: 0 <= i < |inventory| && inventory[i].id == id ==>
      r[i] == inventory[i].(currentStock := ClampAtZero(inventory[i].currentStock + change))
  {
    if inventory == [] then []
    else
      var item := inventory[0];
      var item' := if item.id == id then item.(currentStock := ClampAtZero(item.currentStock + change)) else item;
      [item'] + StockUpdated(inventory[1..], id, change)
  }

  /** An id that no item has leaves the list as it was. */
  lemma UpdateUnknownIdIsNoOp(inventory: seq<Item>, id: string, change: int)
    requires forall i :: 0 <= i < |inventory| ==> inventory[i].id != id
    ensures StockUpdated(inventory, id, change) == inventory
  {
  }

  /** Every adjusted item ends with a non-negative stock, so a list without
      negative stock stays without. */
  lemma UpdateKeepsStockNonNegative(inventory: seq<Item>, id: string, change: int)
    requires forall i :: 0 <= i < |inventory| ==> inventory[i].currentStock >= 0
    ensures forall i :: 0 <= i < |inventory| ==> StockUpdated(inventory, id, change)[i].currentStock >= 0
  {
  }

  /** The minus button is disabled at zero stock (line 240). */
  predicate CanDecrement(item: Item)
  {
    item.currentStock != 0
  }

  /** Decrementing an item at zero leaves the list as it was, so the
      disabled button protects nothing the clamp does not. */
  lemma DecrementAtZeroIsNoOp(inventory: seq<Item>, id: string)
    requires forall i :: 0 <= i < |inventory| && inventory[i].id == id ==> !CanDecrement(inventory[i])
    ensures StockUpdated(inventory, id, -1) == inventory
  {
  }

  /** The plus button undoes the minus button when the stock was positive,
      and the minus button undoes the plus button when it was not negative. */
  lemma IncrementDecrementRoundTrip(inventory: seq<Item>, id: string)
    requires forall i :: 0 <= i < |inventory| && inventory[i].id == id ==> inventory[i].currentStock >= 0
    ensures StockUpdated(StockUpdated(inventory, id, 1), id, -1) == inventory
  {
  }

  lemma DecrementIncrementRoundTrip(inventory: seq<Item>, id: string)
    requires forall i :: 0 <= i < |inventory| && inventory[i].id == id ==> inventory[i].currentStock > 0
    ensures StockUpdated(StockUpdated(inventory, id, -1), id, 1) == inventory
  {
  }

  /** `inventory.filter(item => item.currentStock <= item.minStock)`
      (line 72): the items in order, restricted to those whose status the
      badge shows as low. */
  function LowStockItems(inventory: seq<Item>): (r: seq<Item>)
    ensures |r| <= |inventory|
    ensures forall i :: 0 <= i < |r| ==> StatusOf(r[i]) == Low
    ensures forall x :: x in r <==> x in inventory && StatusOf(x) == Low
  {
    if inventory == [] then []
    else if inventory[0].currentStock <= inventory[0].minStock then [inventory[0]] + LowStockItems(inventory[1..])
    else LowStockItems(inventory[1..])
  }

  /** The filter splits over concatenation, which is what makes it keep the
      order of the list. */
  lemma {:induction false} LowStockConcat(a: seq<Item>, b: seq<Item>)
    ensures LowStockItems(a + b) == LowStockItems(a) + LowStockItems(b)
  {
    if a == [] {
      assert a + b == b;
    } else {
      assert (a + b)[0] == a[0];
      assert (a + b)[1..] == a[1..] + b;
      LowStockConcat(a[1..], b);
    }
  }

  /** Filtering the alert list again changes nothing. */
  lemma {:induction false} LowStockIdempotent(inventory: seq<Item>)
    ensures LowStockItems(LowStockItems(inventory)) == LowStockItems(inventory)
  {
    if inventory != [] {
      LowStockIdempotent(inventory[1..]);
    }
  }

  /** The number of items whose status is low, counted independently of the
      filter. */
  function CountLow(inventory: seq<Item>): nat
  {
    if inventory == [] then 0
    else CountLow(inventory[..|inventory| - 1]) + (if StatusOf(inventory[|inventory| - 1]) == Low then 1 else 0)
  }

  /** The "Low Stock Alerts" count (line 142) is the number of items whose
      badge reads "Low Stock" (lines 208-209), and the restocking card
      (line 164) is shown exactly when one of them does. */
  lemma {:induction false} AlertCountIsLowCount(inventory: seq<Item>)
    ensures |LowStockItems(inventory)| == CountLow(inventory)
    ensures |LowStockItems(inventory)| > 0 <==> exists i :: 0 <= i < |inventory| && StatusOf(inventory[i]) == Low
  {
    if inventory != [] {
      var init := inventory[..|inventory| - 1];
      var last := inventory[|inventory| - 1];
      assert inventory == init + [last];
      LowStockConcat(init, [last]);
      AlertCountIsLowCount(init);
    }
    if exists i :: 0 <= i < |inventory| && StatusOf(inventory[i]) == Low {
      var i :| 0 <= i < |inventory| && StatusOf(inventory[i]) == Low;
      assert inventory[i] in LowStockItems(inventory);
    }
  }

  /** The value of one item's stock, in cents. */
  function StockValue(item: Item): int
  {
    item.currentStock * item.price
  }

  /** `inventory.reduce((sum, item) => sum + item.currentStock * item.price, 0)`
      (line 73). */
  function TotalValue(inventory: seq<Item>): int
  {
    Sum(inventory, StockValue)
  }

  /** With non-negative stocks and prices the total value is non-negative. */
  lemma TotalValueNonNegative(inventory: seq<Item>)
    requires forall i :: 0 <= i < |inventory| ==> inventory[i].currentStock >= 0 && inventory[i].price >= 0
    ensures TotalValue(inventory) >= 0
  {
    forall i | 0 <= i < |inventory| ensures StockValue(inventory[i]) >= 0 {
      assert inventory[i].currentStock * inventory[i].price >= 0;
    }
    SumNonNegative(inventory, StockValue);
  }

  /** Adjusting the one item with a given id moves the total value by
      exactly the change in that item's stock value. */
  lemma TotalValueAfterUpdate(inventory: seq<Item>, k: nat, change: int)
    requires k < |inventory|
    requires forall j :: 0 <= j < |inventory| && j != k ==> inventory[j].id != inventory[k].id
    ensures TotalValue(StockUpdated(inventory, inventory[k].id, change))
      == TotalValue(inventory) - StockValue(inventory[k])
         + StockValue(inventory[k].(currentStock := ClampAtZero(inventory[k].currentStock + change)))
  {
    var r := StockUpdated(inventory, inventory[k].id, change);
    assert forall j :: 0 <= j < |inventory| && j != k ==> inventory[j] == r[j];
    SumReplaceAt(inventory, r, k, StockValue);
  }

  /** The items the panel starts with (lines 22-67), prices in cents. */
  const MockInventory: seq<Item> := [
    Item("1", "Coffee Beans - Premium Blend", "Beverages", 8, 10, 50, 2499, "Local Coffee Co."),
    Item("2", "Organic Milk", "Dairy", 15, 12, 30, 450, "Fresh Farms"),
    Item("3", "Croissants - Pack of 6", "Bakery", 3, 5, 20, 899, "Morning Bakery"),
    Item("4", "Energy Bars - Mixed Pack", "Snacks", 25, 15, 40, 1299, "Healthy Snacks Ltd")
  ]

  /** On the starting list: two alerts (coffee and croissants) and a stock
      value of $619.14. */
  lemma MockInventorySummary()
    ensures LowStockItems(MockInventory) == [MockInventory[0], MockInventory[2]]
    ensures TotalValue(MockInventory) == 61914
  {
    var m := MockInventory;
    assert m[..3][..2][..1][..0] == [];
    assert |m[..1]| == 1 && m[..1][..0] == [] && m[..1][0] == m[0];
    assert Sum(m[..1], StockValue) == 8 * 2499;
    assert |m[..2]| == 2 && m[..2][..1] == m[..1] && m[..2][1] == m[1];
    assert Sum(m[..2], StockValue) == 19992 + 15 * 450;
    assert |m[..3]| == 3 && m[..3][..2] == m[..2] && m[..3][2] == m[2];
    assert Sum(m[..3], StockValue) == 26742 + 3 * 899;
    assert m[..3] == m[..|m| - 1];
  }

  /** The `InventoryManager` component's state. */
  class InventoryManager {
    var inventory: seq<Item>

    constructor ()
      ensures inventory == MockInventory
    {
      inventory := MockInventory;
    }

    /** `updateStock(id, change)`: `setInventory(prev => prev.map(...))`. */
    method UpdateStock(id: string, change: int)
      modifies this
      ensures inventory == StockUpdated(old(inventory), id, change)
    {
      inventory := StockUpdated(inventory, id, change);
    }
  }
}
