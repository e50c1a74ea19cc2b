// The shop overlay: its catalogue, which item a click lands on and whether the player can
// afford it, and opening and closing (internal/shop/shop.go). Drawing is not modelled.
module Shop {
  import opened Utils

  datatype Option<T> = None | Some(value: T)

  /** One entry of the catalogue; `y` is its offset from the top of the shop panel. */
  datatype ShopItem = ShopItem(id: int, name: string, cost: int, description: string, y: real)

  /** Width and height of an item's clickable rectangle, in pixels. */
  const ItemWidth: int := 360
  const ItemHeight: int := 50

  class Shop {
    var open: bool
    // The panel geometry and the catalogue are set by NewShop and never written again.
    const x: real := 200.0
    const y: real := 200.0
    const width: real := 400.0
    const height: real := 320.0
    const items: seq<ShopItem> := [
      ShopItem(1, "Buy Tower Slot", 30, "Add +1 tower slot", 100.0),
      ShopItem(2, "Tower Damage +10", 50, "Increase all tower damage by +10", 160.0),
      ShopItem(4, "Fire Rate +10%", 45, "Increase all tower fire rate by 10%", 220.0)
    ]

    /** NewShop: closed, with three items 1, 2 and 4 costing 30, 50 and 45 coins. */
    constructor ()
      ensures !open
      ensures |items| == 3
      ensures items[0].id == 1 && items[1].id == 2 && items[2].id == 4
      ensures items[0].cost == 30 && items[1].cost == 50 && items[2].cost == 45
    {
      open := false;
    }

    /** Whether the click (mx, my) lies in the rectangle of `item`, borders included; the
        corner is the panel corner plus the item's offset, truncated to whole pixels. */
    predicate ItemContains(item: ShopItem, mx: int, my: int)
    {
      var itemX := Trunc(x + 20.0);
      var itemY := Trunc(y + item.y);
      mx >= itemX && mx <= itemX + ItemWidth && my >= itemY && my <= itemY + ItemHeight
    }

    /** The index of the first item of `s` (from position `from` on) whose rectangle contains
        the click, if any. */
    function FirstItemAt(s: seq<ShopItem>, from: nat, mx: int, my: int): (r: Option<nat>)
      requires from <= |s|
      ensures r.Some? ==> from <= r.value < |s| && ItemContains(s[r.value], mx, my)
      ensures r.Some? ==> forall j :: from <= j < r.value ==> !ItemContains(s[j], mx, my)
      ensures r.None? ==> forall j :: from <= j < |s| ==> !ItemContains(s[j], mx, my)
      decreases |s| - from
    {
      if from == |s| then None
      else if ItemContains(s[from], mx, my) then Some(from)
      else FirstItemAt(s, from + 1, mx, my)
    }

    /** Reports the item a click selects and whether `coins` pay for it. A closed shop and
        a click on no item give (0, false); nothing is bought or changed here. */
    method HandleClick(mx: int, my: int, coins: int) returns (itemID: int, purchased: bool)
      ensures !open ==> itemID == 0 && !purchased
      ensures open ==> match FirstItemAt(items, 0, mx, my)
        case None => itemID == 0 && !purchased
        case Some(i) => itemID == items[i].id && (purchased <==> coins >= items[i].cost)
    {
      if !open {
        return 0, false;
      }
      var i := 0;
      while i < |items|
        invariant 0 <= i <= |items|
        invariant FirstItemAt(items, 0, mx, my) == FirstItemAt(items, i, mx, my)
      {
        var item := items[i];
        var itemX := Trunc(x + 20.0);
        var itemY := Trunc(y + item.y);
        if mx >= itemX && mx <= itemX + ItemWidth && my >= itemY && my <= itemY + ItemHeight {
          if coins >= item.cost {
            return item.id, true;
          }
          return item.id, false;
        }
        i := i + 1;
      }
      return 0, false;
    }

    /** Opens a closed shop and closes an open one. */
    method Toggle()
      modifies this`open
      ensures open == !old(open)
    {
      open := !open;
    }

    /** Closes the shop, whether or not it was open. */
    method Close()
      modifies this`open
      ensures !open
    {
      open := false;
    }

    /** The catalogue's rectangles are the rows [220, 580] x [300, 350], [360, 410] and
        [420, 470]: separate bands, so a click selects at most one item. */
    lemma ItemsDisjoint(mx: int, my: int, i: nat, j: nat)
      requires i < |items| && j < |items|
      requires ItemContains(items[i], mx, my) && ItemContains(items[j], mx, my)
      ensures i == j
    {
      assert Trunc(x + 20.0) == 220;
      assert Trunc(y + items[0].y) == 300;
      assert Trunc(y + items[1].y) == 360;
      assert Trunc(y + items[2].y) == 420;
    }

    /** Item 1 ("Buy Tower Slot") is selected exactly by the clicks inside its band. */
    lemma TowerSlotBand(mx: int, my: int)
      ensures FirstItemAt(items, 0, mx, my) == Some(0) <==> 220 <= mx <= 580 && 300 <= my <= 350
    {
      assert Trunc(x + 20.0) == 220;
      assert Trunc(y + items[0].y) == 300;
    }
  }
}
