/** The dashboard's inventory overview card: four fixed slots showing the
    first items of a static list, each with its fill percentage, a label and
    two colours chosen by that percentage. */
module InventoryOverview {

  datatype InventoryItem = InventoryItem(name: string, stock: int, maxStock: int, category: string)

  /** The card's static data. */
  const InventoryItems: seq<InventoryItem> := [
    InventoryItem("Wireless Headphones Pro", 342, 500, "Audio"),
    InventoryItem("Ergonomic Keyboard MX", 89, 300, "Peripherals"),
    InventoryItem("USB-C Hub Adapter", 24, 200, "Accessories"),
    InventoryItem("Smart Desk Lamp", 156, 250, "Lighting"),
    InventoryItem("Noise Cancelling Earbuds", 12, 400, "Audio"),
    InventoryItem("Portable Charger 20K", 201, 350, "Power")
  ]

  const SlotCount: nat := 4

  /** `Math.round(stock / maxStock * 100)` read on exact rationals: the
      nearest integer to the ratio, halves rounded up. A double quotient
      that falls just below a half rounds down instead, so this can be one
      higher than the page shows. */
  function Percent(stock: int, maxStock: int): (p: int)
    requires maxStock > 0
    ensures 2 * maxStock * p <= 200 * stock + maxStock < 2 * maxStock * (p + 1)
  {
    DivisionBounds(200 * stock + maxStock, 2 * maxStock);
    (200 * stock + maxStock) / (2 * maxStock)
  }

  lemma DivisionBounds(a: int, b: int)
    requires b > 0
    ensures b * (a / b) <= a < b * (a / b) + b
  {
  }

  /** The percentage is within one half of the exact ratio. */
  lemma PercentIsNearest(stock: int, maxStock: int)
    requires maxStock > 0
    ensures var p := Percent(stock, maxStock) as real;
      var exact := 100.0 * stock as real / maxStock as real;
      p - 0.5 <= exact < p + 0.5
  {
    var p := Percent(stock, maxStock);
    var m := maxStock as real;
    var exact := 100.0 * stock as real / m;
    var twoM := 2.0 * m;
    assert twoM * exact == 200.0 * stock as real;
    assert twoM * p as real <= 200.0 * stock as real + m;
    assert 200.0 * stock as real + m < twoM * (p as real + 1.0);
    ScaleDown(twoM, p as real - 0.5, exact);
    ScaleDownStrict(twoM, exact, p as real + 0.5);
  }

  lemma ScaleDown(k: real, x: real, y: real)
    requires k > 0.0 && k * x <= k * y
    ensures x <= y
  {
  }

  lemma ScaleDownStrict(k: real, x: real, y: real)
    requires k > 0.0 && k * x < k * y
    ensures x < y
  {
  }

  lemma MulMonotone(k: int, x: int, y: int)
    requires k > 0 && x <= y
    ensures k * x <= k * y
  {
  }

  /** A stock between zero and the maximum gives a percentage from 0 to 100. */
  lemma {:induction false} PercentInRange(stock: int, maxStock: int)
    requires 0 <= stock <= maxStock
    requires maxStock > 0
    ensures 0 <= Percent(stock, maxStock) <= 100
  {
    var p := Percent(stock, maxStock);
    if p < 0 {
      MulMonotone(2 * maxStock, p + 1, 0);
    }
    if p > 100 {
      MulMonotone(2 * maxStock, 101, p);
    }
  }

  /** `getStockColor(percent)`: the bar colour. */
  function StockColor(percent: int): string
  {
    if percent < 15 then "bg-destructive"
    else if percent < 40 then "bg-warning"
    else "bg-primary"
  }

  /** `getStockLabel(percent)`. */
  function StockLabel(percent: int): (text: string)
    ensures text == "Critical" <==> percent < 15
    ensures text == "Low" <==> 15 <= percent < 40
    ensures text == "In Stock" <==> 40 <= percent
  {
    if percent < 15 then "Critical"
    else if percent < 40 then "Low"
    else "In Stock"
  }

  /** `getStockLabelColor(percent)`: the label's text colour. */
  function StockLabelColor(percent: int): string
  {
    if percent < 15 then "text-destructive"
    else if percent < 40 then "text-warning"
    else "text-muted-foreground"
  }

  /** The three functions draw the same boundaries: every label comes with
      its own bar colour and its own text colour. */
  lemma ColorsFollowLabel(percent: int)
    ensures StockLabel(percent) == "Critical" <==> StockColor(percent) == "bg-destructive"
    ensures StockLabel(percent) == "Critical" <==> StockLabelColor(percent) == "text-destructive"
    ensures StockLabel(percent) == "Low" <==> StockColor(percent) == "bg-warning"
    ensures StockLabel(percent) == "Low" <==> StockLabelColor(percent) == "text-warning"
    ensures StockLabel(percent) == "In Stock" <==> StockColor(percent) == "bg-primary"
    ensures StockLabel(percent) == "In Stock" <==> StockLabelColor(percent) == "text-muted-foreground"
  {
  }

  function LabelRank(text: string): nat
  {
    if text == "Critical" then 0 else if text == "Low" then 1 else 2
  }

  /** A fuller item never gets a worse label. */
  lemma LabelMonotone(p: int, q: int)
    requires p <= q
    ensures LabelRank(StockLabel(p)) <= LabelRank(StockLabel(q))
  {
  }

  /** What one slot renders. */
  datatype SlotView =
    | Placeholder
    | ItemRow(name: string, category: string, stock: int, maxStock: int, percent: int,
              caption: string, labelColor: string, barColor: string, blurred: bool)

  predicate ValidItems(items: seq<InventoryItem>)
  {
    forall i :: 0 <= i < |items| ==> items[i].maxStock > 0
  }

  /** The slot at `index`: a placeholder past the end of the data, otherwise
      the item's row, blurred in the last slot. */
  function SlotAt(items: seq<InventoryItem>, index: nat): (v: SlotView)
    requires ValidItems(items)
    ensures v.Placeholder? <==> index >= |items|
    ensures v.ItemRow? ==> (v.blurred <==> index == SlotCount - 1)
    ensures v.ItemRow? ==>
      && v.name == items[index].name && v.stock == items[index].stock && v.maxStock == items[index].maxStock
      && v.percent == Percent(items[index].stock, items[index].maxStock)
      && v.caption == StockLabel(v.percent) && v.labelColor == StockLabelColor(v.percent)
      && v.barColor == StockColor(v.percent)
  {
    if index >= |items| then Placeholder
    else
      var item := items[index];
      var percent := Percent(item.stock, item.maxStock);
      ItemRow(item.name, item.category, item.stock, item.maxStock, percent,
        StockLabel(percent), StockLabelColor(percent), StockColor(percent), index == SlotCount - 1)
  }

  /** The four slots, whatever the length of the data. */
  function Slots(items: seq<InventoryItem>): (v: seq<SlotView>)
    requires ValidItems(items)
    ensures |v| == SlotCount
    ensures forall i :: 0 <= i < SlotCount ==> v[i] == SlotAt(items, i)
  {
    seq(SlotCount, i requires 0 <= i < SlotCount => SlotAt(items, i))
  }

  /** Only the first four items are ever shown, and only the fourth slot is
      blurred: with the card's own data, the rows read 68% "In Stock", 30%
      "Low", 12% "Critical" and 62% "In Stock" (blurred). */
  lemma CardData()
    ensures ValidItems(InventoryItems)
    ensures var v := Slots(InventoryItems);
      && (forall i :: 0 <= i < SlotCount ==> v[i].ItemRow?)
      && v[0].percent == 68 && v[0].caption == "In Stock" && !v[0].blurred
      && v[1].percent == 30 && v[1].caption == "Low" && !v[1].blurred
      && v[2].percent == 12 && v[2].caption == "Critical" && !v[2].blurred
      && v[3].percent == 62 && v[3].caption == "In Stock" && v[3].blurred
  {
    var v := Slots(InventoryItems);
    assert v[0] == SlotAt(InventoryItems, 0);
    assert v[1] == SlotAt(InventoryItems, 1);
    assert v[2] == SlotAt(InventoryItems, 2);
    assert v[3] == SlotAt(InventoryItems, 3);
  }

  /** With fewer than four items the remaining slots hold placeholders, so
      the card keeps its height. */
  lemma ShortDataIsPadded(items: seq<InventoryItem>)
    requires ValidItems(items) && |items| < SlotCount
    ensures |Slots(items)| == SlotCount
    ensures forall i :: |items| <= i < SlotCount ==> Slots(items)[i].Placeholder?
    ensures forall i :: 0 <= i < |items| ==> Slots(items)[i].ItemRow? && !Slots(items)[i].blurred
  {
  }
}
