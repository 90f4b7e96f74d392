/**
 The uses of OrderItem in the repository's tests, checked by the verifier
 against the class's contracts: what each scenario observes follows from the
 contracts of Checkout alone.
 */
module OrderItemScenarios {
  import opened Checkout
  import opened OrderItemLifetime

  /** Sum of the line totals of a list of items. */
  function SumTotals(items: seq<ItemState>): int
    decreases |items|
  {
    if items == [] then 0 else Total(items[0]) + SumTotals(items[1..])
  }

  /**
   An item built from product "123" (price 10) with quantity 2: the getters
   return the constructor arguments, with productId the fourth and quantity
   the fifth.
   */
  method CreateScenario() returns (id: string, price: int, productId: string, quantity: int)
    ensures id == "1" && price == 10 && productId == "123" && quantity == 2
  {
    var item := new OrderItem("1", "Product 1", 10, "123", 2);
    id, price, productId, quantity := item.id, item.price, item.productId, item.quantity;
  }

  /**
   The update scenario: after renaming, changePrice(20) and changeQuantity(5)
   the item keeps its ids and totals 100.
   */
  method UpdateScenario() returns (id: string, productId: string, name: string, total: int)
    ensures id == "1" && productId == "123"
    ensures name == "New product 10" && total == 100
  {
    var item := new OrderItem("1", "Product 1", 10, "123", 2);
    item.ChangeName("New product 10");
    item.ChangePrice(20);
    item.ChangeQuantity(5);
    id, productId, name, total := item.id, item.productId, item.name, item.OrderItemTotal();
  }

  /** The same update, stated on the abstract value through ApplyAll. */
  lemma UpdateReplay()
    ensures Total(ApplyAll(ItemState("1", "Product 1", 10, "123", 2),
      [ChangeName("New product 10"), ChangePrice(20), ChangeQuantity(5)])) == 100
  {
  }

  /** Two items of 100 x 1 and 200 x 2 total 500 together. */
  method TwoOrdersScenario() returns (total: int)
    ensures total == 500
  {
    var item1 := new OrderItem("i1", "item1", 100, "p1", 1);
    var item2 := new OrderItem("i1", "item1", 200, "p1", 2);
    var items := [item1.State(), item2.State()];
    assert items[1..] == [item2.State()] && items[1..][1..] == [];
    assert SumTotals(items[1..]) == 400;
    total := SumTotals(items);
  }

  /** A single item of 10 x 1 totals 10. */
  method SingleItemScenario() returns (total: int)
    ensures total == 10
  {
    var item := new OrderItem("i1", "item1", 10, "p1", 1);
    var items := [item.State()];
    assert items[1..] == [];
    assert SumTotals(items[1..]) == 0;
    total := SumTotals(items);
  }
}
