/**
 The OrderItem entity of the checkout domain: one line of an order, holding
 the product it refers to, the unit price and the quantity. The object is
 mutable: its name, price and quantity are overwritten in place by three
 mutators, while its own id and the product id are fixed at construction.

 The abstract value of an item is an ItemState; the mutators are described by
 the pure function Apply over a Mutation, and each method of the class is
 proved to change the object exactly as Apply says.
 */
module Checkout {

  /** The five fields of an item, in the order the constructor takes them. */
  datatype ItemState = ItemState(
    id: string,
    name: string,
    price: int,
    productId: string,
    quantity: int)

  /** One call of a mutator of OrderItem, with its argument. */
  datatype Mutation =
    | ChangeName(newName: string)
    | ChangePrice(newPrice: int)
    | ChangeQuantity(newQuantity: int)

  /** The line total: unit price times quantity. */
  function Total(s: ItemState): int
  {
    s.price * s.quantity
  }

  /** Two mutations that write the same field. */
  predicate SameField(m1: Mutation, m2: Mutation)
  {
    (m1.ChangeName? && m2.ChangeName?) ||
    (m1.ChangePrice? && m2.ChangePrice?) ||
    (m1.ChangeQuantity? && m2.ChangeQuantity?)
  }

  /** The effect of one mutator call: it writes exactly the field it names. */
  function Apply(s: ItemState, m: Mutation): (r: ItemState)
    ensures r.id == s.id && r.productId == s.productId
    ensures r.name == (if m.ChangeName? then m.newName else s.name)
    ensures r.price == (if m.ChangePrice? then m.newPrice else s.price)
    ensures r.quantity == (if m.ChangeQuantity? then m.newQuantity else s.quantity)
  {
    match m
    case ChangeName(n) => s.(name := n)
    case ChangePrice(p) => s.(price := p)
    case ChangeQuantity(q) => s.(quantity := q)
  }

  class OrderItem {
    // The id of the item and of its product are never written after construction.
    const id: string
    const productId: string
    var name: string
    var price: int
    var quantity: int

    /** The abstract value of this item. */
    function State(): ItemState
      reads this
    {
      ItemState(id, name, price, productId, quantity)
    }

    /** Arguments come in the order id, name, price, productId, quantity. */
    constructor (id: string, name: string, price: int, productId: string, quantity: int)
      ensures this.id == id && this.name == name && this.price == price
      ensures this.productId == productId && this.quantity == quantity
      ensures State() == ItemState(id, name, price, productId, quantity)
    {
      this.id := id;
      this.name := name;
      this.price := price;
      this.quantity := quantity;
      this.productId := productId;
    }

    method ChangeName(name: string)
      modifies this
      ensures this.name == name
      ensures price == old(price) && quantity == old(quantity)
      ensures State() == Apply(old(State()), Mutation.ChangeName(name))
    {
      this.name := name;
    }

    method ChangePrice(price: int)
      modifies this
      ensures this.price == price
      ensures name == old(name) && quantity == old(quantity)
      ensures State() == Apply(old(State()), Mutation.ChangePrice(price))
    {
      this.price := price;
    }

    method ChangeQuantity(quantity: int)
      modifies this
      ensures this.quantity == quantity
      ensures name == old(name) && price == old(price)
      ensures State() == Apply(old(State()), Mutation.ChangeQuantity(quantity))
    {
      this.quantity := quantity;
    }

    /** The total of this line, read from the current price and quantity. */
    function OrderItemTotal(): (t: int)
      reads this
      ensures t == Total(State())
    {
      price * quantity
    }
  }
}
