# OrderItem: a verified model of the checkout line item

This project models `OrderItem`, the checkout entity of a small e-commerce
domain (customers, products, orders). An order item represents one line of an
order. It has an id, a product name, a unit price, the id of the product and
a quantity. The constructor takes them in the order id, name, price,
productId, quantity. After construction, `changeName`, `changePrice` and
`changeQuantity` overwrite the name, price and quantity in place.
`orderItemTotal` returns price times quantity. Nothing ever writes the item's
id or its product id again.

Layout:

- `order_item.dfy`, module `Checkout`. `OrderItem` is a class. `id` and
  `productId` are `const` fields, and `name`, `price` and `quantity` are
  mutable fields. The getters of the source are reads of these fields. The
  item's abstract value is the datatype `ItemState`. Each call of a mutator is
  a `Mutation`, and the pure function `Apply` gives its effect on an
  `ItemState`. Every mutator method proves that the new `State()` is
  `Apply(old(State()), m)`.
- `order_item_lifetime.dfy`, module `OrderItemLifetime`. It covers what holds
  over any sequence of mutator calls: ids fixed for life, the last write
  wins, writes to different fields commute, and the whole state follows the
  latest name, price and quantity written.
- `order_item_scenarios.dfy`, module `OrderItemScenarios`. It holds the
  repository's test uses of `OrderItem`, checked by the verifier against the
  class's contracts. The two scenarios from src/service/order.service.spec.ts
  come from a test that imports `OrderItem` from `src/domain/entity/order_item`,
  not from the modelled src/domain/checkout/entity/order_item.ts. That class
  has the same constructor signature, and these two rows rely on it.

## Model

| member | source | states |
|---|---|---|
| `Checkout.OrderItem.constructor` | src/domain/checkout/entity/order_item.ts:9-35 | the getters return exactly the arguments, with price third, productId fourth and quantity fifth |
| `Checkout.OrderItem.ChangeName` | src/domain/checkout/entity/order_item.ts:37-39 | name becomes the argument; price and quantity are unchanged; id and productId are constants; the new state is `Apply` of a rename |
| `Checkout.OrderItem.ChangePrice` | src/domain/checkout/entity/order_item.ts:41-43 | price becomes the argument; name and quantity are unchanged; id and productId are constants |
| `Checkout.OrderItem.ChangeQuantity` | src/domain/checkout/entity/order_item.ts:45-47 | quantity becomes the argument; name and price are unchanged; id and productId are constants |
| `Checkout.OrderItem.OrderItemTotal` | src/domain/checkout/entity/order_item.ts:49-51 | the total is the line total of the item's current abstract value (price times quantity); as a function it reads the item and cannot modify it |
| `Checkout.Apply` | src/domain/checkout/entity/order_item.ts:37-47 | each mutator writes only the field it names and never touches id or productId |
| `OrderItemLifetime.ApplyAll` | src/domain/checkout/entity/order_item.ts:9-47 | after any sequence of mutator calls, id and productId are still the ones given to the constructor |
| `OrderItemLifetime.LatestName` | src/domain/checkout/entity/order_item.ts:37-39 | the name after a run of calls is the argument of the last changeName, or the initial name when there was none |
| `OrderItemLifetime.LatestPrice` | src/domain/checkout/entity/order_item.ts:41-43 | the price after a run of calls is the argument of the last changePrice, or the initial price when there was none |
| `OrderItemLifetime.LatestQuantity` | src/domain/checkout/entity/order_item.ts:45-47 | the quantity after a run of calls is the argument of the last changeQuantity, or the initial quantity when there was none |
| `OrderItemLifetime.ApplyAllConcat` | src/domain/checkout/entity/order_item.ts:37-47 | running two batches of mutator calls one after the other gives the same item as running them as one batch |
| `OrderItemLifetime.ReplayTracksLatest` | src/domain/checkout/entity/order_item.ts:9-51 | after any mutator calls, the whole state is determined: the constructor's ids, the last name, price and quantity written, and a total equal to that price times that quantity |
| `OrderItemLifetime.DisjointMutationsCommute` | src/domain/checkout/entity/order_item.ts:37-47 | two mutators that write different fields give the same item in either order |
| `OrderItemLifetime.LastWriteWins` | src/domain/checkout/entity/order_item.ts:37-47 | two writes to the same field leave only the second one's value |
| `OrderItemLifetime.MutationIdempotent` | src/domain/checkout/entity/order_item.ts:37-47 | repeating a mutator call with the same argument changes nothing further |
| `OrderItemLifetime.RenameKeepsTotal` | src/domain/checkout/entity/order_item.ts:37-51 | renaming an item never changes its total |
| `OrderItemScenarios.CreateScenario` | src/domain/checkout/repository/order.repository.spec.ts:47-76 | an item built from product "123" at price 10 with quantity 2 reports id "1", price 10, productId "123" and quantity 2 |
| `OrderItemScenarios.UpdateScenario` | src/domain/checkout/repository/order.repository.spec.ts:87-99 | after changeName, changePrice(20) and changeQuantity(5), the item has the new name, keeps its ids and totals 100 |
| `OrderItemScenarios.UpdateReplay` | src/domain/checkout/repository/order.repository.spec.ts:97-99 | the same update, replayed on the abstract value, totals 100 |
| `OrderItemScenarios.TwoOrdersScenario` | src/service/order.service.spec.ts:7-17 | items of 100 x 1 and 200 x 2 total 500 together |
| `OrderItemScenarios.SingleItemScenario` | src/service/order.service.spec.ts:19-27 | a single item of 10 x 1 totals 10 |

## Left out

- The event dispatcher is not modelled. Its register/notify registry is not part of this model.
- Event handlers are not modelled. Their only effect is writing to the console.
- Order repositories and the ORM table definitions are not modelled. They are asynchronous calls into an ORM and a database whose behaviour is not visible.
- `Order`, `OrderService` and `Customer` are not modelled. `SumTotals` only states the totals the tests expect. It does not claim how `Order.total()` or `OrderService.total` are implemented. The "Id is required" check and reward points are left out.
- The wiring script `src/main.ts` is not modelled. It only constructs objects.
- `OrderItem` prices and quantities are JavaScript floating-point numbers. The model uses unbounded integers, so rounding, NaN and Infinity are not modelled.
- The getters are not separate members. In the source each one returns its private field unchanged, so the model reads the field directly.
