/** Customer orders as the point of sale submits them (model/Order.kt). */
module OrderModel {
  import opened Wrappers

  /** A Kotlin `Float` price: stored and compared only, so an opaque code. */
  datatype Price = Price(code: int)

  datatype Components = Components(id: int, qty: int, displayName: string)

  /** The selected options of an order line; `draftPackLotLines` is always null and is dropped. */
  datatype ProductOptions = ProductOptions(quantity: Option<int>, price: Option<Price>, description: Option<string>)

  datatype OrderLine = OrderLine(
    customUid: Option<string>,
    productId: int,
    options: ProductOptions,
    extraComponents: seq<Components>)

  datatype Order = Order(name: string, uid: string, uniqueName: string, orderlines: seq<OrderLine>)
}
