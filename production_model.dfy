/**
 * The production records exchanged by the manufacturing queue service
 * (model/Production.kt), as immutable values.
 *
 * Kotlin `Int` fields stay `int`: the core copies and compares them and
 * never does arithmetic on them, so 32-bit wrap-around cannot arise.
 */
module ProductionModel {

  /**
   * A Kotlin `Double` (ComponentPayload.qty). The core only stores,
   * copies and compares it, so it is an opaque code compared for equality.
   */
  datatype Quantity = Quantity(code: int)

  /** One extra component of a production order: product id, name, quantity. */
  datatype ComponentPayload = ComponentPayload(id: int, displayName: string, qty: Quantity)

  /** The product a production item makes (spelled `ProductPaiload` in the service). */
  datatype ProductPaiload = ProductPaiload(id: int, displayName: string)

  /**
   * One unit of manufacturing work as the cache holds it. `customUid` is
   * the correlation id shared with the ERP; the three sync flags exist
   * only in memory.
   */
  datatype ProductionPayload = ProductionPayload(
    id: int,
    displayName: string,
    origin: string,
    originUniqueName: string,
    productionDelta: int,
    priority: string,
    state: string,
    product: ProductPaiload,
    component: seq<ComponentPayload>,
    dbSync: bool,
    posSync: bool,
    kitchenSync: bool,
    customUid: string,
    timestamp: string)

  /** A production order as a point of sale submits it. */
  datatype ProductionOrderBody = ProductionOrderBody(
    displayName: string,
    origin: string,
    originUniqueName: string,
    customUid: string,
    productId: int,
    productionDelta: int,
    productQty: int,
    state: string,
    productTmplId: int,
    productUomId: int,
    bomId: int,
    extraComponents: seq<ComponentPayload>)
}
