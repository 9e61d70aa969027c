/** The data transfer records the services accept and return. */
module Contracts {
  import opened Primitives

  datatype OrderLineDto = OrderLineDto(ProductId: Guid, Quantity: int32)

  /**
   * An order as returned to clients. Its lines come from enumerating a hash
   * set, whose order is unspecified, and two line objects may project to
   * equal DTOs, so they are kept as a multiset.
   */
  datatype OrderDto = OrderDto(Id: Guid, Reference: string, OrderLines: multiset<OrderLineDto>)

  /** The body of a create-order request; its lines arrive in request order. */
  datatype CreateOrderDto = CreateOrderDto(Reference: string, OrderLines: seq<OrderLineDto>)

  /** Prices are only passed through, so a real stands for the decimal. */
  datatype ProductDto = ProductDto(Id: Guid, Name: string, Price: real)
}
