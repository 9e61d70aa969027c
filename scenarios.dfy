/** Request sequences against the order service, and what a client observes. */
module Scenarios {
  import opened Wrappers
  import opened Primitives
  import opened Errors
  import opened Contracts
  import opened Domain
  import opened OrderProjection
  import opened OrderStore
  import opened OrderService

  /** Posting the same order twice: the first succeeds, the second is rejected with 403. */
  method RepeatedCreateConflicts(store: Store, orderDto: CreateOrderDto,
                                 firstId: Guid, firstLineIds: seq<Guid>,
                                 secondId: Guid, secondLineIds: seq<Guid>)
    returns (first: Result<OrderDto, Exception>, second: Result<OrderDto, Exception>)
    requires store.Valid() && !store.HasReference(orderDto.Reference)
    requires firstId !in store.orders && secondId !in store.orders && firstId != secondId
    requires |firstLineIds| == |orderDto.OrderLines| && |secondLineIds| == |orderDto.OrderLines|
    modifies store
    ensures first == Success(OrderDto(firstId, orderDto.Reference, multiset(orderDto.OrderLines)))
    ensures second == Failure(ServiceException(403, "OrderWithSameReferenceAlreadyExists"))
    ensures store.orders.Keys == old(store.orders.Keys) + {firstId}
  {
    first := CreateOrder(store, orderDto, firstId, firstLineIds);
    assert store.orders[firstId].Reference == orderDto.Reference;
    second := CreateOrder(store, orderDto, secondId, secondLineIds);
  }

  /** Two orders with distinct references are both created, and each can be read back by its id. */
  method CreateTwoThenGet(store: Store, firstDto: CreateOrderDto, firstId: Guid, firstLineIds: seq<Guid>,
                          secondDto: CreateOrderDto, secondId: Guid, secondLineIds: seq<Guid>)
    returns (firstRead: Result<OrderDto, Exception>, secondRead: Result<OrderDto, Exception>)
    requires store.Valid()
    requires !store.HasReference(firstDto.Reference) && !store.HasReference(secondDto.Reference)
    requires firstDto.Reference != secondDto.Reference
    requires firstId !in store.orders && secondId !in store.orders && firstId != secondId
    requires |firstLineIds| == |firstDto.OrderLines| && |secondLineIds| == |secondDto.OrderLines|
    modifies store
    ensures firstRead == Success(OrderDto(firstId, firstDto.Reference, multiset(firstDto.OrderLines)))
    ensures secondRead == Success(OrderDto(secondId, secondDto.Reference, multiset(secondDto.OrderLines)))
  {
    var created := CreateOrder(store, firstDto, firstId, firstLineIds);
    ghost var firstOrder := store.orders[firstId];
    ghost var firstView := OrderDtoOf(firstOrder);
    assert !store.HasReference(secondDto.Reference) by {
      assert firstView.Reference == firstDto.Reference;
    }
    label afterFirst:
    created := CreateOrder(store, secondDto, secondId, secondLineIds);
    ghost var secondOrder := store.orders[secondId];
    label afterSecond:
    firstRead := GetOrder(store, firstId);
    OrderDtoOfUnchanged@afterFirst(firstOrder);
    secondRead := GetOrder(store, secondId);
    OrderDtoOfUnchanged@afterSecond(secondOrder);
  }

  /** Deleting an order makes a later read of it fail, and a second delete report not found. */
  method DeleteThenGet(store: Store, orderId: Guid)
    returns (deleted: Outcome<Exception>, read: Result<OrderDto, Exception>, deletedAgain: Outcome<Exception>)
    requires store.Valid() && orderId in store.orders
    modifies store
    ensures deleted == Pass
    ensures read == Failure(InvalidOperationException)
    ensures deletedAgain == Fail(NotFoundException(OrderNotFound))
    ensures store.orders == old(store.orders) - {orderId}
  {
    deleted := DeleteOrder(store, orderId);
    read := GetOrder(store, orderId);
    deletedAgain := DeleteOrder(store, orderId);
  }

  /** Two increments leave the quantity one increment by their wrapped sum would. */
  method AddQuantityTwice(line: OrderLine, a: int32, b: int32)
    modifies line
    ensures line.Quantity == WrapAdd(old(line.Quantity), WrapAdd(a, b))
    ensures Int32Min <= old(line.Quantity) as int + a as int + b as int <= Int32Max
            && Int32Min <= a as int + b as int <= Int32Max ==>
              line.Quantity as int == old(line.Quantity) as int + a as int + b as int
  {
    line.AddQuantity(a);
    line.AddQuantity(b);
    WrapAddAssociative(old(line.Quantity), a, b);
  }
}
