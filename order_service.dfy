/**
 * The order service: create, delete, get one, get all and update orders over
 * the store, translating storage outcomes into the exceptions it throws.
 */
module OrderService {
  import opened Wrappers
  import opened Primitives
  import opened Errors
  import opened Contracts
  import opened Domain
  import opened OrderProjection
  import opened OrderStore

  /** The exception a duplicate reference is reported as. */
  const DuplicateReference: Exception := ServiceException(Status403Forbidden, OrderWithSameReferenceAlreadyExists)

  /**
   * Builds an order from the request and saves it. `orderId` and `lineIds`
   * are the Guids generated for the new order and its lines, in request order.
   */
  method CreateOrder(store: Store, orderDto: CreateOrderDto, orderId: Guid, lineIds: seq<Guid>)
    returns (r: Result<OrderDto, Exception>)
    requires store.Valid()
    requires orderId !in store.orders
    requires |lineIds| == |orderDto.OrderLines|
    modifies store
    ensures store.Valid()
    ensures old(store.HasReference(orderDto.Reference)) ==>
              r == Failure(DuplicateReference) && store.orders == old(store.orders)
    ensures !old(store.HasReference(orderDto.Reference)) ==>
              && r == Success(OrderDto(orderId, orderDto.Reference, multiset(orderDto.OrderLines)))
              && orderId in store.orders
              && store.orders == old(store.orders)[orderId := store.orders[orderId]]
              && OrderDtoOf(store.orders[orderId]) == r.value
  {
    var lines := NewOrderLines(orderDto.OrderLines, lineIds);
    var order := Order.CreatOrder(orderId, orderDto.Reference, lines);
    assert forall id | id in store.orders :: store.orders[id].OrderLines !! order.OrderLines by {
      assert forall id, l | id in store.orders && l in store.orders[id].OrderLines :: !fresh(l);
    }
    var conflict := store.Add(order);
    if conflict {
      r := Failure(DuplicateReference);
      return;
    }
    LineDtosOfDistinctLines(order.OrderLines, lines, orderDto.OrderLines);
    var created := ProjectOrder(order);
    r := Success(created);
  }

  /** `orderLines.Select(x => new OrderLine(x.ProductId, x.Quantity))`: one new line object per DTO. */
  method NewOrderLines(dtos: seq<OrderLineDto>, lineIds: seq<Guid>) returns (lines: seq<OrderLine>)
    requires |lineIds| == |dtos|
    ensures |lines| == |dtos|
    ensures forall i :: 0 <= i < |lines| ==> fresh(lines[i])
    ensures forall i :: 0 <= i < |lines| ==> ToLineDto(lines[i]) == dtos[i] && lines[i].Id == lineIds[i]
    ensures forall i, j :: 0 <= i < j < |lines| ==> lines[i] != lines[j]
  {
    lines := [];
    for i := 0 to |dtos|
      invariant |lines| == i
      invariant forall j :: 0 <= j < i ==> fresh(lines[j])
      invariant forall j :: 0 <= j < i ==> ToLineDto(lines[j]) == dtos[j] && lines[j].Id == lineIds[j]
      invariant forall j, k :: 0 <= j < k < i ==> lines[j] != lines[k]
    {
      var line := new OrderLine(lineIds[i], dtos[i].ProductId, dtos[i].Quantity);
      lines := lines + [line];
    }
  }

  /** Deletes an order by id; a missing id is reported as not found. */
  method DeleteOrder(store: Store, orderId: Guid) returns (r: Outcome<Exception>)
    requires store.Valid()
    modifies store
    ensures store.Valid()
    ensures orderId !in old(store.orders) ==>
              r == Fail(NotFoundException(OrderNotFound)) && store.orders == old(store.orders)
    ensures orderId in old(store.orders) ==>
              r == Pass && store.orders == old(store.orders) - {orderId}
  {
    if orderId !in store.orders {
      r := Fail(NotFoundException(OrderNotFound));
      return;
    }
    store.Remove(orderId);
    r := Pass;
  }

  /**
   * Loads one order with its lines. A missing id is an
   * InvalidOperationException, not a ServiceException.
   */
  method GetOrder(store: Store, orderId: Guid) returns (r: Result<OrderDto, Exception>)
    requires store.KeyedById()
    ensures orderId !in store.orders ==> r == Failure(InvalidOperationException)
    ensures orderId in store.orders ==> r == Success(OrderDtoOf(store.orders[orderId]))
    ensures r.Success? ==> r.value.Id == orderId
  {
    if orderId !in store.orders {
      return Failure(InvalidOperationException);
    }
    var dto := ProjectOrder(store.orders[orderId]);
    r := Success(dto);
  }

  /** Loads every order with its lines: one DTO per stored order. */
  method GetOrders(store: Store) returns (r: set<OrderDto>)
    requires store.KeyedById()
    ensures forall d | d in r :: d.Id in store.orders && d == OrderDtoOf(store.orders[d.Id])
    ensures forall id | id in store.orders :: OrderDtoOf(store.orders[id]) in r
    ensures |r| == |store.orders|
  {
    ghost var views := map id | id in store.orders :: OrderDtoOf(store.orders[id]);
    r := {};
    ghost var done: set<Guid> := {};
    var pending := store.orders.Keys;
    while pending != {}
      invariant done !! pending && done + pending == views.Keys
      invariant r == Image(views, done)
      decreases pending
    {
      var id :| id in pending;
      var d := ProjectOrder(store.orders[id]);
      OrderDtoOfUnchanged(store.orders[id]);
      ImageAdd(views, done, id);
      r := r + {d};
      done := done + {id};
      pending := pending - {id};
    }
    ImageKeyedById(views, done);
    forall d | d in r
      ensures d.Id in store.orders && d == OrderDtoOf(store.orders[d.Id])
    {
      OrderDtoOfUnchanged(store.orders[d.Id]);
    }
    forall id | id in store.orders
      ensures OrderDtoOf(store.orders[id]) in r
    {
      OrderDtoOfUnchanged(store.orders[id]);
    }
  }

  /** The DTOs a ghost map gives to a set of its keys. */
  ghost function Image(views: map<Guid, OrderDto>, keys: set<Guid>): (r: set<OrderDto>)
    requires keys <= views.Keys
    ensures forall id | id in keys :: views[id] in r
  {
    set id | id in keys :: views[id]
  }

  lemma ImageAdd(views: map<Guid, OrderDto>, keys: set<Guid>, id: Guid)
    requires keys <= views.Keys && id in views
    ensures Image(views, keys + {id}) == Image(views, keys) + {views[id]}
  {
  }

  /** A map whose every DTO carries its own key has as many DTOs as keys, each found under its Id. */
  lemma {:induction false} ImageKeyedById(views: map<Guid, OrderDto>, keys: set<Guid>)
    requires keys <= views.Keys
    requires forall id | id in views :: views[id].Id == id
    ensures forall d | d in Image(views, keys) :: d.Id in keys && d == views[d.Id]
    ensures |Image(views, keys)| == |keys|
    decreases keys
  {
    if keys != {} {
      var id :| id in keys;
      ImageKeyedById(views, keys - {id});
      ImageAdd(views, keys - {id}, id);
      assert keys - {id} + {id} == keys;
    }
  }

  /**
   * Looks the order up by key and saves it back unchanged: the supplied lines
   * are never applied. The lookup does not load the order's lines (no eager
   * include, and the sealed entity admits no lazy-loading proxy), so the
   * returned DTO has none.
   */
  method UpdateOrder(store: Store, orderId: Guid, orderLines: seq<OrderLineDto>) returns (r: Result<OrderDto, Exception>)
    requires store.KeyedById()
    ensures orderId !in store.orders ==> r == Failure(InvalidOperationException)
    ensures orderId in store.orders ==>
              r == Success(OrderDto(orderId, store.orders[orderId].Reference, multiset{}))
  {
    if orderId !in store.orders {
      return Failure(InvalidOperationException);
    }
    var order := store.orders[orderId];
    r := Success(OrderDto(order.Id, order.Reference, multiset{}));
  }
}
