/** The order aggregate and the product entity. */
module Domain {
  import opened Primitives

  /**
   * One line of an order. Equality is reference identity: the class does
   * not override Equals, so an order's set of lines tells lines apart by
   * object, not by content.
   */
  class OrderLine {
    const Id: Guid
    var OrderId: Guid
    const ProductId: Guid
    var Quantity: int32

    /** Stores the product and quantity as given, with no validation; `id` is a freshly generated Guid. */
    constructor (id: Guid, productId: Guid, quantity: int32)
      ensures Id == id && ProductId == productId && Quantity == quantity
      ensures OrderId == EmptyGuid
    {
      Id := id;
      OrderId := EmptyGuid;
      ProductId := productId;
      Quantity := quantity;
    }

    /** `Quantity += quantity`, wrapping around on overflow. */
    method AddQuantity(quantity: int32)
      modifies this`Quantity
      ensures Quantity == WrapAdd(old(Quantity), quantity)
      ensures Quantity as int == old(Quantity) as int + quantity as int
              || Quantity as int == old(Quantity) as int + quantity as int - TwoTo32
              || Quantity as int == old(Quantity) as int + quantity as int + TwoTo32
      ensures OrderId == old(OrderId)
    {
      Quantity := WrapAdd(Quantity, quantity);
    }
  }

  /** The order aggregate: a reference and the set of lines it owns. */
  class Order {
    const Id: Guid
    var Reference: string
    var OrderLines: set<OrderLine>

    /** The parameterless constructor: a fresh id, an empty reference, no lines. */
    constructor (id: Guid)
      ensures Id == id && Reference == "" && OrderLines == {}
    {
      Id := id;
      Reference := "";
      OrderLines := {};
    }

    /**
     * The factory (its name is the source's): builds an order with the given
     * reference and adds every supplied line in turn.
     */
    static method CreatOrder(id: Guid, reference: string, orderLines: seq<OrderLine>) returns (order: Order)
      ensures fresh(order)
      ensures order.Id == id && order.Reference == reference
      ensures order.OrderLines == set l | l in orderLines
    {
      order := new Order(id);
      order.Reference := reference;
      for i := 0 to |orderLines|
        invariant order.Id == id && order.Reference == reference
        invariant order.OrderLines == set l | l in orderLines[..i]
      {
        assert orderLines[..i + 1] == orderLines[..i] + [orderLines[i]];
        order.AddOrderLine(orderLines[i]);
      }
      assert orderLines[..|orderLines|] == orderLines;
    }

    /** Adds a line to the set; adding a line object already present changes nothing. */
    method AddOrderLine(orderLine: OrderLine)
      modifies this`OrderLines
      ensures OrderLines == old(OrderLines) + {orderLine}
      ensures orderLine in old(OrderLines) ==> OrderLines == old(OrderLines)
      ensures old(OrderLines) <= OrderLines && |OrderLines| <= |old(OrderLines)| + 1
    {
      OrderLines := OrderLines + {orderLine};
    }
  }

  /** A product; nothing in the core changes one after it is created. */
  datatype Product = Product(Id: Guid, Name: string, Price: real)
}
