/**
 * The persisted orders, standing in for the database behind the ORM. The
 * store keeps the two constraints the schema declares: an order's key is its
 * Id, Reference is unique across orders, and every line belongs to one order.
 */
module OrderStore {
  import opened Primitives
  import opened Domain

  class Store {
    var orders: map<Guid, Order>

    /** The primary key: each order is stored under its own Id. */
    ghost predicate KeyedById()
      reads this, orders.Values
    {
      forall id | id in orders :: orders[id].Id == id
    }

    /** The unique index on Reference. */
    ghost predicate UniqueReferences()
      reads this, orders.Values
    {
      forall a, b | a in orders && b in orders && a != b :: orders[a].Reference != orders[b].Reference
    }

    /** Every line belongs to at most one order. */
    ghost predicate LinesOwnedOnce()
      reads this, orders.Values
    {
      forall a, b | a in orders && b in orders && a != b :: orders[a].OrderLines !! orders[b].OrderLines
    }

    ghost predicate Valid()
      reads this, orders.Values
    {
      KeyedById() && UniqueReferences() && LinesOwnedOnce()
    }

    constructor ()
      ensures Valid() && orders == map[]
    {
      orders := map[];
    }

    /** Whether saving an order with this reference would violate the unique index. */
    predicate HasReference(reference: string)
      reads this, orders.Values
    {
      exists id | id in orders :: orders[id].Reference == reference
    }

    /**
     * Adding an order and saving changes: the save fails with a unique
     * constraint violation exactly when the reference is taken, and then
     * nothing is persisted.
     */
    method Add(order: Order) returns (conflict: bool)
      requires Valid()
      requires order.Id !in orders
      requires forall id | id in orders :: orders[id].OrderLines !! order.OrderLines
      modifies this
      ensures Valid()
      ensures conflict == old(HasReference(order.Reference))
      ensures conflict ==> orders == old(orders)
      ensures !conflict ==> orders == old(orders)[order.Id := order]
    {
      conflict := HasReference(order.Reference);
      if !conflict {
        orders := orders[order.Id := order];
      }
    }

    /** Removing a stored order and saving changes; its lines go with it. */
    method Remove(id: Guid)
      requires Valid() && id in orders
      modifies this
      ensures Valid()
      ensures orders == old(orders) - {id}
    {
      orders := orders - {id};
    }
  }
}
