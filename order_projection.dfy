/** How stored orders are projected to the DTOs the order service returns. */
module OrderProjection {
  import opened Contracts
  import opened Domain

  function ToLineDto(line: OrderLine): OrderLineDto
    reads line
  {
    OrderLineDto(line.ProductId, line.Quantity)
  }

  /** The projection of a set of line objects: one DTO per object. */
  ghost function LineDtos(lines: set<OrderLine>): (r: multiset<OrderLineDto>)
    reads lines
    ensures |r| == |lines|
    decreases lines
  {
    if lines == {} then multiset{}
    else
      var l :| l in lines;
      multiset{ToLineDto(l)} + LineDtos(lines - {l})
  }

  /** The projection does not depend on which line is taken out first. */
  lemma {:induction false} LineDtosRemove(lines: set<OrderLine>, line: OrderLine)
    requires line in lines
    ensures LineDtos(lines) == multiset{ToLineDto(line)} + LineDtos(lines - {line})
    decreases lines
  {
    var l :| l in lines && LineDtos(lines) == multiset{ToLineDto(l)} + LineDtos(lines - {l});
    if l != line {
      var rest := lines - {l} - {line};
      assert lines - {l} - {line} == lines - {line} - {l};
      calc {
        LineDtos(lines);
        multiset{ToLineDto(l)} + LineDtos(lines - {l});
        { LineDtosRemove(lines - {l}, line); }
        multiset{ToLineDto(l)} + (multiset{ToLineDto(line)} + LineDtos(rest));
        multiset{ToLineDto(line)} + (multiset{ToLineDto(l)} + LineDtos(rest));
        { LineDtosRemove(lines - {line}, l); }
        multiset{ToLineDto(line)} + LineDtos(lines - {line});
      }
    }
  }

  /** Distinct line objects built from a list of DTOs project back to exactly those DTOs. */
  lemma {:induction false} LineDtosOfDistinctLines(lineSet: set<OrderLine>, lines: seq<OrderLine>, dtos: seq<OrderLineDto>)
    requires forall l :: l in lineSet <==> l in lines
    requires forall i, j :: 0 <= i < j < |lines| ==> lines[i] != lines[j]
    requires |lines| == |dtos|
    requires forall i :: 0 <= i < |lines| ==> ToLineDto(lines[i]) == dtos[i]
    ensures LineDtos(lineSet) == multiset(dtos)
  {
    if lines == [] {
      assert lineSet == {};
    } else {
      var n := |lines| - 1;
      var init, last := lines[..n], lines[n];
      forall l ensures l in lineSet - {last} <==> l in init {
        if l in init {
          var i :| 0 <= i < n && init[i] == l;
          assert lines[i] == l;
        }
        if l in lineSet - {last} {
          var i :| 0 <= i < |lines| && lines[i] == l;
          assert init[i] == l;
        }
      }
      LineDtosOfDistinctLines(lineSet - {last}, init, dtos[..n]);
      LineDtosRemove(lineSet, last);
      MultisetDropLast(dtos);
    }
  }

  lemma MultisetDropLast(dtos: seq<OrderLineDto>)
    requires dtos != []
    ensures multiset(dtos) == multiset(dtos[..|dtos| - 1]) + multiset{dtos[|dtos| - 1]}
  {
    assert dtos == dtos[..|dtos| - 1] + [dtos[|dtos| - 1]];
  }

  /** The DTO of a stored order, with all its lines. */
  ghost function OrderDtoOf(order: Order): (d: OrderDto)
    reads order, order.OrderLines
    ensures d.Id == order.Id && d.Reference == order.Reference
    ensures |d.OrderLines| == |order.OrderLines|
  {
    OrderDto(order.Id, order.Reference, LineDtos(order.OrderLines))
  }

  /** `lines.Select(x => new OrderLineDto(x.ProductId, x.Quantity))`, enumerating the set. */
  method ProjectLines(lines: set<OrderLine>) returns (r: multiset<OrderLineDto>)
    ensures r == LineDtos(lines)
  {
    r := multiset{};
    var pending := lines;
    while pending != {}
      invariant pending <= lines
      invariant r + LineDtos(pending) == LineDtos(lines)
      decreases pending
    {
      var l :| l in pending;
      LineDtosRemove(pending, l);
      r := r + multiset{ToLineDto(l)};
      pending := pending - {l};
    }
  }

  /** `new OrderDto(order.Id, order.Reference, <projected lines>)`. */
  method ProjectOrder(order: Order) returns (d: OrderDto)
    ensures d == OrderDtoOf(order)
  {
    var lines := ProjectLines(order.OrderLines);
    d := OrderDto(order.Id, order.Reference, lines);
  }

  /** The view of an order whose object and lines are untouched since the old state is the old view. */
  twostate lemma OrderDtoOfUnchanged(order: Order)
    requires unchanged(order) && unchanged(old(order.OrderLines))
    ensures OrderDtoOf(order) == old(OrderDtoOf(order))
  {
  }
}
