/** The order total: the sum of price times quantity over the order's lines. */
module Totals {
  import opened Types

  /** Amount contributed by one line. */
  function LineAmount(item: OrderLine): int
  {
    item.price * item.quantity
  }

  /** Reference definition of the total, accumulated from the first line to the last. */
  function Sum(lines: seq<OrderLine>): int
  {
    if lines == [] then 0 else Sum(lines[..|lines| - 1]) + LineAmount(lines[|lines| - 1])
  }

  /** The total of a concatenation is the sum of the two totals. */
  lemma {:induction false} SumAppend(a: seq<OrderLine>, b: seq<OrderLine>)
    ensures Sum(a + b) == Sum(a) + Sum(b)
    decreases |b|
  {
    if b == [] {
      assert a + b == a;
    } else {
      var c := b[..|b| - 1];
      assert (a + b)[..|a + b| - 1] == a + c;
      assert (a + b)[|a + b| - 1] == b[|b| - 1];
      SumAppend(a, c);
    }
  }

  /** The total can equally be taken from the front: first line plus the rest. */
  lemma SumFront(item: OrderLine, rest: seq<OrderLine>)
    ensures Sum([item] + rest) == LineAmount(item) + Sum(rest)
  {
    SumAppend([item], rest);
    assert Sum([item]) == Sum([]) + LineAmount(item) by {
      assert [item][..0] == [];
    }
  }

  /** With non-negative prices and quantities the total is never negative. */
  lemma {:induction false} SumNonNegative(lines: seq<OrderLine>)
    requires forall i :: 0 <= i < |lines| ==> lines[i].price >= 0 && lines[i].quantity >= 0
    ensures Sum(lines) >= 0
    decreases |lines|
  {
    if lines != [] {
      SumNonNegative(lines[..|lines| - 1]);
    }
  }

  /** Two lines, (2 units at 100) and (1 unit at 50), total 250. */
  lemma TwoLineTotal(a: OrderLine, b: OrderLine)
    requires a.quantity == 2 && a.price == 100 && b.quantity == 1 && b.price == 50
    ensures Sum([a, b]) == 250
  {
    assert [a][..0] == [];
    assert Sum([a]) == 200;
    assert [a, b][..1] == [a];
  }

  /** The accumulator loop that computes an order's total. */
  method CalculateTotalAmount(orderedProducts: seq<OrderLine>) returns (totalAmount: int)
    ensures totalAmount == Sum(orderedProducts)
  {
    totalAmount := 0;
    var i := 0;
    while i < |orderedProducts|
      invariant 0 <= i <= |orderedProducts|
      invariant totalAmount == Sum(orderedProducts[..i])
    {
      var product := orderedProducts[i];
      assert orderedProducts[..i + 1][..i] == orderedProducts[..i];
      totalAmount := totalAmount + product.price * product.quantity;
      i := i + 1;
    }
    assert orderedProducts[..i] == orderedProducts;
  }
}
