/** The allocation step of order placement, as a pure specification: cart lines are
    processed in cart order; each looks its product up, splits the requested quantity
    into an ordered part (what the stock covers) and a waiting-list part (the rest),
    and lowers the stock by the ordered part. A missing product stops the run with the
    effects of the earlier lines left in place. */
module Allocation {
  import opened Types

  /** The state threaded through the cart lines: the product table and the order lines
      and waiting-list entries collected so far. */
  datatype Progress = Progress(products: map<ProductId, Product>,
                               ordered: seq<OrderLine>,
                               waitlisted: seq<WaitlistEntry>)

  /** How a run over the cart lines ends: every line processed, or stopped at a line
      whose product does not exist, with the state reached before that line. */
  datatype Allocation =
    | Done(state: Progress)
    | Stopped(state: Progress, missing: ProductId)

  /** Copy of a product's name, description and price, with a quantity. */
  function Snapshot(productId: ProductId, product: Product, quantity: int): LineItem
  {
    LineItem(productId, product.name, product.description, quantity, product.price)
  }

  predicate StockNonNegative(products: map<ProductId, Product>)
  {
    forall id :: id in products ==> products[id].stock >= 0
  }

  /** `after` lists the same products as `before` with the same name, description and
      price; only stock may differ. */
  predicate SameListings(before: map<ProductId, Product>, after: map<ProductId, Product>)
  {
    && before.Keys == after.Keys
    && forall id :: id in before ==> after[id] == before[id].(stock := after[id].stock)
  }

  /** `item` carries the name, description and price that `products` lists for its product. */
  predicate IsSnapshotOf(item: LineItem, products: map<ProductId, Product>)
  {
    && item.productId in products
    && item.name == products[item.productId].name
    && item.description == products[item.productId].description
    && item.price == products[item.productId].price
  }

  /** Units of product `id` among `items`. */
  function Units(items: seq<LineItem>, id: ProductId): int
  {
    if items == [] then 0
    else Units(items[..|items| - 1], id)
         + (if items[|items| - 1].productId == id then items[|items| - 1].quantity else 0)
  }

  /** Units of product `id` requested by `lines`. */
  function Requested(lines: seq<CartLine>, id: ProductId): int
  {
    if lines == [] then 0
    else (if lines[0].productId == id then lines[0].quantity else 0) + Requested(lines[1..], id)
  }

  lemma UnitsPush(items: seq<LineItem>, item: LineItem, id: ProductId)
    ensures Units(items + [item], id) == Units(items, id) + (if item.productId == id then item.quantity else 0)
  {
    assert (items + [item])[..|items|] == items;
  }

  /** One cart line: the two branches on whether the stock covers the requested quantity. */
  function AllocateLine(p: Progress, line: CartLine): (q: Progress)
    requires line.productId in p.products
    ensures SameListings(p.products, q.products)
    ensures forall id :: id in p.products && id != line.productId ==> q.products[id] == p.products[id]
    ensures p.ordered <= q.ordered && |q.ordered| <= |p.ordered| + 1
    ensures p.waitlisted <= q.waitlisted && |q.waitlisted| <= |p.waitlisted| + 1
    ensures forall i :: |p.ordered| <= i < |q.ordered| ==>
              q.ordered[i].productId == line.productId && IsSnapshotOf(q.ordered[i], p.products)
    ensures forall i :: |p.waitlisted| <= i < |q.waitlisted| ==>
              q.waitlisted[i].productId == line.productId && IsSnapshotOf(q.waitlisted[i], p.products)
  {
    var productId := line.productId;
    var quantity := line.quantity;
    var existing := p.products[productId];
    var availableStock := existing.stock;
    if quantity <= availableStock then
      Progress(p.products[productId := existing.(stock := availableStock - quantity)],
               p.ordered + [Snapshot(productId, existing, quantity)],
               p.waitlisted)
    else
      var orderedQuantity := availableStock;
      var waitingListQuantity := quantity - availableStock;
      var products :=
        if orderedQuantity > 0 then p.products[productId := existing.(stock := availableStock - orderedQuantity)]
        else p.products;
      var ordered :=
        if orderedQuantity > 0 then p.ordered + [Snapshot(productId, existing, orderedQuantity)]
        else p.ordered;
      var waitlisted :=
        if waitingListQuantity > 0 then p.waitlisted + [Snapshot(productId, existing, waitingListQuantity)]
        else p.waitlisted;
      Progress(products, ordered, waitlisted)
  }

  /** Per-line accounting: the stock of the line's product falls by exactly the units
      ordered; with non-negative stock, ordered plus waiting-listed units equal the
      requested units, the stock stays non-negative, and a waiting-list entry means the
      stock is exhausted. Other products' units are untouched. */
  lemma AllocateLineUnits(p: Progress, line: CartLine, id: ProductId)
    requires line.productId in p.products
    ensures var q := AllocateLine(p, line);
      && (id != line.productId ==>
            Units(q.ordered, id) == Units(p.ordered, id) && Units(q.waitlisted, id) == Units(p.waitlisted, id))
      && (id == line.productId ==>
            q.products[id].stock == p.products[id].stock - (Units(q.ordered, id) - Units(p.ordered, id)))
      && (id == line.productId && p.products[id].stock >= 0 ==>
            && (Units(q.ordered, id) - Units(p.ordered, id)) + (Units(q.waitlisted, id) - Units(p.waitlisted, id))
               == line.quantity
            && q.products[id].stock >= 0
            && (Units(q.waitlisted, id) > Units(p.waitlisted, id) ==> q.products[id].stock == 0))
  {
    var q := AllocateLine(p, line);
    if |q.ordered| > |p.ordered| {
      assert q.ordered == p.ordered + [q.ordered[|p.ordered|]];
      UnitsPush(p.ordered, q.ordered[|p.ordered|], id);
    } else {
      assert q.ordered == p.ordered;
    }
    if |q.waitlisted| > |p.waitlisted| {
      assert q.waitlisted == p.waitlisted + [q.waitlisted[|p.waitlisted|]];
      UnitsPush(p.waitlisted, q.waitlisted[|p.waitlisted|], id);
    } else {
      assert q.waitlisted == p.waitlisted;
    }
  }

  /** Requested quantity within the stock: one order line for the full quantity, no
      waiting-list entry, and the stock falls by exactly that quantity. */
  lemma LineWithinStock(p: Progress, line: CartLine)
    requires line.productId in p.products
    requires line.quantity <= p.products[line.productId].stock
    ensures var q := AllocateLine(p, line);
      var product := p.products[line.productId];
      && q.ordered == p.ordered + [Snapshot(line.productId, product, line.quantity)]
      && q.waitlisted == p.waitlisted
      && q.products == p.products[line.productId := product.(stock := product.stock - line.quantity)]
  {
  }

  /** Requested quantity beyond the stock: the whole stock is ordered (an order line
      only when it is positive), the remainder goes to the waiting list, and a
      non-negative stock ends at zero. */
  lemma LineBeyondStock(p: Progress, line: CartLine)
    requires line.productId in p.products
    requires line.quantity > p.products[line.productId].stock
    ensures var q := AllocateLine(p, line);
      var product := p.products[line.productId];
      && q.ordered == (if product.stock > 0 then p.ordered + [Snapshot(line.productId, product, product.stock)]
                       else p.ordered)
      && q.waitlisted == p.waitlisted + [Snapshot(line.productId, product, line.quantity - product.stock)]
      && (product.stock >= 0 ==> q.products == p.products[line.productId := product.(stock := 0)])
      && (product.stock < 0 ==> q.products == p.products)
  {
    var product := p.products[line.productId];
    if product.stock == 0 {
      assert p.products[line.productId := product.(stock := 0)] == p.products;
    }
  }

  /** The cart-line loop, one line at a time, from a given state. */
  function AllocateFrom(p: Progress, lines: seq<CartLine>): Allocation
    decreases |lines|
  {
    if lines == [] then Done(p)
    else if lines[0].productId !in p.products then Stopped(p, lines[0].productId)
    else AllocateFrom(AllocateLine(p, lines[0]), lines[1..])
  }

  /** Allocation of a whole cart against a product table, with nothing collected yet. */
  function Allocate(products: map<ProductId, Product>, lines: seq<CartLine>): Allocation
  {
    AllocateFrom(Progress(products, [], []), lines)
  }

  /** Index of the first cart line whose product is not among `known`, or the number of
      lines when every product is known. */
  function FirstMissing(known: set<ProductId>, lines: seq<CartLine>): (k: nat)
    ensures k <= |lines|
    ensures forall j :: 0 <= j < k ==> lines[j].productId in known
    ensures k < |lines| ==> lines[k].productId !in known
    decreases |lines|
  {
    if lines == [] then 0
    else if lines[0].productId !in known then 0
    else 1 + FirstMissing(known, lines[1..])
  }

  /** A run keeps the listings (only stock changes) and only appends to the collected
      order lines and waiting-list entries. */
  lemma {:induction false} AllocateKeepsListings(p: Progress, lines: seq<CartLine>)
    ensures var st := AllocateFrom(p, lines).state;
      && SameListings(p.products, st.products)
      && p.ordered <= st.ordered
      && p.waitlisted <= st.waitlisted
    decreases |lines|
  {
    if lines != [] && lines[0].productId in p.products {
      AllocateKeepsListings(AllocateLine(p, lines[0]), lines[1..]);
    }
  }

  /** The run completes exactly when every cart line names an existing product;
      otherwise it stops at the first line whose product is missing, and the state it
      stops in is the completed run over the lines before it: nothing done for earlier
      lines is undone. */
  lemma {:induction false} AllocateStopsAtFirstMissing(p: Progress, lines: seq<CartLine>)
    ensures var k := FirstMissing(p.products.Keys, lines);
      && (AllocateFrom(p, lines).Done? <==> k == |lines|)
      && (k < |lines| ==>
            && AllocateFrom(p, lines[..k]).Done?
            && AllocateFrom(p, lines) == Stopped(AllocateFrom(p, lines[..k]).state, lines[k].productId))
    decreases |lines|
  {
    if lines == [] {
    } else if lines[0].productId !in p.products {
      assert lines[..0] == [];
    } else {
      var q := AllocateLine(p, lines[0]);
      AllocateStopsAtFirstMissing(q, lines[1..]);
      var k := FirstMissing(p.products.Keys, lines);
      assert q.products.Keys == p.products.Keys;
      assert k == 1 + FirstMissing(q.products.Keys, lines[1..]);
      if k < |lines| {
        assert lines[..k][0] == lines[0];
        assert lines[..k][1..] == lines[1..][..k - 1];
      }
    }
  }

  /** Stock never goes negative: a run started with non-negative stock ends with
      non-negative stock, whether it completes or stops. */
  lemma {:induction false} AllocateKeepsStockNonNegative(p: Progress, lines: seq<CartLine>)
    requires StockNonNegative(p.products)
    ensures StockNonNegative(AllocateFrom(p, lines).state.products)
    decreases |lines|
  {
    if lines != [] && lines[0].productId in p.products {
      var q := AllocateLine(p, lines[0]);
      AllocateLineUnits(p, lines[0], lines[0].productId);
      AllocateKeepsStockNonNegative(q, lines[1..]);
    }
  }

  /** The stock of every product falls by exactly the units of it that were ordered
      during the run, whether the run completes or stops. */
  lemma {:induction false} AllocateStockFollowsOrders(p: Progress, lines: seq<CartLine>, id: ProductId)
    requires id in p.products
    ensures var st := AllocateFrom(p, lines).state;
      && id in st.products
      && st.products[id].stock == p.products[id].stock - (Units(st.ordered, id) - Units(p.ordered, id))
    decreases |lines|
  {
    if lines != [] && lines[0].productId in p.products {
      var q := AllocateLine(p, lines[0]);
      AllocateLineUnits(p, lines[0], id);
      AllocateStockFollowsOrders(q, lines[1..], id);
    }
  }

  /** Conservation of requested units: over a completed run with non-negative stock,
      for every product the units ordered plus the units waiting-listed equal the units
      the cart requested, and the units ordered never exceed the stock there was. */
  lemma {:induction false} AllocateConservesUnits(p: Progress, lines: seq<CartLine>, id: ProductId)
    requires StockNonNegative(p.products)
    requires AllocateFrom(p, lines).Done?
    ensures var st := AllocateFrom(p, lines).state;
      && (Units(st.ordered, id) - Units(p.ordered, id)) + (Units(st.waitlisted, id) - Units(p.waitlisted, id))
         == Requested(lines, id)
      && (id in p.products ==> Units(st.ordered, id) - Units(p.ordered, id) <= p.products[id].stock)
    decreases |lines|
  {
    if lines != [] {
      var q := AllocateLine(p, lines[0]);
      AllocateLineUnits(p, lines[0], id);
      AllocateKeepsStockNonNegative(p, [lines[0]]);
      assert [lines[0]][1..] == [];
      AllocateConservesUnits(q, lines[1..], id);
      if id in p.products {
        AllocateStockFollowsOrders(p, lines, id);
        AllocateKeepsStockNonNegative(p, lines);
      }
    }
  }

  /** Products that no cart line names are left exactly as they were. */
  lemma {:induction false} AllocateLeavesOthers(p: Progress, lines: seq<CartLine>, id: ProductId)
    requires forall j :: 0 <= j < |lines| ==> lines[j].productId != id
    ensures var st := AllocateFrom(p, lines).state;
      && (id in st.products <==> id in p.products)
      && (id in p.products ==> st.products[id] == p.products[id])
    decreases |lines|
  {
    if lines != [] && lines[0].productId in p.products {
      AllocateLeavesOthers(AllocateLine(p, lines[0]), lines[1..], id);
    }
  }

  /** Every order line and waiting-list entry collected by the run copies the name,
      description and price its product had when the run started (which are the ones
      it has at its own allocation, since allocation changes only stock). */
  lemma {:induction false} AllocateSnapshots(p: Progress, lines: seq<CartLine>)
    ensures var st := AllocateFrom(p, lines).state;
      && (forall i :: |p.ordered| <= i < |st.ordered| ==> IsSnapshotOf(st.ordered[i], p.products))
      && (forall i :: |p.waitlisted| <= i < |st.waitlisted| ==> IsSnapshotOf(st.waitlisted[i], p.products))
    decreases |lines|
  {
    if lines != [] && lines[0].productId in p.products {
      var q := AllocateLine(p, lines[0]);
      var st := AllocateFrom(q, lines[1..]).state;
      AllocateSnapshots(q, lines[1..]);
      AllocateKeepsListings(q, lines[1..]);
      assert SameListings(p.products, q.products);
      forall i | |p.ordered| <= i < |st.ordered|
        ensures IsSnapshotOf(st.ordered[i], p.products)
      {
        if i < |q.ordered| {
          assert st.ordered[i] == q.ordered[i];
        }
      }
      forall i | |p.waitlisted| <= i < |st.waitlisted|
        ensures IsSnapshotOf(st.waitlisted[i], p.products)
      {
        if i < |q.waitlisted| {
          assert st.waitlisted[i] == q.waitlisted[i];
        }
      }
    }
  }

  /** With positive requested quantities and non-negative stock, every collected order
      line and waiting-list entry has a positive quantity. */
  lemma {:induction false} AllocatePositive(p: Progress, lines: seq<CartLine>)
    requires StockNonNegative(p.products)
    requires forall j :: 0 <= j < |lines| ==> lines[j].quantity > 0
    ensures var st := AllocateFrom(p, lines).state;
      && (forall i :: |p.ordered| <= i < |st.ordered| ==> st.ordered[i].quantity > 0)
      && (forall i :: |p.waitlisted| <= i < |st.waitlisted| ==> st.waitlisted[i].quantity > 0)
    decreases |lines|
  {
    if lines != [] && lines[0].productId in p.products {
      var q := AllocateLine(p, lines[0]);
      var st := AllocateFrom(q, lines[1..]).state;
      AllocateKeepsStockNonNegative(p, [lines[0]]);
      assert [lines[0]][1..] == [];
      AllocatePositive(q, lines[1..]);
      AllocateKeepsListings(q, lines[1..]);
      forall i | |p.ordered| <= i < |st.ordered|
        ensures st.ordered[i].quantity > 0
      {
        if i < |q.ordered| {
          assert st.ordered[i] == q.ordered[i];
        }
      }
      forall i | |p.waitlisted| <= i < |st.waitlisted|
        ensures st.waitlisted[i].quantity > 0
      {
        if i < |q.waitlisted| {
          assert st.waitlisted[i] == q.waitlisted[i];
        }
      }
    }
  }

  function ProductIds(items: seq<LineItem>): (ids: seq<ProductId>)
    ensures |ids| == |items|
  {
    seq(|items|, i requires 0 <= i < |items| => items[i].productId)
  }

  function CartIds(lines: seq<CartLine>): (ids: seq<ProductId>)
    ensures |ids| == |lines|
  {
    seq(|lines|, i requires 0 <= i < |lines| => lines[i].productId)
  }

  /** `a` can be obtained from `b` by deleting elements. */
  predicate IsSubsequence(a: seq<ProductId>, b: seq<ProductId>)
    decreases |b|
  {
    || a == []
    || (&& b != []
        && ((a[0] == b[0] && IsSubsequence(a[1..], b[1..])) || IsSubsequence(a, b[1..])))
  }

  lemma SubsequenceCons(h: ProductId, a: seq<ProductId>, b: seq<ProductId>)
    requires IsSubsequence(a, b)
    ensures IsSubsequence(a, [h] + b)
    ensures IsSubsequence([h] + a, [h] + b)
  {
    assert ([h] + b)[1..] == b;
    assert ([h] + a)[1..] == a;
  }

  /** Cart order is kept: the products of the collected order lines, and of the
      waiting-list entries, appear in the same order as the cart lines that produced them. */
  lemma {:induction false} AllocateFollowsCartOrder(p: Progress, lines: seq<CartLine>)
    ensures var st := AllocateFrom(p, lines).state;
      && |p.ordered| <= |st.ordered| && |p.waitlisted| <= |st.waitlisted|
      && IsSubsequence(ProductIds(st.ordered[|p.ordered|..]), CartIds(lines))
      && IsSubsequence(ProductIds(st.waitlisted[|p.waitlisted|..]), CartIds(lines))
    decreases |lines|
  {
    AllocateKeepsListings(p, lines);
    var st := AllocateFrom(p, lines).state;
    if lines == [] || lines[0].productId !in p.products {
      assert st == p;
      assert ProductIds(st.ordered[|p.ordered|..]) == [];
      assert ProductIds(st.waitlisted[|p.waitlisted|..]) == [];
    } else {
      var q := AllocateLine(p, lines[0]);
      AllocateFollowsCartOrder(q, lines[1..]);
      AllocateKeepsListings(q, lines[1..]);
      assert CartIds(lines) == [lines[0].productId] + CartIds(lines[1..]);
      FollowsStep(p.ordered, q.ordered, st.ordered, lines[0].productId, CartIds(lines[1..]));
      FollowsStep(p.waitlisted, q.waitlisted, st.waitlisted, lines[0].productId, CartIds(lines[1..]));
    }
  }

  /** One step of the order argument: a line appends at most one item, for its own product. */
  lemma FollowsStep(before: seq<LineItem>, mid: seq<LineItem>, after: seq<LineItem>,
                    h: ProductId, rest: seq<ProductId>)
    requires before <= mid && mid <= after && |mid| <= |before| + 1
    requires forall i :: |before| <= i < |mid| ==> mid[i].productId == h
    requires IsSubsequence(ProductIds(after[|mid|..]), rest)
    ensures IsSubsequence(ProductIds(after[|before|..]), [h] + rest)
  {
    var tail := ProductIds(after[|mid|..]);
    SubsequenceCons(h, tail, rest);
    if |mid| == |before| {
      assert after[|before|..] == after[|mid|..];
    } else {
      assert after[|before|..] == [mid[|before|]] + after[|mid|..];
      assert ProductIds(after[|before|..]) == [h] + tail;
    }
  }
}
