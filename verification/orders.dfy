/** The order-placement controller over in-memory state: the product table, the carts,
    the saved orders, the waiting list and the outbox of order identities handed to the
    publisher. Requests are handled one at a time. */
module Orders {
  import opened Types
  import opened Totals
  import opened Allocation

  class Shop {
    var products: map<ProductId, Product>
    var carts: map<CartId, seq<CartLine>>
    var orders: seq<Order>
    var waitlist: seq<WaitlistEntry>
    /** Identities of the orders handed to the publisher, in publication order. */
    var outbox: seq<OrderId>

    /** Every saved order is identified by its position and carries the exact total of
        its lines, and every saved order has been published exactly once, in order. */
    ghost predicate Valid()
      reads this`orders, this`outbox
    {
      && (forall i :: 0 <= i < |orders| ==> orders[i].id == i && orders[i].totalAmount == Sum(orders[i].lines))
      && |outbox| == |orders|
      && (forall i :: 0 <= i < |outbox| ==> outbox[i] == i)
    }

    constructor (products: map<ProductId, Product>, carts: map<CartId, seq<CartLine>>)
      ensures Valid()
      ensures this.products == products && this.carts == carts
      ensures orders == [] && waitlist == [] && outbox == []
    {
      this.products := products;
      this.carts := carts;
      orders := [];
      waitlist := [];
      outbox := [];
    }

    /** Places the order for cart `cartId`. A missing cart changes nothing. Otherwise the
        cart lines are allocated in order against the product table: stock is lowered and
        waiting-list entries are saved line by line. A missing product ends the request
        with those effects kept and no order saved. When every line is allocated, one
        order with the collected lines and their total is saved, the cart is removed and
        the order's identity is published. */
    method PlaceOrder(cartId: CartId) returns (r: Result<Placed>)
      requires Valid()
      modifies this
      ensures Valid()
      ensures cartId !in old(carts) ==>
        && r == Err(CartNotFound)
        && products == old(products) && carts == old(carts) && orders == old(orders)
        && waitlist == old(waitlist) && outbox == old(outbox)
      ensures cartId in old(carts) ==>
        var a := Allocate(old(products), old(carts)[cartId]);
        && products == a.state.products
        && waitlist == old(waitlist) + a.state.waitlisted
        && (a.Stopped? ==>
              && r == Err(ProductNotFound)
              && orders == old(orders) && carts == old(carts) && outbox == old(outbox))
        && (a.Done? ==>
              var id := |old(orders)|;
              && r == Ok(Placed(a.state.ordered, a.state.waitlisted))
              && orders == old(orders) + [Order(id, a.state.ordered, Sum(a.state.ordered))]
              && carts == old(carts) - {cartId}
              && outbox == old(outbox) + [id])
    {
      if cartId !in carts {
        return Err(CartNotFound);
      }
      var cartProducts := carts[cartId];
      var orderedProducts: seq<OrderLine> := [];
      var waitingListProducts: seq<WaitlistEntry> := [];
      ghost var whole := Allocate(products, cartProducts);

      var i := 0;
      while i < |cartProducts|
        invariant 0 <= i <= |cartProducts|
        invariant carts == old(carts) && orders == old(orders) && outbox == old(outbox)
        invariant waitlist == old(waitlist) + waitingListProducts
        invariant AllocateFrom(Progress(products, orderedProducts, waitingListProducts), cartProducts[i..]) == whole
      {
        ghost var before := Progress(products, orderedProducts, waitingListProducts);
        assert cartProducts[i..][0] == cartProducts[i];
        assert cartProducts[i..][1..] == cartProducts[i + 1..];
        var found;
        found, orderedProducts, waitingListProducts := AllocateCartLine(cartProducts[i], orderedProducts, waitingListProducts);
        if !found {
          assert whole == Stopped(before, cartProducts[i].productId);
          return Err(ProductNotFound);
        }
        i := i + 1;
      }
      assert whole == Done(Progress(products, orderedProducts, waitingListProducts));

      var orderId := SaveOrder(cartId, orderedProducts);
      r := Ok(Placed(orderedProducts, waitingListProducts));
    }

    /** The end of a successful placement: saves the order with its lines and their
        total, removes the cart and hands the new order's identity to the publisher. */
    method SaveOrder(cartId: CartId, orderedProducts: seq<OrderLine>) returns (orderId: OrderId)
      requires Valid()
      modifies this`orders, this`carts, this`outbox
      ensures Valid()
      ensures orderId == |old(orders)|
      ensures orders == old(orders) + [Order(orderId, orderedProducts, Sum(orderedProducts))]
      ensures carts == old(carts) - {cartId}
      ensures outbox == old(outbox) + [orderId]
    {
      var totalAmount := CalculateTotalAmount(orderedProducts);
      orderId := |orders|;
      ghost var saved := orders;
      orders := orders + [Order(orderId, orderedProducts, totalAmount)];
      carts := carts - {cartId};
      outbox := outbox + [orderId];
      assert forall k :: 0 <= k < |saved| ==> orders[k] == saved[k];
    }

    /** One pass of the cart-line loop: looks the line's product up; orders what the
        stock covers and lowers the stock by it; saves a waiting-list entry for the rest.
        Reports whether the product exists; a missing one changes nothing. */
    method AllocateCartLine(line: CartLine, orderedProducts: seq<OrderLine>, waitingListProducts: seq<WaitlistEntry>)
      returns (found: bool, ordered: seq<OrderLine>, waiting: seq<WaitlistEntry>)
      modifies this`products, this`waitlist
      ensures found <==> line.productId in old(products)
      ensures !found ==> products == old(products) && waitlist == old(waitlist)
      ensures !found ==> ordered == orderedProducts && waiting == waitingListProducts
      ensures found ==>
        && Progress(products, ordered, waiting)
           == AllocateLine(Progress(old(products), orderedProducts, waitingListProducts), line)
        && waitlist == old(waitlist) + waiting[|waitingListProducts|..]
    {
      var productId := line.productId;
      var quantity := line.quantity;
      ordered, waiting := orderedProducts, waitingListProducts;
      if productId !in products {
        return false, ordered, waiting;
      }
      found := true;
      ghost var before := Progress(products, orderedProducts, waitingListProducts);
      var existingProduct := products[productId];
      var availableStock := existingProduct.stock;
      // The stock decrements below apply to the stock just read: requests are handled one
      // at a time, so nothing changes it in between.
      if quantity <= availableStock {
        LineWithinStock(before, line);
        ordered := ordered + [Snapshot(productId, existingProduct, quantity)];
        products := products[productId := existingProduct.(stock := existingProduct.stock - quantity)];
      } else {
        LineBeyondStock(before, line);
        var orderedQuantity := availableStock;
        var waitingListQuantity := quantity - availableStock;
        if orderedQuantity > 0 {
          ordered := ordered + [Snapshot(productId, existingProduct, orderedQuantity)];
          products := products[productId := existingProduct.(stock := existingProduct.stock - orderedQuantity)];
        }
        if waitingListQuantity > 0 {
          var waitingProduct := Snapshot(productId, existingProduct, waitingListQuantity);
          waiting := waiting + [waitingProduct];
          waitlist := waitlist + [waitingProduct];
        }
      }
    }
  }
}
