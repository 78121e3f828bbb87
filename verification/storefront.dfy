/**
 * The storefront shell: which page is showing, the back button's
 * transition table, the cart's life cycle from the customizer to a placed
 * order, and the order history. Clocks, random numbers and locale-formatted
 * dates enter as parameters.
 */
module Storefront {
  import opened JsText
  import opened Cart
  import opened Checkout
  import Customizer

  datatype View =
    | Home | ProductPage | CustomizerPage | CartPage
    | CheckoutPage | PaymentPage | Confirmation | OrdersPage

  datatype Order = Order(
    id: string, date: string, status: string, estimatedDate: string,
    deliveryType: DeliveryType, items: seq<CartItem>, totalCents: int)

  const ProcessingStatus: string := "En Procesamiento"

  /** An order's total is what its items and delivery cost. */
  predicate Consistent(o: Order) {
    o.totalCents == OrderTotal(o.items, o.deliveryType) && o.items != [] && QuantitiesPositive(o.items)
  }

  // ---------------------------------------------------------------------
  // Navigation

  /** `handleBack`: where the back button leads from `v`. From a
      confirmation it returns to the order list only when the order shown
      is listed there. */
  function Back(v: View, viewedOrderListed: bool): (w: View)
    ensures w != CustomizerPage && w != PaymentPage && w != Confirmation
    ensures v == Home ==> w == Home
  {
    match v
    case CustomizerPage => ProductPage
    case ProductPage => Home
    case CartPage => Home
    case CheckoutPage => CartPage
    case PaymentPage => CheckoutPage
    case OrdersPage => Home
    case Confirmation => if viewedOrderListed then OrdersPage else Home
    case Home => Home
  }

  /** The forward step out of a page in the purchase flow: customise,
      proceed to checkout, proceed to payment. */
  function Forward(v: View): (w: Option<View>)
    ensures w.Some? <==> v == ProductPage || v == CartPage || v == CheckoutPage
  {
    match v
    case ProductPage => Some(CustomizerPage)
    case CartPage => Some(CheckoutPage)
    case CheckoutPage => Some(PaymentPage)
    case _ => None
  }

  /** Going back undoes a forward step. */
  lemma BackUndoesForward(v: View, listed: bool)
    requires Forward(v).Some?
    ensures Back(Forward(v).value, listed) == v
  {
  }

  function BackTimes(v: View, listed: bool, n: nat): View
    decreases n
  {
    if n == 0 then v else BackTimes(Back(v, listed), listed, n - 1)
  }

  /** Pressing back at most three times always reaches the home page, and
      home is where it stays. */
  lemma {:induction false} BackReachesHome(v: View, listed: bool)
    ensures BackTimes(v, listed, 3) == Home
  {
    assert BackTimes(Home, listed, 0) == Home;
    assert BackTimes(Home, listed, 1) == Home;
    assert BackTimes(Home, listed, 2) == Home;
    var w1 := Back(v, listed);
    var w2 := Back(w1, listed);
    var w3 := Back(w2, listed);
    assert BackTimes(v, listed, 3) == BackTimes(w1, listed, 2) == BackTimes(w2, listed, 1) == w3;
  }

  /** The page the routing renders for `v`: the customizer and product
      pages need a selected product, the payment page checkout data, the
      confirmation an order to show; otherwise the landing page. */
  function Shown(v: View, hasProduct: bool, hasCheckout: bool, hasOrder: bool): (w: View)
    ensures w == v || w == Home
    ensures w.Home? && !v.Home? ==>
      || ((v.CustomizerPage? || v.ProductPage?) && !hasProduct)
      || (v.PaymentPage? && !hasCheckout)
      || (v.Confirmation? && !hasOrder)
  {
    match v
    case CustomizerPage => if hasProduct then v else Home
    case ProductPage => if hasProduct then v else Home
    case PaymentPage => if hasCheckout then v else Home
    case Confirmation => if hasOrder then v else Home
    case _ => v
  }

  /** `orders.find(o => o.id === id)` found something. */
  function Listed(orders: seq<Order>, id: string): (b: bool)
    ensures b <==> exists i :: 0 <= i < |orders| && orders[i].id == id
  {
    if orders == [] then false
    else if orders[0].id == id then true
    else
      var b := Listed(orders[1..], id);
      assert forall i :: 0 < i < |orders| ==> orders[i] == orders[1..][i - 1];
      b
  }

  // ---------------------------------------------------------------------
  // Order numbers

  /** `Math.floor(1000 + r * 9000)` for `r` in [0, 1). */
  function OrderNumber(r: real): (n: int)
    requires 0.0 <= r < 1.0
    ensures 1000 <= n <= 9999
  {
    (1000.0 + r * 9000.0).Floor
  }

  /** The order id: "#YBZ" and four digits. */
  function OrderId(r: real): (id: string)
    requires 0.0 <= r < 1.0
    ensures |id| == 8 && id[..4] == "#YBZ" && AllDigits(id[4..])
    ensures DigitsValue(id[4..]) == OrderNumber(r)
  {
    var n := OrderNumber(r);
    FourDigits(n);
    NatToStringRoundTrip(n);
    var id := "#YBZ" + NatToString(n);
    assert id[4..] == NatToString(n);
    id
  }

  lemma FourDigits(n: nat)
    requires 1000 <= n <= 9999
    ensures |NatToString(n)| == 4
  {
    assert |NatToString(n / 1000)| == 1;
    assert |NatToString(n / 100)| == 2;
    assert |NatToString(n / 10)| == 3;
  }

  // ---------------------------------------------------------------------
  // The application state

  class App {
    var selectedProduct: Option<int>
    var currentView: View
    var cart: seq<CartItem>
    var checkoutData: Option<CheckoutData>
    var orders: seq<Order>
    var viewingOrder: Option<Order>

    ghost predicate Valid()
      reads this
    {
      && QuantitiesPositive(cart)
      && (currentView == ProductPage || currentView == CustomizerPage ==> selectedProduct.Some?)
      && (currentView == CheckoutPage || currentView == PaymentPage ==> cart != [])
      && (currentView == PaymentPage ==> checkoutData.Some?)
      && (currentView == Confirmation ==> viewingOrder.Some?)
      && (forall i :: 0 <= i < |orders| ==> Consistent(orders[i]))
      && (viewingOrder.Some? ==> Consistent(viewingOrder.value))
    }

    constructor ()
      ensures Valid()
      ensures currentView == Home && selectedProduct.None? && cart == []
      ensures checkoutData.None? && orders == [] && viewingOrder.None?
    {
      selectedProduct := None;
      currentView := Home;
      cart := [];
      checkoutData := None;
      orders := [];
      viewingOrder := None;
    }

    /** In a valid state the routing renders the current page. */
    lemma RoutingShowsCurrentView()
      requires Valid()
      ensures Shown(currentView, selectedProduct.Some?, checkoutData.Some?, viewingOrder.Some?) == currentView
    {
    }

    /** `handleProductClick`. */
    method ProductClick(productId: int)
      requires Valid()
      modifies this
      ensures Valid()
      ensures selectedProduct == Some(productId) && currentView == ProductPage
      ensures cart == old(cart) && orders == old(orders) && checkoutData == old(checkoutData)
      ensures viewingOrder == old(viewingOrder)
    {
      selectedProduct := Some(productId);
      currentView := ProductPage;
    }

    /** `handleBack`; leaving the product page or the cart for the home page
        also forgets the selected product. */
    method GoBack()
      requires Valid()
      modifies this
      ensures Valid()
      ensures currentView == Back(old(currentView),
        old(viewingOrder).Some? && Listed(old(orders), old(viewingOrder).value.id))
      ensures old(currentView) == ProductPage || old(currentView) == CartPage ==> selectedProduct.None?
      ensures old(currentView) != ProductPage && old(currentView) != CartPage ==>
        selectedProduct == old(selectedProduct)
      ensures cart == old(cart) && orders == old(orders) && checkoutData == old(checkoutData)
      ensures viewingOrder == old(viewingOrder)
    {
      var listed := viewingOrder.Some? && Listed(orders, viewingOrder.value.id);
      if currentView == ProductPage || currentView == CartPage {
        selectedProduct := None;
      }
      currentView := Back(currentView, listed);
    }

    /** `handleStartCustomizing`, from the product page. */
    method StartCustomizing()
      requires Valid() && currentView == ProductPage
      modifies this
      ensures Valid() && currentView == CustomizerPage
      ensures selectedProduct == old(selectedProduct) && cart == old(cart)
      ensures orders == old(orders) && checkoutData == old(checkoutData) && viewingOrder == old(viewingOrder)
    {
      currentView := CustomizerPage;
    }

    /** `handleAddToCart`: the customizer's line, with an id made from the
        clock reading `now` (milliseconds), is appended and the cart
        shown. */
    method AddToCart(item: Customizer.LineItem, now: nat)
      requires Valid() && currentView == CustomizerPage && item.quantity == 1
      modifies this
      ensures Valid() && currentView == CartPage
      ensures cart == old(cart) + [CartItem(NatToString(now), item.productId, item.imgSrc,
        item.projectName, item.format, item.paperType, item.priceCents, item.quantity)]
      ensures Subtotal(cart) == Subtotal(old(cart)) + item.priceCents
      ensures selectedProduct == old(selectedProduct) && orders == old(orders)
      ensures checkoutData == old(checkoutData) && viewingOrder == old(viewingOrder)
    {
      var newItem := CartItem(NatToString(now), item.productId, item.imgSrc,
        item.projectName, item.format, item.paperType, item.priceCents, item.quantity);
      SubtotalAppend(cart, [newItem]);
      assert Subtotal([newItem]) == Cost(newItem) + Subtotal([]);
      cart := cart + [newItem];
      currentView := CartPage;
    }

    /** `handleUpdateCartQty`, from the "-" and "+" buttons of a line. */
    method UpdateCartQty(id: string, delta: int)
      requires Valid() && currentView == CartPage
      modifies this
      ensures Valid() && currentView == CartPage
      ensures cart == UpdateQty(old(cart), id, delta)
      ensures delta == 1 ==> Subtotal(cart) == Subtotal(old(cart)) + MatchingUnitPrice(old(cart), id)
      ensures selectedProduct == old(selectedProduct) && orders == old(orders)
      ensures checkoutData == old(checkoutData) && viewingOrder == old(viewingOrder)
    {
      UpdateQtyKeepsInvariant(cart, id, delta);
      if delta == 1 {
        IncrementRaisesSubtotal(cart, id);
      }
      cart := UpdateQty(cart, id, delta);
    }

    /** `handleRemoveFromCart`. */
    method RemoveFromCart(id: string)
      requires Valid() && currentView == CartPage
      modifies this
      ensures Valid() && currentView == CartPage
      ensures cart == Remove(old(cart), id)
      ensures Subtotal(cart) == Subtotal(old(cart)) - Subtotal(Matching(old(cart), id))
      ensures selectedProduct == old(selectedProduct) && orders == old(orders)
      ensures checkoutData == old(checkoutData) && viewingOrder == old(viewingOrder)
    {
      RemoveKeepsInvariant(cart, id);
      RemoveLowersSubtotal(cart, id);
      cart := Remove(cart, id);
    }

    /** The logo and "continue shopping": the home page, no product
        selected. */
    method GoHome()
      requires Valid()
      modifies this
      ensures Valid() && currentView == Home && selectedProduct.None?
      ensures cart == old(cart) && orders == old(orders)
      ensures checkoutData == old(checkoutData) && viewingOrder == old(viewingOrder)
    {
      selectedProduct := None;
      currentView := Home;
    }

    /** The header's cart button. */
    method ShowCart()
      requires Valid()
      modifies this
      ensures Valid() && currentView == CartPage
      ensures selectedProduct == old(selectedProduct) && cart == old(cart) && orders == old(orders)
      ensures checkoutData == old(checkoutData) && viewingOrder == old(viewingOrder)
    {
      currentView := CartPage;
    }

    /** The header's orders button and the confirmation's "Ver Mis
        Pedidos". */
    method ShowOrders()
      requires Valid()
      modifies this
      ensures Valid() && currentView == OrdersPage
      ensures selectedProduct == old(selectedProduct) && cart == old(cart) && orders == old(orders)
      ensures checkoutData == old(checkoutData) && viewingOrder == old(viewingOrder)
    {
      currentView := OrdersPage;
    }

    /** The order list's back button: home, the selection kept. */
    method LeaveOrders()
      requires Valid() && currentView == OrdersPage
      modifies this
      ensures Valid() && currentView == Home
      ensures selectedProduct == old(selectedProduct) && cart == old(cart) && orders == old(orders)
      ensures checkoutData == old(checkoutData) && viewingOrder == old(viewingOrder)
    {
      currentView := Home;
    }

    /** `handleProceedToCheckout`, offered only for a non-empty cart. */
    method ProceedToCheckout()
      requires Valid() && currentView == CartPage && cart != []
      modifies this
      ensures Valid() && currentView == CheckoutPage
      ensures selectedProduct == old(selectedProduct) && cart == old(cart) && orders == old(orders)
      ensures checkoutData == old(checkoutData) && viewingOrder == old(viewingOrder)
    {
      currentView := CheckoutPage;
    }

    /** `handleProceedToPayment`, with what the checkout form handed on. */
    method ProceedToPayment(data: CheckoutData)
      requires Valid() && currentView == CheckoutPage
      modifies this
      ensures Valid() && currentView == PaymentPage && checkoutData == Some(data)
      ensures selectedProduct == old(selectedProduct) && cart == old(cart) && orders == old(orders)
      ensures viewingOrder == old(viewingOrder)
    {
      checkoutData := Some(data);
      currentView := PaymentPage;
    }

    /**
     * `handleConfirmPayment`: without checkout data nothing happens; the
     * guard mirrors App.tsx:178 and cannot fire in a valid state, where the
     * payment page always has checkout data.
     * Otherwise a new order holding the cart, at subtotal plus shipping,
     * is put at the head of the history and shown, and the cart and the
     * checkout data are cleared. `r` is the random draw behind the order
     * number; the dates are as the browser formats them.
     */
    method ConfirmPayment(r: real, date: string, estimatedDate: string) returns (placed: Option<Order>)
      requires Valid() && currentView == PaymentPage && 0.0 <= r < 1.0
      modifies this
      ensures Valid()
      ensures placed.None? <==> old(checkoutData).None?
      ensures placed.None? ==>
        && cart == old(cart) && orders == old(orders) && currentView == old(currentView)
        && viewingOrder == old(viewingOrder) && checkoutData == old(checkoutData)
      ensures placed.Some? ==>
        && placed.value == Order(OrderId(r), date, ProcessingStatus, estimatedDate,
             old(checkoutData).value.deliveryType, old(cart),
             Subtotal(old(cart)) + ShippingCents(old(checkoutData).value.deliveryType))
        && orders == [placed.value] + old(orders)
        && viewingOrder == placed
        && cart == [] && checkoutData.None? && currentView == Confirmation
      ensures selectedProduct == old(selectedProduct)
    {
      if checkoutData.None? {
        return None;
      }
      var delivery := checkoutData.value.deliveryType;
      var total := Subtotal(cart) + ShippingCents(delivery);
      var newOrder := Order(OrderId(r), date, ProcessingStatus, estimatedDate, delivery, cart, total);
      assert Consistent(newOrder);
      HistoryStaysConsistent(newOrder, orders);
      orders := [newOrder] + orders;
      viewingOrder := Some(newOrder);
      cart := [];
      checkoutData := None;
      currentView := Confirmation;
      placed := Some(newOrder);
    }

    /** `handleReturnToHome`, from the confirmation: everything but the
        order history is reset. */
    method ReturnToHome()
      requires Valid()
      modifies this
      ensures Valid() && currentView == Home
      ensures cart == [] && selectedProduct.None? && checkoutData.None? && viewingOrder.None?
      ensures orders == old(orders)
    {
      cart := [];
      selectedProduct := None;
      checkoutData := None;
      viewingOrder := None;
      currentView := Home;
    }

    /** `handleViewOrderDetails`, for an order of the list. */
    method ViewOrderDetails(i: nat)
      requires Valid() && currentView == OrdersPage && i < |orders|
      modifies this
      ensures Valid() && currentView == Confirmation
      ensures orders == old(orders) && viewingOrder == Some(orders[i])
      ensures selectedProduct == old(selectedProduct) && cart == old(cart) && checkoutData == old(checkoutData)
    {
      viewingOrder := Some(orders[i]);
      currentView := Confirmation;
    }
  }

  lemma HistoryStaysConsistent(o: Order, orders: seq<Order>)
    requires Consistent(o) && forall i :: 0 <= i < |orders| ==> Consistent(orders[i])
    ensures forall i :: 0 <= i < |[o] + orders| ==> Consistent(([o] + orders)[i])
  {
  }

  /** Two recorded orders for the same items differ in total only through
      the delivery choice: equal totals exactly for equal choices, and a
      delivered order costs 5.00 more than the same items picked up. */
  lemma TotalDependsOnDeliveryOnlyByShipping(o1: Order, o2: Order)
    requires Consistent(o1) && Consistent(o2) && o1.items == o2.items
    ensures o1.totalCents == o2.totalCents <==> o1.deliveryType == o2.deliveryType
    ensures o1.totalCents - o2.totalCents == ShippingCents(o1.deliveryType) - ShippingCents(o2.deliveryType)
    ensures o1.deliveryType.Delivery? && o2.deliveryType.Pickup? ==> o1.totalCents == o2.totalCents + 500
  {
  }

  /** Back from a placed order's confirmation leads to the order list,
      which holds it. */
  lemma BackFromFreshConfirmation(o: Order, orders: seq<Order>)
    ensures Back(Confirmation, Listed([o] + orders, o.id)) == OrdersPage
  {
    assert ([o] + orders)[0].id == o.id;
  }
}
