/**
 * The database the core works on, and the operations that change it:
 * the cart view actions (carts/views.py), Address.save
 * (address/models.py), checkout (orders/views.py), the background
 * reconciliation task (orders/tasks.py) and PaymentService
 * (payments/services.py). Each operation is one atomic method; where the
 * source rolls a transaction back, the method restores what it had
 * written. The payment provider's answers and the outcome of the
 * confirmation mail are parameters.
 */
module Shop {
  import opened Wrappers
  import opened Catalog
  import opened Carts
  import opened Addresses
  import opened Orders
  import opened Payments
  import opened Checkout

  /** An order refers to existing variants, one line per variant, and its total is its lines' total and fits DECIMAL(12, 2). */
  predicate OrderValid(o: Order, stock: Stock)
  {
    && (forall i :: 0 <= i < |o.items| ==> o.items[i].variant in stock)
    && DistinctVariants(o.items)
    && o.totalPrice == ItemsTotal(o.items)
    && FitsTotal(o.totalPrice)
  }

  /** Payment.order is one-to-one and Payment.tx_ref is unique. */
  ghost predicate PaymentsUnique(payments: map<PaymentId, Payment>)
  {
    forall p, q :: p in payments && q in payments && p != q ==>
      payments[p].order != payments[q].order && payments[p].txRef != payments[q].txRef
  }

  /** Every variant has a stock row and SKUs are unique. */
  ghost predicate CatalogValid(variants: map<VariantId, Variant>, stock: Stock)
  {
    variants.Keys == stock.Keys && UniqueSkus(variants)
  }

  ghost predicate CartsValid(carts: map<UserId, seq<CartLine>>, variants: map<VariantId, Variant>)
  {
    forall u :: u in carts ==> CartValid(carts[u], variants)
  }

  ghost predicate OrdersValid(orders: map<OrderId, Order>, nextOrderId: OrderId, stock: Stock)
  {
    forall id :: id in orders ==> id < nextOrderId && OrderValid(orders[id], stock)
  }

  /** Each payment belongs to an existing order and carries that order's total. */
  ghost predicate PaymentsValid(payments: map<PaymentId, Payment>, nextPaymentId: PaymentId, orders: map<OrderId, Order>)
  {
    && (forall p :: p in payments ==>
          && p < nextPaymentId
          && payments[p].order in orders
          && payments[p].amount == orders[payments[p].order].totalPrice)
    && PaymentsUnique(payments)
  }

  predicate RefTaken(payments: map<PaymentId, Payment>, ref: string)
  {
    exists p :: p in payments && payments[p].txRef == ref
  }

  predicate OrderHasPayment(payments: map<PaymentId, Payment>, orderId: OrderId)
  {
    exists p :: p in payments && payments[p].order == orderId
  }

  /**
   * The state verify_payment leaves once the provider has reported on
   * payment p: paid, the payment is `success`, its order confirmed and
   * every line's quantity taken from stock; not paid, the payment is
   * `failed`, its order cancelled and stock untouched.
   */
  ghost predicate Settled(
    payments: map<PaymentId, Payment>, orders: map<OrderId, Order>, stock: Stock,
    payments': map<PaymentId, Payment>, orders': map<OrderId, Order>, stock': Stock,
    p: PaymentId, paid: bool)
    requires p in payments && payments[p].order in orders
  {
    var pay := payments[p];
    var o := orders[pay.order];
    if paid then
      && payments' == payments[p := pay.(status := Success)]
      && orders' == orders[pay.order := o.(status := Confirmed)]
      && stock' == Deduct(stock, o.items)
    else
      && payments' == payments[p := pay.(status := Failed)]
      && orders' == orders[pay.order := o.(status := Cancelled)]
      && stock' == stock
  }

  /**
   * A successful verification followed by a full refund of the same
   * payment: the refund adds back exactly what the verification took,
   * so every variant's stock is where it was before the verification.
   */
  lemma VerifyThenRefundRestoresStock(
    payments: map<PaymentId, Payment>, orders: map<OrderId, Order>, stock: Stock,
    payments': map<PaymentId, Payment>, orders': map<OrderId, Order>, stock': Stock, p: PaymentId)
    requires p in payments && payments[p].order in orders
    requires Settled(payments, orders, stock, payments', orders', stock', p, true)
    ensures p in payments' && payments'[p].status == Success && payments'[p].order in orders'
    ensures Restore(stock', orders'[payments'[p].order].items) == stock
  {
    RestoreUndoesDeduct(stock, orders[payments[p].order].items);
  }

  /** The user's cart lines; no cart reads as no lines. */
  function LinesIn(carts: map<UserId, seq<CartLine>>, user: UserId): seq<CartLine>
  {
    if user in carts then carts[user] else []
  }

  /**
   * What CartViewSet.create does to the carts once the variant v is
   * found: the existing line's quantity grows by `quantity`; otherwise a
   * new line is inserted with the default quantity 1 (get_or_create) and
   * then given `quantity`. A negative result is refused by the column's
   * non-negative check; the request's transaction then rolls back the
   * rows get_or_create inserted, so a refused add changes no cart.
   */
  predicate Added(carts: map<UserId, seq<CartLine>>, carts': map<UserId, seq<CartLine>>,
                  user: UserId, v: VariantId, quantity: int, r: CartResult)
  {
    var before := LinesIn(carts, user);
    match FindLine(before, v)
    case Some(i) =>
      var q := before[i].quantity + quantity;
      if q < 0 then r == CartFailed(QuantityRejected) && carts' == carts
      else r == ItemAdded && carts' == carts[user := before[i := CartLine(v, q)]]
    case None =>
      if quantity < 0 then r == CartFailed(QuantityRejected) && carts' == carts
      else r == ItemAdded && carts' == carts[user := before + [CartLine(v, quantity)]]
  }

  /** A successful add raises the cart total by quantity times the variant's price. */
  lemma AddedTotal(carts: map<UserId, seq<CartLine>>, carts': map<UserId, seq<CartLine>>,
                   user: UserId, v: VariantId, quantity: int, r: CartResult, variants: map<VariantId, Variant>)
    requires Priced(LinesIn(carts, user), variants) && v in variants
    requires Added(carts, carts', user, v, quantity, r) && r == ItemAdded
    ensures Priced(LinesIn(carts', user), variants)
    ensures CartTotal(LinesIn(carts', user), variants)
      == CartTotal(LinesIn(carts, user), variants) + quantity * variants[v].price
  {
    var before := LinesIn(carts, user);
    match FindLine(before, v)
    case Some(i) =>
      TotalIncrease(before, i, quantity, variants);
    case None =>
      TotalAppend(before, CartLine(v, quantity), variants);
  }

  /**
   * What CartViewSet.reduce_item does once the variant v is found: a
   * missing cart or line is a 404; a line with no more than `quantity`
   * is deleted; otherwise its quantity drops by `quantity`.
   */
  predicate Reduced(carts: map<UserId, seq<CartLine>>, carts': map<UserId, seq<CartLine>>,
                    user: UserId, v: VariantId, quantity: int, r: CartResult)
  {
    if user !in carts then r == CartFailed(NotFound) && carts' == carts
    else
      var lines := carts[user];
      match FindLine(lines, v)
      case None => r == CartFailed(NotFound) && carts' == carts
      case Some(i) =>
        if lines[i].quantity <= quantity then r == ItemRemoved && carts' == carts[user := Without(lines, i)]
        else r == QuantityReduced && carts' == carts[user := lines[i := CartLine(lines[i].variant, lines[i].quantity - quantity)]]
  }

  /** What CartViewSet.remove_item does once the variant v is found. */
  predicate Removed(carts: map<UserId, seq<CartLine>>, carts': map<UserId, seq<CartLine>>,
                    user: UserId, v: VariantId, r: CartResult)
  {
    if user !in carts then r == CartFailed(NotFound) && carts' == carts
    else
      match FindLine(carts[user], v)
      case None => r == CartFailed(NotFound) && carts' == carts
      case Some(i) => r == ItemRemoved && carts' == carts[user := Without(carts[user], i)]
  }

  /**
   * Reducing takes the smaller of `quantity` and the line's quantity off
   * the line, and that many units' price off the cart total; the line
   * left behind, if any, holds at least one unit.
   */
  lemma ReducedTotal(carts: map<UserId, seq<CartLine>>, carts': map<UserId, seq<CartLine>>,
                     user: UserId, v: VariantId, quantity: int, r: CartResult, variants: map<VariantId, Variant>)
    requires user in carts ==> Priced(carts[user], variants)
    requires Reduced(carts, carts', user, v, quantity, r) && !r.CartFailed?
    ensures user in carts && user in carts' && FindLine(carts[user], v).Some?
    ensures Priced(carts'[user], variants)
    ensures r == ItemRemoved ==>
      CartTotal(carts'[user], variants) == CartTotal(carts[user], variants) - Subtotal(carts[user][FindLine(carts[user], v).value], variants)
    ensures r == QuantityReduced ==>
      && CartTotal(carts'[user], variants) == CartTotal(carts[user], variants) - quantity * variants[v].price
      && carts'[user][FindLine(carts[user], v).value].quantity >= 1
  {
    var lines := carts[user];
    var i := FindLine(lines, v).value;
    if lines[i].quantity <= quantity {
      TotalWithout(lines, i, variants);
    } else {
      TotalReduce(lines, i, quantity, variants);
    }
  }

  /** Removing a line takes its subtotal off the cart total and leaves no line for the variant. */
  lemma RemovedTotal(carts: map<UserId, seq<CartLine>>, carts': map<UserId, seq<CartLine>>,
                     user: UserId, v: VariantId, r: CartResult, variants: map<VariantId, Variant>)
    requires user in carts ==> CartValid(carts[user], variants)
    requires Removed(carts, carts', user, v, r) && r == ItemRemoved
    ensures user in carts && user in carts' && FindLine(carts[user], v).Some?
    ensures Priced(carts'[user], variants)
    ensures CartTotal(carts'[user], variants)
      == CartTotal(carts[user], variants) - Subtotal(carts[user][FindLine(carts[user], v).value], variants)
    ensures FindLine(carts'[user], v).None?
  {
    var lines := carts[user];
    var i := FindLine(lines, v).value;
    TotalWithout(lines, i, variants);
    WithoutKeepsUnique(lines, i);
  }

  /** The order checkout writes for a valid cart whose total fits the column is a valid order. */
  lemma SnapshotOrderValid(lines: seq<CartLine>, variants: map<VariantId, Variant>, stock: Stock, o: Order)
    requires CartValid(lines, variants) && variants.Keys == stock.Keys
    requires o.items == Snapshot(lines, variants) && o.totalPrice == CartTotal(lines, variants)
    requires FitsTotal(o.totalPrice)
    ensures OrderValid(o, stock)
    ensures ItemsTotal(o.items) == o.totalPrice
  {
    SnapshotTotal(lines, variants);
    SnapshotDistinct(lines, variants);
  }

  /** Changing an order's status keeps the order and payment invariants. */
  lemma OrderStatusKeepsValid(
    orders: map<OrderId, Order>, nextOrderId: OrderId, stock: Stock,
    payments: map<PaymentId, Payment>, nextPaymentId: PaymentId, id: OrderId, status: OrderStatus)
    requires OrdersValid(orders, nextOrderId, stock) && PaymentsValid(payments, nextPaymentId, orders)
    requires id in orders
    ensures OrdersValid(orders[id := orders[id].(status := status)], nextOrderId, stock)
    ensures PaymentsValid(payments, nextPaymentId, orders[id := orders[id].(status := status)])
  {
  }

  /** Changing a payment's status keeps the payment invariant. */
  lemma PaymentStatusKeepsValid(
    payments: map<PaymentId, Payment>, nextPaymentId: PaymentId, orders: map<OrderId, Order>,
    p: PaymentId, status: PaymentStatus)
    requires PaymentsValid(payments, nextPaymentId, orders) && p in payments
    ensures PaymentsValid(payments[p := payments[p].(status := status)], nextPaymentId, orders)
  {
  }

  /** Stock movements keep the stock rows, so the orders stay valid. */
  lemma StockKeysKeepOrdersValid(orders: map<OrderId, Order>, nextOrderId: OrderId, stock: Stock, stock': Stock)
    requires OrdersValid(orders, nextOrderId, stock) && stock'.Keys == stock.Keys
    ensures OrdersValid(orders, nextOrderId, stock')
  {
  }

  /** A valid new order under the next id keeps the order and payment invariants. */
  lemma NewOrderKeepsValid(
    orders: map<OrderId, Order>, nextOrderId: OrderId, stock: Stock,
    payments: map<PaymentId, Payment>, nextPaymentId: PaymentId, o: Order)
    requires OrdersValid(orders, nextOrderId, stock) && PaymentsValid(payments, nextPaymentId, orders)
    requires OrderValid(o, stock)
    ensures OrdersValid(orders[nextOrderId := o], nextOrderId + 1, stock)
    ensures PaymentsValid(payments, nextPaymentId, orders[nextOrderId := o])
  {
  }

  /** A new payment for an order without one, under an unused reference and for the order's total, keeps the payment invariant. */
  lemma NewPaymentKeepsValid(
    payments: map<PaymentId, Payment>, nextPaymentId: PaymentId, orders: map<OrderId, Order>, pay: Payment)
    requires PaymentsValid(payments, nextPaymentId, orders)
    requires pay.order in orders && pay.amount == orders[pay.order].totalPrice
    requires !OrderHasPayment(payments, pay.order) && !RefTaken(payments, pay.txRef)
    ensures PaymentsValid(payments[nextPaymentId := pay], nextPaymentId + 1, orders)
  {
  }

  /** Replacing one user's cart by a valid one keeps every cart valid. */
  lemma CartUpdateKeepsValid(carts: map<UserId, seq<CartLine>>, variants: map<VariantId, Variant>, user: UserId, lines: seq<CartLine>)
    requires CartsValid(carts, variants) && CartValid(lines, variants)
    ensures CartsValid(carts[user := lines], variants)
  {
  }

  class Store {
    var variants: map<VariantId, Variant>
    var stock: Stock
    var carts: map<UserId, seq<CartLine>>
    var addresses: seq<AddressRow>
    var nextAddressId: AddressId
    var orders: map<OrderId, Order>
    var nextOrderId: OrderId
    var payments: map<PaymentId, Payment>
    var nextPaymentId: PaymentId

    /** The database constraints and the invariants the operations keep. */
    ghost predicate Valid()
      reads this
    {
      && CatalogValid(variants, stock)
      && CartsValid(carts, variants)
      && RowsValid(addresses, nextAddressId)
      && OrdersValid(orders, nextOrderId, stock)
      && PaymentsValid(payments, nextPaymentId, orders)
    }

    constructor (catalog: map<VariantId, Variant>, initialStock: Stock)
      requires catalog.Keys == initialStock.Keys && UniqueSkus(catalog)
      ensures Valid()
      ensures variants == catalog && stock == initialStock
      ensures carts == map[] && addresses == [] && orders == map[] && payments == map[]
    {
      variants, stock := catalog, initialStock;
      carts, addresses, nextAddressId := map[], [], 0;
      orders, nextOrderId := map[], 0;
      payments, nextPaymentId := map[], 0;
    }

    /** The variant a SKU names, if any. */
    ghost function SkuVariant(sku: string): (r: Option<VariantId>)
      reads this
      ensures r.Some? ==> r.value in variants && variants[r.value].sku == sku
      ensures r.None? ==> forall v :: v in variants ==> variants[v].sku != sku
    {
      if exists v :: v in variants && variants[v].sku == sku then
        var v :| v in variants && variants[v].sku == sku; Some(v)
      else None
    }

    // ---------------------------------------------------------------
    // Cart view actions (carts/views.py)
    // ---------------------------------------------------------------

    /**
     * CartViewSet.create: add `quantity` of the variant with this SKU to
     * the user's cart, creating the cart if need be.
     */
    method AddItem(user: UserId, sku: string, quantity: int) returns (r: CartResult)
      requires Valid()
      modifies this`carts
      ensures Valid()
      ensures SkuVariant(sku).None? ==> r == CartFailed(NotFound) && carts == old(carts)
      ensures SkuVariant(sku).Some? ==> Added(old(carts), carts, user, SkuVariant(sku).value, quantity, r)
    {
      var found := FindVariantBySku(variants, sku);
      if found.None? {
        return CartFailed(NotFound);
      }
      assert SkuVariant(sku) == found;
      r := AddVariant(user, found.value, quantity);
    }

    /** The body of CartViewSet.create once the variant is found. */
    method AddVariant(user: UserId, v: VariantId, quantity: int) returns (r: CartResult)
      requires Valid() && v in variants
      modifies this`carts
      ensures Valid()
      ensures Added(old(carts), carts, user, v, quantity, r)
    {
      var lines := LinesIn(carts, user);  // get_or_create: a new cart has no lines
      match FindLine(lines, v) {
        case Some(i) =>
          var q := lines[i].quantity + quantity;
          if q < 0 {
            return CartFailed(QuantityRejected);
          }
          SetQuantityKeepsUnique(lines, i, q);
          SetLines(user, lines[i := CartLine(v, q)]);
        case None =>
          // the line is inserted with the default quantity ...
          var saved := carts;
          AppendAbsentKeepsUnique(lines, v, DefaultQuantity);
          SetLines(user, lines + [CartLine(v, DefaultQuantity)]);
          if quantity < 0 {
            // the refused save aborts the request's transaction
            RollBackCarts(saved);
            return CartFailed(QuantityRejected);
          }
          // ... and then given the requested one
          AppendAbsentKeepsUnique(lines, v, quantity);
          SetLines(user, lines + [CartLine(v, quantity)]);
          assert carts == old(carts)[user := lines + [CartLine(v, quantity)]];
      }
      r := ItemAdded;
    }

    /**
     * CartViewSet.reduce_item: take `quantity` off the line of the variant
     * with this SKU, deleting the line when that leaves nothing.
     */
    method ReduceItem(user: UserId, sku: string, quantity: int) returns (r: CartResult)
      requires Valid()
      modifies this`carts
      ensures Valid()
      ensures SkuVariant(sku).None? ==> r == CartFailed(NotFound) && carts == old(carts)
      ensures SkuVariant(sku).Some? ==> Reduced(old(carts), carts, user, SkuVariant(sku).value, quantity, r)
    {
      var found := FindVariantBySku(variants, sku);
      if found.None? {
        return CartFailed(NotFound);
      }
      assert SkuVariant(sku) == found;
      r := ReduceVariant(user, found.value, quantity);
    }

    /** The body of CartViewSet.reduce_item once the variant is found. */
    method ReduceVariant(user: UserId, v: VariantId, quantity: int) returns (r: CartResult)
      requires Valid()
      modifies this`carts
      ensures Valid()
      ensures Reduced(old(carts), carts, user, v, quantity, r)
    {
      if user !in carts {
        return CartFailed(NotFound);
      }
      var lines := carts[user];
      match FindLine(lines, v) {
        case None =>
          return CartFailed(NotFound);
        case Some(i) =>
          if lines[i].quantity <= quantity {
            WithoutKeepsUnique(lines, i);
            SetLines(user, Without(lines, i));
            return ItemRemoved;
          }
          var left := lines[i].quantity - quantity;
          SetQuantityKeepsUnique(lines, i, left);
          SetLines(user, lines[i := CartLine(lines[i].variant, left)]);
          r := QuantityReduced;
      }
    }

    /** CartViewSet.remove_item: delete the line of the variant with this SKU. */
    method RemoveItem(user: UserId, sku: string) returns (r: CartResult)
      requires Valid()
      modifies this`carts
      ensures Valid()
      ensures SkuVariant(sku).None? ==> r == CartFailed(NotFound) && carts == old(carts)
      ensures SkuVariant(sku).Some? ==> Removed(old(carts), carts, user, SkuVariant(sku).value, r)
    {
      var found := FindVariantBySku(variants, sku);
      if found.None? {
        return CartFailed(NotFound);
      }
      assert SkuVariant(sku) == found;
      if user !in carts {
        return CartFailed(NotFound);
      }
      var lines := carts[user];
      match FindLine(lines, found.value) {
        case None =>
          return CartFailed(NotFound);
        case Some(i) =>
          WithoutKeepsUnique(lines, i);
          SetLines(user, Without(lines, i));
          r := ItemRemoved;
      }
    }

    /** Write a user's cart lines. */
    /** A transaction rollback: the carts return to a state in which the invariant held. */
    method RollBackCarts(saved: map<UserId, seq<CartLine>>)
      requires Valid() && CartsValid(saved, variants)
      modifies this`carts
      ensures Valid()
      ensures carts == saved
    {
      carts := saved;
    }

    method SetLines(user: UserId, lines: seq<CartLine>)
      requires Valid() && CartValid(lines, variants)
      modifies this`carts
      ensures Valid()
      ensures carts == old(carts)[user := lines]
    {
      CartUpdateKeepsValid(carts, variants, user, lines);
      carts := carts[user := lines];
    }

    /** CartViewSet.destroy: carts cannot be deleted; nothing changes. */
    method DestroyCart(user: UserId) returns (r: CartResult)
      ensures r == CartFailed(MethodNotAllowed)
    {
      r := CartFailed(MethodNotAllowed);
    }

    // ---------------------------------------------------------------
    // Address.save (address/models.py:19-34)
    // ---------------------------------------------------------------

    /**
     * Save address `a`, an update of the row with key `pk` or, when `pk`
     * is None, a new row. Returns the row's key.
     */
    method SaveAddress(pk: Option<AddressId>, a: Address) returns (id: AddressId)
      requires Valid()
      requires SaveTarget(addresses, pk, a)
      modifies this`addresses, this`nextAddressId
      ensures Valid()
      ensures addresses == SaveRows(old(addresses), pk, old(nextAddressId), a)
      ensures pk.Some? ==> id == pk.value && nextAddressId == old(nextAddressId)
      ensures pk.None? ==> id == old(nextAddressId) && nextAddressId == old(nextAddressId) + 1
      ensures DefaultCount(old(addresses), a.user) <= 1 ==> DefaultCount(addresses, a.user) == 1
    {
      ghost var rows := addresses;
      // 1. the user's first address is the default
      var flag := a.isDefault;
      if !exists i :: 0 <= i < |addresses| && addresses[i].address.user == a.user {
        flag := true;
      }
      if flag {
        // 2. a default unsets the user's other defaults
        ClearOtherDefaults(a.user, pk);
      } else if !HasOtherDefault(addresses, a.user, pk) {
        // 3. the only default cannot be unset
        flag := true;
        assert addresses == ClearOthers(rows, a.user, pk);
      }
      assert flag == SavedFlag(rows, pk, a);
      ClearKeepsKeys(rows, a.user, pk);
      id := WriteRow(pk, a.(isDefault := flag));
      if DefaultCount(rows, a.user) <= 1 {
        SaveKeepsOneDefault(rows, old(nextAddressId), pk, a);
      }
    }

    /** The bulk update of Address.save's step 2, one row at a time. */
    method ClearOtherDefaults(user: UserId, pk: Option<AddressId>)
      requires Valid()
      modifies this`addresses
      ensures Valid()
      ensures addresses == ClearOthers(old(addresses), user, pk)
    {
      var rows := addresses;
      var cleared := rows;
      var i := 0;
      while i < |rows|
        invariant 0 <= i <= |rows|
        invariant rows == old(addresses) == addresses
        invariant |cleared| == |rows|
        invariant forall k :: 0 <= k < i ==> cleared[k] == ClearRow(rows[k], user, pk)
        invariant forall k :: i <= k < |rows| ==> cleared[k] == rows[k]
      {
        if IsOtherDefault(rows[i], user, pk) {
          cleared := cleared[i := rows[i].(address := rows[i].address.(isDefault := false))];
        }
        i := i + 1;
      }
      ClearKeepsKeys(rows, user, pk);
      RowsValidSameKeys(rows, cleared, nextAddressId);
      addresses := cleared;
    }

    /** super().save(): update the row with key pk, or insert a new row under the next key. */
    method WriteRow(pk: Option<AddressId>, a: Address) returns (id: AddressId)
      requires Valid()
      requires pk.Some? ==> FindRow(addresses, pk.value).Some?
      modifies this`addresses, this`nextAddressId
      ensures Valid()
      ensures addresses == Upsert(old(addresses), pk, old(nextAddressId), a)
      ensures pk.Some? ==> id == pk.value && nextAddressId == old(nextAddressId)
      ensures pk.None? ==> id == old(nextAddressId) && nextAddressId == old(nextAddressId) + 1
    {
      UpsertKeepsRowsValid(addresses, nextAddressId, pk, a);
      if pk.Some? {
        var k := FindRow(addresses, pk.value).value;
        KeyIndex(addresses, nextAddressId, k, pk.value);
        addresses := addresses[k := AddressRow(pk.value, a)];
        id := pk.value;
      } else {
        addresses := addresses + [AddressRow(nextAddressId, a)];
        id := nextAddressId;
        nextAddressId := nextAddressId + 1;
      }
    }

    // ---------------------------------------------------------------
    // CheckoutView.post (orders/views.py:18-76)
    // ---------------------------------------------------------------

    /**
     * Turn the user's cart into a pending order: one price-snapshot line
     * per cart line, the cart total as the order total, the default
     * address's text as the shipping snapshot. Touches no stock and
     * leaves the cart as it is.
     */
    method Checkout(user: UserId) returns (r: CheckoutResult)
      requires Valid()
      modifies this`orders, this`nextOrderId
      ensures Valid()
      ensures r.CheckoutFailed? ==> orders == old(orders) && nextOrderId == old(nextOrderId)
      ensures user !in carts ==> r == CheckoutFailed(CartNotFound)
      ensures user in carts && carts[user] == [] ==> r == CheckoutFailed(CartEmpty)
      ensures user in carts && carts[user] != [] && FirstDefault(addresses, user).None? ==> r == CheckoutFailed(NoDefaultAddress)
      ensures user in carts && carts[user] != [] && FirstDefault(addresses, user).Some? ==>
        var lines := carts[user];
        match FirstShortLine(lines, stock)
        case Some(i) =>
          r == CheckoutFailed(NotEnoughStock(lines[i].variant, stock[lines[i].variant], lines[i].quantity))
        case None =>
          var total := CartTotal(lines, variants);
          if !FitsTotal(total) then r == CheckoutFailed(TotalTooLarge)
          else
            && r == OrderCreated(old(nextOrderId), total)
            && nextOrderId == old(nextOrderId) + 1
            && orders == old(orders)[old(nextOrderId) := Order(
                 user, Display(addresses[FirstDefault(addresses, user).value].address),
                 total, OrderStatus.Pending, Snapshot(lines, variants))]
            && ItemsTotal(orders[old(nextOrderId)].items) == total
    {
      if user !in carts {
        return CheckoutFailed(CartNotFound);
      }
      var lines := carts[user];
      if |lines| == 0 {
        return CheckoutFailed(CartEmpty);
      }
      var address := FirstDefault(addresses, user);
      if address.None? {
        return CheckoutFailed(NoDefaultAddress);
      }
      // advisory stock pre-check
      var short := PreCheck(lines);
      if short.Some? {
        var line := lines[short.value];
        return CheckoutFailed(NotEnoughStock(line.variant, stock[line.variant], line.quantity));
      }
      var total := CartTotal(lines, variants);
      if !FitsTotal(total) {
        return CheckoutFailed(TotalTooLarge);
      }
      // 2. its lines, priced at the variants' current prices
      var items := SnapshotItems(lines);
      // 1. the pending order, written with its lines in one transaction
      var o := Order(user, Display(addresses[address.value].address), total, OrderStatus.Pending, items);
      SnapshotOrderValid(lines, variants, stock, o);
      var id := PlaceOrder(o);
      r := OrderCreated(id, total);
    }

    /** The loop over the cart lines that stops at the first line the stock cannot cover. */
    method PreCheck(lines: seq<CartLine>) returns (short: Option<nat>)
      requires Valid() && Priced(lines, variants)
      ensures short == FirstShortLine(lines, stock)
    {
      var i := 0;
      while i < |lines|
        invariant 0 <= i <= |lines|
        invariant forall k :: 0 <= k < i ==> LineInStock(lines[k], stock)
      {
        if stock[lines[i].variant] < lines[i].quantity {
          FirstShortLineAt(lines, stock, i);
          return Some(i);
        }
        i := i + 1;
      }
      return None;
    }

    /** The loop that writes one order line per cart line at the variant's current price. */
    method SnapshotItems(lines: seq<CartLine>) returns (items: seq<OrderItem>)
      requires Priced(lines, variants)
      ensures items == Snapshot(lines, variants)
    {
      items := [];
      var i := 0;
      while i < |lines|
        invariant 0 <= i <= |lines|
        invariant |items| == i
        invariant forall k :: 0 <= k < i ==> items[k] == SnapshotLine(lines[k], variants)
      {
        items := items + [SnapshotLine(lines[i], variants)];
        i := i + 1;
      }
    }

    /** Order.objects.create: store the order under the next key. */
    method PlaceOrder(o: Order) returns (id: OrderId)
      requires Valid() && OrderValid(o, stock)
      modifies this`orders, this`nextOrderId
      ensures Valid()
      ensures id == old(nextOrderId) && nextOrderId == old(nextOrderId) + 1
      ensures orders == old(orders)[id := o]
    {
      NewOrderKeepsValid(orders, nextOrderId, stock, payments, nextPaymentId, o);
      id := nextOrderId;
      orders := orders[id := o];
      nextOrderId := nextOrderId + 1;
    }

    // ---------------------------------------------------------------
    // Stock movements shared by the confirmation and refund paths
    // ---------------------------------------------------------------

    /** `variant.stock_quantity -= item.quantity` for each line, with no check. */
    method TakeStock(items: seq<OrderItem>)
      requires Valid()
      requires forall i :: 0 <= i < |items| ==> items[i].variant in stock
      modifies this`stock
      ensures Valid()
      ensures stock == Deduct(old(stock), items)
    {
      var s := Deducted(items);
      DeductPointwise(stock, items);
      StockKeysKeepOrdersValid(orders, nextOrderId, stock, s);
      stock := s;
    }

    /** The loop of TakeStock: the stock levels after it, one line at a time. */
    method Deducted(items: seq<OrderItem>) returns (s: Stock)
      ensures s == Deduct(stock, items)
    {
      s := stock;
      var i := 0;
      while i < |items|
        invariant 0 <= i <= |items|
        invariant s == Deduct(stock, items[..i])
      {
        assert items[..i + 1] == items[..i] + [items[i]];
        DeductSnoc(stock, items[..i], items[i]);
        s := Adjust(s, items[i].variant, 0 - items[i].quantity);
        i := i + 1;
      }
      assert items[..i] == items;
    }

    /** `variant.stock_quantity += item.quantity` for each line. */
    method ReturnStock(items: seq<OrderItem>)
      requires Valid()
      requires forall i :: 0 <= i < |items| ==> items[i].variant in stock
      modifies this`stock
      ensures Valid()
      ensures stock == Restore(old(stock), items)
    {
      var s := Restored(items);
      RestorePointwise(stock, items);
      StockKeysKeepOrdersValid(orders, nextOrderId, stock, s);
      stock := s;
    }

    /** The loop of ReturnStock: the stock levels after it, one line at a time. */
    method Restored(items: seq<OrderItem>) returns (s: Stock)
      ensures s == Restore(stock, items)
    {
      s := stock;
      var i := 0;
      while i < |items|
        invariant 0 <= i <= |items|
        invariant s == Restore(stock, items[..i])
      {
        assert items[..i + 1] == items[..i] + [items[i]];
        RestoreSnoc(stock, items[..i], items[i]);
        s := Adjust(s, items[i].variant, items[i].quantity);
        i := i + 1;
      }
      assert items[..i] == items;
    }

    // ---------------------------------------------------------------
    // process_order_payment (orders/tasks.py:12-89)
    // ---------------------------------------------------------------

    /**
     * Reconcile an order: stop if it is already confirmed; compute the
     * sorted list of its variant ids, returned as `locks` (the order the
     * row locks are meant to be taken in); cancel it if any line is short;
     * otherwise deduct every line, confirm it and empty the owner's cart.
     * A missing cart or a failed confirmation mail raises inside the
     * transaction: everything is rolled back and the order is cancelled.
     */
    method ProcessOrderPayment(orderId: OrderId, mailSent: bool) returns (r: TaskOutcome, locks: seq<VariantId>)
      requires Valid()
      modifies this`orders, this`stock, this`carts
      ensures Valid()
      ensures orderId !in old(orders) ==>
        r == OrderMissing && locks == [] && orders == old(orders) && stock == old(stock) && carts == old(carts)
      ensures orderId in old(orders) ==>
        var o := old(orders)[orderId];
        var e := Reconcile(o, old(stock), o.user in old(carts), mailSent);
        && r == e.outcome
        && stock == e.stock
        && orders == old(orders)[orderId := o.(status := e.status)]
        && carts == (if e.clearsCart then old(carts)[o.user := []] else old(carts))
        && locks == (if o.status == Confirmed then [] else LockOrder(o.items))
    {
      if orderId !in orders {
        return OrderMissing, [];
      }
      var order := orders[orderId];
      if order.status == Confirmed {
        return AlreadyConfirmed, [];
      }
      locks := LockOrder(order.items);
      // stock check
      var short := CheckStock(order.items);
      if short.Some? {
        SetOrderStatus(orderId, Cancelled);
        return StockLow(short.value), locks;
      }
      r := ConfirmOrder(orderId, mailSent);
    }

    /** The task's loop over the order lines that stops at the first line the stock cannot serve. */
    method CheckStock(items: seq<OrderItem>) returns (short: Option<nat>)
      requires Valid()
      requires forall i :: 0 <= i < |items| ==> items[i].variant in stock
      ensures short == FirstShortfall(items, stock)
    {
      var i := 0;
      while i < |items|
        invariant 0 <= i <= |items|
        invariant forall k :: 0 <= k < i ==> Fits(items[k], stock)
      {
        if stock[items[i].variant] < items[i].quantity {
          FirstShortfallAt(items, stock, i);
          return Some(i);
        }
        i := i + 1;
      }
      return None;
    }

    /**
     * The rest of the task's transaction once every line passed the check:
     * deduct each line, confirm the order, empty the owner's cart and send
     * the confirmation mail. A missing cart or a failed mail raises: the
     * transaction rolls back and the handler cancels the order.
     */
    method ConfirmOrder(orderId: OrderId, mailSent: bool) returns (r: TaskOutcome)
      requires Valid() && orderId in orders
      modifies this`orders, this`stock, this`carts
      ensures Valid()
      ensures var o := old(orders[orderId]);
        if o.user in old(carts) && mailSent then
          && r == Completed
          && stock == Deduct(old(stock), o.items)
          && orders == old(orders)[orderId := o.(status := Confirmed)]
          && carts == old(carts)[o.user := []]
        else
          && r == Crashed
          && stock == old(stock)
          && orders == old(orders)[orderId := o.(status := Cancelled)]
          && carts == old(carts)
    {
      var order := orders[orderId];
      if order.user !in carts || !mailSent {
        // Cart.DoesNotExist, or send_mail(fail_silently=False) raised: the
        // transaction rolls back the deduction, the confirmation and the
        // cart clearing, and the handler then cancels the order
        SetOrderStatus(orderId, Cancelled);
        return Crashed;
      }
      TakeStock(order.items);
      SetOrderStatus(orderId, Confirmed);
      SetLines(order.user, []);
      r := Completed;
    }

    // ---------------------------------------------------------------
    // PaymentService (payments/services.py)
    // ---------------------------------------------------------------

    /**
     * process_payment: for a pending order and an amount equal to its
     * total, create a pending payment under the placeholder reference and
     * ask the provider to initialise a charge of `amount` in kobo (`sent`).
     * An accepted charge gives the payment the provider's reference; a
     * refused one marks it failed; a network error rolls the new row back.
     */
    method ProcessPayment(orderId: OrderId, amount: Cents, email: string, channel: string, answer: InitAnswer)
      returns (r: InitResult, sent: Option<ChargeRequest>)
      requires Valid()
      modifies this`payments, this`nextPaymentId
      ensures Valid()
      ensures r.InitFailed? && r.error != ProviderRefused ==> payments == old(payments)
      ensures orderId !in orders ==> r == InitFailed(OrderNotFound) && sent == None
      ensures orderId in orders && orders[orderId].status != OrderStatus.Pending ==> r == InitFailed(OrderNotPending) && sent == None
      ensures orderId in orders && orders[orderId].status == OrderStatus.Pending && amount != orders[orderId].totalPrice ==>
        r == InitFailed(AmountMismatch) && sent == None
      ensures orderId in orders && orders[orderId].status == OrderStatus.Pending && amount == orders[orderId].totalPrice ==>
        if OrderHasPayment(old(payments), orderId) || RefTaken(old(payments), PlaceholderRef) then
          r == InitFailed(IntegrityError) && sent == None
        else
          var pid := old(nextPaymentId);
          && sent == Some(ChargeRequest(email, ToKobo(CentsValue(amount)), orderId, pid))
          && nextPaymentId == pid + 1
          && match answer
             case InitUnreachable => r == InitFailed(NetworkError)
             case InitRejected =>
               r == InitFailed(ProviderRefused)
               && payments == old(payments)[pid := Payment(orderId, channel, PlaceholderRef, amount, Failed)]
             case InitAccepted(ref, url) =>
               if RefTaken(old(payments), ref) then r == InitFailed(IntegrityError)
               else r == Initiated(pid, url, ref) && payments == old(payments)[pid := Payment(orderId, channel, ref, amount, PaymentStatus.Pending)]
    {
      if orderId !in orders {
        return InitFailed(OrderNotFound), None;
      }
      var order := orders[orderId];
      if order.status != OrderStatus.Pending {
        return InitFailed(OrderNotPending), None;
      }
      if amount != order.totalPrice {
        return InitFailed(AmountMismatch), None;
      }
      // Payment.objects.create: the one-to-one order and unique tx_ref columns
      if OrderHasPayment(payments, orderId) || RefTaken(payments, PlaceholderRef) {
        return InitFailed(IntegrityError), None;
      }
      // the row is written as `pending` under TEMP inside the transaction; below, only
      // what survives the transaction is stored
      var pid := nextPaymentId;
      sent := Some(ChargeRequest(email, ToKobo(CentsValue(amount)), orderId, pid));
      match answer
      case InitUnreachable =>
        // requests.RequestException: the transaction rolls the row back
        nextPaymentId := nextPaymentId + 1;  // the id sequence is not rolled back
        r := InitFailed(NetworkError);
      case InitRejected =>
        AddPayment(Payment(orderId, channel, PlaceholderRef, amount, Failed));
        r := InitFailed(ProviderRefused);
      case InitAccepted(ref, url) =>
        if RefTaken(payments, ref) {
          // saving the provider's reference breaks the unique tx_ref: rolled back
          nextPaymentId := nextPaymentId + 1;
          r := InitFailed(IntegrityError);
        } else {
          AddPayment(Payment(orderId, channel, ref, amount, PaymentStatus.Pending));
          r := Initiated(pid, url, ref);
        }
    }

    /** Payment.objects.create: store the payment under the next key. */
    method AddPayment(pay: Payment)
      requires Valid()
      requires pay.order in orders && pay.amount == orders[pay.order].totalPrice
      requires !OrderHasPayment(payments, pay.order) && !RefTaken(payments, pay.txRef)
      modifies this`payments, this`nextPaymentId
      ensures Valid()
      ensures payments == old(payments)[old(nextPaymentId) := pay]
      ensures nextPaymentId == old(nextPaymentId) + 1
    {
      NewPaymentKeepsValid(payments, nextPaymentId, orders, pay);
      payments := payments[nextPaymentId := pay];
      nextPaymentId := nextPaymentId + 1;
    }

    /**
     * verify_payment: ask the provider about `reference` and settle the
     * payment carrying it. A reply other than 200 falls through every
     * branch of the source and the call returns None.
     */
    method VerifyPayment(reference: string, answer: VerifyAnswer) returns (r: VerifyResult)
      requires Valid()
      modifies this`payments, this`orders, this`stock
      ensures Valid()
      ensures r.VerifyFailed? || r.NoReport? ==> payments == old(payments) && orders == old(orders) && stock == old(stock)
      ensures answer.VerifyUnreachable? ==> r == VerifyFailed(NetworkError)
      ensures answer.VerifyHttpError? ==> r == NoReport
      ensures answer.VerifyInvalid? ==> r == VerifyFailed(InvalidResponse)
      ensures answer.VerifyReport? && !RefTaken(old(payments), reference) ==> r == VerifyFailed(PaymentNotFound)
      ensures forall p :: answer.VerifyReport? && p in old(payments) && old(payments)[p].txRef == reference ==>
        Settled(old(payments), old(orders), old(stock), payments, orders, stock, p, answer.paid)
        && r == (if answer.paid then Verified(old(payments)[p].order, FromKobo(answer.amountKobo), answer.customerEmail)
                 else NotPaid(old(payments)[p].order))
    {
      match answer
      case VerifyUnreachable =>
        return VerifyFailed(NetworkError);
      case VerifyHttpError =>
        return NoReport;
      case VerifyInvalid =>
        return VerifyFailed(InvalidResponse);
      case VerifyReport(paid, kobo, customer) =>
        var matching := set p | p in payments && payments[p].txRef == reference;
        if matching == {} {
          assert !RefTaken(payments, reference) by {
            assert forall p :: p in payments && payments[p].txRef == reference ==> p in matching;
          }
          return VerifyFailed(PaymentNotFound);
        }
        var p :| p in matching;
        assert forall q :: q in payments && payments[q].txRef == reference ==> q == p;
        var orderId := SettlePayment(p, paid);
        r := if paid then Verified(orderId, FromKobo(kobo), customer) else NotPaid(orderId);
    }

    /**
     * The settlement step of verify_payment for payment p: a successful
     * charge marks the payment `success`, confirms its order and deducts
     * every line from stock, with no stock check and whatever the
     * statuses were before; an unsuccessful one marks the payment
     * `failed` and cancels the order. Returns the order's id.
     */
    method SettlePayment(p: PaymentId, paid: bool) returns (orderId: OrderId)
      requires Valid() && p in payments
      modifies this`payments, this`orders, this`stock
      ensures Valid()
      ensures orderId == old(payments[p].order)
      ensures Settled(old(payments), old(orders), old(stock), payments, orders, stock, p, paid)
    {
      orderId := payments[p].order;
      var items := orders[orderId].items;
      if paid {
        SetStatuses(p, Success, Confirmed);
        TakeStock(items);
      } else {
        SetStatuses(p, Failed, Cancelled);
      }
    }

    /** `payment.status = ps; payment.save(); order.status = os; order.save()` for payment p and its order. */
    method SetStatuses(p: PaymentId, ps: PaymentStatus, os: OrderStatus)
      requires Valid() && p in payments
      modifies this`payments, this`orders
      ensures Valid()
      ensures payments == old(payments)[p := old(payments[p]).(status := ps)]
      ensures orders == old(orders)[old(payments[p].order) := old(orders[payments[p].order]).(status := os)]
    {
      var pay := payments[p];
      PaymentStatusKeepsValid(payments, nextPaymentId, orders, p, ps);
      payments := payments[p := pay.(status := ps)];
      SetOrderStatus(pay.order, os);
    }

    /** `order.status = status; order.save()`. */
    method SetOrderStatus(id: OrderId, status: OrderStatus)
      requires Valid() && id in orders
      modifies this`orders
      ensures Valid()
      ensures orders == old(orders)[id := old(orders[id]).(status := status)]
    {
      OrderStatusKeepsValid(orders, nextOrderId, stock, payments, nextPaymentId, id, status);
      orders := orders[id := orders[id].(status := status)];
    }

    /**
     * refund_payment: only a `success` payment, and no more than its
     * amount (a missing or zero amount means all of it). When the provider
     * accepts, mark the payment refunded, cancel the order and add every
     * line's full quantity back to stock, even for a partial refund.
     */
    method RefundPayment(paymentId: PaymentId, amount: Option<Cents>, answer: RefundAnswer)
      returns (r: RefundResult, sent: Option<RefundRequest>)
      requires Valid()
      modifies this`payments, this`orders, this`stock
      ensures Valid()
      ensures r.RefundFailed? ==> payments == old(payments) && orders == old(orders) && stock == old(stock)
      ensures paymentId !in old(payments) ==> r == RefundFailed(PaymentNotFound) && sent == None
      ensures paymentId in old(payments) && old(payments)[paymentId].status != Success ==>
        r == RefundFailed(NotRefundable) && sent == None
      ensures paymentId in old(payments) && old(payments)[paymentId].status == Success ==>
        var pay := old(payments)[paymentId];
        var refund := RefundAmount(amount, pay.amount);
        if refund > pay.amount then r == RefundFailed(RefundExceedsPayment) && sent == None
        else
          && sent == Some(RefundRequest(pay.txRef, ToKobo(CentsValue(refund))))
          && match answer
             case RefundUnreachable => r == RefundFailed(NetworkError)
             case RefundRejected => r == RefundFailed(ProviderRefused)
             case RefundAccepted(ref) =>
               var o := old(orders)[pay.order];
               && r == RefundDone(ref, refund)
               && payments == old(payments)[paymentId := pay.(status := PaymentStatus.Refunded)]
               && orders == old(orders)[pay.order := o.(status := Cancelled)]
               && stock == Restore(old(stock), o.items)
    {
      if paymentId !in payments {
        return RefundFailed(PaymentNotFound), None;
      }
      var pay := payments[paymentId];
      if pay.status != Success {
        return RefundFailed(NotRefundable), None;
      }
      var refund := RefundAmount(amount, pay.amount);
      if refund > pay.amount {
        return RefundFailed(RefundExceedsPayment), None;
      }
      sent := Some(RefundRequest(pay.txRef, ToKobo(CentsValue(refund))));
      match answer
      case RefundUnreachable =>
        r := RefundFailed(NetworkError);
      case RefundRejected =>
        r := RefundFailed(ProviderRefused);
      case RefundAccepted(ref) =>
        var items := orders[pay.order].items;
        SetStatuses(paymentId, PaymentStatus.Refunded, Cancelled);
        ReturnStock(items);
        r := RefundDone(ref, refund);
    }

    /**
     * get_payment_status: the payment's own amount, status, method and
     * reference, with its order's id and current status. Since a payment's
     * amount is its order's total, the report's amount is that total too.
     */
    function PaymentStatusReport(paymentId: PaymentId): (r: Option<PaymentReport>)
      reads this
      requires Valid()
      ensures r.None? <==> paymentId !in payments
      ensures r.Some? ==>
        var pay := payments[paymentId];
        && r.value.paymentId == paymentId
        && r.value.orderId == pay.order
        && r.value.amount == pay.amount
        && r.value.status == pay.status
        && r.value.channel == pay.channel
        && r.value.txRef == pay.txRef
      ensures r.Some? ==> r.value.orderId in orders && r.value.orderStatus == orders[r.value.orderId].status
      ensures r.Some? ==> r.value.amount == orders[r.value.orderId].totalPrice
    {
      if paymentId !in payments then None
      else
        var pay := payments[paymentId];
        Some(PaymentReport(paymentId, pay.order, orders[pay.order].status, pay.amount, pay.status, pay.channel, pay.txRef))
    }
  }
}
