/**
 * Orders (orders/models.py) and the pure half of the background
 * reconciliation task (orders/tasks.py): the order record, the lock
 * order over its variants, the per-line stock check, and the stock
 * deduction and restoration that confirmation and refund apply.
 */
module Orders {
  import opened Wrappers
  import opened Catalog

  type OrderId = nat

  /** STATUS_CHOICES of Order; new orders start `Pending`. */
  datatype OrderStatus = Pending | Confirmed | Shipped | Delivered | Refunded | Cancelled

  /**
   * One order line, frozen at checkout: the variant it was bought from,
   * the unit price at that moment and the quantity (a PositiveIntegerField,
   * which admits zero).
   */
  datatype OrderItem = OrderItem(variant: VariantId, priceAtPurchase: Cents, quantity: nat)

  /** An order: its owner, the address text frozen at checkout, the total frozen at checkout, its status and lines. */
  datatype Order = Order(user: UserId, shippingAddress: string, totalPrice: Cents, status: OrderStatus, items: seq<OrderItem>)

  /** total_price is DecimalField(max_digits=12, decimal_places=2): at most 10^12 - 1 cents in magnitude. */
  const TotalLimit: int := 1_000_000_000_000

  predicate FitsTotal(c: Cents)
  {
    -TotalLimit < c < TotalLimit
  }

  /** Sum of price_at_purchase * quantity over the lines. */
  function ItemsTotal(items: seq<OrderItem>): Cents
  {
    if items == [] then 0 else items[0].priceAtPurchase * items[0].quantity + ItemsTotal(items[1..])
  }

  /** No two lines of one order name the same variant (they come from a cart's unique lines). */
  predicate DistinctVariants(items: seq<OrderItem>)
  {
    forall i, j :: 0 <= i < j < |items| ==> items[i].variant != items[j].variant
  }

  // ---------------------------------------------------------------
  // Lock order (orders/tasks.py:23-32)
  // ---------------------------------------------------------------

  /**
   * The variant ids of the lines, in item order. This is also the order in
   * which the stock-check loop takes the row locks as written: the
   * select_for_update queryset is lazy, and each `variants.get(id=...)`
   * locks its own row while the loop walks the items.
   */
  function VariantIds(items: seq<OrderItem>): (ids: seq<VariantId>)
    ensures |ids| == |items|
    ensures forall i :: 0 <= i < |items| ==> ids[i] == items[i].variant
  {
    if items == [] then [] else [items[0].variant] + VariantIds(items[1..])
  }

  predicate Sorted(s: seq<VariantId>)
  {
    forall i, j :: 0 <= i < j < |s| ==> s[i] <= s[j]
  }

  /** Inserts x before the first element of s not smaller than it. */
  function Insert(x: VariantId, s: seq<VariantId>): seq<VariantId>
  {
    if s == [] then [x]
    else if x <= s[0] then [x] + s
    else [s[0]] + Insert(x, s[1..])
  }

  /** Insertion adds exactly x. */
  lemma {:induction false} InsertPerm(x: VariantId, s: seq<VariantId>)
    ensures multiset(Insert(x, s)) == multiset(s) + multiset{x}
  {
    if s != [] && x > s[0] {
      assert s == [s[0]] + s[1..];
      InsertPerm(x, s[1..]);
    }
  }

  /** Insertion into a sorted list keeps it sorted. */
  lemma {:induction false} InsertSorted(x: VariantId, s: seq<VariantId>)
    requires Sorted(s)
    ensures Sorted(Insert(x, s))
  {
    if s != [] && x > s[0] {
      assert Sorted(s[1..]);
      InsertSorted(x, s[1..]);
      InsertPerm(x, s[1..]);
      var rest := Insert(x, s[1..]);
      assert Insert(x, s) == [s[0]] + rest;
      forall k | 0 <= k < |rest| ensures s[0] <= rest[k] {
        assert rest[k] in multiset(rest);
        assert rest[k] == x || rest[k] in s[1..];
      }
    }
  }

  /** Python's sorted() on a list of ids, as an insertion sort. */
  function SortIds(s: seq<VariantId>): seq<VariantId>
  {
    if s == [] then [] else Insert(s[0], SortIds(s[1..]))
  }

  /** sorted() returns a sorted permutation of its input. */
  lemma {:induction false} SortIdsSorted(s: seq<VariantId>)
    ensures Sorted(SortIds(s))
    ensures multiset(SortIds(s)) == multiset(s)
  {
    if s != [] {
      assert s == [s[0]] + s[1..];
      SortIdsSorted(s[1..]);
      InsertSorted(s[0], SortIds(s[1..]));
      InsertPerm(s[0], SortIds(s[1..]));
    }
  }

  /**
   * `sorted(...)` of the lines' variant ids: the order the task means to
   * lock the variant rows in, so that two tasks never wait on each other.
   */
  function LockOrder(items: seq<OrderItem>): (ids: seq<VariantId>)
    ensures Sorted(ids)
    ensures multiset(ids) == multiset(VariantIds(items))
    ensures forall v :: v in ids <==> exists i :: 0 <= i < |items| && items[i].variant == v
  {
    var ids := SortIds(VariantIds(items));
    SortIdsSorted(VariantIds(items));
    assert forall v :: v in ids <==> v in multiset(VariantIds(items));
    ids
  }

  /**
   * Items naming variant 9 and then variant 3: the loop locks row 9 before
   * row 3, while the sorted list puts 3 first.
   */
  lemma ItemOrderLocksUnsorted()
    ensures var items := [OrderItem(9, 100, 1), OrderItem(3, 100, 1)];
      && VariantIds(items) == [9, 3]
      && !Sorted(VariantIds(items))
      && LockOrder(items) == [3, 9]
  {
  }

  // ---------------------------------------------------------------
  // Stock check (orders/tasks.py:29-46)
  // ---------------------------------------------------------------

  /** A line can be served: its variant exists and its stock is not below the line's quantity. */
  predicate Fits(item: OrderItem, stock: Stock)
  {
    item.variant in stock && item.quantity <= stock[item.variant]
  }

  predicate AllFit(items: seq<OrderItem>, stock: Stock)
  {
    forall i :: 0 <= i < |items| ==> Fits(items[i], stock)
  }

  /** The first line that cannot be served, if any: the line the task reports when it cancels. */
  function FirstShortfall(items: seq<OrderItem>, stock: Stock): (r: Option<nat>)
    ensures r.None? <==> AllFit(items, stock)
    ensures r.Some? ==> r.value < |items| && !Fits(items[r.value], stock)
    ensures r.Some? ==> forall k :: 0 <= k < r.value ==> Fits(items[k], stock)
  {
    if items == [] then None
    else if !Fits(items[0], stock) then Some(0)
    else match FirstShortfall(items[1..], stock)
      case None => None
      case Some(i) => Some(i + 1)
  }

  /** A short line, with every earlier line served, is the first shortfall. */
  lemma {:induction false} FirstShortfallAt(items: seq<OrderItem>, stock: Stock, i: nat)
    requires i < |items| && !Fits(items[i], stock)
    requires forall k :: 0 <= k < i ==> Fits(items[k], stock)
    ensures FirstShortfall(items, stock) == Some(i)
  {
    if i > 0 {
      FirstShortfallAt(items[1..], stock, i - 1);
    }
  }

  // ---------------------------------------------------------------
  // Stock deduction and restoration
  // ---------------------------------------------------------------

  /** The total quantity the lines take from variant v. */
  function QtyOf(items: seq<OrderItem>, v: VariantId): nat
  {
    if items == [] then 0
    else (if items[0].variant == v then items[0].quantity else 0) + QtyOf(items[1..], v)
  }

  /** `variant.stock_quantity += delta; variant.save()` for one row. */
  function Adjust(stock: Stock, v: VariantId, delta: int): Stock
  {
    if v in stock then stock[v := stock[v] + delta] else stock
  }

  /** `stock_quantity -= item.quantity` for every line, in order. */
  function Deduct(stock: Stock, items: seq<OrderItem>): Stock
  {
    if items == [] then stock
    else Deduct(Adjust(stock, items[0].variant, 0 - items[0].quantity), items[1..])
  }

  /** `stock_quantity += item.quantity` for every line, in order. */
  function Restore(stock: Stock, items: seq<OrderItem>): Stock
  {
    if items == [] then stock
    else Restore(Adjust(stock, items[0].variant, items[0].quantity), items[1..])
  }

  /** Deduction keeps the stock rows and takes from each variant exactly what the lines ask of it. */
  lemma {:induction false} DeductPointwise(stock: Stock, items: seq<OrderItem>)
    ensures Deduct(stock, items).Keys == stock.Keys
    ensures forall v :: v in stock ==> Deduct(stock, items)[v] == stock[v] - QtyOf(items, v)
  {
    if items != [] {
      DeductPointwise(Adjust(stock, items[0].variant, 0 - items[0].quantity), items[1..]);
    }
  }

  /** Restoration keeps the stock rows and gives each variant back exactly what the lines took. */
  lemma {:induction false} RestorePointwise(stock: Stock, items: seq<OrderItem>)
    ensures Restore(stock, items).Keys == stock.Keys
    ensures forall v :: v in stock ==> Restore(stock, items)[v] == stock[v] + QtyOf(items, v)
  {
    if items != [] {
      RestorePointwise(Adjust(stock, items[0].variant, items[0].quantity), items[1..]);
    }
  }

  /** Deducting one more line is one more adjustment after the others: the loop's step. */
  lemma {:induction false} DeductSnoc(stock: Stock, items: seq<OrderItem>, item: OrderItem)
    ensures Deduct(stock, items + [item]) == Adjust(Deduct(stock, items), item.variant, 0 - item.quantity)
  {
    if items != [] {
      assert (items + [item])[1..] == items[1..] + [item];
      DeductSnoc(Adjust(stock, items[0].variant, 0 - items[0].quantity), items[1..], item);
    }
  }

  /** Restoring one more line is one more adjustment after the others. */
  lemma {:induction false} RestoreSnoc(stock: Stock, items: seq<OrderItem>, item: OrderItem)
    ensures Restore(stock, items + [item]) == Adjust(Restore(stock, items), item.variant, item.quantity)
  {
    if items != [] {
      assert (items + [item])[1..] == items[1..] + [item];
      RestoreSnoc(Adjust(stock, items[0].variant, items[0].quantity), items[1..], item);
    }
  }

  /** Restoring the lines of an order undoes deducting them, for every variant. */
  lemma RestoreUndoesDeduct(stock: Stock, items: seq<OrderItem>)
    ensures Restore(Deduct(stock, items), items) == stock
  {
    DeductPointwise(stock, items);
    RestorePointwise(Deduct(stock, items), items);
    var r := Restore(Deduct(stock, items), items);
    assert forall v :: v in stock ==> r[v] == stock[v];
  }

  /** With distinct variants, the quantity taken from a line's variant is that line's quantity. */
  lemma {:induction false} QtyOfDistinct(items: seq<OrderItem>, i: nat)
    requires DistinctVariants(items)
    requires i < |items|
    ensures QtyOf(items, items[i].variant) == items[i].quantity
  {
    if i == 0 {
      QtyOfAbsent(items[1..], items[0].variant);
    } else {
      QtyOfDistinct(items[1..], i - 1);
    }
  }

  /** A variant no line names loses nothing. */
  lemma {:induction false} QtyOfAbsent(items: seq<OrderItem>, v: VariantId)
    requires forall i :: 0 <= i < |items| ==> items[i].variant != v
    ensures QtyOf(items, v) == 0
  {
    if items != [] {
      QtyOfAbsent(items[1..], v);
    }
  }

  /**
   * No overselling on the task's path: when every line passed the stock
   * check and no two lines share a variant, deducting leaves no stock negative.
   */
  lemma NoOversell(stock: Stock, items: seq<OrderItem>)
    requires DistinctVariants(items)
    requires AllFit(items, stock)
    requires NonNegative(stock)
    ensures NonNegative(Deduct(stock, items))
  {
    DeductPointwise(stock, items);
    forall v | v in stock ensures Deduct(stock, items)[v] >= 0 {
      if i :| 0 <= i < |items| && items[i].variant == v {
        QtyOfDistinct(items, i);
      } else {
        QtyOfAbsent(items, v);
      }
    }
  }

  /**
   * The per-line check is what makes the lemma above need distinct
   * variants: two lines of one unit each against one unit in stock both
   * pass it, and deducting them drives the stock to -1.
   */
  lemma PerLineCheckNeedsDistinctLines()
    ensures AllFit([OrderItem(7, 100, 1), OrderItem(7, 100, 1)], map[7 := 1])
    ensures Deduct(map[7 := 1], [OrderItem(7, 100, 1), OrderItem(7, 100, 1)]) == map[7 := -1]
  {
    var line := OrderItem(7, 100, 1);
    assert [line, line][1..] == [line];
    assert Adjust(map[7 := 1], 7, -1) == map[7 := 0];
    assert Adjust(map[7 := 0], 7, -1) == map[7 := -1];
  }

  // ---------------------------------------------------------------
  // The reconciliation task as a function of its inputs (orders/tasks.py:12-89)
  // ---------------------------------------------------------------

  /** The task's return messages. */
  datatype TaskOutcome = OrderMissing | AlreadyConfirmed | StockLow(line: nat) | Completed | Crashed

  /** What one run of the task leaves behind for the order it was given. */
  datatype Reconciliation = Reconciliation(status: OrderStatus, stock: Stock, clearsCart: bool, outcome: TaskOutcome)

  /**
   * One run of process_order_payment on an order that exists. `hasCart`
   * says whether Cart.objects.get finds the owner's cart and `mailSent`
   * whether the confirmation mail (fail_silently=False) goes out; when
   * either fails the exception rolls back the deduction and the cart
   * clearing and the handler cancels the order.
   */
  function Reconcile(o: Order, stock: Stock, hasCart: bool, mailSent: bool): Reconciliation
  {
    if o.status == Confirmed then Reconciliation(Confirmed, stock, false, AlreadyConfirmed)
    else match FirstShortfall(o.items, stock)
      case Some(i) => Reconciliation(Cancelled, stock, false, StockLow(i))
      case None =>
        if hasCart && mailSent then Reconciliation(Confirmed, Deduct(stock, o.items), true, Completed)
        else Reconciliation(Cancelled, stock, false, Crashed)
  }

  /**
   * All or nothing: the run either confirms the order, takes exactly each
   * line's quantity from its variant and clears the cart, or leaves every
   * stock level as it was and the order not confirmed by this run.
   */
  lemma ReconcileAllOrNothing(o: Order, stock: Stock, hasCart: bool, mailSent: bool)
    requires o.status != Confirmed
    ensures var r := Reconcile(o, stock, hasCart, mailSent);
      && r.stock.Keys == stock.Keys
      && (r.outcome == Completed <==> AllFit(o.items, stock) && hasCart && mailSent)
      && (r.outcome == Completed ==>
            r.status == Confirmed && r.clearsCart && forall v :: v in stock ==> r.stock[v] == stock[v] - QtyOf(o.items, v))
      && (r.outcome != Completed ==> r.status == Cancelled && !r.clearsCart && r.stock == stock)
  {
    DeductPointwise(stock, o.items);
  }

  /** A short line cancels the order and changes no stock level. */
  lemma ReconcileShortLineCancels(o: Order, stock: Stock, hasCart: bool, mailSent: bool, i: nat)
    requires o.status != Confirmed
    requires i < |o.items| && !Fits(o.items[i], stock)
    ensures var r := Reconcile(o, stock, hasCart, mailSent);
      r.status == Cancelled && r.stock == stock && !r.clearsCart && r.outcome.StockLow?
  {
  }

  /** Each referenced variant drops by its line's quantity and the others do not move. */
  lemma {:induction false} ReconcileDeductsEachLine(o: Order, stock: Stock, hasCart: bool, mailSent: bool)
    requires DistinctVariants(o.items)
    requires Reconcile(o, stock, hasCart, mailSent).outcome == Completed
    ensures var r := Reconcile(o, stock, hasCart, mailSent);
      && r.stock.Keys == stock.Keys
      && (forall i :: 0 <= i < |o.items| ==> r.stock[o.items[i].variant] == stock[o.items[i].variant] - o.items[i].quantity)
      && (forall v :: v in stock && v !in VariantIds(o.items) ==> r.stock[v] == stock[v])
  {
    var r := Reconcile(o, stock, hasCart, mailSent);
    DeductPointwise(stock, o.items);
    forall i | 0 <= i < |o.items|
      ensures r.stock[o.items[i].variant] == stock[o.items[i].variant] - o.items[i].quantity
    {
      QtyOfDistinct(o.items, i);
    }
    forall v | v in stock && v !in VariantIds(o.items) ensures r.stock[v] == stock[v] {
      QtyOfAbsent(o.items, v);
    }
  }

  /** On the task's path no stock goes negative when the order's lines name distinct variants. */
  lemma ReconcileNoOversell(o: Order, stock: Stock, hasCart: bool, mailSent: bool)
    requires DistinctVariants(o.items)
    requires NonNegative(stock)
    ensures NonNegative(Reconcile(o, stock, hasCart, mailSent).stock)
  {
    if o.status != Confirmed && FirstShortfall(o.items, stock).None? {
      NoOversell(stock, o.items);
    }
  }

  /**
   * Running the task a second time on the order a first run confirmed
   * changes nothing, so the stock is deducted once however often the
   * task is delivered.
   */
  lemma ReconcileTwiceDeductsOnce(o: Order, stock: Stock, hasCart: bool, mailSent: bool, hasCart2: bool, mailSent2: bool)
    requires o.status != Confirmed
    requires Reconcile(o, stock, hasCart, mailSent).outcome == Completed
    ensures var r1 := Reconcile(o, stock, hasCart, mailSent);
      var r2 := Reconcile(o.(status := r1.status), r1.stock, hasCart2, mailSent2);
      && r2.outcome == AlreadyConfirmed
      && r2.stock == Deduct(stock, o.items)
      && !r2.clearsCart
  {
  }
}
