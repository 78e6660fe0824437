/**
 * The pure parts of CheckoutView.post (orders/views.py:18-76): the
 * advisory stock pre-check over the cart lines and the price snapshot
 * that turns cart lines into order lines.
 */
module Checkout {
  import opened Wrappers
  import opened Catalog
  import opened Carts
  import opened Orders

  /** A cart line whose variant has at least the requested quantity in stock. */
  predicate LineInStock(line: CartLine, stock: Stock)
  {
    line.variant in stock && line.quantity <= stock[line.variant]
  }

  /** The first cart line the pre-check rejects, if any. */
  function FirstShortLine(lines: seq<CartLine>, stock: Stock): (r: Option<nat>)
    ensures r.None? <==> forall i :: 0 <= i < |lines| ==> LineInStock(lines[i], stock)
    ensures r.Some? ==> r.value < |lines| && !LineInStock(lines[r.value], stock)
    ensures r.Some? ==> forall k :: 0 <= k < r.value ==> LineInStock(lines[k], stock)
  {
    if lines == [] then None
    else if !LineInStock(lines[0], stock) then Some(0)
    else match FirstShortLine(lines[1..], stock)
      case None => None
      case Some(i) => Some(i + 1)
  }

  /** A line the stock cannot cover, with every earlier line covered, is the first short line. */
  lemma {:induction false} FirstShortLineAt(lines: seq<CartLine>, stock: Stock, i: nat)
    requires i < |lines| && !LineInStock(lines[i], stock)
    requires forall k :: 0 <= k < i ==> LineInStock(lines[k], stock)
    ensures FirstShortLine(lines, stock) == Some(i)
  {
    if i > 0 {
      FirstShortLineAt(lines[1..], stock, i - 1);
    }
  }

  /** The order line checkout writes for a cart line: the variant, its current price, the quantity. */
  function SnapshotLine(line: CartLine, variants: map<VariantId, Variant>): OrderItem
    requires line.variant in variants
  {
    OrderItem(line.variant, variants[line.variant].price, line.quantity)
  }

  /** One order line per cart line, in cart order. */
  function Snapshot(lines: seq<CartLine>, variants: map<VariantId, Variant>): (items: seq<OrderItem>)
    requires Priced(lines, variants)
    ensures |items| == |lines|
    ensures forall i :: 0 <= i < |lines| ==> items[i] == SnapshotLine(lines[i], variants)
  {
    seq(|lines|, i requires 0 <= i < |lines| => SnapshotLine(lines[i], variants))
  }

  /** The order's lines add up to the cart total the order was given. */
  lemma {:induction false} SnapshotTotal(lines: seq<CartLine>, variants: map<VariantId, Variant>)
    requires Priced(lines, variants)
    ensures ItemsTotal(Snapshot(lines, variants)) == CartTotal(lines, variants)
  {
    if lines != [] {
      assert Snapshot(lines, variants)[1..] == Snapshot(lines[1..], variants);
      SnapshotTotal(lines[1..], variants);
    }
  }

  /** A cart's unique lines give an order whose lines name distinct variants. */
  lemma SnapshotDistinct(lines: seq<CartLine>, variants: map<VariantId, Variant>)
    requires CartValid(lines, variants)
    ensures DistinctVariants(Snapshot(lines, variants))
  {
  }

  datatype CheckoutError =
    | CartNotFound                                              // 404
    | CartEmpty                                                 // 400
    | NoDefaultAddress                                          // 400
    | NotEnoughStock(variant: VariantId, available: int, requested: nat)  // 400
    | TotalTooLarge                                             // 500: total_price overflows DECIMAL(12, 2)

  datatype CheckoutResult = OrderCreated(orderId: OrderId, total: Cents) | CheckoutFailed(error: CheckoutError)
}
