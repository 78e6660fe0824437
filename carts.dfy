/**
 * Carts (carts/models.py, carts/serializers.py): a cart is the sequence
 * of its lines, at most one per variant; its total is computed from the
 * live variant prices at read time. The functions here are the pure
 * parts; the view operations that change a cart are methods of the store.
 */
module Carts {
  import opened Wrappers
  import opened Catalog

  /** A CartItem: a variant and a quantity (PositiveIntegerField, so zero is allowed). */
  datatype CartLine = CartLine(variant: VariantId, quantity: nat)

  /** The quantity a new line gets when none is written (carts/models.py:31). */
  const DefaultQuantity: nat := 1

  /** unique_together = ('cart', 'product_variant'). */
  predicate UniqueLines(lines: seq<CartLine>)
  {
    forall i, j :: 0 <= i < j < |lines| ==> lines[i].variant != lines[j].variant
  }

  /** Every line names a variant of the catalog (a foreign key). */
  predicate Priced(lines: seq<CartLine>, variants: map<VariantId, Variant>)
  {
    forall i :: 0 <= i < |lines| ==> lines[i].variant in variants
  }

  predicate CartValid(lines: seq<CartLine>, variants: map<VariantId, Variant>)
  {
    UniqueLines(lines) && Priced(lines, variants)
  }

  /** CartItem.subtotal: price * quantity. */
  function Subtotal(line: CartLine, variants: map<VariantId, Variant>): Cents
    requires line.variant in variants
  {
    variants[line.variant].price * line.quantity
  }

  /** Cart.total_price: Sum(quantity * product_variant__price), 0 when the cart is empty. */
  function CartTotal(lines: seq<CartLine>, variants: map<VariantId, Variant>): Cents
    requires Priced(lines, variants)
  {
    if lines == [] then 0
    else lines[0].quantity * variants[lines[0].variant].price + CartTotal(lines[1..], variants)
  }

  /** The sum of the lines' subtotals. */
  function SumOfSubtotals(lines: seq<CartLine>, variants: map<VariantId, Variant>): Cents
    requires Priced(lines, variants)
  {
    if lines == [] then 0 else Subtotal(lines[0], variants) + SumOfSubtotals(lines[1..], variants)
  }

  /**
   * The aggregate the database computes (Σ quantity × price) equals the
   * sum of the lines' `subtotal` properties (price × quantity each).
   */
  lemma {:induction false} TotalIsSumOfSubtotals(lines: seq<CartLine>, variants: map<VariantId, Variant>)
    requires Priced(lines, variants)
    ensures CartTotal(lines, variants) == SumOfSubtotals(lines, variants)
  {
    if lines != [] {
      TotalIsSumOfSubtotals(lines[1..], variants);
      assert Subtotal(lines[0], variants) == lines[0].quantity * variants[lines[0].variant].price;
    }
  }

  /** The index of the cart's line for variant v, if there is one. */
  function FindLine(lines: seq<CartLine>, v: VariantId): (r: Option<nat>)
    ensures r.None? <==> forall i :: 0 <= i < |lines| ==> lines[i].variant != v
    ensures r.Some? ==> r.value < |lines| && lines[r.value].variant == v
  {
    if lines == [] then None
    else if lines[0].variant == v then Some(0)
    else match FindLine(lines[1..], v)
      case None => None
      case Some(i) => Some(i + 1)
  }

  /** The cart with line i deleted. */
  function Without(lines: seq<CartLine>, i: nat): (r: seq<CartLine>)
    requires i < |lines|
    ensures |r| == |lines| - 1
  {
    lines[..i] + lines[i + 1..]
  }

  // ---------------------------------------------------------------
  // What the view operations do to the invariant and to the total
  // ---------------------------------------------------------------

  /** Changing a line's quantity keeps one line per variant. */
  lemma SetQuantityKeepsUnique(lines: seq<CartLine>, i: nat, q: nat)
    requires UniqueLines(lines) && i < |lines|
    ensures UniqueLines(lines[i := CartLine(lines[i].variant, q)])
  {
  }

  /** A line for a variant not yet in the cart keeps one line per variant. */
  lemma AppendAbsentKeepsUnique(lines: seq<CartLine>, v: VariantId, q: nat)
    requires UniqueLines(lines) && FindLine(lines, v).None?
    ensures UniqueLines(lines + [CartLine(v, q)])
  {
  }

  /** Deleting a line keeps one line per variant, and removes that variant from the cart. */
  lemma WithoutKeepsUnique(lines: seq<CartLine>, i: nat)
    requires UniqueLines(lines) && i < |lines|
    ensures UniqueLines(Without(lines, i))
    ensures FindLine(Without(lines, i), lines[i].variant).None?
  {
    var r := Without(lines, i);
    forall k | 0 <= k < |r| ensures r[k].variant != lines[i].variant {
      if k < i { assert r[k] == lines[k]; } else { assert r[k] == lines[k + 1]; }
    }
  }

  /** Appending a line adds its quantity times its price to the total. */
  lemma {:induction false} TotalAppend(lines: seq<CartLine>, line: CartLine, variants: map<VariantId, Variant>)
    requires Priced(lines, variants) && line.variant in variants
    ensures Priced(lines + [line], variants)
    ensures CartTotal(lines + [line], variants) == CartTotal(lines, variants) + line.quantity * variants[line.variant].price
  {
    if lines != [] {
      assert (lines + [line])[1..] == lines[1..] + [line];
      TotalAppend(lines[1..], line, variants);
    }
  }

  /** Adding `quantity` units to line i adds that many times its price to the total. */
  lemma {:induction false} TotalIncrease(lines: seq<CartLine>, i: nat, quantity: int, variants: map<VariantId, Variant>)
    requires Priced(lines, variants) && i < |lines| && lines[i].quantity + quantity >= 0
    ensures Priced(lines[i := CartLine(lines[i].variant, lines[i].quantity + quantity)], variants)
    ensures CartTotal(lines[i := CartLine(lines[i].variant, lines[i].quantity + quantity)], variants)
      == CartTotal(lines, variants) + quantity * variants[lines[i].variant].price
  {
    var line := CartLine(lines[i].variant, lines[i].quantity + quantity);
    if i > 0 {
      assert lines[i := line][1..] == lines[1..][i - 1 := line];
      TotalIncrease(lines[1..], i - 1, quantity, variants);
    } else {
      assert lines[i := line][1..] == lines[1..];
      var p := variants[line.variant].price;
      assert line.quantity * p == lines[0].quantity * p + quantity * p;
    }
  }

  /** Taking `quantity` units off line i takes that many times its price off the total. */
  lemma {:induction false} TotalReduce(lines: seq<CartLine>, i: nat, quantity: int, variants: map<VariantId, Variant>)
    requires Priced(lines, variants) && i < |lines| && quantity < lines[i].quantity
    ensures Priced(lines[i := CartLine(lines[i].variant, lines[i].quantity - quantity)], variants)
    ensures CartTotal(lines[i := CartLine(lines[i].variant, lines[i].quantity - quantity)], variants)
      == CartTotal(lines, variants) - quantity * variants[lines[i].variant].price
  {
    var line := CartLine(lines[i].variant, lines[i].quantity - quantity);
    if i > 0 {
      assert lines[i := line][1..] == lines[1..][i - 1 := line];
      TotalReduce(lines[1..], i - 1, quantity, variants);
    } else {
      assert lines[i := line][1..] == lines[1..];
      var p := variants[line.variant].price;
      assert line.quantity * p == lines[0].quantity * p - quantity * p;
    }
  }

  /** Deleting line i takes its quantity times its price off the total. */
  lemma {:induction false} TotalWithout(lines: seq<CartLine>, i: nat, variants: map<VariantId, Variant>)
    requires Priced(lines, variants) && i < |lines|
    ensures Priced(Without(lines, i), variants)
    ensures CartTotal(Without(lines, i), variants)
      == CartTotal(lines, variants) - lines[i].quantity * variants[lines[i].variant].price
  {
    if i > 0 {
      assert Without(lines, i)[1..] == Without(lines[1..], i - 1);
      TotalWithout(lines[1..], i - 1, variants);
    } else {
      assert Without(lines, i) == lines[1..];
    }
  }

  // ---------------------------------------------------------------
  // CartItemSerializer.validate (carts/serializers.py:14-26)
  // ---------------------------------------------------------------

  datatype ValidationError = NoLongerAvailable | OnlyInStock(available: int)

  /**
   * Validation of an incoming line against its variant and that variant's
   * stock: an inactive variant or product is refused first, then a
   * quantity above the stock; otherwise the data comes back unchanged.
   */
  function ValidateLine(line: CartLine, variant: Variant, stock: int): (r: Result<CartLine, ValidationError>)
    ensures r.Ok? <==> variant.isActive && variant.productIsActive && line.quantity <= stock
    ensures r.Ok? ==> r.value == line
    ensures !(variant.isActive && variant.productIsActive) ==> r == Err(NoLongerAvailable)
    ensures variant.isActive && variant.productIsActive && stock < line.quantity ==> r == Err(OnlyInStock(stock))
  {
    if !variant.isActive || !variant.productIsActive then Err(NoLongerAvailable)
    else if stock < line.quantity then Err(OnlyInStock(stock))
    else Ok(line)
  }

  // ---------------------------------------------------------------
  // Results of the cart view operations (carts/views.py)
  // ---------------------------------------------------------------

  datatype CartError =
    | NotFound           // 404: unknown SKU, no cart, or no line for the variant
    | QuantityRejected   // the non-negative check on quantity refused the write
    | MethodNotAllowed   // 405: carts cannot be deleted

  datatype CartResult = ItemAdded | QuantityReduced | ItemRemoved | CartFailed(error: CartError)
}
