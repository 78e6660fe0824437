/**
 * The product catalog as the order, cart and payment code sees it
 * (products/models.py): a sellable variant with its SKU, its price and
 * the two activity flags. Stock levels live in a separate map, because
 * they are the only part of a variant the core changes.
 */
module Catalog {
  import opened Wrappers

  type VariantId = nat
  type UserId = nat

  /** Money is held in integer minor units (kobo/cents): a two-decimal amount times 100. */
  type Cents = int

  /** `is_active` of the variant and `is_active` of the product that owns it. */
  datatype Variant = Variant(sku: string, price: Cents, isActive: bool, productIsActive: bool)

  /** stock_quantity per variant; an int, since one path can drive it below zero. */
  type Stock = map<VariantId, int>

  ghost predicate UniqueSkus(variants: map<VariantId, Variant>)
  {
    forall v, w :: v in variants && w in variants && v != w ==> variants[v].sku != variants[w].sku
  }

  ghost predicate NonNegative(stock: Stock)
  {
    forall v :: v in stock ==> stock[v] >= 0
  }

  /** get_object_or_404(ProductVariant, sku=...): the variant with that SKU, if any. */
  method FindVariantBySku(variants: map<VariantId, Variant>, sku: string) returns (r: Option<VariantId>)
    ensures r.Some? <==> exists v :: v in variants && variants[v].sku == sku
    ensures r.Some? ==> r.value in variants && variants[r.value].sku == sku
  {
    var matching := set v | v in variants && variants[v].sku == sku;
    if matching == {} {
      assert forall v :: v in variants && variants[v].sku == sku ==> v in matching;
      r := None;
    } else {
      var v :| v in matching;
      r := Some(v);
    }
  }
}
