/**
 * The storefront's product card: the link to the product page, the stock count shown under the title, and
 * the colour of the dot beside it (green, orange or red).
 *
 * A variant that is missing, or whose `inventory_quantity` is missing, counts as 0 units; a product without
 * a `variants` array has no stock count at all.
 */
module ProductPreview {
  import opened Wrappers
  import opened Text

  datatype Product = Product(handle: string, title: string, variants: Option<seq<Option<int>>>)

  /** The colour classes of the stock dot, each applied on its own condition. */
  datatype StockColour = StockColour(green: bool, orange: bool, red: bool)

  /** What the card shows: its link, its title, the stock colour and the stock text. */
  datatype Card = Card(href: string, title: string, colour: StockColour, stockText: string)

  /** One variant's contribution: its quantity, with a missing one read as 0. */
  function Units(v: Option<int>): int {
    if v.Some? then v.value else 0
  }

  /** The `reduce` over the variants, from the first to the last, starting at 0. */
  function Sum(vs: seq<Option<int>>): int {
    if vs == [] then 0 else Sum(vs[..|vs| - 1]) + Units(vs[|vs| - 1])
  }

  /** The product's stock count; none when there is no `variants` array. */
  function InventoryTotal(variants: Option<seq<Option<int>>>): (r: Option<int>)
    ensures r.Some? <==> variants.Some?
    ensures r.Some? ==> r.value == Sum(variants.value)
    ensures variants == Some([]) ==> r == Some(0)
  {
    if variants.None? then None else Some(Sum(variants.value))
  }

  /** The count of a list of variants is the count of its first part plus the count of the rest. */
  lemma {:induction false} SumConcat(a: seq<Option<int>>, b: seq<Option<int>>)
    ensures Sum(a + b) == Sum(a) + Sum(b)
    decreases |b|
  {
    if b == [] {
      assert a + b == a;
    } else {
      assert (a + b)[..|a + b| - 1] == a + b[..|b| - 1];
      SumConcat(a, b[..|b| - 1]);
    }
  }

  /** The count adds up every quantity given, in any case; missing ones add nothing. */
  lemma {:induction false} SumIsTotalOfQuantities(vs: seq<Option<int>>)
    ensures (forall i :: 0 <= i < |vs| ==> vs[i].Some? ==> vs[i].value >= 0) ==> Sum(vs) >= 0
    ensures (forall i :: 0 <= i < |vs| ==> vs[i].None?) ==> Sum(vs) == 0
  {
    if vs != [] {
      SumIsTotalOfQuantities(vs[..|vs| - 1]);
    }
  }

  /** A card with no variant quantities given shows a zero count. */
  lemma NoQuantitiesGiveZero(vs: seq<Option<int>>)
    requires forall i :: 0 <= i < |vs| ==> vs[i].None?
    ensures InventoryTotal(Some(vs)) == Some(0)
  {
    SumIsTotalOfQuantities(vs);
  }

  /**
   * The three class conditions as written: green when the count is truthy and above 10, orange when it is
   * truthy, at most 10 and above 0, red when it is exactly 0.
   */
  function Colour(total: Option<int>): (r: StockColour)
    ensures r.green <==> total.Some? && total.value > 10
    ensures r.orange <==> total.Some? && 0 < total.value <= 10
    ensures r.red <==> total == Some(0)
  {
    var truthy := total.Some? && total.value != 0;
    StockColour(
      truthy && total.value > 10,
      truthy && total.value <= 10 && total.value > 0,
      total.Some? && total.value == 0)
  }

  /** At most one colour applies, and one applies exactly when there is a count that is not negative. */
  lemma ColourIsExclusive(total: Option<int>)
    ensures var c := Colour(total);
      !(c.green && c.orange) && !(c.green && c.red) && !(c.orange && c.red)
    ensures var c := Colour(total);
      (c.green || c.orange || c.red) <==> total.Some? && total.value >= 0
  {
  }

  /** A number as the page prints it, with a leading "-" when it is negative. */
  function IntToString(n: int): (r: string)
    ensures n >= 0 ==> r == NatToString(n)
    ensures n < 0 ==> r == "-" + NatToString(-n)
  {
    if n >= 0 then NatToString(n) else "-" + NatToString(-n)
  }

  /** The stock text: the count followed by " left"; without a count only " left" is shown. */
  function StockText(total: Option<int>): (r: string)
    ensures EndsWith(r, " left")
    ensures total.None? ==> r == " left"
    ensures total.Some? && total.value >= 0 ==> r == NatToString(total.value) + " left"
  {
    var shown := if total.Some? then IntToString(total.value) else "";
    assert (shown + " left")[|shown|..] == " left";
    shown + " left"
  }

  /** `ProductPreview`: nothing for a missing product; otherwise its card, coloured by its stock count. */
  function Preview(product: Option<Product>): (r: Option<Card>)
    ensures r.None? <==> product.None?
    ensures r.Some? ==>
      var total := InventoryTotal(product.value.variants);
      r.value.href == "/products/" + product.value.handle && r.value.title == product.value.title &&
      r.value.colour == Colour(total) && r.value.stockText == StockText(total)
  {
    if product.None? then None
    else
      var total := InventoryTotal(product.value.variants);
      Some(Card("/products/" + product.value.handle, product.value.title, Colour(total), StockText(total)))
  }
}
