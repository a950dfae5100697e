/**
 * The "Calculate Final Prices" action of the cost analysis application: each
 * row of the item table gets a final price from its base price, the total
 * tax multiplier and its overhead (its own, or the default one).
 */
module Pricing {
  import opened Wrappers
  import opened Taxes

  /**
   * A row of the item table. `individualOverhead` is `None` when the row has
   * no `individual_overhead` field at all; a present value, 0 included, is
   * the item's own overhead percentage.
   */
  datatype Item = Item(name: string, basePrice: real, individualOverhead: Option<real>)

  /** A row of the results table: the item's own columns plus `final_price`. */
  datatype PricedItem = PricedItem(item: Item, finalPrice: real)

  /** What pressing "Calculate Final Prices" produces. */
  datatype Calculation = EmptyTableWarning | Results(rows: seq<PricedItem>)

  /** The default overhead percentage of a fresh session. */
  const InitialDefaultOverhead: real := 10.0

  /** The overhead percentage applied to `item`. */
  function EffectiveOverhead(item: Item, defaultOverhead: real): (r: real)
    ensures item.individualOverhead.Some? ==> r == item.individualOverhead.value
    ensures r == defaultOverhead <==>
      item.individualOverhead.None? || item.individualOverhead.value == defaultOverhead
  {
    item.individualOverhead.GetOr(defaultOverhead)
  }

  /** The final price of one row, given the total tax multiplier. */
  function FinalPrice(item: Item, taxMultiplier: real, defaultOverhead: real): (r: real)
    ensures item.basePrice == 0.0 ==> r == 0.0
  {
    item.basePrice * (taxMultiplier + EffectiveOverhead(item, defaultOverhead) / 100.0)
  }

  /** `rows` are `items` in the same order, each with its final price. */
  ghost predicate PricedInOrder(rows: seq<PricedItem>, items: seq<Item>, taxMultiplier: real, defaultOverhead: real)
  {
    && |rows| == |items|
    && forall i :: 0 <= i < |items| ==>
         rows[i] == PricedItem(items[i], FinalPrice(items[i], taxMultiplier, defaultOverhead))
  }

  /** `results_df['final_price'] = final_prices` on a copy of the table. */
  function WithFinalPriceColumn(table: seq<Item>, finalPrices: seq<real>): (r: seq<PricedItem>)
    requires |finalPrices| == |table|
    ensures |r| == |table|
    ensures forall i :: 0 <= i < |table| ==> r[i].item == table[i] && r[i].finalPrice == finalPrices[i]
  {
    seq(|table|, i requires 0 <= i < |table| => PricedItem(table[i], finalPrices[i]))
  }

  /**
   * The calculation: an empty table only gives a warning; otherwise one final
   * price per row, in row order. `taxRates` is the registry's `values()`.
   */
  method CalculateFinalPrices(items: seq<Item>, taxRates: seq<real>, defaultOverhead: real)
    returns (outcome: Calculation)
    ensures outcome.EmptyTableWarning? <==> items == []
    ensures outcome.Results? ==>
      PricedInOrder(outcome.rows, items, TaxMultiplier(taxRates), defaultOverhead)
  {
    if items == [] {
      return EmptyTableWarning;
    }
    var totalTaxMultiplier := TaxMultiplier(taxRates);
    var finalPrices: seq<real> := [];
    for i := 0 to |items|
      invariant |finalPrices| == i
      invariant forall k :: 0 <= k < i ==>
        finalPrices[k] == FinalPrice(items[k], totalTaxMultiplier, defaultOverhead)
    {
      var itemPrice := items[i].basePrice;
      var overheadRate := EffectiveOverhead(items[i], defaultOverhead) / 100.0;
      var finalPrice := itemPrice * (totalTaxMultiplier + overheadRate);
      finalPrices := finalPrices + [finalPrice];
    }
    outcome := Results(WithFinalPriceColumn(items, finalPrices));
  }

  /**
   * Prices computed from the registry's values, in whatever order the taxes
   * were saved, are the prices under the order-free total of its rates.
   */
  lemma PricesFromRegistry(rows: seq<PricedItem>, items: seq<Item>, taxes: map<string, real>,
                           order: seq<string>, defaultOverhead: real)
    requires Enumerates(order, taxes)
    requires PricedInOrder(rows, items, TaxMultiplier(ValuesIn(taxes, order)), defaultOverhead)
    ensures PricedInOrder(rows, items, 1.0 + TaxTotal(taxes) / 100.0, defaultOverhead)
  {
    var m, total := TaxMultiplier(ValuesIn(taxes, order)), TaxTotal(taxes);
    assert m == 1.0 + total / 100.0 by {
      RegistryMultiplier(taxes, order);
    }
  }

  /** Every priced row is its base price plus the tax and overhead surcharges. */
  lemma PricedRowsAdditive(rows: seq<PricedItem>, items: seq<Item>, taxMultiplier: real,
                           taxTotal: real, defaultOverhead: real)
    requires taxMultiplier == 1.0 + taxTotal / 100.0
    requires PricedInOrder(rows, items, taxMultiplier, defaultOverhead)
    ensures forall i :: 0 <= i < |rows| ==>
      rows[i].finalPrice == items[i].basePrice
        + items[i].basePrice * taxTotal / 100.0
        + items[i].basePrice * EffectiveOverhead(items[i], defaultOverhead) / 100.0
  {
    forall i | 0 <= i < |rows| {
      PriceIsAdditive(items[i], taxMultiplier, taxTotal, defaultOverhead);
    }
  }

  /** Taxes and overhead are two surcharges added to the base price. */
  lemma PriceIsAdditive(item: Item, taxMultiplier: real, taxTotal: real, defaultOverhead: real)
    requires taxMultiplier == 1.0 + taxTotal / 100.0
    ensures FinalPrice(item, taxMultiplier, defaultOverhead) == item.basePrice
      + item.basePrice * taxTotal / 100.0
      + item.basePrice * EffectiveOverhead(item, defaultOverhead) / 100.0
  {
  }

  /** A row without its own overhead costs the same as one whose overhead is the default. */
  lemma FallbackIsDefault(item: Item, taxMultiplier: real, defaultOverhead: real)
    requires item.individualOverhead.None?
    ensures FinalPrice(item, taxMultiplier, defaultOverhead)
         == FinalPrice(item.(individualOverhead := Some(defaultOverhead)), taxMultiplier, defaultOverhead)
  {
  }

  /** An explicit overhead of 0 adds nothing, whatever the default. */
  lemma ExplicitZeroOverhead(item: Item, taxMultiplier: real, defaultOverhead: real)
    requires item.individualOverhead == Some(0.0)
    ensures FinalPrice(item, taxMultiplier, defaultOverhead) == item.basePrice * taxMultiplier
  {
  }

  /** Worked examples of the pricing rule. */
  lemma NoTaxNoOverheadExample()
    ensures FinalPrice(Item("", 100.0, Some(0.0)), TaxMultiplier([]), 0.0) == 100.0
  {
  }

  lemma AdditiveExample()
    ensures FinalPrice(Item("", 100.0, None), TaxMultiplier([20.0]), InitialDefaultOverhead) == 130.0
  {
  }

  lemma WidgetExample()
    ensures FinalPrice(Item("Widget", 50.0, None), TaxMultiplier([8.0]), 12.0) == 60.0
  {
  }

  lemma TwoTaxesExample()
    ensures TaxMultiplier([5.0, 7.5]) == TaxMultiplier([7.5, 5.0]) == 1.125
  {
  }
}
