# Cost analysis pricing model

A Dafny model of the pricing logic of the cost analysis application
(`cost_app.py`): the "Save Tax" form's write into the tax registry, the total
tax multiplier computed from the registry, the choice of an item's overhead
(its own, or the default overhead), and the "Calculate Final Prices" loop
that gives every row of the item table a final price:

    final_price = base_price * (1 + sum(tax rates) / 100 + overhead / 100)

Taxes are added together, never compounded, and the overhead is one more
surcharge beside them.

Files:

- `wrappers.dfy` — `Option`, used for a cell whose column may be absent.
- `taxes.dfy` — module `Taxes`: the sum of rates, the tax multiplier, an
  order-free reference total `TaxTotal` over the registry's map, the proof that
  the registry's `values()` (in insertion order) sum to it, the pure update
  `SaveTax`, and the class `TaxRegistry` (the session's `taxes` dictionary:
  a `map` plus the list of names in insertion order, which is the order
  Python's `dict.values()` follows).
- `pricing.dfy` — module `Pricing`: the item and result rows, the effective
  overhead, the per-row price, the loop `CalculateFinalPrices` proved against
  `PricedInOrder`, and the lemmas about the prices.

Modelling choices:

- Python floats are `real`; there is no rounding and no NaN.
- `individual_overhead` is `Option<real>`: `None` means the row has no such
  field, which is the only case where `row.get(..., default)` returns the
  default. A present value, 0 included, is used as is.
- `base_price` is a `real` and is used as it is: the code does not coerce a
  missing or non-numeric price to 0, and neither does the model. An empty
  or invalid overhead cell does not fall back to the default either
  (cost_app.py:61).
- No input is rejected: negative prices, rates and overheads flow through
  the formula. The forms' `min_value=0.0` limits are not preconditions.
- The empty table gives `EmptyTableWarning` instead of results.
- `CalculateFinalPrices` receives the registry's `values()` as a sequence;
  `PricesFromRegistry` connects the prices to the registry's map.

## Model

| member | source | states |
|---|---|---|
| `Taxes.TaxMultiplier` | cost_app.py:53 | with no taxes, or only zero rates, the multiplier is exactly 1.0 |
| `Taxes.SumPermutation` | cost_app.py:53 | the sum of tax rates depends only on the multiset of rates |
| `Taxes.MultiplierOrderIndependent` | cost_app.py:53 | two rate lists holding the same rates in any order give the same multiplier |
| `Taxes.TaxTotalRemove` | cost_app.py:53 | the order-free total of the registry can take any registered name out first |
| `Taxes.ValuesIn` | cost_app.py:53 | the rates listed follow the given names one for one |
| `Taxes.SumOfValues` | cost_app.py:53 | summing the registry's values in insertion order gives the order-free total of its map |
| `Taxes.RegistryMultiplier` | cost_app.py:53 | the multiplier of a registry is 1 + (total of its map's rates) / 100, whatever order the taxes were saved in |
| `Taxes.TaxRegistry.Values` | cost_app.py:53 | `values()` holds one rate per registered name, and they sum to the order-free total |
| `Taxes.SaveTax` | cost_app.py:24-25 | an unsubmitted form or an empty name leaves the map unchanged; otherwise the name is added or overwritten with the new rate, and every other name keeps its rate |
| `Taxes.SaveTaxOverwrites` | cost_app.py:25 | saving a name twice leaves only the second rate |
| `Taxes.TaxTotalAfterSave` | cost_app.py:24-25 | saving a new name raises the total by its rate; resaving a name replaces its old rate in the total |
| `Taxes.TaxRegistry.constructor` | cost_app.py:5-6 | the session starts with an empty registry |
| `Taxes.TaxRegistry.Save` | cost_app.py:24-25 | the map becomes `SaveTax` of the old map; a new name is appended to the insertion order, a resaved one keeps its place; the registry stays well formed |
| `Pricing.EffectiveOverhead` | cost_app.py:61 | a present overhead, 0 included, is used; the result is the default exactly when the field is absent or equals the default |
| `Pricing.FinalPrice` | cost_app.py:58-64 | a base price of 0 gives a final price of 0, whatever the taxes and overhead |
| `Pricing.WithFinalPriceColumn` | cost_app.py:67 | the result table has the input rows, unchanged and in order, each with its final price |
| `Pricing.CalculateFinalPrices` | cost_app.py:47-72 | an empty table gives the warning and only then; otherwise one row per input row, row i holding item i and its final price under the multiplier of the tax rates |
| `Pricing.PricesFromRegistry` | cost_app.py:53-64 | rows priced with the registry's values in insertion order are exactly the rows priced with 1 + (order-free total of its map's rates)/100, so the order taxes were saved in does not matter |
| `Pricing.PricedRowsAdditive` | cost_app.py:63-64 | every priced row is its base price plus the tax surcharge plus the overhead surcharge |
| `Pricing.PriceIsAdditive` | cost_app.py:63-64 | taxes and overhead are additive surcharges on the base price, not compounded |
| `Pricing.FallbackIsDefault` | cost_app.py:61 | a row without its own overhead is priced as if its overhead were the default |
| `Pricing.ExplicitZeroOverhead` | cost_app.py:61 | an explicit overhead of 0 adds nothing, whatever the default |
| `Pricing.NoTaxNoOverheadExample` | cost_app.py:53-64 | 100 with no taxes and overhead 0 costs 100 |
| `Pricing.AdditiveExample` | cost_app.py:53-64 | 100 with a 20% tax and the initial default overhead of 10% costs 130 |
| `Pricing.WidgetExample` | cost_app.py:53-64 | 50 with an 8% tax and a 12% default overhead costs 60 |
| `Pricing.TwoTaxesExample` | cost_app.py:53 | taxes of 5% and 7.5%, in either order, give a multiplier of 1.125 |

## Left out

- The Streamlit user interface: forms, sidebar, expander, data editor, the
  results table's rendering and the success and warning messages
  (cost_app.py:12-44, 69-72). The warning is the `EmptyTableWarning` outcome.
- Session-state persistence across reruns (cost_app.py:5-10). The initial
  values appear as the `TaxRegistry` constructor and `InitialDefaultOverhead`;
  the item table and the default overhead are inputs of the calculation.
- The default-overhead widget's write into the session (cost_app.py:38): it is
  an input here.
- pandas mechanics (`copy`, `iterrows`, column assignment) beyond an ordered
  sequence of rows in and rows with a price out.
- IEEE floating point: rounding, and NaN from an empty cell. In the running
  application the table always has an `individual_overhead` column, so an
  empty cell never falls back to the default: it gives NaN, or line 61 raises
  when the cell holds None; the model's `None` stands only for an absent field.
- Non-numeric cell values: a text `base_price` makes Python raise or misbehave
  rather than be treated as 0; the model types the column as `real`.
