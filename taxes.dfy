/**
 * The tax registry of the cost analysis application: a dictionary from tax
 * name to percentage, filled by the "Save Tax" form, and the total tax
 * multiplier computed from it (taxes are added, never compounded).
 */
module Taxes {

  /** Sum of a list of percentages, as Python's `sum` over `dict.values()`. */
  function Sum(rates: seq<real>): (s: real)
  {
    if rates == [] then 0.0 else rates[0] + Sum(rates[1..])
  }

  /**
   * The total tax multiplier: one plus the sum of all rates over one hundred.
   * `rates` is the registry's `values()`, in the dictionary's order.
   */
  function TaxMultiplier(rates: seq<real>): (r: real)
    ensures rates == [] ==> r == 1.0
    ensures (forall i :: 0 <= i < |rates| ==> rates[i] == 0.0) ==> r == 1.0
  {
    ZeroRates(rates);
    1.0 + Sum(rates) / 100.0
  }

  lemma {:induction false} ZeroRates(rates: seq<real>)
    ensures (forall i :: 0 <= i < |rates| ==> rates[i] == 0.0) ==> Sum(rates) == 0.0
  {
    if rates != [] {
      ZeroRates(rates[1..]);
      if forall i :: 0 <= i < |rates| ==> rates[i] == 0.0 {
        assert forall i :: 0 <= i < |rates[1..]| ==> rates[1..][i] == rates[i + 1];
      }
    }
  }

  lemma {:induction false} SumAppend(a: seq<real>, b: seq<real>)
    ensures Sum(a + b) == Sum(a) + Sum(b)
  {
    if a == [] {
      assert a + b == b;
    } else {
      assert (a + b)[1..] == a[1..] + b;
      SumAppend(a[1..], b);
    }
  }

  /** Taking out the rate at position `j` leaves the sum of the others. */
  lemma SumRemoveAt(s: seq<real>, j: nat)
    requires j < |s|
    ensures Sum(s) == s[j] + Sum(s[..j] + s[j + 1..])
  {
    var pre, post := s[..j], s[j + 1..];
    var mid := [s[j]] + post;
    assert s == pre + mid;
    assert mid[1..] == post;
    SumAppend(pre, mid);
    SumAppend(pre, post);
  }

  /** Taking out position `j` takes one copy of `s[j]` out of the multiset. */
  lemma MultisetRemoveAt(s: seq<real>, j: nat)
    requires j < |s|
    ensures multiset(s[..j] + s[j + 1..]) == multiset(s) - multiset{s[j]}
  {
    assert s == s[..j] + [s[j]] + s[j + 1..];
    assert multiset(s) == multiset(s[..j]) + multiset{s[j]} + multiset(s[j + 1..]);
  }

  /** Matching `a[0]` with `b[j]` leaves two tails with equal multisets. */
  lemma PermutationTail(a: seq<real>, b: seq<real>, j: nat)
    requires a != [] && j < |b| && b[j] == a[0]
    requires multiset(a) == multiset(b)
    ensures multiset(a[1..]) == multiset(b[..j] + b[j + 1..])
  {
    calc {
      multiset(a[1..]);
      { assert a[..0] + a[1..] == a[1..]; MultisetRemoveAt(a, 0); }
      multiset(a) - multiset{a[0]};
      multiset(b) - multiset{b[j]};
      { MultisetRemoveAt(b, j); }
      multiset(b[..j] + b[j + 1..]);
    }
  }

  /** The sum depends only on the multiset of rates, not on their order. */
  lemma {:induction false} SumPermutation(a: seq<real>, b: seq<real>)
    requires multiset(a) == multiset(b)
    ensures Sum(a) == Sum(b)
  {
    if a != [] {
      assert a[0] in b by {
        assert a[0] in multiset(a);
      }
      var j :| 0 <= j < |b| && b[j] == a[0];
      PermutationTail(a, b, j);
      SumPermutation(a[1..], b[..j] + b[j + 1..]);
      SumRemoveAt(b, j);
    }
  }

  /** Tax multipliers of two rate lists holding the same rates are equal. */
  lemma MultiplierOrderIndependent(a: seq<real>, b: seq<real>)
    requires multiset(a) == multiset(b)
    ensures TaxMultiplier(a) == TaxMultiplier(b)
  {
    SumPermutation(a, b);
  }

  // ---------------------------------------------------------------------
  // The registry as a map, with no order at all

  /** Some name registered in a non-empty registry. */
  ghost function Pick(taxes: map<string, real>): (k: string)
    requires taxes != map[]
    ensures k in taxes
  {
    var k :| k in taxes; k
  }

  /** Total of all registered rates, summed in no particular order. */
  ghost function TaxTotal(taxes: map<string, real>): (total: real)
    decreases |taxes|
  {
    if taxes == map[] then 0.0
    else
      var k := Pick(taxes);
      assert (taxes - {k}).Keys == taxes.Keys - {k};
      taxes[k] + TaxTotal(taxes - {k})
  }

  /** Any registered name can be taken out first. */
  lemma {:induction false} TaxTotalRemove(taxes: map<string, real>, k: string)
    requires k in taxes
    ensures TaxTotal(taxes) == taxes[k] + TaxTotal(taxes - {k})
    decreases |taxes|
  {
    var j := Pick(taxes);
    if j != k {
      var both := taxes - {j} - {k};
      assert (taxes - {j}).Keys == taxes.Keys - {j};
      assert (taxes - {k}).Keys == taxes.Keys - {k};
      TaxTotalRemove(taxes - {j}, k);
      TaxTotalRemove(taxes - {k}, j);
      assert taxes - {j} - {k} == taxes - {k} - {j};
    }
  }

  /**
   * `order` lists every registered name exactly once: the dictionary's
   * insertion order.
   */
  ghost predicate Enumerates(order: seq<string>, taxes: map<string, real>)
  {
    && (forall i, j :: 0 <= i < j < |order| ==> order[i] != order[j])
    && (forall k :: k in order <==> k in taxes)
  }

  /** The rates of the names in `order`, in that order. */
  function ValuesIn(taxes: map<string, real>, order: seq<string>): (r: seq<real>)
    requires forall i :: 0 <= i < |order| ==> order[i] in taxes
    ensures |r| == |order|
    ensures forall i :: 0 <= i < |order| ==> r[i] == taxes[order[i]]
  {
    if order == [] then [] else [taxes[order[0]]] + ValuesIn(taxes, order[1..])
  }

  /** Summing the values in insertion order gives the order-free total. */
  lemma {:induction false} SumOfValues(taxes: map<string, real>, order: seq<string>)
    requires Enumerates(order, taxes)
    ensures Sum(ValuesIn(taxes, order)) == TaxTotal(taxes)
  {
    if order == [] {
      assert forall k :: k !in taxes;
      assert taxes == map[];
    } else {
      var k := order[0];
      var rest := taxes - {k};
      var tail := order[1..];
      forall i | 0 <= i < |tail| ensures tail[i] != k && tail[i] in taxes {
        assert tail[i] == order[i + 1];
        assert order[i + 1] in order;
      }
      assert Enumerates(tail, rest) by {
        forall n ensures n in tail <==> n in rest {
          if n in rest {
            assert n in order && n != k;
            var i :| 0 <= i < |order| && order[i] == n;
            assert tail[i - 1] == n;
          }
        }
      }
      assert ValuesIn(taxes, tail) == ValuesIn(rest, tail);
      SumOfValues(rest, tail);
      TaxTotalRemove(taxes, k);
    }
  }

  /** The multiplier of a registry depends only on its map, not on its order. */
  lemma RegistryMultiplier(taxes: map<string, real>, order: seq<string>)
    requires Enumerates(order, taxes)
    ensures TaxMultiplier(ValuesIn(taxes, order)) == 1.0 + TaxTotal(taxes) / 100.0
  {
    SumOfValues(taxes, order);
  }

  // ---------------------------------------------------------------------
  // Saving a tax

  /**
   * The registry after the "Save Tax" form was handled: only a submitted form
   * with a non-empty name writes, and it overwrites an earlier rate.
   */
  function SaveTax(taxes: map<string, real>, name: string, rate: real, submitted: bool): (r: map<string, real>)
    ensures !submitted || name == "" ==> r == taxes
    ensures submitted && name != "" ==>
      && r.Keys == taxes.Keys + {name}
      && r[name] == rate
      && forall k :: k in taxes && k != name ==> r[k] == taxes[k]
  {
    if submitted && name != "" then taxes[name := rate] else taxes
  }

  /** Saving the same name twice keeps only the second rate. */
  lemma SaveTaxOverwrites(taxes: map<string, real>, name: string, first: real, second: real)
    requires name != ""
    ensures SaveTax(SaveTax(taxes, name, first, true), name, second, true) == SaveTax(taxes, name, second, true)
  {
  }

  /** How saving a tax changes the total of all rates. */
  lemma TaxTotalAfterSave(taxes: map<string, real>, name: string, rate: real)
    requires name != ""
    ensures name !in taxes ==> TaxTotal(SaveTax(taxes, name, rate, true)) == TaxTotal(taxes) + rate
    ensures name in taxes ==> TaxTotal(SaveTax(taxes, name, rate, true)) == TaxTotal(taxes) - taxes[name] + rate
  {
    var saved := SaveTax(taxes, name, rate, true);
    TaxTotalRemove(saved, name);
    if name in taxes {
      TaxTotalRemove(taxes, name);
      assert saved - {name} == taxes - {name};
    } else {
      assert saved - {name} == taxes;
    }
  }

  /**
   * `st.session_state.taxes`: written in place by the tax form. `order` is the
   * dictionary's insertion order, which its `values()` follow.
   */
  class TaxRegistry {
    var taxes: map<string, real>
    var order: seq<string>

    ghost predicate Valid()
      reads this
    {
      Enumerates(order, taxes)
    }

    /** The session starts with no taxes. */
    constructor ()
      ensures Valid() && taxes == map[] && order == []
    {
      taxes := map[];
      order := [];
    }

    /** `taxes.values()`: one rate per registered name, summing to the total. */
    function Values(): (r: seq<real>)
      reads this
      requires Valid()
      ensures |r| == |taxes|
      ensures Sum(r) == TaxTotal(taxes)
    {
      var r := ValuesIn(taxes, order);
      SumOfValues(taxes, order);
      EnumerationSize(order, taxes);
      r
    }

    /** The "Save Tax" form's submit handler. */
    method Save(name: string, rate: real, submitted: bool)
      requires Valid()
      modifies this
      ensures Valid()
      ensures taxes == SaveTax(old(taxes), name, rate, submitted)
      ensures order == if submitted && name != "" && name !in old(taxes) then old(order) + [name] else old(order)
    {
      if submitted && name != "" {
        if name !in taxes {
          order := order + [name];
        }
        taxes := taxes[name := rate];
      }
    }
  }

  /** An enumeration has exactly one entry per registered name. */
  lemma {:induction false} EnumerationSize(order: seq<string>, taxes: map<string, real>)
    requires Enumerates(order, taxes)
    ensures |order| == |taxes|
  {
    if order == [] {
      assert forall k :: k !in taxes;
    } else {
      var k := order[0];
      var tail := order[1..];
      var rest := taxes - {k};
      assert Enumerates(tail, rest) by {
        forall i, j | 0 <= i < j < |tail| ensures tail[i] != tail[j] {
          assert tail[i] == order[i + 1] && tail[j] == order[j + 1];
        }
        forall n ensures n in tail <==> n in rest {
          if n in tail {
            var i :| 0 <= i < |tail| && tail[i] == n;
            assert order[i + 1] == n;
          }
          if n in rest {
            assert n in order && n != k;
            var i :| 0 <= i < |order| && order[i] == n;
            assert tail[i - 1] == n;
          }
        }
      }
      assert rest.Keys == taxes.Keys - {k};
      EnumerationSize(tail, rest);
    }
  }
}
