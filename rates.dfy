/**
 * The rate-extraction comprehension of `convertir_usd`: from the quote service's records keep
 * the categories `tarjeta`, `bolsa` and `cripto`, each mapped to its sell price, else its buy
 * price, else 0; a later record of the same category replaces an earlier one.
 */
module Rates {
  import opened Wrappers

  /** One JSON object of the quote service's answer; a missing key or a `null` is `None`. */
  datatype Record = Record(casa: Option<string>, venta: Option<real>, compra: Option<real>)

  /** The categories the conversion uses. */
  const Categories: set<string> := {"tarjeta", "bolsa", "cripto"}

  /** Python truthiness of a number read from JSON: present, not `null` and not zero. */
  predicate Truthy(v: Option<real>)
  {
    v.Some? && v.value != 0.0
  }

  /** `float(item.get("venta") or item.get("compra") or 0)`. */
  function RateOf(item: Record): (r: real)
    ensures Truthy(item.venta) ==> r == item.venta.value
    ensures !Truthy(item.venta) && Truthy(item.compra) ==> r == item.compra.value
    ensures !Truthy(item.venta) && !Truthy(item.compra) ==> r == 0.0
  {
    if Truthy(item.venta) then item.venta.value
    else if Truthy(item.compra) then item.compra.value
    else 0.0
  }

  /** Whether the comprehension keeps `item`: its `casa` is one of the three categories. */
  predicate Kept(item: Record)
  {
    item.casa.Some? && item.casa.value in Categories
  }

  /** The dictionary comprehension, evaluated left to right over `data`. */
  function ExtractRates(data: seq<Record>): (rates: map<string, real>)
    ensures rates.Keys <= Categories
  {
    if data == [] then map[]
    else
      var rates := ExtractRates(data[..|data| - 1]);
      var item := data[|data| - 1];
      if Kept(item) then rates[item.casa.value := RateOf(item)] else rates
  }

  /**
   * A category is in the extracted rates exactly when some record carries it, and its rate is
   * that of the last record carrying it.
   */
  lemma ExtractRatesSpec(data: seq<Record>)
    ensures forall c :: (c in ExtractRates(data)) <==>
                         (c in Categories && exists i :: 0 <= i < |data| && data[i].casa == Some(c))
    ensures forall i :: (0 <= i < |data| && Kept(data[i])
                         && (forall j :: i < j < |data| ==> data[j].casa != data[i].casa))
                         ==> ExtractRates(data)[data[i].casa.value] == RateOf(data[i])
  {
    ExtractRatesKeys(data);
    ExtractRatesLast(data);
  }

  lemma {:induction false} ExtractRatesKeys(data: seq<Record>)
    ensures forall c :: (c in ExtractRates(data)) <==>
                         (c in Categories && exists i :: 0 <= i < |data| && data[i].casa == Some(c))
  {
    if data != [] {
      var init := data[..|data| - 1];
      var last := |data| - 1;
      ExtractRatesKeys(init);
      forall c
        ensures c in ExtractRates(data) <==> c in Categories && exists i :: 0 <= i < |data| && data[i].casa == Some(c)
      {
        if c in Categories && exists i :: 0 <= i < |data| && data[i].casa == Some(c) {
          var i :| 0 <= i < |data| && data[i].casa == Some(c);
          if i < last {
            assert init[i].casa == Some(c);
          }
        }
        if c in ExtractRates(init) {
          var i :| 0 <= i < |init| && init[i].casa == Some(c);
          assert data[i].casa == Some(c);
        }
      }
    }
  }

  lemma {:induction false} ExtractRatesLast(data: seq<Record>)
    ensures forall i :: (0 <= i < |data| && Kept(data[i])
                         && (forall j :: i < j < |data| ==> data[j].casa != data[i].casa))
                         ==> && data[i].casa.value in ExtractRates(data)
                             && ExtractRates(data)[data[i].casa.value] == RateOf(data[i])
  {
    if data != [] {
      var init := data[..|data| - 1];
      var last := |data| - 1;
      ExtractRatesLast(init);
      forall i | 0 <= i < |data| && Kept(data[i]) && (forall j :: i < j < |data| ==> data[j].casa != data[i].casa)
        ensures data[i].casa.value in ExtractRates(data)
        ensures ExtractRates(data)[data[i].casa.value] == RateOf(data[i])
      {
        if i < last {
          assert init[i] == data[i];
          assert forall j :: i < j < |init| ==> init[j].casa != init[i].casa;
          assert data[last].casa != data[i].casa;
        }
      }
    }
  }

  /** Records of other categories, or without a `casa`, never affect the extracted rates. */
  lemma {:induction false} ExtractRatesIgnores(data: seq<Record>, item: Record)
    requires !Kept(item)
    ensures ExtractRates(data + [item]) == ExtractRates(data)
  {
    assert (data + [item])[..|data|] == data;
  }
}
