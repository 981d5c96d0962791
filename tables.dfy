/**
 * The two fixed rate tables: MEP broker commissions and provincial IIBB perception rates.
 * Each is a dictionary rebuilt from its declared entries sorted by rate, so its iteration
 * order (the order of the option menus) is by rate while lookups by label are unaffected.
 */
module Tables {
  import opened Wrappers
  import opened KeySort

  /** The entries of the `mep_entidades` literal, in declaration order. */
  const MepDeclared: seq<Item> := [
    ("MercadoPago (1%)", 0.01),
    ("Brubank (1%)", 0.01),
    ("Reba (1.2%)", 0.012),
    ("Cocos Capital (1.21%)", 0.0121),
    ("Invertir Online (1.21%)", 0.0121),
    ("Balanz (1.21%)", 0.0121),
    ("Ualá (1.5%)", 0.015),
    ("Santander Río (1.5%)", 0.015),
    ("Portfolio Personal (1.5%)", 0.015),
    ("Buenbit (1.7%)", 0.017),
    ("Personal Pay (2%)", 0.02),
    ("Galicia Move (2%)", 0.02),
    ("BBVA Argentina (2%)", 0.02),
    ("HSBC Argentina (2%)", 0.02),
    ("Naranja X (2.5%)", 0.025)
  ]

  /** The entries of the `iibb_provincias` literal, in declaration order. */
  const IibbDeclared: seq<Item> := [
    ("Chaco (5.5%)", 0.055),
    ("Misiones (5.0%)", 0.05),
    ("Formosa (5.0%)", 0.05),
    ("Santiago del Estero (4.5%)", 0.045),
    ("Tucumán (4.0%)", 0.04),
    ("Jujuy (4.0%)", 0.04),
    ("Salta (3.6%)", 0.036),
    ("Buenos Aires (3.5%)", 0.035),
    ("Córdoba (3%)", 0.03),
    ("Santa Fe (3%)", 0.03),
    ("Mendoza (3%)", 0.03),
    ("Entre Ríos (3%)", 0.03),
    ("Neuquén (3%)", 0.03),
    ("Río Negro (3%)", 0.03),
    ("La Pampa (3%)", 0.03),
    ("San Juan (3%)", 0.03),
    ("Catamarca (3%)", 0.03),
    ("San Luis (3%)", 0.03),
    ("La Rioja (3%)", 0.03),
    ("Chubut (3%)", 0.03),
    ("Santa Cruz (3%)", 0.03),
    ("Corrientes (3%)", 0.03),
    ("CABA (2%)", 0.02),
    ("Tierra del Fuego (0%)", 0.0)
  ]

  /**
   * `mep_entidades`: the commission table in its iteration order, ascending by rate. The
   * declared entries already ascend, so the stable sort leaves them in declaration order;
   * `MepEntidadesOrdered` proves that this is `StableSort(MepDeclared, false)`.
   */
  const MepEntidades: seq<Item> := MepDeclared

  /**
   * `iibb_provincias`: the perception table in its iteration order, descending by rate. The
   * declared entries already descend, so the stable sort leaves them in declaration order;
   * `IibbProvinciasOrdered` proves that this is `StableSort(IibbDeclared, true)`.
   */
  const IibbProvincias: seq<Item> := IibbDeclared

  predicate DistinctLabels(s: seq<Item>)
  {
    forall i, j :: 0 <= i < j < |s| ==> s[i].0 != s[j].0
  }

  /** The rate stored under `key`, if any (a dictionary's `get`). */
  function Get(table: seq<Item>, key: string): (r: Option<real>)
  {
    if table == [] then None
    else if table[0].0 == key then Some(table[0].1)
    else Get(table[1..], key)
  }

  /** Looking a label up in two tables placed one after the other. */
  lemma {:induction false} GetAppend(a: seq<Item>, b: seq<Item>, key: string)
    ensures Get(a + b, key) == if Get(a, key).Some? then Get(a, key) else Get(b, key)
  {
    if a != [] {
      assert (a + b)[0] == a[0];
      assert (a + b)[1..] == a[1..] + b;
      GetAppend(a[1..], b, key);
    } else {
      assert a + b == b;
    }
  }

  lemma GetSingle(x: Item, key: string)
    ensures Get([x], key) == if x.0 == key then Some(x.1) else None
  {
    assert [x][1..] == [];
  }

  /** No label is declared twice in either literal, so each label has exactly one rate. */
  lemma DeclaredLabelsDistinct()
    ensures DistinctLabels(MepDeclared)
    ensures DistinctLabels(IibbDeclared)
  {
    MepLabelsDistinct();
    IibbLabelsDistinct();
  }

  lemma MepLabelsDistinct()
    ensures DistinctLabels(MepDeclared)
  {
    DistinctByKey(MepDeclared);
  }

  lemma IibbLabelsDistinct()
    ensures DistinctLabels(IibbDeclared)
  {
    DistinctByKey(IibbDeclared);
  }

  /**
   * The length, the first and the seventh character of a label. They already tell the declared
   * labels apart, and comparing them is much cheaper for the verifier than comparing whole texts.
   */
  function LabelKey(name: string): (int, char, char)
  {
    if |name| > 6 then (|name|, name[0], name[6]) else (|name|, ' ', ' ')
  }

  /** Labels with different keys are different labels. */
  lemma DistinctByKey(s: seq<Item>)
    requires forall i, j :: 0 <= i < j < |s| ==> LabelKey(s[i].0) != LabelKey(s[j].0)
    ensures DistinctLabels(s)
  {
  }

  lemma {:induction false} GetFound(table: seq<Item>, key: string)
    requires Get(table, key).Some?
    ensures (key, Get(table, key).value) in table
  {
    if table[0].0 != key {
      GetFound(table[1..], key);
    }
  }

  lemma {:induction false} GetMissing(table: seq<Item>, key: string)
    requires Get(table, key).None?
    ensures forall e :: e in table ==> e.0 != key
  {
    if table != [] {
      GetMissing(table[1..], key);
      assert forall e :: e in table ==> e == table[0] || e in table[1..];
    }
  }

  lemma {:induction false} GetDistinct(table: seq<Item>, key: string, rate: real)
    requires DistinctLabels(table)
    requires (key, rate) in table
    ensures Get(table, key) == Some(rate)
  {
    if table[0] != (key, rate) {
      var i :| 0 <= i < |table| && table[i] == (key, rate);
      assert table[0].0 != key;
      assert table[1..][i - 1] == (key, rate);
      GetDistinct(table[1..], key, rate);
    }
  }

  /** Reordering a table whose labels are distinct changes no lookup. */
  lemma GetReordered(t: seq<Item>, s: seq<Item>, key: string)
    requires DistinctLabels(s)
    requires multiset(t) == multiset(s)
    ensures Get(t, key) == Get(s, key)
  {
    assert forall e :: e in t <==> e in s by {
      forall e
        ensures e in t <==> e in s
      {
        assert e in t <==> e in multiset(t);
        assert e in s <==> e in multiset(s);
      }
    }
    match Get(t, key)
    case Some(rate) =>
      GetFound(t, key);
      GetDistinct(s, key, rate);
    case None =>
      GetMissing(t, key);
      if Get(s, key).Some? {
        GetFound(s, key);
      }
  }

  /** The commissions are declared in ascending order, the perceptions in descending order. */
  lemma DeclaredSorted()
    ensures Sorted(MepDeclared, false)
    ensures Sorted(IibbDeclared, true)
  {
    AdjacentSorted(MepDeclared, false);
    AdjacentSorted(IibbDeclared, true);
  }

  /** Every lookup in a reordering of a table with distinct labels gives what it gives in the table. */
  lemma ReorderedLookups(t: seq<Item>, s: seq<Item>)
    requires DistinctLabels(s)
    requires multiset(t) == multiset(s)
    ensures |t| == |s|
    ensures forall key :: Get(t, key) == Get(s, key)
  {
    assert |t| == |multiset(t)| == |multiset(s)| == |s|;
    forall key
      ensures Get(t, key) == Get(s, key)
    {
      GetReordered(t, s, key);
    }
  }

  /** `mep_entidades` holds the declared commissions, ordered by non-decreasing rate, ties in declaration order. */
  lemma MepEntidadesOrdered()
    ensures MepEntidades == StableSort(MepDeclared, false)
    ensures IsStableSortOf(MepEntidades, MepDeclared, false)
    ensures multiset(MepEntidades) == multiset(MepDeclared)
  {
    DeclaredSorted();
    StableSortOfIsStableSort(MepEntidades, MepDeclared, false);
  }

  /** `iibb_provincias` holds the declared perceptions, ordered by non-increasing rate, ties in declaration order. */
  lemma IibbProvinciasOrdered()
    ensures IibbProvincias == StableSort(IibbDeclared, true)
    ensures IsStableSortOf(IibbProvincias, IibbDeclared, true)
    ensures multiset(IibbProvincias) == multiset(IibbDeclared)
  {
    DeclaredSorted();
    StableSortOfIsStableSort(IibbProvincias, IibbDeclared, true);
  }

  /**
   * `r` is what looking `key` up with a fallback of `default` yields in a dictionary built from
   * `declared`: the rate declared for `key` if it is declared, else `default`.
   */
  ghost predicate IsDeclaredOr(declared: seq<Item>, key: string, default: real, r: real)
  {
    && (forall i :: 0 <= i < |declared| && declared[i].0 == key ==> r == declared[i].1)
    && (Undeclared(declared, key) ==> r == default)
  }

  /** No entry of `s` carries the label `key`. */
  ghost predicate Undeclared(s: seq<Item>, key: string)
  {
    forall i :: 0 <= i < |s| ==> s[i].0 != key
  }

  /** Looking a label up, with a default, in a reordering of a table with distinct labels. */
  lemma GetOrDeclared(table: seq<Item>, declared: seq<Item>, key: string, default: real)
    requires DistinctLabels(declared)
    requires multiset(table) == multiset(declared)
    ensures IsDeclaredOr(declared, key, default, Get(table, key).GetOr(default))
  {
    GetReordered(table, declared, key);
    forall i | 0 <= i < |declared| && declared[i].0 == key
      ensures Get(table, key).GetOr(default) == declared[i].1
    {
      GetDistinct(declared, key, declared[i].1);
    }
    if Get(declared, key).Some? {
      GetFound(declared, key);
    }
  }

  /** `mep_entidades.get(entidad, 0.01)`: the declared commission of the entity, or 1% for an unknown label. */
  function MepCommission(entidad: string): real
  {
    Get(MepEntidades, entidad).GetOr(0.01)
  }

  /** `iibb_provincias.get(provincia, 0.03)`: the declared perception of the province, or 3% for an unknown label. */
  function IibbRate(provincia: string): real
  {
    Get(IibbProvincias, provincia).GetOr(0.03)
  }

  /** Every rate in `s` lies between `lo` and `hi`. */
  ghost predicate RatesBetween(s: seq<Item>, lo: real, hi: real)
  {
    forall i :: 0 <= i < |s| ==> lo <= s[i].1 <= hi
  }

  lemma DeclaredRatesBetween()
    ensures RatesBetween(MepDeclared, 0.01, 0.025)
    ensures RatesBetween(IibbDeclared, 0.0, 0.055)
  {
  }

  lemma DeclaredPositions()
    ensures MepDeclared[0] == ("MercadoPago (1%)", 0.01)
    ensures IibbDeclared[8] == ("Córdoba (3%)", 0.03)
  {
  }

  lemma DeclaredOrBounds(declared: seq<Item>, key: string, default: real, r: real, lo: real, hi: real)
    requires IsDeclaredOr(declared, key, default, r)
    requires RatesBetween(declared, lo, hi)
    requires lo <= default <= hi
    ensures lo <= r <= hi
  {
  }

  lemma DeclaredOrFound(declared: seq<Item>, key: string, default: real, r: real, i: nat)
    requires IsDeclaredOr(declared, key, default, r)
    requires i < |declared| && declared[i].0 == key
    ensures r == declared[i].1
  {
  }

  lemma DeclaredOrMissing(declared: seq<Item>, key: string, default: real, r: real)
    requires IsDeclaredOr(declared, key, default, r)
    requires Undeclared(declared, key)
    ensures r == default
  {
  }

  /** Every commission, the default included, lies between 1% and 2.5%. */
  lemma MepCommissionBounds(entidad: string)
    ensures 0.01 <= MepCommission(entidad) <= 0.025
  {
    MepCommissionLookup(entidad);
    DeclaredRatesBetween();
    DeclaredOrBounds(MepDeclared, entidad, 0.01, MepCommission(entidad), 0.01, 0.025);
  }

  /** Every perception rate, the default included, lies between 0% and 5.5%. */
  lemma IibbRateBounds(provincia: string)
    ensures 0.0 <= IibbRate(provincia) <= 0.055
  {
    IibbRateLookup(provincia);
    DeclaredRatesBetween();
    DeclaredOrBounds(IibbDeclared, provincia, 0.03, IibbRate(provincia), 0.0, 0.055);
  }

  lemma MepCommissionLookup(entidad: string)
    ensures IsDeclaredOr(MepDeclared, entidad, 0.01, MepCommission(entidad))
  {
    DeclaredLabelsDistinct();
    MepEntidadesOrdered();
    GetOrDeclared(MepEntidades, MepDeclared, entidad, 0.01);
  }

  lemma IibbRateLookup(provincia: string)
    ensures IsDeclaredOr(IibbDeclared, provincia, 0.03, IibbRate(provincia))
  {
    DeclaredLabelsDistinct();
    IibbProvinciasOrdered();
    GetOrDeclared(IibbProvincias, IibbDeclared, provincia, 0.03);
  }

  lemma DeclaredFirstEntries(entidad: string, provincia: string, commission: real, perception: real)
    requires MepDeclared[0].0 == entidad && IsDeclaredOr(MepDeclared, entidad, 0.01, commission)
    requires IibbDeclared[8].0 == provincia && IsDeclaredOr(IibbDeclared, provincia, 0.03, perception)
    ensures commission == 0.01 && perception == 0.03
  {
    DeclaredOrFound(MepDeclared, entidad, 0.01, commission, 0);
    DeclaredOrFound(IibbDeclared, provincia, 0.03, perception, 8);
  }

  lemma FirstEntriesRates(entidad: string, provincia: string)
    requires MepDeclared[0].0 == entidad && IibbDeclared[8].0 == provincia
    ensures MepCommission(entidad) == 0.01 && IibbRate(provincia) == 0.03
  {
    var commission, perception := MepCommission(entidad), IibbRate(provincia);
    MepCommissionLookup(entidad);
    IibbRateLookup(provincia);
    DeclaredFirstEntries(entidad, provincia, commission, perception);
  }

  /**
   * The entries the two menus start on, "MercadoPago (1%)" and "Córdoba (3%)", are found in the
   * sorted tables with their declared rates.
   */
  lemma MenuDefaults(entidad: string, provincia: string)
    requires entidad == "MercadoPago (1%)" && provincia == "Córdoba (3%)"
    ensures MepCommission(entidad) == 0.01 && IibbRate(provincia) == 0.03
  {
    DeclaredPositions();
    FirstEntriesRates(entidad, provincia);
  }

  /** An entity missing from the table pays the 1% fallback commission. */
  lemma MepCommissionUndeclared(entidad: string)
    requires Undeclared(MepDeclared, entidad)
    ensures MepCommission(entidad) == 0.01
  {
    MepCommissionLookup(entidad);
    DeclaredOrMissing(MepDeclared, entidad, 0.01, MepCommission(entidad));
  }

  /** A province missing from the table pays the 3% fallback perception. */
  lemma IibbRateUndeclared(provincia: string)
    requires Undeclared(IibbDeclared, provincia)
    ensures IibbRate(provincia) == 0.03
  {
    IibbRateLookup(provincia);
    DeclaredOrMissing(IibbDeclared, provincia, 0.03, IibbRate(provincia));
  }
}
