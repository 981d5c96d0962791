/**
 * `calcular_impuestos`: the taxes an Argentine card purchase in pesos carries — IVA (21%), the
 * Ganancias perception (30%) and the province's IIBB perception — and the total with taxes.
 */
module Taxes {
  import opened Wrappers
  import opened Text
  import opened Tables

  const IvaRate: real := 0.21
  const GananciaRate: real := 0.30

  /** What the tax label shows: the invalid-amount message or the breakdown. */
  datatype TaxOutcome =
    | InvalidArs
    | Breakdown(base: real, iva: real, ganancia: real, provincia: string, iibb: real, total: real)

  /**
   * The breakdown `calcular_impuestos` shows for a base amount and a province: IVA and Ganancias
   * on the base, the province's perception (3% for a label missing from the table) on the base,
   * and their sum with the base.
   */
  function TaxesOn(base: real, provincia: string): (r: TaxOutcome)
    ensures r.Breakdown? && r.base == base && r.provincia == provincia
    ensures r.iva == base * IvaRate && r.ganancia == base * GananciaRate
    ensures r.iibb == base * IibbRate(provincia)
    ensures r.total == base * (1.0 + IvaRate + GananciaRate + IibbRate(provincia))
  {
    var iva := base * IvaRate;
    var ganancia := base * GananciaRate;
    var iibb := base * IibbRate(provincia);
    Breakdown(base, iva, ganancia, provincia, iibb, base + iva + ganancia + iibb)
  }

  /**
   * `calcular_impuestos` with its widget reads as parameters: the ARS entry text, the selected
   * province and Python's `float` on a text (`None` where it raises `ValueError`). Any number is
   * accepted as the base, negative ones included.
   */
  function CalcularImpuestos(arsEntry: string, provincia: string, parseFloat: string -> Option<real>): (r: TaxOutcome)
    ensures r.InvalidArs? <==> parseFloat(Strip(arsEntry)).None?
    ensures r.Breakdown? ==> r == TaxesOn(parseFloat(Strip(arsEntry)).value, provincia)
  {
    var arsText := Strip(arsEntry);
    match parseFloat(arsText)
    case None => InvalidArs
    case Some(base) => TaxesOn(base, provincia)
  }

  /**
   * The total is the base grown by 51% plus the province's perception: for a base that is not
   * negative, between 151% and 156.5% of it.
   */
  lemma TotalBounds(base: real, provincia: string)
    requires base >= 0.0
    ensures base * 1.51 <= TaxesOn(base, provincia).total <= base * 1.565
  {
    var rate, total := IibbRate(provincia), TaxesOn(base, provincia).total;
    IibbRateBounds(provincia);
    GrossedUpBounds(base, rate, total);
  }

  lemma GrossedUpBounds(base: real, rate: real, total: real)
    requires base >= 0.0 && 0.0 <= rate <= 0.055
    requires total == base * (1.0 + IvaRate + GananciaRate + rate)
    ensures base * 1.51 <= total <= base * 1.565
  {
    assert total == base * 1.51 + base * rate;
    assert 0.0 <= base * rate <= base * 0.055;
  }

  /** A province missing from the table is taxed like one at the 3% fallback, e.g. Córdoba. */
  lemma UnknownProvince(arsEntry: string, provincia: string, parseFloat: string -> Option<real>)
    requires Undeclared(IibbDeclared, provincia)
    requires CalcularImpuestos(arsEntry, provincia, parseFloat).Breakdown?
    ensures var r := CalcularImpuestos(arsEntry, provincia, parseFloat);
      var cordoba := CalcularImpuestos(arsEntry, "Córdoba (3%)", parseFloat);
      && cordoba.Breakdown?
      && r.iibb == r.base * 0.03 == cordoba.iibb
      && r.total == cordoba.total
  {
    IibbRateUndeclared(provincia);
    MenuDefaults("MercadoPago (1%)", "Córdoba (3%)");
  }

  /** 1000 pesos in Córdoba: IVA 210, Ganancias 300, IIBB 30, total 1540. */
  lemma CordobaExample(arsEntry: string, parseFloat: string -> Option<real>)
    requires parseFloat(Strip(arsEntry)) == Some(1000.0)
    ensures CalcularImpuestos(arsEntry, "Córdoba (3%)", parseFloat)
      == Breakdown(1000.0, 210.0, 300.0, "Córdoba (3%)", 30.0, 1540.0)
  {
    MenuDefaults("MercadoPago (1%)", "Córdoba (3%)");
  }
}
