/**
 * `convertir_usd`: validate the two entry fields, take the quote service's answer, build one
 * (name, amount) line per available quote and the optional manual Astropay rate, and sort the
 * lines by amount, cheapest first.
 */
module Conversion {
  import opened Wrappers
  import opened KeySort
  import opened Text
  import opened Tables
  import opened Rates

  /** What the result label shows: an error message or the sorted (name, amount) lines. */
  datatype Outcome = InvalidUsd | InvalidAstro | ApiError | NoQuotes | Lines(lines: seq<Item>)

  const TarjetaName: string := "Dólar Tarjeta"
  const CriptoName: string := "Dólar Cripto"
  const AstropayName: string := "Astropay Global"

  /** The name of the MEP line, which shows the selected entity. */
  function MepName(entidad: string): (name: string)
    ensures |name| == |entidad| + 12
    ensures name[..11] == "Dólar MEP (" && name[|name| - 1] == ')'
    ensures name[11..|name| - 1] == entidad
  {
    "Dólar MEP (" + entidad + ")"
  }

  /**
   * Python's `round(x, 2)` on an exact value: the nearest multiple of 0.01, and on a tie the one
   * whose count of hundredths is even.
   */
  function Round2(x: real): (r: real)
    ensures (r * 100.0).Floor as real == r * 100.0
    ensures -0.5 <= x * 100.0 - r * 100.0 <= 0.5
    ensures (x * 100.0 - r * 100.0 == 0.5 || x * 100.0 - r * 100.0 == -0.5) ==> (r * 100.0).Floor % 2 == 0
  {
    var c := (x * 100.0).Floor;
    var frac := x * 100.0 - c as real;
    var n := if frac < 0.5 then c else if frac > 0.5 then c + 1 else if c % 2 == 0 then c else c + 1;
    n as real / 100.0
  }

  /** The USD amount: the stripped entry text read as a number, if it is one. */
  function UsdAmount(usdEntry: string, parseFloat: string -> Option<real>): Option<real>
  {
    parseFloat(Strip(usdEntry))
  }

  /** The Astropay rate: 0 for a blank field, else the stripped text read as a number, if it is one. */
  function AstroRate(astroEntry: string, parseFloat: string -> Option<real>): (r: Option<real>)
    ensures Strip(astroEntry) == [] ==> r == Some(0.0)
    ensures Strip(astroEntry) != [] ==> r == parseFloat(Strip(astroEntry))
  {
    var astroText := Strip(astroEntry);
    if astroText == [] then Some(0.0) else parseFloat(astroText)
  }

  /** A quote line: the name and the USD amount at that rate, rounded to cents. */
  function Line(name: string, usd: real, rate: real): (line: Item)
    ensures line.0 == name
  {
    (name, Round2(usd * rate))
  }

  /** The Tarjeta line, present when the quotes have a `tarjeta` rate. */
  function TarjetaLines(usd: real, rates: map<string, real>): seq<Item>
  {
    if "tarjeta" in rates then [Line(TarjetaName, usd, rates["tarjeta"])] else []
  }

  /**
   * The MEP line, present when the quotes have a `bolsa` rate: that rate plus the entity's
   * commission (`MepCommission(entidad)` where `convertir_usd` builds it).
   */
  function MepLines(usd: real, entidad: string, commission: real, rates: map<string, real>): seq<Item>
  {
    if "bolsa" in rates then [Line(MepName(entidad), usd, rates["bolsa"] * (1.0 + commission))] else []
  }

  /** The Cripto line, present when the quotes have a `cripto` rate. */
  function CriptoLines(usd: real, rates: map<string, real>): seq<Item>
  {
    if "cripto" in rates then [Line(CriptoName, usd, rates["cripto"])] else []
  }

  /** The Astropay line, present when the manual rate is positive. */
  function AstropayLines(usd: real, astro: real): seq<Item>
  {
    if astro > 0.0 then [Line(AstropayName, usd, astro)] else []
  }

  /**
   * The lines `convertir_usd` appends, in the order it appends them: Tarjeta, MEP, Cripto, then
   * Astropay.
   */
  function Candidates(usd: real, astro: real, entidad: string, commission: real, rates: map<string, real>): seq<Item>
  {
    TarjetaLines(usd, rates) + MepLines(usd, entidad, commission, rates) + CriptoLines(usd, rates) + AstropayLines(usd, astro)
  }

  /**
   * The second half of `convertir_usd`: append the available lines, report that there are none,
   * or sort them by amount with a stable sort.
   */
  method AssembleLines(usdAmount: real, astroRate: real, entidad: string, comision: real, rates: map<string, real>)
    returns (out: Outcome)
    ensures out.NoQuotes? || out.Lines?
    ensures var lines := Candidates(usdAmount, astroRate, entidad, comision, rates);
      && (out.NoQuotes? <==> lines == [])
      && (out.Lines? ==> IsStableSortOf(out.lines, lines, false) && out.lines == StableSort(lines, false))
  {
    var results: seq<Item> := [];
    if "tarjeta" in rates {
      results := results + [Line(TarjetaName, usdAmount, rates["tarjeta"])];
    }
    assert results == TarjetaLines(usdAmount, rates);
    if "bolsa" in rates {
      var adjustedMep := rates["bolsa"] * (1.0 + comision);
      results := results + [Line(MepName(entidad), usdAmount, adjustedMep)];
    }
    assert results == TarjetaLines(usdAmount, rates) + MepLines(usdAmount, entidad, comision, rates);
    if "cripto" in rates {
      results := results + [Line(CriptoName, usdAmount, rates["cripto"])];
    }
    assert results == TarjetaLines(usdAmount, rates) + MepLines(usdAmount, entidad, comision, rates)
                      + CriptoLines(usdAmount, rates);
    if astroRate > 0.0 {
      results := results + [Line(AstropayName, usdAmount, astroRate)];
    }
    assert results == Candidates(usdAmount, astroRate, entidad, comision, rates);

    if results == [] {
      return NoQuotes;
    }
    var sorted := SortLines(results);
    out := Lines(sorted);
  }

  /** `results.sort(key=lambda x: x[1])`: the lines copied into an array and sorted there. */
  method SortLines(results: seq<Item>) returns (sorted: seq<Item>)
    ensures IsStableSortOf(sorted, results, false)
    ensures sorted == StableSort(results, false)
  {
    var buffer := new Item[|results|](i requires 0 <= i < |results| => results[i]);
    assert buffer[..] == results;
    SortByValue(buffer);
    sorted := buffer[..];
  }

  /**
   * `convertir_usd` with its widget reads as parameters and its label write as the result: the
   * entry texts, the selected MEP entity, the quote service's answer (`None` when the request,
   * its status or its JSON decoding failed) and Python's `float` on a text (`None` where it
   * raises `ValueError`).
   */
  method ConvertirUsd(usdEntry: string, astroEntry: string, entidad: string,
                      response: Option<seq<Record>>, parseFloat: string -> Option<real>)
    returns (out: Outcome)
    ensures out == InvalidUsd <==> UsdAmount(usdEntry, parseFloat).None?
    ensures out == InvalidAstro <==>
      UsdAmount(usdEntry, parseFloat).Some? && AstroRate(astroEntry, parseFloat).None?
    ensures out == ApiError <==>
      UsdAmount(usdEntry, parseFloat).Some? && AstroRate(astroEntry, parseFloat).Some? && response.None?
    ensures (out.NoQuotes? || out.Lines?) ==>
      && UsdAmount(usdEntry, parseFloat).Some? && AstroRate(astroEntry, parseFloat).Some? && response.Some?
      && var lines := Candidates(UsdAmount(usdEntry, parseFloat).value, AstroRate(astroEntry, parseFloat).value,
                                 entidad, MepCommission(entidad), ExtractRates(response.value));
         && (out.NoQuotes? <==> lines == [])
         && (out.Lines? ==> IsStableSortOf(out.lines, lines, false) && out.lines == StableSort(lines, false))
  {
    var usdText := Strip(usdEntry);
    var astroText := Strip(astroEntry);

    if parseFloat(usdText).None? {
      return InvalidUsd;
    }
    if astroText != [] && parseFloat(astroText).None? {
      return InvalidAstro;
    }
    var usdAmount := parseFloat(usdText).value;
    var astroRate := if astroText != [] then parseFloat(astroText).value else 0.0;

    if response.None? {
      return ApiError;
    }
    var rates := ExtractRates(response.value);
    var comision := MepCommission(entidad);
    out := AssembleLines(usdAmount, astroRate, entidad, comision, rates);
  }

  /** The four kinds of line carry four different names, whatever the MEP entity is called. */
  lemma LineNamesDistinct(entidad: string)
    ensures MepName(entidad) != TarjetaName && MepName(entidad) != CriptoName && MepName(entidad) != AstropayName
    ensures TarjetaName != CriptoName && TarjetaName != AstropayName && CriptoName != AstropayName
  {
    var name := MepName(entidad);
    assert name[6] == "Dólar MEP ("[6] == 'M';
    assert TarjetaName[6] == 'T' && CriptoName[6] == 'C';
    assert name[0] == 'D' && AstropayName[0] == 'A';
  }

  /** A line of one kind, looked up by its own name and by any other name. */
  lemma LineGet(lines: seq<Item>, name: string, amount: real, present: bool, key: string)
    requires lines == if present then [(name, amount)] else []
    ensures Get(lines, key) == if present && key == name then Some(amount) else None
  {
    if present {
      GetSingle((name, amount), key);
    }
  }

  /**
   * Looking a name up in the candidate lines: the first kind of line, in the order they are
   * appended, whose rate is available and whose name it is.
   */
  lemma CandidatesGet(usd: real, astro: real, entidad: string, commission: real, rates: map<string, real>, key: string)
    ensures Get(Candidates(usd, astro, entidad, commission, rates), key) ==
      if "tarjeta" in rates && key == TarjetaName then Some(Round2(usd * rates["tarjeta"]))
      else if "bolsa" in rates && key == MepName(entidad) then Some(Round2(usd * (rates["bolsa"] * (1.0 + commission))))
      else if "cripto" in rates && key == CriptoName then Some(Round2(usd * rates["cripto"]))
      else if astro > 0.0 && key == AstropayName then Some(Round2(usd * astro))
      else None
  {
    var t, m, c, a := TarjetaLines(usd, rates), MepLines(usd, entidad, commission, rates),
                      CriptoLines(usd, rates), AstropayLines(usd, astro);
    GetAppend(t, m, key);
    GetAppend(t + m, c, key);
    GetAppend(t + m + c, a, key);
    var tAmount := if "tarjeta" in rates then Round2(usd * rates["tarjeta"]) else 0.0;
    var mAmount := if "bolsa" in rates then Round2(usd * (rates["bolsa"] * (1.0 + commission))) else 0.0;
    var cAmount := if "cripto" in rates then Round2(usd * rates["cripto"]) else 0.0;
    LineGet(t, TarjetaName, tAmount, "tarjeta" in rates, key);
    LineGet(m, MepName(entidad), mAmount, "bolsa" in rates, key);
    LineGet(c, CriptoName, cAmount, "cripto" in rates, key);
    LineGet(a, AstropayName, Round2(usd * astro), astro > 0.0, key);
  }

  /**
   * Each kind of line is among the candidates exactly when its rate is available, and then
   * carries the USD amount at that rate rounded to cents.
   */
  lemma CandidatesLookup(usd: real, astro: real, entidad: string, commission: real, rates: map<string, real>)
    ensures var lines := Candidates(usd, astro, entidad, commission, rates);
      && Get(lines, TarjetaName) == (if "tarjeta" in rates then Some(Round2(usd * rates["tarjeta"])) else None)
      && Get(lines, MepName(entidad))
         == (if "bolsa" in rates then Some(Round2(usd * (rates["bolsa"] * (1.0 + commission)))) else None)
      && Get(lines, CriptoName) == (if "cripto" in rates then Some(Round2(usd * rates["cripto"])) else None)
      && Get(lines, AstropayName) == (if astro > 0.0 then Some(Round2(usd * astro)) else None)
  {
    LineNamesDistinct(entidad);
    CandidatesGet(usd, astro, entidad, commission, rates, TarjetaName);
    CandidatesGet(usd, astro, entidad, commission, rates, MepName(entidad));
    CandidatesGet(usd, astro, entidad, commission, rates, CriptoName);
    CandidatesGet(usd, astro, entidad, commission, rates, AstropayName);
  }

  /** The candidate lines carry distinct names, each one of the four kinds. */
  lemma CandidatesNames(usd: real, astro: real, entidad: string, commission: real, rates: map<string, real>)
    ensures var lines := Candidates(usd, astro, entidad, commission, rates);
      && DistinctLabels(lines)
      && forall i :: 0 <= i < |lines| ==>
           lines[i].0 == TarjetaName || lines[i].0 == MepName(entidad) || lines[i].0 == CriptoName || lines[i].0 == AstropayName
  {
    LineNamesDistinct(entidad);
  }

  /** No line at all exactly when no quote is available and the Astropay rate is not positive. */
  lemma NoCandidates(usd: real, astro: real, entidad: string, commission: real, rates: map<string, real>)
    ensures Candidates(usd, astro, entidad, commission, rates) == [] <==>
      "tarjeta" !in rates && "bolsa" !in rates && "cripto" !in rates && astro <= 0.0
  {
  }

  /**
   * What a stable sort of the candidate lines shows: the same lookups by name as the candidates,
   * ordered by non-decreasing amount.
   */
  lemma SortedLines(out: seq<Item>, usd: real, astro: real, entidad: string, commission: real, rates: map<string, real>)
    requires IsStableSortOf(out, Candidates(usd, astro, entidad, commission, rates), false)
    ensures Sorted(out, false)
    ensures |out| == |Candidates(usd, astro, entidad, commission, rates)|
    ensures forall key :: Get(out, key) == Get(Candidates(usd, astro, entidad, commission, rates), key)
  {
    var lines := Candidates(usd, astro, entidad, commission, rates);
    CandidatesNames(usd, astro, entidad, commission, rates);
    StableSortIsPermutation(out, lines, false);
    ReorderedLookups(out, lines);
  }

  /**
   * A blank Astropay field is no error and adds no line: the rate reads as 0, which is not
   * positive.
   */
  lemma BlankAstropay(astroEntry: string, parseFloat: string -> Option<real>, usd: real)
    requires Strip(astroEntry) == []
    ensures AstroRate(astroEntry, parseFloat) == Some(0.0)
    ensures AstropayLines(usd, AstroRate(astroEntry, parseFloat).value) == []
  {
  }

  /** An amount already in whole cents is left as it is by the rounding. */
  lemma Round2Cents(x: real)
    requires (x * 100.0).Floor as real == x * 100.0
    ensures Round2(x) == x
  {
  }

  /** The example's lines before sorting, with the commission as a value. */
  lemma ExampleCandidates(entidad: string, commission: real, rates: map<string, real>)
    requires commission == 0.01
    requires rates == map["tarjeta" := 1000.0, "bolsa" := 900.0, "cripto" := 1100.0]
    ensures Candidates(10.0, 0.0, entidad, commission, rates)
      == [(TarjetaName, 10000.0), (MepName(entidad), 9090.0), (CriptoName, 11000.0)]
  {
    assert 10.0 * rates["tarjeta"] == 10000.0 && 10.0 * (rates["bolsa"] * (1.0 + commission)) == 9090.0;
    assert 10.0 * rates["cripto"] == 11000.0;
    Round2Cents(10000.0);
    Round2Cents(9090.0);
    Round2Cents(11000.0);
  }

  /** The example's lines sorted by amount. */
  lemma ExampleSorted(mep: string)
    ensures StableSort([(TarjetaName, 10000.0), (mep, 9090.0), (CriptoName, 11000.0)], false)
      == [(mep, 9090.0), (TarjetaName, 10000.0), (CriptoName, 11000.0)]
  {
    var lines := [(TarjetaName, 10000.0), (mep, 9090.0), (CriptoName, 11000.0)];
    var cripto, mepLine := [(CriptoName, 11000.0)], (mep, 9090.0);
    assert lines[1..][1..] == cripto && lines[1..] == [mepLine] + cripto;
    assert cripto[1..] == [];
    assert StableSort(cripto, false) == cripto;
    assert StableSort(lines[1..], false) == Insert(mepLine, cripto, false) == [mepLine] + cripto;
    assert Insert(lines[0], cripto, false) == [lines[0]] + cripto;
    assert ([mepLine] + cripto)[1..] == cripto;
  }

  /**
   * Quotes tarjeta 1000, bolsa 900 and cripto 1100, 10 USD and the MercadoPago entity (1%): the
   * lines read MEP 9090, Tarjeta 10000 and Cripto 11000, in that order.
   */
  lemma WorkedExample()
    ensures var entidad := "MercadoPago (1%)";
      var rates := map["tarjeta" := 1000.0, "bolsa" := 900.0, "cripto" := 1100.0];
      StableSort(Candidates(10.0, 0.0, entidad, MepCommission(entidad), rates), false)
        == [(MepName(entidad), 9090.0), (TarjetaName, 10000.0), (CriptoName, 11000.0)]
  {
    var entidad := "MercadoPago (1%)";
    MenuDefaults(entidad, "Córdoba (3%)");
    var rates := map["tarjeta" := 1000.0, "bolsa" := 900.0, "cripto" := 1100.0];
    ExampleCandidates(entidad, MepCommission(entidad), rates);
    ExampleSorted(MepName(entidad));
  }
}
