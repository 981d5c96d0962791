# impyapp — conversion and tax pipeline of `src/impuestos.py`

A Dafny model of the computing core of the USD–ARS converter and tax calculator:

- the two reference tables. `mep_entidades` maps each MEP broker to its commission and is
  re-ordered ascending by rate. `iibb_provincias` maps each province to its IIBB perception rate
  and is re-ordered descending by rate. Both are built with Python's stable `sorted`;
- the comprehension that turns the quote service's records into the `tarjeta` / `bolsa` /
  `cripto` rate map;
- `convertir_usd`, modelled as a method:
  - it validates the two entry fields;
  - it appends one (name, amount) line per available quote and one for a positive manual
    Astropay rate;
  - it reports "no quotes", or sorts the lines by amount in place with a stable sort;
- the arithmetic of `calcular_impuestos`: IVA 21%, Ganancias 30%, the province's IIBB perception
  with a 3% fallback, and the total.

Modules:

- `Wrappers` holds `Option`.
- `KeySort` holds the stable sort by value. It has a specification function `StableSort` and an
  in-place insertion sort `SortByValue` on an array, which is proved equal to that function.
- `Text` models `str.strip`.
- `Tables` holds the two tables and `dict.get` with a default.
- `Rates` holds the rate extraction.
- `Conversion` models `convertir_usd`.
- `Taxes` models `calcular_impuestos`.

Inputs the program reads from widgets or the network become parameters:

- The entry texts, the selected menu labels and the quote service's answer are parameters. The
  answer is `None` when the request, its status check or its JSON decoding fails.
- `float(text)`, which `es_numero` wraps, becomes a parameter `parseFloat: string -> Option<real>`.
  It returns `None` exactly where Python raises `ValueError`.
- What the result label would show becomes the returned value.

The tables are declared already in the order the sort produces:
- commissions ascend in declaration order;
- perceptions descend in declaration order.
So `MepEntidades` and `IibbProvincias` are defined as the declared sequences. The lemmas
`MepEntidadesOrdered` and `IibbProvinciasOrdered` prove that each equals the stable sort of its
declared entries.

## Model

| member | source | states |
|---|---|---|
| KeySort.StableSortCorrect | src/impuestos.py:135 | `StableSort` yields its input ordered by value, and for every value the pairs carrying it stay in their original order (stability) |
| KeySort.StableSortIsPermutation | src/impuestos.py:135 | a stable sort of a sequence holds exactly its elements, with multiplicity |
| KeySort.StableSortUnique | src/impuestos.py:135 | two stable sorts of the same sequence are equal, so the sorted order is fully determined |
| KeySort.StableSortOfIsStableSort | src/impuestos.py:135 | any sequence that is a stable sort of `s` equals `StableSort(s)` |
| KeySort.AdjacentSorted | src/impuestos.py:24-40 | a sequence whose neighbours are in order is sorted |
| KeySort.SinkLast | src/impuestos.py:135 | one insertion step: with the first `i` pairs ordered by value, the first `i + 1` end up ordered, later pairs stay put and every group of equal values keeps its order |
| KeySort.SortByValue | src/impuestos.py:135 | sorting an array in place by value leaves a stable sort of its old contents, namely `StableSort` of them |
| Tables.DeclaredLabelsDistinct | src/impuestos.py:24-68 | no label is declared twice in either table |
| Tables.DeclaredSorted | src/impuestos.py:24-68 | the commissions are declared ascending and the perceptions descending |
| Tables.MepEntidadesOrdered | src/impuestos.py:24-40 | `mep_entidades` is the stable ascending sort of the declared commissions: ordered, equal rates in declaration order, same entries |
| Tables.IibbProvinciasOrdered | src/impuestos.py:43-68 | `iibb_provincias` is the stable descending sort of the declared perceptions: ordered, equal rates in declaration order, same entries |
| Tables.GetReordered | src/impuestos.py:24-40 | rebuilding a table with distinct labels in another order changes no lookup |
| Tables.ReorderedLookups | src/impuestos.py:43-68 | a reordering of a table with distinct labels has the same length and the same lookups |
| Tables.GetAppend | src/impuestos.py:117-128 | a lookup in two tables placed one after the other finds the first table's entry, else the second's |
| Tables.GetOrDeclared | src/impuestos.py:24-40 | looking a label up with a default in a reordering of the declared entries gives the declared rate, or the default for an undeclared label |
| Tables.MepCommissionLookup | src/impuestos.py:122 | `mep_entidades.get(entidad, 0.01)` is the entity's declared commission, or 1% when the entity is not declared |
| Tables.IibbRateLookup | src/impuestos.py:150 | `iibb_provincias.get(provincia, 0.03)` is the province's declared perception, or 3% when the province is not declared |
| Tables.MepCommissionBounds | src/impuestos.py:122 | every commission, the fallback included, lies between 1% and 2.5% |
| Tables.IibbRateBounds | src/impuestos.py:150 | every perception rate, the fallback included, lies between 0% and 5.5% |
| Tables.MepCommissionUndeclared | src/impuestos.py:122 | an entity missing from the table pays the 1% fallback |
| Tables.IibbRateUndeclared | src/impuestos.py:150 | a province missing from the table pays the 3% fallback |
| Tables.MenuDefaults | src/impuestos.py:202-224 | the menus' initial labels, "MercadoPago (1%)" and "Córdoba (3%)", are found with rates 1% and 3% |
| Text.Strip | src/impuestos.py:88-89 | the stripped text starts and ends with no whitespace and is a slice of the input; it is empty exactly when the input is all whitespace |
| Text.StripIdempotent | src/impuestos.py:88-89 | stripping twice is stripping once |
| Rates.ExtractRates | src/impuestos.py:112-115 | the rate map's keys are among `tarjeta`, `bolsa` and `cripto` |
| Rates.ExtractRatesSpec | src/impuestos.py:112-115 | a category is in the map exactly when some record carries it, and its rate is that of the last such record: `venta` if truthy, else `compra` if truthy, else 0 |
| Rates.ExtractRatesIgnores | src/impuestos.py:114 | a record whose `casa` is not one of the three categories changes nothing |
| Conversion.MepName | src/impuestos.py:124 | the MEP line's name is "Dólar MEP (", the selected entity and ")" |
| Conversion.Round2 | src/impuestos.py:119 | `round(x, 2)`: a whole number of cents at most half a cent from `x`, with an even count of cents on a tie |
| Conversion.Round2Cents | src/impuestos.py:119 | an amount already in whole cents is left unchanged by the rounding |
| Conversion.AstroRate | src/impuestos.py:100 | a blank Astropay field reads as rate 0; any other text is read as a number, if it is one |
| Conversion.LineNamesDistinct | src/impuestos.py:118-128 | the four kinds of line have four different names, whatever the entity's label |
| Conversion.CandidatesGet | src/impuestos.py:117-128 | looking a name up among the appended lines finds the first kind of line, in append order, whose rate is available and whose name matches, with its rounded amount |
| Conversion.CandidatesLookup | src/impuestos.py:117-128 | each line is there exactly when its rate is available, with amount `round(usd * rate, 2)`. The MEP rate is `bolsa * (1 + commission)` and the Astropay line needs a positive rate |
| Conversion.CandidatesNames | src/impuestos.py:117-128 | the appended lines have distinct names, each one of the four kinds |
| Conversion.NoCandidates | src/impuestos.py:131-133 | no line is appended exactly when no quote category is present and the Astropay rate is not positive |
| Conversion.AssembleLines | src/impuestos.py:117-135 | the appends build exactly the candidate lines; the outcome is "no quotes" exactly when there are none, else their stable sort by amount |
| Conversion.SortLines | src/impuestos.py:135 | `results.sort(key=lambda x: x[1])` leaves the stable sort of the lines |
| Conversion.ConvertirUsd | src/impuestos.py:86-137 | an invalid USD text is reported first; a non-blank invalid Astropay text next; then a failed request; otherwise "no quotes" exactly when no line applies, else the stable sort of the lines, with the commission looked up for the entity |
| Conversion.SortedLines | src/impuestos.py:135 | the sorted lines are ordered by non-decreasing amount and have the same number of lines and the same lookups by name as the appended lines |
| Conversion.BlankAstropay | src/impuestos.py:127-128 | a blank Astropay field is not an error and adds no line |
| Conversion.WorkedExample | src/impuestos.py:117-135 | quotes 1000/900/1100 with 10 USD and MercadoPago give MEP 9090, Tarjeta 10000, Cripto 11000, in that order |
| Taxes.TaxesOn | src/impuestos.py:146-152 | the breakdown keeps the base and province; IVA is `base * 0.21`, Ganancias `base * 0.30` and IIBB `base * rate`; the total is `base * (1 + 0.21 + 0.30 + rate)` with the province's rate or the 3% fallback |
| Taxes.CalcularImpuestos | src/impuestos.py:139-152 | the ARS text is invalid exactly when it does not parse after stripping; any parsed number, negative included, gets the breakdown |
| Taxes.TotalBounds | src/impuestos.py:147-152 | for a non-negative base the total lies between 151% and 156.5% of it |
| Taxes.GrossedUpBounds | src/impuestos.py:152 | `base * (1.51 + rate)` with a rate between 0 and 5.5% lies between 151% and 156.5% of a non-negative base |
| Taxes.UnknownProvince | src/impuestos.py:150 | a province missing from the table is taxed like Córdoba, at 3% |
| Taxes.CordobaExample | src/impuestos.py:146-152 | 1000 pesos in Córdoba give IVA 210, Ganancias 300, IIBB 30 and a total of 1540 |

## Left out

- GUI construction, the event loop, the option menus and the Dolarya link and icon. These are
  presentation. Widget reads are parameters and label writes are returned values.
- The HTTP request, `raise_for_status` and `.json()`. These are network I/O. Every failure they can
  raise collapses to the `ApiError` outcome. A JSON item that is not an object, or a `venta` /
  `compra` that is not a number, is not modelled.
- `locale.currency` formatting of the amounts and of the breakdown. It is a foreign library call
  whose output depends on the locale.
- The syntax `float` accepts, which `es_numero` wraps: `inf`, `nan`, underscores and surrounding
  whitespace. It is the parameter `parseFloat` over `real`, so infinities and NaN are not modelled.
- Round2: models `round(x, 2)` on exact reals, round half to even on the cent. It does not model
  the binary floating-point representation of the operands, or products rounded before `round`.
- Taxes.TaxesOn: the products are exact `real` products. It does not model IEEE-754 rounding.
- Text.Strip: removes exactly the code points Python's `str.isspace` accepts. It does no Unicode
  normalisation.
- `MepCommission` and `IibbRate` carry no contract of their own. What they return is stated by
  `Tables.MepCommissionLookup` and `Tables.IibbRateLookup`.
- A `dict` is a sequence of (label, rate) pairs looked up first-match. Both literals have distinct
  labels, which `Tables.DeclaredLabelsDistinct` proves, so this agrees with `dict.get`.
- This file does no European/US separator normalisation of the entered numbers, so the model has
  none either.
