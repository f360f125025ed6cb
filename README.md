# Proposal calculator: pricing rule and quote table

A Dafny model of the quote calculator in `script.js`. The calculator sells three
product tiers (Basic, Dispatch, Route Builder), each with a unit price per user
per year. For a user count, a tier and a term in years it computes a quote:

- the base price;
- a bulk discount by user count (10% from 10 users, 15% from 25, 20% from 50);
- a flat 10% multi-year discount for 3- and 5-year terms;
- a manual discount that, when entered (0 included), replaces both automatic
  discounts;
- the discount amount, the final price and the price per user per year.

The page reads the form, normalises it, and renders a table. The header has one
column per selected term. There is one row per selected tier, and each cell is
shown in compact or detailed mode with discount badges. When the user count is 0
or not a number, or no tier or term is selected, the page shows a notice
instead.

Modules:

- `Wrappers` (`wrappers.dfy`): `Option`.
- `Pricing` (`pricing.dfy`): the price table as a `Tier` enumeration with its
  names and unit prices, and `calculatePrice` as the function `CalculatePrice`,
  with lemmas for the discount schedule and the price arithmetic.
- `Selection` (`selection.dfy`): `getSelectedValues` as a pure function on the
  option texts, plus the manual-discount normalisation. That normalisation is
  `trim`, the blank test and the clamp to [0, 100].
- `Render` (`render.dfy`): `renderTable` as the method `RenderTable`. It guards
  the inputs and hands a valid selection to `BuildTable`, whose outer loop walks
  the tiers. Each tier's callback body becomes `RenderRow`, whose loop walks the
  terms. The header loop becomes `RenderHeader`. The HTML text is replaced by a
  structured `Output`: a header of column titles and rows of `Cell`s, each cell
  either `Compact` or `Detailed` and carrying its list of `Badge`s.

Amounts are exact `real`s. The unit prices 149.99, 249.99 and 449.99 are exact
decimals here.

Inputs the page reads from the browser are parameters:

- the `parseInt` value of the user field, `None` when it is not a number;
- the raw text of the manual field, and the `parseFloat` value of its trimmed
  text;
- the details flag;
- the texts of the selected tier and term options.

Some behaviour of the code worth stating:

- A negative user count passes the guard and is priced. Only 0 and a
  non-number show the notice.
- A tier missing from the price table yields NaN prices, not an error.
  `RenderTable` requires every selected tier to be in the table.
- The multi-year discount applies to both 3- and 5-year terms.
- The manual discount replaces both automatic discounts. It never stacks with
  them.

## Model

| member | source | states |
|---|---|---|
| `Pricing.LookupTier` | script.js:2-6 | a name found in the price table is the key of the tier it returns |
| `Pricing.UnitPrice` | script.js:2-6 | every tier of the price table has a unit price between 100 and 500 per user per year |
| `Pricing.LookupTierName` | script.js:2-6 | every tier of the table is found under its own key |
| `Pricing.BulkDiscount` | script.js:20-22 | the bulk discount is one of 0, 10, 15, 20, and it is 0 exactly below 10 users |
| `Pricing.BulkDiscountBreakpoints` | script.js:20-22 | 20% from 50 users, 15% for 25 to 49, 10% for 10 to 24, 0% below 10 |
| `Pricing.BulkDiscountMonotone` | script.js:20-22 | more users never earn a smaller bulk discount |
| `Pricing.TermDiscount` | script.js:25 | the term discount is 10 exactly for 3 or 5 years, and 0 otherwise |
| `Pricing.CalculatePrice` | script.js:8-43 | base price is unit price × users × years. A manual discount, 0 included, is the total and leaves both automatic discounts 0. Without one, the total is bulk plus term discount and lies in [0, 30]. The discount amount is that percentage of the base. |
| `Pricing.PerSeatYear` | script.js:32 | the price per user per year exists exactly when users × years ≠ 0, and then times users times years gives the final price |
| `Pricing.PriceDecomposition` | script.js:30-31 | discount amount + final price = base price, and final price = base × (1 − total/100) |
| `Pricing.FinalPriceWithinBase` | script.js:30-31 | with a total percentage in [0, 100] and a non-negative base, 0 ≤ final price ≤ base price |
| `Pricing.DispatchThirtyUsersThreeYears` | script.js:2-43 | 30 Dispatch users for 3 years: 15% + 10% = 25% off a base of 22499.10, final 16874.325 |
| `Pricing.BasicFiveUsersManualTwelve` | script.js:2-43 | 5 Basic users for 1 year with a manual 12%: 12% off a base of 749.95, final 659.956 |
| `Pricing.RouteBuilderSixtyUsersFiveYears` | script.js:2-43 | 60 Route Builder users for 5 years: 20% + 10% = 30% off a base of 134997, final 94497.9 |
| `Selection.NatToString` | script.js:74 | a number prints as a non-empty digit string without a leading zero |
| `Selection.DecimalValueOfNatToString` | script.js:48 | `DecimalValue`, the model of `parseInt(…, 10)`, inverts printing: parsing the printed form of a number gives the number back |
| `Selection.NatToStringOfDecimalValue` | script.js:48 | printing the parsed value of a digit string without a leading zero gives the string back |
| `Selection.ParseOption` | script.js:48 | an option becomes an integer exactly when it matches `^\d+$`, and that integer is the option's decimal value (`DecimalValue`); otherwise it stays the same text |
| `Selection.DecimalValueLeadingZero` | script.js:48 | a leading zero does not change the value read, so the option "03" is the term 3 |
| `Selection.ShowParseOption` | script.js:48 | a text option, or a number without a leading zero, prints back as the option it came from |
| `Selection.SelectedValues` | script.js:46-50 | the selected values keep the number and order of the selected options, each parsed on its own |
| `Selection.LeadingSpace` | script.js:55 | counts the white space at the start of the text, which is followed by the end or by a non-space character |
| `Selection.TrailingSpace` | script.js:55 | counts the white space at the end of the text, which is preceded by the start or by a non-space character |
| `Selection.TrimIsInnerSlice` | script.js:55 | `Trim`, the model of `.trim()`, is determined completely: the trimmed text is a slice with only white space around it. It is empty exactly when the text is all white space, and otherwise starts and ends with a non-space character. |
| `Selection.TrimIdempotent` | script.js:55 | trimming a trimmed text changes nothing |
| `Selection.Clamp` | script.js:56 | the result lies in [0, 100]. It equals the input inside that range, 0 below it and 100 above it. |
| `Selection.ManualDiscount` | script.js:55-56 | no manual discount exactly when the field is blank or white space; otherwise the parsed number clamped into [0, 100] |
| `Render.TermLabelReadsBack` | script.js:73-75 | `TermLabel`, the column heading, is determined completely: a term heading starts with the term's digits, which read back as the term. It ends in "Years" exactly for terms above 1, and in "Year" otherwise. |
| `Render.TermLabelsDistinct` | script.js:73-75 | different terms get different column headings |
| `Render.Badges` | script.js:87-92 | a manual discount shows only its badge. Otherwise there are at most two badges, each at most once: a bulk badge exactly when the bulk discount is positive and a multi-year badge exactly when the term discount is, bulk first. |
| `Render.PriceCell` | script.js:81-110 | the cell shows the final price and the badges of that cell's quote. It is detailed exactly when details are on. The detailed full price, recomputed from the price table, equals the quote's base price, and the detailed total, amount and per-user-per-year figures are the quote's. |
| `Render.CellBadges` | script.js:83-108 | the badges are the same in both modes. With a manual discount they are that badge alone. Otherwise a bulk badge appears exactly from 10 users and a multi-year badge exactly for 3- or 5-year terms. |
| `Render.TierNameIsText` | script.js:59 | no key of the price table is all digits, so a selected tier stays text |
| `Render.RenderHeader` | script.js:71-76 | "Total Users", "Product Tier", then one heading per selected term in selection order |
| `Render.RenderRow` | script.js:80-111 | one cell per selected term, in selection order, each the cell of that (tier, term) pair |
| `Render.BuildTable` | script.js:70-116 | one row per tier in selection order, each holding the user count, the tier name and exactly one cell per term, in order. Cell (i, j) is the cell of tier i and term j. Exactly tiers × terms quotes are computed. |
| `Render.RenderTable` | script.js:53-117 | shows the notice exactly when the user count is 0 or not a number or either list is empty, and then computes no quote. Otherwise it builds the table of `BuildTable` from the parsed selections and the normalised manual discount. |

## Left out

- Browser I/O is not modelled. This covers reading the form controls
  (`getElementById`, `selectedOptions`, `checked`), writing `innerHTML`, and
  the event listeners that re-run the rendering (script.js:120-129).
- The HTML text of the table, its CSS classes and the `toFixed(2)` formatting
  are not modelled. Cells carry the values they display instead.
- Binary floating point is not modelled: prices are exact reals, so the model
  does not round the way the browser does.
- `parseInt` of the user field and `parseFloat` of the manual field are not
  modelled. Their results are parameters of `RenderTable`.
- The NaN paths are not modelled:
  - a manual field whose text is not a number. The clamp leaves NaN, the price
    takes the automatic discounts, and yet the cell shows a manual badge.
  - a tier name missing from the price table;
  - a term option that is not all digits.
  `RenderTable` requires every tier option to be in the table and every term
  option to be all digits, and the manual value is a real.
- Precision of JavaScript numbers is not modelled: digit strings are read as
  unbounded integers, with no loss of precision above 2^53.
- Idempotence of rendering is not stated as a lemma. `BuildTable`'s
  postcondition determines its output completely, so two renderings of the same
  inputs agree.
- Division by zero is not modelled as NaN: the price per user per year is
  `None` there. The page shows NaN in that case, because the base price is 0
  whenever users × years is 0.
- UnitPrice: the contract bounds each unit price instead of stating it. The
  exact prices 149.99, 249.99 and 449.99 are pinned by the three worked-quote
  lemmas in `Pricing`.
