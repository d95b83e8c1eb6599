# Quote builder: a Dafny model of the pricing engine and its surroundings

This project models the web-development quote builder in Dafny. A visitor
picks a website type, any number of add-ons, a hosting plan, an urgency level
and a builder type. The calculator prices the selection and shows the
breakdown. The visitor then fills in their contact details and gets a numbered
quotation.

The modelled parts:

- **The pricing engine** (`QuoteCalculator.CalculateTotal`). It looks up the four
  single-choice ids with a first-match search and keeps the selected add-ons in
  catalog order. It adds base price, add-ons and hosting into a subtotal. It
  applies the urgency markup to the subtotal and then the agency markup to the
  subtotal plus the urgency markup. If any of the four lookups fails, the result
  is `NotReady` (the source's `null`). Prices and multipliers are exact `real`
  values, so 1.2 is exactly 6/5 and identities such as
  `total == subtotal * urgency * builder` hold exactly.
- **The option catalog** (`QuoteOptions`). It holds the shipped lists, their
  well-formedness facts and three worked quotes priced against them. The engine
  takes the catalog as a parameter, and `QuoteOptions.Static` is the shipped
  catalog.
- **The add-on toggle** (`AddOnsSelector.Toggle`). It removes every occurrence
  of an id that is present and appends an id that is absent.
- **The client form** (`QuotationForm`). It covers the quote-number format, the
  trimmed-name submit guard, the assembly of the quotation and the per-field
  update of the form data. The form is a class whose `formData` field changes.
  The JavaScript string operations it uses (`String(n)`, `padStart`, `trim`)
  are in `JsStrings`.
- **The page** (`QuoteCalculatorPage`). It is a class with the current step and
  two nullable slots, four handlers that overwrite them, and the render
  dispatch.

Notes on the source as modelled:

- `handleBackToForm` (src/pages/QuoteCalculatorPage.tsx:30-33) is defined but no
  child component receives it. Both `onBack` props get `handleBackToCalculator`.
  It is modelled as written.
- `isComplete` (src/components/quote/QuoteCalculator.tsx:72) only checks that the
  four ids are non-empty strings. Readiness implies it, but it does not imply
  readiness: a non-empty unknown id passes it (`CompleteButNotReady`). The button
  it disables is only rendered when a calculation exists, so under the shipped
  catalog it is never disabled.
- The add-on selection is an ordered list of ids, not a set. Pricing depends
  only on which ids occur in it (`SelectAddOnsSameIds`). Toggling keeps a
  duplicate-free list duplicate-free.
- The shipped website types carry a `recommendedAddOns` list that the
  `WebsiteType` interface does not declare. The model keeps it as a field.
- The catalog is hard-coded in the source. The engine here takes it as a
  parameter, and every statement about the shipped data is made about
  `QuoteOptions.Static`.

## Model

| member | source | states |
|---|---|---|
| `Lookup.Find` | src/components/quote/QuoteCalculator.tsx:27-31 | `find` returns nothing exactly when no entry carries the id; otherwise it returns the first entry that does |
| `Lookup.FindUnique` | src/components/quote/QuoteCalculator.tsx:27-31 | when ids are unique, looking up an entry's id returns that entry |
| `QuoteOptions.StaticSizes` | src/data/quoteOptions.ts:3-108 | the shipped catalog has 5 website types, 6 add-ons, 3 hosting plans, 3 urgency levels and 2 builder types |
| `QuoteOptions.StaticWellFormed` | src/data/quoteOptions.ts:3-108 | in the shipped catalog every price is ≥ 0, every multiplier is ≥ 1, ids are unique and non-empty in each list, and recommended add-ons resolve |
| `QuoteOptions.StaticUniqueIds` | src/data/quoteOptions.ts:3-108 | no two entries of a shipped list share an id |
| `QuoteOptions.StaticRecommendationsResolve` | src/data/quoteOptions.ts:3-91 | every id in a website type's recommended add-ons names an add-on of the catalog |
| `QuoteOptions.StaticDefaultsAreNeutral` | src/data/quoteOptions.ts:93-108 | the default ids `none`, `flexible` and `freelancer` resolve, to a hosting price of 0 and multipliers of 1.0 |
| `QuoteCalculator.SelectAddOns` | src/components/quote/QuoteCalculator.tsx:28 | an add-on is kept exactly when it is a catalog entry whose id was selected; unknown ids contribute nothing |
| `QuoteCalculator.SelectAddOnsAppend` | src/components/quote/QuoteCalculator.tsx:28 | filtering a concatenated catalog filters each part in turn, so the result keeps catalog order |
| `QuoteCalculator.SelectAddOnsSameIds` | src/components/quote/QuoteCalculator.tsx:28 | two selections with the same ids, in any order and with any repeats, resolve to the same add-ons |
| `QuoteCalculator.SelectAddOnsUniqueIds` | src/components/quote/QuoteCalculator.tsx:28 | with unique catalog ids the resolved add-ons have unique ids, so a repeated selected id is counted once |
| `QuoteCalculator.AddOnsTotal` | src/components/quote/QuoteCalculator.tsx:38 | the add-ons total of non-negative prices is non-negative |
| `QuoteCalculator.AddOnsTotalAppend` | src/components/quote/QuoteCalculator.tsx:38 | the fold is additive over concatenation |
| `QuoteCalculator.AddOnsTotalMonotone` | src/components/quote/QuoteCalculator.tsx:28-38 | selecting a superset of ids never lowers the add-ons total |
| `QuoteCalculator.ApplyMarkups` | src/components/quote/QuoteCalculator.tsx:41-45 | urgency markup is subtotal·(u−1) and agency markup is (subtotal + urgency markup)·(b−1); the total is subtotal plus both markups and equals subtotal·u·b |
| `QuoteCalculator.CalculateTotal` | src/components/quote/QuoteCalculator.tsx:26-62 | not ready exactly when one of the four ids has no catalog match; otherwise the first matches, the filtered add-ons, base/add-ons/hosting lines from them, compounded markups, and a total equal to the sum of the breakdown |
| `QuoteCalculator.MarkupsNeutral` | src/components/quote/QuoteCalculator.tsx:41-45 | multipliers of 1.0 give zero markups and a total equal to the subtotal |
| `QuoteCalculator.MarkupsNonNegative` | src/components/quote/QuoteCalculator.tsx:41-45 | with a subtotal ≥ 0 and multipliers ≥ 1 both markups are ≥ 0 and the total is ≥ the subtotal |
| `QuoteCalculator.MarkupsMonotone` | src/components/quote/QuoteCalculator.tsx:41-45 | the total never decreases when the subtotal or either multiplier increases |
| `QuoteCalculator.BreakdownNonNegative` | src/components/quote/QuoteCalculator.tsx:37-45 | over a catalog with non-negative prices and multipliers ≥ 1, every breakdown line is ≥ 0 and total ≥ subtotal ≥ 0 |
| `QuoteCalculator.TotalMonotoneInAddOns` | src/components/quote/QuoteCalculator.tsx:28-45 | selecting more add-ons keeps the quote ready and never lowers its total |
| `QuoteCalculator.TotalMonotoneInMultipliers` | src/components/quote/QuoteCalculator.tsx:42-45 | choosing urgency and builder options with higher multipliers never lowers the total |
| `QuoteCalculator.ToggleMovesTotalWithSelection` | src/components/quote/QuoteCalculator.tsx:28-45 | ticking an add-on never lowers the total and unticking one never raises it |
| `QuoteCalculator.ReadyIsComplete` | src/components/quote/QuoteCalculator.tsx:72 | a ready quote over a catalog without empty ids passes `isComplete` |
| `QuoteCalculator.CompleteButNotReady` | src/components/quote/QuoteCalculator.tsx:72 | a non-empty unknown website type id passes `isComplete`, yet the engine returns not ready |
| `QuoteCalculator.GenerateQuote` | src/components/quote/QuoteCalculator.tsx:66-70 | the calculation is forwarded unchanged, and only when one exists |
| `QuoteCalculator.InitiallyNotReady` | src/components/quote/QuoteCalculator.tsx:20-35 | the opening selections (empty website type id) price nothing and fail `isComplete` |
| `QuoteCalculator.ChoosingWebsiteTypePricesBase` | src/components/quote/QuoteCalculator.tsx:20-45 | from the opening selections, choosing any website type gives a ready quote whose total is that type's price |
| `QuoteCalculator.WorkedBusinessFastFreelancer` | src/components/quote/QuoteCalculator.tsx:37-45 | business + WhatsApp + logo + standard + fast + freelancer: subtotal 31000, urgency markup 6200, total 37200 |
| `QuoteCalculator.WorkedEcommerceAgency` | src/components/quote/QuoteCalculator.tsx:37-45 | e-commerce + none + flexible + agency: agency markup 15000, total 65000 |
| `QuoteCalculator.WorkedLandingUrgentAgency` | src/components/quote/QuoteCalculator.tsx:37-45 | landing + premium + urgent + agency: urgency markup 11000, agency markup 9900, total 42900 |
| `AddOnsSelector.RemoveAll` | src/components/quote/AddOnsSelector.tsx:25 | the id is gone, and every other id keeps its number of occurrences |
| `AddOnsSelector.Toggle` | src/components/quote/AddOnsSelector.tsx:23-29 | membership of the clicked id flips, membership of every other id is unchanged, and an absent id is appended at the end |
| `AddOnsSelector.RemoveAllAppend` | src/components/quote/AddOnsSelector.tsx:25 | removal distributes over concatenation, so the kept ids stay in their original order |
| `AddOnsSelector.RemoveAllAbsent` | src/components/quote/AddOnsSelector.tsx:25 | removing an id that is not there returns the list unchanged |
| `AddOnsSelector.RemoveAllPresentOnce` | src/components/quote/AddOnsSelector.tsx:25 | on a duplicate-free list, removing a present id shortens it by exactly one |
| `AddOnsSelector.RemoveAllNoDuplicates` | src/components/quote/AddOnsSelector.tsx:25 | removal keeps a list duplicate-free |
| `AddOnsSelector.ToggleNoDuplicates` | src/components/quote/AddOnsSelector.tsx:23-29 | toggling keeps a duplicate-free selection duplicate-free and changes its length by exactly one |
| `AddOnsSelector.ToggleTwiceAbsent` | src/components/quote/AddOnsSelector.tsx:23-29 | toggling an absent id twice restores the original list exactly |
| `AddOnsSelector.ToggleTwicePresent` | src/components/quote/AddOnsSelector.tsx:23-29 | toggling a present id twice keeps the same ids and moves that id to the end |
| `JsStrings.DecimalString` | src/components/quote/QuotationForm.tsx:25-28 | `String(n)` is all digits, reads back as `n`, has no leading zero, and has k digits exactly when 10^(k−1) ≤ n < 10^k |
| `JsStrings.PadStart` | src/components/quote/QuotationForm.tsx:26-28 | `padStart` pads on the left with the fill character up to the width and leaves longer strings unchanged |
| `JsStrings.PaddedDecimalValue` | src/components/quote/QuotationForm.tsx:26-28 | a zero-padded decimal string reads back as the original number |
| `JsStrings.Trim` | src/components/quote/QuotationForm.tsx:45 | `trim` returns the slice left after cutting whitespace from both ends, and returns "" exactly when the string is all whitespace |
| `QuotationForm.QuoteNumber` | src/components/quote/QuotationForm.tsx:23-30 | a quote number starts with "UW-" and has at least 12 characters |
| `QuotationForm.QuoteNumberLayout` | src/components/quote/QuotationForm.tsx:24-29 | with a 4-digit year, month index 0..11, day 1..31 and draw 0..999, the number is 15 characters "UW-YYYYMMDD-RRR" and each field reads back |
| `QuotationForm.QuoteNumberInjective` | src/components/quote/QuotationForm.tsx:24-29 | in that range, different dates or draws give different quote numbers |
| `QuotationForm.WithField` | src/components/quote/QuotationForm.tsx:94 | the spread update sets the named field and leaves the other three unchanged |
| `QuotationForm.QuotationForm.constructor` | src/components/quote/QuotationForm.tsx:16-21 | the form starts with all four fields empty, for the given calculation |
| `QuotationForm.QuotationForm.SubmitDisabled` | src/components/quote/QuotationForm.tsx:192 | the submit button is disabled exactly when the full name is all whitespace |
| `QuotationForm.QuotationForm.HandleInputChange` | src/components/quote/QuotationForm.tsx:93-95 | the form data becomes the old data with only the named field replaced |
| `QuotationForm.QuotationForm.HandleSubmit` | src/components/quote/QuotationForm.tsx:42-60 | nothing is submitted exactly when the name is blank, which is when the button is disabled; otherwise the quotation carries the form data and the calculation unchanged, with the generated number and the given dates |
| `QuoteCalculatorPage.QuoteCalculatorPage.constructor` | src/pages/QuoteCalculatorPage.tsx:10-12 | the page starts at the calculator step with both slots empty |
| `QuoteCalculatorPage.QuoteCalculatorPage.HandleGenerateQuote` | src/pages/QuoteCalculatorPage.tsx:14-17 | the calculation is stored, the step becomes form, and the quotation slot is untouched |
| `QuoteCalculatorPage.QuoteCalculatorPage.HandleFormSubmit` | src/pages/QuoteCalculatorPage.tsx:19-22 | the quotation is stored, the step becomes quotation, and the calculation slot is untouched |
| `QuoteCalculatorPage.QuoteCalculatorPage.HandleBackToCalculator` | src/pages/QuoteCalculatorPage.tsx:24-28 | the step becomes calculator and both slots are cleared |
| `QuoteCalculatorPage.QuoteCalculatorPage.HandleBackToForm` | src/pages/QuoteCalculatorPage.tsx:30-33 | the step becomes form, the quotation is cleared and the calculation is kept |
| `QuoteCalculatorPage.QuoteCalculatorPage.Render` | src/pages/QuoteCalculatorPage.tsx:35-58 | the calculator shows at the calculator step, the form only with a calculation, the view only with a quotation, and nothing otherwise |
| `QuoteCalculatorPage.GenerateSubmitAndReturn` | src/pages/QuoteCalculatorPage.tsx:10-28 | generate, then submit, then back to the calculator returns the page exactly to its initial state |

Every handler of the page establishes `Valid()`, which says that the quotation
step always holds a quotation. The handlers do this from any state.

## Left out

- Rendering is left out: the JSX views, the selector cards, the cost-breakdown
  panel, the progress badges and the "+N%" multiplier labels. They only display
  values.
- PDF export and printing are left out (html2pdf and `window.print`), as is the
  static text of the quotation and contract documents, including the 50% deposit
  lines. They are a foreign library, the DOM and presentation.
- The POST to the spreadsheet endpoint and the invoice e-mail function are left
  out. They are network calls to third-party services and do not affect the
  quotation passed to `onSubmit`.
- `new Date()`, `Math.random()`, the 14-day validity date and locale date
  formatting are inputs, not modelled behaviour. `HandleSubmit` takes the year,
  month index, day, the random draw and both formatted date strings as
  parameters.
- IEEE-754 doubles and `Math.round` at display time are left out. The model uses
  exact reals, so its breakdown and total are unrounded, as the source's are
  before display.
- React state and re-rendering are left out. The five selections are a plain
  value passed to the engine. The form and the page are classes whose methods
  overwrite fields.
- The descriptive text of website types is left out (purpose, included
  features, client fit, tech options). It is only displayed.
- The optional `?` fields of the calculation record are left out as optional.
  The engine always fills them, so the model's record has them as plain fields.
  The client record's optional fields are plain strings, because the form
  always starts them as "".
- `JsStrings.DecimalString` covers only non-negative integers. Every number the
  quote number formats is one (year, month, day, draw).
- Determinism of the engine has no lemma. Every Dafny function is deterministic
  by construction.
