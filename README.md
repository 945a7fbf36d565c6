# lex_quotation — a verified model of the quotation core

lex_quotation is a React single-page application that prepares price quotations
for intellectual-property services (patent, trademark, design, copyright and an
"All IP" bundle). A user picks subservices from a catalog, types a professional
fee and a reimbursement for each, enters client details, and downloads a Word
document per service category with the line items, a subtotal, GST at 18% and
TDS at 10% on the professional fees, and a grand total.

This project models the parts of that application that decide what the
quotation contains, and proves properties of them in Dafny:

- `values.dfy` (`Values`): the loosely typed JavaScript values the components
  read (`undefined`, `null`, numbers, strings, arrays, objects), the coercions
  `Number(text)`, `Number(v) || 0` and `v ?? d`, ASCII lower-casing, and the
  decimal text of a timestamp with its last-k-characters slice.
- `data_model.dfy` (`DataModel`): catalog services and subservices (with
  the object identity that `===` compares), the confirmation a service card
  hands over, the application's registry entries, the three-step flow's entries, the client record, the template descriptors
  of `templateData.js`, and two catalog services of `services.js` as fixtures.
- `total_calculation.dfy` (`TotalCalculation`): the fee aggregation of
  `TotalCalculation.js`, which the application's running totals and document
  generation repeat.
- `service_card.dfy` (`ServiceCard`): a service card as a class over two
  parallel arrays (`fees`, `editState`), with the per-row idle → editing →
  confirmed state machine, and a run-level invariant over any sequence of user
  actions on a row.
- `app.dfy` (`App`): the application shell of `App.js` — the selection
  registry (append-if-absent, remove-by-index), the category buttons, document
  generation up to the template binding, the fee-update handler on the entries
  seen as JavaScript objects, and the application state as a class.
- `service_selection.dfy` (`ServiceSelection`): the rows of the detail table
  of `ServiceSelection.js` — selection lookup, fee fallbacks, row total — and
  what the select button and the fee inputs ask of the flow.
- `quotation_flow.dfy` (`QuotationFlow`): the three-step flow of
  `QuotationFlow.js` — append/remove-every-match selection, fee edits by row
  index, and back/continue navigation — as pure functions and as a class
  whose methods are proved against them.

Money is modelled with Dafny's exact `real`. The fetch of the template, the
rendering of the document, the clock and the formatted date are inputs of the
generation function rather than effects.

## Model

| member | source | states |
|---|---|---|
| Values.Decimal | src/App.js:118 | the decimal text of a whole number is all digits, starts with a non-zero digit when the number has two or more digits, and denotes that number |
| Values.LastChars | src/App.js:118 | for k ≥ 1, `slice(-k)` keeps the last k characters, or the whole text when it is shorter |
| Values.LastCharsValue | src/App.js:118 | the last k digits of a digit string denote its value modulo 10^k |
| Values.ParseNumber | src/components/ServiceCard.js:27 | `Number` of an input's text: the empty text is 0; a number without a leading minus is not negative |
| Values.NumberOrZero | src/components/ServiceSelection.js:74 | the number-or-zero reading keeps a number and reads undefined, null and the empty text as 0 |
| Values.Nullish | src/components/ServiceSelection.js:70 | `v ?? d` is v unless v is null or undefined, and then d |
| Values.ParseDecimal | src/components/ServiceSelection.js:74 | the decimal text of a whole number reads back as that number |
| Values.ToLower | src/App.js:93 | lower-casing keeps the length and lowers every ASCII capital |
| Values.ToLowerIdempotent | src/App.js:93 | a lower-cased category key lower-cases to itself |
| TotalCalculation.Aggregate | src/components/TotalCalculation.js:6-14 | subtotal and professional sum are the left folds; GST is 18% and TDS 10% of the professional sum; grand total = subtotal + GST − TDS, which is subtotal + 8% of the professional sum |
| TotalCalculation.Calculate | src/components/TotalCalculation.js:4-14 | no output exactly for an empty selection; otherwise exactly the aggregated totals of Aggregate |
| TotalCalculation.SumsAppend | src/components/TotalCalculation.js:6-10 | every fee sum splits over a concatenation of selections |
| TotalCalculation.AggregateAppend | src/components/TotalCalculation.js:6-14 | subtotal, GST, TDS and grand total are additive over a concatenation |
| TotalCalculation.SumsPermutation | src/components/TotalCalculation.js:6-10 | the subtotal and professional sum do not depend on the order of the entries |
| TotalCalculation.AggregatePermutation | src/components/TotalCalculation.js:6-14 | reordering the selection changes none of the totals |
| TotalCalculation.ProfessionalFeesNonNegative | src/components/TotalCalculation.js:8 | non-negative professional fees sum to a non-negative amount |
| TotalCalculation.GrandTotalCoversSubtotal | src/components/TotalCalculation.js:12-14 | with non-negative professional fees the grand total is at least the subtotal |
| TotalCalculation.TaxesOnlyOnProfessionalFees | src/components/TotalCalculation.js:12-14 | GST, TDS and grand total minus subtotal depend on the professional fees alone |
| TotalCalculation.SubtotalOfConsistentEntries | src/App.js:63-70 | when each entry's total is the sum of its fees, the subtotal is official + professional + misc sums |
| TotalCalculation.WorkedExample | src/components/TotalCalculation.js:6-14 | two rows with totals 2100 and 8600 and professional fees 500 and 2000 give subtotal 10700, GST 450, TDS 250, grand total 10900 |
| ServiceCard.Confirm | src/components/ServiceCard.js:63-70 | the confirmation carries the official fee, the two fees, the reimbursement again as misc fee, and their sum as total |
| ServiceCard.Toggle | src/components/ServiceCard.js:51-76 | idle and confirmed rows go to editing; an editing row with valid fees is confirmed and emits a confirmation; invalid fees keep it editing with the error message |
| ServiceCard.RunInvariant | src/components/ServiceCard.js:25-76 | after any actions from the initial row: idle iff never clicked, confirmed rows hold valid fees, every emitted confirmation is consistent with a positive professional fee and a non-negative misc fee |
| ServiceCard.Card.constructor | src/components/ServiceCard.js:11-23 | one fee slot and one edit slot per subservice, all zero fees, idle, no error |
| ServiceCard.Card.GetTotal | src/components/ServiceCard.js:33-39 | the row total is official + professional + reimbursement, a missing row counting only the official fee |
| ServiceCard.Card.IsSubserviceSelected | src/components/ServiceCard.js:42-49 | a row is selected iff a selection list is given and holds the (service id, subservice name) pair |
| ServiceCard.Card.Writable | src/components/ServiceCard.js:167 | fee inputs are enabled iff the row is editing |
| ServiceCard.Card.FeeChange | src/components/ServiceCard.js:25-31 | the typed field of that row becomes the numeric reading of the text, its error is cleared, nothing else changes |
| ServiceCard.Card.ChecklistToggle | src/components/ServiceCard.js:51-76 | that row's edit state moves as Toggle says, the fees are unchanged, and an emitted confirmation's total equals the row total shown |
| App.NewEntry | src/App.js:63-70 | the stored entry has the pair of the confirmation; its total, official, professional and misc fee are the confirmation's values where present and 0 where missing; it is consistent when the confirmation is |
| App.Select | src/App.js:57-72 | the pair is selected afterwards, nothing selected before is lost, the list grows by one iff the pair was absent, and distinct pairs stay distinct |
| App.RepeatedConfirmationIgnored | src/App.js:57-72 | confirming a row again with other fees keeps the first entry and its fees |
| App.DropPosition | src/App.js:75 | filtering out one position of a list that starts at an offset removes exactly that position |
| App.RemoveAt | src/App.js:74-76 | removing an in-range index drops that entry and shifts later ones down by one; an out-of-range index changes nothing |
| App.RemoveAtKeepsKeysDistinct | src/App.js:74-76 | removal keeps the pairs distinct |
| App.RemoveMiddleOfThree | src/App.js:75 | removing position 1 of three entries leaves the first and the third |
| App.FilterCategory | src/App.js:92-94 | the filter is never longer than the selection, and is empty iff no entry's lower-cased service id is the key |
| App.FilterCategoryMembers | src/App.js:92-94 | the kept entries are exactly those whose lower-cased service id is the key |
| App.FilterCategoryAppend | src/App.js:92-94 | the filter distributes over concatenation, so it keeps the entries' order |
| App.FilterCategorySingleCategory | src/App.js:92-94 | a selection of one category filters to itself |
| App.DistinctCategories | src/App.js:197 | the set of categories: no repeats, and exactly the categories of the selection |
| App.KeepTemplated | src/App.js:198 | keeps exactly the keys that have a template, without introducing repeats |
| App.CategoryButtons | src/App.js:197-207 | one button per category that occurs in the selection and has a template, none twice |
| App.ButtonCategoriesAreNonEmpty | src/App.js:197-207 | every button's category has a selected entry |
| App.IpServiceGetsNoButton | src/App.js:197-198 | the catalog's "ip" service has no template key, so its entries never get a button |
| App.LineItems | src/App.js:124-131 | one line per filtered entry in order, numbered from 1, with its name, official fee, professional fee, misc fee and total |
| App.LineTotalsAddUpToSubtotal | src/App.js:102-131 | the line totals in the document add up to its subtotal |
| App.QuotationNumberShape | src/App.js:118 | the number is LXR- then digits denoting the timestamp modulo 10^6, ten characters once the timestamp has six digits |
| App.AlertText | src/App.js:84-147 | an alert is raised exactly when no document is saved |
| App.Generate | src/App.js:83-148 | asks for the client iff there is none; refuses an empty category with its label; fails iff the fetch does not succeed or the renderer raises, with the not-found text, the rejection's own message or the renderer's message; otherwise saves Quotation-label-number.docx bound to the client, the LXR quotation number of the timestamp, the date, the line items, the totals of the category and its terms |
| App.StopsBeforeFetch | src/App.js:84-99 | without client data or with an empty category the outcome does not depend on the fetch or the renderer |
| App.ButtonNeverReportsNothingSelected | src/App.js:96-99 | a category offered as a button is never refused as empty |
| App.EntryObject | src/App.js:63-70 | an entry, as an object, has no top-level id and no subservices property |
| App.EntryObjects | src/App.js:63-70 | the object view of a registry, entry by entry |
| App.ArraySet | src/App.js:46-50 | assigning into a copied array sets that slot, keeps the others and pads a gap with undefined |
| App.UpdateService | src/App.js:44-54 | an element with another id is kept; a matching one throws iff its subservices is not an array; otherwise it keeps every other property, its array keeps every other slot (a gap reads undefined), and the indexed slot keeps every property but the field, which is set |
| App.FeeUpdate | src/App.js:43-55 | throws iff some element with the id has no subservices array; otherwise keeps the length and maps each element as UpdateService does: another id kept, the id's elements get the field set; nothing changes when no element has the id |
| App.FeeUpdateLeavesRegistryUnchanged | src/App.js:43-55 | on the entries the registry holds, the fee update returns them unchanged |
| App.AppState.constructor | src/App.js:19-22 | empty registry, no client data, services step; the registry invariant holds |
| App.AppState.RunningTotals | src/App.js:24-30 | the running total and professional sum are those of the summary's aggregation |
| App.AppState.SelectSubservice | src/App.js:57-72 | given a consistent confirmation, the registry becomes Select of the old one, its pairs stay distinct and every entry's total stays the sum of its fees |
| App.AppState.RemoveService | src/App.js:74-76 | the registry becomes RemoveAt of the old one, its pairs stay distinct and every entry stays consistent |
| App.AppState.ClientSubmit | src/App.js:78-81 | stores the client data and moves to the summary step |
| App.AppState.NewQuotation | src/App.js:218-222 | empties the registry, drops the client data and returns to the services step |
| App.AppState.GenerateDocument | src/App.js:83-88 | the outcome is Generate's on the current state; without client data the step moves to client, otherwise it stays |
| ServiceSelection.FirstSelected | src/components/ServiceSelection.js:61-65 | the position of the first entry for the row's pair, or -1 when there is none |
| ServiceSelection.ShownReimbursement | src/components/ServiceSelection.js:72 | the misc fee when defined, else the reimbursement fee, else empty |
| ServiceSelection.DeriveRow | src/components/ServiceSelection.js:60-76 | selected iff some entry has the pair; the first one supplies the fees; an unselected row shows empty inputs; total = official + numeric readings of both inputs |
| ServiceSelection.RowTotalOfTypedFees | src/components/ServiceSelection.js:74 | whole-number fee texts give total official + professional + reimbursement |
| ServiceSelection.ToggleRequest | src/components/ServiceSelection.js:78-84 | the button asks for removal iff the row is selected |
| ServiceSelection.FeeChangeForward | src/components/ServiceSelection.js:86-95 | with a handler the edit is forwarded with service id and row index; reimbursementFee is renamed miscFee and never forwarded; other names pass unchanged |
| QuotationFlow.MatchCount | src/components/QuotationFlow.js:14-16 | the number of entries for a pair is 0 iff no entry has it |
| QuotationFlow.RemoveMatching | src/components/QuotationFlow.js:14-16 | never lengthens the list, and leaves it unchanged when no entry is for the pair |
| QuotationFlow.RemoveMatchingMembers | src/components/QuotationFlow.js:14-16 | keeps exactly the entries not for the pair |
| QuotationFlow.RemoveMatchingAppend | src/components/QuotationFlow.js:14-16 | removal distributes over concatenation, so kept entries stay in order |
| QuotationFlow.RemoveMatchingCount | src/components/QuotationFlow.js:14-16 | no entry for the pair remains, and the list shrinks by their number |
| QuotationFlow.RemoveKeepsOtherPairs | src/components/QuotationFlow.js:14-16 | every other pair keeps its count |
| QuotationFlow.Selection | src/components/QuotationFlow.js:12-20 | addition keeps the list as a prefix and appends exactly the entry of the service and that subservice object with no fee properties, so the pair's count grows by one; removal leaves no entry for the pair and shrinks the list by their number |
| QuotationFlow.DuplicatesPossible | src/components/QuotationFlow.js:17-18 | selecting a row twice leaves two entries for it |
| QuotationFlow.RemoveUndoesAdd | src/components/QuotationFlow.js:12-20 | deselecting right after selecting gives what deselecting alone gives |
| QuotationFlow.FirstMatch | src/components/QuotationFlow.js:25-27 | `findIndex`: the first position with the service id and the very same subservice object (same ident), or -1 |
| QuotationFlow.SetField | src/components/QuotationFlow.js:29-32 | the entry with the field set, its service, subservice and other fields unchanged |
| QuotationFlow.FlowFeeUpdate | src/components/QuotationFlow.js:22-35 | throws iff the index is outside the list and some entry has the service id; an outside index otherwise returns the list unchanged; an inside index keeps the length and every entry but the first target, which gets the field set |
| QuotationFlow.FeeUpdateKeepsSelection | src/components/QuotationFlow.js:22-35 | a fee edit that does not throw changes no pair's count |
| QuotationFlow.FeeUpdateLandsAtOrBefore | src/components/QuotationFlow.js:25-33 | when the entry at the index is for the service, the edit lands at or before it and is visible there |
| QuotationFlow.RowIndexReadsListPosition | src/components/QuotationFlow.js:26 | the catalog row index reads the list position: editing Patent row 0 behind the All-IP row-0 entry, a record with the same name and fee but another object, changes nothing |
| QuotationFlow.OutOfRangeIndexThrowsOnlyForListedService | src/components/QuotationFlow.js:25-27 | an index past the end leaves the empty list and a list without the service's entry unchanged, and throws once the service has an entry |
| QuotationFlow.StepBack | src/components/QuotationFlow.js:43-49 | summary goes to client, client and services go to services |
| QuotationFlow.StepContinue | src/components/QuotationFlow.js:51-55 | services goes to client, every other step stays |
| QuotationFlow.NavigationNeverReachesSummary | src/components/QuotationFlow.js:38-55 | back and continue never reach the summary from another step |
| QuotationFlow.ContinueThenBack | src/components/QuotationFlow.js:43-55 | continue then back returns to services; back then continue returns to client |
| QuotationFlow.ToggleFlipsSelection | src/components/ServiceSelection.js:78-84 | pressing a row's select button flips whether the row shows as selected |
| QuotationFlow.FreshRowShowsOfficialFee | src/components/QuotationFlow.js:17-18 | a newly selected row shows empty fee inputs and its official fee as total |
| QuotationFlow.TypedReimbursementShown | src/components/ServiceSelection.js:86-95 | a typed reimbursement is stored as miscFee and shown back in the row, when the row's first entry sits at its row index and entries holding one object hold one content |
| QuotationFlow.Flow.constructor | src/components/QuotationFlow.js:8-10 | services step, empty list, no client data |
| QuotationFlow.Flow.UpdateSelection | src/components/QuotationFlow.js:12-20 | the list becomes Selection of the old one |
| QuotationFlow.Flow.FeeUpdate | src/components/QuotationFlow.js:22-36 | the search reads the indexed entry only at an entry with the service id; reports a throw iff the index is outside the list and some entry has the id, leaving the list unchanged; otherwise the list becomes FlowFeeUpdate of the old one |
| QuotationFlow.Flow.ClientSubmit | src/components/QuotationFlow.js:38-41 | stores the client data and moves to the summary step |
| QuotationFlow.Flow.Back | src/components/QuotationFlow.js:43-49 | the step becomes StepBack of the old one |
| QuotationFlow.Flow.Continue | src/components/QuotationFlow.js:51-55 | the step becomes StepContinue of the old one |

## Left out

- Template fetch, `PizZip`/`Docxtemplater` rendering and `saveAs`: the fetch result and the renderer's error are inputs of `App.Generate`; the saved blob is not modelled, only its file name and the data bound into the template.
- `Date.now()` and `toLocaleDateString('en-IN', …)`: the timestamp and the formatted date are parameters.
- `toLocaleString('en-IN')` formatting of amounts in the document and the tables: amounts stay numbers.
- Floating-point rounding: money is exact `real`, so 0.18 and 0.10 are exact rates.
- NaN propagation and string concatenation in `+` when an entry's fields hold text or are missing (for example a three-step-flow entry, which has no `total`, fed to the totals): the totals are modelled over registry entries with numeric fields only.
- Values.ParseNumber: exponents, hexadecimal, surrounding whitespace and `Infinity` are read as NaN rather than as numbers.
- Values.ToLower: only ASCII capitals are lowered; the catalog ids are ASCII.
- Object identity: a subservice's identity is its `ident` field, and the catalog fixtures give every record its own; nothing in the model ties one ident to one record content by construction.
- QuotationFlow.TypedReimbursementShown: requires that entries with the same ident hold equal records, as entries holding one catalog object do.
- Values.LastChars: requires k >= 1, since `slice(-0)` returns the whole text; the only use takes the last six characters.
- App.AppState.SelectSubservice: requires a consistent confirmation; its only caller, a service card's confirm action (ServiceCard.js:63-70), hands over one (ServiceCard.Confirm).
- React's batching and stale closures: each handler is modelled as taking effect on the current state at once.
- App.UpdateService: spreading a `subservices` that is a string (which would spread its characters) is treated like any other non-array, as a throw.
- QuotationFlow.FlowFeeUpdate: requires the field name not to be `service` or `subservice`; the only callers pass `professionalFee` and `miscFee`.
- ServiceCard.Card.FeeChange: requires an index inside the card; the rendered inputs only pass their own row index.
- ServiceCard.Card.IsSubserviceSelected: the selection list is reduced to its (service id, subservice name) pairs.
- The landing page, the client form's own validation, the summary table, the footer and all styling and animation.
- The unimported `services` reference that `QuotationFlow.js` passes to the selection table, and the asynchronous interleaving of a pending fetch with user edits.
- `App.js` does not pass the selection list to its service cards, so in the application every card row reads as unselected; the card function takes the list as an optional input instead.
