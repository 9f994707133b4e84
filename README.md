# DocZipp document engine in Dafny

This project models the core of DocZipp, a web app that builds business
documents: invoices, quotes, estimates, receipts, proforma invoices and more.
The model covers these parts:

- **Totals engine** (`InvoiceMath`). It computes the amount of one line item
  after its discount, clamped at 0. It folds a list of items into the subtotal,
  discount total, tax total and clamped total. It also covers document numbers
  (`INV-2026-001`), the currency symbol and decimals choice, and the empty
  document the editor starts from.
- **Document editor** (`InvoiceEditor`). A class holds the editor's document:
  its rows, its four stored totals and its other fields. Methods cover the
  handlers that patch the document, patch a row, append a row, remove rows and
  change the document type. The key predicate is "stored totals are the totals
  of the rows", and the contracts say which handler keeps it and which breaks it.
- **Custom fields** (`CustomFieldList`): append, patch by id and remove by id.
- **Description expansion fallback** (`ExpandDescription`). It picks a suffix by
  keyword priority, and the model proves it idempotent.
- **Suggestion fallback** (`SuggestLineItems`): three fixed suggestions chosen by
  keyword priority.
- **Templates** (`Templates`): the six templates and `getTemplate` with its
  fallback to the first one.
- **AI assistant glue** (`AIAssistant`): the blank-input guard, and the row a
  picked suggestion becomes.
- **PDF download name** (`PdfFileName`): `type-number-client.pdf` with the
  client name sanitised.
- **Logo upload** (`LogoUploader`): the type check and then the size check, and
  what the logo becomes on upload and on removal.
- **Shared data** (`InvoiceTypes`, `Constants`): the records and the constant
  tables.
- **String helpers** (`JsStrings`): the JavaScript string functions the
  modules rely on.

Money is modelled as exact `real` numbers. The clock and the random ids are
parameters.

Two behaviours of the code are worth stating up front:

- **Unset discount type.** A `discountType` other than `'percentage'`, an
  absent one included, is read as a flat discount
  (`src/lib/utils/invoice.ts:41`, `:67`), and so it is in `LineItemAmount`.
- **Negative discount total.** A percentage discount on a negative quantity
  times rate adds a negative amount to `discountTotal`. The discount total is
  therefore non-negative only for non-negative quantities and rates, which is
  the condition `TotalsNonNegativeForNonNegativeInput` states.

## Model

| member | source | states |
|---|---|---|
| InvoiceTypes.DocumentTypesAreEight | src/lib/types/invoice.ts:3 | There are exactly eight document types, pairwise distinct, and their string codes tell them apart |
| InvoiceTypes.TypeCode | src/lib/types/invoice.ts:3 | Each type's string code has at least five characters, all lower-case letters or `-` |
| JsStrings.Trim | src/app/api/ai/expand-description/route.ts:68 | `trim()` returns an infix of the input with only whitespace before and after it, so it removes the leading and trailing whitespace and nothing else; it never lengthens a string, and a non-empty result starts and ends with a non-whitespace character |
| JsStrings.IsBlank | src/components/invoice/AIAssistant.tsx:22 | `!s.trim()` holds exactly when every character of the string is whitespace (the empty string included) |
| JsStrings.StartsWith | src/components/invoice/LogoUploader.tsx:17 | `startsWith(p)` holds exactly when `p` is no longer than the string and each of its characters sits at the same index of the string |
| JsStrings.SpacePieces | src/app/api/ai/expand-description/route.ts:75 | `split(' ').length` is at least 1, and it is 1 exactly when the string holds no space |
| JsStrings.CountCharZero | src/app/api/ai/expand-description/route.ts:75 | A character's count is 0 exactly when it occurs at no index |
| JsStrings.TrimShape | src/app/api/ai/expand-description/route.ts:68 | A trimmed string starts and ends with non-whitespace; it is empty exactly when every character of the input is whitespace |
| JsStrings.TrimIdempotent | src/app/api/ai/expand-description/route.ts:68 | Trimming twice is trimming once |
| JsStrings.ToLower | src/app/api/ai/expand-description/route.ts:80 | Lower-casing keeps the length and lower-cases each ASCII letter in place |
| JsStrings.Contains | src/app/api/ai/expand-description/route.ts:82 | `includes` holds exactly when the substring occurs at some position |
| JsStrings.CountCharConcat | src/app/api/ai/expand-description/route.ts:75 | Counting a character over a concatenation adds the counts of the parts |
| Constants.FindCurrency | src/lib/utils/invoice.ts:92 | `CURRENCIES.find` returns a table entry with the code, or nothing exactly when no entry has the code |
| Constants.FindCurrencyAt | src/lib/utils/invoice.ts:92 | The lookup returns the first entry with the code |
| Constants.CurrencyTable | src/lib/constants/index.ts:11-22 | Ten currencies with distinct codes; the first is USD with symbol `$` |
| Constants.FindEachCurrency | src/lib/constants/index.ts:11-22 | Looking up any table entry's code finds that very entry |
| Constants.YenAndYuanShareSymbol | src/lib/constants/index.ts:17-19 | JPY and CNY are both shown as `¥`, so the symbol does not identify the currency |
| Constants.DollarsShareSymbol | src/lib/constants/index.ts:12-21 | USD and MXN are both shown as `$` |
| Constants.PickerOffersFiveTypes | src/lib/constants/index.ts:3-9 | The type picker offers five types; purchase order, credit note and timesheet are not among them |
| Constants.DefaultsAreListed | src/lib/constants/index.ts:54-60 | The default currency, template and font all occur in their tables |
| Constants.DueDatePresetDays | src/lib/constants/index.ts:45-52 | Every due-date preset has non-negative days except `custom`, which alone has none |
| InvoiceMath.Max0 | src/lib/utils/invoice.ts:48 | `Math.max(0, x)` is at least 0 and at least x, and is one of them |
| InvoiceMath.LineItemAmount | src/lib/utils/invoice.ts:36-49 | An item's amount is never negative |
| InvoiceMath.Contribution | src/lib/utils/invoice.ts:62-77 | What one item adds to each accumulator: its tax and its amount are never negative; no applied discount adds 0; a flat (or untyped) discount adds exactly its own value, which is positive; no tax adds 0 |
| InvoiceMath.PercentageDiscountAmount | src/lib/utils/invoice.ts:37-48 | A positive percentage discount gives max(0, q·r·(1 − d/100)), and 0 when q·r ≥ 0 and d ≥ 100 |
| InvoiceMath.FlatDiscountAmount | src/lib/utils/invoice.ts:40-48 | Any other positive discount, with the type flat or unset, gives max(0, q·r − d), and 0 when d ≥ q·r |
| InvoiceMath.UndiscountedAmount | src/lib/utils/invoice.ts:37-48 | A missing or non-positive discount gives max(0, q·r), which is q·r when that is not negative |
| InvoiceMath.TotalsOf | src/lib/utils/invoice.ts:61-88 | The total is `Math.max(0, subtotal - discountTotal + taxTotal)`: never negative, at least the unclamped sum, and equal to it or 0; an empty list has all four totals 0 |
| InvoiceMath.CalculateTotals | src/lib/utils/invoice.ts:51-89 | The loop over the items returns the totals of the specification `TotalsOf`: column sums of base, discount and tax, and the clamped total |
| InvoiceMath.AddItem | src/lib/utils/invoice.ts:61-78 | One pass of the per-item callback adds the item's base to the subtotal, its discount (percentage of base, or flat, only when positive) to the discount total and its tax on the discounted amount (only when the rate is positive) to the tax total |
| InvoiceMath.ColumnStep | src/lib/utils/invoice.ts:61-79 | The column sum over the first i + 1 items is the sum over the first i plus item i's contribution, so the loop's running sums track the prefixes |
| InvoiceMath.EmptyTotals | src/lib/utils/invoice.ts:57-88 | An empty list has all four totals 0 |
| InvoiceMath.ColumnSumConcat | src/lib/utils/invoice.ts:61-79 | Each column sum over a concatenation is the sum over the parts |
| InvoiceMath.ColumnSumAppend | src/lib/utils/invoice.ts:64-75 | Adding one more row adds that row's own contribution to each running sum |
| InvoiceMath.ColumnSumRemoveAt | src/lib/utils/invoice.ts:64-75 | Taking any one row out of the list takes exactly its contribution out of each sum |
| InvoiceMath.ColumnSumPermutation | src/lib/utils/invoice.ts:61-79 | Each column sum depends only on the multiset of items, not their order |
| InvoiceMath.TotalsPermutationInvariant | src/lib/utils/invoice.ts:51-89 | Reordering the items leaves all four totals unchanged |
| InvoiceMath.ContributionIgnoresAmount | src/lib/utils/invoice.ts:62-77 | What an item adds to any column does not depend on its stored amount |
| InvoiceMath.ColumnSumIgnoresAmount | src/lib/utils/invoice.ts:61-79 | Column sums of two lists that differ only in stored amounts are equal |
| InvoiceMath.TotalsIgnoreStoredAmount | src/lib/utils/invoice.ts:51-89 | The totals never read the stored `amount` of an item |
| InvoiceMath.TaxTotalNonNegative | src/lib/utils/invoice.ts:75-78 | Tax, charged on the clamped post-discount amount, sums to at least 0, and so do the item amounts |
| InvoiceMath.TotalsNonNegative | src/lib/utils/invoice.ts:75-87 | The tax total and the total are never negative |
| InvoiceMath.TotalsNonNegativeForNonNegativeInput | src/lib/utils/invoice.ts:62-72 | With non-negative quantities and rates, the subtotal and discount total are non-negative too |
| InvoiceMath.ItemAmountVersusDiscount | src/lib/utils/invoice.ts:36-72 | An item's amount is at least its base minus the discount it adds to the discount total, and equal when that is not negative |
| InvoiceMath.AmountsVersusNetSubtotal | src/lib/utils/invoice.ts:69-81 | The amounts sum to at least subtotal − discountTotal, and equal it when no item's discount exceeds its base |
| InvoiceMath.FlatDiscountCountedVerbatim | src/lib/utils/invoice.ts:44-70 | A flat 150 off a base of 100 gives amount 0, but it adds 150 to the discount total: totals 100/0/150/0 |
| InvoiceMath.TaxAfterDiscountExamples | src/lib/utils/invoice.ts:75-77 | 10% tax after a 10% discount on 100 is 9; 2 × 500 with 10% off and 5% tax gives amount 900 and totals 1000/45/100/945 |
| InvoiceMath.Prefix | src/lib/utils/invoice.ts:12-21 | Each type's number prefix has two or three upper-case letters |
| InvoiceMath.PrefixesDistinct | src/lib/utils/invoice.ts:12-22 | Each of the eight types has its own prefix, of at least two letters and free of `-`, and the prefix gives back the type |
| InvoiceMath.DecimalString | src/lib/utils/invoice.ts:23 | `toString()` of a natural number is a non-empty string of digits |
| InvoiceMath.DecimalRoundTrip | src/lib/utils/invoice.ts:23 | Reading back the decimal string of n gives n |
| InvoiceMath.PadStart | src/lib/utils/invoice.ts:23 | `padStart` never truncates: the result has length max(len, width), ends with the input and is padded with the fill character |
| InvoiceMath.LeadingZeros | src/lib/utils/invoice.ts:23 | Leading zeros do not change the value read back |
| InvoiceMath.PaddedSequence | src/lib/utils/invoice.ts:23 | The zero-padded sequence part is non-empty, all digits, and reads back as the sequence number |
| InvoiceMath.SplitNumber | src/lib/utils/invoice.ts:23 | When prefix and year hold no dash, splitting at the first two dashes gives back prefix, year and sequence part |
| InvoiceMath.DigitsHaveNoDash | src/lib/utils/invoice.ts:23 | A year written in digits holds no dash, so it cannot be confused with a separator |
| InvoiceMath.SplitAtFirst | src/lib/utils/invoice.ts:23 | Splitting at the first `-` recovers the parts when the first part holds none |
| InvoiceMath.InvoiceNumber | src/lib/utils/invoice.ts:10-23 | `generateInvoiceNumber`: the number starts with the type's prefix and a dash, has room for a year digit, a second dash and three digits, and ends in three digits |
| InvoiceMath.JoinedParts | src/lib/utils/invoice.ts:23 | Joining the parts keeps the prefix in front and the padded digits at the end |
| InvoiceMath.InvoiceNumberRoundTrip | src/lib/utils/invoice.ts:10-23 | A document number decodes back to its type, year and sequence |
| InvoiceMath.InvoiceNumberInjective | src/lib/utils/invoice.ts:10-23 | Different type, year or sequence never give the same number |
| InvoiceMath.DecimalLength | src/lib/utils/invoice.ts:23 | A sequence of 100 or more has at least three digits |
| InvoiceMath.SequencePadding | src/lib/utils/invoice.ts:10-23 | The default sequence 1 gives `-001`; a sequence of 100 or more is written unpadded |
| InvoiceMath.CurrencyFormat | src/lib/utils/invoice.ts:91-96 | Decimals are 0 exactly for `JPY` and 2 otherwise |
| InvoiceMath.CurrencySymbolChoice | src/lib/utils/invoice.ts:92 | The symbol is the matching table entry's, or the first entry's `$` for an unknown code |
| InvoiceMath.YuanIsNotYen | src/lib/utils/invoice.ts:92-95 | CNY and JPY show the same symbol but CNY has 2 decimals and JPY 0 |
| InvoiceMath.EmptyLineItem | src/lib/utils/invoice.ts:26-34 | A new row carries the fresh id, its stored amount is its computed amount, and it adds 0 to every column |
| InvoiceMath.AppendEmptyKeepsTotals | src/lib/utils/invoice.ts:26-34 | Appending a new row leaves all four totals unchanged |
| InvoiceMath.EmptyInvoice | src/lib/utils/invoice.ts:114-147 | A new document has the given type; a due date exactly when it is not a receipt; one row of quantity 1 and rate 0; zero totals equal to the totals of its rows; a number that decodes to (type, year, 1); the default settings; no custom fields; and status draft |
| InvoiceEditor.Merge | src/components/invoice/InvoiceBuilder.tsx:44 | `{ ...item, ...updates }`: each key the patch sets takes the patch's value, every other key keeps the row's |
| InvoiceEditor.Recomputed | src/components/invoice/InvoiceBuilder.tsx:44-45 | The patched row differs from the spread only in its amount, which is what the engine computes for it |
| InvoiceEditor.UpdatedItems | src/components/invoice/InvoiceBuilder.tsx:42-49 | Patching rows by id keeps the list length |
| InvoiceEditor.UpdatedItemsShape | src/components/invoice/InvoiceBuilder.tsx:42-49 | Rows without the id stay identical and in place; rows with it get the patch merged and an amount equal to the computed amount of the merged row; an absent id changes nothing |
| InvoiceEditor.UpdatedItemsKeepAmounts | src/components/invoice/InvoiceBuilder.tsx:44-45 | If every stored amount matched its row before a patch, every one matches after it |
| InvoiceEditor.RemovedItems | src/components/invoice/InvoiceBuilder.tsx:65 | The filtered list holds exactly the rows whose id differs, and is no longer than the input |
| InvoiceEditor.RemovedItemsConcat | src/components/invoice/InvoiceBuilder.tsx:65 | Removal works part by part and keeps the relative order |
| InvoiceEditor.RemovedItemsAbsent | src/components/invoice/InvoiceBuilder.tsx:65 | Removing an absent id changes nothing; removing twice is removing once |
| InvoiceEditor.RemovedItemsKeepAmounts | src/components/invoice/InvoiceBuilder.tsx:65 | Removal keeps stored amounts consistent with their rows |
| InvoiceEditor.PatchDetails | src/components/invoice/InvoiceBuilder.tsx:30 | `{ ...prev, ...updates }` on the fields besides rows and totals: each key the patch sets takes the patch's value, every other key keeps the old one |
| InvoiceEditor.EmptyPatchKeepsDetails | src/components/invoice/InvoiceBuilder.tsx:30 | A patch that sets none of the other fields leaves them all as they were |
| InvoiceEditor.ParsedOrZero | src/components/invoice/InvoiceBuilder.tsx:334 | `parseFloat(text), or 0` stores the parsed number, or 0 for text that does not parse |
| InvoiceEditor.EditPatch | src/components/invoice/InvoiceBuilder.tsx:321-378 | Each input sends a patch that sets exactly its own key, never the id or the amount, with numbers as `parseFloat(text) || 0`; the discount input also sets the type to `percentage` |
| InvoiceEditor.FormEdits | src/components/invoice/InvoiceBuilder.tsx:321-378 | A form edit keeps the row's id, and its patch never sets the amount (`UpdateLineItem` then recomputes it); unparseable quantity or rate becomes 0; a discount edit makes the discount a percentage, and an unparseable one leaves no discount |
| InvoiceEditor.InvoiceBuilder.constructor | src/components/invoice/InvoiceBuilder.tsx:25 | The editor starts from the empty invoice, with consistent totals and amounts |
| InvoiceEditor.InvoiceBuilder.UpdateInvoice | src/components/invoice/InvoiceBuilder.tsx:28-38 | The patch is merged; totals are recomputed and consistent when the patch carries rows, and are otherwise the patch's totals or the old ones |
| InvoiceEditor.InvoiceBuilder.UpdateLineItem | src/components/invoice/InvoiceBuilder.tsx:40-54 | The rows become the patched rows, the totals become their totals, consistent amounts stay consistent, and nothing else changes |
| InvoiceEditor.InvoiceBuilder.AddLineItem | src/components/invoice/InvoiceBuilder.tsx:56-61 | One new row is appended, totals are not touched, and consistent totals and amounts stay consistent |
| InvoiceEditor.InvoiceBuilder.RemoveLineItem | src/components/invoice/InvoiceBuilder.tsx:63-69 | The rows lose exactly those with the id, the totals become their totals, and nothing else changes |
| InvoiceEditor.TypeChangedDetails | src/components/invoice/InvoiceBuilder.tsx:71-79 | After a type change, the parties and the notes and terms (which a new document does not set) are the old ones; every other field is the new empty document's |
| InvoiceEditor.InvoiceBuilder.ChangeDocumentType | src/components/invoice/InvoiceBuilder.tsx:71-80 | Everything is reset from the new type's empty document except the parties, notes and terms; rows are kept and totals become 0, so the stored totals are consistent exactly when the kept rows' totals are all 0 |
| InvoiceEditor.TypeChangeBreaksTotals | src/components/invoice/InvoiceBuilder.tsx:71-80 | An illustration: a kept row of 2 × 50 has subtotal 100, so the zero totals left by a type change disagree with the rows |
| CustomFieldList.MergeField | src/components/invoice/CustomFields.tsx:21 | `{ ...f, ...updates }` keeps the id unless the patch sets one, and takes each set label and value |
| CustomFieldList.AddField | src/components/invoice/CustomFields.tsx:16-18 | The fields stay first, followed by one blank field with the fresh id |
| CustomFieldList.UpdateField | src/components/invoice/CustomFields.tsx:20-22 | Length and order are kept; fields with the id get the patch, the others are unchanged |
| CustomFieldList.RemoveField | src/components/invoice/CustomFields.tsx:24-26 | The result holds exactly the fields whose id differs |
| CustomFieldList.UpdateAbsent | src/components/invoice/CustomFields.tsx:21 | Updating an absent id returns the same list |
| CustomFieldList.UpdateIdempotent | src/components/invoice/CustomFields.tsx:20-22 | Applying the same update twice is applying it once |
| CustomFieldList.RemoveConcat | src/components/invoice/CustomFields.tsx:25 | Removal works part by part and keeps the relative order |
| CustomFieldList.RemoveAbsent | src/components/invoice/CustomFields.tsx:25 | Removing an absent id returns the same list |
| CustomFieldList.RemoveIdempotent | src/components/invoice/CustomFields.tsx:25 | After a removal the id is gone, so removing again changes nothing |
| CustomFieldList.RemoveUndoesAdd | src/components/invoice/CustomFields.tsx:16-26 | Removing a just-added field with a fresh id gives back the original list |
| CustomFieldList.RemoveAfterUpdate | src/components/invoice/CustomFields.tsx:20-26 | Removing an id erases any earlier update of those fields that kept their id |
| ExpandDescription.TopicOf | src/app/api/ai/expand-description/route.ts:80-100 | The keyword groups are tried in order: Design exactly when "design" occurs; Development exactly when "design" does not and "develop" or "build" does; Consulting, Management and Support each exactly when no earlier group's keyword occurs and one of their own does; General exactly when no keyword occurs |
| ExpandDescription.SuffixWords | src/app/api/ai/expand-description/route.ts:82-103 | Each topic's suffix has at least five words and its last word ends in a full stop |
| ExpandDescription.Suffix | src/app/api/ai/expand-description/route.ts:82-103 | Each suffix begins with " -", the separator the template puts after the description |
| ExpandDescription.ExpandWithoutAI | src/app/api/ai/expand-description/route.ts:66-104 | Blank input gives the default sentence; trimmed text of six or more pieces is returned as is; shorter text gets the suffix of its topic |
| ExpandDescription.SpacedSpaces | src/app/api/ai/expand-description/route.ts:83-103 | Text of single-spaced words has a space per word |
| ExpandDescription.SpacedEnd | src/app/api/ai/expand-description/route.ts:83-103 | Text of single-spaced words ends with the last character of the last word |
| ExpandDescription.DashedWords | src/app/api/ai/expand-description/route.ts:83-103 | " -" followed by five or more words, the last ending in a full stop, holds five spaces and ends in a full stop |
| ExpandDescription.SuffixShape | src/app/api/ai/expand-description/route.ts:83-103 | Every suffix holds at least five spaces and ends with a full stop |
| ExpandDescription.DefaultFinished | src/app/api/ai/expand-description/route.ts:71-77 | The default sentence is already trimmed and has six or more pieces |
| ExpandDescription.ExpandFinished | src/app/api/ai/expand-description/route.ts:66-104 | Every result is non-empty, is its own trim and has six or more pieces |
| ExpandDescription.BlankExpansionFinished | src/app/api/ai/expand-description/route.ts:68-72 | A blank description yields the fixed default sentence, which is finished |
| ExpandDescription.LongExpansionFinished | src/app/api/ai/expand-description/route.ts:74-77 | A description of six or more pieces is returned trimmed, and a trimmed text stays finished |
| ExpandDescription.ShortExpansionFinished | src/app/api/ai/expand-description/route.ts:79-103 | A shorter description followed by any topic's suffix is finished: it starts with a visible character, ends in a full stop and gains at least five spaces |
| ExpandDescription.DashedFinished | src/app/api/ai/expand-description/route.ts:82-103 | A visible-led text followed by " -" and five or more words ending in a full stop is finished, whatever the words are |
| ExpandDescription.JoinFinished | src/app/api/ai/expand-description/route.ts:66-104 | Appending a text that ends visibly and holds five spaces to a visible-led text gives a finished result |
| ExpandDescription.FinishedIsKept | src/app/api/ai/expand-description/route.ts:68-77 | Such a text is returned unchanged |
| ExpandDescription.ExpandIdempotent | src/app/api/ai/expand-description/route.ts:66-104 | Expanding an expansion changes nothing |
| ExpandDescription.ExpansionKeepsText | src/app/api/ai/expand-description/route.ts:82-103 | The result starts with the trimmed input unless that is blank |
| ExpandDescription.LongerKeywordsAreCovered | src/app/api/ai/expand-description/route.ts:86-95 | "management" and "development" contain "manage" and "develop", so the longer keywords never decide anything |
| ExpandDescription.DesignInAnyCase | src/app/api/ai/expand-description/route.ts:80-83 | "design" in any letter case makes the text a design text |
| SuggestLineItems.KindOf | src/app/api/ai/suggest-line-items/route.ts:77-110 | The keyword groups are tried in order: the web list exactly when "web" or "site" occurs; Branding, Consulting and Photography each exactly when no earlier group's keyword occurs and one of their own does; the default list exactly when no keyword occurs |
| SuggestLineItems.MockSuggestions | src/app/api/ai/suggest-line-items/route.ts:76-117 | Always three suggestions, each with rate > 0 and quantity ≥ 1, from the list of the first matching keyword group |
| SuggestLineItems.SuggestionsFor | src/app/api/ai/suggest-line-items/route.ts:76-117 | Each of the five fixed lists has three suggestions, each with a positive rate and at least one unit |
| SuggestLineItems.ListsDiffer | src/app/api/ai/suggest-line-items/route.ts:79-116 | The five lists differ already in their first rate |
| SuggestLineItems.EmptyQueryIsGeneral | src/app/api/ai/suggest-line-items/route.ts:111-116 | The empty query of the error path gets the default list |
| SuggestLineItems.WebInAnyCase | src/app/api/ai/suggest-line-items/route.ts:77-79 | "web" in any letter case selects the web list |
| Templates.FindTemplate | src/lib/templates/index.ts:106 | `find` returns a table entry with the id, or nothing exactly when no entry has it |
| Templates.GetTemplate | src/lib/templates/index.ts:105-107 | The result is always one of the templates: the one with the id when there is one, else the first |
| Templates.TemplateIdsDistinct | src/lib/templates/index.ts:18-103 | Six templates with distinct ids |
| Templates.GetEachTemplate | src/lib/templates/index.ts:105-107 | Looking up a template's id finds that very template |
| Templates.FallbackIsClean | src/lib/templates/index.ts:19-21 | The fallback is `clean`, the default template of new documents |
| Templates.PickerTemplatesResolve | src/lib/constants/index.ts:24-30 | Each of the five templates offered in the settings resolves to its own entry; `executive` is not offered |
| AIAssistant.ShouldRequest | src/components/invoice/AIAssistant.tsx:22 | A request is sent exactly when the text has a non-whitespace character |
| AIAssistant.SuggestionToLineItem | src/components/invoice/AIAssistant.tsx:41-50 | The row copies description, quantity and rate, takes the fresh id, has no tax or discount, and stores q·r unclamped |
| AIAssistant.SuggestedAmountAgrees | src/components/invoice/AIAssistant.tsx:47 | The stored amount equals the engine's amount exactly when q·r ≥ 0 |
| AIAssistant.BillableRow | src/components/invoice/AIAssistant.tsx:41-48 | A billable suggestion's row has a positive, consistent amount and adds it to the subtotal only |
| AIAssistant.MockSuggestionRows | src/components/invoice/AIAssistant.tsx:41-48 | Every fallback suggestion gives such a row |
| AIAssistant.NegativeQuantityDisagrees | src/components/invoice/AIAssistant.tsx:47 | A suggestion of quantity −1 at rate 10 stores −10, where the engine computes 0 |
| PdfFileName.Sanitize | src/components/invoice/PDFDownloadButton.tsx:38 | Each character outside [A-Za-z0-9] becomes one `-`; the length is kept |
| PdfFileName.TypePart | src/components/invoice/PDFDownloadButton.tsx:36 | The type part is non-empty and safe in a file name, and `invoice` when the document has no type |
| PdfFileName.NumberPart | src/components/invoice/PDFDownloadButton.tsx:37 | A missing or empty number becomes `draft`; any other number is used as it is, never empty |
| PdfFileName.ClientPart | src/components/invoice/PDFDownloadButton.tsx:38 | The client part is the sanitised name, or `client` for a missing or empty name, and is always safe |
| PdfFileName.FileName | src/components/invoice/PDFDownloadButton.tsx:36-39 | The name is `type-number-client.pdf`: the type part, the number part and the client part joined by `-`, always ending in `.pdf` |
| PdfFileName.NamedClientFileName | src/components/invoice/PDFDownloadButton.tsx:36-39 | With a named client the name is `type-number-<sanitised name>.pdf`, six characters longer than its three parts |
| PdfFileName.SanitizeIdempotent | src/components/invoice/PDFDownloadButton.tsx:38 | A sanitised name is safe and sanitising again changes nothing |
| PdfFileName.SanitizeKeepsAlphanumeric | src/components/invoice/PDFDownloadButton.tsx:38 | A name of letters and digits only is kept |
| PdfFileName.PartsAreNonEmpty | src/components/invoice/PDFDownloadButton.tsx:36-38 | No part of the name is empty and the client part is safe |
| PdfFileName.DefaultFileName | src/components/invoice/PDFDownloadButton.tsx:36-39 | With no type, number or client the name is `invoice-draft-client.pdf` |
| PdfFileName.SanitizeExample | src/components/invoice/PDFDownloadButton.tsx:38 | "Acme & Co." becomes `Acme---Co-` |
| LogoUploader.Validate | src/components/invoice/LogoUploader.tsx:16-25 | A file is accepted exactly when its type starts with `image/` and it is at most 2 MiB; a non-image is always rejected as such |
| LogoUploader.Message | src/components/invoice/LogoUploader.tsx:17-25 | An alert text is shown exactly for a rejected file |
| LogoUploader.AfterUpload | src/components/invoice/LogoUploader.tsx:16-32 | Only an accepted file replaces the logo; a rejected one leaves it |
| LogoUploader.AfterRemove | src/components/invoice/LogoUploader.tsx:62-67 | Removal leaves no logo |
| LogoUploader.SizeBoundary | src/components/invoice/LogoUploader.tsx:22-25 | Exactly 2097152 bytes pass; one more byte is too large |
| LogoUploader.TypeCheckedFirst | src/components/invoice/LogoUploader.tsx:17-25 | A large non-image is reported as not an image |
| LogoUploader.UploadThenRemove | src/components/invoice/LogoUploader.tsx:62-67 | Removal after any upload leaves no logo; an upload after removal sets one exactly when accepted |
| LogoUploader.ValidateExamples | src/components/invoice/LogoUploader.tsx:17-25 | A 100 KiB PNG is accepted and a PDF is not an image |

## Left out

- `formatCurrency` digit grouping and rounding (`toLocaleString`) are a locale library. Only the symbol and decimals choice is modelled (`CurrencyFormat`).
- IEEE-754 floating point: money is exact `real`, so rounding differences are not modelled.
- `formatDate`, and the dates and year in `createEmptyInvoice` and `generateInvoiceNumber`, read the clock. A `Clock` value (year, today, today + 30 days) is passed in instead.
- `generateId` uses `Math.random`. Fresh ids are parameters.
- `InvoiceMath.CurrencyFormat`: the default `currencyCode = 'USD'` of `formatCurrency` is not modelled; an absent code would pick "$" and 2 decimals anyway, as any unknown code does.
- `InvoiceMath.InvoiceNumber`: the `sequence: number` parameter is taken as a natural number; the only caller passes the default 1.
- `InvoiceEditor.ParsedOrZero`: `parseFloat` of the input text is abstracted to an optional real (`None` for NaN); the parsing of the text itself is not modelled.
- `InvoiceMath.InvoiceNumber`: the `'DOC'` prefix fallback is unreachable for the eight typed document types, so it is not modelled.
- `JsStrings.ToLower`: only ASCII letters are lower-cased. Unicode case mapping is not modelled.
- `PdfFileName.Sanitize`: JavaScript strings are UTF-16. A character outside the Basic Multilingual Plane is one `char` here but two dashes in JavaScript.
- `InvoiceEditor.InvoiceBuilder.UpdateInvoice`: a patch can set fields but not unset them. A key present with the value `undefined` is not modelled, and neither are a document id, `paidAmount`, `paidDate` or timestamps, which the editor never sets.
- `InvoiceEditor.InvoiceBuilder`: the document always has a row list. The `|| []` fallbacks of the handlers for a document without rows therefore never apply.
- The editor hides the remove button when only one row is left. That is a rendering condition; `RemoveLineItem` models the handler, which has no such guard.
- The custom-field and logo components hand their results to a callback. The model stops at the value handed over. How the editor stores it is not part of these components.
- Reading the logo file (`FileReader`), drag-and-drop state, and creating and clicking the download link are browser I/O. The data URL is a parameter.
- The OpenAI calls and HTTP handling of both AI routes are not modelled; only their fallbacks are. The assistant components' loading state and the requests themselves are left out too; only the guard and the row conversion are modelled.
- `InvoicePDF` and `InvoicePreview` only render totals. Pages, layout, authentication and the Stripe routes have no statable behaviour here.
