# Upholstery shop quotes: a verified model

This project models the logic of a small upholstery-shop web app: "Tapicería Gaby". The app keeps a catalog of materials, builds client quotes from it, and exports a quote as a paginated document. The model covers four pieces:

- **The quote page** (`quote_page.dfy`, module `QuotePage`). This is the draft a user edits: client name, project description, labour cost, and material lines. Adding, updating and removing lines are pure transforms of the draft. Pricing is done against the catalog. A `QuoteEditor` class holds the page state (the draft and whether the summary is shown). Its methods are the page's handlers, including "generate" and "reset".
- **The document export** (`pdf_export.dfy`, module `PdfExport`). `GenerateQuotePdf` models `generateQuotePDF`. It is an imperative routine that moves a cursor down the page and opens a new page before any table row that would start below `height - 50`. It is proved equal to a declarative description, `QuotePdf`. Properties of the layout are proved about that description: rows in item order, pagination, summary position, footer, and file name. `PlaceCapture` models the geometry of the image export.
- **The inventory form** (`inventory_page.dfy`, module `InventoryPage`). `Validate` models the submit checks. The `InventoryForm` class holds the form fields and the id being edited. It also keeps the log of calls the page makes into the inventory store. The class's methods are the submit, edit, cancel and delete handlers. Predicates give the rules for disabling the edit and delete buttons.
- **The home page** (`dashboard.dfy`, module `Dashboard`). It covers the total value of all quotes, the three most recently added materials (newest first), and which cards are shown.

The other modules are shared support:

- `Domain`: the records, `Option`/`Result`, and `parseFloat` results with an explicit NaN.
- `Text`: JavaScript's `trim`, whitespace-run replacement and upper-casing.
- `Seqs`: `slice(-n)` for positive n, `reverse`, and slicing lemmas.

Money, quantities and coordinates are exact reals.

Behaviour of the code that the model makes explicit:

- `pdfExport.ts:139` keeps the id's last 8 characters as they are in the saved file's name, while the quote number (`QuoteNumber`, line 60) upper-cases them.
- `if (isEditing)` in the inventory submit handler tests truthiness. An empty-string id would therefore submit as an *add*, while the button rules (`!== null`) treat it as editing. `EditMode` and the button predicates keep this distinction.
- The inventory form's `<= 0` check lets a NaN parse through (`AtMostZero` is false for NaN). The quote page's labour field maps NaN to 0 (`NumberOrZero`).
- The summary block after the table is never page-broken. It is drawn on the page where the table ended, whatever room is left there (`SummaryLayout`, `SummaryAndFooter`).

## Model

| member | source | states |
|---|---|---|
| Domain.FindMaterial | src/app/quote/page.tsx:81 | `materials.find` on id: None exactly when no entry has the id; otherwise an entry of the catalog with that id |
| Domain.FindMaterialIsFirst | src/app/quote/page.tsx:81 | the result is the first entry with the id, at whatever index it stands |
| Domain.NumberOrZero | src/app/quote/page.tsx:204 | `parseFloat(v) \|\| 0`: a number is kept, NaN becomes 0 |
| Text.Trim | src/app/quote/page.tsx:91 | the trimmed text is an infix of the input with only whitespace cut off on either side, and it neither starts nor ends with whitespace |
| Text.TrimEmptyIffBlank | src/app/inventory/page.tsx:26 | `!s.trim()` holds exactly when every character of `s` is whitespace |
| Text.TrimOfTrimmed | src/app/inventory/page.tsx:41 | text without leading or trailing whitespace is its own trim |
| Text.CollapseWhitespace | src/lib/pdfExport.ts:139 | `replace(/\s+/g, '_')` leaves no whitespace and never lengthens the text |
| Text.CollapseKeepsPlainText | src/lib/pdfExport.ts:139 | text without whitespace is unchanged by the replacement |
| Text.CollapseRun | src/lib/pdfExport.ts:139 | a whitespace run of any length becomes exactly one underscore |
| Text.CollapseAppend | src/lib/pdfExport.ts:139 | the replacement works piecewise when the split does not cut a whitespace run |
| Text.ToUpper | src/lib/pdfExport.ts:60 | `toUpperCase` keeps the length and maps each character by itself |
| Text.ToUpperIdempotent | src/lib/pdfExport.ts:60 | upper-casing twice equals once, and no lower-case ASCII letter remains |
| Seqs.LastN | src/app/page.tsx:111 | `slice(-n)` for n > 0: the last `min(n, len)` elements, as a suffix of the input |
| Seqs.Reverse | src/app/page.tsx:111 | `reverse()`: same length, element i is element `len-1-i` of the input |
| QuotePage.AddMaterialToQuote | src/app/quote/page.tsx:36-54 | only the items change; the length grows by one exactly when the material was absent; the material is then present |
| QuotePage.AddExistingBumpsOnlyItsLine | src/app/quote/page.tsx:36-47 | on a material already present, its line's quantity goes up by 1 and every other line, the length and the order are unchanged |
| QuotePage.AddAbsentAppends | src/app/quote/page.tsx:48-53 | on an absent material, `{id, 1}` is appended at the end, with no catalog check |
| QuotePage.Without | src/app/quote/page.tsx:75 | the filter keeps exactly the lines of other materials, and no line of the removed one |
| QuotePage.RemoveItemFromQuote | src/app/quote/page.tsx:72-77 | only the items change, and the material no longer has a line |
| QuotePage.RemoveAbsentIsNoOp | src/app/quote/page.tsx:72-77 | removing a material that has no line changes nothing |
| QuotePage.RemoveIdempotent | src/app/quote/page.tsx:72-77 | removing twice equals removing once |
| QuotePage.RemoveAt | src/app/quote/page.tsx:72-77 | with one line per material, removing the material at position k leaves the other lines in their order |
| QuotePage.UpdateItemQuantity | src/app/quote/page.tsx:56-70 | only the items change; a positive quantity keeps length and material order; a non-positive one leaves no line for the material |
| QuotePage.UpdateNonPositiveIsRemove | src/app/quote/page.tsx:56-60 | a quantity of zero or less is exactly the removal of the material |
| QuotePage.MinusOnSmallQuantityRemoves | src/app/quote/page.tsx:262 | the minus button on a line of quantity at most 1 removes the line |
| QuotePage.UpdatePositiveReplacesOnlyItsLine | src/app/quote/page.tsx:62-69 | a positive quantity replaces that line's quantity and nothing else |
| QuotePage.UpdateAbsentIsNoOp | src/app/quote/page.tsx:56-69 | updating a material that has no line changes nothing, whatever the quantity |
| QuotePage.AddKeepsWellFormed | src/app/quote/page.tsx:36-54 | adding keeps one line per material and every quantity positive |
| QuotePage.UpdateKeepsWellFormed | src/app/quote/page.tsx:56-70 | updating keeps one line per material and every quantity positive |
| QuotePage.RemoveKeepsWellFormed | src/app/quote/page.tsx:72-77 | removing keeps one line per material and every quantity positive |
| QuotePage.EditsKeepWellFormed | src/app/quote/page.tsx:36-77 | any sequence of adds, updates and removes keeps the draft well formed |
| QuotePage.ReachableDraftsWellFormed | src/app/quote/page.tsx:28-77 | every draft reachable from the initial empty draft has one line per material and positive quantities |
| QuotePage.LineCostCases | src/app/quote/page.tsx:81-82 | a line whose material is listed costs the first listed entry's price times the quantity |
| QuotePage.CalculateMaterialsCost | src/app/quote/page.tsx:79-84 | with non-negative prices and positive quantities the materials cost is non-negative |
| QuotePage.MaterialsCostConcat | src/app/quote/page.tsx:79-84 | the materials cost of two lists of lines put together is the sum of their costs |
| QuotePage.UnresolvedLineCostsNothing | src/app/quote/page.tsx:81-82 | a line whose material is not in the catalog contributes 0 |
| QuotePage.MaterialsCostSplit | src/app/quote/page.tsx:79-84 | the cost is the cost before a line, plus that line's price times quantity, plus the cost after it |
| QuotePage.AddRaisesCostByUnitCost | src/app/quote/page.tsx:79-84 | adding a material raises the materials cost by exactly its unit cost (0 if unknown) |
| QuotePage.RemoveLowersCostByLineCost | src/app/quote/page.tsx:79-84 | removing a line lowers the materials cost by exactly that line's cost |
| QuotePage.CalculateTotalCost | src/app/quote/page.tsx:86-88 | the total less the labour is the materials cost; non-negative when prices, quantities and labour are |
| QuotePage.TotalIsMaterialsPlusLabour | src/app/quote/page.tsx:86-88 | the total is materials plus labour, and moves one for one with the labour cost |
| QuotePage.QuoteEditor.constructor | src/app/quote/page.tsx:28-34 | the page starts with the empty draft and the summary hidden |
| QuotePage.QuoteEditor.AddMaterial | src/app/quote/page.tsx:36-54 | the draft becomes the add transform of the old draft, keeping the invariant |
| QuotePage.QuoteEditor.UpdateQuantity | src/app/quote/page.tsx:56-70 | the draft becomes the update transform of the old draft, keeping the invariant |
| QuotePage.QuoteEditor.RemoveItem | src/app/quote/page.tsx:72-77 | the draft becomes the remove transform of the old draft, keeping the invariant |
| QuotePage.QuoteEditor.SetClientName | src/app/quote/page.tsx:178 | only the client name changes, to the typed text |
| QuotePage.QuoteEditor.SetProjectDescription | src/app/quote/page.tsx:189 | only the description changes, to the typed text |
| QuotePage.QuoteEditor.SetLaborCost | src/app/quote/page.tsx:204 | only the labour cost changes, to the parsed number or 0 for NaN |
| QuotePage.QuoteEditor.GenerateQuote | src/app/quote/page.tsx:90-103 | a blank client name is refused first, then an empty item list; otherwise the summary is shown; the draft never changes |
| QuotePage.QuoteEditor.ResetQuote | src/app/quote/page.tsx:105-113 | back to the empty draft with the summary hidden |
| PdfExport.FormatCurrency | src/lib/pdfExport.ts:6-8 | the text always begins with "L " |
| PdfExport.QuoteNumber | src/lib/pdfExport.ts:60 | the last 8 characters of the id (all of a shorter id), each upper-cased |
| PdfExport.FileName | src/lib/pdfExport.ts:139 | starts with "Cotizacion_", ends with ".pdf", and has "_" then the id's last 8 characters just before the extension; no whitespace when the id has none |
| PdfExport.FileNameOfPlainName | src/lib/pdfExport.ts:139 | a client name without whitespace appears as it is |
| PdfExport.ColumnsArePrefixSums | src/lib/pdfExport.ts:72-75 | column i starts at the margin plus the widths before it: 20, 100, 125, 150, 175, strictly increasing |
| PdfExport.BreakBefore | src/lib/pdfExport.ts:95-98 | a new page at the margin exactly when the cursor is past `height - 50`, otherwise no change |
| PdfExport.NextRowPosition | src/lib/pdfExport.ts:93-106 | consecutive rows are 8 apart on one page, or the next one opens the following page at the margin, exactly when 8 lower is past the break line |
| PdfExport.RowsStayAboveReserve | src/lib/pdfExport.ts:95-98 | when the margin is above the break line, no row starts below `height - 50` |
| PdfExport.PagesPerRow | src/lib/pdfExport.ts:93-106 | rows never go back a page and add at most one page each |
| PdfExport.RowsOnStartPage | src/lib/pdfExport.ts:93-106 | rows that fit are drawn on the first page at `top + 8i` |
| PdfExport.FirstOverflowRow | src/lib/pdfExport.ts:95-98 | the first row that does not fit opens the next page at the margin |
| PdfExport.RowCells | src/lib/pdfExport.ts:100-104 | five cells on the row's page and line, at the five column positions |
| PdfExport.TableRows | src/lib/pdfExport.ts:93-106 | five cells per item |
| PdfExport.TableRowAt | src/lib/pdfExport.ts:93-106 | cells 5i to 5i+4 of the table are item i's cells, at row i's position: one row per item, in order |
| PdfExport.TableRowsPages | src/lib/pdfExport.ts:93-106 | every table cell is on a page no later than the one where the table ends |
| PdfExport.DrawRows | src/lib/pdfExport.ts:93-106 | the row loop emits exactly the table rows and leaves the cursor where the last row ends |
| PdfExport.DrawClientBlock | src/lib/pdfExport.ts:26-51 | title, rule, heading and client line at 20, 35, 55 and 67; the cursor ends at 77 |
| PdfExport.DrawTableHead | src/lib/pdfExport.ts:58-87 | date, quote number, heading, column titles and rule, at fixed offsets from the date line; the cursor ends 55 lower |
| PdfExport.DrawHeader | src/lib/pdfExport.ts:26-87 | the header elements, with the project line only for a non-empty description; the table starts at 142 or 132 |
| PdfExport.DrawSummary | src/lib/pdfExport.ts:108-130 | the rule and summary lines drawn from where the table ended |
| PdfExport.QuotePdf | src/lib/pdfExport.ts:21-143 | the document: at least one page, header plus five cells per item plus seven summary elements and the footer, saved under a "Cotizacion_" name |
| PdfExport.GenerateQuotePdf | src/lib/pdfExport.ts:21-143 | the drawing routine produces exactly the document `QuotePdf` describes |
| PdfExport.ItemRowInDocument | src/lib/pdfExport.ts:93-106 | in the whole document, item i is drawn as row i's five cells right after the header |
| PdfExport.PagesOfDocument | src/lib/pdfExport.ts:93-106 | between 1 and items+1 pages, and every element is on one of them |
| PdfExport.SummaryLayout | src/lib/pdfExport.ts:117-130 | labels at `width - 80 - margin`, amounts 50 to the right, labour 8 below the subtotal and total 12 below that, on the table's last page |
| PdfExport.SummaryAndFooter | src/lib/pdfExport.ts:132-136 | the document ends with the summary block and then the footer, on the last page at `height - 25` |
| PdfExport.PlaceCapture | src/lib/pdfExport.ts:153-177 | no element is an error; otherwise the image fits the page, touches it on one side, keeps its aspect ratio, is centred and starts at the top |
| InventoryPage.AtMostZero | src/app/inventory/page.tsx:34 | `x <= 0` is false for NaN and otherwise the comparison on the number |
| InventoryPage.Validate | src/app/inventory/page.tsx:26-37 | refused for a missing field exactly when the name is blank or a number field is empty; otherwise refused exactly when a parsed number is at most 0; on success the trimmed name, parsed numbers and unit |
| InventoryPage.EditForm | src/app/inventory/page.tsx:62-67 | the form holds the material's name and unit and its numbers as text |
| InventoryPage.EditThenValidate | src/app/inventory/page.tsx:61-69 | loading a valid material and submitting unchanged hands back its own fields when number text reads back as the same number |
| InventoryPage.EditMode | src/app/inventory/page.tsx:39 | `if (isEditing)` is false with no id and with the empty id, although delete buttons are then disabled; in edit mode they are too |
| InventoryPage.EditButtonDisabled | src/app/inventory/page.tsx:223 | enabled with no edit and for the edited material's own id, disabled for every other id |
| InventoryPage.DeleteButtonDisabled | src/app/inventory/page.tsx:231 | disabled exactly while some id, even the empty one, is being edited |
| InventoryPage.ButtonRules | src/app/inventory/page.tsx:223-231 | while editing, every delete button is disabled and only the edited material's edit button is enabled; otherwise all are enabled |
| InventoryPage.AtMostOneEditable | src/app/inventory/page.tsx:223 | with distinct ids, at most one edit button is enabled during an edit |
| InventoryPage.InventoryForm.constructor | src/app/inventory/page.tsx:15-21 | the default form, nothing being edited, no store calls |
| InventoryPage.InventoryForm.HandleSubmit | src/app/inventory/page.tsx:23-59 | a refused form changes nothing; a valid one makes one update call on the edited id (and leaves edit mode) or one add call, then clears the form |
| InventoryPage.InventoryForm.HandleEdit | src/app/inventory/page.tsx:61-69 | loads the material into the form and records its id, with no store call |
| InventoryPage.InventoryForm.CancelEdit | src/app/inventory/page.tsx:78-81 | leaves edit mode and restores the default form, with no store call |
| InventoryPage.InventoryForm.HandleDelete | src/app/inventory/page.tsx:71-76 | one delete call exactly when confirmed; the form is untouched |
| Dashboard.TotalQuotesValue | src/app/page.tsx:17 | 0 with no quotes, non-negative when no total is negative |
| Dashboard.TotalQuotesValueConcat | src/app/page.tsx:17 | the total over two lists put together is the sum of their totals |
| Dashboard.TotalQuotesValueBoundsEach | src/app/page.tsx:17 | with no negative totals, each quote's total is at most the sum |
| Dashboard.RecentMaterials | src/app/page.tsx:111 | `min(3, len)` materials, newest first: element i is the i-th from the end |
| Dashboard.HomePage | src/app/page.tsx:14-180 | counts; the displayed value is TotalQuotesValue and the recent list RecentMaterials; summary and history link iff there is a quote; recent materials iff there is a material; recent quotes iff the store's recent list is non-empty; empty state iff both lists are empty; materials-only iff materials but no quotes |
| Dashboard.OneMainCard | src/app/page.tsx:52-180 | exactly one of the summary, empty-state and materials-only cards is shown |

## Left out

- Rendering: the JSX markup, toasts, the `confirm` dialog, `window.print` and navigation are not modelled. The delete confirmation is the `confirmed` parameter of `HandleDelete`.
- The drawing library: the image capture, the DOM lookup, fonts and line widths are not modelled. A document is the list of texts and rules drawn, with their page and position. The page size is a parameter.
- Locale formatting: the digit grouping of amounts, `Number.toString` and long dates are functions passed in (`Locale`, `numberText`). Only the "L " prefix of amounts is fixed.
- Floating point: amounts, quantities and coordinates are exact reals, and rounding is not modelled.
- `parseFloat` is a parameter (`parse`) that yields a number or NaN. Its parsing rules are not modelled.
- The inventory, materials and quotes stores are not part of this model. The inventory page is modelled by the calls it makes (`storeCalls`), not by their effect. `getRecentQuotes` is not specified: `HomePage` takes its result as a parameter.
- The form fields' change handlers on the inventory page (`onChange` of name, cost, quantity and unit) are plain field assignments and are not modelled as methods.
- Errors: a failing library call in `generateQuotePDF` is not modelled. The image export's missing element is the `None` capture, and every failure becomes the one generic `ExportFailed`.
- PdfExport.PlaceCapture: requires a captured image of positive width and height. A zero-size capture, which would divide by zero, is not modelled.
- Seqs.LastN: counts sequence elements, which are Unicode scalar values; JavaScript's `slice(-8)` on the quote id counts UTF-16 code units, so an id with characters outside the Basic Multilingual Plane gets a different tail here.
- Text.ToUpper: upper-cases ASCII letters only, not the rest of Unicode.
- QuotePage.QuoteEditor.AddMaterial: the handler looks up the material in the rendered draft but updates the pending one. The model applies both to the same draft, so the update batching of the UI framework is not modelled.
- QuotePage.QuoteEditor.Valid: the line invariant is a ghost predicate. The page does not check it at run time.
