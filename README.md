# Invoice generator core, modelled in Dafny

This project models the two pieces of logic at the heart of the bulk invoice
generator. The rest of the application is plumbing around them.

1. **Turning spreadsheet rows into invoices** (`useInvoiceGenerator.ts`):
   - checking that the column mapping is usable;
   - grouping normalised rows into invoices, either one per row or one per
     group key in first-seen order, each line totalled as quantity × unit price;
   - numbering the invoices with `_index`;
   - the selection set (toggle, select all, deselect all, the "all selected"
     test);
   - guessing a mapping from the headers, and applying a saved mapping;
   - sanitising export file names, and choosing what `exportZip` exports under
     which name.
2. **Laying out one invoice as PDF pages** (`usePdfGenerator.ts`):
   - the greedy word wrap;
   - the running cursor `y` and the current page;
   - `ensure`'s page breaks, which redraw the table header;
   - the heading and metadata block;
   - the row loop, with row heights taken from the wrapped description;
   - the grand total and the optional watermark.

   A page is the sequence of drawing operations issued on it (text, rectangle,
   rule, rotated stamp), with `real` coordinates.

Modules:

| file | module | what it holds |
|---|---|---|
| basics.dfy | Basics | JavaScript white space and `trim`, ASCII `toLowerCase`, `includes`, `String(n)` for integers |
| cells.dfy | Cells | spreadsheet cells, truthiness, `String(x ?? '')`, `Number(x) \|\| 0` |
| seqs.dfy | Seqs | `filter(Boolean)` over optional values, and distinct keys in first-seen order |
| invoices.dfy | Invoices | the data model, `validateMapping`, both modes of `groupInvoices` (the grouped loop as methods proved against a fold), `_index` |
| grouping_facts.dfy | GroupingFacts | what each mode returns, stated row by row and bucket by bucket |
| mappings.dfy | Mappings | `autoGuessMappings` and `applySavedMapping` on values |
| selection.dfy | Selection | the selection set operations and the export filter |
| filenames.dfy | FileNames | `sanitizeFile` and the export file name |
| workspace.dfy | Workspace | the composable's state as a class whose methods update the mapping, the invoices and the selection |
| wrap.dfy | Wrapping | `split(/\s+/)` and `wrap` (a loop proved against a fold) |
| layout.dfy | Layout | the page geometry, the drawing operations, the document state, and the renderer class whose methods draw into it |

Each stateful piece is written twice, in two forms:
- a class or method that follows the source statement by statement;
- a pure function that says what the result is.

The method's postcondition ties the two together. The properties are lemmas
about the pure function. Examples:
- `Layout.RenderPdf` returns `Pages(RenderDoc(...))`, and `Layout.RenderCounts`,
  `Layout.RenderFirstPage`, `Layout.RenderEnding` and
  `Layout.WatermarkOnlyOnLastPage` describe that document;
- `Invoices.GroupRows` returns `Grouped(...)`, and `GroupingFacts.GroupedMode`
  describes it.

Inputs the source takes from its surroundings are parameters here:
- the spreadsheet rows (a map from header to cell per row) and the header list;
- the saved mapping (already parsed);
- the text-width function of the font;
- the currency formatter;
- the date string.

## Model

| member | source | states |
|---|---|---|
| Basics.Trim | app/composables/useInvoiceGenerator.ts:141 | the trimmed text is a slice `s[i..j]` of the input with white space only before `i` and after `j`, and none at its own edges; text without edge space is returned unchanged |
| Basics.Lower | app/composables/useInvoiceGenerator.ts:229 | lower-casing keeps the length and maps each character by the ASCII rule |
| Basics.Contains | app/composables/useInvoiceGenerator.ts:229 | `includes`: the needle is a prefix of the text or of one of its suffixes (meaning used by Mappings.GuessNonEmpty) |
| Basics.NatToString | app/composables/useInvoiceGenerator.ts:151 | `String(n)` is a non-empty run of decimal digits with no leading zero |
| Basics.IntToString | app/composables/usePdfGenerator.ts:127 | `String(qty)` is non-empty and has no white space |
| Basics.DigitsOfNat | app/composables/useInvoiceGenerator.ts:151 | reading back the digits `String(n)` prints gives `n` |
| Basics.NatToStringInjective | app/composables/useInvoiceGenerator.ts:151 | distinct row positions give distinct default invoice numbers |
| Cells.Stringify | app/composables/useInvoiceGenerator.ts:141 | `String(c ?? '')` prints a text cell as itself, a number as its decimal numeral and a boolean as "true" or "false"; it is empty exactly for an absent cell or the empty text, so every truthy cell prints non-empty |
| Cells.Truthy | app/composables/useInvoiceGenerator.ts:142 | JavaScript truthiness: absent, "", 0 and false are falsy; used by the skip rules and the `\|\|` defaults |
| Cells.ParseNumeral | app/composables/useInvoiceGenerator.ts:144 | a numeral reads as a number exactly when it is a digit string (the empty one included, as 0) or a sign followed by at least one digit, and then as the digits' decimal value, negated after "-"; everything else is NaN |
| Cells.ParseNum | app/composables/useInvoiceGenerator.ts:144 | `Number(cell)`: a numeric cell reads as itself, an absent cell as NaN, a text cell as its trimmed text read by Cells.ParseNumeral, and a boolean as 1 or 0 |
| Cells.NumberOrZero | app/composables/useInvoiceGenerator.ts:144-145 | NaN becomes 0, and any other number is kept |
| Cells.NumeralRoundTrip | app/composables/useInvoiceGenerator.ts:144-145 | a number written out as text reads back as the same number |
| Seqs.SomePositions | app/composables/useInvoiceGenerator.ts:140-159 | the kept positions are exactly the positions of present results, in increasing order |
| Seqs.Somes | app/composables/useInvoiceGenerator.ts:159 | `filter(Boolean)`: the present values in order (characterised by Seqs.SomePositions and Seqs.SomesAtPositions) |
| Seqs.SomesAtPositions | app/composables/useInvoiceGenerator.ts:159 | the j-th kept value is the value at the j-th kept position |
| Seqs.Dedup | app/composables/useInvoiceGenerator.ts:164-186 | the keys of the `Map` are exactly the keys seen, each once |
| Seqs.DedupFirstSeen | app/composables/useInvoiceGenerator.ts:171-179 | the `Map`'s keys come out in the order of their first appearance |
| Invoices.ValidateMapping | app/composables/useInvoiceGenerator.ts:131-135 | valid iff customer, description, quantity and unit are mapped, and grouping is off or its column is set and is not "-- No Grouping --" |
| Invoices.NoGroupingChoiceInvalid | app/composables/useInvoiceGenerator.ts:134 | grouping switched on with "-- No Grouping --" is an invalid mapping |
| Invoices.CustomerText | app/composables/useInvoiceGenerator.ts:141 | `String(r[customer] ?? '').trim()`, whose meaning is given by Basics.Trim and Cells.Stringify |
| Invoices.RowLine | app/composables/useInvoiceGenerator.ts:144-156 | quantity and unit price are `Number(x) \|\| 0` of their cells (a parsed value is kept, NaN becomes 0); total = qty × unit; a truthy description is its cell's text trimmed, a falsy one "N/A" |
| Invoices.EmailText | app/composables/useInvoiceGenerator.ts:149 | `r[email] \|\| ''`: the email cell's text when the cell is truthy, "" otherwise (also the grouped seed, :174) |
| Invoices.SkipUngrouped | app/composables/useInvoiceGenerator.ts:142 | a row is dropped in ungrouped mode iff its trimmed customer is empty and its description cell is falsy |
| Invoices.RowResult | app/composables/useInvoiceGenerator.ts:140-158 | the `map` callback: nothing for a dropped row, otherwise the row's invoice |
| Invoices.RowInvoice | app/composables/useInvoiceGenerator.ts:141-158 | one line; customer is the trimmed text or "N/A"; no group; the invoice number is the cell's text, or "INV-" and the row position + 1 when the cell is falsy |
| Invoices.RowResults | app/composables/useInvoiceGenerator.ts:140-159 | `rows.map` gives one result per row, at the row's own position |
| Invoices.Ungrouped | app/composables/useInvoiceGenerator.ts:139-159 | the ungrouped result, `rows.map(...).filter(Boolean)`, described row by row by GroupingFacts.UngroupedMode |
| Invoices.SeedInvoice | app/composables/useInvoiceGenerator.ts:172-178 | a new bucket's invoice has no number and no lines, takes its group and email from its first row; its customer is "N/A" when the cell is absent and the cell's trimmed text otherwise, so a blank cell gives "" |
| Invoices.GroupValue | app/composables/useInvoiceGenerator.ts:166 | `String(r[groupColumn] ?? '').trim()`, the row's group value |
| Invoices.SkipGrouped | app/composables/useInvoiceGenerator.ts:167 | a row is skipped in grouped mode iff its group value is empty and its description cell is falsy |
| Invoices.BucketKey | app/composables/useInvoiceGenerator.ts:169 | the bucket key is the group value, or `__empty_group_` followed by the trimmed customer when the group value is empty |
| Invoices.RowEntry | app/composables/useInvoiceGenerator.ts:166-184 | what one row contributes to the loop: nothing when skipped, otherwise its bucket key, the invoice it would open and its line |
| Invoices.Entries | app/composables/useInvoiceGenerator.ts:165-169 | one entry per row: nothing for a skipped row, otherwise its key, seed and line |
| Invoices.FindKey | app/composables/useInvoiceGenerator.ts:171 | `groups.has(key)`: the first bucket with the key, or the end when there is none |
| Invoices.FindKeyAppended | app/composables/useInvoiceGenerator.ts:171-179 | a key just added is found at the new bucket |
| Invoices.AddEntry | app/composables/useInvoiceGenerator.ts:171-184 | one loop step: a skipped row changes nothing, a known key gets the line, a new key opens a bucket at the end (its effect is stated by GroupingFacts.SkippedStep, KnownKeyStep and NewKeyStep) |
| Invoices.Bucketize | app/composables/useInvoiceGenerator.ts:165-185 | the `Map` after the loop, as a fold of the step over the rows (described by GroupingFacts.BucketizeDescribes) |
| Invoices.Grouped | app/composables/useInvoiceGenerator.ts:164-186 | `Array.from(groups.values())` after the loop (described by GroupingFacts.GroupedMode) |
| Invoices.PlaceRow | app/composables/useInvoiceGenerator.ts:166-184 | the loop body for one row (skip, open the bucket if new, push the line) is one step of the fold |
| Invoices.GroupRows | app/composables/useInvoiceGenerator.ts:164-186 | the grouping loop returns the bucket values of the fold over all rows |
| Invoices.WithIndices | app/composables/useInvoiceGenerator.ts:190 | every invoice gets `_index` = its position, and nothing else changes |
| Invoices.GroupInvoicesSpec | app/composables/useInvoiceGenerator.ts:137-191 | every result carries its position as `_index`; grouping by "" or "-- No Grouping --" gives no invoices |
| Invoices.GroupInvoices | app/composables/useInvoiceGenerator.ts:137-191 | the method computes the specification, in both modes |
| GroupingFacts.UngroupedMode | app/composables/useInvoiceGenerator.ts:139-159 | ungrouped: one invoice per kept row, in row order, built from that row and its original position; a row is dropped iff its trimmed customer is empty and its description falsy |
| GroupingFacts.FirstWithKey | app/composables/useInvoiceGenerator.ts:171-179 | the first row seen with a key opens that key's bucket |
| GroupingFacts.NoKeyNoLines | app/composables/useInvoiceGenerator.ts:181-184 | a key never seen has no lines |
| GroupingFacts.SkippedStep | app/composables/useInvoiceGenerator.ts:167 | a skipped row leaves every bucket as it was |
| GroupingFacts.AppendEntry | app/composables/useInvoiceGenerator.ts:171-184 | appending one keyed row adds its key to the key list, leaves the first row of every earlier key alone, and adds its line to exactly the lines of its own key |
| GroupingFacts.KnownKeyStep | app/composables/useInvoiceGenerator.ts:181-184 | a row with a known key appends its line to that bucket only |
| GroupingFacts.NewKeyStep | app/composables/useInvoiceGenerator.ts:171-184 | a row with a new key opens a bucket at the end, seeded from this row, holding its line |
| GroupingFacts.BucketizeDescribes | app/composables/useInvoiceGenerator.ts:164-186 | after the loop, the buckets are the distinct keys in first-seen order, each with its first row's seed and all its rows' lines in row order |
| GroupingFacts.LineCountPush | app/composables/useInvoiceGenerator.ts:184 | pushing a line adds exactly one line overall |
| GroupingFacts.BucketizeLineCount | app/composables/useInvoiceGenerator.ts:164-186 | the grouped invoices hold as many lines as there are non-skipped rows |
| GroupingFacts.GroupedMode | app/composables/useInvoiceGenerator.ts:161-190 | grouped: one invoice per distinct key in first-seen order, each with its first row's customer, email and group, every matching line, an empty number and `_index` = its position |
| GroupingFacts.KeysOfRows | app/composables/useInvoiceGenerator.ts:166-169 | the keys seen are the bucket keys of the non-skipped rows, in row order: the trimmed group value, or "__empty_group_" and the trimmed customer |
| GroupingFacts.KeysOfSomes | app/composables/useInvoiceGenerator.ts:169 | the keys seen are the keys of the kept entries |
| GroupingFacts.LinesWithKeyTotals | app/composables/useInvoiceGenerator.ts:182-184 | every line collected under a key has total = qty × unit |
| GroupingFacts.LineTotals | app/composables/useInvoiceGenerator.ts:137-191 | in both modes, every line of every invoice has total = qty × unit |
| Mappings.GuessIndex | app/composables/useInvoiceGenerator.ts:229 | `find` returns the first header whose lower-cased text contains the needle |
| Mappings.Guess | app/composables/useInvoiceGenerator.ts:229 | a guess is a header or "" |
| Mappings.GuessFirst | app/composables/useInvoiceGenerator.ts:230-237 | the result is a header or ""; it is "" iff no needle is guessed, and otherwise it is the guess of the first needle, in order, whose guess is non-empty |
| Mappings.GuessMapping | app/composables/useInvoiceGenerator.ts:227-240 | every guessed role names a header or is empty, and grouping is on exactly when a group column was found |
| Mappings.GuessFindsFirst | app/composables/useInvoiceGenerator.ts:229 | if any header matches, the guess is the first matching header |
| Mappings.GuessNonEmpty | app/composables/useInvoiceGenerator.ts:229 | a non-empty needle yields a header iff some header, lower-cased, contains it |
| Mappings.GuessFirstFinds | app/composables/useInvoiceGenerator.ts:230-237 | a chain of guesses yields a header iff some header matches some of its needles |
| Mappings.GuessMappingFinds | app/composables/useInvoiceGenerator.ts:227-240 | each role gets a column iff some header, lower-cased, contains one of that role's keywords; grouping is on iff a group keyword matches |
| Mappings.SetIfExists | app/composables/useInvoiceGenerator.ts:245-251 | a saved value is applied iff it exists and is a current header or "", otherwise the field keeps its value |
| Mappings.ApplySaved | app/composables/useInvoiceGenerator.ts:242-257 | applying a saved mapping keeps every role naming a header or empty, and a saved grouping flag is applied |
| Mappings.ApplySavedWhole | app/composables/useInvoiceGenerator.ts:242-257 | a saved mapping with every role present and a current header or "", and its flag present, is applied whole |
| Mappings.ApplySavedIdempotent | app/composables/useInvoiceGenerator.ts:242-257 | applying the same saved mapping twice is the same as once |
| Selection.Toggled | app/composables/useInvoiceGenerator.ts:206-212 | toggle flips the one index and leaves every other index as it was |
| Selection.ToggleTwice | app/composables/useInvoiceGenerator.ts:206-212 | toggling twice restores the set |
| Selection.IndexSet | app/composables/useInvoiceGenerator.ts:215 | the set of all `_index` values |
| Selection.SelectAllIsRange | app/composables/useInvoiceGenerator.ts:214-216 | for numbered invoices, select-all gives exactly 0 .. n-1, n indices |
| Selection.RangeSize | app/composables/useInvoiceGenerator.ts:224 | the n positions of n invoices are n distinct indices |
| Selection.AllSelectedMeansEvery | app/composables/useInvoiceGenerator.ts:223-225 | for a selection of invoice positions, the size test holds iff there is an invoice and every one is selected |
| Selection.ToExport | app/composables/useInvoiceGenerator.ts:265 | the export list holds exactly the invoices whose `_index` is selected |
| Selection.ToExportInOrder | app/composables/useInvoiceGenerator.ts:265 | the exported invoices keep the list's order |
| Selection.ToExportAll | app/composables/useInvoiceGenerator.ts:265 | with everything selected, every invoice is exported |
| Selection.ToExportNone | app/composables/useInvoiceGenerator.ts:265 | with nothing selected, nothing is exported |
| FileNames.DropRun | app/composables/useInvoiceGenerator.ts:260 | dropping a leading run of disallowed characters stops at an allowed one |
| FileNames.ReplaceRuns | app/composables/useInvoiceGenerator.ts:260 | after the replace, only `[A-Za-z0-9_.-]` remain, the text is no longer, and it is empty only for empty input |
| FileNames.Sanitize | app/composables/useInvoiceGenerator.ts:259-261 | 1 to 80 allowed characters; "invoice" for empty input; otherwise the first 80 characters of the replaced text |
| FileNames.ReplaceRunsKeepsClean | app/composables/useInvoiceGenerator.ts:260 | text of allowed characters is unchanged |
| FileNames.ReplaceRunsOfRun | app/composables/useInvoiceGenerator.ts:260 | a run of disallowed characters becomes a single "_" |
| FileNames.DropRunOfRun | app/composables/useInvoiceGenerator.ts:260 | a run of disallowed characters is dropped whole |
| FileNames.DropRunConcat | app/composables/useInvoiceGenerator.ts:260 | the leading run of a concatenation is that of its first part, continuing into the second if the first is all run |
| FileNames.ReplaceRunsSplit | app/composables/useInvoiceGenerator.ts:260 | the replacement works run by run: cut at an allowed character, the parts are replaced separately |
| FileNames.SanitizeIdempotent | app/composables/useInvoiceGenerator.ts:259-261 | sanitising twice is the same as once |
| FileNames.SanitizeKeepsClean | app/composables/useInvoiceGenerator.ts:259-261 | a non-empty name of at most 80 allowed characters passes through unchanged |
| FileNames.ExportNamesCollide | app/composables/useInvoiceGenerator.ts:259-261 | distinct invoice numbers can share a file name: "A/1" and "A:1" both export as "A_1.pdf" |
| FileNames.ExportStem | app/composables/useInvoiceGenerator.ts:281 | the stem of an exported name (the number, or `INV-<index+1>` when empty, sanitized) is 1 to 80 allowed characters |
| FileNames.ExportFileName | app/composables/useInvoiceGenerator.ts:281 | the file name has 5 to 84 allowed characters and ends in ".pdf" |
| FileNames.DefaultExportName | app/composables/useInvoiceGenerator.ts:281 | an invoice without a number is exported as "INV-" and its `_index` + 1, then ".pdf" |
| FileNames.DefaultInvoiceNo | app/composables/useInvoiceGenerator.ts:281 | `INV-${_index + 1}`, the number used when an invoice has none |
| Workspace.InvoiceGenerator.constructor | app/composables/useInvoiceGenerator.ts:69-98 | the starting state: an empty mapping with grouping off, no invoices, nothing selected |
| Workspace.InvoiceGenerator.AutoGuessMappings | app/composables/useInvoiceGenerator.ts:227-240 | the mapping becomes the guessed mapping, which names only current headers |
| Workspace.InvoiceGenerator.ApplySavedMapping | app/composables/useInvoiceGenerator.ts:242-257 | the field-by-field updates give the saved mapping applied to the old one, and a mapping naming only current headers keeps doing so |
| Workspace.InvoiceGenerator.SetMapping | app/composables/useInvoiceGenerator.ts:69-75 | the user's edit replaces the mapping, whatever columns or group choice it names |
| Workspace.InvoiceGenerator.GenerateAndPreview | app/composables/useInvoiceGenerator.ts:194-203 | for any mapping, including grouping on with "-- No Grouping --", the invoices are the grouping of the rows when the mapping is valid and none otherwise, and all of them are selected |
| Workspace.InvoiceGenerator.ToggleInvoiceSelection | app/composables/useInvoiceGenerator.ts:206-212 | the selection becomes the old one with the index flipped |
| Workspace.InvoiceGenerator.SelectAllInvoices | app/composables/useInvoiceGenerator.ts:214-216 | the selection becomes the set of all `_index` values, 0 .. n-1 |
| Workspace.InvoiceGenerator.DeselectAllInvoices | app/composables/useInvoiceGenerator.ts:218-220 | the selection becomes empty |
| Workspace.InvoiceGenerator.AreAllInvoicesSelected | app/composables/useInvoiceGenerator.ts:223-225 | true iff there is an invoice and the selection's size equals the invoice count |
| Workspace.InvoiceGenerator.PlanExport | app/composables/useInvoiceGenerator.ts:263-282 | for any mapping, refused with the notice iff the mapping is invalid or nothing selected is exported; otherwise the `zip.file` calls in order: each selected invoice with its name, the sanitised number (or "INV-" and `_index` + 1) plus ".pdf" |
| Workspace.Archive | app/composables/useInvoiceGenerator.ts:276-284 | the zip holds exactly the planned names |
| Workspace.ArchiveKeepsLast | app/composables/useInvoiceGenerator.ts:282 | a name holds the last file planned under it; an earlier PDF of the same name is replaced |
| Workspace.ArchiveComplete | app/composables/useInvoiceGenerator.ts:276-284 | with distinct names, every planned PDF is in the zip under its name |
| Wrapping.Word | app/composables/usePdfGenerator.ts:43 | a word is the longest space-free prefix |
| Wrapping.SkipSpaces | app/composables/usePdfGenerator.ts:43 | skipping a separator drops white space only and leaves a suffix that starts with a non-space |
| Wrapping.SplitWs | app/composables/usePdfGenerator.ts:43 | `split(/\s+/)` gives at least one field, the first being the leading word (empty when the text starts with white space), and no field holds white space |
| Wrapping.SplitWsNoEmptyWords | app/composables/usePdfGenerator.ts:43 | text without edge white space splits into non-empty words |
| Wrapping.JoinSpCons | app/composables/usePdfGenerator.ts:45-55 | joining with spaces reads the same from the front |
| Wrapping.SplitWsJoin | app/composables/usePdfGenerator.ts:43 | for text of words separated by single spaces, joining the fields with spaces gives the text back |
| Wrapping.Collapse | app/composables/usePdfGenerator.ts:43 | the text with every maximal white-space run replaced by one space (the reference `split` is compared against) |
| Wrapping.CollapseWord | app/composables/usePdfGenerator.ts:43 | collapsing passes the leading word through unchanged |
| Wrapping.SplitWsCollapse | app/composables/usePdfGenerator.ts:43 | for every text, the fields of `split(/\s+/)` joined with spaces are the text with each white-space run collapsed to one space |
| Wrapping.Wrap | app/composables/usePdfGenerator.ts:42-58 | the loop computes the fold of the greedy step over the words |
| Wrapping.WrapStep | app/composables/usePdfGenerator.ts:47-54 | one loop step: the word joins the current line, unless the joined line is wider than the limit and the current line is non-empty; then the line is finished and the word starts the next |
| Wrapping.WrapFold | app/composables/usePdfGenerator.ts:46-55 | the loop state (finished lines, current line) after the words so far, as the step applied word by word |
| Wrapping.Wrapped | app/composables/usePdfGenerator.ts:42-58 | what `wrap` returns: the finished lines, the last line if non-empty, else `['']` (its properties are Wrapping.WrapNoWords, WrapLinesFit and WrapKeepsWords) |
| Wrapping.WrapNoWords | app/composables/usePdfGenerator.ts:56-57 | `wrap` returns at least one line, and `['']` when there are no words |
| Wrapping.FoldOfEmptyWords | app/composables/usePdfGenerator.ts:45-55 | empty words leave the loop state empty |
| Wrapping.WrapLinesFit | app/composables/usePdfGenerator.ts:46-55 | every line fits within the width, or is a single word |
| Wrapping.FoldLinesFit | app/composables/usePdfGenerator.ts:46-55 | during the loop, every finished line and the current line fit or are single words |
| Wrapping.WrapKeepsWords | app/composables/usePdfGenerator.ts:42-58 | for text without edge white space, the lines joined by spaces are the words joined by spaces: no word lost, repeated or moved |
| Wrapping.FoldKeepsWords | app/composables/usePdfGenerator.ts:46-55 | during the loop, the lines so far hold the words so far, in order |
| Layout.RightText | app/composables/usePdfGenerator.ts:36-40 | right-aligned text ends exactly at the given right edge |
| Layout.HeaderOps | app/composables/usePdfGenerator.ts:60-66 | the table header: the band and the four column titles (drawing count in Layout.HeaderOpsCounts) |
| Layout.TitleOps | app/composables/usePdfGenerator.ts:80-84 | "INVOICE" at the top left, the company name right-aligned on the same baseline, and the address line 16 below |
| Layout.ContactOps | app/composables/usePdfGenerator.ts:86-91 | "Billed To" and the customer 14 below it, then the email and the group line, each only when non-empty and each 14 below the line before |
| Layout.MetaOps | app/composables/usePdfGenerator.ts:92-96 | "Invoice Number", the number, "Date of Issue" and the date, right-aligned 0, 14, 32 and 46 below `metaY` |
| Layout.AddressLine | app/composables/usePdfGenerator.ts:83 | the address line is empty iff there is neither an address nor a tax number |
| Layout.HeaderAboveTable | app/composables/usePdfGenerator.ts:79-101 | the heading is text only, and every line of it is at least 36 above the table top, so it clears the header band |
| Layout.DescLines | app/composables/usePdfGenerator.ts:111 | a description always wraps to at least one line |
| Layout.DescTexts | app/composables/usePdfGenerator.ts:132-136 | description line k is drawn 12 × k below the first text line |
| Layout.RowOps | app/composables/usePdfGenerator.ts:121-148 | the row's numbers, description lines and separator (geometry in Layout.RowGeometry) |
| Layout.RowWith | app/composables/usePdfGenerator.ts:109-148 | a row with the given wrapped lines: `ensure` the row height with the header, draw the row from the cursor, and move the cursor down by the row height |
| Layout.RowDoc | app/composables/usePdfGenerator.ts:109-148 | one loop iteration: the description wrapped to the column, then the row drawn as Layout.RowWith |
| Layout.RowsDoc | app/composables/usePdfGenerator.ts:108-151 | the row loop, as the row step applied to the invoice lines in order |
| Layout.TotalOps | app/composables/usePdfGenerator.ts:156-157 | "Grand Total" right-aligned at the total column's left edge and the formatted sum at the right margin, on one baseline |
| Layout.Tail | app/composables/usePdfGenerator.ts:153-161 | after the rows: the cursor 20 down, `ensure(28)`, the grand total, then the watermark when asked for |
| Layout.RowGeometry | app/composables/usePdfGenerator.ts:115-148 | a row's texts lie strictly between its top and its bottom edge (top − lines × 12 − 16), and it ends with the separator at that edge |
| Layout.EnsureMakesRoom | app/composables/usePdfGenerator.ts:68-77 | after `ensure`, the requested room is there whenever a fresh page can hold it, and without a break nothing changes |
| Layout.EnsureDrawn | app/composables/usePdfGenerator.ts:68-77 | `ensure` draws the table header on a new page or nothing |
| Layout.EnsureDoc | app/composables/usePdfGenerator.ts:68-77 | `ensure(need)`: a new page with the table header when the row would pass the bottom margin (properties in Layout.EnsureMakesRoom and EnsureDrawn) |
| Layout.NeedsBreak | app/composables/usePdfGenerator.ts:70 | `ensure` breaks the page iff the cursor minus the room asked for (plus 40 with the header) is below the bottom margin |
| Layout.BreakOps | app/composables/usePdfGenerator.ts:71-75 | what a break draws: the table header at the top margin of the new page; no break draws nothing |
| Layout.EnsureCounts | app/composables/usePdfGenerator.ts:68-77 | a page break draws no separator or watermark, and keeps what is already on the pages |
| Layout.HeaderOpsCounts | app/composables/usePdfGenerator.ts:60-66 | the table header draws no separator or watermark |
| Layout.HeaderBlockCounts | app/composables/usePdfGenerator.ts:79-101 | the heading draws no separator or watermark |
| Layout.FirstEnsureKeepsPage | app/composables/usePdfGenerator.ts:101-102 | the table starts at `metaY − 46 − 12 − 24` and `ensure(0)` there never breaks the page |
| Layout.SumTotalsConcat | app/composables/usePdfGenerator.ts:150 | the running sum adds up line by line |
| Layout.SumTotals | app/composables/usePdfGenerator.ts:150 | the running `sum` of the line totals (additivity in Layout.SumTotalsConcat) |
| Layout.RowCounts | app/composables/usePdfGenerator.ts:127-148 | a row draws exactly one separator and no watermark |
| Layout.RowWithCounts | app/composables/usePdfGenerator.ts:109-151 | a row, with or without a page break, adds one separator and keeps earlier drawing |
| Layout.RowsDocCounts | app/composables/usePdfGenerator.ts:108-151 | the row loop adds one separator per line and no watermark, and changes nothing already drawn |
| Layout.TableDocFacts | app/composables/usePdfGenerator.ts:104-151 | after the rows, the heading and the table header still begin the first page, with one separator per line |
| Layout.TailCounts | app/composables/usePdfGenerator.ts:153-161 | the grand total adds no separator, and the watermark is added once when asked for |
| Layout.RenderSplits | app/composables/usePdfGenerator.ts:79-161 | the rendering is the table followed by the grand total and watermark |
| Layout.RenderDoc | app/composables/usePdfGenerator.ts:79-161 | the whole document `renderPdf` draws (described by Layout.RenderFirstPage, RenderCounts, RenderEnding and WatermarkOnlyOnLastPage) |
| Layout.RenderFirstPage | app/composables/usePdfGenerator.ts:79-105 | the first page begins with the heading and then the table header at the table top |
| Layout.RenderCounts | app/composables/usePdfGenerator.ts:108-161 | the document has one separator per invoice line, and one watermark if asked for, none otherwise |
| Layout.RenderEnding | app/composables/usePdfGenerator.ts:153-161 | the last page ends with "Grand Total" and the formatted sum of the line totals on one baseline, then the watermark if asked for |
| Layout.WatermarkOnlyOnLastPage | app/composables/usePdfGenerator.ts:159-161 | no page before the last carries the watermark |
| Layout.RowSeparatorAtCursor | app/composables/usePdfGenerator.ts:139-148 | after a row, the cursor is at its bottom edge and the separator is drawn exactly there, last on the page |
| Layout.RowFitsPage | app/composables/usePdfGenerator.ts:115-118 | a row of at most 59 description lines ends above the bottom margin |
| Layout.RowOverflowsPage | app/composables/usePdfGenerator.ts:115-118 | a row of 60 or more description lines, started at or below the top margin, breaks the page and still ends below the bottom margin |
| Layout.Renderer.constructor | app/composables/usePdfGenerator.ts:11-32 | one empty page, cursor at the top margin |
| Layout.Renderer.Emit | app/composables/usePdfGenerator.ts:34 | drawing appends to the current page |
| Layout.Renderer.TableHeader | app/composables/usePdfGenerator.ts:60-66 | the band and the four column titles at the cursor |
| Layout.Renderer.Ensure | app/composables/usePdfGenerator.ts:68-77 | the pages and cursor become Layout.EnsureDoc of the old ones: a new page with the table header and the cursor at its top minus 25 exactly when Layout.NeedsBreak holds, no change otherwise |
| Layout.Renderer.Title | app/composables/usePdfGenerator.ts:80-84 | the title, company name and address, and the cursor 16 down |
| Layout.Renderer.Contact | app/composables/usePdfGenerator.ts:86-91 | "Billed To", the customer and the optional lines, and the cursor 32 to 60 below `metaY` |
| Layout.Renderer.Meta | app/composables/usePdfGenerator.ts:92-96 | number and date, right-aligned at the offsets from `metaY` |
| Layout.Renderer.HeaderBlock | app/composables/usePdfGenerator.ts:79-101 | the heading, and the cursor at `metaY − 46 − 12 − 24` |
| Layout.Renderer.DescColumn | app/composables/usePdfGenerator.ts:132-136 | the description lines, each 12 below the previous one |
| Layout.Renderer.DrawRow | app/composables/usePdfGenerator.ts:121-148 | the row's texts, then the cursor down by the row height and the separator there |
| Layout.Renderer.Row | app/composables/usePdfGenerator.ts:109-148 | one loop iteration leaves the pages and cursor at Layout.RowDoc of the old ones |
| Layout.Renderer.Heading | app/composables/usePdfGenerator.ts:79-105 | the heading and the table header on the first page, cursor at the table top |
| Layout.Renderer.Rows | app/composables/usePdfGenerator.ts:108-151 | the row loop leaves the pages and cursor at Layout.RowsDoc of the old ones, and `sum` is the sum of the line totals |
| Layout.Renderer.DrawTail | app/composables/usePdfGenerator.ts:153-161 | the grand total after `ensure(28)` 20 below the rows, then the watermark if asked for |
| Layout.RenderPdf | app/composables/usePdfGenerator.ts:6-161 | the pages drawn are the pages of the layout specification |

## Left out

- Spreadsheet reading, Vue reactivity (`computed`, `watch`, `onMounted`), localStorage and JSON parsing are left out. Headers and rows are inputs. The saved mapping arrives already parsed, with an optional value per field.
- The saved mapping is modelled with text values only. A saved non-string value (other than the grouping flag) is not modelled.
- The export's JSZip, `saveAs`, progress updates and `setTimeout` are left out. `PlanExport` returns the `zip.file` calls `exportZip` makes, or the refusal notice. `Archive` models only how a later entry replaces an earlier one of the same name.
- Workspace.InvoiceGenerator.PlanExport: assumes every PDF renders. The error path of `exportZip` (the catch that shows "Export error: …" and ends the whole export when `renderPdf` throws, for example on text the standard fonts cannot encode) is not modelled, because drawing and text measurement are total functions here.
- Workspace.InvoiceGenerator.PlanExport: lists one file per selected invoice even when names collide. The zip then holds fewer PDFs than listed; `Archive`, `ArchiveKeepsLast` and `ExportNamesCollide` state when.
- pdf-lib document creation, fonts and `save()` are left out. A page is the list of operations drawn on it. Text width is an abstract function.
- Colours are named rather than given as RGB values.
- `Intl.NumberFormat` currency formatting and its fallback are a parameter, `money`.
- `new Date().toLocaleString()` is a parameter, `date`.
- The settings' unused fields are left out (logo, template, locale, tax percent, file-name pattern).
- Cells.ParseNumeral: reads optional-sign decimal integers only. Decimals, exponents, hexadecimal, "Infinity" and JavaScript's floating-point coercions are treated as NaN. Money and quantities are integers.
- Basics.Lower: lower-cases ASCII letters only. `toLowerCase` on other scripts is not modelled.
- FileNames.Sanitize: slices by character. The source slices by UTF-16 code unit, but every character left after the replacement is ASCII, so the two agree.
- Layout.SumTotals: `l.total || 0` is `l.total`, because every generated line total is an integer (`qty * unit`) and never missing.
- Layout.RowFitsPage: holds for rows of at most 59 description lines. A row of 60 or more lines overflows its page, in the model as in the source (Layout.RowOverflowsPage): `ensure` starts at most one page and does not split a row.
- The top-level `state.isGroupingEnabled` flag (useInvoiceGenerator.ts:72) is never read by the core. The mapping's own flag starts absent, that is false.
