# Inventory ledger of warehouse_app, in Dafny

This project models the inventory ledger of a Django warehouse application for perishable
goods, and proves properties of the model. A production batch moves through three stages:

1. It is **drafted** (`productbatch_create`).
2. It is **received** (`ProductBatch.receive`). Reception appends a `reception` operation,
   adds the batch weight to its product's stock row, and stamps the reception date.
3. It is **drawn down** an amount per live batch (`warehouse_deduction`).

The model also covers the form rules the views rely on: `NomenclatureForm`,
`ProductBatchForm` and `WarehouseDeductionForm`, plus `nomenclature_add`.

The database is a class `Models.Store` with one field per table:

- the catalog (`Nomenclature`), batches (`ProductBatch`), stock rows (`Warehouse`) and the
  journal (`Operation`);
- the live balances (`LiveBatch`), a sequence in table order, with no order on its keys
  required;
- the next value of each auto-increment key.

Its value is `Tables`. Every operation that changes the database is a method. Each method
ensures that its new state and its answer equal a specification function of the old state:

| method | specification function |
|---|---|
| `Store.Receive` | `ReceiveSpec` |
| `Deduct` | `DeductSpec` |
| `CreateOrEditBatch` | `SubmitBatch`, applied to `CleanBatch` |
| `AddNomenclature` | `SubmitNomenclature`, applied to `CleanNomenclature` |

The properties are proved as lemmas about those functions. Each method also keeps
`Valid()`, which holds these database constraints:

- unique catalog codes;
- one stock row per product;
- no two live rows with the same key;
- references that point at existing rows: a live row's batch, a batch's nomenclature, a
  stock row's nomenclature, and a journal row's batch and nomenclature whenever it names one;
- keys below their counters.

Modules and files:

- `wrappers.dfy`: Option and Result.
- `text.dfy`: Python's `str.strip` and its laws.
- `models.dfy`: the tables, their constraints, reception and the `Store`.
- `deduction.dfy`: the deduction view.
- `forms.dfy`: field cleaning, the three forms, and `ProductBatchForm.save`.
- `views.dfy`: `productbatch_create` and `nomenclature_add`.

Units and inputs:

- Quantities are integers in hundredths of a kilogram, so the form minimum of 0.01 is 1.
  The deduction loop's exact-zero deletion check is kept.
- Dates are day numbers. Timestamps are an integer `now` supplied by the caller.
- Posted forms arrive already parsed: a blank or non-numeric field is `None`, or is absent
  from the amount map.

`LiveBatch` is imported by `views.py` but is not defined in `models.py`. It is modelled from
its uses:

- a key;
- the batch it belongs to;
- a `currentQuantity`;
- the join to the batch's nomenclature;
- ordering by the batch's expiration date.

No modelled operation creates a live row. The `Store` can be opened in any well-formed state.

Points where the model follows the code as it is written:

- **Overdraw refusal is not atomic.** The refusal at `views.py:319-325` returns after
  earlier batches in the same request have already been decremented and journaled, and
  before the stock row is touched. `DeductOverdrawn` and
  `DeductOverdrawnDrift` state this outcome.
- **Reception creates no live balance.** So "stock equals the sum of live balances" is not
  an invariant of the code. `Drift` measures the gap between the two:
  - reception widens it by the batch weight (`ReceiveWidensDrift`);
  - a completed deduction keeps it (`DeductSucceedsStock`);
  - a refused over-draw widens it by the amounts already drawn (`DeductOverdrawnDrift`).
- **Shelf life comes from the form.** The expiration date uses the batch form's own
  `shelf_life_days` field (`forms.py:23-26`, `forms.py:45-46`), never
  `Nomenclature.shelf_life_days` (`ExpirationIgnoresCatalog`).
- **An expiration date out of range is a server error.** `forms.py:46` adds a `timedelta`
  of the unbounded shelf-life field to the production date. Python raises `OverflowError`
  when the day count exceeds 999999999 or the sum leaves the years 1 to 9999. The view then
  fails and saves nothing. The model returns `ExpirationOverflow` in that case.
- **The POST path of the deduction view does not use `WarehouseDeductionForm`.** It reads
  the raw fields and strips them itself. Both refuse exactly the blank reasons
  (`CleanDeductionBlankReason`). The form also refuses a reason holding a null character,
  which the view writes unchecked (`CleanDeductionNulReason`).

Points where the model departs from code that would raise, and gives it the meaning
evidently intended:

- **The stock field is one field.** The deduction view reads and writes
  `warehouse.current_quantity`, but the `Warehouse` model declares only `current_weight_kg`.
  Both are the one field `currentWeight`. As written, the view would raise an attribute
  error at that line.
- **The journal row's nomenclature is one field.** `views.py:328-336` passes
  `nomenclature=` to `Operation.objects.create`, but the `Operation` model
  (`models.py:73-105`) declares no such field, so Django would raise `TypeError` there as
  written. The model keeps it as an optional journal field that receptions leave empty.

## Model

| member | source | states |
|---|---|---|
| Text.Strip | warehouse_app/views.py:280-282 | the result is no longer than the input |
| Text.StripSlice | warehouse_app/views.py:280-282 | the stripped string is a contiguous slice of the input, with only whitespace cut before and after it |
| Text.StripEnds | warehouse_app/views.py:280-282 | a non-empty stripped string neither starts nor ends with whitespace |
| Text.StripEmptyIffBlank | warehouse_app/views.py:284 | stripping yields the empty string exactly when the input is all whitespace |
| Text.StripIdempotent | warehouse_app/views.py:280-282 | stripping twice is stripping once |
| Models.FindWarehouse | warehouse_app/models.py:59-62 | the lookup by nomenclature returns a stock row of that nomenclature, or None only when no row has it |
| Models.StockInRow | warehouse_app/models.py:114-118 | with one row per nomenclature, the stock read is that row's weight, and None exactly when no row exists |
| Models.Find | warehouse_app/views.py:339-343 | a live row found by key is in the table and has that key; None exactly when no row has the key |
| Models.SetQuantity | warehouse_app/views.py:339-343 | `lb.save()` after a decrement changes the quantity of the row with that key and nothing else |
| Models.RemoveLive | warehouse_app/views.py:340-341 | `lb.delete()` removes exactly the row with that key |
| Models.FindSetQuantity | warehouse_app/views.py:339-343 | after an update, lookups of other keys are unchanged and the updated key shows the new quantity |
| Models.FindRemoveLive | warehouse_app/views.py:340-341 | after a delete, the deleted key is gone and other lookups are unchanged |
| Models.LiveSumSetQuantity | warehouse_app/views.py:339-343 | updating a row moves its product's total live balance by exactly the difference |
| Models.LiveSumRemoveLive | warehouse_app/views.py:340-341 | deleting a row takes exactly its balance out of its product's total |
| Models.AddToStockEffect | warehouse_app/models.py:59-64 | get_or_create then `+=` keeps one row per product, raises that product's stock by exactly the amount (starting from 0 when it had no row) and leaves every other product's stock unchanged |
| Models.AddToStock | warehouse_app/models.py:59-64 | `get_or_create` with a default of 0, then `+=`; its properties are stated by AddToStockEffect |
| Models.ReceiveSpec | warehouse_app/models.py:40-70 | unknown batch and already-received batch change nothing and say so (with the recorded date); otherwise exactly one reception operation (this batch, its weight, the note) is appended, the stock grows by the weight, the batch is stamped received, the catalog, the live rows and the key counters of catalog and batches are unchanged, and the database stays well formed |
| Models.ReceiveStock | warehouse_app/models.py:59-64 | receiving adds exactly the batch weight to its product's stock, from 0 when no row existed, and leaves every other product's stock unchanged |
| Models.ReceiveIdempotent | warehouse_app/models.py:45-46 | a second receive of the same batch changes nothing and reports the first reception's date: receiving twice is receiving once |
| Models.ReceiveAppendsOnly | warehouse_app/models.py:51-56 | the journal grows by one row on success and by none otherwise; earlier rows stay in place |
| Models.ReceiveWidensDrift | warehouse_app/models.py:40-70 | reception widens the gap between a product's stock and its live balances by the batch weight, and leaves every other product's gap unchanged |
| Models.Store.AddStock | warehouse_app/models.py:59-64 | the stock rows after the in-place update are those of AddToStock, and no other table changes |
| Models.Store.Receive | warehouse_app/models.py:40-70 | the in-place reception produces exactly the state and answer of ReceiveSpec and keeps the database well formed |
| Deduction.RowsOf | warehouse_app/views.py:270-272 | the filtered rows are exactly the live rows whose batch belongs to the product |
| Deduction.InsertByExpiration | warehouse_app/views.py:275 | inserting a row yields a permutation of the table plus that row |
| Deduction.InsertSorted | warehouse_app/views.py:275 | insertion keeps the rows in ascending expiration order |
| Deduction.SortByExpiration | warehouse_app/views.py:275 | `order_by('product_batch__expiration_date')` returns a permutation of its input in ascending expiration order |
| Deduction.LiveBatchesOf | warehouse_app/views.py:270-275 | the candidates are exactly the product's live rows, as a permutation of the filtered table, in ascending expiration order |
| Deduction.CandidatesAgree | warehouse_app/views.py:270-275 | in a well-formed database, every candidate is the current row for its key and belongs to the product, with no key repeated |
| Deduction.Plan | warehouse_app/views.py:310-315 | every draw is a candidate with a positive requested amount, at that amount; there is some draw exactly when the selection check passes |
| Deduction.PlanComplete | warehouse_app/views.py:310-315 | every candidate with a positive requested amount is drawn, at that amount |
| Deduction.PlanAppend | warehouse_app/views.py:310 | the loop visits the candidates in order: the draws of two consecutive runs of candidates are the draws of the first followed by those of the second, and one candidate is drawn exactly when its amount is positive |
| Deduction.Accepted | warehouse_app/views.py:319-325 | the accepted draws are the longest prefix of the plan that fits each batch's balance; when shorter than the plan, the next draw exceeds its balance |
| Deduction.DrawLive | warehouse_app/views.py:339-343 | the decrement of one live row, deleted at exactly 0; its properties are stated by DrawLiveFind, DrawLiveSum and DrawFromDrawn |
| Deduction.DrawFrom | warehouse_app/views.py:310-350 | the deduction loop; its properties are stated by DrawFromFollowsPlan, DrawFromJournal, DrawFromTotal, DrawFromSum, DrawFromDrawn, DrawFromUntouched and DrawFromKeeps |
| Deduction.DrawFromFollowsPlan | warehouse_app/views.py:310-350 | the loop finishes exactly when every planned draw fits, and otherwise stops at the first draw larger than its balance |
| Deduction.DrawFromJournal | warehouse_app/views.py:328-336 | the loop appends one deduction operation per accepted draw, in visiting order, after the existing journal |
| Deduction.DrawFromTotal | warehouse_app/views.py:345 | `total_deducted` is the sum of the accepted draws |
| Deduction.DrawFromSum | warehouse_app/views.py:339-345 | the product's total live balance falls by exactly the sum of the accepted draws |
| Deduction.DrawFromDrawn | warehouse_app/views.py:339-343 | each drawn batch's row ends at old balance minus the draw, and is deleted exactly when that is 0 |
| Deduction.DrawFromUntouched | warehouse_app/views.py:314-315 | a live row not drawn from (skipped, or of another product) keeps its balance |
| Deduction.DrawFromJournalRefs | warehouse_app/views.py:328-336 | each journal row the loop appends names an existing batch and the product's catalog entry |
| Deduction.DrawFromKeeps | warehouse_app/views.py:319-343 | the loop keeps live keys distinct and foreign keys valid, and never makes a balance negative |
| Deduction.PlanSorted | warehouse_app/views.py:310 | the draws are made in ascending expiration order |
| Deduction.PlanNoDup | warehouse_app/views.py:310 | no batch is drawn from twice in one request |
| Deduction.PositiveTotal | warehouse_app/views.py:345 | a total of positive draws is positive when there is at least one draw |
| Deduction.DeductSpec | warehouse_app/views.py:263-364 | the deduction view over the database; its properties are stated by DeductRefusals, DeductOutcome, the DeductSucceeds and DeductOverdrawn lemmas, DeductWellFormed and DeductFrame |
| Deduction.Commit | warehouse_app/views.py:319-325 | what the view writes once the loop stops (also lines 353-355); its properties are stated by CommitWellFormed, DeductSucceedsStock and DeductOverdrawn |
| Deduction.DeductRefusals | warehouse_app/views.py:267-307 | a missing stock row, a blank or whitespace-only reason, and a request with no positive amount for any candidate are each refused exactly in those cases, before any change |
| Deduction.DeductOutcome | warehouse_app/views.py:310-364 | the deduction succeeds exactly when the reason is non-blank, some amount is positive and every draw fits; it refuses with insufficient balance exactly when some draw does not fit |
| Deduction.DeductSucceedsJournal | warehouse_app/views.py:328-345 | on success the answer is the positive sum of the draws and the journal gains exactly one deduction row per draw, carrying batch, product, quantity, stripped reason, document and note, in expiration order |
| Deduction.DeductSucceedsRows | warehouse_app/views.py:338-343 | on success each drawn row ends at old minus draw (deleted at exactly 0), and every other live row is unchanged |
| Deduction.DeductSucceedsStock | warehouse_app/views.py:345-355 | on success the stock row falls by `total_deducted`, which equals the fall of the product's live balances, so the gap between them is unchanged |
| Deduction.DeductOverdrawn | warehouse_app/views.py:319-325 | an over-draw is refused naming the batch, its balance and the amount; earlier draws of the request stay applied and journaled, the offending row is untouched and the stock row is unchanged |
| Deduction.DeductOverdrawnDrift | warehouse_app/views.py:319-325 | after a refused over-draw the stock is unchanged while the live balances fell by the earlier draws, so the gap widens by that sum |
| Deduction.DeductNonNegative | warehouse_app/views.py:319-343 | no deduction makes a live balance negative |
| Deduction.DeductWellFormed | warehouse_app/views.py:263-364 | every deduction outcome leaves the database well formed |
| Deduction.DeductFrame | warehouse_app/views.py:263-364 | a deduction never touches the catalog, the batches or the key counters, and only appends to the journal |
| Deduction.DrawOne | warehouse_app/views.py:328-343 | one draw appends its operation and updates or deletes the live row as DrawLive says, changing nothing else |
| Deduction.DrawAll | warehouse_app/views.py:310-350 | the in-place loop ends in the rows, journal and total of DrawFrom, and reports the offending draw exactly when DrawFrom stops on one |
| Deduction.ScanSelection | warehouse_app/views.py:293-303 | the `has_selection` scan finds a positive amount exactly when some candidate has one |
| Deduction.Settle | warehouse_app/views.py:353-355 | the stock row is lowered by the total only when the total is positive, and nothing else changes |
| Deduction.Deduct | warehouse_app/views.py:263-364 | the in-place view produces exactly the state and answer of DeductSpec and keeps the database well formed |
| Forms.TextValidators | warehouse_app/forms.py:58-70 | the length and null-character validators refuse exactly a too-long value or one holding a null character, and report each refusal that applies, and nothing else |
| Forms.CleanText | warehouse_app/forms.py:58-70 | a text field is accepted exactly when it is not required or not blank, its stripped length is within the limit and it holds no null character; the value is the stripped text; a refusal has errors; "required" alone is reported exactly for a blank required field, and otherwise the validators' refusals |
| Forms.CleanNumber | warehouse_app/forms.py:53-57 | a number field is accepted exactly when present and not below its minimum; "required" is reported exactly when it is missing, and the minimum when it is below it |
| Forms.CleanDate | warehouse_app/models.py:28 | a date field is accepted exactly when present and on a day a `date` holds; "required" is reported exactly when it is missing, and an invalid date otherwise |
| Forms.FieldErrors | warehouse_app/forms.py:52-71 | a field's error list has one entry per refusal, in order, each naming the field |
| Forms.ErrorsOf | warehouse_app/forms.py:52-71 | a field contributes no error exactly when it is clean or refused without a reason, and otherwise one entry per refusal |
| Forms.ErrorsOfReports | warehouse_app/forms.py:52-71 | every refusal of a field appears in the form's errors under that field |
| Forms.NomenclatureVerdict | warehouse_app/forms.py:5-14 | the catalog form accepts exactly when every field is clean and the code is free, and then holds those values; otherwise its errors include each refusal of the code and of the shelf life, a duplicate code when it is taken, and are not empty |
| Forms.CleanNomenclature | warehouse_app/forms.py:5-14 | `NomenclatureForm.is_valid()`; its properties are stated by CleanNomenclatureAccepts, CleanNomenclatureErrors and CleanNomenclatureCodeErrors |
| Forms.CleanNomenclatureAccepts | warehouse_app/forms.py:5-14 | the catalog form accepts exactly non-blank code (at most 50), name (at most 200) and unit (at most 20), a non-negative shelf life, and a code no other entry has; the entry is exactly those four fields, stripped |
| Forms.CleanNomenclatureErrors | warehouse_app/forms.py:5-14 | a refused catalog form has errors; a blank code and a missing shelf life are reported as required, and a taken code as a duplicate |
| Forms.CleanNomenclatureCodeErrors | warehouse_app/models.py:7 | a non-blank code longer than 50 characters is reported as too long, and one holding a null character as such |
| Forms.StoreKeepsCodesUnique | warehouse_app/models.py:7 | storing an entry whose code no other entry has keeps catalog codes unique |
| Forms.AcceptedKeepsCodesUnique | warehouse_app/models.py:7 | storing an entry the form accepted, new or over the edited one, keeps catalog codes unique |
| Forms.DeductionVerdict | warehouse_app/forms.py:52-71 | the deduction form is refused exactly when some field is, and otherwise holds the cleaned values; every refusal of the reason is reported |
| Forms.CleanDeduction | warehouse_app/forms.py:52-71 | `WarehouseDeductionForm.is_valid()`; its properties are stated by CleanDeductionAccepts and CleanDeductionBlankReason |
| Forms.CleanDeductionAccepts | warehouse_app/forms.py:52-71 | the deduction form accepts exactly a quantity of at least 0.01 and a non-blank reason, with no null character in the reason, document or note; document and note may be blank; the values are stripped |
| Forms.CleanDeductionBlankReason | warehouse_app/forms.py:58-61 | a blank reason is reported as required, and the form's blank check is the view's empty-after-strip check |
| Forms.CleanDeductionNulReason | warehouse_app/forms.py:58-61 | a reason holding a null character is refused by the form and reported under the reason, though it is not empty after stripping, so the view's own check at views.py:284 lets it through |
| Forms.CleanChoice | warehouse_app/forms.py:38 | the nomenclature choice is accepted exactly when it names a catalog entry; a missing one is reported as required, an unknown one as an invalid choice |
| Forms.BatchVerdict | warehouse_app/forms.py:22-41 | the batch form accepts exactly when every field is clean, and then holds those values |
| Forms.CleanBatch | warehouse_app/forms.py:22-41 | `ProductBatchForm.is_valid()`; its properties are stated by CleanBatchAccepts |
| Forms.CleanBatchAccepts | warehouse_app/forms.py:22-41 | the batch form accepts exactly a non-blank batch number of at most 100 without a null character, a catalog entry, a present weight, a production date a `date` holds and a present shelf life; the cleaned values are those fields |
| Forms.AddDays | warehouse_app/forms.py:46 | adding a day count to a date fails exactly when the count is beyond what a `timedelta` holds or the sum is beyond what a `date` holds; otherwise the sum is a valid date that many days later |
| Forms.ApplyBatchForm | warehouse_app/forms.py:43-46 | the unsaved batch the form builds; its properties are stated by ApplyBatchFormEffect and ExpirationIgnoresCatalog |
| Forms.ApplyBatchFormEffect | warehouse_app/forms.py:43-46 | the form builds a batch exactly when the expiration date can be computed; the built batch carries the form's fields, keeps the instance's reception date, expires exactly shelf-life days after production on a valid date, and never before production when the days are not negative |
| Forms.ExpirationIgnoresCatalog | warehouse_app/forms.py:23-26 | the expiration date depends on the form's shelf-life field only: two catalogs give the same date, production date plus that field |
| Forms.PersistBatchWellFormed | warehouse_app/forms.py:47-48 | saving a batch of a catalog entry over its row, or as a new row under a fresh key, keeps the database well formed and touches only the batch table |
| Forms.SaveBatch | warehouse_app/views.py:241 | `batch.save()` updates the row or inserts it under the next key, and returns that key |
| Forms.SaveBatchForm | warehouse_app/forms.py:43-49 | `save(commit)` returns the form-built batch, or nothing when its expiration date cannot be computed, and writes it only when commit is set and it was built |
| Views.SubmitBatch | warehouse_app/views.py:227-251 | the POST path of `productbatch_create` on a cleaned form; its properties are stated by SubmitBatchRefusals, SubmitBatchDrafts, SubmitBatchEdits and SubmitBatchWellFormed |
| Views.SubmitBatchRefusals | warehouse_app/views.py:229-241 | a missing batch to edit is a 404, an invalid form is refused with its errors, and an expiration date that cannot be computed is a server error, each exactly in that case, and none changes anything |
| Views.SubmitBatchDrafts | warehouse_app/views.py:238-241 | a new batch is stored under the next key, unreceived, with the form's fields and expiration production plus shelf-life days; no other row changes; an expiration date that cannot be computed changes nothing |
| Views.SubmitBatchEdits | warehouse_app/views.py:238-241 | editing rewrites the batch's form fields and expiration but keeps its reception date; no other row changes; an expiration date that cannot be computed changes nothing |
| Views.SubmitBatchWellFormed | warehouse_app/views.py:227-251 | drafting or editing a batch of a catalog entry keeps the database well formed |
| Views.CreateBatchWellFormed | warehouse_app/views.py:227-251 | the view keeps the database well formed on every posted form |
| Views.DraftedBatchReceivable | warehouse_app/views.py:239-240 | a drafted batch is accepted by `receive` exactly when its expiration date could be computed, and receiving it adds its weight to its product's stock |
| Views.CreateOrEditBatch | warehouse_app/views.py:227-251 | the in-place view produces the state and answer of SubmitBatch applied to CleanBatch, and keeps the database well formed |
| Views.SubmitNomenclature | warehouse_app/views.py:178-188 | the POST path of `nomenclature_add` on a cleaned form; its properties are stated by SubmitNomenclatureEffect and AddNomenclatureEffect |
| Views.SubmitNomenclatureEffect | warehouse_app/views.py:182-185 | an entry with a free code is inserted under a fresh key and the database stays well formed; a refused form changes nothing |
| Views.AddNomenclatureEffect | warehouse_app/views.py:178-188 | the view adds an entry exactly when the input is acceptable, with its stripped fields and a code no existing entry has, keeping the database well formed |
| Views.SaveNomenclature | warehouse_app/views.py:184 | `form.save()` inserts the entry under the next key |
| Views.SubmitCleanedNomenclature | warehouse_app/views.py:182-185 | storing a cleaned form whose code is free produces exactly the state and answer of SubmitNomenclature and keeps the database well formed |
| Views.AddNomenclature | warehouse_app/views.py:178-188 | the in-place view produces the state and answer of SubmitNomenclature applied to CleanNomenclature, and keeps the database well formed |

## Left out

- Floating point: `FloatField` quantities are integer hundredths, so rounding of sums such as `0.1 + 0.2` and the float-equality deletion check are not modelled beyond exact arithmetic.
- Parsing of posted strings: the views' `float()` calls, including the `float(qty_str)` outside any `try` that raises on a non-numeric amount, are not modelled. A blank or non-numeric amount is an absent key, which is skipped.
- Django's own form parsing of numbers, dates and choices: each arrives as a parsed value or None.
- Forms.CleanNumber, Forms.CleanDate and Forms.CleanChoice: since blank and unparsable input are both None, a non-blank value that does not parse is reported as `Required`, where Django reports it as invalid ("Enter a number.", "Enter a valid date.") or as an invalid choice.
- Database-dependent integer bounds: `PositiveIntegerField` gets a maximum from the database backend, which is not modelled; only its minimum of 0 is. `FloatField`'s refusal of infinite and NaN values falls with floating point.
- `max_length` counts characters of the stripped text. Database-level length checks on `Operation.reason`, `document` and `note` (200, 100 and 500) are not modelled, because the view writes them unchecked.
- GET requests, template rendering, `messages`, redirects, the debug print in the deduction view, and the text of the answers: the model returns a result datatype in their place.
- The list, search, sort, pagination and export views, the admin and URL registration, authentication and permission decorators, and the management commands: they are not part of this model.
- Creation of live-batch rows: no code in `warehouse_app` creates one. The model accepts any well-formed live table, and no operation here adds a row.
- Tie order among live batches with the same expiration date: the database leaves it unspecified, and the model keeps table order (a stable sort).
- Concurrency and transactions: each request is one sequential step.
- The validate-all-then-apply variant of the deduction is not modelled. It is characterised by `Deduction.DeductOutcome`: every draw fits exactly when the view succeeds.
- `ProductBatch.receive` is reached through `productbatch_receive`, which looks the batch up by key. Calling it on an unsaved in-memory batch is not modelled.
- The clock: `timezone.now()` is the parameter `now`, and the reception date is a timestamp compared only for presence.
- Negative stock: the deduction view lowers the stock row without checking it. The model keeps that, and proves nothing about the stock row's sign.
