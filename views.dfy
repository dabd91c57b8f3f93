/**
 * The two catalog and drafting views (warehouse_app/views.py): `productbatch_create`, which
 * drafts a new batch or edits an existing one, and `nomenclature_add`, which adds a catalog
 * entry. Only the POST path is modelled; the posted form arrives already parsed.
 */
module Views {
  import opened Wrappers
  import opened Text
  import opened Models
  import opened Forms

  // ---------------------------------------------------------------------------
  // productbatch_create

  /** What the view answers: a redirect after saving, the form again with its errors, a 404
      for a missing batch, or the server error of an expiration date Python cannot compute. */
  datatype BatchFormResult = BatchSaved(id: BatchId) | BatchInvalid(errors: seq<FieldError>) | BatchMissing | ExpirationOverflow

  datatype BatchFormOutcome = BatchFormOutcome(tables: Tables, result: BatchFormResult)

  /** `if batch_id:` — a present, non-zero key edits that batch; no key, or key 0, drafts a
      new one. */
  predicate Editing(batchId: Option<nat>) {
    batchId.Some? && batchId.value != 0
  }

  /** The expiration date of a cleaned form can be computed. */
  predicate ExpirationComputable(c: CleanedBatch) {
    AddDays(c.productionDate, c.shelfLifeDays).Some?
  }

  /** The POST path of `productbatch_create(batch_id)` once the form has been cleaned: a
      missing batch to edit is a 404; an invalid form changes nothing; otherwise the form
      builds the batch without saving it (an overflowing expiration date raises, and nothing
      is saved), a new batch has its reception date cleared, and the batch is saved. */
  function SubmitBatch(t: Tables, batchId: Option<nat>, form: Result<CleanedBatch, seq<FieldError>>): BatchFormOutcome {
    if Editing(batchId) && batchId.value !in t.batches then BatchFormOutcome(t, BatchMissing)
    else if form.Failure? then BatchFormOutcome(t, BatchInvalid(form.error))
    else
      var key := if Editing(batchId) then Some(batchId.value) else None;
      var instance := if Editing(batchId) then t.batches[batchId.value] else NewBatch;
      match ApplyBatchForm(instance, form.value)
      case None => BatchFormOutcome(t, ExpirationOverflow)
      case Some(b) =>
        var saved := if key.None? then b.(receptionDate := None) else b;
        BatchFormOutcome(PersistBatch(t, key, saved), BatchSaved(if key.Some? then key.value else t.nextBatchId))
  }

  /** `productbatch_create(batch_id)` on a posted form. */
  function CreateBatchSpec(t: Tables, batchId: Option<nat>, input: BatchInput): BatchFormOutcome {
    SubmitBatch(t, batchId, CleanBatch(t.catalog, input))
  }

  /** A refused request (a missing batch, an invalid form or an overflowing expiration date)
      changes nothing; the form is refused exactly when it does not clean, and the server
      error happens exactly when a clean form's expiration date cannot be computed. */
  lemma SubmitBatchRefusals(t: Tables, batchId: Option<nat>, form: Result<CleanedBatch, seq<FieldError>>)
    ensures var o := SubmitBatch(t, batchId, form);
      && (o.result.BatchMissing? <==> Editing(batchId) && batchId.value !in t.batches)
      && (o.result.BatchInvalid? <==> !(Editing(batchId) && batchId.value !in t.batches) && form.Failure?)
      && (o.result.BatchInvalid? ==> o.result.errors == form.error)
      && (o.result.ExpirationOverflow? <==>
            !(Editing(batchId) && batchId.value !in t.batches) && form.Success? && !ExpirationComputable(form.value))
      && (!o.result.BatchSaved? ==> o.tables == t)
  {
    if !(Editing(batchId) && batchId.value !in t.batches) && form.Success? {
      var instance := if Editing(batchId) then t.batches[batchId.value] else NewBatch;
      ApplyBatchFormEffect(instance, form.value);
    }
  }

  /** Drafting adds one batch under the next key: unreceived, made of the cleaned form fields,
      expiring the form's shelf-life days after production. No other row of any table
      changes. An expiration date that cannot be computed changes nothing. */
  lemma SubmitBatchDrafts(t: Tables, batchId: Option<nat>, c: CleanedBatch)
    requires !Editing(batchId)
    ensures var o := SubmitBatch(t, batchId, Success(c));
      && (!ExpirationComputable(c) ==> o == BatchFormOutcome(t, ExpirationOverflow))
      && (ExpirationComputable(c) ==>
            && o.result == BatchSaved(t.nextBatchId)
            && o.tables.batches.Keys == t.batches.Keys + {t.nextBatchId}
            && o.tables.nextBatchId == t.nextBatchId + 1
            && (forall k :: k in t.batches && k != t.nextBatchId ==> o.tables.batches[k] == t.batches[k])
            && o.tables.batches[t.nextBatchId] == ProductBatch(
                 c.nomenclature, c.batchNumber, c.weight, c.productionDate, None, c.productionDate + c.shelfLifeDays)
            && o.tables.catalog == t.catalog && o.tables.warehouses == t.warehouses
            && o.tables.live == t.live && o.tables.journal == t.journal)
  {
    ApplyBatchFormEffect(NewBatch, c);
  }

  /** Editing rewrites the batch's form fields and expiration date but keeps its reception
      date: a received batch stays received, a drafted one stays drafted. An expiration date
      that cannot be computed changes nothing. */
  lemma SubmitBatchEdits(t: Tables, k: BatchId, c: CleanedBatch)
    requires k != 0 && k in t.batches
    ensures var o := SubmitBatch(t, Some(k), Success(c));
      && (!ExpirationComputable(c) ==> o == BatchFormOutcome(t, ExpirationOverflow))
      && (ExpirationComputable(c) ==>
            && o.result == BatchSaved(k)
            && o.tables.batches.Keys == t.batches.Keys && o.tables.nextBatchId == t.nextBatchId
            && (forall j :: j in t.batches && j != k ==> o.tables.batches[j] == t.batches[j])
            && o.tables.batches[k] == ProductBatch(
                 c.nomenclature, c.batchNumber, c.weight, c.productionDate, t.batches[k].receptionDate,
                 c.productionDate + c.shelfLifeDays)
            && o.tables.catalog == t.catalog && o.tables.warehouses == t.warehouses
            && o.tables.live == t.live && o.tables.journal == t.journal)
  {
    ApplyBatchFormEffect(t.batches[k], c);
  }

  /** Drafting or editing a batch of a catalog entry keeps the database well formed. */
  lemma SubmitBatchWellFormed(t: Tables, batchId: Option<nat>, form: Result<CleanedBatch, seq<FieldError>>)
    requires WellFormed(t)
    requires form.Success? ==> form.value.nomenclature in t.catalog
    ensures WellFormed(SubmitBatch(t, batchId, form).tables)
  {
    if !(Editing(batchId) && batchId.value !in t.batches) && form.Success? {
      var key := if Editing(batchId) then Some(batchId.value) else None;
      var instance := if Editing(batchId) then t.batches[batchId.value] else NewBatch;
      ApplyBatchFormEffect(instance, form.value);
      var b := ApplyBatchForm(instance, form.value);
      if b.Some? {
        var saved := if key.None? then b.value.(receptionDate := None) else b.value;
        PersistBatchWellFormed(t, key, saved);
      }
    }
  }

  /** The view keeps the database well formed, since the form only accepts a catalog entry. */
  lemma CreateBatchWellFormed(t: Tables, batchId: Option<nat>, input: BatchInput)
    requires WellFormed(t)
    ensures WellFormed(CreateBatchSpec(t, batchId, input).tables)
  {
    var form := CleanBatch(t.catalog, input);
    CleanBatchAccepts(t.catalog, input);
    SubmitBatchWellFormed(t, batchId, form);
  }

  /** A drafted batch can be received: the view leaves it unreceived, so `receive` accepts it
      and adds its weight to the stock of its nomenclature. */
  lemma DraftedBatchReceivable(t: Tables, batchId: Option<nat>, c: CleanedBatch, note: string, now: int)
    requires WellFormed(t) && !Editing(batchId) && c.nomenclature in t.catalog
    ensures var t1 := SubmitBatch(t, batchId, Success(c)).tables;
      var (t2, r) := ReceiveSpec(t1, t.nextBatchId, note, now);
      (ExpirationComputable(c) <==> r == Received)
      && (r == Received ==>
            && StockOf(t2, c.nomenclature).Some?
            && StockOf(t2, c.nomenclature).value == StockOf(t1, c.nomenclature).GetOr(0) + c.weight)
  {
    SubmitBatchDrafts(t, batchId, c);
    SubmitBatchWellFormed(t, batchId, Success(c));
    var t1 := SubmitBatch(t, batchId, Success(c)).tables;
    if ExpirationComputable(c) {
      ReceiveStock(t1, t.nextBatchId, note, now, c.nomenclature);
    } else {
      assert t1 == t && t.nextBatchId !in t.batches;
    }
  }

  /** `productbatch_create` on POST, over the database. */
  method CreateOrEditBatch(store: Store, batchId: Option<nat>, input: BatchInput) returns (r: BatchFormResult)
    requires store.Valid()
    modifies store
    ensures store.Valid()
    ensures BatchFormOutcome(store.Snapshot(), r) == SubmitBatch(old(store.Snapshot()), batchId, CleanBatch(old(store.catalog), input))
  {
    ghost var t0 := store.Snapshot();
    CreateBatchWellFormed(t0, batchId, input);
    var key: Option<BatchId> := None;
    var instance := NewBatch;
    if batchId.Some? && batchId.value != 0 {
      if batchId.value !in store.batches {
        return BatchMissing;
      }
      key := Some(batchId.value);
      instance := store.batches[batchId.value];
    }
    var form := CleanBatch(store.catalog, input);
    if form.Failure? {
      return BatchInvalid(form.error);
    }
    var built := SaveBatchForm(store, key, instance, form.value, false);
    if built.None? {
      return ExpirationOverflow;
    }
    var batch := built.value;
    if key.None? {
      batch := batch.(receptionDate := None);
    }
    var id := SaveBatch(store, key, batch);
    r := BatchSaved(id);
  }

  // ---------------------------------------------------------------------------
  // nomenclature_add

  datatype NomenclatureResult = NomenclatureAdded(id: NomId) | NomenclatureInvalid(errors: seq<FieldError>)

  datatype NomenclatureOutcome = NomenclatureOutcome(tables: Tables, result: NomenclatureResult)

  /** The POST path of `nomenclature_add` once the form has been cleaned: a valid form
      inserts the cleaned entry under the next key; an invalid one changes nothing. */
  function SubmitNomenclature(t: Tables, form: Result<Nomenclature, seq<FieldError>>): NomenclatureOutcome {
    if form.Failure? then NomenclatureOutcome(t, NomenclatureInvalid(form.error))
    else NomenclatureOutcome(t.(catalog := t.catalog[t.nextNomId := form.value], nextNomId := t.nextNomId + 1),
                             NomenclatureAdded(t.nextNomId))
  }

  /** `nomenclature_add` on a posted form. */
  function AddNomenclatureSpec(t: Tables, input: NomenclatureInput): NomenclatureOutcome {
    SubmitNomenclature(t, CleanNomenclature(t.catalog, None, input))
  }

  /** An entry whose code no entry has is inserted under a fresh key, keeping the database well
      formed; only the catalog changes. A refused form changes nothing. */
  lemma SubmitNomenclatureEffect(t: Tables, form: Result<Nomenclature, seq<FieldError>>)
    requires WellFormed(t)
    requires form.Success? ==> !CodeTaken(t.catalog, None, form.value.code)
    ensures var o := SubmitNomenclature(t, form);
      && WellFormed(o.tables)
      && (form.Failure? ==> o == NomenclatureOutcome(t, NomenclatureInvalid(form.error)))
      && (form.Success? ==>
            && o.result == NomenclatureAdded(t.nextNomId) && t.nextNomId !in t.catalog
            && o.tables == t.(catalog := t.catalog[t.nextNomId := form.value], nextNomId := t.nextNomId + 1))
  {
    if form.Success? {
      StoreKeepsCodesUnique(t.catalog, None, t.nextNomId, form.value);
      var t' := SubmitNomenclature(t, form).tables;
      assert forall b :: b in t'.batches ==> t'.batches[b].nomenclature in t'.catalog;
      assert forall w :: w in t'.warehouses ==> t'.warehouses[w].nomenclature in t'.catalog;
    }
  }

  /** The view adds an entry exactly when the input is acceptable, with its stripped fields and
      a code no existing entry has, and keeps the database well formed. */
  lemma AddNomenclatureEffect(t: Tables, input: NomenclatureInput)
    requires WellFormed(t)
    ensures var o := AddNomenclatureSpec(t, input);
      && WellFormed(o.tables)
      && (o.result.NomenclatureAdded? <==> NomenclatureAcceptable(t.catalog, None, input))
      && (o.result.NomenclatureInvalid? ==> o.tables == t)
      && (o.result.NomenclatureAdded? ==>
            && o.result.id == t.nextNomId && t.nextNomId !in t.catalog
            && o.tables.catalog == t.catalog[t.nextNomId := Nomenclature(Strip(input.code), Strip(input.name),
                                                                          Strip(input.unit), input.shelfLifeDays.value)]
            && (forall n :: n in t.catalog ==> t.catalog[n].code != Strip(input.code)))
  {
    var form := CleanNomenclature(t.catalog, None, input);
    CleanNomenclatureAccepts(t.catalog, None, input);
    SubmitNomenclatureEffect(t, form);
  }

  /** `form.save()` of a new catalog entry: an insert under the next key. */
  method SaveNomenclature(store: Store, e: Nomenclature) returns (id: NomId)
    modifies store
    ensures id == old(store.nextNomId)
    ensures store.Snapshot() == old(store.Snapshot()).(catalog := old(store.catalog)[id := e], nextNomId := id + 1)
  {
    id := store.nextNomId;
    store.catalog := store.catalog[id := e];
    store.nextNomId := id + 1;
  }

  /** The POST path of `nomenclature_add` once the form has been cleaned, over the
      database. */
  method SubmitCleanedNomenclature(store: Store, form: Result<Nomenclature, seq<FieldError>>) returns (r: NomenclatureResult)
    requires store.Valid()
    requires form.Success? ==> !CodeTaken(store.catalog, None, form.value.code)
    modifies store
    ensures store.Valid()
    ensures NomenclatureOutcome(store.Snapshot(), r) == SubmitNomenclature(old(store.Snapshot()), form)
  {
    ghost var t0 := store.Snapshot();
    SubmitNomenclatureEffect(t0, form);
    if form.Failure? {
      return NomenclatureInvalid(form.error);
    }
    var id := SaveNomenclature(store, form.value);
    r := NomenclatureAdded(id);
    assert store.Snapshot() == SubmitNomenclature(t0, form).tables;
  }

  /** `nomenclature_add` on POST, over the database. */
  method AddNomenclature(store: Store, input: NomenclatureInput) returns (r: NomenclatureResult)
    requires store.Valid()
    modifies store
    ensures store.Valid()
    ensures NomenclatureOutcome(store.Snapshot(), r) == SubmitNomenclature(old(store.Snapshot()), CleanNomenclature(old(store.catalog), None, input))
  {
    var form := CleanNomenclature(store.catalog, None, input);
    CleanedCodeFree(store.catalog, None, input, form);
    r := SubmitCleanedNomenclature(store, form);
  }
}
