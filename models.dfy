/**
 * The ledger's tables (warehouse_app/models.py) and the reception of a batch.
 *
 * Quantities are integers in hundredths of the unit (0.01 kg is 1), dates are day
 * numbers and timestamps are integers supplied by the caller (the clock is a parameter).
 */
module Models {
  import opened Wrappers

  type NomId = nat
  type BatchId = nat
  type WarehouseId = nat
  type LiveId = nat

  /** A catalog entry (Nomenclature). */
  datatype Nomenclature = Nomenclature(code: string, name: string, unit: string, shelfLifeDays: nat)

  /** A production lot (ProductBatch); `receptionDate` is None while the batch is only drafted. */
  datatype ProductBatch = ProductBatch(
    nomenclature: NomId,
    batchNumber: string,
    weight: int,
    productionDate: int,
    receptionDate: Option<int>,
    expirationDate: int)

  datatype OperationType = Reception | Deduction

  /** A journal row (Operation). Receptions leave `nomenclature`, `reason` and `document` null. */
  datatype Operation = Operation(
    batch: Option<BatchId>,
    nomenclature: Option<NomId>,
    operationType: OperationType,
    operationDate: int,
    quantity: int,
    reason: Option<string>,
    document: Option<string>,
    note: Option<string>)

  /** The stock row of one nomenclature (Warehouse). The views call its quantity
      `current_quantity`, the model `current_weight_kg`; both are `currentWeight` here. */
  datatype Warehouse = Warehouse(nomenclature: NomId, currentWeight: int)

  /** The remaining balance of a received, not yet depleted batch (LiveBatch). */
  datatype LiveBatch = LiveBatch(id: LiveId, productBatch: BatchId, currentQuantity: int)

  /** The whole database: one value per table, the live-batch table as a sequence in table
      order, and the next value of each auto-increment key. */
  datatype Tables = Tables(
    catalog: map<NomId, Nomenclature>,
    batches: map<BatchId, ProductBatch>,
    warehouses: map<WarehouseId, Warehouse>,
    live: seq<LiveBatch>,
    journal: seq<Operation>,
    nextNomId: nat,
    nextBatchId: nat,
    nextWarehouseId: nat)

  // ---------------------------------------------------------------------------
  // Integrity constraints

  /** `code` is declared unique. */
  ghost predicate UniqueCodes(catalog: map<NomId, Nomenclature>) {
    forall a, b :: a in catalog && b in catalog && catalog[a].code == catalog[b].code ==> a == b
  }

  /** `Warehouse.nomenclature` is a one-to-one field: at most one stock row per nomenclature. */
  ghost predicate OneRowPerNomenclature(ws: map<WarehouseId, Warehouse>) {
    forall a, b :: a in ws && b in ws && ws[a].nomenclature == ws[b].nomenclature ==> a == b
  }

  /** The identifiers of the rows of a live-batch table. */
  function Ids(s: seq<LiveBatch>): (r: set<LiveId>)
    ensures forall x :: x in s ==> x.id in r
  {
    if s == [] then {} else {s[0].id} + Ids(s[1..])
  }

  /** No two live-batch rows share a primary key. */
  ghost predicate NoDupIds(s: seq<LiveBatch>) {
    s == [] || (s[0].id !in Ids(s[1..]) && NoDupIds(s[1..]))
  }

  /** Every live-batch row points at an existing batch. */
  ghost predicate LiveRefsIn(batches: map<BatchId, ProductBatch>, s: seq<LiveBatch>) {
    forall x :: x in s ==> x.productBatch in batches
  }

  /** Every journal row's references are valid. */
  ghost predicate JournalRefsIn(batches: map<BatchId, ProductBatch>, catalog: map<NomId, Nomenclature>, journal: seq<Operation>) {
    forall i :: 0 <= i < |journal| ==> OperationRefsIn(batches, catalog, journal[i])
  }

  /** A journal row points at an existing batch, and at an existing catalog entry, whenever it
      names one. */
  ghost predicate OperationRefsIn(batches: map<BatchId, ProductBatch>, catalog: map<NomId, Nomenclature>, op: Operation) {
    (op.batch.Some? ==> op.batch.value in batches) && (op.nomenclature.Some? ==> op.nomenclature.value in catalog)
  }

  ghost predicate WellFormed(t: Tables) {
    && UniqueCodes(t.catalog)
    && OneRowPerNomenclature(t.warehouses)
    && NoDupIds(t.live)
    && LiveRefsIn(t.batches, t.live)
    && JournalRefsIn(t.batches, t.catalog, t.journal)
    && (forall n :: n in t.catalog ==> n < t.nextNomId)
    && (forall b :: b in t.batches ==> b < t.nextBatchId && t.batches[b].nomenclature in t.catalog)
    && (forall w :: w in t.warehouses ==> w < t.nextWarehouseId && t.warehouses[w].nomenclature in t.catalog)
  }

  // ---------------------------------------------------------------------------
  // Stock rows

  /** The query `Warehouse.objects.get(nomenclature=nom)` over the keys below `bound`. */
  function FindWarehouse(ws: map<WarehouseId, Warehouse>, nom: NomId, bound: nat): (r: Option<WarehouseId>)
    ensures r.Some? ==> r.value in ws && r.value < bound && ws[r.value].nomenclature == nom
    ensures r.None? ==> forall w :: w in ws && w < bound ==> ws[w].nomenclature != nom
    decreases bound
  {
    if bound == 0 then None
    else if bound - 1 in ws && ws[bound - 1].nomenclature == nom then Some(bound - 1)
    else FindWarehouse(ws, nom, bound - 1)
  }

  /** The stock held in the rows below `bound` for nomenclature `nom`, None when it has no row. */
  function StockIn(ws: map<WarehouseId, Warehouse>, bound: nat, nom: NomId): Option<int> {
    match FindWarehouse(ws, nom, bound)
    case Some(w) => Some(ws[w].currentWeight)
    case None => None
  }

  /** The stock of a nomenclature, None when it has no stock row. */
  function StockOf(t: Tables, nom: NomId): Option<int> {
    StockIn(t.warehouses, t.nextWarehouseId, nom)
  }

  /** With one row per nomenclature, StockIn reads that row. */
  lemma StockInRow(ws: map<WarehouseId, Warehouse>, bound: nat, nom: NomId)
    requires OneRowPerNomenclature(ws) && forall w :: w in ws ==> w < bound
    ensures StockIn(ws, bound, nom).None? <==> forall w :: w in ws ==> ws[w].nomenclature != nom
    ensures forall w :: w in ws && ws[w].nomenclature == nom ==> StockIn(ws, bound, nom) == Some(ws[w].currentWeight)
  {
  }

  /** Two stock tables that agree on the rows of `nom` report the same stock for it. */
  lemma StockInSameRows(ws1: map<WarehouseId, Warehouse>, b1: nat, ws2: map<WarehouseId, Warehouse>, b2: nat, nom: NomId)
    requires OneRowPerNomenclature(ws1) && forall w :: w in ws1 ==> w < b1
    requires OneRowPerNomenclature(ws2) && forall w :: w in ws2 ==> w < b2
    requires forall w :: w in ws1 && ws1[w].nomenclature == nom ==> w in ws2 && ws2[w] == ws1[w]
    requires forall w :: w in ws2 && ws2[w].nomenclature == nom ==> w in ws1 && ws1[w] == ws2[w]
    ensures StockIn(ws1, b1, nom) == StockIn(ws2, b2, nom)
  {
    StockInRow(ws1, b1, nom);
    StockInRow(ws2, b2, nom);
  }

  // ---------------------------------------------------------------------------
  // The live-batch table

  /** The row with primary key `id`. */
  function Find(s: seq<LiveBatch>, id: LiveId): (r: Option<LiveBatch>)
    ensures r.Some? ==> r.value in s && r.value.id == id
    ensures r.None? <==> id !in Ids(s)
  {
    if s == [] then None else if s[0].id == id then Some(s[0]) else Find(s[1..], id)
  }

  /** `lb.current_quantity = q; lb.save()`: the row with key `id` gets quantity `q`. */
  function SetQuantity(s: seq<LiveBatch>, id: LiveId, q: int): (r: seq<LiveBatch>)
    ensures |r| == |s| && Ids(r) == Ids(s)
    ensures forall k :: 0 <= k < |r| ==>
      r[k].id == s[k].id && r[k].productBatch == s[k].productBatch
      && r[k].currentQuantity == if s[k].id == id then q else s[k].currentQuantity
  {
    if s == [] then []
    else [if s[0].id == id then s[0].(currentQuantity := q) else s[0]] + SetQuantity(s[1..], id, q)
  }

  /** `lb.delete()`: the row with key `id` is removed. */
  function RemoveLive(s: seq<LiveBatch>, id: LiveId): (r: seq<LiveBatch>)
    ensures Ids(r) == Ids(s) - {id}
    ensures forall x :: x in r <==> x in s && x.id != id
  {
    if s == [] then []
    else
      var rest := RemoveLive(s[1..], id);
      if s[0].id == id then rest
      else
        assert ([s[0]] + rest)[1..] == rest;
        [s[0]] + rest
  }

  /** The live-batch row `x` belongs to nomenclature `nom` (the join `product_batch__nomenclature`). */
  predicate OfNomenclature(batches: map<BatchId, ProductBatch>, nom: NomId, x: LiveBatch) {
    x.productBatch in batches && batches[x.productBatch].nomenclature == nom
  }

  /** The total live balance of one nomenclature. */
  function LiveSum(batches: map<BatchId, ProductBatch>, s: seq<LiveBatch>, nom: NomId): int {
    if s == [] then 0
    else (if OfNomenclature(batches, nom, s[0]) then s[0].currentQuantity else 0) + LiveSum(batches, s[1..], nom)
  }

  lemma {:induction false} FindSetQuantity(s: seq<LiveBatch>, id: LiveId, q: int, j: LiveId)
    ensures Find(SetQuantity(s, id, q), j) ==
      if j != id then Find(s, j)
      else match Find(s, id) case Some(x) => Some(x.(currentQuantity := q)) case None => None
  {
    if s != [] {
      assert SetQuantity(s, id, q)[1..] == SetQuantity(s[1..], id, q);
      FindSetQuantity(s[1..], id, q, j);
    }
  }

  lemma {:induction false} FindRemoveLive(s: seq<LiveBatch>, id: LiveId, j: LiveId)
    ensures Find(RemoveLive(s, id), j) == if j == id then None else Find(s, j)
  {
    if s != [] {
      FindRemoveLive(s[1..], id, j);
      if s[0].id != id {
        assert RemoveLive(s, id)[1..] == RemoveLive(s[1..], id);
      }
    }
  }

  /** In a table without duplicate keys, a row is found by its own key. */
  lemma {:induction false} FindMember(s: seq<LiveBatch>, x: LiveBatch)
    requires NoDupIds(s) && x in s
    ensures Find(s, x.id) == Some(x)
  {
    if s[0] != x {
      assert x in s[1..];
      FindMember(s[1..], x);
    }
  }

  lemma {:induction false} NoDupSetQuantity(s: seq<LiveBatch>, id: LiveId, q: int)
    requires NoDupIds(s)
    ensures NoDupIds(SetQuantity(s, id, q))
  {
    if s != [] {
      assert SetQuantity(s, id, q)[1..] == SetQuantity(s[1..], id, q);
      NoDupSetQuantity(s[1..], id, q);
    }
  }

  lemma {:induction false} NoDupRemoveLive(s: seq<LiveBatch>, id: LiveId)
    requires NoDupIds(s)
    ensures NoDupIds(RemoveLive(s, id))
  {
    if s != [] {
      NoDupRemoveLive(s[1..], id);
      if s[0].id != id {
        assert RemoveLive(s, id)[1..] == RemoveLive(s[1..], id);
      }
    }
  }

  /** Setting the quantity of row `x` moves its nomenclature's total by the difference. */
  lemma {:induction false} LiveSumSetQuantity(batches: map<BatchId, ProductBatch>, s: seq<LiveBatch>, x: LiveBatch, q: int, nom: NomId)
    requires NoDupIds(s) && x in s
    ensures LiveSum(batches, SetQuantity(s, x.id, q), nom) ==
      LiveSum(batches, s, nom) + if OfNomenclature(batches, nom, x) then q - x.currentQuantity else 0
  {
    assert SetQuantity(s, x.id, q)[1..] == SetQuantity(s[1..], x.id, q);
    if s[0] == x {
      SetQuantityAbsent(s[1..], x.id, q);
    } else {
      assert x in s[1..];
      LiveSumSetQuantity(batches, s[1..], x, q, nom);
    }
  }

  /** Updating a key no row has changes nothing. */
  lemma {:induction false} SetQuantityAbsent(s: seq<LiveBatch>, id: LiveId, q: int)
    requires id !in Ids(s)
    ensures SetQuantity(s, id, q) == s
  {
    if s != [] {
      SetQuantityAbsent(s[1..], id, q);
    }
  }

  /** Removing row `x` takes its balance out of its nomenclature's total. */
  lemma {:induction false} LiveSumRemoveLive(batches: map<BatchId, ProductBatch>, s: seq<LiveBatch>, x: LiveBatch, nom: NomId)
    requires NoDupIds(s) && x in s
    ensures LiveSum(batches, RemoveLive(s, x.id), nom) ==
      LiveSum(batches, s, nom) - if OfNomenclature(batches, nom, x) then x.currentQuantity else 0
  {
    if s[0] == x {
      RemoveAbsent(s[1..], x.id);
    } else {
      assert x in s[1..];
      assert RemoveLive(s, x.id) == [s[0]] + RemoveLive(s[1..], x.id);
      assert (RemoveLive(s, x.id))[1..] == RemoveLive(s[1..], x.id);
      LiveSumRemoveLive(batches, s[1..], x, nom);
    }
  }

  lemma {:induction false} RemoveAbsent(s: seq<LiveBatch>, id: LiveId)
    requires id !in Ids(s)
    ensures RemoveLive(s, id) == s
  {
    if s != [] {
      RemoveAbsent(s[1..], id);
    }
  }

  /** The nomenclature totals only look at each batch's nomenclature. */
  lemma {:induction false} LiveSumSameNomenclature(b1: map<BatchId, ProductBatch>, b2: map<BatchId, ProductBatch>, s: seq<LiveBatch>, nom: NomId)
    requires forall x :: x in s ==> (x.productBatch in b1 <==> x.productBatch in b2)
    requires forall x :: x in s && x.productBatch in b1 ==> b1[x.productBatch].nomenclature == b2[x.productBatch].nomenclature
    ensures LiveSum(b1, s, nom) == LiveSum(b2, s, nom)
  {
    if s != [] {
      LiveSumSameNomenclature(b1, b2, s[1..], nom);
    }
  }

  // ---------------------------------------------------------------------------
  // Reception (ProductBatch.receive, and the view productbatch_receive that looks the batch up)

  datatype ReceiveResult = Received | AlreadyReceived(at: int) | BatchNotFound

  /** The journal row a reception appends. */
  function ReceptionOperation(id: BatchId, b: ProductBatch, note: string, now: int): Operation {
    Operation(Some(id), None, Reception, now, b.weight, None, None, Some(note))
  }

  /** The stock table after adding `amount` to nomenclature `nom` (`get_or_create` with a
      default of 0, then `+=`), and the next free stock-row key. */
  function AddToStock(ws: map<WarehouseId, Warehouse>, next: nat, nom: NomId, amount: int): (r: (map<WarehouseId, Warehouse>, nat))
  {
    match FindWarehouse(ws, nom, next)
    case Some(w) => (ws[w := ws[w].(currentWeight := ws[w].currentWeight + amount)], next)
    case None => (ws[next := Warehouse(nom, 0 + amount)], next + 1)
  }

  /** Adding to one nomenclature's stock keeps one row per nomenclature, gives it exactly
      `amount` more (from 0 when it had no row) and leaves every other nomenclature alone. */
  lemma AddToStockEffect(ws: map<WarehouseId, Warehouse>, next: nat, nom: NomId, amount: int, n: NomId)
    requires OneRowPerNomenclature(ws) && forall w :: w in ws ==> w < next
    ensures var (ws', next') := AddToStock(ws, next, nom, amount);
      && OneRowPerNomenclature(ws') && next <= next' && (forall w :: w in ws' ==> w < next')
      && (forall w :: w in ws' ==> ws'[w].nomenclature == nom || (w in ws && ws'[w] == ws[w]))
      && StockIn(ws', next', n) == if n == nom then Some(StockIn(ws, next, nom).GetOr(0) + amount) else StockIn(ws, next, n)
  {
    var (ws', next') := AddToStock(ws, next, nom, amount);
    StockInRow(ws, next, nom);
    match FindWarehouse(ws, nom, next)
    case Some(w) => {
      assert OneRowPerNomenclature(ws');
      StockInRow(ws', next', nom);
      assert w in ws' && ws'[w].nomenclature == nom;
      if n != nom {
        StockInSameRows(ws, next, ws', next', n);
      }
    }
    case None => {
      assert OneRowPerNomenclature(ws');
      StockInRow(ws', next', nom);
      assert next in ws' && ws'[next].nomenclature == nom;
      if n != nom {
        StockInSameRows(ws, next, ws', next', n);
      }
    }
  }

  /** The database and the result after receiving batch `id` with `note` at time `now`. */
  function ReceiveSpec(t: Tables, id: BatchId, note: string, now: int): (r: (Tables, ReceiveResult))
    requires WellFormed(t)
    ensures WellFormed(r.0)
    ensures r.1 == BatchNotFound <==> id !in t.batches
    ensures r.1.AlreadyReceived? <==> id in t.batches && t.batches[id].receptionDate.Some?
    ensures r.1.AlreadyReceived? ==> Some(r.1.at) == t.batches[id].receptionDate
    ensures r.1 != Received ==> r.0 == t
    ensures r.1 == Received ==>
      && r.0.journal == t.journal + [ReceptionOperation(id, t.batches[id], note, now)]
      && r.0.batches == t.batches[id := t.batches[id].(receptionDate := Some(now))]
      && r.0.catalog == t.catalog && r.0.live == t.live
      && r.0.nextNomId == t.nextNomId && r.0.nextBatchId == t.nextBatchId
      && (r.0.warehouses, r.0.nextWarehouseId) ==
         AddToStock(t.warehouses, t.nextWarehouseId, t.batches[id].nomenclature, t.batches[id].weight)
  {
    if id !in t.batches then (t, BatchNotFound)
    else
      var b := t.batches[id];
      if b.receptionDate.Some? then (t, AlreadyReceived(b.receptionDate.value))
      else
        var (ws, next) := AddToStock(t.warehouses, t.nextWarehouseId, b.nomenclature, b.weight);
        AddToStockEffect(t.warehouses, t.nextWarehouseId, b.nomenclature, b.weight, b.nomenclature);
        var t' := t.(
          journal := t.journal + [ReceptionOperation(id, b, note, now)],
          warehouses := ws,
          nextWarehouseId := next,
          batches := t.batches[id := b.(receptionDate := Some(now))]);
        assert LiveRefsIn(t'.batches, t'.live);
        (t', Received)
  }

  /** Receiving adds exactly the batch weight to its nomenclature's stock, starting from 0
      when it had no stock row, and leaves every other nomenclature's stock as it was. */
  lemma {:induction false} ReceiveStock(t: Tables, id: BatchId, note: string, now: int, n: NomId)
    requires WellFormed(t) && id in t.batches && t.batches[id].receptionDate.None?
    ensures var t' := ReceiveSpec(t, id, note, now).0;
      var nom := t.batches[id].nomenclature;
      StockOf(t', n) == if n == nom then Some(StockOf(t, nom).GetOr(0) + t.batches[id].weight) else StockOf(t, n)
  {
    var t' := ReceiveSpec(t, id, note, now).0;
    var b := t.batches[id];
    var (ws, next) := AddToStock(t.warehouses, t.nextWarehouseId, b.nomenclature, b.weight);
    assert t'.warehouses == ws && t'.nextWarehouseId == next;
    AddToStockEffect(t.warehouses, t.nextWarehouseId, b.nomenclature, b.weight, n);
    assert StockOf(t', n) == StockIn(ws, next, n);
  }

  /** After a successful reception the batch is marked received, so a second reception of
      it changes nothing: receiving twice is receiving once. */
  lemma ReceiveIdempotent(t: Tables, id: BatchId, note1: string, now1: int, note2: string, now2: int)
    requires WellFormed(t)
    ensures var (t1, r1) := ReceiveSpec(t, id, note1, now1);
      var (t2, r2) := ReceiveSpec(t1, id, note2, now2);
      t2 == t1 && r2 != Received
      && (r1 == Received ==> r2 == AlreadyReceived(now1))
  {
  }

  /** Reception only appends to the journal: every earlier operation is kept, in place. */
  lemma ReceiveAppendsOnly(t: Tables, id: BatchId, note: string, now: int)
    requires WellFormed(t)
    ensures var t' := ReceiveSpec(t, id, note, now).0;
      |t'.journal| == |t.journal| + (if ReceiveSpec(t, id, note, now).1 == Received then 1 else 0)
      && t'.journal[..|t.journal|] == t.journal
  {
  }

  /** The gap between a nomenclature's stock and its total live balance. */
  function Drift(t: Tables, nom: NomId): int {
    StockOf(t, nom).GetOr(0) - LiveSum(t.batches, t.live, nom)
  }

  /** Reception creates no live balance, so it widens the gap between stock and live
      balances by the batch weight: "stock equals the sum of live balances" is not kept. */
  lemma ReceiveWidensDrift(t: Tables, id: BatchId, note: string, now: int)
    requires WellFormed(t) && id in t.batches && t.batches[id].receptionDate.None?
    ensures var t' := ReceiveSpec(t, id, note, now).0;
      var nom := t.batches[id].nomenclature;
      Drift(t', nom) == Drift(t, nom) + t.batches[id].weight
      && forall n :: n != nom ==> Drift(t', n) == Drift(t, n)
  {
    var t' := ReceiveSpec(t, id, note, now).0;
    forall n ensures LiveSum(t'.batches, t'.live, n) == LiveSum(t.batches, t.live, n) {
      LiveSumSameNomenclature(t'.batches, t.batches, t.live, n);
    }
    ReceiveStock(t, id, note, now, t.batches[id].nomenclature);
    forall n | n != t.batches[id].nomenclature ensures Drift(t', n) == Drift(t, n) {
      ReceiveStock(t, id, note, now, n);
    }
  }

  // ---------------------------------------------------------------------------
  // The database as mutable state

  /** The database whose rows the views and `receive` update in place. */
  class Store {
    var catalog: map<NomId, Nomenclature>
    var batches: map<BatchId, ProductBatch>
    var warehouses: map<WarehouseId, Warehouse>
    var live: seq<LiveBatch>
    var journal: seq<Operation>
    var nextNomId: nat
    var nextBatchId: nat
    var nextWarehouseId: nat

    /** The current contents of every table. */
    function Snapshot(): Tables
      reads this
    {
      Tables(catalog, batches, warehouses, live, journal, nextNomId, nextBatchId, nextWarehouseId)
    }

    ghost predicate Valid()
      reads this
    {
      WellFormed(Snapshot())
    }

    /** Opens a database in any well-formed state (live-batch rows are created by code
        outside this model). */
    constructor (t: Tables)
      requires WellFormed(t)
      ensures Valid() && Snapshot() == t
    {
      catalog, batches, warehouses, live, journal := t.catalog, t.batches, t.warehouses, t.live, t.journal;
      nextNomId, nextBatchId, nextWarehouseId := t.nextNomId, t.nextBatchId, t.nextWarehouseId;
    }

    /** `Warehouse.objects.get_or_create(nomenclature=nom, defaults={current_weight: 0})`,
        then `+= amount` and `save()`. */
    method AddStock(nom: NomId, amount: int)
      modifies this
      ensures (warehouses, nextWarehouseId) == AddToStock(old(warehouses), old(nextWarehouseId), nom, amount)
      ensures catalog == old(catalog) && batches == old(batches) && live == old(live) && journal == old(journal)
      ensures nextNomId == old(nextNomId) && nextBatchId == old(nextBatchId)
    {
      ghost var ws0, next0 := warehouses, nextWarehouseId;
      var found := FindWarehouse(warehouses, nom, nextWarehouseId);
      var w: WarehouseId;
      if found.Some? {
        w := found.value;
      } else {
        w := nextWarehouseId;
        warehouses := warehouses[w := Warehouse(nom, 0)];
        nextWarehouseId := nextWarehouseId + 1;
      }
      warehouses := warehouses[w := warehouses[w].(currentWeight := warehouses[w].currentWeight + amount)];
      if found.None? {
        assert warehouses == ws0[next0 := Warehouse(nom, 0 + amount)];
      }
    }

    /** `ProductBatch.receive(note)` of batch `id`, looked up as `productbatch_receive` does. */
    method Receive(id: BatchId, note: string, now: int) returns (r: ReceiveResult)
      requires Valid()
      modifies this
      ensures Valid()
      ensures (Snapshot(), r) == ReceiveSpec(old(Snapshot()), id, note, now)
    {
      ghost var t0 := Snapshot();
      if id !in batches {
        return BatchNotFound;
      }
      var batch := batches[id];
      if batch.receptionDate.Some? {
        return AlreadyReceived(batch.receptionDate.value);
      }
      journal := journal + [ReceptionOperation(id, batch, note, now)];
      AddStock(batch.nomenclature, batch.weight);
      batches := batches[id := batch.(receptionDate := Some(now))];
      r := Received;
      assert Snapshot() == ReceiveSpec(t0, id, note, now).0;
    }
  }
}
