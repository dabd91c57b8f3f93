/**
 * The deduction view `warehouse_deduction` (warehouse_app/views.py:263-364): the operator
 * posts an amount per live batch of one stock row's nomenclature, and every positive amount
 * is drawn from its batch, in ascending expiration order, with one journal row per draw.
 *
 * The posted form arrives already parsed: `amounts` maps a live-batch key to its amount,
 * and a key that is absent stands for a blank or missing field.
 */
module Deduction {
  import opened Wrappers
  import opened Text
  import opened Models

  // ---------------------------------------------------------------------------
  // The candidate batches

  /** The expiration date of the batch behind a live-batch row. */
  function Expiration(batches: map<BatchId, ProductBatch>, x: LiveBatch): int {
    if x.productBatch in batches then batches[x.productBatch].expirationDate else 0
  }

  ghost predicate SortedByExpiration(batches: map<BatchId, ProductBatch>, s: seq<LiveBatch>) {
    forall i, j :: 0 <= i < j < |s| ==> Expiration(batches, s[i]) <= Expiration(batches, s[j])
  }

  /** The filter `product_batch__nomenclature=nom`, in table order. */
  function RowsOf(batches: map<BatchId, ProductBatch>, nom: NomId, s: seq<LiveBatch>): (r: seq<LiveBatch>)
    ensures forall x :: x in r <==> x in s && OfNomenclature(batches, nom, x)
    ensures Ids(r) <= Ids(s)
    ensures NoDupIds(s) ==> NoDupIds(r)
  {
    if s == [] then []
    else
      var rest := RowsOf(batches, nom, s[1..]);
      if OfNomenclature(batches, nom, s[0]) then
        assert ([s[0]] + rest)[1..] == rest;
        [s[0]] + rest
      else rest
  }

  /** Inserts `x` into an expiration-ordered sequence, after the rows that expire earlier. */
  function InsertByExpiration(batches: map<BatchId, ProductBatch>, x: LiveBatch, s: seq<LiveBatch>): (r: seq<LiveBatch>)
    ensures multiset(r) == multiset(s) + multiset{x}
    ensures Ids(r) == Ids(s) + {x.id}
    ensures forall y :: y in r <==> y == x || y in s
  {
    if s == [] || Expiration(batches, x) <= Expiration(batches, s[0]) then
      assert ([x] + s)[1..] == s;
      [x] + s
    else
      var rest := InsertByExpiration(batches, x, s[1..]);
      assert ([s[0]] + rest)[1..] == rest;
      assert s == [s[0]] + s[1..];
      [s[0]] + rest
  }

  /** In an expiration-ordered sequence, no later row expires before the first. */
  lemma FirstExpiresFirst(batches: map<BatchId, ProductBatch>, s: seq<LiveBatch>)
    requires s != [] && SortedByExpiration(batches, s)
    ensures forall y :: y in s[1..] ==> Expiration(batches, s[0]) <= Expiration(batches, y)
  {
    forall y | y in s[1..] ensures Expiration(batches, s[0]) <= Expiration(batches, y) {
      var k :| 0 <= k < |s[1..]| && s[1..][k] == y;
      assert s[k + 1] == y;
    }
  }

  /** Dropping the first row keeps a sequence ordered. */
  lemma TailSorted(batches: map<BatchId, ProductBatch>, s: seq<LiveBatch>)
    requires s != [] && SortedByExpiration(batches, s)
    ensures SortedByExpiration(batches, s[1..])
  {
    var tail := s[1..];
    forall i, j | 0 <= i < j < |tail| ensures Expiration(batches, tail[i]) <= Expiration(batches, tail[j]) {
      assert tail[i] == s[i + 1] && tail[j] == s[j + 1];
    }
  }

  /** A row that expires no later than every row of an ordered sequence can lead it. */
  lemma ConsSorted(batches: map<BatchId, ProductBatch>, h: LiveBatch, rest: seq<LiveBatch>)
    requires SortedByExpiration(batches, rest)
    requires forall y :: y in rest ==> Expiration(batches, h) <= Expiration(batches, y)
    ensures SortedByExpiration(batches, [h] + rest)
  {
    var r := [h] + rest;
    forall i, j | 0 <= i < j < |r| ensures Expiration(batches, r[i]) <= Expiration(batches, r[j]) {
      assert r[j] == rest[j - 1];
      if i > 0 {
        assert r[i] == rest[i - 1];
      }
    }
  }

  lemma {:induction false} InsertSorted(batches: map<BatchId, ProductBatch>, x: LiveBatch, s: seq<LiveBatch>)
    requires SortedByExpiration(batches, s)
    ensures SortedByExpiration(batches, InsertByExpiration(batches, x, s))
  {
    if s == [] || Expiration(batches, x) <= Expiration(batches, s[0]) {
      if s != [] {
        FirstExpiresFirst(batches, s);
        assert s == [s[0]] + s[1..];
      }
      ConsSorted(batches, x, s);
    } else {
      var tail := s[1..];
      TailSorted(batches, s);
      InsertSorted(batches, x, tail);
      FirstExpiresFirst(batches, s);
      ConsSorted(batches, s[0], InsertByExpiration(batches, x, tail));
    }
  }

  lemma {:induction false} InsertNoDup(batches: map<BatchId, ProductBatch>, x: LiveBatch, s: seq<LiveBatch>)
    ensures NoDupIds(s) && x.id !in Ids(s) ==> NoDupIds(InsertByExpiration(batches, x, s))
  {
    if NoDupIds(s) && x.id !in Ids(s) && s != [] && Expiration(batches, x) > Expiration(batches, s[0]) {
      InsertNoDup(batches, x, s[1..]);
      var rest := InsertByExpiration(batches, x, s[1..]);
      assert ([s[0]] + rest)[1..] == rest;
    } else {
      assert ([x] + s)[1..] == s;
    }
  }

  /** Insertion sort by expiration date; rows with equal dates keep their table order. */
  function SortByExpiration(batches: map<BatchId, ProductBatch>, s: seq<LiveBatch>): (r: seq<LiveBatch>)
    ensures multiset(r) == multiset(s)
    ensures Ids(r) == Ids(s)
    ensures forall y :: y in r <==> y in s
    ensures SortedByExpiration(batches, r)
    ensures NoDupIds(s) ==> NoDupIds(r)
  {
    if s == [] then []
    else
      var rest := SortByExpiration(batches, s[1..]);
      InsertSorted(batches, s[0], rest);
      InsertNoDup(batches, s[0], rest);
      assert s == [s[0]] + s[1..];
      InsertByExpiration(batches, s[0], rest)
  }

  /** The queryset of the view: the live batches whose batch belongs to `nom`, ordered by
      the batch's expiration date. */
  function LiveBatchesOf(t: Tables, nom: NomId): (r: seq<LiveBatch>)
    ensures forall x :: x in r <==> x in t.live && OfNomenclature(t.batches, nom, x)
    ensures multiset(r) == multiset(RowsOf(t.batches, nom, t.live))
    ensures SortedByExpiration(t.batches, r)
    ensures NoDupIds(t.live) ==> NoDupIds(r)
  {
    SortByExpiration(t.batches, RowsOf(t.batches, nom, t.live))
  }

  /** Every candidate is the current row of its key, belongs to `nom`, and appears once. */
  lemma CandidatesAgree(t: Tables, nom: NomId)
    requires WellFormed(t)
    ensures NoDupIds(LiveBatchesOf(t, nom))
    ensures forall x :: x in LiveBatchesOf(t, nom) ==>
      Find(t.live, x.id) == Some(x) && OfNomenclature(t.batches, nom, x)
  {
    forall x | x in LiveBatchesOf(t, nom) ensures Find(t.live, x.id) == Some(x) {
      FindMember(t.live, x);
    }
  }

  // ---------------------------------------------------------------------------
  // The requested draws, as a plan

  /** The amount posted for `x` is present and positive (blank, missing, zero and negative
      amounts are skipped). */
  predicate Selected(amounts: map<LiveId, int>, x: LiveBatch) {
    x.id in amounts && amounts[x.id] > 0
  }

  /** Some candidate has a positive amount: the `has_selection` check. */
  predicate HasSelection(amounts: map<LiveId, int>, cands: seq<LiveBatch>) {
    exists k :: 0 <= k < |cands| && Selected(amounts, cands[k])
  }

  /** The draws asked for, in visiting order: each selected candidate with its amount. */
  function Plan(amounts: map<LiveId, int>, cands: seq<LiveBatch>): (r: seq<(LiveBatch, int)>)
    ensures forall e :: e in r ==> e.0 in cands && Selected(amounts, e.0) && e.1 == amounts[e.0.id]
    ensures HasSelection(amounts, cands) <==> r != []
  {
    if cands == [] then []
    else
      var rest := Plan(amounts, cands[1..]);
      assert forall k :: 0 < k < |cands| ==> cands[k] == cands[1..][k - 1];
      if Selected(amounts, cands[0]) then
        assert ([(cands[0], amounts[cands[0].id])] + rest)[1..] == rest;
        [(cands[0], amounts[cands[0].id])] + rest
      else rest
  }

  /** Every selected candidate is drawn by the plan, with its amount. */
  lemma {:induction false} PlanComplete(amounts: map<LiveId, int>, cands: seq<LiveBatch>)
    ensures forall x :: x in cands && Selected(amounts, x) ==> (x, amounts[x.id]) in Plan(amounts, cands)
  {
    if cands != [] {
      PlanComplete(amounts, cands[1..]);
      forall x | x in cands && Selected(amounts, x) ensures (x, amounts[x.id]) in Plan(amounts, cands) {
        if x != cands[0] { assert x in cands[1..]; }
      }
    }
  }

  /** The plan keeps candidate order: planning two runs of candidates one after the other is
      planning each and joining the draws. With the one-candidate case this determines the
      plan: one draw per selected candidate, in visiting order. */
  lemma {:induction false} PlanAppend(amounts: map<LiveId, int>, c1: seq<LiveBatch>, c2: seq<LiveBatch>)
    ensures Plan(amounts, c1 + c2) == Plan(amounts, c1) + Plan(amounts, c2)
    ensures |c1| == 1 ==> Plan(amounts, c1) == if Selected(amounts, c1[0]) then [(c1[0], amounts[c1[0].id])] else []
  {
    if c1 != [] {
      assert (c1 + c2)[1..] == c1[1..] + c2;
      PlanAppend(amounts, c1[1..], c2);
      if |c1| == 1 { assert c1[1..] == []; }
    } else {
      assert c1 + c2 == c2;
    }
  }

  /** The leading draws of a plan that fit the balance of their batch. */
  function Accepted(plan: seq<(LiveBatch, int)>): (r: seq<(LiveBatch, int)>)
    ensures |r| <= |plan| && r == plan[..|r|]
    ensures forall e :: e in r ==> e.1 <= e.0.currentQuantity
    ensures |r| < |plan| ==> plan[|r|].1 > plan[|r|].0.currentQuantity
  {
    if plan == [] || plan[0].1 > plan[0].0.currentQuantity then []
    else
      var rest := Accepted(plan[1..]);
      assert plan == [plan[0]] + plan[1..];
      assert ([plan[0]] + rest)[1..] == rest;
      [plan[0]] + rest
  }

  /** The keys of the batches a plan draws from. */
  function PlanIds(plan: seq<(LiveBatch, int)>): set<LiveId> {
    set e | e in plan :: e.0.id
  }

  /** The sum of the amounts of a plan. */
  function Total(plan: seq<(LiveBatch, int)>): int {
    if plan == [] then 0 else plan[0].1 + Total(plan[1..])
  }

  /** What a deduction posts besides the amounts. */
  datatype Draw = Draw(nomenclature: NomId, reason: string, document: string, note: string, now: int, amounts: map<LiveId, int>)

  /** The journal row of one draw. */
  function DeductionOperation(d: Draw, x: LiveBatch, qty: int): Operation {
    Operation(Some(x.productBatch), Some(d.nomenclature), Deduction, d.now, qty, Some(d.reason), Some(d.document), Some(d.note))
  }

  /** The journal rows of a plan, in order. */
  function Operations(d: Draw, plan: seq<(LiveBatch, int)>): seq<Operation> {
    if plan == [] then [] else [DeductionOperation(d, plan[0].0, plan[0].1)] + Operations(d, plan[1..])
  }

  /** The journal rows of a plan are one deduction row per draw, in the plan's order. */
  lemma {:induction false} OperationsRows(d: Draw, plan: seq<(LiveBatch, int)>)
    ensures |Operations(d, plan)| == |plan|
    ensures forall i :: 0 <= i < |plan| ==> Operations(d, plan)[i] == DeductionOperation(d, plan[i].0, plan[i].1)
  {
    if plan != [] {
      OperationsRows(d, plan[1..]);
    }
  }

  // ---------------------------------------------------------------------------
  // The loop of the view

  /** The state the loop carries: the live-batch table, the journal and `total_deducted`. */
  datatype Progress = Progress(live: seq<LiveBatch>, journal: seq<Operation>, total: int)

  /** How the loop ends: after the last candidate, or at the first amount above its batch's
      balance (the early `return` of the view, which keeps the draws made before it). */
  datatype Run = Finished(p: Progress) | Overdrawn(p: Progress, offending: LiveBatch, requested: int)

  /** What is left of `x` after drawing `qty`: None when the balance is exactly zero and the
      row is deleted. */
  function Remaining(x: LiveBatch, qty: int): Option<LiveBatch> {
    if x.currentQuantity - qty == 0 then None else Some(x.(currentQuantity := x.currentQuantity - qty))
  }

  /** The live-batch table after drawing `qty` from `x`: the row is deleted when the
      balance computed from the candidate `x` as the query returned it is exactly zero, and
      saved with that balance otherwise. */
  function DrawLive(live: seq<LiveBatch>, x: LiveBatch, qty: int): seq<LiveBatch> {
    var rest := x.currentQuantity - qty;
    if rest == 0 then RemoveLive(live, x.id) else SetQuantity(live, x.id, rest)
  }

  /** One accepted draw: journal row, new balance, running total. */
  function Apply(d: Draw, p: Progress, x: LiveBatch, qty: int): Progress {
    Progress(DrawLive(p.live, x, qty), p.journal + [DeductionOperation(d, x, qty)], p.total + qty)
  }

  /** The loop over the candidates, from progress `p`. */
  function DrawFrom(d: Draw, cands: seq<LiveBatch>, p: Progress): Run
    decreases |cands|
  {
    if cands == [] then Finished(p)
    else
      var x := cands[0];
      if !Selected(d.amounts, x) then DrawFrom(d, cands[1..], p)
      else
        var qty := d.amounts[x.id];
        if qty > x.currentQuantity then Overdrawn(p, x, qty)
        else DrawFrom(d, cands[1..], Apply(d, p, x, qty))
  }

  /** An accepted first draw heads the accepted part of the plan. */
  lemma AcceptedCons(e: (LiveBatch, int), rest: seq<(LiveBatch, int)>)
    requires e.1 <= e.0.currentQuantity
    ensures Accepted([e] + rest) == [e] + Accepted(rest)
  {
    assert ([e] + rest)[0] == e && ([e] + rest)[1..] == rest;
  }

  /** The loop finishes exactly when every planned draw fits, and otherwise stops at the
      first planned draw that does not. */
  lemma {:induction false} DrawFromFollowsPlan(d: Draw, cands: seq<LiveBatch>, p: Progress)
    ensures var plan := Plan(d.amounts, cands);
      var k := |Accepted(plan)|;
      var run := DrawFrom(d, cands, p);
      && (run.Finished? <==> k == |plan|)
      && (run.Overdrawn? ==> k < |plan| && run.offending == plan[k].0 && run.requested == plan[k].1)
  {
    if cands == [] {
      assert Plan(d.amounts, cands) == [];
    } else {
      var x := cands[0];
      var plan := Plan(d.amounts, cands);
      var rest := Plan(d.amounts, cands[1..]);
      if !Selected(d.amounts, x) {
        assert DrawFrom(d, cands, p) == DrawFrom(d, cands[1..], p);
        assert plan == rest;
        DrawFromFollowsPlan(d, cands[1..], p);
      } else {
        var qty := d.amounts[x.id];
        assert plan == [(x, qty)] + rest;
        if qty <= x.currentQuantity {
          var p' := Apply(d, p, x, qty);
          assert DrawFrom(d, cands, p) == DrawFrom(d, cands[1..], p');
          AcceptedCons((x, qty), rest);
          DrawFromFollowsPlan(d, cands[1..], p');
          var k' := |Accepted(rest)|;
          if k' < |rest| {
            assert plan[1 + k'] == rest[k'];
          }
        } else {
          assert DrawFrom(d, cands, p) == Overdrawn(p, x, qty);
          assert Accepted(plan) == [] && plan[0] == (x, qty);
        }
      }
    }
  }

  /** The loop has journaled precisely the accepted draws of the plan, in order. */
  lemma {:induction false} DrawFromJournal(d: Draw, cands: seq<LiveBatch>, p: Progress)
    ensures DrawFrom(d, cands, p).p.journal == p.journal + Operations(d, Accepted(Plan(d.amounts, cands)))
  {
    if cands == [] {
      assert Plan(d.amounts, cands) == [];
    } else {
      var x := cands[0];
      var plan := Plan(d.amounts, cands);
      var rest := Plan(d.amounts, cands[1..]);
      if !Selected(d.amounts, x) {
        assert DrawFrom(d, cands, p) == DrawFrom(d, cands[1..], p);
        assert plan == rest;
        DrawFromJournal(d, cands[1..], p);
      } else {
        var qty := d.amounts[x.id];
        assert plan == [(x, qty)] + rest;
        if qty <= x.currentQuantity {
          var p' := Apply(d, p, x, qty);
          assert DrawFrom(d, cands, p) == DrawFrom(d, cands[1..], p');
          DrawFromJournal(d, cands[1..], p');
          AcceptedCons((x, qty), rest);
          JournalCons(d, (x, qty), Accepted(rest), p.journal);
        } else {
          assert DrawFrom(d, cands, p) == Overdrawn(p, x, qty);
          assert Accepted(plan) == [];
        }
      }
    }
  }

  /** Journaling a draw and then the rows of `a` journals the rows of the draw followed by `a`. */
  lemma JournalCons(d: Draw, e: (LiveBatch, int), a: seq<(LiveBatch, int)>, journal: seq<Operation>)
    ensures (journal + [DeductionOperation(d, e.0, e.1)]) + Operations(d, a) == journal + Operations(d, [e] + a)
  {
    assert ([e] + a)[0] == e && ([e] + a)[1..] == a;
    var op := DeductionOperation(d, e.0, e.1);
    assert Operations(d, [e] + a) == [op] + Operations(d, a);
    assert (journal + [op]) + Operations(d, a) == journal + ([op] + Operations(d, a));
  }

  /** The loop's running total is the sum of the accepted draws of the plan. */
  lemma {:induction false} DrawFromTotal(d: Draw, cands: seq<LiveBatch>, p: Progress)
    ensures DrawFrom(d, cands, p).p.total == p.total + Total(Accepted(Plan(d.amounts, cands)))
  {
    if cands == [] {
      assert Plan(d.amounts, cands) == [];
    } else {
      var x := cands[0];
      var plan := Plan(d.amounts, cands);
      var rest := Plan(d.amounts, cands[1..]);
      if !Selected(d.amounts, x) {
        assert DrawFrom(d, cands, p) == DrawFrom(d, cands[1..], p);
        assert plan == rest;
        DrawFromTotal(d, cands[1..], p);
      } else {
        var qty := d.amounts[x.id];
        assert plan == [(x, qty)] + rest;
        if qty <= x.currentQuantity {
          var p' := Apply(d, p, x, qty);
          assert DrawFrom(d, cands, p) == DrawFrom(d, cands[1..], p');
          DrawFromTotal(d, cands[1..], p');
          AcceptedCons((x, qty), rest);
          var a := Accepted(rest);
          assert ([(x, qty)] + a)[0] == (x, qty) && ([(x, qty)] + a)[1..] == a;
        } else {
          assert DrawFrom(d, cands, p) == Overdrawn(p, x, qty);
          assert Accepted(plan) == [];
        }
      }
    }
  }

  /** A draw on the current row of `x` changes that row only: it becomes the remaining
      balance, or disappears at zero. */
  lemma DrawLiveFind(live: seq<LiveBatch>, x: LiveBatch, qty: int, j: LiveId)
    requires Find(live, x.id) == Some(x)
    ensures Find(DrawLive(live, x, qty), j) == if j == x.id then Remaining(x, qty) else Find(live, j)
  {
    var rest := x.currentQuantity - qty;
    if rest == 0 {
      assert DrawLive(live, x, qty) == RemoveLive(live, x.id);
      assert Remaining(x, qty) == None;
      FindRemoveLive(live, x.id, j);
    } else {
      assert DrawLive(live, x, qty) == SetQuantity(live, x.id, rest);
      assert Remaining(x, qty) == Some(x.(currentQuantity := rest));
      FindSetQuantity(live, x.id, rest, j);
    }
  }

  /** A draw of `qty` on the current row of `x` lowers the live total of `x`'s
      nomenclature by `qty` and no other nomenclature's total. */
  lemma DrawLiveSum(batches: map<BatchId, ProductBatch>, live: seq<LiveBatch>, x: LiveBatch, qty: int, nom: NomId)
    requires NoDupIds(live) && Find(live, x.id) == Some(x)
    ensures LiveSum(batches, DrawLive(live, x, qty), nom) ==
      LiveSum(batches, live, nom) - if OfNomenclature(batches, nom, x) then qty else 0
  {
    var rest := x.currentQuantity - qty;
    if rest == 0 {
      assert DrawLive(live, x, qty) == RemoveLive(live, x.id);
      LiveSumRemoveLive(batches, live, x, nom);
    } else {
      assert DrawLive(live, x, qty) == SetQuantity(live, x.id, rest);
      LiveSumSetQuantity(batches, live, x, rest, nom);
    }
  }

  /** A draw keeps the keys of the live-batch table distinct. */
  lemma DrawLiveNoDup(live: seq<LiveBatch>, x: LiveBatch, qty: int)
    requires NoDupIds(live)
    ensures NoDupIds(DrawLive(live, x, qty))
  {
    var rest := x.currentQuantity - qty;
    if rest == 0 {
      assert DrawLive(live, x, qty) == RemoveLive(live, x.id);
      NoDupRemoveLive(live, x.id);
    } else {
      assert DrawLive(live, x, qty) == SetQuantity(live, x.id, rest);
      NoDupSetQuantity(live, x.id, rest);
    }
  }

  /** The draws the loop accepts come from candidates. */
  lemma AcceptedWithin(amounts: map<LiveId, int>, cands: seq<LiveBatch>)
    ensures forall e :: e in Accepted(Plan(amounts, cands)) ==> e in Plan(amounts, cands) && e.0 in cands
    ensures PlanIds(Accepted(Plan(amounts, cands))) <= Ids(cands)
  {
    var plan := Plan(amounts, cands);
    var a := Accepted(plan);
    forall e | e in a ensures e in plan {
      var i :| 0 <= i < |a| && a[i] == e;
      assert plan[i] == e;
    }
  }

  /** Every candidate is still the current row of its key, appears once, and belongs to the
      nomenclature drawn from. */
  ghost predicate CurrentRows(batches: map<BatchId, ProductBatch>, d: Draw, cands: seq<LiveBatch>, live: seq<LiveBatch>) {
    && NoDupIds(cands) && NoDupIds(live)
    && forall x :: x in cands ==> Find(live, x.id) == Some(x) && OfNomenclature(batches, d.nomenclature, x)
  }

  /** Drawing from the first candidate keeps the later candidates current. */
  lemma CurrentRowsStep(batches: map<BatchId, ProductBatch>, d: Draw, cands: seq<LiveBatch>, live: seq<LiveBatch>, qty: int)
    requires cands != [] && CurrentRows(batches, d, cands, live)
    ensures CurrentRows(batches, d, cands[1..], DrawLive(live, cands[0], qty))
  {
    var x := cands[0];
    assert x in cands;
    DrawLiveNoDup(live, x, qty);
    assert x.id !in Ids(cands[1..]);
    assert forall y :: y in cands[1..] ==> y in cands;
    forall y | y in cands[1..] ensures Find(DrawLive(live, x, qty), y.id) == Some(y) {
      DrawLiveFind(live, x, qty, y.id);
    }
  }

  /** Skipping the first candidate keeps the later candidates current. */
  lemma CurrentRowsTail(batches: map<BatchId, ProductBatch>, d: Draw, cands: seq<LiveBatch>, live: seq<LiveBatch>)
    requires cands != [] && CurrentRows(batches, d, cands, live)
    ensures CurrentRows(batches, d, cands[1..], live)
  {
    assert forall y :: y in cands[1..] ==> y in cands;
  }

  /** On tables where every candidate is still the current row of its key, the loop lowers
      the nomenclature's live total by the sum of the draws it accepted. */
  lemma {:induction false} DrawFromSum(batches: map<BatchId, ProductBatch>, d: Draw, cands: seq<LiveBatch>, p: Progress)
    requires CurrentRows(batches, d, cands, p.live)
    ensures LiveSum(batches, DrawFrom(d, cands, p).p.live, d.nomenclature)
      == LiveSum(batches, p.live, d.nomenclature) - Total(Accepted(Plan(d.amounts, cands)))
  {
    if cands == [] {
      assert Plan(d.amounts, cands) == [];
    } else {
      var x := cands[0];
      var plan := Plan(d.amounts, cands);
      var rest := Plan(d.amounts, cands[1..]);
      if !Selected(d.amounts, x) {
        assert DrawFrom(d, cands, p) == DrawFrom(d, cands[1..], p);
        assert plan == rest;
        CurrentRowsTail(batches, d, cands, p.live);
        DrawFromSum(batches, d, cands[1..], p);
      } else {
        var qty := d.amounts[x.id];
        assert plan == [(x, qty)] + rest;
        if qty <= x.currentQuantity {
          var p' := Apply(d, p, x, qty);
          assert DrawFrom(d, cands, p) == DrawFrom(d, cands[1..], p');
          assert x in cands;
          DrawLiveSum(batches, p.live, x, qty, d.nomenclature);
          CurrentRowsStep(batches, d, cands, p.live, qty);
          DrawFromSum(batches, d, cands[1..], p');
          AcceptedCons((x, qty), rest);
          var a := Accepted(rest);
          assert ([(x, qty)] + a)[0] == (x, qty) && ([(x, qty)] + a)[1..] == a;
        } else {
          assert DrawFrom(d, cands, p) == Overdrawn(p, x, qty);
          assert Accepted(plan) == [];
        }
      }
    }
  }

  /** On tables where every candidate is still the current row of its key, the loop leaves
      every row it did not draw from as it was. */
  lemma {:induction false} DrawFromUntouched(batches: map<BatchId, ProductBatch>, d: Draw, cands: seq<LiveBatch>, p: Progress, j: LiveId)
    requires CurrentRows(batches, d, cands, p.live)
    ensures j !in PlanIds(Accepted(Plan(d.amounts, cands))) ==> Find(DrawFrom(d, cands, p).p.live, j) == Find(p.live, j)
  {
    if cands == [] {
      assert Plan(d.amounts, cands) == [];
    } else {
      var x := cands[0];
      var plan := Plan(d.amounts, cands);
      var rest := Plan(d.amounts, cands[1..]);
      if !Selected(d.amounts, x) {
        assert DrawFrom(d, cands, p) == DrawFrom(d, cands[1..], p);
        assert plan == rest;
        CurrentRowsTail(batches, d, cands, p.live);
        DrawFromUntouched(batches, d, cands[1..], p, j);
      } else {
        var qty := d.amounts[x.id];
        assert plan == [(x, qty)] + rest;
        if qty <= x.currentQuantity {
          var p' := Apply(d, p, x, qty);
          assert DrawFrom(d, cands, p) == DrawFrom(d, cands[1..], p');
          AcceptedCons((x, qty), rest);
          assert PlanIds(Accepted(plan)) == {x.id} + PlanIds(Accepted(rest));
          assert x in cands;
          CurrentRowsStep(batches, d, cands, p.live, qty);
          DrawFromUntouched(batches, d, cands[1..], p', j);
          DrawLiveFind(p.live, x, qty, j);
        } else {
          assert DrawFrom(d, cands, p) == Overdrawn(p, x, qty);
          assert Accepted(plan) == [];
        }
      }
    }
  }

  /** On tables where every candidate is still the current row of its key, the loop leaves
      each batch it drew from at its old balance minus the draw, deleted at exactly zero. */
  lemma {:induction false} DrawFromDrawn(batches: map<BatchId, ProductBatch>, d: Draw, cands: seq<LiveBatch>, p: Progress)
    requires CurrentRows(batches, d, cands, p.live)
    ensures forall e :: e in Accepted(Plan(d.amounts, cands)) ==>
      Find(DrawFrom(d, cands, p).p.live, e.0.id) == Remaining(e.0, e.1)
  {
    if cands == [] {
      assert Plan(d.amounts, cands) == [];
    } else {
      var x := cands[0];
      var plan := Plan(d.amounts, cands);
      var rest := Plan(d.amounts, cands[1..]);
      if !Selected(d.amounts, x) {
        assert DrawFrom(d, cands, p) == DrawFrom(d, cands[1..], p);
        assert plan == rest;
        CurrentRowsTail(batches, d, cands, p.live);
        DrawFromDrawn(batches, d, cands[1..], p);
      } else {
        var qty := d.amounts[x.id];
        assert plan == [(x, qty)] + rest;
        if qty <= x.currentQuantity {
          var p' := Apply(d, p, x, qty);
          assert DrawFrom(d, cands, p) == DrawFrom(d, cands[1..], p');
          AcceptedCons((x, qty), rest);
          var q := DrawFrom(d, cands[1..], p').p;
          assert x in cands;
          CurrentRowsStep(batches, d, cands, p.live, qty);
          DrawFromDrawn(batches, d, cands[1..], p');
          AcceptedWithin(d.amounts, cands[1..]);
          assert x.id !in Ids(cands[1..]);
          DrawFromUntouched(batches, d, cands[1..], p', x.id);
          DrawLiveFind(p.live, x, qty, x.id);
          forall e | e in Accepted(plan) ensures Find(q.live, e.0.id) == Remaining(e.0, e.1) {
            if e != (x, qty) {
              assert e in Accepted(rest);
            }
          }
        } else {
          assert DrawFrom(d, cands, p) == Overdrawn(p, x, qty);
          assert Accepted(plan) == [];
        }
      }
    }
  }

  /** Every balance in a live-batch table is at least zero. */
  ghost predicate AllNonNegative(s: seq<LiveBatch>) {
    forall x :: x in s ==> x.currentQuantity >= 0
  }

  /** A draw within the balance keeps row references valid and balances non-negative. */
  lemma DrawLiveKeeps(batches: map<BatchId, ProductBatch>, live: seq<LiveBatch>, x: LiveBatch, qty: int)
    requires qty <= x.currentQuantity
    ensures LiveRefsIn(batches, live) ==> LiveRefsIn(batches, DrawLive(live, x, qty))
    ensures AllNonNegative(live) ==> AllNonNegative(DrawLive(live, x, qty))
  {
    var rest := x.currentQuantity - qty;
    if rest == 0 {
      assert DrawLive(live, x, qty) == RemoveLive(live, x.id);
    } else {
      var r := SetQuantity(live, x.id, rest);
      assert DrawLive(live, x, qty) == r;
      forall y | y in r ensures (LiveRefsIn(batches, live) ==> y.productBatch in batches)
        && (AllNonNegative(live) ==> y.currentQuantity >= 0)
      {
        var k :| 0 <= k < |r| && r[k] == y;
        assert live[k] in live;
      }
    }
  }

  /** The loop keeps the table's keys distinct and its references valid, and never drives
      a balance below zero: an amount above the batch's balance is refused before the
      batch is touched. */
  lemma {:induction false} DrawFromKeeps(batches: map<BatchId, ProductBatch>, d: Draw, cands: seq<LiveBatch>, p: Progress)
    ensures var q := DrawFrom(d, cands, p).p;
      && (NoDupIds(p.live) ==> NoDupIds(q.live))
      && (LiveRefsIn(batches, p.live) ==> LiveRefsIn(batches, q.live))
      && (AllNonNegative(p.live) ==> AllNonNegative(q.live))
  {
    if cands != [] {
      var x := cands[0];
      if !Selected(d.amounts, x) {
        DrawFromKeeps(batches, d, cands[1..], p);
      } else if d.amounts[x.id] <= x.currentQuantity {
        if NoDupIds(p.live) { DrawLiveNoDup(p.live, x, d.amounts[x.id]); }
        DrawLiveKeeps(batches, p.live, x, d.amounts[x.id]);
        DrawFromKeeps(batches, d, cands[1..], Apply(d, p, x, d.amounts[x.id]));
      }
    }
  }

  /** Every journal row the loop writes points at the batch of a candidate and at the
      nomenclature of the stock row, so references that hold before the loop hold after it. */
  lemma {:induction false} DrawFromJournalRefs(batches: map<BatchId, ProductBatch>, catalog: map<NomId, Nomenclature>,
                                               d: Draw, cands: seq<LiveBatch>, p: Progress)
    requires JournalRefsIn(batches, catalog, p.journal) && d.nomenclature in catalog && LiveRefsIn(batches, cands)
    ensures JournalRefsIn(batches, catalog, DrawFrom(d, cands, p).p.journal)
  {
    if cands != [] {
      var x := cands[0];
      assert LiveRefsIn(batches, cands[1..]) by {
        forall y | y in cands[1..] ensures y.productBatch in batches { assert y in cands; }
      }
      if !Selected(d.amounts, x) {
        DrawFromJournalRefs(batches, catalog, d, cands[1..], p);
      } else if d.amounts[x.id] <= x.currentQuantity {
        var p' := Apply(d, p, x, d.amounts[x.id]);
        assert x in cands;
        assert OperationRefsIn(batches, catalog, DeductionOperation(d, x, d.amounts[x.id]));
        assert JournalRefsIn(batches, catalog, p'.journal);
        DrawFromJournalRefs(batches, catalog, d, cands[1..], p');
      }
    }
  }

  /** The draws of a plan in ascending expiration order of their batches. */
  ghost predicate DrawsByExpiration(batches: map<BatchId, ProductBatch>, plan: seq<(LiveBatch, int)>) {
    forall i, j :: 0 <= i < j < |plan| ==> Expiration(batches, plan[i].0) <= Expiration(batches, plan[j].0)
  }

  /** The draws of a plan come from distinct batches. */
  ghost predicate DistinctDraws(plan: seq<(LiveBatch, int)>) {
    forall i, j :: 0 <= i < |plan| && 0 <= j < |plan| && plan[i].0.id == plan[j].0.id ==> i == j
  }

  /** A draw whose batch expires no later than every batch of an ordered plan can lead it. */
  lemma ConsDrawsSorted(batches: map<BatchId, ProductBatch>, e: (LiveBatch, int), rest: seq<(LiveBatch, int)>)
    requires DrawsByExpiration(batches, rest)
    requires forall f :: f in rest ==> Expiration(batches, e.0) <= Expiration(batches, f.0)
    ensures DrawsByExpiration(batches, [e] + rest)
  {
    var plan := [e] + rest;
    forall i, j | 0 <= i < j < |plan| ensures Expiration(batches, plan[i].0) <= Expiration(batches, plan[j].0) {
      assert plan[j] == rest[j - 1];
      if i > 0 { assert plan[i] == rest[i - 1]; }
    }
  }

  /** Drawing in candidate order means drawing in ascending expiration order. */
  lemma {:induction false} PlanSorted(batches: map<BatchId, ProductBatch>, amounts: map<LiveId, int>, cands: seq<LiveBatch>)
    requires SortedByExpiration(batches, cands)
    ensures DrawsByExpiration(batches, Plan(amounts, cands))
  {
    if cands != [] {
      TailSorted(batches, cands);
      PlanSorted(batches, amounts, cands[1..]);
      var plan := Plan(amounts, cands);
      var rest := Plan(amounts, cands[1..]);
      if Selected(amounts, cands[0]) {
        assert plan == [(cands[0], amounts[cands[0].id])] + rest;
        FirstExpiresFirst(batches, cands);
        ConsDrawsSorted(batches, (cands[0], amounts[cands[0].id]), rest);
      } else {
        assert plan == rest;
      }
    }
  }

  /** The draws of a plan come from distinct batches. */
  lemma {:induction false} PlanNoDup(amounts: map<LiveId, int>, cands: seq<LiveBatch>)
    requires NoDupIds(cands)
    ensures DistinctDraws(Plan(amounts, cands))
  {
    if cands != [] {
      PlanNoDup(amounts, cands[1..]);
      var plan := Plan(amounts, cands);
      var rest := Plan(amounts, cands[1..]);
      if Selected(amounts, cands[0]) {
        assert plan == [(cands[0], amounts[cands[0].id])] + rest;
        forall i | 0 < i < |plan| ensures plan[i].0.id != cands[0].id {
          assert plan[i] == rest[i - 1] && rest[i - 1] in rest;
          assert rest[i - 1].0 in cands[1..];
        }
        forall i, j | 0 <= i < |plan| && 0 <= j < |plan| && plan[i].0.id == plan[j].0.id ensures i == j {
          if i > 0 && j > 0 { assert plan[i] == rest[i - 1] && plan[j] == rest[j - 1]; }
        }
      } else {
        assert plan == rest;
      }
    }
  }

  /** A plan of positive amounts totals more than zero as soon as it is non-empty. */
  lemma {:induction false} PositiveTotal(plan: seq<(LiveBatch, int)>)
    requires forall e :: e in plan ==> e.1 > 0
    ensures plan != [] ==> Total(plan) > 0
    ensures Total(plan) >= 0
  {
    if plan != [] {
      assert plan[0] in plan;
      assert forall e :: e in plan[1..] ==> e in plan;
      PositiveTotal(plan[1..]);
    }
  }

  // ---------------------------------------------------------------------------
  // The whole view

  /** The posted form: `reason`, `document` and `note` as sent (stripped by the view), and
      the parsed per-batch amounts. */
  datatype DeductionRequest = DeductionRequest(reason: string, document: string, note: string, amounts: map<LiveId, int>)

  datatype DeductionResult =
    | WarehouseNotFound
    | MissingReason
    | EmptySelection
    | InsufficientBalance(batch: BatchId, available: int, requested: int)
    | Deducted(total: int)

  /** The database after a posted deduction, and what the view answers. */
  datatype Outcome = Outcome(tables: Tables, result: DeductionResult)

  /** The posted fields after stripping, for the stock row `w`. */
  function DrawFor(w: Warehouse, req: DeductionRequest, now: int): Draw {
    Draw(w.nomenclature, Strip(req.reason), Strip(req.document), Strip(req.note), now, req.amounts)
  }

  /** The database and the result after a deduction posted for stock row `wid` at time `now`. */
  function DeductSpec(t: Tables, wid: WarehouseId, req: DeductionRequest, now: int): Outcome {
    if wid !in t.warehouses then Outcome(t, WarehouseNotFound)
    else
      var w := t.warehouses[wid];
      var d := DrawFor(w, req, now);
      if d.reason == [] then Outcome(t, MissingReason)
      else
        var cands := LiveBatchesOf(t, w.nomenclature);
        if !HasSelection(req.amounts, cands) then Outcome(t, EmptySelection)
        else
          Commit(t, wid, DrawFrom(d, cands, Progress(t.live, t.journal, 0)))
  }

  /** The stock rows with the weight of row `wid` set to `weight`. */
  function SetWeight(ws: map<WarehouseId, Warehouse>, wid: WarehouseId, weight: int): (r: map<WarehouseId, Warehouse>)
    requires wid in ws
    ensures r.Keys == ws.Keys && r[wid] == ws[wid].(currentWeight := weight)
    ensures forall v :: v in ws && v != wid ==> r[v] == ws[v]
  {
    ws[wid := ws[wid].(currentWeight := weight)]
  }

  /** What the view writes once the loop has stopped: the loop's rows and journal, and on a
      finished run with a positive total the stock row lowered by that total. */
  function Commit(t: Tables, wid: WarehouseId, run: Run): Outcome
    requires wid in t.warehouses
  {
    match run
    case Overdrawn(p, x, qty) =>
      Outcome(t.(live := p.live, journal := p.journal), InsufficientBalance(x.productBatch, x.currentQuantity, qty))
    case Finished(p) =>
      var ws := if p.total > 0 then SetWeight(t.warehouses, wid, t.warehouses[wid].currentWeight - p.total) else t.warehouses;
      Outcome(t.(live := p.live, journal := p.journal, warehouses := ws), Deducted(p.total))
  }

  /** Committing a run whose rows are well formed keeps the database well formed. */
  lemma CommitWellFormed(t: Tables, wid: WarehouseId, run: Run)
    requires WellFormed(t) && wid in t.warehouses
    requires NoDupIds(run.p.live) && LiveRefsIn(t.batches, run.p.live)
    requires JournalRefsIn(t.batches, t.catalog, run.p.journal)
    ensures WellFormed(Commit(t, wid, run).tables)
  {
    var weight := t.warehouses[wid].currentWeight - run.p.total;
    StoreWellFormed(t, run.p.live, run.p.journal, wid, weight);
    if run.Finished? && run.p.total > 0 {
      assert Commit(t, wid, run).tables
        == t.(live := run.p.live, journal := run.p.journal, warehouses := SetWeight(t.warehouses, wid, weight));
    } else {
      assert Commit(t, wid, run).tables == t.(live := run.p.live, journal := run.p.journal);
    }
  }

  /** The three refusals, each exactly when the view returns early for it, and none of them
      changes the database. */
  lemma DeductRefusals(t: Tables, wid: WarehouseId, req: DeductionRequest, now: int)
    ensures var Outcome(t', r) := DeductSpec(t, wid, req, now);
      && (r == WarehouseNotFound <==> wid !in t.warehouses)
      && (r == MissingReason <==> wid in t.warehouses && IsBlank(req.reason))
      && (r == EmptySelection <==>
            (wid in t.warehouses && !IsBlank(req.reason)
             && !HasSelection(req.amounts, LiveBatchesOf(t, t.warehouses[wid].nomenclature))))
      && (r.WarehouseNotFound? || r.MissingReason? || r.EmptySelection? ==> t' == t)
  {
    StripEmptyIffBlank(req.reason);
    if wid in t.warehouses {
      var w := t.warehouses[wid];
      var d := DrawFor(w, req, now);
      var cands := LiveBatchesOf(t, w.nomenclature);
      if d.reason != [] && HasSelection(req.amounts, cands) {
        var r := DrawFrom(d, cands, Progress(t.live, t.journal, 0));
        assert DeductSpec(t, wid, req, now).result == if r.Overdrawn?
          then InsufficientBalance(r.offending.productBatch, r.offending.currentQuantity, r.requested)
          else Deducted(r.p.total);
      }
    }
  }

  /** Replacing the live table, the journal and the weight of one existing stock row keeps
      the database well formed, provided the new live table and journal are. */
  lemma StoreWellFormed(t: Tables, live: seq<LiveBatch>, journal: seq<Operation>, wid: WarehouseId, weight: int)
    requires WellFormed(t) && wid in t.warehouses
    requires NoDupIds(live) && LiveRefsIn(t.batches, live) && JournalRefsIn(t.batches, t.catalog, journal)
    ensures WellFormed(t.(live := live, journal := journal))
    ensures WellFormed(t.(live := live, journal := journal,
      warehouses := SetWeight(t.warehouses, wid, weight)))
  {
    var ws := SetWeight(t.warehouses, wid, weight);
    assert forall w :: w in ws ==> w in t.warehouses && ws[w].nomenclature == t.warehouses[w].nomenclature;
  }

  /** A deduction that gets past the three refusals keeps the database well formed. */
  lemma DrawnWellFormed(t: Tables, wid: WarehouseId, req: DeductionRequest, now: int)
    requires WellFormed(t) && wid in t.warehouses && Strip(req.reason) != []
    requires HasSelection(req.amounts, LiveBatchesOf(t, t.warehouses[wid].nomenclature))
    ensures WellFormed(DeductSpec(t, wid, req, now).tables)
  {
    var w := t.warehouses[wid];
    var d := DrawFor(w, req, now);
    var cands := LiveBatchesOf(t, w.nomenclature);
    var p0 := Progress(t.live, t.journal, 0);
    DrawFromKeeps(t.batches, d, cands, p0);
    DrawFromJournalRefs(t.batches, t.catalog, d, cands, p0);
    CommitWellFormed(t, wid, DrawFrom(d, cands, p0));
    assert DeductSpec(t, wid, req, now) == Commit(t, wid, DrawFrom(d, cands, p0));
  }

  /** A deduction keeps the database well formed. */
  lemma DeductWellFormed(t: Tables, wid: WarehouseId, req: DeductionRequest, now: int)
    requires WellFormed(t)
    ensures WellFormed(DeductSpec(t, wid, req, now).tables)
  {
    DeductRefusals(t, wid, req, now);
    StripEmptyIffBlank(req.reason);
    if wid in t.warehouses && Strip(req.reason) != []
      && HasSelection(req.amounts, LiveBatchesOf(t, t.warehouses[wid].nomenclature))
    {
      DrawnWellFormed(t, wid, req, now);
    }
  }

  /** A deduction touches neither the catalog, the batches nor the key counters, and only
      appends to the journal. */
  lemma DeductFrame(t: Tables, wid: WarehouseId, req: DeductionRequest, now: int)
    ensures var t' := DeductSpec(t, wid, req, now).tables;
      && t'.catalog == t.catalog && t'.batches == t.batches
      && t'.nextNomId == t.nextNomId && t'.nextBatchId == t.nextBatchId && t'.nextWarehouseId == t.nextWarehouseId
      && |t.journal| <= |t'.journal| && t'.journal[..|t.journal|] == t.journal
  {
    if wid in t.warehouses && Strip(req.reason) != [] && PlanFor(t, wid, req) != [] {
      DeductCommits(t, wid, req, now);
      var d, cands, p0 := DrawFor(t.warehouses[wid], req, now), CandidatesFor(t, wid), Progress(t.live, t.journal, 0);
      CommitFrame(t, wid, DrawFrom(d, cands, p0), DeductSpec(t, wid, req, now));
      DrawFromJournal(d, cands, p0);
      var ops := Operations(d, Accepted(Plan(d.amounts, cands)));
      assert (t.journal + ops)[..|t.journal|] == t.journal;
    } else {
      StripEmptyIffBlank(req.reason);
      DeductRefusals(t, wid, req, now);
    }
  }


  /** The candidates of the stock row `wid`, in the order the view visits them. */
  function CandidatesFor(t: Tables, wid: WarehouseId): seq<LiveBatch>
    requires wid in t.warehouses
  {
    LiveBatchesOf(t, t.warehouses[wid].nomenclature)
  }

  /** The draws a request asks of the stock row `wid`. */
  function PlanFor(t: Tables, wid: WarehouseId, req: DeductionRequest): seq<(LiveBatch, int)>
    requires wid in t.warehouses
  {
    Plan(req.amounts, CandidatesFor(t, wid))
  }

  /** The loop of the view over the candidates of the stock row `wid`. */
  function RunFor(t: Tables, wid: WarehouseId, req: DeductionRequest, now: int): Run
    requires wid in t.warehouses
  {
    DrawFrom(DrawFor(t.warehouses[wid], req, now), CandidatesFor(t, wid), Progress(t.live, t.journal, 0))
  }

  /** Committing a run changes only the live rows, the journal and the stock rows, and the
      journal it leaves is the run's. */
  lemma CommitFrame(t: Tables, wid: WarehouseId, run: Run, o: Outcome)
    requires wid in t.warehouses && o == Commit(t, wid, run)
    ensures o.tables.catalog == t.catalog && o.tables.batches == t.batches
    ensures o.tables.nextNomId == t.nextNomId && o.tables.nextBatchId == t.nextBatchId
    ensures o.tables.nextWarehouseId == t.nextWarehouseId
    ensures o.tables.journal == run.p.journal
  {
  }

  /** A request that names the stock row, gives a reason and selects a batch ends in the
      commit of the loop's run. */
  lemma DeductCommits(t: Tables, wid: WarehouseId, req: DeductionRequest, now: int)
    requires wid in t.warehouses && Strip(req.reason) != [] && PlanFor(t, wid, req) != []
    ensures DeductSpec(t, wid, req, now) == Commit(t, wid, RunFor(t, wid, req, now))
  {
  }

  /** The deduction succeeds exactly when it gets past the refusals and every planned draw
      fits its batch's balance, and it is refused for a balance exactly when the plan has a
      draw that does not fit. */
  lemma DeductOutcome(t: Tables, wid: WarehouseId, req: DeductionRequest, now: int)
    ensures var r := DeductSpec(t, wid, req, now).result;
      && (r.Deducted? <==>
            (wid in t.warehouses && !IsBlank(req.reason) && PlanFor(t, wid, req) != []
             && Accepted(PlanFor(t, wid, req)) == PlanFor(t, wid, req)))
      && (r.InsufficientBalance? <==>
            (wid in t.warehouses && !IsBlank(req.reason)
             && |Accepted(PlanFor(t, wid, req))| < |PlanFor(t, wid, req)|))
  {
    DeductRefusals(t, wid, req, now);
    StripEmptyIffBlank(req.reason);
    if wid in t.warehouses && Strip(req.reason) != [] && PlanFor(t, wid, req) != [] {
      var d := DrawFor(t.warehouses[wid], req, now);
      var plan := PlanFor(t, wid, req);
      DeductCommits(t, wid, req, now);
      DrawFromFollowsPlan(d, CandidatesFor(t, wid), Progress(t.live, t.journal, 0));
      assert Accepted(plan) == plan <==> |Accepted(plan)| == |plan|;
    }
  }

  /** The request selects at least one batch and every selected amount fits its batch's
      balance: the case in which the deduction succeeds. */
  predicate AllFit(t: Tables, wid: WarehouseId, req: DeductionRequest)
    requires wid in t.warehouses
  {
    PlanFor(t, wid, req) != [] && Accepted(PlanFor(t, wid, req)) == PlanFor(t, wid, req)
  }

  /** When every draw fits, the deduction succeeds, journals one row per draw in the visiting
      order (ascending expiration), and reports the sum of the amounts, which is positive. */
  lemma DeductSucceedsJournal(t: Tables, wid: WarehouseId, req: DeductionRequest, now: int)
    requires WellFormed(t) && wid in t.warehouses && !IsBlank(req.reason) && AllFit(t, wid, req)
    ensures var Outcome(t', r) := DeductSpec(t, wid, req, now);
      var plan := PlanFor(t, wid, req);
      && r == Deducted(Total(plan)) && r.total > 0
      && t'.journal == t.journal + Operations(DrawFor(t.warehouses[wid], req, now), plan)
      && DrawsByExpiration(t.batches, plan)
  {
    StripEmptyIffBlank(req.reason);
    var plan := PlanFor(t, wid, req);
    var d := DrawFor(t.warehouses[wid], req, now);
    var p0 := Progress(t.live, t.journal, 0);
    var run := DrawFrom(d, CandidatesFor(t, wid), p0);
    DeductCommits(t, wid, req, now);
    DrawFromFollowsPlan(d, CandidatesFor(t, wid), p0);
    DrawFromJournal(d, CandidatesFor(t, wid), p0);
    DrawFromTotal(d, CandidatesFor(t, wid), p0);
    PositiveTotal(plan);
    PlanSorted(t.batches, req.amounts, CandidatesFor(t, wid));
    assert run.Finished? && run.p.total > 0;
    assert DeductSpec(t, wid, req, now).result == Deducted(run.p.total);
  }

  /** When every draw fits, each drawn batch is left at its balance less the amount (the row
      deleted at zero) and every other live batch as it was. */
  lemma DeductSucceedsRows(t: Tables, wid: WarehouseId, req: DeductionRequest, now: int, j: LiveId)
    requires WellFormed(t) && wid in t.warehouses && !IsBlank(req.reason) && AllFit(t, wid, req)
    ensures var t' := DeductSpec(t, wid, req, now).tables;
      var plan := PlanFor(t, wid, req);
      && (forall e :: e in plan ==> Find(t'.live, e.0.id) == Remaining(e.0, e.1))
      && (j !in PlanIds(plan) ==> Find(t'.live, j) == Find(t.live, j))
  {
    StripEmptyIffBlank(req.reason);
    var d := DrawFor(t.warehouses[wid], req, now);
    var p0 := Progress(t.live, t.journal, 0);
    DeductCommits(t, wid, req, now);
    CandidatesAgree(t, t.warehouses[wid].nomenclature);
    assert CurrentRows(t.batches, d, CandidatesFor(t, wid), t.live);
    DrawFromDrawn(t.batches, d, CandidatesFor(t, wid), p0);
    DrawFromUntouched(t.batches, d, CandidatesFor(t, wid), p0, j);
  }

  /** Setting the weight of the stock row `wid` of a well-formed database sets the stock of
      its nomenclature. */
  lemma StockSet(t: Tables, wid: WarehouseId, t2: Tables, weight: int)
    requires WellFormed(t) && wid in t.warehouses && t2.nextWarehouseId == t.nextWarehouseId
    requires t2.warehouses == SetWeight(t.warehouses, wid, weight)
    ensures StockOf(t, t.warehouses[wid].nomenclature) == Some(t.warehouses[wid].currentWeight)
    ensures StockOf(t2, t.warehouses[wid].nomenclature) == Some(weight)
  {
    var nom := t.warehouses[wid].nomenclature;
    StockInRow(t.warehouses, t.nextWarehouseId, nom);
    assert OneRowPerNomenclature(t2.warehouses) by {
      assert forall v :: v in t2.warehouses ==> t2.warehouses[v].nomenclature == t.warehouses[v].nomenclature;
    }
    StockInRow(t2.warehouses, t2.nextWarehouseId, nom);
    assert t2.warehouses[wid].nomenclature == nom;
  }

  /** The loop over the candidates of the stock row `wid` lowers the live balances of its
      nomenclature by the total it draws. */
  lemma DrawnSum(t: Tables, wid: WarehouseId, req: DeductionRequest, now: int)
    requires WellFormed(t) && wid in t.warehouses
    ensures LiveSum(t.batches, RunFor(t, wid, req, now).p.live, t.warehouses[wid].nomenclature)
      == LiveSum(t.batches, t.live, t.warehouses[wid].nomenclature) - RunFor(t, wid, req, now).p.total
  {
    var d := DrawFor(t.warehouses[wid], req, now);
    var p0 := Progress(t.live, t.journal, 0);
    CandidatesAgree(t, d.nomenclature);
    assert CurrentRows(t.batches, d, CandidatesFor(t, wid), t.live);
    DrawFromSum(t.batches, d, CandidatesFor(t, wid), p0);
    DrawFromTotal(d, CandidatesFor(t, wid), p0);
  }

  /** Committing a finished run with a positive total lowers the stock row, and so the stock
      of its nomenclature, by that total; with the live balances lowered by the same total,
      the gap between the two is kept. */
  lemma CommitFinishedStock(t: Tables, wid: WarehouseId, run: Run, res: Outcome)
    requires WellFormed(t) && wid in t.warehouses && run.Finished? && run.p.total > 0
    requires res == Commit(t, wid, run)
    requires LiveSum(t.batches, run.p.live, t.warehouses[wid].nomenclature)
      == LiveSum(t.batches, t.live, t.warehouses[wid].nomenclature) - run.p.total
    ensures res.result.Deducted?
    ensures res.tables.warehouses == SetWeight(t.warehouses, wid, t.warehouses[wid].currentWeight - res.result.total)
    ensures StockOf(res.tables, t.warehouses[wid].nomenclature) == Some(t.warehouses[wid].currentWeight - res.result.total)
    ensures LiveSum(t.batches, res.tables.live, t.warehouses[wid].nomenclature)
      == LiveSum(t.batches, t.live, t.warehouses[wid].nomenclature) - res.result.total
    ensures Drift(res.tables, t.warehouses[wid].nomenclature) == Drift(t, t.warehouses[wid].nomenclature)
  {
    var w := t.warehouses[wid];
    var t' := t.(live := run.p.live, journal := run.p.journal,
      warehouses := SetWeight(t.warehouses, wid, w.currentWeight - run.p.total));
    assert res == Outcome(t', Deducted(run.p.total));
    StockSet(t, wid, t', w.currentWeight - run.p.total);
  }

  /** When every draw fits, the loop finishes with the total of the plan, which is positive. */
  lemma FinishedRun(t: Tables, wid: WarehouseId, req: DeductionRequest, now: int)
    requires wid in t.warehouses && AllFit(t, wid, req)
    ensures RunFor(t, wid, req, now).Finished?
    ensures RunFor(t, wid, req, now).p.total == Total(PlanFor(t, wid, req)) > 0
  {
    var d := DrawFor(t.warehouses[wid], req, now);
    var p0 := Progress(t.live, t.journal, 0);
    DrawFromFollowsPlan(d, CandidatesFor(t, wid), p0);
    DrawFromTotal(d, CandidatesFor(t, wid), p0);
    PositiveTotal(PlanFor(t, wid, req));
  }

  /** When every draw fits, the stock of the nomenclature and the live balances of the
      nomenclature both drop by the total, so the gap between the two is kept. */
  lemma DeductSucceedsStock(t: Tables, wid: WarehouseId, req: DeductionRequest, now: int, o: Outcome)
    requires WellFormed(t) && wid in t.warehouses && !IsBlank(req.reason) && AllFit(t, wid, req)
    requires o == DeductSpec(t, wid, req, now)
    ensures o.result.Deducted?
    ensures o.tables.warehouses == SetWeight(t.warehouses, wid, t.warehouses[wid].currentWeight - o.result.total)
    ensures StockOf(o.tables, t.warehouses[wid].nomenclature) == Some(t.warehouses[wid].currentWeight - o.result.total)
    ensures LiveSum(t.batches, o.tables.live, t.warehouses[wid].nomenclature)
      == LiveSum(t.batches, t.live, t.warehouses[wid].nomenclature) - o.result.total
    ensures Drift(o.tables, t.warehouses[wid].nomenclature) == Drift(t, t.warehouses[wid].nomenclature)
  {
    StripEmptyIffBlank(req.reason);
    DeductCommits(t, wid, req, now);
    FinishedRun(t, wid, req, now);
    DrawnSum(t, wid, req, now);
    CommitFinishedStock(t, wid, RunFor(t, wid, req, now), o);
  }

  /** Committing an overdrawn run keeps the draws made before it and the stock rows, and
      reports the offending batch with its balance and the amount asked of it. */
  lemma CommitOverdrawn(t: Tables, wid: WarehouseId, run: Run, o: Outcome)
    requires wid in t.warehouses && run.Overdrawn? && o == Commit(t, wid, run)
    ensures o.result == InsufficientBalance(run.offending.productBatch, run.offending.currentQuantity, run.requested)
    ensures o.tables == t.(live := run.p.live, journal := run.p.journal)
    ensures StockOf(o.tables, t.warehouses[wid].nomenclature) == StockOf(t, t.warehouses[wid].nomenclature)
  {
  }

  /** Committing a finished run gives the tables `s` built field by field: the run's rows and
      journal, and the stock row lowered by the total when that is positive. */
  lemma CommitFinishedAs(t: Tables, wid: WarehouseId, run: Run, o: Outcome, drawn: Tables, s: Tables, total: int)
    requires wid in t.warehouses && run.Finished? && o == Commit(t, wid, run) && total == run.p.total
    requires drawn == t.(live := run.p.live, journal := run.p.journal)
    requires s == drawn.(warehouses :=
      if total > 0 then SetWeight(drawn.warehouses, wid, drawn.warehouses[wid].currentWeight - total)
      else drawn.warehouses)
    ensures o == Outcome(s, Deducted(total))
  {
  }

  /** When a selected amount exceeds its batch's balance, the view answers with the first such
      batch in visiting order, its balance and the amount; the draws before it stay made and
      journalled, the offending row is untouched, and no stock row changes. */
  lemma DeductOverdrawn(t: Tables, wid: WarehouseId, req: DeductionRequest, now: int, o: Outcome)
    requires WellFormed(t) && wid in t.warehouses && !IsBlank(req.reason)
    requires |Accepted(PlanFor(t, wid, req))| < |PlanFor(t, wid, req)|
    requires o == DeductSpec(t, wid, req, now)
    ensures var plan := PlanFor(t, wid, req);
      var k := |Accepted(plan)|;
      && o.result == InsufficientBalance(plan[k].0.productBatch, plan[k].0.currentQuantity, plan[k].1)
      && plan[k].1 > plan[k].0.currentQuantity
      && o.tables.warehouses == t.warehouses
      && o.tables.journal == t.journal + Operations(DrawFor(t.warehouses[wid], req, now), Accepted(plan))
      && Find(o.tables.live, plan[k].0.id) == Find(t.live, plan[k].0.id) == Some(plan[k].0)
      && (forall e :: e in Accepted(plan) ==> Find(o.tables.live, e.0.id) == Remaining(e.0, e.1))
  {
    StripEmptyIffBlank(req.reason);
    var plan := PlanFor(t, wid, req);
    var d := DrawFor(t.warehouses[wid], req, now);
    var cands := CandidatesFor(t, wid);
    var p0 := Progress(t.live, t.journal, 0);
    DeductCommits(t, wid, req, now);
    DrawFromFollowsPlan(d, cands, p0);
    CommitOverdrawn(t, wid, RunFor(t, wid, req, now), o);
    DrawFromJournal(d, cands, p0);
    CandidatesAgree(t, d.nomenclature);
    assert CurrentRows(t.batches, d, cands, t.live);
    PlanNoDup(req.amounts, cands);
    DrawFromUntouched(t.batches, d, cands, p0, plan[|Accepted(plan)|].0.id);
    DrawFromDrawn(t.batches, d, cands, p0);
  }

  /** A refused overdraw keeps the stock of the nomenclature but not the live balances drawn
      before it, so the gap between the two grows by what was drawn. */
  lemma DeductOverdrawnDrift(t: Tables, wid: WarehouseId, req: DeductionRequest, now: int, o: Outcome)
    requires WellFormed(t) && wid in t.warehouses && !IsBlank(req.reason)
    requires |Accepted(PlanFor(t, wid, req))| < |PlanFor(t, wid, req)|
    requires o == DeductSpec(t, wid, req, now)
    ensures StockOf(o.tables, t.warehouses[wid].nomenclature) == StockOf(t, t.warehouses[wid].nomenclature)
    ensures Drift(o.tables, t.warehouses[wid].nomenclature)
      == Drift(t, t.warehouses[wid].nomenclature) + Total(Accepted(PlanFor(t, wid, req)))
  {
    StripEmptyIffBlank(req.reason);
    var d := DrawFor(t.warehouses[wid], req, now);
    var p0 := Progress(t.live, t.journal, 0);
    DeductCommits(t, wid, req, now);
    DrawFromFollowsPlan(d, CandidatesFor(t, wid), p0);
    CommitOverdrawn(t, wid, RunFor(t, wid, req, now), o);
    DrawnSum(t, wid, req, now);
    DrawFromTotal(d, CandidatesFor(t, wid), p0);
  }

  /** No deduction leaves a live batch with a negative balance: every draw made is within
      the balance of its batch. */
  lemma DeductNonNegative(t: Tables, wid: WarehouseId, req: DeductionRequest, now: int)
    requires AllNonNegative(t.live)
    ensures AllNonNegative(DeductSpec(t, wid, req, now).tables.live)
  {
    DeductRefusals(t, wid, req, now);
    StripEmptyIffBlank(req.reason);
    if wid in t.warehouses && Strip(req.reason) != [] && PlanFor(t, wid, req) != [] {
      var d := DrawFor(t.warehouses[wid], req, now);
      DeductCommits(t, wid, req, now);
      DrawFromKeeps(t.batches, d, CandidatesFor(t, wid), Progress(t.live, t.journal, 0));
      assert DeductSpec(t, wid, req, now).tables.live == RunFor(t, wid, req, now).p.live;
    }
  }

  /** The tables the view leaves behind when its loop stops at an overdrawn batch. */
  lemma DeductStops(t: Tables, wid: WarehouseId, req: DeductionRequest, now: int, s: Tables)
    requires WellFormed(t) && wid in t.warehouses && Strip(req.reason) != [] && PlanFor(t, wid, req) != []
    requires RunFor(t, wid, req, now).Overdrawn?
    requires s == t.(live := RunFor(t, wid, req, now).p.live, journal := RunFor(t, wid, req, now).p.journal)
    ensures var run := RunFor(t, wid, req, now);
      DeductSpec(t, wid, req, now)
        == Outcome(s, InsufficientBalance(run.offending.productBatch, run.offending.currentQuantity, run.requested))
    ensures WellFormed(s)
  {
    DeductCommits(t, wid, req, now);
    CommitOverdrawn(t, wid, RunFor(t, wid, req, now), DeductSpec(t, wid, req, now));
    DeductWellFormed(t, wid, req, now);
  }

  /** The tables the view leaves behind when its loop runs to the end. */
  lemma DeductFinishes(t: Tables, wid: WarehouseId, req: DeductionRequest, now: int, drawn: Tables, s: Tables, total: int)
    requires WellFormed(t) && wid in t.warehouses && Strip(req.reason) != [] && PlanFor(t, wid, req) != []
    requires RunFor(t, wid, req, now).Finished? && total == RunFor(t, wid, req, now).p.total
    requires drawn == t.(live := RunFor(t, wid, req, now).p.live, journal := RunFor(t, wid, req, now).p.journal)
    requires s == drawn.(warehouses :=
      if total > 0 then SetWeight(drawn.warehouses, wid, drawn.warehouses[wid].currentWeight - total)
      else drawn.warehouses)
    ensures DeductSpec(t, wid, req, now) == Outcome(s, Deducted(total))
    ensures WellFormed(s)
  {
    DeductCommits(t, wid, req, now);
    CommitFinishedAs(t, wid, RunFor(t, wid, req, now), DeductSpec(t, wid, req, now), drawn, s, total);
    DeductWellFormed(t, wid, req, now);
  }

  // ---------------------------------------------------------------------------
  // The view as it runs against the database

  /** One turn of the loop, seen on the candidates from position `i` on. */
  lemma DrawFromAt(d: Draw, cands: seq<LiveBatch>, i: nat, p: Progress)
    requires i < |cands|
    ensures var x := cands[i];
      DrawFrom(d, cands[i..], p)
        == if !Selected(d.amounts, x) then DrawFrom(d, cands[i + 1..], p)
           else if d.amounts[x.id] > x.currentQuantity then Overdrawn(p, x, d.amounts[x.id])
           else DrawFrom(d, cands[i + 1..], Apply(d, p, x, d.amounts[x.id]))
  {
    assert cands[i..][0] == cands[i] && cands[i..][1..] == cands[i + 1..];
  }

  /** One accepted draw of the second loop: the journal row is created, then the live row
      is deleted when its balance reaches exactly zero and saved with the new balance
      otherwise. */
  method DrawOne(store: Store, d: Draw, lb: LiveBatch, qty: int)
    modifies store
    ensures store.live == DrawLive(old(store.live), lb, qty)
    ensures store.journal == old(store.journal) + [DeductionOperation(d, lb, qty)]
    ensures store.catalog == old(store.catalog) && store.batches == old(store.batches)
    ensures store.warehouses == old(store.warehouses)
    ensures store.nextNomId == old(store.nextNomId) && store.nextBatchId == old(store.nextBatchId)
    ensures store.nextWarehouseId == old(store.nextWarehouseId)
  {
    store.journal := store.journal + [DeductionOperation(d, lb, qty)];
    var rest := lb.currentQuantity - qty;
    if rest == 0 {
      store.live := RemoveLive(store.live, lb.id);
    } else {
      store.live := SetQuantity(store.live, lb.id, rest);
    }
  }

  /** The second loop of the view: draws every selected amount from its batch in visiting
      order, journalling and saving each draw at once, and stops at the first amount above its
      batch's balance, which it returns with the amount (the view then returns early). */
  method DrawAll(store: Store, d: Draw, cands: seq<LiveBatch>) returns (stop: Option<(LiveBatch, int)>, total: int)
    modifies store
    ensures var run := DrawFrom(d, cands, Progress(old(store.live), old(store.journal), 0));
      && store.live == run.p.live && store.journal == run.p.journal && total == run.p.total
      && (stop.None? <==> run.Finished?)
      && (run.Overdrawn? ==> stop == Some((run.offending, run.requested)))
    ensures store.catalog == old(store.catalog) && store.batches == old(store.batches)
    ensures store.warehouses == old(store.warehouses)
    ensures store.nextNomId == old(store.nextNomId) && store.nextBatchId == old(store.nextBatchId)
    ensures store.nextWarehouseId == old(store.nextWarehouseId)
    ensures var run := DrawFrom(d, cands, Progress(old(store.live), old(store.journal), 0));
      store.Snapshot() == old(store.Snapshot()).(live := run.p.live, journal := run.p.journal)
  {
    ghost var p := Progress(store.live, store.journal, 0);
    ghost var run := DrawFrom(d, cands, p);
    total := 0;
    var i := 0;
    while i < |cands|
      invariant 0 <= i <= |cands|
      invariant p == Progress(store.live, store.journal, total)
      invariant DrawFrom(d, cands[i..], p) == run
      invariant store.catalog == old(store.catalog) && store.batches == old(store.batches)
      invariant store.warehouses == old(store.warehouses)
      invariant store.nextNomId == old(store.nextNomId) && store.nextBatchId == old(store.nextBatchId)
      invariant store.nextWarehouseId == old(store.nextWarehouseId)
    {
      var lb := cands[i];
      DrawFromAt(d, cands, i, p);
      if !Selected(d.amounts, lb) {
        i := i + 1;
        continue;
      }
      var qty := d.amounts[lb.id];
      if qty > lb.currentQuantity {
        return Some((lb, qty)), total;
      }
      DrawOne(store, d, lb, qty);
      p := Apply(d, p, lb, qty);
      total := total + qty;
      i := i + 1;
    }
    assert cands[i..] == [];
    stop := None;
  }

  /** The view's first loop over the live rows: is any amount in the request positive? */
  method ScanSelection(amounts: map<LiveId, int>, cands: seq<LiveBatch>) returns (found: bool)
    ensures found <==> HasSelection(amounts, cands)
  {
    found := false;
    var i := 0;
    while i < |cands|
      invariant 0 <= i <= |cands|
      invariant forall k :: 0 <= k < i ==> !Selected(amounts, cands[k])
    {
      if Selected(amounts, cands[i]) {
        found := true;
        return;
      }
      i := i + 1;
    }
  }

  /** The end of the view's successful path: a positive total is taken off the stock row. */
  method Settle(store: Store, wid: WarehouseId, total: int, ghost t: Tables)
    requires wid in store.warehouses && t == store.Snapshot()
    modifies store
    ensures store.Snapshot() == t.(warehouses :=
        if total > 0 then SetWeight(t.warehouses, wid, t.warehouses[wid].currentWeight - total)
        else t.warehouses)
  {
    if total > 0 {
      var warehouse := store.warehouses[wid];
      store.warehouses := SetWeight(store.warehouses, wid, warehouse.currentWeight - total);
    }
  }

  /** `warehouse_deduction` for a POST to stock row `wid`: the same steps as the view, in
      the same order, on the tables of `store`. */
  method Deduct(store: Store, wid: WarehouseId, req: DeductionRequest, now: int) returns (r: DeductionResult)
    requires store.Valid()
    modifies store
    ensures store.Valid()
    ensures Outcome(store.Snapshot(), r) == DeductSpec(old(store.Snapshot()), wid, req, now)
  {
    ghost var t0 := store.Snapshot();
    if wid !in store.warehouses {
      DeductRefusals(t0, wid, req, now);
      return WarehouseNotFound;
    }
    var warehouse := store.warehouses[wid];
    var liveBatches := LiveBatchesOf(store.Snapshot(), warehouse.nomenclature);
    var reason, document, note := Strip(req.reason), Strip(req.document), Strip(req.note);
    if reason == [] {
      DeductRefusals(t0, wid, req, now);
      return MissingReason;
    }

    var hasSelection := ScanSelection(req.amounts, liveBatches);
    if !hasSelection {
      DeductRefusals(t0, wid, req, now);
      return EmptySelection;
    }

    var d := Draw(warehouse.nomenclature, reason, document, note, now, req.amounts);
    var stop, totalDeducted := DrawAll(store, d, liveBatches);
    ghost var run := RunFor(t0, wid, req, now);
    assert run == DrawFrom(d, liveBatches, Progress(t0.live, t0.journal, 0));
    if stop.Some? {
      DeductStops(t0, wid, req, now, store.Snapshot());
      var (lb, qty) := stop.value;
      return InsufficientBalance(lb.productBatch, lb.currentQuantity, qty);
    }
    ghost var drawn := store.Snapshot();
    Settle(store, wid, totalDeducted, drawn);
    r := Deducted(totalDeducted);
    DeductFinishes(t0, wid, req, now, drawn, store.Snapshot(), totalDeducted);
  }
}
