/** Any number of reconciliation passes at once, cut at every single store operation. */
module ReconRace {
  import opened Domain
  import opened Store
  import opened Gateway
  import opened Recon
  import opened ReconResult
  import opened ReconLaws

  /** Where a pass stands inside its current item: before its first store operation,
      before `GetPayment`, or before `UpsertPayment` with the row it found and the row it decided on. */
  datatype Stage = Fresh | Reading | Writing(found: Option<Payment>, row: Payment)

  /** `items` is what the gateway listed to this pass, `inserted` are the ledger ids it was told it
      inserted, `backfilled` the intents it counts as backfilled payments, `reported` its `Backfilled` counter. */
  datatype Worker = Worker(
    items: seq<Item>, idx: nat, stage: Stage, inserted: set<string>, backfilled: set<string>, reported: nat)

  function NewWorker(items: seq<Item>): Worker {
    Worker(items, 0, Fresh, {}, {}, 0)
  }

  predicate Done(w: Worker) {
    w.idx >= |w.items|
  }

  function Next(w: Worker): Worker {
    w.(idx := w.idx + 1, stage := Fresh)
  }

  function Decide(w: Worker, found: Option<Payment>, row: Option<Payment>): Worker {
    if row.None? then Next(w)
    else w.(stage := Writing(found, row.value),
            backfilled := w.backfilled + (if found.None? then {row.value.intentID} else {}),
            reported := w.reported + if found.None? then 1 else 0)
  }

  /** One store operation of one pass. */
  function StepWorker(d: Data, a: string, w: Worker, now: int): (Data, Worker)
    requires !Done(w)
  {
    if w.stage.Writing? then (PutPayment(d, w.stage.row), Next(w))
    else match w.items[w.idx]
      case Txn(tx) =>
        if w.stage.Fresh? then
          var told := w.(inserted := w.inserted + (if tx.id in d.ledger then {} else {tx.id}),
                         reported := w.reported + if tx.id in d.ledger then 0 else 1);
          (PutLedger(d, Entry(a, tx)), if IsCharge(tx) then told.(stage := Reading) else Next(told))
        else
          (d, var found := FindPayment(d, a, tx.sourceID); Decide(w, found, ChargeRow(a, found, tx, now)))
      case Intent(pi) =>
        (d, var found := FindPayment(d, a, pi.id); Decide(w, found, FailRow(a, found, pi, now)))
  }

  datatype Race = Race(data: Data, workers: seq<Worker>)

  /** Which pass moves, and what its clock shows. */
  datatype Choice = Choice(who: nat, now: int)

  function StepRace(s: Race, a: string, c: Choice): Race {
    if c.who < |s.workers| && !Done(s.workers[c.who]) then
      var (d, w) := StepWorker(s.data, a, s.workers[c.who], c.now);
      Race(d, s.workers[c.who := w])
    else s
  }

  /** The schedule is arbitrary. */
  function Exec(s: Race, a: string, schedule: seq<Choice>): Race {
    if |schedule| == 0 then s
    else
      var n := |schedule| - 1;
      StepRace(Exec(s, a, schedule[..n]), a, schedule[n])
  }

  /** One pass for each list. */
  function Launch(d: Data, lists: seq<seq<Item>>): Race {
    Race(d, seq(|lists|, i requires 0 <= i < |lists| => NewWorker(lists[i])))
  }

  ghost predicate AllDone(s: Race) {
    forall i :: 0 <= i < |s.workers| ==> Done(s.workers[i])
  }

  /** One listing of the gateway gives one reason per failed intent. */
  ghost predicate OneReason(items: seq<Item>) {
    forall i, j | 0 <= i < |items| && 0 <= j < |items| && items[i].Intent? && items[j].Intent? ::
      items[i].pi.id == items[j].pi.id ==> items[i].pi.failureReason == items[j].pi.failureReason
  }

  /** `own` lists the same facts as `items`: a gateway that does not change in between may still
      list its intents in another order to each pass. */
  ghost predicate SameFacts(items: seq<Item>, own: seq<Item>) {
    && Ordered(own)
    && OneReason(own)
    && (forall id :: FirstCharge(own, id) == FirstCharge(items, id))
    && (forall id :: FirstFail(own, id) == FirstFail(items, id))
    && (forall t :: FirstTxn(own, t) == FirstTxn(items, t))
  }

  /* ---------- what can be in one cell ---------- */

  /** The row an intent had when the passes were launched, and what the lists say of it. */
  datatype Fate = Fate(was: Option<Payment>, charge: Option<BalanceTxn>, fail: Option<PaymentIntent>)

  function FateOf(d: Data, a: string, items: seq<Item>, id: string): Fate {
    Fate(FindPayment(d, a, id), FirstCharge(items, id), FirstFail(items, id))
  }

  function Base(f: Fate, a: string): Option<Payment> {
    if f.was.Some? then f.was
    else if f.charge.Some? then Some(BackfillRow(a, f.charge.value.sourceID, f.charge.value.amount, Succeeded, "", f.charge.value.created, 0))
    else if f.fail.Some? then Some(BackfillRow(a, f.fail.value.id, f.fail.value.amount, Failed, f.fail.value.failureReason, f.fail.value.created, 0))
    else None
  }

  /** `p` is the base row with this status and reason, at any update time. */
  predicate Is(p: Payment, base: Option<Payment>, status: Status, reason: string) {
    base.Some? && p.(updatedAt := 0) == base.value.(status := status, failureReason := reason, updatedAt := 0)
  }

  predicate FailedRow(p: Payment, f: Fate, a: string) {
    f.fail.Some? && Is(p, Base(f, a), Failed, f.fail.value.failureReason)
  }

  /** A row some pass has written, or one that looks the same. */
  predicate Moved(p: Payment, f: Fate, a: string) {
    var b := Base(f, a);
    || (f.charge.Some? && b.Some? && Is(p, b, Succeeded, b.value.failureReason))
    || (f.charge.Some? && f.fail.Some? && Is(p, b, Succeeded, f.fail.value.failureReason))
    || (FailedRow(p, f, a) && (f.charge.None? && f.was.Some? ==> f.was.value.status != Failed))
  }

  predicate Legal(p: Payment, f: Fate, a: string) {
    (f.was.Some? && Is(p, f.was, f.was.value.status, f.was.value.failureReason)) || Moved(p, f, a)
  }

  /** A worker's pending write is a row of its item's intent, and of its phase. */
  ghost predicate WriteOk(d0: Data, a: string, w: Worker) {
    && (w.stage.Reading? ==> !Done(w) && w.items[w.idx].Txn? && IsCharge(w.items[w.idx].tx))
    && (w.stage.Writing? ==>
      && !Done(w)
      && var item := w.items[w.idx];
         var f := FateOf(d0, a, w.items, ItemID(item));
         && RowKey(w.stage.row.accountID, w.stage.row.intentID) == RowKey(a, ItemID(item))
         && Moved(w.stage.row, f, a)
         && (item.Txn? ==> IsCharge(item.tx))
         && (item.Intent? ==> item.pi.status == Failed && FailedRow(w.stage.row, f, a)))
  }

  ghost predicate WorkerOk(d0: Data, a: string, items: seq<Item>, w: Worker) {
    SameFacts(items, w.items) && w.idx <= |w.items| && WriteOk(d0, a, w)
  }

  predicate PastCharge(w: Worker, id: string) {
    w.idx <= |w.items| && FirstCharge(w.items[..w.idx], id).Some?
  }

  predicate PastFail(w: Worker, id: string) {
    w.idx <= |w.items| && FirstFail(w.items[..w.idx], id).Some?
  }

  /** What holds of one intent's row while passes run. */
  ghost predicate CellInv(d0: Data, a: string, items: seq<Item>, cell: Option<Payment>, ws: seq<Worker>, id: string) {
    var f := FateOf(d0, a, items, id);
    && (f.was.Some? ==> cell.Some?)
    && (cell.Some? ==> Legal(cell.value, f, a) && RowKey(cell.value.accountID, cell.value.intentID) == RowKey(a, id))
    && (forall i :: 0 <= i < |ws| && PastCharge(ws[i], id) ==> cell.Some? && Moved(cell.value, f, a))
    && (forall i :: 0 <= i < |ws| && PastFail(ws[i], id) ==>
          cell.Some? && (f.charge.None? ==> cell.value.status == Failed))
    && (f.charge.Some? && f.fail.Some? ==>
          (exists i :: 0 <= i < |ws| && !PastFail(ws[i], id)) || (cell.Some? && FailedRow(cell.value, f, a)))
  }

  ghost predicate PaymentsInv(d0: Data, a: string, items: seq<Item>, s: Race) {
    && Keyed(s.data)
    && |s.workers| > 0
    && (forall i :: 0 <= i < |s.workers| ==> WorkerOk(d0, a, items, s.workers[i]))
    && (forall id :: CellInv(d0, a, items, FindPayment(s.data, a, id), s.workers, id))
    && (forall k :: !OwnKey(a, k) ==> Cell(s.data, k) == Cell(d0, k))
  }

  /** The first charge of a prefix is the first charge of the whole. */
  lemma {:induction false} FirstOfPrefix(items: seq<Item>, n: nat, id: string)
    requires n <= |items|
    ensures FirstCharge(items[..n], id).Some? ==> FirstCharge(items, id) == FirstCharge(items[..n], id)
    ensures FirstFail(items[..n], id).Some? ==> FirstFail(items, id) == FirstFail(items[..n], id)
    ensures FirstTxn(items[..n], id).Some? ==> FirstTxn(items, id) == FirstTxn(items[..n], id)
    decreases |items| - n
  {
    if n < |items| {
      FirstOfPrefix(items, n + 1, id);
      assert items[..n + 1][..n] == items[..n];
    } else {
      assert items[..n] == items;
    }
  }

  lemma PastNext(items: seq<Item>, n: nat, id: string)
    requires n < |items|
    ensures FirstCharge(items[..n + 1], id).Some? <==> FirstCharge(items[..n], id).Some? || ChargeOf(items[n], id)
    ensures FirstFail(items[..n + 1], id).Some? <==> FirstFail(items[..n], id).Some? || FailOf(items[n], id)
    ensures FirstTxn(items[..n + 1], id).Some? <==> FirstTxn(items[..n], id).Some? || (items[n].Txn? && items[n].tx.id == id)
  {
    assert items[..n + 1][..n] == items[..n];
  }

  /** In the second phase every charge is past; in the first no failure is. */
  lemma Phases(items: seq<Item>, n: nat, id: string)
    requires Ordered(items) && n < |items|
    ensures items[n].Intent? ==> FirstCharge(items, id) == FirstCharge(items[..n], id)
    ensures items[n].Txn? ==> FirstFail(items[..n], id).None?
  {
    FirstOfPrefix(items, n, id);
    if items[n].Intent? && FirstCharge(items, id).Some? {
      var t := Txn(FirstCharge(items, id).value);
      assert t in items;
      var j :| 0 <= j < |items| && items[j] == t;
      assert j < n;
      assert items[..n][j] == t;
      assert t in items[..n];
    }
  }

  /** What a pass decides to write for a charge. */
  lemma ChargeDecision(d0: Data, a: string, items: seq<Item>, cell: Option<Payment>, n: nat, now: int)
    requires n < |items| && items[n].Txn? && IsCharge(items[n].tx)
    requires var f := FateOf(d0, a, items, items[n].tx.sourceID);
      && (cell.Some? ==> Legal(cell.value, f, a))
      && (cell.None? ==> f.was.None? && FirstCharge(items[..n], items[n].tx.sourceID).None?)
    ensures var f := FateOf(d0, a, items, items[n].tx.sourceID);
            var row := ChargeRow(a, cell, items[n].tx, now);
      && f.charge.Some?
      && (row.Some? ==> Moved(row.value, f, a))
      && (row.None? ==> cell.Some? && Moved(cell.value, f, a))
  {
    var id := items[n].tx.sourceID;
    PastNext(items, n, id);
    assert items[..n + 1][..n] == items[..n];
    FirstOfPrefix(items, n + 1, id);
  }

  /** What a pass decides to write for a failed intent. */
  lemma FailDecision(d0: Data, a: string, items: seq<Item>, cell: Option<Payment>, n: nat, now: int)
    requires n < |items| && items[n].Intent? && items[n].pi.status == Failed && OneReason(items)
    requires var id := items[n].pi.id; var f := FateOf(d0, a, items, id);
      && (cell.Some? ==> Legal(cell.value, f, a))
      && (cell.None? ==> f.was.None? && FirstFail(items[..n], id).None? && f.charge.None?)
      && (f.charge.Some? ==> cell.Some? && Moved(cell.value, f, a))
    ensures var f := FateOf(d0, a, items, items[n].pi.id);
            var row := FailRow(a, cell, items[n].pi, now);
      && f.fail.Some?
      && (row.Some? ==> FailedRow(row.value, f, a) && Moved(row.value, f, a))
      && (row.None? ==> cell.Some? && cell.value.status == Failed && (f.charge.Some? ==> FailedRow(cell.value, f, a)))
  {
    var id := items[n].pi.id;
    PastNext(items, n, id);
    assert items[..n + 1][..n] == items[..n];
    FirstOfPrefix(items, n + 1, id);
    var fl := FirstFail(items, id).value;
    assert Intent(fl) in items;
    var j :| 0 <= j < |items| && items[j] == Intent(fl);
    assert items[j].pi.failureReason == items[n].pi.failureReason;
  }

  /* ---------- every operation keeps the invariant ---------- */

  /** A worker moves on (or stays) without touching this cell. */
  lemma CellFrame(d0: Data, a: string, items: seq<Item>, cell: Option<Payment>, ws: seq<Worker>, i: nat, w: Worker, id: string)
    requires i < |ws| && w.items == ws[i].items && ws[i].idx <= |w.items|
    requires CellInv(d0, a, items, cell, ws, id)
    requires w.idx == ws[i].idx || (w.idx == ws[i].idx + 1 && !Done(ws[i]))
    requires w.idx == ws[i].idx + 1 ==>
      var f := FateOf(d0, a, items, id);
      && (ChargeOf(w.items[ws[i].idx], id) ==> cell.Some? && Moved(cell.value, f, a))
      && (FailOf(w.items[ws[i].idx], id) ==> cell.Some? && cell.value.status == Failed && (f.charge.Some? ==> FailedRow(cell.value, f, a)))
    ensures CellInv(d0, a, items, cell, ws[i := w], id)
  {
    var f := FateOf(d0, a, items, id);
    var vs := ws[i := w];
    if w.idx == ws[i].idx + 1 {
      PastNext(w.items, ws[i].idx, id);
    }
    if f.charge.Some? && f.fail.Some? && !(cell.Some? && FailedRow(cell.value, f, a)) {
      var j :| 0 <= j < |ws| && !PastFail(ws[j], id);
      assert !PastFail(vs[j], id);
    }
  }

  /** A pending write lands in its own cell. */
  lemma CellWrite(d0: Data, a: string, items: seq<Item>, cell: Option<Payment>, ws: seq<Worker>, i: nat)
    requires i < |ws| && WorkerOk(d0, a, items, ws[i])
    requires ws[i].stage.Writing?
    requires CellInv(d0, a, items, cell, ws, ItemID(ws[i].items[ws[i].idx]))
    ensures CellInv(d0, a, items, Some(ws[i].stage.row), ws[i := Next(ws[i])], ItemID(ws[i].items[ws[i].idx]))
  {
    var own, n := ws[i].items, ws[i].idx;
    var id := ItemID(own[n]);
    var vs := ws[i := Next(ws[i])];
    assert FateOf(d0, a, own, id) == FateOf(d0, a, items, id);
    PastNext(own, n, id);
    assert own[n] in own;
    Phases(own, n, id);
    if own[n].Txn? {
      assert ChargeOf(own[n], id);
      assert !PastFail(vs[i], id);
    }
  }

  lemma WriteKeeps(d0: Data, a: string, items: seq<Item>, s: Race, c: Choice)
    requires PaymentsInv(d0, a, items, s)
    requires c.who < |s.workers| && s.workers[c.who].stage.Writing?
    ensures PaymentsInv(d0, a, items, StepRace(s, a, c))
  {
    var w := s.workers[c.who];
    assert WorkerOk(d0, a, items, w);
    var t := StepRace(s, a, c);
    var mine := ItemID(w.items[w.idx]);
    forall id ensures CellInv(d0, a, items, FindPayment(t.data, a, id), t.workers, id) {
      assert CellInv(d0, a, items, FindPayment(s.data, a, id), s.workers, id);
      OwnKeyIff(a, RowKey(a, id), id);
      OwnKeyIff(a, RowKey(a, id), mine);
      if id == mine {
        CellWrite(d0, a, items, FindPayment(s.data, a, id), s.workers, c.who);
      } else {
        assert FindPayment(t.data, a, id) == FindPayment(s.data, a, id);
        CellFrame(d0, a, items, FindPayment(s.data, a, id), s.workers, c.who, t.workers[c.who], id);
      }
    }
    forall k | !OwnKey(a, k) ensures Cell(t.data, k) == Cell(d0, k) {
      OwnKeyIff(a, k, mine);
    }
    assert Keyed(t.data);
  }

  /** What a pass knows of the row it is about to read. */
  ghost predicate Known(d0: Data, a: string, w: Worker, cell: Option<Payment>)
    requires !Done(w)
  {
    var id := ItemID(w.items[w.idx]);
    var f := FateOf(d0, a, w.items, id);
    && (f.was.Some? ==> cell.Some?)
    && (cell.Some? ==> Legal(cell.value, f, a) && RowKey(cell.value.accountID, cell.value.intentID) == RowKey(a, id))
    && (FirstCharge(w.items[..w.idx], id).Some? ==> cell.Some? && Moved(cell.value, f, a))
    && (FirstFail(w.items[..w.idx], id).Some? ==> cell.Some?)
  }

  /** A pass may move past its item only if the row it read says what the item says. */
  ghost predicate Decided(d0: Data, a: string, w: Worker, cell: Option<Payment>, v: Worker)
    requires !Done(w)
  {
    var item := w.items[w.idx];
    var f := FateOf(d0, a, w.items, ItemID(item));
    && v.items == w.items
    && WriteOk(d0, a, v)
    && (v.idx == w.idx || v.idx == w.idx + 1)
    && (v.idx == w.idx + 1 ==>
         && (ChargeOf(item, ItemID(item)) ==> cell.Some? && Moved(cell.value, f, a))
         && (FailOf(item, ItemID(item)) ==> cell.Some? && cell.value.status == Failed && (f.charge.Some? ==> FailedRow(cell.value, f, a))))
  }

  lemma TxnDecides(d0: Data, a: string, d: Data, w: Worker, now: int)
    requires !Done(w) && !w.stage.Writing? && WriteOk(d0, a, w) && w.items[w.idx].Txn?
    requires Known(d0, a, w, FindPayment(d, a, ItemID(w.items[w.idx])))
    ensures Decided(d0, a, w, FindPayment(d, a, ItemID(w.items[w.idx])), StepWorker(d, a, w, now).1)
  {
    var tx := w.items[w.idx].tx;
    if IsCharge(tx) {
      ChargeDecision(d0, a, w.items, FindPayment(d, a, tx.sourceID), w.idx, now);
    }
  }

  lemma IntentDecides(d0: Data, a: string, d: Data, w: Worker, now: int)
    requires !Done(w) && !w.stage.Writing? && WriteOk(d0, a, w) && w.items[w.idx].Intent?
    requires Ordered(w.items) && OneReason(w.items)
    requires Known(d0, a, w, FindPayment(d, a, ItemID(w.items[w.idx])))
    ensures Decided(d0, a, w, FindPayment(d, a, ItemID(w.items[w.idx])), StepWorker(d, a, w, now).1)
  {
    var pi := w.items[w.idx].pi;
    if pi.status == Failed {
      Phases(w.items, w.idx, pi.id);
      FailDecision(d0, a, w.items, FindPayment(d, a, pi.id), w.idx, now);
    }
  }

  /** A read, or a ledger insert: what the pass then intends to write is fine. */
  lemma ReadDecides(d0: Data, a: string, items: seq<Item>, s: Race, w: Worker, i: nat, now: int)
    requires PaymentsInv(d0, a, items, s)
    requires i < |s.workers| && w == s.workers[i] && !Done(w) && !w.stage.Writing?
    ensures Decided(d0, a, w, FindPayment(s.data, a, ItemID(w.items[w.idx])), StepWorker(s.data, a, w, now).1)
  {
    assert WorkerOk(d0, a, items, w);
    var id := ItemID(w.items[w.idx]);
    var cell := FindPayment(s.data, a, id);
    assert Known(d0, a, w, cell) by {
      assert CellInv(d0, a, items, cell, s.workers, id);
      assert FirstCharge(w.items[..w.idx], id).Some? ==> PastCharge(w, id);
      assert FirstFail(w.items[..w.idx], id).Some? ==> PastFail(w, id);
      assert FateOf(d0, a, w.items, id) == FateOf(d0, a, items, id);
    }
    if w.items[w.idx].Txn? {
      TxnDecides(d0, a, s.data, w, now);
    } else {
      IntentDecides(d0, a, s.data, w, now);
    }
  }

  lemma ReadKeeps(d0: Data, a: string, items: seq<Item>, s: Race, c: Choice)
    requires PaymentsInv(d0, a, items, s)
    requires c.who < |s.workers| && !Done(s.workers[c.who]) && !s.workers[c.who].stage.Writing?
    ensures PaymentsInv(d0, a, items, StepRace(s, a, c))
  {
    var w := s.workers[c.who];
    assert WorkerOk(d0, a, items, w);
    var t := StepRace(s, a, c);
    var v := t.workers[c.who];
    ReadDecides(d0, a, items, s, w, c.who, c.now);
    assert t.data.payments == s.data.payments;
    forall id ensures CellInv(d0, a, items, FindPayment(t.data, a, id), t.workers, id) {
      assert CellInv(d0, a, items, FindPayment(s.data, a, id), s.workers, id);
      assert FateOf(d0, a, w.items, id) == FateOf(d0, a, items, id);
      CellFrame(d0, a, items, FindPayment(s.data, a, id), s.workers, c.who, v, id);
    }
    forall k | !OwnKey(a, k) ensures Cell(t.data, k) == Cell(d0, k) {
      assert Cell(s.data, k) == Cell(d0, k);
    }
  }

  /** Every pass is given the facts of `items`. */
  ghost predicate SameLists(items: seq<Item>, lists: seq<seq<Item>>) {
    |lists| > 0 && forall i :: 0 <= i < |lists| ==> SameFacts(items, lists[i])
  }

  lemma LaunchInv(d0: Data, a: string, items: seq<Item>, lists: seq<seq<Item>>)
    requires Keyed(d0) && SameLists(items, lists)
    ensures PaymentsInv(d0, a, items, Launch(d0, lists))
  {
    var s := Launch(d0, lists);
    assert forall i :: 0 <= i < |lists| ==> lists[i][..0] == [];
    forall id ensures CellInv(d0, a, items, FindPayment(d0, a, id), s.workers, id) {
      assert !PastFail(s.workers[0], id);
    }
  }

  lemma {:induction false} ExecInv(d0: Data, a: string, items: seq<Item>, lists: seq<seq<Item>>, schedule: seq<Choice>)
    requires Keyed(d0) && SameLists(items, lists)
    ensures PaymentsInv(d0, a, items, Exec(Launch(d0, lists), a, schedule))
  {
    if |schedule| == 0 {
      LaunchInv(d0, a, items, lists);
    } else {
      var n := |schedule| - 1;
      ExecInv(d0, a, items, lists, schedule[..n]);
      var s := Exec(Launch(d0, lists), a, schedule[..n]);
      var c := schedule[n];
      if c.who < |s.workers| && !Done(s.workers[c.who]) {
        if s.workers[c.who].stage.Writing? {
          WriteKeeps(d0, a, items, s, c);
        } else {
          ReadKeeps(d0, a, items, s, c);
        }
      }
    }
  }

  /** When every pass is done, each cell is settled. */
  lemma DoneCell(d0: Data, a: string, items: seq<Item>, s: Race, id: string)
    requires PaymentsInv(d0, a, items, s) && AllDone(s)
    ensures Timeless(FindPayment(s.data, a, id)) ==
            Timeless(Settle(FindPayment(d0, a, id), a, FirstCharge(items, id), FirstFail(items, id)))
  {
    var cell := FindPayment(s.data, a, id);
    assert CellInv(d0, a, items, cell, s.workers, id);
    forall i | 0 <= i < |s.workers|
      ensures FirstCharge(items, id).Some? <==> PastCharge(s.workers[i], id)
      ensures FirstFail(items, id).Some? <==> PastFail(s.workers[i], id)
    {
      var w := s.workers[i];
      assert WorkerOk(d0, a, items, w);
      assert w.items[..w.idx] == w.items;
    }
    assert FirstCharge(items, id).Some? ==> PastCharge(s.workers[0], id);
    assert FirstFail(items, id).Some? ==> PastFail(s.workers[0], id);
  }

  /* ---------- the ledger ---------- */

  ghost predicate LedgerInv(d0: Data, a: string, items: seq<Item>, s: Race) {
    && s.data == d0.(payments := s.data.payments, ledger := s.data.ledger)
    && (forall t | t in d0.ledger :: t in s.data.ledger && s.data.ledger[t] == d0.ledger[t])
    && (forall t | t in s.data.ledger && t !in d0.ledger ::
          FirstTxn(items, t).Some? && s.data.ledger[t] == Entry(a, FirstTxn(items, t).value))
    && (forall i :: 0 <= i < |s.workers| ==> WorkerLedger(items, s.data, s.workers[i]))
  }

  /** Every transaction a pass has dealt with is in the ledger. */
  ghost predicate WorkerLedger(items: seq<Item>, d: Data, w: Worker) {
    && SameFacts(items, w.items)
    && w.idx <= |w.items|
    && (forall t | FirstTxn(w.items[..w.idx], t).Some? :: t in d.ledger)
    && (!w.stage.Fresh? && !Done(w) && w.items[w.idx].Txn? ==> w.items[w.idx].tx.id in d.ledger)
  }

  ghost function Told(ws: seq<Worker>): (r: seq<set<string>>)
    ensures |r| == |ws| && forall i :: 0 <= i < |ws| ==> r[i] == ws[i].inserted
  {
    seq(|ws|, i requires 0 <= i < |ws| => ws[i].inserted)
  }

  /** Each id was told to exactly one pass. */
  ghost predicate OneTeller(ids: set<string>, told: seq<set<string>>) {
    && (forall i, j :: 0 <= i < j < |told| ==> told[i] !! told[j])
    && (forall i, t :: 0 <= i < |told| && t in told[i] ==> t in ids)
    && (forall t | t in ids :: exists i :: 0 <= i < |told| && t in told[i])
  }

  /** Each new ledger row was reported as inserted to exactly one pass. */
  ghost predicate OneInserter(d0: Data, s: Race) {
    OneTeller(s.data.ledger.Keys - d0.ledger.Keys, Told(s.workers))
  }

  /** What one operation does to the ledger and to the pass's own place. */
  lemma LedgerEffect(a: string, d: Data, w: Worker, now: int)
    requires !Done(w)
    ensures var (e, v) := StepWorker(d, a, w, now);
            var item := w.items[w.idx];
      && (if item.Txn? && w.stage.Fresh? then
            e.ledger == PutLedger(d, Entry(a, item.tx)).ledger
            && v.inserted == w.inserted + if item.tx.id in d.ledger then {} else {item.tx.id}
          else e.ledger == d.ledger && v.inserted == w.inserted)
      && v.items == w.items
      && (v.idx == w.idx || (v.idx == w.idx + 1 && v.stage.Fresh?))
  {
  }

  lemma WorkerLedgerStep(items: seq<Item>, a: string, d: Data, w: Worker, now: int)
    requires !Done(w) && WorkerLedger(items, d, w)
    ensures var (e, v) := StepWorker(d, a, w, now);
            WorkerLedger(items, e, v)
  {
    var (e, v) := StepWorker(d, a, w, now);
    LedgerEffect(a, d, w, now);
    forall t | FirstTxn(w.items[..v.idx], t).Some? ensures t in e.ledger {
      PastNext(w.items, w.idx, t);
    }
  }

  /** New entries are the first transaction of their id, and the pass that inserts one is told so. */
  lemma NewEntries(items: seq<Item>, a: string, d: Data, w: Worker, now: int)
    requires !Done(w) && WorkerLedger(items, d, w)
    ensures var (e, v) := StepWorker(d, a, w, now);
      && (forall t | t in d.ledger :: t in e.ledger && e.ledger[t] == d.ledger[t])
      && v.inserted == w.inserted + (e.ledger.Keys - d.ledger.Keys)
      && (forall t | t in e.ledger && t !in d.ledger ::
            FirstTxn(items, t).Some? && e.ledger[t] == Entry(a, FirstTxn(items, t).value))
  {
    LedgerEffect(a, d, w, now);
    var (e, v) := StepWorker(d, a, w, now);
    if w.items[w.idx].Txn? && w.stage.Fresh? && w.items[w.idx].tx.id !in d.ledger {
      NewTxnIsFirst(w.items, w.idx, w.items[w.idx].tx.id);
    }
  }

  lemma NewTxnIsFirst(items: seq<Item>, n: nat, t: string)
    requires n < |items| && items[n].Txn? && items[n].tx.id == t && FirstTxn(items[..n], t).None?
    ensures FirstTxn(items, t) == Some(items[n].tx)
  {
    assert items[..n + 1][..n] == items[..n];
    FirstOfPrefix(items, n + 1, t);
  }

  lemma {:induction false} ExecLedger(d0: Data, a: string, items: seq<Item>, lists: seq<seq<Item>>, schedule: seq<Choice>)
    requires SameLists(items, lists)
    ensures var s := Exec(Launch(d0, lists), a, schedule);
            LedgerInv(d0, a, items, s) && OneInserter(d0, s) && |s.workers| == |lists|
  {
    if |schedule| > 0 {
      var n := |schedule| - 1;
      ExecLedger(d0, a, items, lists, schedule[..n]);
      var s := Exec(Launch(d0, lists), a, schedule[..n]);
      var c := schedule[n];
      if c.who < |lists| && !Done(s.workers[c.who]) {
        StepLedger(d0, a, items, s, c);
        StepInserter(d0, a, items, s, c);
      }
    } else {
      assert forall i :: 0 <= i < |lists| ==> lists[i][..0] == [];
    }
  }

  lemma StepLedger(d0: Data, a: string, items: seq<Item>, s: Race, c: Choice)
    requires LedgerInv(d0, a, items, s)
    requires c.who < |s.workers| && !Done(s.workers[c.who])
    ensures LedgerInv(d0, a, items, StepRace(s, a, c))
  {
    var t := StepRace(s, a, c);
    WorkerLedgerStep(items, a, s.data, s.workers[c.who], c.now);
    NewEntries(items, a, s.data, s.workers[c.who], c.now);
    forall i | 0 <= i < |t.workers| ensures WorkerLedger(items, t.data, t.workers[i]) {
      assert WorkerLedger(items, s.data, s.workers[i]);
    }
  }

  lemma TellOne(ids: set<string>, told: seq<set<string>>, i: nat, more: set<string>)
    requires OneTeller(ids, told) && i < |told| && more !! ids
    ensures OneTeller(ids + more, told[i := told[i] + more])
  {
    var now := told[i := told[i] + more];
    forall t | t in ids + more ensures exists j :: 0 <= j < |now| && t in now[j] {
      if t in ids {
        var j :| 0 <= j < |told| && t in told[j];
        assert t in now[j];
      } else {
        assert t in now[i];
      }
    }
  }

  lemma StepInserter(d0: Data, a: string, items: seq<Item>, s: Race, c: Choice)
    requires LedgerInv(d0, a, items, s) && OneInserter(d0, s)
    requires c.who < |s.workers| && !Done(s.workers[c.who])
    ensures OneInserter(d0, StepRace(s, a, c))
  {
    var t := StepRace(s, a, c);
    NewEntries(items, a, s.data, s.workers[c.who], c.now);
    var new0, more := s.data.ledger.Keys - d0.ledger.Keys, t.data.ledger.Keys - s.data.ledger.Keys;
    TellOne(new0, Told(s.workers), c.who, more);
    assert Told(t.workers) == Told(s.workers)[c.who := s.workers[c.who].inserted + more];
    assert t.data.ledger.Keys - d0.ledger.Keys == new0 + more;
  }

  /* ---------- the theorem ---------- */

  /** Whatever the schedule, once every pass is done the tables are those of one pass. */
  lemma RaceSettles(d: Data, a: string, items: seq<Item>, lists: seq<seq<Item>>, schedule: seq<Choice>)
    requires Keyed(d) && SameLists(items, lists)
    requires AllDone(Exec(Launch(d, lists), a, schedule))
    ensures var s := Exec(Launch(d, lists), a, schedule);
            SettledFrom(d, s.data, a, items) && OneInserter(d, s)
  {
    var s := Exec(Launch(d, lists), a, schedule);
    ExecInv(d, a, items, lists, schedule);
    ExecLedger(d, a, items, lists, schedule);
    forall k ensures Timeless(Cell(s.data, k)) == Timeless(Settled(d, a, items, k)) {
      if OwnKey(a, k) {
        OwnKeyIff(a, k, IdIn(a, k));
        DoneCell(d, a, items, s, IdIn(a, k));
      }
    }
    forall t ensures EntryCell(s.data, t) == SettledEntry(d, a, items, t) {
      var w := s.workers[0];
      assert WorkerLedger(items, s.data, w);
      assert w.items[..w.idx] == w.items;
    }
  }

  /** Concurrent passes end where one sequential pass ends, up to update times,
      and each new ledger row was counted by exactly one of them. */
  lemma ConcurrentEqualsSequential(d: Data, a: string, items: seq<Item>, lists: seq<seq<Item>>, schedule: seq<Choice>, clock: nat -> int)
    requires Keyed(d) && Ordered(items) && SameLists(items, lists)
    requires AllDone(Exec(Launch(d, lists), a, schedule))
    ensures var s := Exec(Launch(d, lists), a, schedule);
            var one := Run(Start(d, a), a, items, clock).data;
      && (forall k :: Timeless(Cell(s.data, k)) == Timeless(Cell(one, k)))
      && s.data == one.(payments := s.data.payments)
      && OneInserter(d, s)
  {
    var s := Exec(Launch(d, lists), a, schedule);
    var one := Run(Start(d, a), a, items, clock).data;
    RaceSettles(d, a, items, lists, schedule);
    RunSettles(d, a, items, clock);
    forall k ensures Timeless(Cell(s.data, k)) == Timeless(Cell(one, k)) {
      assert Timeless(Cell(s.data, k)) == Timeless(Settled(d, a, items, k));
    }
    forall t ensures EntryCell(s.data, t) == EntryCell(one, t) {
      assert EntryCell(s.data, t) == SettledEntry(d, a, items, t);
    }
    SameLedger(s.data, one);
  }

  /** Two listings of one window of one gateway state differ at most in the order of the intents,
      and that order does not matter. */
  lemma ListingsAgree(acct: GwAccount, from: int, to: int, txns: seq<BalanceTxn>,
                      pis: seq<PaymentIntent>, ks: seq<string>, qis: seq<PaymentIntent>, ls: seq<string>)
    requires AcctInv(acct)
    requires ListsIntents(pis, ks, acct.intents, from, to) && ListsIntents(qis, ls, acct.intents, from, to)
    ensures SameFacts(Items(txns, pis), Items(txns, qis))
  {
    var items, own := Items(txns, pis), Items(txns, qis);
    forall id ensures FirstFail(own, id) == FirstFail(items, id) {
      OneListing(acct, from, to, txns, pis, ks, id);
      OneListing(acct, from, to, txns, qis, ls, id);
    }
    forall id ensures FirstCharge(own, id) == FirstCharge(items, id) && FirstTxn(own, id) == FirstTxn(items, id) {
      FirstsOfTxns(txns, pis, id);
      FirstsOfTxns(txns, qis, id);
    }
    forall i, j | 0 <= i < |own| && 0 <= j < |own| && own[i].Intent? && own[j].Intent? && own[i].pi.id == own[j].pi.id
      ensures own[i].pi.failureReason == own[j].pi.failureReason
    {
      assert IntentOk(acct, ls[i - |txns|]) && IntentOk(acct, ls[j - |txns|]);
    }
  }

  /** The failure a listing shows for `id` is the gateway's own record of it. */
  lemma OneListing(acct: GwAccount, from: int, to: int, txns: seq<BalanceTxn>, pis: seq<PaymentIntent>, ks: seq<string>, id: string)
    requires AcctInv(acct) && ListsIntents(pis, ks, acct.intents, from, to)
    ensures FirstFail(Items(txns, pis), id) ==
            if id in acct.intents && acct.intents[id].status == Failed && InWindow(acct.intents[id].created, from, to)
            then Some(acct.intents[id]) else None
  {
    var items := Items(txns, pis);
    var f := FirstFail(items, id);
    if f.Some? {
      assert Intent(f.value) in items;
      var i :| 0 <= i < |items| && items[i] == Intent(f.value);
      assert pis[i - |txns|] == f.value;
      assert IntentOk(acct, ks[i - |txns|]);
    } else if id in acct.intents && InWindow(acct.intents[id].created, from, to) {
      assert IntentOk(acct, id) && id in ks;
      var j :| 0 <= j < |ks| && ks[j] == id;
      assert items[|txns| + j] == Intent(acct.intents[id]);
      assert Intent(acct.intents[id]) in items;
    }
  }

  /* ---------- every pass finishes ---------- */

  /** Store operations a pass may still need: at most three for each item. */
  function Left(w: Worker): int {
    3 * (|w.items| - w.idx) - (if w.stage.Writing? then 2 else if w.stage.Reading? then 1 else 0)
  }

  function LeftOver(ws: seq<Worker>): int {
    if |ws| == 0 then 0 else LeftOver(ws[..|ws| - 1]) + Left(ws[|ws| - 1])
  }

  lemma {:induction false} LeftUpdate(ws: seq<Worker>, i: nat, w: Worker)
    requires i < |ws|
    ensures LeftOver(ws[i := w]) == LeftOver(ws) - Left(ws[i]) + Left(w)
  {
    var n := |ws| - 1;
    if i < n {
      LeftUpdate(ws[..n], i, w);
      assert ws[i := w][..n] == ws[..n][i := w];
    } else {
      assert ws[i := w][..n] == ws[..n];
    }
  }

  /** A pass that is done has nothing pending. */
  ghost predicate Paused(w: Worker) {
    w.idx <= |w.items| && (Done(w) ==> w.stage.Fresh?)
  }

  lemma {:induction false} LeftNonNegative(ws: seq<Worker>)
    requires forall i :: 0 <= i < |ws| ==> Paused(ws[i])
    ensures LeftOver(ws) >= 0
    ensures LeftOver(ws) == 0 <==> forall i :: 0 <= i < |ws| ==> Done(ws[i])
  {
    if |ws| > 0 {
      var n := |ws| - 1;
      LeftNonNegative(ws[..n]);
      assert Paused(ws[n]) && Left(ws[n]) >= 0 && (Left(ws[n]) == 0 <==> Done(ws[n]));
      assert forall i :: 0 <= i < n ==> ws[..n][i] == ws[i];
    }
  }

  function TotalLength(lists: seq<seq<Item>>): nat {
    if |lists| == 0 then 0 else TotalLength(lists[..|lists| - 1]) + |lists[|lists| - 1]|
  }

  lemma {:induction false} LaunchWork(d: Data, lists: seq<seq<Item>>)
    ensures LeftOver(Launch(d, lists).workers) == 3 * TotalLength(lists)
  {
    if |lists| > 0 {
      var n := |lists| - 1;
      LaunchWork(d, lists[..n]);
      assert Launch(d, lists).workers[..n] == Launch(d, lists[..n]).workers;
    }
  }

  lemma StepLeavesLess(d: Data, a: string, w: Worker, now: int)
    requires !Done(w) && Paused(w)
    ensures var v := StepWorker(d, a, w, now).1;
            Paused(v) && Left(v) < Left(w)
  {
  }

  /** Every choice of the schedule moves a pass that is not done yet. */
  ghost predicate Busy(s: Race, a: string, schedule: seq<Choice>)
    decreases |schedule|
  {
    |schedule| > 0 ==>
      var head, c := schedule[..|schedule| - 1], schedule[|schedule| - 1];
      var t := Exec(s, a, head);
      Busy(s, a, head) && c.who < |t.workers| && !Done(t.workers[c.who])
  }

  lemma BusyStep(s: Race, a: string, c: Choice)
    requires c.who < |s.workers| && !Done(s.workers[c.who])
    requires forall i :: 0 <= i < |s.workers| ==> Paused(s.workers[i])
    ensures var t := StepRace(s, a, c);
            LeftOver(t.workers) < LeftOver(s.workers) && forall i :: 0 <= i < |t.workers| ==> Paused(t.workers[i])
  {
    StepLeavesLess(s.data, a, s.workers[c.who], c.now);
    LeftUpdate(s.workers, c.who, StepWorker(s.data, a, s.workers[c.who], c.now).1);
  }

  /** Passes never wait for each other: however they interleave, every operation leaves less to do,
      so all are done after at most three operations for each listed item. */
  lemma {:induction false} PassesFinish(d: Data, a: string, lists: seq<seq<Item>>, schedule: seq<Choice>)
    requires Busy(Launch(d, lists), a, schedule)
    ensures var s := Exec(Launch(d, lists), a, schedule);
      && (forall i :: 0 <= i < |s.workers| ==> Paused(s.workers[i]))
      && 0 <= LeftOver(s.workers)
      && |schedule| + LeftOver(s.workers) <= 3 * TotalLength(lists)
      && (LeftOver(s.workers) == 0 <==> AllDone(s))
  {
    var start := Launch(d, lists);
    if |schedule| > 0 {
      var n := |schedule| - 1;
      PassesFinish(d, a, lists, schedule[..n]);
      BusyStep(Exec(start, a, schedule[..n]), a, schedule[n]);
    }
    LeftNonNegative(Exec(start, a, schedule).workers);
    LaunchWork(d, lists);
  }

  /* ---------- what concurrency does break ---------- */

  const OnlyTxn := BalanceTxn("txn_1", "charge", Money(500, "USD"), Money(0, "USD"), "pi_1", 7)
  const OnlyItems := [Txn(OnlyTxn)]
  const BothRead := [Choice(0, 9), Choice(1, 9), Choice(0, 9), Choice(1, 9)]
  const Interleaved := BothRead + [Choice(0, 9)] + [Choice(1, 9)]

  lemma ExecSnoc(s: Race, a: string, schedule: seq<Choice>, c: Choice)
    ensures Exec(s, a, schedule + [c]) == StepRace(Exec(s, a, schedule), a, c)
  {
    assert (schedule + [c])[..|schedule|] == schedule;
  }

  /** Both passes have read "not found" and mean to write the same row. */
  lemma BothMiss()
    ensures var s := Exec(Launch(EmptyData, [OnlyItems, OnlyItems]), "acct", BothRead);
            var row := BackfillRow("acct", "pi_1", OnlyTxn.amount, Succeeded, "", 7, 9);
      && s.data == PutLedger(EmptyData, Entry("acct", OnlyTxn))
      && s.workers == [Worker(OnlyItems, 0, Writing(None, row), {"txn_1"}, {"pi_1"}, 2),
                        Worker(OnlyItems, 0, Writing(None, row), {}, {"pi_1"}, 1)]
  {
    var s0 := Launch(EmptyData, [OnlyItems, OnlyItems]);
    assert s0.workers == [NewWorker(OnlyItems), NewWorker(OnlyItems)];
    var s1 := StepRace(s0, "acct", Choice(0, 9));
    var s2 := StepRace(s1, "acct", Choice(1, 9));
    var s3 := StepRace(s2, "acct", Choice(0, 9));
    var s4 := StepRace(s3, "acct", Choice(1, 9));
    var row := BackfillRow("acct", "pi_1", OnlyTxn.amount, Succeeded, "", 7, 9);
    var d := PutLedger(EmptyData, Entry("acct", OnlyTxn));
    assert s2.workers[0].inserted == {"txn_1"} && s2.workers[1].inserted == {};
    assert s2.data == d && s2.workers == [Worker(OnlyItems, 0, Reading, {"txn_1"}, {}, 1), Worker(OnlyItems, 0, Reading, {}, {}, 0)];
    assert s4.workers[0].backfilled == {"pi_1"} && s4.workers[1].backfilled == {"pi_1"};
    assert s4.data == d && s4.workers[0] == Worker(OnlyItems, 0, Writing(None, row), {"txn_1"}, {"pi_1"}, 2);
    assert s4.workers[1] == Worker(OnlyItems, 0, Writing(None, row), {}, {"pi_1"}, 1);
    assert BothRead == [] + [Choice(0, 9)] + [Choice(1, 9)] + [Choice(0, 9)] + [Choice(1, 9)];
    ExecSnoc(s0, "acct", [], Choice(0, 9));
    ExecSnoc(s0, "acct", [] + [Choice(0, 9)], Choice(1, 9));
    ExecSnoc(s0, "acct", [] + [Choice(0, 9)] + [Choice(1, 9)], Choice(0, 9));
    ExecSnoc(s0, "acct", [] + [Choice(0, 9)] + [Choice(1, 9)] + [Choice(0, 9)], Choice(1, 9));
  }

  /** The payment part of `Backfilled` is not exact under concurrency: `GetPayment` and
      `UpsertPayment` are separate operations, so two passes can both count one new row. */
  lemma BackfillCountedTwice()
    ensures var s := Exec(Launch(EmptyData, [OnlyItems, OnlyItems]), "acct", Interleaved);
      && |s.workers| == 2 && AllDone(s)
      && s.workers[0].backfilled == {"pi_1"} && s.workers[1].backfilled == {"pi_1"}
      && s.data.payments.Keys == {RowKey("acct", "pi_1")}
      && s.workers[0].inserted == {"txn_1"} && s.workers[1].inserted == {}
  {
    var s0 := Launch(EmptyData, [OnlyItems, OnlyItems]);
    BothMiss();
    ExecSnoc(s0, "acct", BothRead, Choice(0, 9));
    ExecSnoc(s0, "acct", BothRead + [Choice(0, 9)], Choice(1, 9));
  }
}
