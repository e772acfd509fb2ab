/** What one reconciliation pass does, said without its loops, and what follows from it. */
module ReconResult {
  import opened Domain
  import opened Store
  import opened Gateway
  import opened Recon

  /* ---------- reading item lists ---------- */

  predicate ChargeOf(item: Item, id: string) {
    item.Txn? && IsCharge(item.tx) && item.tx.sourceID == id
  }

  predicate FailOf(item: Item, id: string) {
    item.Intent? && item.pi.status == Failed && item.pi.id == id
  }

  /** The first charge of intent `id`. */
  function FirstCharge(items: seq<Item>, id: string): (r: Option<BalanceTxn>)
    ensures r.Some? ==> Txn(r.value) in items && ChargeOf(Txn(r.value), id)
    ensures r.None? ==> forall x | x in items :: !ChargeOf(x, id)
  {
    if |items| == 0 then None
    else
      var n := |items| - 1;
      assert items == items[..n] + [items[n]];
      var r := FirstCharge(items[..n], id);
      if r.None? && ChargeOf(items[n], id) then Some(items[n].tx) else r
  }

  /** The first failed listing of intent `id`. */
  function FirstFail(items: seq<Item>, id: string): (r: Option<PaymentIntent>)
    ensures r.Some? ==> Intent(r.value) in items && FailOf(Intent(r.value), id)
    ensures r.None? ==> forall x | x in items :: !FailOf(x, id)
  {
    if |items| == 0 then None
    else
      var n := |items| - 1;
      assert items == items[..n] + [items[n]];
      var r := FirstFail(items[..n], id);
      if r.None? && FailOf(items[n], id) then Some(items[n].pi) else r
  }

  /** The first transaction with a given id. */
  function FirstTxn(items: seq<Item>, id: string): (r: Option<BalanceTxn>)
    ensures r.Some? ==> Txn(r.value) in items && r.value.id == id
    ensures r.None? ==> forall x | x in items && x.Txn? :: x.tx.id != id
  {
    if |items| == 0 then None
    else
      var n := |items| - 1;
      assert items == items[..n] + [items[n]];
      var r := FirstTxn(items[..n], id);
      if r.None? && items[n].Txn? && items[n].tx.id == id then Some(items[n].tx) else r
  }

  /* ---------- the settled row ---------- */

  /** A row without the time of its last update. */
  function Timeless(p: Option<Payment>): Option<Payment> {
    match p
    case None => None
    case Some(q) => Some(q.(updatedAt := 0))
  }

  /**
   * The row an intent ends with, from the row it had, its first charge and its first failure.
   * A failure wins over a charge. A row that already says failed keeps its reason
   * unless a charge made the pass rewrite it.
   */
  function Settle(was: Option<Payment>, a: string, charge: Option<BalanceTxn>, fail: Option<PaymentIntent>): Option<Payment> {
    match was
    case Some(p) =>
      if fail.Some? then
        if p.status == Failed && charge.None? then Some(p)
        else Some(p.(status := Failed, failureReason := fail.value.failureReason))
      else if charge.Some? then Some(p.(status := Succeeded))
      else Some(p)
    case None =>
      if charge.Some? && fail.Some? then
        Some(BackfillRow(a, charge.value.sourceID, charge.value.amount, Failed, fail.value.failureReason, charge.value.created, 0))
      else if charge.Some? then
        Some(BackfillRow(a, charge.value.sourceID, charge.value.amount, Succeeded, "", charge.value.created, 0))
      else if fail.Some? then
        Some(BackfillRow(a, fail.value.id, fail.value.amount, Failed, fail.value.failureReason, fail.value.created, 0))
      else None
  }

  /** `k` is the key of a row of account `a`; `IdIn` is then the row's id. */
  predicate OwnKey(a: string, k: string) {
    |a| < |k| && k[..|a|] == a && k[|a|] == '|'
  }

  function IdIn(a: string, k: string): string
    requires OwnKey(a, k)
  {
    k[|a| + 1..]
  }

  lemma OwnKeyIff(a: string, k: string, id: string)
    ensures RowKey(a, id) == k <==> OwnKey(a, k) && IdIn(a, k) == id
  {
    assert RowKey(a, id)[..|a|] == a;
    assert RowKey(a, id)[|a| + 1..] == id;
    if OwnKey(a, k) && IdIn(a, k) == id {
      assert k == k[..|a|] + [k[|a|]] + k[|a| + 1..];
    }
  }

  /** The row that key `k` ends with. */
  function Settled(d: Data, a: string, items: seq<Item>, k: string): Option<Payment> {
    if OwnKey(a, k) then Settle(Cell(d, k), a, FirstCharge(items, IdIn(a, k)), FirstFail(items, IdIn(a, k)))
    else Cell(d, k)
  }

  function SettledEntry(d: Data, a: string, items: seq<Item>, t: string): Option<LedgerEntry> {
    if t in d.ledger then Some(d.ledger[t])
    else if FirstTxn(items, t).Some? then Some(Entry(a, FirstTxn(items, t).value))
    else None
  }

  function EntryCell(d: Data, t: string): Option<LedgerEntry> {
    if t in d.ledger then Some(d.ledger[t]) else None
  }

  /** `after` is `before` with every row and every ledger entry settled, and nothing else touched. */
  ghost predicate SettledFrom(before: Data, after: Data, a: string, items: seq<Item>) {
    && Keyed(after)
    && (forall k :: Timeless(Cell(after, k)) == Timeless(Settled(before, a, items, k)))
    && (forall t :: EntryCell(after, t) == SettledEntry(before, a, items, t))
    && after == before.(payments := after.payments, ledger := after.ledger)
  }

  lemma PutKeyed(d: Data, p: Payment, k: string)
    requires Keyed(d)
    ensures Keyed(PutPayment(d, p))
    ensures Cell(PutPayment(d, p), k) == if k == RowKey(p.accountID, p.intentID) then Some(p) else Cell(d, k)
  {
  }

  lemma TxnSettles(c: Pass, a: string, tx: BalanceTxn, now: int, k: string)
    requires Keyed(c.data)
    ensures var d := DoTxn(c, a, tx, now).data;
      && Keyed(d)
      && d == c.data.(payments := d.payments, ledger := d.ledger)
      && (IsCharge(tx) && k == RowKey(a, tx.sourceID) ==>
            Cell(d, k) == (var row := ChargeRow(a, Cell(c.data, k), tx, now); if row.Some? then row else Cell(c.data, k)))
      && (!(IsCharge(tx) && k == RowKey(a, tx.sourceID)) ==> Cell(d, k) == Cell(c.data, k))
  {
    var d := PutLedger(c.data, Entry(a, tx));
    assert Keyed(d) && Cell(d, k) == Cell(c.data, k);
    var row := ChargeRow(a, FindPayment(d, a, tx.sourceID), tx, now);
    if IsCharge(tx) && row.Some? {
      PutKeyed(d, row.value, k);
    }
  }

  lemma IntentSettles(c: Pass, a: string, pi: PaymentIntent, now: int, k: string)
    requires Keyed(c.data)
    ensures var d := DoIntent(c, a, pi, now).data;
      && Keyed(d)
      && d == c.data.(payments := d.payments)
      && (k == RowKey(a, pi.id) ==>
            Cell(d, k) == (var row := FailRow(a, Cell(c.data, k), pi, now); if row.Some? then row else Cell(c.data, k)))
      && (k != RowKey(a, pi.id) ==> Cell(d, k) == Cell(c.data, k))
  {
    var row := FailRow(a, FindPayment(c.data, a, pi.id), pi, now);
    if row.Some? {
      PutKeyed(c.data, row.value, k);
    }
  }

  /** One item settles one cell. */
  lemma ItemSettles(c: Pass, a: string, item: Item, now: int, k: string)
    requires Keyed(c.data)
    ensures var d := DoItem(c, a, item, now).data;
      && Keyed(d)
      && d == c.data.(payments := d.payments, ledger := d.ledger)
      && (item.Txn? && IsCharge(item.tx) && k == RowKey(a, item.tx.sourceID) ==>
            Cell(d, k) == (var row := ChargeRow(a, Cell(c.data, k), item.tx, now); if row.Some? then row else Cell(c.data, k)))
      && (item.Intent? && k == RowKey(a, item.pi.id) ==>
            Cell(d, k) == (var row := FailRow(a, Cell(c.data, k), item.pi, now); if row.Some? then row else Cell(c.data, k)))
      && (!(item.Txn? && IsCharge(item.tx) && k == RowKey(a, item.tx.sourceID)) && !(item.Intent? && k == RowKey(a, item.pi.id)) ==>
            Cell(d, k) == Cell(c.data, k))
  {
    match item {
      case Txn(tx) => TxnSettles(c, a, tx, now, k);
      case Intent(pi) => IntentSettles(c, a, pi, now, k);
    }
  }

  lemma ItemLedger(c: Pass, a: string, item: Item, now: int, t: string)
    ensures EntryCell(DoItem(c, a, item, now).data, t) ==
            if item.Txn? && item.tx.id == t && t !in c.data.ledger then Some(Entry(a, item.tx)) else EntryCell(c.data, t)
  {
  }

  /** Settling one more item. */
  lemma SettleStep(was: Option<Payment>, cell: Option<Payment>, a: string, items: seq<Item>, id: string, now: int)
    requires |items| > 0 && Ordered(items)
    requires was.Some? ==> RowKey(was.value.accountID, was.value.intentID) == RowKey(a, id)
    requires var head := items[..|items| - 1];
             Timeless(cell) == Timeless(Settle(was, a, FirstCharge(head, id), FirstFail(head, id)))
    ensures var item := items[|items| - 1];
            var next := if item.Txn? && IsCharge(item.tx) && item.tx.sourceID == id then ChargeRow(a, cell, item.tx, now)
                        else if item.Intent? && item.pi.id == id then FailRow(a, cell, item.pi, now)
                        else None;
            Timeless(if next.Some? then next else cell) == Timeless(Settle(was, a, FirstCharge(items, id), FirstFail(items, id)))
  {
    var n := |items| - 1;
    if items[n].Txn? {
      assert FirstFail(items[..n], id).None?;
    }
  }

  /** One pass settles everything: the loops against their closed form. */
  lemma {:induction false} RunSettles(d: Data, a: string, items: seq<Item>, clock: nat -> int)
    requires Keyed(d) && Ordered(items)
    ensures SettledFrom(d, Run(Start(d, a), a, items, clock).data, a, items)
  {
    if |items| > 0 {
      var n := |items| - 1;
      RunSettles(d, a, items[..n], clock);
      var c := Run(Start(d, a), a, items[..n], clock);
      var after := DoItem(c, a, items[n], clock(n)).data;
      forall k ensures Timeless(Cell(after, k)) == Timeless(Settled(d, a, items, k)) {
        SettlesCell(d, c, a, items, clock(n), k);
      }
      forall t ensures EntryCell(after, t) == SettledEntry(d, a, items, t) {
        ItemLedger(c, a, items[n], clock(n), t);
        assert EntryCell(c.data, t) == SettledEntry(d, a, items[..n], t);
      }
      ItemSettles(c, a, items[n], clock(n), "");
    }
  }

  lemma SettlesCell(d: Data, c: Pass, a: string, items: seq<Item>, now: int, k: string)
    requires Keyed(d) && |items| > 0 && Ordered(items)
    requires SettledFrom(d, c.data, a, items[..|items| - 1])
    ensures Timeless(Cell(DoItem(c, a, items[|items| - 1], now).data, k)) == Timeless(Settled(d, a, items, k))
  {
    var n := |items| - 1;
    var item := items[n];
    assert Timeless(Cell(c.data, k)) == Timeless(Settled(d, a, items[..n], k));
    ItemSettles(c, a, item, now, k);
    if item.Txn? {
      OwnKeyIff(a, k, item.tx.sourceID);
    } else {
      OwnKeyIff(a, k, item.pi.id);
    }
    if OwnKey(a, k) {
      var id := IdIn(a, k);
      OwnKeyIff(a, k, id);
      SettleStep(Cell(d, k), Cell(c.data, k), a, items, id, now);
    }
  }

  /** The same, for one intent. */
  lemma RunSettlesIntent(d: Data, a: string, items: seq<Item>, clock: nat -> int, id: string)
    requires Keyed(d) && Ordered(items)
    ensures Timeless(FindPayment(Run(Start(d, a), a, items, clock).data, a, id)) ==
            Timeless(Settle(FindPayment(d, a, id), a, FirstCharge(items, id), FirstFail(items, id)))
  {
    RunSettles(d, a, items, clock);
    var k := RowKey(a, id);
    OwnKeyIff(a, k, id);
    assert Timeless(Cell(Run(Start(d, a), a, items, clock).data, k)) == Timeless(Settled(d, a, items, k));
  }
}
