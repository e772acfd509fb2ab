/** Convergence, exact accounting and idempotence of one reconciliation pass. */
module ReconLaws {
  import opened Domain
  import opened Store
  import opened Gateway
  import opened Recon
  import opened ReconResult
  import opened StorePairs

  lemma ItemsOrdered(txns: seq<BalanceTxn>, pis: seq<PaymentIntent>)
    ensures Ordered(Items(txns, pis))
  {
  }

  /* ---------- exact accounting ---------- */

  /** Each pass counts every item once, and every new row once, even with repeated ids. */
  lemma {:induction false} ExactAccounting(d: Data, a: string, items: seq<Item>, clock: nat -> int)
    requires Keyed(d)
    ensures var c := Run(Start(d, a), a, items, clock);
      && Keyed(c.data)
      && c.rep.scanned == |items|
      && c.rep.backfilled == (|c.data.ledger| - |d.ledger|) + (|c.data.payments| - |d.payments|)
      && c.rep.flagged == 0 && c.rep.accountID == a
  {
    if |items| > 0 {
      var n := |items| - 1;
      ExactAccounting(d, a, items[..n], clock);
      ItemCounts(Run(Start(d, a), a, items[..n], clock), a, items[n], clock(n));
    }
  }

  lemma MapGrows<V>(m: map<string, V>, k: string, v: V)
    ensures |m[k := v]| == |m| + (if k in m then 0 else 1)
  {
    assert m[k := v].Keys == m.Keys + {k};
    assert |m| == |m.Keys| && |m[k := v]| == |m[k := v].Keys|;
    if k in m {
      assert m.Keys + {k} == m.Keys;
    }
  }

  /** One item more: counted once, and the growth of the tables counted. */
  ghost predicate Counted(c: Pass, e: Pass) {
    && Keyed(e.data)
    && e.rep.scanned == c.rep.scanned + 1 && e.rep.flagged == c.rep.flagged && e.rep.accountID == c.rep.accountID
    && e.rep.backfilled - c.rep.backfilled ==
       (|e.data.ledger| - |c.data.ledger|) + (|e.data.payments| - |c.data.payments|)
  }

  /** A row that may be written adds one exactly when it was not there. */
  lemma PutCounts(d: Data, row: Option<Payment>, a: string, id: string)
    requires row.Some? ==> RowKey(row.value.accountID, row.value.intentID) == RowKey(a, id)
    ensures |PutIfAny(d, row).payments| == |d.payments| + if row.Some? && FindPayment(d, a, id).None? then 1 else 0
    ensures PutIfAny(d, row).ledger == d.ledger
  {
    if row.Some? {
      MapGrows(d.payments, RowKey(a, id), row.value);
    }
  }

  lemma EntryCounts(d: Data, e: LedgerEntry)
    ensures |PutLedger(d, e).ledger| == |d.ledger| + if e.txnID !in d.ledger then 1 else 0
    ensures PutLedger(d, e).payments == d.payments
  {
    MapGrows(d.ledger, e.txnID, e);
  }

  lemma TxnCounts(c: Pass, a: string, tx: BalanceTxn, now: int)
    requires Keyed(c.data)
    ensures Counted(c, DoTxn(c, a, tx, now))
  {
    var d := PutLedger(c.data, Entry(a, tx));
    EntryCounts(c.data, Entry(a, tx));
    TxnSettles(c, a, tx, now, "");
    PutCounts(d, ChargeRow(a, FindPayment(d, a, tx.sourceID), tx, now), a, tx.sourceID);
  }

  lemma IntentCounts(c: Pass, a: string, pi: PaymentIntent, now: int)
    requires Keyed(c.data)
    ensures Counted(c, DoIntent(c, a, pi, now))
  {
    IntentSettles(c, a, pi, now, "");
    PutCounts(c.data, FailRow(a, FindPayment(c.data, a, pi.id), pi, now), a, pi.id);
  }

  lemma ItemCounts(c: Pass, a: string, item: Item, now: int)
    requires Keyed(c.data)
    ensures Counted(c, DoItem(c, a, item, now))
  {
    match item {
      case Txn(tx) => TxnCounts(c, a, tx, now);
      case Intent(pi) => IntentCounts(c, a, pi, now);
    }
  }

  /* ---------- idempotence ---------- */

  /** Settling a settled row changes nothing. */
  lemma SettleTwice(was: Option<Payment>, now: Option<Payment>, a: string, charge: Option<BalanceTxn>, fail: Option<PaymentIntent>)
    requires Timeless(now) == Timeless(Settle(was, a, charge, fail))
    ensures Timeless(Settle(now, a, charge, fail)) == Timeless(now)
  {
  }

  /** A second pass over the same lists backfills nothing and leaves every table as it was, up to update times. */
  lemma SecondPass(d: Data, a: string, items: seq<Item>, clock: nat -> int, clock2: nat -> int)
    requires Keyed(d) && Ordered(items)
    ensures var one := Run(Start(d, a), a, items, clock).data;
            var two := Run(Start(one, a), a, items, clock2);
      && (forall k :: Timeless(Cell(two.data, k)) == Timeless(Cell(one, k)))
      && two.data == one.(payments := two.data.payments)
      && two.rep.backfilled == 0
  {
    var one := Run(Start(d, a), a, items, clock).data;
    var two := Run(Start(one, a), a, items, clock2);
    RunSettles(d, a, items, clock);
    RunSettles(one, a, items, clock2);
    forall k ensures Timeless(Cell(two.data, k)) == Timeless(Cell(one, k)) {
      assert Timeless(Cell(one, k)) == Timeless(Settled(d, a, items, k));
      assert Timeless(Cell(two.data, k)) == Timeless(Settled(one, a, items, k));
      if OwnKey(a, k) {
        SettleTwice(Cell(d, k), Cell(one, k), a, FirstCharge(items, IdIn(a, k)), FirstFail(items, IdIn(a, k)));
      }
    }
    forall t ensures EntryCell(two.data, t) == EntryCell(one, t) {
      assert EntryCell(one, t) == SettledEntry(d, a, items, t);
      assert EntryCell(two.data, t) == SettledEntry(one, a, items, t);
    }
    SameLedger(two.data, one);
    SameKeys(two.data, one);
    ExactAccounting(one, a, items, clock2);
  }

  lemma SameLedger(x: Data, y: Data)
    requires forall t :: EntryCell(x, t) == EntryCell(y, t)
    ensures x.ledger == y.ledger
  {
    assert forall t :: t in x.ledger <==> EntryCell(x, t).Some?;
    assert forall t :: t in y.ledger <==> EntryCell(y, t).Some?;
    assert x.ledger.Keys == y.ledger.Keys;
    forall t | t in x.ledger ensures x.ledger[t] == y.ledger[t] {
      assert EntryCell(x, t) == EntryCell(y, t);
    }
  }

  lemma SameKeys(x: Data, y: Data)
    requires forall k :: Timeless(Cell(x, k)) == Timeless(Cell(y, k))
    ensures |x.payments| == |y.payments|
  {
    forall k ensures k in x.payments <==> k in y.payments {
      assert Timeless(Cell(x, k)) == Timeless(Cell(y, k));
    }
    assert x.payments.Keys == y.payments.Keys;
    assert |x.payments| == |x.payments.Keys| == |y.payments.Keys|;
  }

  /** A pass that stopped after its transactions does no harm: the next pass ends where it would have ended
      without it, up to update times. */
  lemma StoppedThenRepeated(d: Data, a: string, txns: seq<BalanceTxn>, pis: seq<PaymentIntent>, clock: nat -> int, clock2: nat -> int)
    requires Keyed(d)
    ensures var items := Items(txns, pis);
            var one := Run(Start(d, a), a, items, clock2).data;
            var two := Run(Start(Run(Start(d, a), a, Items(txns, []), clock).data, a), a, items, clock2).data;
      (forall k :: Timeless(Cell(two, k)) == Timeless(Cell(one, k))) && two == one.(payments := two.payments)
  {
    var items, head := Items(txns, pis), Items(txns, []);
    var half := Run(Start(d, a), a, head, clock).data;
    var one, two := Run(Start(d, a), a, items, clock2).data, Run(Start(half, a), a, items, clock2).data;
    ItemsOrdered(txns, []);
    ItemsOrdered(txns, pis);
    RunSettles(d, a, head, clock);
    RunSettles(d, a, items, clock2);
    RunSettles(half, a, items, clock2);
    forall k ensures Timeless(Cell(two, k)) == Timeless(Cell(one, k)) {
      assert Timeless(Cell(half, k)) == Timeless(Settled(d, a, head, k));
      assert Timeless(Cell(one, k)) == Timeless(Settled(d, a, items, k));
      assert Timeless(Cell(two, k)) == Timeless(Settled(half, a, items, k));
      if OwnKey(a, k) {
        FirstsOfTxns(txns, pis, IdIn(a, k));
        SettleHalf(Cell(d, k), Cell(half, k), a, FirstCharge(items, IdIn(a, k)), FirstFail(items, IdIn(a, k)));
      }
    }
    forall t ensures EntryCell(two, t) == EntryCell(one, t) {
      assert EntryCell(half, t) == SettledEntry(d, a, head, t);
      assert EntryCell(one, t) == SettledEntry(d, a, items, t);
      assert EntryCell(two, t) == SettledEntry(half, a, items, t);
      FirstsOfTxns(txns, pis, t);
    }
    SameLedger(two, one);
  }

  lemma SettleHalf(was: Option<Payment>, half: Option<Payment>, a: string, charge: Option<BalanceTxn>, fail: Option<PaymentIntent>)
    requires Timeless(half) == Timeless(Settle(was, a, charge, None))
    ensures Timeless(Settle(half, a, charge, fail)) == Timeless(Settle(was, a, charge, fail))
  {
  }

  /** Charges and ledger entries come from the transactions alone. */
  lemma {:induction false} FirstsOfTxns(txns: seq<BalanceTxn>, pis: seq<PaymentIntent>, id: string)
    ensures FirstCharge(Items(txns, pis), id) == FirstCharge(Items(txns, []), id)
    ensures FirstTxn(Items(txns, pis), id) == FirstTxn(Items(txns, []), id)
    ensures FirstFail(Items(txns, []), id).None?
  {
    NoFailInTxns(txns, id);
    if |pis| > 0 {
      var n := |pis| - 1;
      FirstsOfTxns(txns, pis[..n], id);
      FirstsSkip(Items(txns, pis), Items(txns, pis[..n]), id);
    }
  }

  lemma NoFailInTxns(txns: seq<BalanceTxn>, id: string)
    ensures FirstFail(Items(txns, []), id).None?
  {
    assert forall x | x in Items(txns, []) :: x.Txn?;
  }

  /** An intent at the end adds neither a charge nor a transaction. */
  lemma FirstsSkip(items: seq<Item>, head: seq<Item>, id: string)
    requires |items| == |head| + 1 && head == items[..|head|] && items[|head|].Intent?
    ensures FirstCharge(items, id) == FirstCharge(head, id) && FirstTxn(items, id) == FirstTxn(head, id)
  {
  }

  /** The intents that are both charged and failed in the lists. */
  function ChargedIds(items: seq<Item>): set<string> {
    set i | 0 <= i < |items| && items[i].Txn? && IsCharge(items[i].tx) :: items[i].tx.sourceID
  }

  function FailedIds(items: seq<Item>): set<string> {
    set i | 0 <= i < |items| && items[i].Intent? && items[i].pi.status == Failed :: items[i].pi.id
  }

  function Conflicts(items: seq<Item>): set<string> {
    ChargedIds(items) * FailedIds(items)
  }

  lemma FirstIffListed(items: seq<Item>, id: string)
    ensures id in ChargedIds(items) <==> FirstCharge(items, id).Some?
    ensures id in FailedIds(items) <==> FirstFail(items, id).Some?
  {
    if FirstCharge(items, id).Some? {
      assert Txn(FirstCharge(items, id).value) in items;
    }
    if FirstFail(items, id).Some? {
      assert Intent(FirstFail(items, id).value) in items;
    }
  }

  /** Every charge and failure of the lists has its row, failed if it failed and succeeded otherwise. */
  ghost predicate SettledAlready(one: Data, a: string, all: seq<Item>) {
    && (forall id | id in FailedIds(all) :: FindPayment(one, a, id).Some? && FindPayment(one, a, id).value.status == Failed)
    && (forall id | id in ChargedIds(all) - FailedIds(all) ::
          FindPayment(one, a, id).Some? && FindPayment(one, a, id).value.status == Succeeded)
    && (forall i | 0 <= i < |all| && all[i].Txn? :: all[i].tx.id in one.ledger)
  }

  lemma NoFailsYet(head: seq<Item>, all: seq<Item>)
    requires Ordered(all) && |head| < |all| && head <= all && all[|head|].Txn?
    ensures FailedIds(head) == {}
  {
  }

  lemma IdsAppend(head: seq<Item>, item: Item)
    ensures ChargedIds(head + [item]) == ChargedIds(head) + (if item.Txn? && IsCharge(item.tx) then {item.tx.sourceID} else {})
    ensures FailedIds(head + [item]) == FailedIds(head) + (if item.Intent? && item.pi.status == Failed then {item.pi.id} else {})
  {
    var items := head + [item];
    assert items[|head|] == item && forall i :: 0 <= i < |head| ==> items[i] == head[i];
  }

  /** The intents a pass reports as updated: failed in the lists, with a row that says otherwise, either
      from before or because a charge of the same lists has just said succeeded. */
  ghost predicate Overturned(d: Data, a: string, items: seq<Item>, id: string) {
    id in ChargedIds(items) || (FindPayment(d, a, id).Some? && FindPayment(d, a, id).value.status != Failed)
  }

  ghost function UpdatedIds(d: Data, a: string, items: seq<Item>): set<string> {
    set id | id in FailedIds(items) && Overturned(d, a, items, id)
  }

  lemma UpdatedByFailure(d: Data, a: string, head: seq<Item>, pi: PaymentIntent, clock: nat -> int)
    requires Keyed(d) && Ordered(head) && pi.status == Failed
    ensures var c := Run(Start(d, a), a, head, clock);
      DoIntent(c, a, pi, clock(|head|)).rep.updated ==
      c.rep.updated + if pi.id !in FailedIds(head) && Overturned(d, a, head, pi.id) then 1 else 0
  {
    RunSettlesIntent(d, a, head, clock, pi.id);
    FirstIffListed(head, pi.id);
  }

  lemma UpdatedHas(d: Data, a: string, head: seq<Item>, pi: PaymentIntent, id: string)
    ensures id in UpdatedIds(d, a, head + [Intent(pi)]) <==>
            id in UpdatedIds(d, a, head) || (pi.status == Failed && id == pi.id && Overturned(d, a, head, id))
  {
    IdsAppend(head, Intent(pi));
  }

  lemma OneMore(before: set<string>, after: set<string>, id: string, yes: bool)
    requires forall x :: x in after <==> x in before || (yes && x == id)
    ensures |after| == |before| + if yes && id !in before then 1 else 0
  {
    if yes && id !in before {
      assert after == before + {id};
    } else {
      assert after == before;
    }
  }

  /** The updated ids one more item adds. */
  lemma UpdatedAppend(d: Data, a: string, head: seq<Item>, item: Item)
    requires item.Txn? ==> FailedIds(head) == {}
    ensures |UpdatedIds(d, a, head + [item])| ==
            |UpdatedIds(d, a, head)| + if item.Intent? && item.pi.status == Failed && item.pi.id !in FailedIds(head)
                                          && Overturned(d, a, head, item.pi.id) then 1 else 0
  {
    if item.Txn? {
      IdsAppend(head, item);
      assert UpdatedIds(d, a, head) == {} == UpdatedIds(d, a, head + [item]);
    } else {
      var id := item.pi.id;
      forall x { UpdatedHas(d, a, head, item.pi, x); }
      OneMore(UpdatedIds(d, a, head), UpdatedIds(d, a, head + [item]), id,
              item.pi.status == Failed && Overturned(d, a, head, id));
    }
  }

  /** `Updated` is exact as well, from any store and however often an intent is listed. */
  lemma {:induction false} UpdatedExactly(d: Data, a: string, items: seq<Item>, clock: nat -> int)
    requires Keyed(d) && Ordered(items)
    ensures Run(Start(d, a), a, items, clock).rep.updated == |UpdatedIds(d, a, items)|
  {
    if |items| > 0 {
      var n := |items| - 1;
      var head, item := items[..n], items[n];
      UpdatedExactly(d, a, head, clock);
      assert items == head + [item];
      if item.Txn? {
        NoFailsYet(head, items);
      } else if item.pi.status == Failed {
        UpdatedByFailure(d, a, head, item.pi, clock);
      }
      UpdatedAppend(d, a, head, item);
    } else {
      assert UpdatedIds(d, a, items) == {};
    }
  }

  lemma PassSettles(d: Data, a: string, items: seq<Item>, clock: nat -> int)
    requires Keyed(d) && Ordered(items)
    ensures SettledAlready(Run(Start(d, a), a, items, clock).data, a, items)
  {
    var one := Run(Start(d, a), a, items, clock).data;
    RunSettles(d, a, items, clock);
    forall id | id in FailedIds(items) + ChargedIds(items)
      ensures var p := FindPayment(one, a, id);
              p.Some? && p.value.status == if id in FailedIds(items) then Failed else Succeeded
    {
      FirstIffListed(items, id);
      RunSettlesIntent(d, a, items, clock, id);
    }
    forall i | 0 <= i < |items| && items[i].Txn? ensures items[i].tx.id in one.ledger {
      var t := items[i].tx.id;
      assert items[i] in items;
      assert EntryCell(one, t) == SettledEntry(d, a, items, t);
    }
  }

  /** A second pass reports `Updated` for exactly the intents that are both charged and failed:
      it is silent if and only if there are none, and then it writes nothing at all. */
  lemma SecondPassUpdates(d: Data, a: string, items: seq<Item>, clock: nat -> int, clock2: nat -> int)
    requires Keyed(d) && Ordered(items)
    ensures var one := Run(Start(d, a), a, items, clock).data;
            var two := Run(Start(one, a), a, items, clock2);
      && two.rep.updated == |Conflicts(items)|
      && (two.rep.updated == 0 <==> Conflicts(items) == {})
      && (Conflicts(items) == {} ==> two.data == one)
  {
    var one := Run(Start(d, a), a, items, clock).data;
    RunSettles(d, a, items, clock);
    PassSettles(d, a, items, clock);
    UpdatedExactly(one, a, items, clock2);
    assert UpdatedIds(one, a, items) == Conflicts(items);
    if Conflicts(items) == {} {
      SilentPass(one, a, items, items, clock2);
    }
  }

  /** Without conflicts, no item of a settled store is written. */
  lemma {:induction false} SilentPass(one: Data, a: string, items: seq<Item>, all: seq<Item>, clock: nat -> int)
    requires items <= all && SettledAlready(one, a, all) && Conflicts(all) == {}
    ensures Run(Start(one, a), a, items, clock).data == one
  {
    if |items| > 0 {
      var n := |items| - 1;
      SilentPass(one, a, items[..n], all, clock);
      assert all[n] == items[n];
      if items[n].Txn? && IsCharge(items[n].tx) {
        var id := items[n].tx.sourceID;
        assert id in ChargedIds(all);
        assert id !in Conflicts(all);
        assert id in ChargedIds(all) - FailedIds(all);
      } else if items[n].Intent? && items[n].pi.status == Failed {
        assert items[n].pi.id in FailedIds(all);
      }
    }
  }

  /* ---------- convergence to the gateway ---------- */

  /** The window contains every transaction and every intent of the account. */
  ghost predicate Covers(acct: GwAccount, from: int, to: int) {
    && (forall t | t in acct.txns :: InWindow(t.created, from, to))
    && (forall id | id in acct.intents :: InWindow(acct.intents[id].created, from, to))
  }

  /** The lists a covering pass works from. */
  ghost predicate FullLists(acct: GwAccount, txns: seq<BalanceTxn>, pis: seq<PaymentIntent>) {
    && (forall t :: t in txns <==> t in acct.txns)
    && (forall pi :: pi in pis <==> pi.id in acct.intents && pi == acct.intents[pi.id])
  }

  lemma CoverLists(acct: GwAccount, from: int, to: int, pis: seq<PaymentIntent>, ks: seq<string>)
    requires AcctInv(acct) && Covers(acct, from, to) && ListsIntents(pis, ks, acct.intents, from, to)
    ensures FullLists(acct, WindowTxns(acct.txns, from, to), pis)
  {
    forall pi ensures pi in pis <==> pi.id in acct.intents && pi == acct.intents[pi.id] {
      if pi in pis {
        var i :| 0 <= i < |pis| && pis[i] == pi;
        assert IntentOk(acct, ks[i]);
      }
      if pi.id in acct.intents && pi == acct.intents[pi.id] {
        assert pi.id in ks;
        var i :| 0 <= i < |ks| && ks[i] == pi.id;
        assert pis[i] == pi;
      }
    }
  }

  /** In full lists an intent is charged only if it is terminal, and failed exactly if it says so. */
  lemma ListedTruth(acct: GwAccount, txns: seq<BalanceTxn>, pis: seq<PaymentIntent>, id: string)
    requires AcctInv(acct) && FullLists(acct, txns, pis)
    ensures var items := Items(txns, pis);
      && (FirstFail(items, id).Some? <==> id in acct.intents && acct.intents[id].status == Failed)
      && (FirstFail(items, id).Some? ==> FirstFail(items, id).value == acct.intents[id])
      && (FirstCharge(items, id).Some? ==>
            id in acct.intents && Terminal(acct.intents[id].status) && FirstCharge(items, id).value.amount == acct.intents[id].amount)
      && (id in acct.intents && acct.intents[id].status == Succeeded ==> FirstCharge(items, id).Some?)
  {
    var items := Items(txns, pis);
    var ch, fl := FirstCharge(items, id), FirstFail(items, id);
    if ch.Some? {
      assert Txn(ch.value) in items;
      assert ch.value in txns;
      assert TxnOk(acct, ch.value);
    }
    if fl.Some? {
      assert Intent(fl.value) in items;
      assert fl.value in pis;
    }
    if id in acct.intents {
      assert IntentOk(acct, id);
      var pi := acct.intents[id];
      if pi.status == Failed {
        assert pi in pis;
        var j :| 0 <= j < |pis| && pis[j] == pi;
        assert items[|txns| + j] == Intent(pi);
        assert Intent(pi) in items;
      } else if pi.status == Succeeded {
        var t :| t in acct.txns && IsCharge(t) && t.sourceID == pi.id && t.amount == pi.amount;
        assert t in txns;
        var j :| 0 <= j < |txns| && txns[j] == t;
        assert items[j] == Txn(t);
        assert Txn(t) in items;
      }
    }
  }

  /** From any store whatever, one covering pass leaves every terminal intent with the gateway's status,
      and leaves the row of every other intent exactly as it was. */
  lemma PassConverges(d: Data, a: string, acct: GwAccount, txns: seq<BalanceTxn>, pis: seq<PaymentIntent>, clock: nat -> int, id: string)
    requires Keyed(d) && AcctInv(acct) && FullLists(acct, txns, pis)
    ensures var was := FindPayment(d, a, id);
            var row := FindPayment(Run(Start(d, a), a, Items(txns, pis), clock).data, a, id);
      && (id in acct.intents && Terminal(acct.intents[id].status) ==>
            row.Some? && row.value.status == acct.intents[id].status
            && row.value.amount == (if was.Some? then was.value.amount else acct.intents[id].amount))
      && (!(id in acct.intents && Terminal(acct.intents[id].status)) ==> Timeless(row) == Timeless(was))
  {
    ItemsOrdered(txns, pis);
    RunSettlesIntent(d, a, Items(txns, pis), clock, id);
    ListedTruth(acct, txns, pis, id);
  }

  /** The engine's own covering pass converges. */
  lemma ReconcileConverges(g: Gw, before: Data, after: Data, t: Account, from: int, to: int, clock: nat -> int, rep: Report,
                           pis: seq<PaymentIntent>, ks: seq<string>, id: string)
    requires GwInv(g) && Keyed(before) && Covers(Acct(g, t.stripeAccountID), from, to)
    requires PassWith(g, before, after, t, from, to, clock, rep, pis, ks)
    ensures var intents := Acct(g, t.stripeAccountID).intents;
      id in intents && Terminal(intents[id].status) ==>
        FindPayment(after, t.id, id).Some? && FindPayment(after, t.id, id).value.status == intents[id].status
  {
    var acct := Acct(g, t.stripeAccountID);
    assert AcctInv(acct);
    CoverLists(acct, from, to, pis, ks);
    PassConverges(before, t.id, acct, WindowTxns(acct.txns, from, to), pis, clock, id);
  }

  /* ---------- one pass per account ---------- */

  lemma PassKeeps(g: Gw, before: Data, after: Data, t: Account, from: int, to: int, clock: nat -> int, rep: Report, a: string, id: string)
    requires Keyed(before) && PassOver(g, before, after, t, from, to, clock, rep)
    ensures Keyed(after)
    ensures Plain(a) && Plain(t.id) && a != t.id ==> FindPayment(after, a, id) == FindPayment(before, a, id)
    ensures GwInv(g) && Covers(Acct(g, t.stripeAccountID), from, to) && a == t.id ==>
            var intents := Acct(g, t.stripeAccountID).intents;
            id in intents && Terminal(intents[id].status) ==>
              FindPayment(after, a, id).Some? && FindPayment(after, a, id).value.status == intents[id].status
  {
    var pis, ks :| PassWith(g, before, after, t, from, to, clock, rep, pis, ks);
    var txns := WindowTxns(Acct(g, t.stripeAccountID).txns, from, to);
    ItemsOrdered(txns, pis);
    RunSettles(before, t.id, Items(txns, pis), clock);
    if Plain(a) && Plain(t.id) && a != t.id {
      OtherAccountsUntouched(before, t.id, Items(txns, pis), clock, a, id);
    }
    if GwInv(g) && Covers(Acct(g, t.stripeAccountID), from, to) && a == t.id {
      ReconcileConverges(g, before, after, t, from, to, clock, rep, pis, ks, id);
    }
  }

  /** If intent `id` is terminal for `t`, its row in `d` says the same. */
  ghost predicate Agrees(g: Gw, d: Data, t: Account, id: string) {
    var intents := Acct(g, t.stripeAccountID).intents;
    var row := FindPayment(d, t.id, id);
    id in intents && Terminal(intents[id].status) ==> row.Some? && row.value.status == intents[id].status
  }

  /** After the passes up to `n`, every account passed so far agrees with the gateway: no later pass undoes an earlier one. */
  lemma {:induction false} AllConverge(g: Gw, trace: seq<Data>, accounts: seq<Account>, from: int, to: int, clock: nat -> int,
                                       reports: seq<Report>, i: nat, n: nat, id: string)
    requires GwInv(g) && Passes(g, trace, accounts, from, to, clock, reports) && n <= |accounts|
    requires forall j :: 0 <= j < |accounts| ==> Plain(accounts[j].id)
    requires forall j, k :: 0 <= j < k < |accounts| ==> accounts[j].id != accounts[k].id
    requires i < |accounts| && Covers(Acct(g, accounts[i].stripeAccountID), from, to)
    ensures Keyed(trace[n])
    ensures i < n ==> Agrees(g, trace[n], accounts[i], id)
  {
    if n > 0 {
      var m := n - 1;
      AllConverge(g, trace, accounts, from, to, clock, reports, i, m, id);
      assert PassOver(g, trace[m], trace[m + 1], accounts[m], from, to, clock, reports[m]);
      PassKeeps(g, trace[m], trace[n], accounts[m], from, to, clock, reports[m], accounts[i].id, id);
    }
  }

  /* ---------- what convergence rests on ---------- */

  /** An intent that is not listed as failed ends succeeded exactly when it already was, or when a
      charge names the intent itself as its source. */
  lemma SucceededIffSourced(d: Data, a: string, items: seq<Item>, clock: nat -> int, id: string)
    requires Keyed(d) && Ordered(items) && id !in FailedIds(items)
    ensures var was := FindPayment(d, a, id);
            var row := FindPayment(Run(Start(d, a), a, items, clock).data, a, id);
            (row.Some? && row.value.status == Succeeded) <==>
            (was.Some? && was.value.status == Succeeded) || id in ChargedIds(items)
  {
    RunSettlesIntent(d, a, items, clock, id);
    FirstIffListed(items, id);
  }

  /** The port's comment also allows a charge id there. Such a charge strands its intent and backfills
      a second row under the charge's own id. */
  lemma ChargeIdStrands(a: string, amount: Money, row: Payment, clock: nat -> int)
    requires row.accountID == a && row.intentID == "pi_1" && row.status == Requested
    ensures var d := EmptyData.(payments := map[RowKey(a, "pi_1") := row]);
            var items := [Txn(BalanceTxn("txn_1", "charge", amount, amount, "ch_1", 7))];
            var after := Run(Start(d, a), a, items, clock).data;
      && FindPayment(after, a, "pi_1") == Some(row)
      && FindPayment(after, a, "ch_1").Some? && FindPayment(after, a, "ch_1").value.status == Succeeded
  {
    var items := [Txn(BalanceTxn("txn_1", "charge", amount, amount, "ch_1", 7))];
    var d := EmptyData.(payments := map[RowKey(a, "pi_1") := row]);
    assert items[..0] == [];
    assert RowKey(a, "ch_1") != RowKey(a, "pi_1") by {
      assert RowKey(a, "ch_1")[|a| + 1] != RowKey(a, "pi_1")[|a| + 1];
    }
    assert Run(Start(d, a), a, items[..0], clock) == Start(d, a);
  }
}
