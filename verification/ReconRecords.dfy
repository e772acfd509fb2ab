/** What a pass writes, column by column: ledger entries, backfilled rows, corrected rows and update times. */
module ReconRecords {
  import opened Domain
  import opened Store
  import opened Gateway
  import opened Recon
  import opened ReconResult
  import opened ReconLaws
  import opened Metrics
  import G = GatewayRuns
  import R = ReconRace

  /* ---------- the ledger ---------- */

  /** The entry is the transaction's: its kind, its money, its fee and its time, under the account. */
  predicate Copies(e: LedgerEntry, a: string, tx: BalanceTxn) {
    && e.accountID == a && e.txnID == tx.id && e.kind == tx.kind
    && e.amount == tx.amount && e.fee == tx.fee && e.createdAt == tx.created
  }

  /** Item `i` is the first transaction of the list with this id. */
  predicate FirstListed(items: seq<Item>, i: nat, t: string) {
    && i < |items| && items[i].Txn? && items[i].tx.id == t
    && forall j :: 0 <= j < i ==> !(items[j].Txn? && items[j].tx.id == t)
  }

  lemma {:induction false} FirstTxnAt(items: seq<Item>, t: string) returns (i: nat)
    ensures FirstTxn(items, t).Some? ==> FirstListed(items, i, t) && items[i].tx == FirstTxn(items, t).value
  {
    i := 0;
    if |items| > 0 {
      var n := |items| - 1;
      i := FirstTxnAt(items[..n], t);
      if FirstTxn(items[..n], t).None? {
        assert forall j :: 0 <= j < n ==> items[j] in items[..n];
        i := n;
      }
    }
  }

  /** Nothing of the ledger is lost or changed, every listed transaction is in it, and each new entry copies
      the first listed transaction of its id. */
  ghost predicate LedgerFrom(before: Data, after: Data, a: string, items: seq<Item>) {
    && (forall t | t in before.ledger :: t in after.ledger && after.ledger[t] == before.ledger[t])
    && (forall i | 0 <= i < |items| && items[i].Txn? :: items[i].tx.id in after.ledger)
    && (forall t | t in after.ledger && t !in before.ledger ::
          exists i: nat :: FirstListed(items, i, t) && Copies(after.ledger[t], a, items[i].tx))
  }

  lemma SettledLedger(before: Data, after: Data, a: string, items: seq<Item>)
    requires forall t :: EntryCell(after, t) == SettledEntry(before, a, items, t)
    ensures LedgerFrom(before, after, a, items)
  {
    forall t | t in before.ledger ensures t in after.ledger && after.ledger[t] == before.ledger[t] {
      assert EntryCell(after, t) == SettledEntry(before, a, items, t);
    }
    forall i | 0 <= i < |items| && items[i].Txn? ensures items[i].tx.id in after.ledger {
      assert items[i] in items;
      assert EntryCell(after, items[i].tx.id) == SettledEntry(before, a, items, items[i].tx.id);
    }
    forall t | t in after.ledger && t !in before.ledger
      ensures exists i: nat :: FirstListed(items, i, t) && Copies(after.ledger[t], a, items[i].tx)
    {
      assert EntryCell(after, t) == SettledEntry(before, a, items, t);
      var i := FirstTxnAt(items, t);
    }
  }

  /** The ledger after one pass. */
  lemma PassLedger(d: Data, a: string, items: seq<Item>, clock: nat -> int)
    requires Keyed(d) && Ordered(items)
    ensures LedgerFrom(d, Run(Start(d, a), a, items, clock).data, a, items)
  {
    RunSettles(d, a, items, clock);
    SettledLedger(d, Run(Start(d, a), a, items, clock).data, a, items);
  }

  /* ---------- the ledger's totals ---------- */

  ghost function AmountTerm(m: map<string, LedgerEntry>, currency: string): string -> int {
    t => if t in m then G.In(m[t].amount, currency) else 0
  }

  ghost function FeeTerm(m: map<string, LedgerEntry>, currency: string): string -> int {
    t => if t in m then G.In(m[t].fee, currency) else 0
  }

  function TxnAmounts(txns: seq<BalanceTxn>, currency: string): int {
    if |txns| == 0 then 0 else TxnAmounts(txns[..|txns| - 1], currency) + G.In(txns[|txns| - 1].amount, currency)
  }

  function TxnFees(txns: seq<BalanceTxn>, currency: string): int {
    if |txns| == 0 then 0 else TxnFees(txns[..|txns| - 1], currency) + G.In(txns[|txns| - 1].fee, currency)
  }

  function TxnIds(txns: seq<BalanceTxn>): set<string> {
    if |txns| == 0 then {} else TxnIds(txns[..|txns| - 1]) + {txns[|txns| - 1].id}
  }

  ghost predicate DistinctTxns(txns: seq<BalanceTxn>) {
    forall i, j :: 0 <= i < j < |txns| ==> txns[i].id != txns[j].id
  }

  lemma {:induction false} TxnIdsHas(txns: seq<BalanceTxn>, t: string)
    ensures t in TxnIds(txns) <==> exists i :: 0 <= i < |txns| && txns[i].id == t
  {
    if |txns| > 0 {
      var n := |txns| - 1;
      TxnIdsHas(txns[..n], t);
      if i :| 0 <= i < |txns| && txns[i].id == t {
        assert i < n ==> txns[..n][i].id == t;
      }
      if i :| 0 <= i < n && txns[..n][i].id == t {
        assert txns[i].id == t;
      }
    }
  }

  /** Entries that copy distinct transactions add up to them. */
  lemma {:induction false} CopiesAddUp(m: map<string, LedgerEntry>, a: string, txns: seq<BalanceTxn>, currency: string)
    requires DistinctTxns(txns) && forall i :: 0 <= i < |txns| ==> txns[i].id in m && Copies(m[txns[i].id], a, txns[i])
    ensures SumOver(TxnIds(txns), AmountTerm(m, currency)) == TxnAmounts(txns, currency)
    ensures SumOver(TxnIds(txns), FeeTerm(m, currency)) == TxnFees(txns, currency)
  {
    if |txns| > 0 {
      var n := |txns| - 1;
      var id := txns[n].id;
      CopiesAddUp(m, a, txns[..n], currency);
      TxnIdsHas(txns[..n], id);
      assert TxnIds(txns) - {id} == TxnIds(txns[..n]);
      SumPick(TxnIds(txns), AmountTerm(m, currency), id);
      SumPick(TxnIds(txns), FeeTerm(m, currency), id);
    }
  }

  lemma {:induction false} WindowOfAll(txns: seq<BalanceTxn>, from: int, to: int)
    requires forall t | t in txns :: InWindow(t.created, from, to)
    ensures WindowTxns(txns, from, to) == txns
  {
    if |txns| > 0 {
      var n := |txns| - 1;
      assert txns == txns[..n] + [txns[n]];
      WindowOfAll(txns[..n], from, to);
    }
  }

  lemma ListedOnce(txns: seq<BalanceTxn>, pis: seq<PaymentIntent>, i: nat, t: string)
    requires DistinctTxns(txns) && FirstListed(Items(txns, pis), i, t)
    ensures i < |txns| && Items(txns, pis)[i].tx == txns[i] && txns[i].id == t
  {
  }

  lemma EntryOfTxn(before: Data, after: Data, a: string, txns: seq<BalanceTxn>, pis: seq<PaymentIntent>, j: nat)
    requires before.ledger == map[] && DistinctTxns(txns) && LedgerFrom(before, after, a, Items(txns, pis)) && j < |txns|
    ensures txns[j].id in after.ledger && Copies(after.ledger[txns[j].id], a, txns[j])
  {
    var items := Items(txns, pis);
    assert items[j] == Txn(txns[j]);
    var i: nat :| FirstListed(items, i, txns[j].id) && Copies(after.ledger[txns[j].id], a, items[i].tx);
    ListedOnce(txns, pis, i, txns[j].id);
  }

  lemma OnlyTxns(before: Data, after: Data, a: string, txns: seq<BalanceTxn>, pis: seq<PaymentIntent>)
    requires before.ledger == map[] && DistinctTxns(txns) && LedgerFrom(before, after, a, Items(txns, pis))
    ensures after.ledger.Keys == TxnIds(txns)
  {
    var items := Items(txns, pis);
    forall x ensures x in after.ledger <==> x in TxnIds(txns) {
      TxnIdsHas(txns, x);
      if x in after.ledger {
        var i: nat :| FirstListed(items, i, x) && Copies(after.ledger[x], a, items[i].tx);
        ListedOnce(txns, pis, i, x);
      }
      if i :| 0 <= i < |txns| && txns[i].id == x {
        EntryOfTxn(before, after, a, txns, pis, i);
      }
    }
  }

  lemma TotalsFrom(before: Data, after: Data, a: string, txns: seq<BalanceTxn>, pis: seq<PaymentIntent>, currency: string)
    requires before.ledger == map[] && DistinctTxns(txns) && LedgerFrom(before, after, a, Items(txns, pis))
    ensures SumOver(after.ledger.Keys, AmountTerm(after.ledger, currency)) == TxnAmounts(txns, currency)
    ensures SumOver(after.ledger.Keys, FeeTerm(after.ledger, currency)) == TxnFees(txns, currency)
  {
    OnlyTxns(before, after, a, txns, pis);
    forall j | 0 <= j < |txns| ensures txns[j].id in after.ledger && Copies(after.ledger[txns[j].id], a, txns[j]) {
      EntryOfTxn(before, after, a, txns, pis, j);
    }
    CopiesAddUp(after.ledger, a, txns, currency);
  }

  /** From an empty ledger, a covering pass of the engine leaves a ledger with the gateway's transactions and no
      other, whose amounts and whose fees each add up to the gateway's, in every currency. */
  lemma LedgerAddsUp(g: Gw, before: Data, after: Data, t: Account, from: int, to: int, clock: nat -> int, rep: Report,
                     pis: seq<PaymentIntent>, ks: seq<string>, currency: string)
    requires Keyed(before) && before.ledger == map[] && PassWith(g, before, after, t, from, to, clock, rep, pis, ks)
    requires Covers(Acct(g, t.stripeAccountID), from, to) && DistinctTxns(Acct(g, t.stripeAccountID).txns)
    ensures var txns := Acct(g, t.stripeAccountID).txns;
      && after.ledger.Keys == TxnIds(txns)
      && SumOver(after.ledger.Keys, AmountTerm(after.ledger, currency)) == TxnAmounts(txns, currency)
      && SumOver(after.ledger.Keys, FeeTerm(after.ledger, currency)) == TxnFees(txns, currency)
  {
    var txns := Acct(g, t.stripeAccountID).txns;
    WindowOfAll(txns, from, to);
    ItemsOrdered(txns, pis);
    PassLedger(before, t.id, Items(txns, pis), clock);
    OnlyTxns(before, after, t.id, txns, pis);
    TotalsFrom(before, after, t.id, txns, pis, currency);
  }

  /** The same ledger after any number of passes at once, whatever the schedule. */
  lemma RaceLedger(d: Data, a: string, items: seq<Item>, lists: seq<seq<Item>>, schedule: seq<R.Choice>)
    requires Keyed(d) && R.SameLists(items, lists) && R.AllDone(R.Exec(R.Launch(d, lists), a, schedule))
    ensures LedgerFrom(d, R.Exec(R.Launch(d, lists), a, schedule).data, a, items)
  {
    R.RaceSettles(d, a, items, lists, schedule);
    SettledLedger(d, R.Exec(R.Launch(d, lists), a, schedule).data, a, items);
  }

  /* ---------- payment rows ---------- */

  /** Item `i` is a charge of intent `id`. */
  predicate ChargeAt(items: seq<Item>, i: nat, id: string) {
    i < |items| && items[i].Txn? && items[i].tx.kind in ["charge", "payment"] && items[i].tx.sourceID == id
  }

  /** Item `i` lists intent `id` as failed. */
  predicate FailAt(items: seq<Item>, i: nat, id: string) {
    i < |items| && items[i].Intent? && items[i].pi.status == Failed && items[i].pi.id == id
  }

  ghost predicate HasCharge(items: seq<Item>, id: string) {
    exists i: nat :: ChargeAt(items, i, id)
  }

  ghost predicate HasFail(items: seq<Item>, id: string) {
    exists i: nat :: FailAt(items, i, id)
  }

  /** Item `i` is the first charge of the intent, or there is none and it is its first failure. */
  ghost predicate Decides(items: seq<Item>, i: nat, id: string) {
    || (ChargeAt(items, i, id) && forall j: nat | j < i :: !ChargeAt(items, j, id))
    || (FailAt(items, i, id) && !HasCharge(items, id) && forall j: nat | j < i :: !FailAt(items, j, id))
  }

  ghost predicate FirstFailure(items: seq<Item>, i: nat, id: string) {
    FailAt(items, i, id) && forall j: nat | j < i :: !FailAt(items, j, id)
  }

  lemma {:induction false} FirstChargeAt(items: seq<Item>, id: string) returns (i: nat)
    ensures FirstCharge(items, id).Some? <==> HasCharge(items, id)
    ensures FirstCharge(items, id).Some? ==>
            ChargeAt(items, i, id) && items[i].tx == FirstCharge(items, id).value && forall j: nat | j < i :: !ChargeAt(items, j, id)
  {
    i := 0;
    if |items| > 0 {
      var n := |items| - 1;
      i := FirstChargeAt(items[..n], id);
      ChargePrefix(items, n, id);
      if FirstCharge(items[..n], id).None? {
        i := n;
      }
    }
  }

  lemma ChargePrefix(items: seq<Item>, n: nat, id: string)
    requires n <= |items|
    ensures forall j: nat | j < n :: ChargeAt(items[..n], j, id) == ChargeAt(items, j, id)
    ensures forall j: nat | j < n :: FailAt(items[..n], j, id) == FailAt(items, j, id)
    ensures n + 1 == |items| ==> (HasCharge(items, id) <==> HasCharge(items[..n], id) || ChargeAt(items, n, id))
    ensures n + 1 == |items| ==> (HasFail(items, id) <==> HasFail(items[..n], id) || FailAt(items, n, id))
  {
    if i: nat :| ChargeAt(items[..n], i, id) {
      assert ChargeAt(items, i, id);
    }
    if i: nat :| FailAt(items[..n], i, id) {
      assert FailAt(items, i, id);
    }
    if n + 1 == |items| {
      if i: nat :| ChargeAt(items, i, id) {
        assert i < n ==> ChargeAt(items[..n], i, id);
      }
      if i: nat :| FailAt(items, i, id) {
        assert i < n ==> FailAt(items[..n], i, id);
      }
    }
  }

  lemma {:induction false} FirstFailAt(items: seq<Item>, id: string) returns (i: nat)
    ensures FirstFail(items, id).Some? <==> HasFail(items, id)
    ensures FirstFail(items, id).Some? ==> FirstFailure(items, i, id) && items[i].pi == FirstFail(items, id).value
  {
    i := 0;
    if |items| > 0 {
      var n := |items| - 1;
      i := FirstFailAt(items[..n], id);
      ChargePrefix(items, n, id);
      if FirstFail(items[..n], id).None? {
        i := n;
      }
    }
  }

  /** A row the pass had to make: nothing but what the deciding item says, marked as found by reconciliation. */
  ghost predicate Backfilled(p: Payment, a: string, id: string, items: seq<Item>) {
    && p.accountID == a && p.intentID == id && p.donorID == "" && p.productID == "" && p.applicationFee.amount == 0
    && p.source == Reconciliation && p.metadata == map[]
    && exists i: nat :: Decides(items, i, id)
         && p.amount == (if items[i].Txn? then items[i].tx.amount else items[i].pi.amount)
         && p.createdAt == (if items[i].Txn? then items[i].tx.created else items[i].pi.created)
  }

  /** A row that was there keeps everything but status, reason and update time. */
  predicate RecordStays(p: Payment, q: Payment) {
    && q.accountID == p.accountID && q.intentID == p.intentID && q.donorID == p.donorID && q.productID == p.productID
    && q.amount == p.amount && q.applicationFee == p.applicationFee && q.source == p.source
    && q.createdAt == p.createdAt && q.metadata == p.metadata
  }

  /** The reason a row ends with: the first listed failure's, unless the row said failed before and no charge
      touched it; without a failure the reason stays, and a new row has none. */
  ghost predicate ReasonIs(was: Option<Payment>, row: Payment, items: seq<Item>, id: string) {
    if HasFail(items, id) && !(was.Some? && was.value.status == Failed && !HasCharge(items, id)) then
      exists i: nat :: FirstFailure(items, i, id) && row.failureReason == items[i].pi.failureReason
    else row.failureReason == if was.Some? then was.value.failureReason else ""
  }

  /** What one row ends as. */
  ghost predicate RowAfter(was: Option<Payment>, row: Option<Payment>, a: string, items: seq<Item>, id: string) {
    if HasCharge(items, id) || HasFail(items, id) then
      && row.Some?
      && row.value.status == (if HasFail(items, id) then Failed else Succeeded)
      && ReasonIs(was, row.value, items, id)
      && (if was.Some? then RecordStays(was.value, row.value) else Backfilled(row.value, a, id, items))
    else (row.Some? <==> was.Some?) && (row.Some? ==> row.value == was.value.(updatedAt := row.value.updatedAt))
  }

  lemma SettledRow(was: Option<Payment>, row: Option<Payment>, a: string, items: seq<Item>, id: string)
    requires Timeless(row) == Timeless(Settle(was, a, FirstCharge(items, id), FirstFail(items, id)))
    ensures RowAfter(was, row, a, items, id)
  {
    var i := FirstChargeAt(items, id);
    var j := FirstFailAt(items, id);
    if HasCharge(items, id) {
      assert Decides(items, i, id);
    } else if HasFail(items, id) {
      assert Decides(items, j, id);
    }
  }

  /** From any store, what a pass makes of each of its account's rows: failed if the intent is listed as failed,
      else succeeded if a charge names it, else untouched; an old row keeps its record, and a new one is made
      from the item that decided it. */
  lemma PassRows(d: Data, a: string, items: seq<Item>, clock: nat -> int, id: string)
    requires Keyed(d) && Ordered(items)
    ensures RowAfter(FindPayment(d, a, id), FindPayment(Run(Start(d, a), a, items, clock).data, a, id), a, items, id)
  {
    RunSettlesIntent(d, a, items, clock, id);
    SettledRow(FindPayment(d, a, id), FindPayment(Run(Start(d, a), a, items, clock).data, a, id), a, items, id);
  }

  /** The same after any number of passes at once. */
  lemma RaceRows(d: Data, a: string, items: seq<Item>, lists: seq<seq<Item>>, schedule: seq<R.Choice>, id: string)
    requires Keyed(d) && R.SameLists(items, lists) && R.AllDone(R.Exec(R.Launch(d, lists), a, schedule))
    ensures RowAfter(FindPayment(d, a, id), FindPayment(R.Exec(R.Launch(d, lists), a, schedule).data, a, id), a, items, id)
  {
    var e := R.Exec(R.Launch(d, lists), a, schedule).data;
    R.RaceSettles(d, a, items, lists, schedule);
    var k := RowKey(a, id);
    OwnKeyIff(a, k, id);
    assert Timeless(Cell(e, k)) == Timeless(Settled(d, a, items, k));
    SettledRow(FindPayment(d, a, id), FindPayment(e, a, id), a, items, id);
  }

  /* ---------- update times ---------- */

  /** The row is as it was, update time and all, or it carries the clock of an item about its intent. */
  ghost predicate Stamped(was: Option<Payment>, row: Option<Payment>, items: seq<Item>, clock: nat -> int, id: string) {
    row == was || (row.Some? && exists i: nat :: (ChargeAt(items, i, id) || FailAt(items, i, id)) && row.value.updatedAt == clock(i))
  }

  lemma StampedEarlier(was: Option<Payment>, row: Option<Payment>, items: seq<Item>, n: nat, clock: nat -> int, id: string)
    requires n <= |items| && Stamped(was, row, items[..n], clock, id)
    ensures Stamped(was, row, items, clock, id)
  {
    ChargePrefix(items, n, id);
  }

  lemma ItemStamps(c: Pass, a: string, item: Item, now: int, id: string)
    requires Keyed(c.data)
    ensures var was, row := FindPayment(c.data, a, id), FindPayment(DoItem(c, a, item, now).data, a, id);
            row == was || ((ChargeAt([item], 0, id) || FailAt([item], 0, id)) && row.Some? && row.value.updatedAt == now)
  {
    ItemSettles(c, a, item, now, RowKey(a, id));
    OwnKeyIff(a, RowKey(a, id), ItemID(item));
    OwnKeyIff(a, RowKey(a, id), id);
  }

  /** A pass that changes a row stamps it with its clock; a row it does not change keeps its time. */
  lemma {:induction false} PassStamps(d: Data, a: string, items: seq<Item>, clock: nat -> int, id: string)
    requires Keyed(d)
    ensures Keyed(Run(Start(d, a), a, items, clock).data)
    ensures Stamped(FindPayment(d, a, id), FindPayment(Run(Start(d, a), a, items, clock).data, a, id), items, clock, id)
  {
    if |items| > 0 {
      var n := |items| - 1;
      PassStamps(d, a, items[..n], clock, id);
      var c := Run(Start(d, a), a, items[..n], clock);
      ItemSettles(c, a, items[n], clock(n), "");
      ItemStamps(c, a, items[n], clock(n), id);
      StampedEarlier(FindPayment(d, a, id), FindPayment(c.data, a, id), items, n, clock, id);
      if FindPayment(DoItem(c, a, items[n], clock(n)).data, a, id) != FindPayment(c.data, a, id) {
        assert ChargeAt(items, n, id) || FailAt(items, n, id);
      }
    }
  }
}
