/** End to end: the dashboard's money equals the gateway's, after any run and one covering pass. */
module WorldMoney {
  import opened Domain
  import opened Store
  import opened Gateway
  import opened Recon
  import opened ReconResult
  import opened ReconLaws
  import opened Metrics
  import opened World
  import App

  /* ---------- the gateway's own totals ---------- */

  function InCurrency(acct: GwAccount, status: Status, currency: string, id: string): bool {
    id in acct.intents && acct.intents[id].status == status && acct.intents[id].amount.currency == currency
  }

  ghost function CapturedTerm(acct: GwAccount, currency: string): string -> int {
    id => if InCurrency(acct, Succeeded, currency, id) then acct.intents[id].amount.amount else 0
  }

  ghost function CountTerm(acct: GwAccount, status: Status, currency: string): string -> int {
    id => if InCurrency(acct, status, currency, id) then 1 else 0
  }

  /** The amount of an intent, whatever became of it. */
  ghost function RequestedTerm(acct: GwAccount, currency: string): string -> int {
    id => if id in acct.intents && acct.intents[id].amount.currency == currency then acct.intents[id].amount.amount else 0
  }

  /** One for an intent that has neither succeeded nor failed. */
  ghost function PendingTerm(acct: GwAccount, currency: string): string -> int {
    id => if id in acct.intents && acct.intents[id].amount.currency == currency && !Terminal(acct.intents[id].status) then 1 else 0
  }

  /** The intents the projection knows. */
  ghost function KnownIds(d: Data, a: string, acct: GwAccount): set<string> {
    set id | id in acct.intents && FindPayment(d, a, id).Some?
  }

  /** The amount of every intent the gateway now reports as succeeded. */
  ghost function GatewayCaptured(acct: GwAccount, currency: string): int {
    SumOver(acct.intents.Keys, CapturedTerm(acct, currency))
  }

  /** How many intents the gateway now reports with a status. */
  ghost function GatewayCount(acct: GwAccount, status: Status, currency: string): int {
    SumOver(acct.intents.Keys, CountTerm(acct, status, currency))
  }

  /* ---------- the projection after a covering pass ---------- */

  /** After the pass, a row of the account mirrors its intent as far as the totals can see. */
  lemma RowMirrors(s: Sys, a: string, txns: seq<BalanceTxn>, pis: seq<PaymentIntent>, clock: nat -> int, k: string)
    requires Inv(s) && FullLists(Acct(s.gw, a), txns, pis)
    requires var after := Run(Start(s.data, a), a, Items(txns, pis), clock).data;
             Keyed(after) && k in after.payments && after.payments[k].accountID == a
    ensures var p := Run(Start(s.data, a), a, Items(txns, pis), clock).data.payments[k];
            var intents := Acct(s.gw, a).intents;
      && p.intentID in intents && p.amount == intents[p.intentID].amount
      && (Terminal(p.status) || Terminal(intents[p.intentID].status) ==> p.status == intents[p.intentID].status)
  {
    var acct := Acct(s.gw, a);
    assert AcctInv(acct);
    var after := Run(Start(s.data, a), a, Items(txns, pis), clock).data;
    var p := after.payments[k];
    var id := p.intentID;
    assert FindPayment(after, a, id) == Some(p);
    PassConverges(s.data, a, acct, txns, pis, clock, id);
    var was := FindPayment(s.data, a, id);
    ItemsOrdered(txns, pis);
    RunSettlesIntent(s.data, a, Items(txns, pis), clock, id);
    ListedTruth(acct, txns, pis, id);
    if was.Some? {
      assert RowOk(s.gw, was.value);
      assert was.value.accountID == a && was.value.intentID == id;
    }
  }

  /** A row found under an intent of the account is that intent's row. */
  lemma RowOwned(s: Sys, a: string, txns: seq<BalanceTxn>, pis: seq<PaymentIntent>, clock: nat -> int, id: string)
    requires Inv(s) && id in Acct(s.gw, a).intents
    requires FindPayment(Run(Start(s.data, a), a, Items(txns, pis), clock).data, a, id).Some?
    ensures var row := FindPayment(Run(Start(s.data, a), a, Items(txns, pis), clock).data, a, id).value;
            row.accountID == a && row.intentID == id
  {
    ItemsOrdered(txns, pis);
    RunSettlesIntent(s.data, a, Items(txns, pis), clock, id);
    FoundIsOwn(s, a, id);
  }

  /** After the pass, every terminal intent has its row. */
  lemma RowExists(s: Sys, a: string, txns: seq<BalanceTxn>, pis: seq<PaymentIntent>, clock: nat -> int, id: string)
    requires Inv(s) && FullLists(Acct(s.gw, a), txns, pis)
    requires id in Acct(s.gw, a).intents && Terminal(Acct(s.gw, a).intents[id].status)
    ensures var row := FindPayment(Run(Start(s.data, a), a, Items(txns, pis), clock).data, a, id);
            row.Some? && row.value.accountID == a && row.value.intentID == id
  {
    var acct := Acct(s.gw, a);
    assert AcctInv(acct);
    PassConverges(s.data, a, acct, txns, pis, clock, id);
    RowOwned(s, a, txns, pis, clock, id);
  }

  lemma RowListed(s: Sys, a: string, txns: seq<BalanceTxn>, pis: seq<PaymentIntent>, clock: nat -> int,
                  rows: seq<Payment>, ks: seq<string>, id: string)
    requires Inv(s) && id in Acct(s.gw, a).intents
    requires var after := Run(Start(s.data, a), a, Items(txns, pis), clock).data;
             Lists(rows, ks, after.payments, PaymentFilter(a, "", 0, 0)) && FindPayment(after, a, id).Some?
    ensures id in IDSet(rows)
  {
    var after := Run(Start(s.data, a), a, Items(txns, pis), clock).data;
    RowOwned(s, a, txns, pis, clock, id);
    var k := RowKey(a, id);
    assert Matches(PaymentFilter(a, "", 0, 0), after.payments[k]);
    assert k in ks;
    var i :| 0 <= i < |ks| && ks[i] == k;
    assert rows[i].intentID == id;
    IDSetHas(rows, id);
  }

  lemma KnownRows(s: Sys, a: string, txns: seq<BalanceTxn>, pis: seq<PaymentIntent>, clock: nat -> int,
                  rows: seq<Payment>, ks: seq<string>)
    requires Inv(s)
    requires var after := Run(Start(s.data, a), a, Items(txns, pis), clock).data;
             Lists(rows, ks, after.payments, PaymentFilter(a, "", 0, 0))
             && forall i | 0 <= i < |rows| :: ks[i] == RowKey(a, rows[i].intentID) && rows[i].intentID in Acct(s.gw, a).intents
    ensures IDSet(rows) == KnownIds(Run(Start(s.data, a), a, Items(txns, pis), clock).data, a, Acct(s.gw, a))
  {
    var intents := Acct(s.gw, a).intents;
    var after := Run(Start(s.data, a), a, Items(txns, pis), clock).data;
    forall id | id in IDSet(rows) ensures id in intents && FindPayment(after, a, id).Some? {
      IDSetHas(rows, id);
      var i :| 0 <= i < |rows| && rows[i].intentID == id;
      assert ks[i] == RowKey(a, id) && ks[i] in after.payments;
    }
    forall id | id in intents && FindPayment(after, a, id).Some? ensures id in IDSet(rows) {
      RowListed(s, a, txns, pis, clock, rows, ks, id);
    }
  }

  /** The rows the dashboard reads, against the gateway. */
  lemma ListedRows(s: Sys, a: string, txns: seq<BalanceTxn>, pis: seq<PaymentIntent>, clock: nat -> int,
                   rows: seq<Payment>, ks: seq<string>)
    requires Inv(s) && FullLists(Acct(s.gw, a), txns, pis)
    requires Lists(rows, ks, Run(Start(s.data, a), a, Items(txns, pis), clock).data.payments, PaymentFilter(a, "", 0, 0))
    ensures DistinctIDs(rows)
    ensures forall p | p in rows ::
      var intents := Acct(s.gw, a).intents;
      && p.intentID in intents && p.amount == intents[p.intentID].amount
      && (Terminal(p.status) || Terminal(intents[p.intentID].status) ==> p.status == intents[p.intentID].status)
    ensures IDSet(rows) == KnownIds(Run(Start(s.data, a), a, Items(txns, pis), clock).data, a, Acct(s.gw, a))
    ensures forall id | id in Acct(s.gw, a).intents && id !in IDSet(rows) :: !Terminal(Acct(s.gw, a).intents[id].status)
  {
    var intents := Acct(s.gw, a).intents;
    var after := Run(Start(s.data, a), a, Items(txns, pis), clock).data;
    ItemsOrdered(txns, pis);
    RunSettles(s.data, a, Items(txns, pis), clock);
    forall i | 0 <= i < |rows|
      ensures ks[i] == RowKey(a, rows[i].intentID)
      ensures rows[i].intentID in intents && rows[i].amount == intents[rows[i].intentID].amount
      ensures Terminal(rows[i].status) || Terminal(intents[rows[i].intentID].status) ==> rows[i].status == intents[rows[i].intentID].status
    {
      RowMirrors(s, a, txns, pis, clock, ks[i]);
    }
    KnownRows(s, a, txns, pis, clock, rows, ks);
    forall id | id in intents && Terminal(intents[id].status) ensures id in IDSet(rows) {
      RowExists(s, a, txns, pis, clock, id);
    }
  }

  /** A mirroring row adds what its intent adds. */
  lemma RowTerms(acct: GwAccount, p: Payment, currency: string)
    requires p.intentID in acct.intents && p.amount == acct.intents[p.intentID].amount
    requires Terminal(p.status) || Terminal(acct.intents[p.intentID].status) ==> p.status == acct.intents[p.intentID].status
    ensures CapturedTerm(acct, currency)(p.intentID) == One(p, currency).captured
    ensures CountTerm(acct, Succeeded, currency)(p.intentID) == One(p, currency).successes
    ensures CountTerm(acct, Failed, currency)(p.intentID) == One(p, currency).failures
    ensures RequestedTerm(acct, currency)(p.intentID) == One(p, currency).requested
    ensures PendingTerm(acct, currency)(p.intentID) == One(p, currency).pending
  {
  }

  /** One column: over the rows, over the known intents, and over all intents if the others add nothing. */
  lemma ColumnAgrees(acct: GwAccount, rows: seq<Payment>, currency: string, f: Totals -> int, c: string -> int)
    requires DistinctIDs(rows) && IDSet(rows) <= acct.intents.Keys && Additive(f)
    requires forall p | p in rows :: c(p.intentID) == f(One(p, currency))
    ensures f(Tally(rows, currency)) == SumOver(IDSet(rows), c)
    ensures (forall id | id in acct.intents.Keys - IDSet(rows) :: c(id) == 0) ==> f(Tally(rows, currency)) == SumOver(acct.intents.Keys, c)
  {
    ColumnAsSum(rows, currency, f, c);
    if forall id | id in acct.intents.Keys - IDSet(rows) :: c(id) == 0 {
      SumAgree(IDSet(rows), acct.intents.Keys, c, c);
    }
  }

  /** Rows that mirror their intents, one for each known intent and all terminal ones among them. */
  ghost predicate Mirrors(acct: GwAccount, rows: seq<Payment>) {
    && DistinctIDs(rows) && IDSet(rows) <= acct.intents.Keys
    && (forall p | p in rows :: p.intentID in acct.intents && p.amount == acct.intents[p.intentID].amount
          && (Terminal(p.status) || Terminal(acct.intents[p.intentID].status) ==> p.status == acct.intents[p.intentID].status))
    && (forall id | id in acct.intents && id !in IDSet(rows) :: !Terminal(acct.intents[id].status))
  }

  lemma EndedAgree(acct: GwAccount, rows: seq<Payment>, currency: string)
    requires Mirrors(acct, rows)
    ensures var t := Tally(rows, currency);
      && t.captured == GatewayCaptured(acct, currency)
      && t.successes == GatewayCount(acct, Succeeded, currency)
      && t.failures == GatewayCount(acct, Failed, currency)
  {
    forall p | p in rows
      ensures CapturedTerm(acct, currency)(p.intentID) == One(p, currency).captured
      ensures CountTerm(acct, Succeeded, currency)(p.intentID) == One(p, currency).successes
      ensures CountTerm(acct, Failed, currency)(p.intentID) == One(p, currency).failures
    {
      RowTerms(acct, p, currency);
    }
    ColumnAgrees(acct, rows, currency, (t: Totals) => t.captured, CapturedTerm(acct, currency));
    ColumnAgrees(acct, rows, currency, (t: Totals) => t.successes, CountTerm(acct, Succeeded, currency));
    ColumnAgrees(acct, rows, currency, (t: Totals) => t.failures, CountTerm(acct, Failed, currency));
  }

  lemma OpenAgree(acct: GwAccount, rows: seq<Payment>, currency: string)
    requires Mirrors(acct, rows)
    ensures var t := Tally(rows, currency);
      && t.requested == SumOver(IDSet(rows), RequestedTerm(acct, currency))
      && t.pending == SumOver(IDSet(rows), PendingTerm(acct, currency))
  {
    forall p | p in rows
      ensures RequestedTerm(acct, currency)(p.intentID) == One(p, currency).requested
      ensures PendingTerm(acct, currency)(p.intentID) == One(p, currency).pending
    {
      RowTerms(acct, p, currency);
    }
    ColumnAgrees(acct, rows, currency, (t: Totals) => t.requested, RequestedTerm(acct, currency));
    ColumnAgrees(acct, rows, currency, (t: Totals) => t.pending, PendingTerm(acct, currency));
  }

  /** From any state of the invariant, one covering pass makes the summary agree with the gateway: captured
      money, successes and failures over all intents, requested money and pending over those that have a row. */
  lemma MoneyAgrees(s: Sys, a: string, txns: seq<BalanceTxn>, pis: seq<PaymentIntent>, clock: nat -> int,
                    rows: seq<Payment>, ks: seq<string>, currency: string)
    requires Inv(s) && FullLists(Acct(s.gw, a), txns, pis)
    requires Lists(rows, ks, Run(Start(s.data, a), a, Items(txns, pis), clock).data.payments, PaymentFilter(a, "", 0, 0))
    ensures var t := Tally(rows, currency);
            var acct := Acct(s.gw, a);
            var known := KnownIds(Run(Start(s.data, a), a, Items(txns, pis), clock).data, a, acct);
      && t.captured == GatewayCaptured(acct, currency)
      && t.successes == GatewayCount(acct, Succeeded, currency)
      && t.failures == GatewayCount(acct, Failed, currency)
      && t.requested == SumOver(known, RequestedTerm(acct, currency))
      && t.pending == SumOver(known, PendingTerm(acct, currency))
  {
    ListedRows(s, a, txns, pis, clock, rows, ks);
    EndedAgree(Acct(s.gw, a), rows, currency);
    OpenAgree(Acct(s.gw, a), rows, currency);
  }

  /**
   * End-to-end money agreement. Take any run whatever: donations, webhooks and reconciliations
   * interleaved at every operation, events lost, repeated or reordered, tasks crashed. In whatever state
   * that leaves the tables, one undisturbed pass over a window that covers the account makes the dashboard's
   * captured money and its success and failure counts equal the gateway's, in every currency, and its
   * requested money and its pending count equal those of the intents that have a row.
   */
  lemma EndToEnd(bps: int, acts: seq<Act>, a: string, from: int, to: int, pis: seq<PaymentIntent>, ids: seq<string>,
                 clock: nat -> int, summary: Summary, currency: string)
    requires var s := Exec(Initial, bps, acts);
             var acct := Acct(s.gw, a);
             var items := Items(WindowTxns(acct.txns, from, to), pis);
      && Covers(acct, from, to) && ListsIntents(pis, ids, acct.intents, from, to)
      && Summarises(summary, Run(Start(s.data, a), a, items, clock).data.payments, PaymentFilter(a, "", 0, 0), currency)
    ensures var acct := Acct(Exec(Initial, bps, acts).gw, a);
      && summary.captured.amount == GatewayCaptured(acct, currency)
      && summary.successes == GatewayCount(acct, Succeeded, currency)
      && summary.failures == GatewayCount(acct, Failed, currency)
      && var s := Exec(Initial, bps, acts);
         var known := KnownIds(Run(Start(s.data, a), a, Items(WindowTxns(acct.txns, from, to), pis), clock).data, a, acct);
      && summary.requested.amount == SumOver(known, RequestedTerm(acct, currency))
      && summary.pending == SumOver(known, PendingTerm(acct, currency))
  {
    Reachable(bps, acts);
    SummaryAgrees(Exec(Initial, bps, acts), a, from, to, pis, ids, clock, summary, currency);
  }

  lemma SummaryAgrees(s: Sys, a: string, from: int, to: int, pis: seq<PaymentIntent>, ids: seq<string>,
                      clock: nat -> int, summary: Summary, currency: string)
    requires Inv(s) && Covers(Acct(s.gw, a), from, to) && ListsIntents(pis, ids, Acct(s.gw, a).intents, from, to)
    requires var items := Items(WindowTxns(Acct(s.gw, a).txns, from, to), pis);
             Summarises(summary, Run(Start(s.data, a), a, items, clock).data.payments, PaymentFilter(a, "", 0, 0), currency)
    ensures summary.captured.amount == GatewayCaptured(Acct(s.gw, a), currency)
    ensures summary.successes == GatewayCount(Acct(s.gw, a), Succeeded, currency)
    ensures summary.failures == GatewayCount(Acct(s.gw, a), Failed, currency)
    ensures var known := KnownIds(Run(Start(s.data, a), a, Items(WindowTxns(Acct(s.gw, a).txns, from, to), pis), clock).data, a, Acct(s.gw, a));
      && summary.requested.amount == SumOver(known, RequestedTerm(Acct(s.gw, a), currency))
      && summary.pending == SumOver(known, PendingTerm(Acct(s.gw, a), currency))
  {
    var txns := WindowTxns(Acct(s.gw, a).txns, from, to);
    assert AcctInv(Acct(s.gw, a));
    CoverLists(Acct(s.gw, a), from, to, pis, ids);
    var rows, ks := SomeListing(summary, Run(Start(s.data, a), a, Items(txns, pis), clock).data.payments, PaymentFilter(a, "", 0, 0), currency);
    MoneyAgrees(s, a, txns, pis, clock, rows, ks, currency);
  }

  lemma SomeListing(summary: Summary, m: map<string, Payment>, f: PaymentFilter, currency: string)
    returns (rows: seq<Payment>, ks: seq<string>)
    requires Summarises(summary, m, f, currency)
    ensures Lists(rows, ks, m, f)
    ensures var t := Tally(rows, currency);
      && summary.captured.amount == t.captured && summary.successes == t.successes && summary.failures == t.failures
      && summary.requested.amount == t.requested && summary.pending == t.pending
  {
    rows :| Listing(rows, m, f);
    ks :| Lists(rows, ks, m, f);
  }
}
