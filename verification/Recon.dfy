/** Reconciliation: the two-phase pass that converges the projection to the gateway. */
module Recon {
  import opened Domain
  import opened Store
  import opened Gateway

  datatype Report = Report(accountID: string, scanned: nat, backfilled: nat, updated: nat, flagged: nat)

  /** What one pass walks over: first the balance transactions, then the intents. */
  datatype Item = Txn(tx: BalanceTxn) | Intent(pi: PaymentIntent)

  /** The intent an item speaks of. */
  function ItemID(item: Item): string {
    match item
    case Txn(tx) => tx.sourceID
    case Intent(pi) => pi.id
  }

  datatype Pass = Pass(data: Data, rep: Report)

  function Items(txns: seq<BalanceTxn>, pis: seq<PaymentIntent>): (items: seq<Item>)
    ensures |items| == |txns| + |pis|
  {
    seq(|txns|, i requires 0 <= i < |txns| => Txn(txns[i])) + seq(|pis|, i requires 0 <= i < |pis| => Intent(pis[i]))
  }

  /** No intent comes before a transaction. */
  ghost predicate Ordered(items: seq<Item>) {
    forall i, j :: 0 <= i < j < |items| && items[i].Intent? ==> items[j].Intent?
  }

  function Entry(a: string, tx: BalanceTxn): LedgerEntry {
    LedgerEntry(a, tx.id, tx.kind, tx.amount, tx.fee, tx.created)
  }

  function BackfillRow(a: string, id: string, amount: Money, status: Status, reason: string, created: int, now: int): Payment {
    Payment(a, "", "", id, amount, status, Money(0, ""), Reconciliation, reason, created, now, map[])
  }

  /** The row to write for a charge, given the row that was read; `None` when nothing is written. */
  function ChargeRow(a: string, found: Option<Payment>, tx: BalanceTxn, now: int): Option<Payment> {
    match found
    case None => Some(BackfillRow(a, tx.sourceID, tx.amount, Succeeded, "", tx.created, now))
    case Some(p) => if p.status != Succeeded then Some(p.(status := Succeeded, updatedAt := now)) else None
  }

  /** The row to write for an intent of the second phase. */
  function FailRow(a: string, found: Option<Payment>, pi: PaymentIntent, now: int): Option<Payment> {
    if pi.status != Failed then None
    else match found
      case None => Some(BackfillRow(a, pi.id, pi.amount, Failed, pi.failureReason, pi.created, now))
      case Some(p) =>
        if p.status != Failed then Some(p.(status := Failed, failureReason := pi.failureReason, updatedAt := now)) else None
  }

  function PutIfAny(d: Data, row: Option<Payment>): Data {
    if row.Some? then PutPayment(d, row.value) else d
  }

  function DoTxn(c: Pass, a: string, tx: BalanceTxn, now: int): Pass {
    var inserted := tx.id !in c.data.ledger;
    var d := PutLedger(c.data, Entry(a, tx));
    var found := FindPayment(d, a, tx.sourceID);
    var backfill := IsCharge(tx) && found.None?;
    Pass(
      if IsCharge(tx) then PutIfAny(d, ChargeRow(a, found, tx, now)) else d,
      c.rep.(scanned := c.rep.scanned + 1,
             backfilled := c.rep.backfilled + (if inserted then 1 else 0) + (if backfill then 1 else 0)))
  }

  function DoIntent(c: Pass, a: string, pi: PaymentIntent, now: int): Pass {
    var found := FindPayment(c.data, a, pi.id);
    var row := FailRow(a, found, pi, now);
    Pass(
      PutIfAny(c.data, row),
      c.rep.(scanned := c.rep.scanned + 1,
             backfilled := c.rep.backfilled + (if row.Some? && found.None? then 1 else 0),
             updated := c.rep.updated + (if row.Some? && found.Some? then 1 else 0)))
  }

  function DoItem(c: Pass, a: string, item: Item, now: int): Pass {
    match item
    case Txn(tx) => DoTxn(c, a, tx, now)
    case Intent(pi) => DoIntent(c, a, pi, now)
  }

  /** The items in order; `clock(i)` is what the clock shows while item `i` is handled. */
  function Run(c: Pass, a: string, items: seq<Item>, clock: nat -> int): Pass {
    if |items| == 0 then c
    else
      var n := |items| - 1;
      DoItem(Run(c, a, items[..n], clock), a, items[n], clock(n))
  }

  function Start(d: Data, a: string): Pass {
    Pass(d, Report(a, 0, 0, 0, 0))
  }

  lemma RunStep(c: Pass, a: string, items: seq<Item>, clock: nat -> int, k: nat)
    requires k < |items|
    ensures Run(c, a, items[..k + 1], clock) == DoItem(Run(c, a, items[..k], clock), a, items[k], clock(k))
  {
    assert items[..k + 1][..k] == items[..k];
  }

  /** The transactions come first, then the intents. */
  lemma ItemsSlices(txns: seq<BalanceTxn>, pis: seq<PaymentIntent>)
    ensures Items(txns, pis)[..|txns|] == Items(txns, [])
    ensures Items(txns, pis)[..|txns| + |pis|] == Items(txns, pis)
    ensures forall j | 0 <= j < |pis| :: Items(txns, pis)[|txns| + j] == Intent(pis[j])
  {
  }

  lemma RunIntent(c: Pass, a: string, items: seq<Item>, clock: nat -> int, k: nat, pi: PaymentIntent)
    requires k < |items| && items[k] == Intent(pi)
    ensures Run(c, a, items[..k + 1], clock) == DoIntent(Run(c, a, items[..k], clock), a, pi, clock(k))
  {
    RunStep(c, a, items, clock, k);
  }

  /** Which of the two listings of a pass the gateway answers. */
  datatype Answers = Answers(txns: bool, intents: bool)

  predicate Both(up: Answers) {
    up.txns && up.intents
  }

  /** The gateway answers both listings of the first `n` passes. */
  predicate Answered(up: nat -> Answers, n: nat) {
    n == 0 || (Answered(up, n - 1) && Both(up(n - 1)))
  }

  class Engine {
    const gw: Mock
    const store: Memory

    constructor (gw: Mock, store: Memory)
      ensures this.gw == gw && this.store == store
    {
      this.gw, this.store := gw, store;
    }

    /** A listing that fails ends the pass with what it has done so far. */
    method Reconcile(t: Account, from: int, to: int, clock: nat -> int, up: Answers)
      returns (rep: Report, err: bool, ghost pis: seq<PaymentIntent>, ghost ks: seq<string>)
      requires store.Valid()
      modifies gw, store
      ensures store.Valid()
      ensures SameAccounts(old(gw.View()), gw.View())
      ensures err == !Both(up)
      ensures err ==> Stopped(old(gw.View()), old(store.View()), store.View(), t, from, to, clock, rep, up)
      ensures !err ==> PassWith(old(gw.View()), old(store.View()), store.View(), t, from, to, clock, rep, pis, ks)
    {
      pis, ks := [], [];
      rep := Report(t.id, 0, 0, 0, 0);
      if !up.txns {
        return rep, true, pis, ks;
      }
      ghost var c0 := Start(store.View(), t.id);
      var txns := gw.ListBalanceTransactions(t.stripeAccountID, from, to);
      rep := TxnPhase(t.id, txns, clock, c0);
      if !up.intents {
        return rep, true, pis, ks;
      }
      var list, keys := gw.ListPaymentIntents(t.stripeAccountID, from, to);
      pis, ks := list, keys;
      rep := IntentPhase(rep, t.id, txns, list, clock, c0);
      err := false;
    }

    /** Balance transactions are the gateway's money truth. */
    method TxnPhase(a: string, txns: seq<BalanceTxn>, clock: nat -> int, ghost c0: Pass) returns (rep: Report)
      requires store.Valid() && c0 == Start(store.View(), a)
      modifies store
      ensures store.Valid()
      ensures Pass(store.View(), rep) == Run(c0, a, Items(txns, []), clock)
    {
      rep := Report(a, 0, 0, 0, 0);
      ghost var items := Items(txns, []);
      for i := 0 to |txns|
        invariant store.Valid()
        invariant Pass(store.View(), rep) == Run(c0, a, items[..i], clock)
      {
        RunStep(c0, a, items, clock, i);
        rep := ReconcileTxn(rep, a, txns[i], clock(i));
      }
      assert items[..|txns|] == items;
    }

    /** Failed intents never reach the balance transactions. */
    method IntentPhase(rep0: Report, a: string, txns: seq<BalanceTxn>, pis: seq<PaymentIntent>, clock: nat -> int, ghost c0: Pass)
      returns (rep: Report)
      requires store.Valid() && Pass(store.View(), rep0) == Run(c0, a, Items(txns, []), clock)
      modifies store
      ensures store.Valid()
      ensures Pass(store.View(), rep) == Run(c0, a, Items(txns, pis), clock)
    {
      ItemsSlices(txns, pis);
      rep := IntentLoop(rep0, a, pis, clock, |txns|, Items(txns, pis), c0);
    }

    /** The loop over the intents, from position `start` of what the pass walks over. */
    method IntentLoop(rep0: Report, a: string, pis: seq<PaymentIntent>, clock: nat -> int, start: nat,
                      ghost items: seq<Item>, ghost c0: Pass)
      returns (rep: Report)
      requires store.Valid() && |items| == start + |pis| && forall j | 0 <= j < |pis| :: items[start + j] == Intent(pis[j])
      requires Pass(store.View(), rep0) == Run(c0, a, items[..start], clock)
      modifies store
      ensures store.Valid()
      ensures Pass(store.View(), rep) == Run(c0, a, items, clock)
    {
      rep := rep0;
      for j := 0 to |pis|
        invariant store.Valid()
        invariant Pass(store.View(), rep) == Run(c0, a, items[..start + j], clock)
      {
        RunIntent(c0, a, items, clock, start + j, pis[j]);
        rep := ReconcileIntent(rep, a, pis[j], clock(start + j));
      }
      assert items[..start + |pis|] == items;
    }

    /** The body of the first loop. */
    method ReconcileTxn(rep0: Report, a: string, tx: BalanceTxn, now: int) returns (rep: Report)
      requires store.Valid()
      modifies store
      ensures store.Valid()
      ensures Pass(store.View(), rep) == DoTxn(Pass(old(store.View()), rep0), a, tx, now)
    {
      rep := rep0.(scanned := rep0.scanned + 1);
      var inserted := store.UpsertLedgerEntry(LedgerEntry(a, tx.id, tx.kind, tx.amount, tx.fee, tx.created));
      if inserted {
        rep := rep.(backfilled := rep.backfilled + 1);
      }
      if tx.kind == "charge" || tx.kind == "payment" {
        var backfilled := EnsureSucceededPayment(a, tx, now);
        if backfilled {
          rep := rep.(backfilled := rep.backfilled + 1);
        }
      }
    }

    /** The body of the second loop. */
    method ReconcileIntent(rep0: Report, a: string, pi: PaymentIntent, now: int) returns (rep: Report)
      requires store.Valid()
      modifies store
      ensures store.Valid()
      ensures Pass(store.View(), rep) == DoIntent(Pass(old(store.View()), rep0), a, pi, now)
    {
      rep := rep0.(scanned := rep0.scanned + 1);
      if pi.status != Failed {
        return;
      }
      var existing := store.GetPayment(a, pi.id);
      if existing.None? {
        BackfillPayment(a, pi.id, pi.amount, Failed, pi.failureReason, pi.created, now);
        rep := rep.(backfilled := rep.backfilled + 1);
        return;
      }
      if existing.value.status != Failed {
        store.UpsertPayment(existing.value.(status := Failed, failureReason := pi.failureReason, updatedAt := now));
        rep := rep.(updated := rep.updated + 1);
      }
    }

    method EnsureSucceededPayment(accountID: string, tx: BalanceTxn, now: int) returns (backfilled: bool)
      requires store.Valid()
      modifies store
      ensures store.Valid()
      ensures var found := FindPayment(old(store.View()), accountID, tx.sourceID);
              && backfilled == found.None?
              && store.View() == PutIfAny(old(store.View()), ChargeRow(accountID, found, tx, now))
    {
      var p := store.GetPayment(accountID, tx.sourceID);
      if p.None? {
        BackfillPayment(accountID, tx.sourceID, tx.amount, Succeeded, "", tx.created, now);
        return true;
      }
      if p.value.status != Succeeded {
        store.UpsertPayment(p.value.(status := Succeeded, updatedAt := now));
      }
      backfilled := false;
    }

    method BackfillPayment(accountID: string, id: string, amount: Money, status: Status, reason: string, created: int, now: int)
      requires store.Valid()
      modifies store
      ensures store.Valid()
      ensures store.View() == PutPayment(old(store.View()), BackfillRow(accountID, id, amount, status, reason, created, now))
    {
      store.UpsertPayment(Payment(accountID, "", "", id, amount, status, Money(0, ""), Reconciliation, reason, created, now, map[]));
    }

    /** One pass per known account, in whatever order the store lists them, up to the first error. */
    method ReconcileAll(from: int, to: int, clock: nat -> int, up: nat -> Answers)
      returns (reports: seq<Report>, err: bool, ghost accounts: seq<Account>, ghost trace: seq<Data>)
      requires store.Valid()
      modifies gw, store
      ensures store.Valid() && |accounts| == |old(store.accounts)|
      ensures forall k | k in old(store.accounts) :: old(store.accounts)[k] in accounts
      ensures forall i, j :: 0 <= i < j < |accounts| ==> accounts[i].id != accounts[j].id
      ensures SameAccounts(old(gw.View()), gw.View())
      ensures |reports| <= |accounts| && Through(old(gw.View()), trace, accounts[..|reports|], from, to, clock, up, reports)
      ensures trace[0] == old(store.View())
      ensures !err ==> |reports| == |accounts| && trace[|reports|] == store.View()
      ensures err ==> |reports| < |accounts| && !Both(up(|reports|))
                      && StoppedOver(old(gw.View()), trace[|reports|], store.View(), accounts[|reports|], from, to, clock, up(|reports|))
    {
      var list := store.ListAccounts();
      AllListed(list, store.accounts);
      accounts := list;
      reports, err, trace := EachPass(list, from, to, clock, up);
    }

    /** The loop over the accounts. */
    method EachPass(list: seq<Account>, from: int, to: int, clock: nat -> int, up: nat -> Answers)
      returns (reports: seq<Report>, err: bool, ghost trace: seq<Data>)
      requires store.Valid()
      modifies gw, store
      ensures store.Valid() && SameAccounts(old(gw.View()), gw.View())
      ensures |reports| <= |list| && Through(old(gw.View()), trace, list[..|reports|], from, to, clock, up, reports)
      ensures trace[0] == old(store.View())
      ensures !err ==> |reports| == |list| && trace[|reports|] == store.View()
      ensures err ==> |reports| < |list| && !Both(up(|reports|))
                      && StoppedOver(old(gw.View()), trace[|reports|], store.View(), list[|reports|], from, to, clock, up(|reports|))
    {
      reports, err, trace := [], false, [store.View()];
      ghost var g := gw.View();
      for i := 0 to |list|
        invariant store.Valid() && !err && |reports| == i && Through(g, trace, list[..i], from, to, clock, up, reports)
        invariant trace[0] == old(store.View()) && trace[i] == store.View()
        invariant SameAccounts(g, gw.View())
      {
        TakeOne(list, i);
        ghost var before, h := store.View(), gw.View();
        var r, failed, pis, ks := Reconcile(list[i], from, to, clock, up(i));
        if failed {
          StoppedSame(g, h, before, store.View(), list[i], from, to, clock, r, up(i));
          err := true;
          return;
        }
        ThroughSnoc(g, h, trace, list[..i], from, to, clock, up, reports, store.View(), list[i], r, pis, ks);
        reports := reports + [r];
        trace := trace + [store.View()];
      }
    }
  }

  lemma TakeOne<T>(s: seq<T>, i: nat)
    requires i < |s|
    ensures s[..i + 1] == s[..i] + [s[i]]
  {
  }

  /** One pass for each account, each starting where the one before ended. */
  ghost predicate Passes(g: Gw, trace: seq<Data>, accounts: seq<Account>, from: int, to: int, clock: nat -> int, reports: seq<Report>) {
    && |trace| == |accounts| + 1 && |reports| == |accounts| && Keyed(trace[0])
    && (forall i :: 0 <= i < |accounts| ==> PassOver(g, trace[i], trace[i + 1], accounts[i], from, to, clock, reports[i]))
  }

  /** Reading the gateway changes no account. */
  ghost predicate SameAccounts(g: Gw, h: Gw) {
    forall a :: Acct(h, a) == Acct(g, a)
  }

  lemma StoppedSame(g: Gw, h: Gw, before: Data, after: Data, t: Account, from: int, to: int, clock: nat -> int, rep: Report, up: Answers)
    requires SameAccounts(g, h) && Stopped(h, before, after, t, from, to, clock, rep, up)
    ensures StoppedOver(g, before, after, t, from, to, clock, up)
  {
    assert Stopped(g, before, after, t, from, to, clock, rep, up);
  }

  lemma PassesSnoc(g: Gw, h: Gw, trace: seq<Data>, accounts: seq<Account>, from: int, to: int, clock: nat -> int, reports: seq<Report>,
                   after: Data, t: Account, rep: Report, pis: seq<PaymentIntent>, ks: seq<string>)
    requires SameAccounts(g, h) && Passes(g, trace, accounts, from, to, clock, reports)
    requires PassWith(h, trace[|accounts|], after, t, from, to, clock, rep, pis, ks)
    ensures Passes(g, trace + [after], accounts + [t], from, to, clock, reports + [rep])
  {
    var trace', accounts', reports' := trace + [after], accounts + [t], reports + [rep];
    assert PassWith(g, trace[|accounts|], after, t, from, to, clock, rep, pis, ks);
    forall i | 0 <= i < |accounts'| ensures PassOver(g, trace'[i], trace'[i + 1], accounts'[i], from, to, clock, reports'[i]) {
      if i < |accounts| {
        assert PassOver(g, trace[i], trace[i + 1], accounts[i], from, to, clock, reports[i]);
        assert trace'[i + 1] == trace[i + 1];
      }
    }
  }

  /** The passes so far, each with both listings answered. */
  ghost predicate Through(g: Gw, trace: seq<Data>, accounts: seq<Account>, from: int, to: int, clock: nat -> int, up: nat -> Answers,
                          reports: seq<Report>) {
    Passes(g, trace, accounts, from, to, clock, reports) && Answered(up, |accounts|)
  }

  lemma ThroughSnoc(g: Gw, h: Gw, trace: seq<Data>, accounts: seq<Account>, from: int, to: int, clock: nat -> int, up: nat -> Answers,
                    reports: seq<Report>, after: Data, t: Account, rep: Report, pis: seq<PaymentIntent>, ks: seq<string>)
    requires SameAccounts(g, h) && Through(g, trace, accounts, from, to, clock, up, reports) && Both(up(|accounts|))
    requires PassWith(h, trace[|accounts|], after, t, from, to, clock, rep, pis, ks)
    ensures Through(g, trace + [after], accounts + [t], from, to, clock, up, reports + [rep])
  {
    PassesSnoc(g, h, trace, accounts, from, to, clock, reports, after, t, rep, pis, ks);
  }

  /** `after` and `rep` come from one pass for `t` over the gateway's window. */
  ghost predicate PassOver(g: Gw, before: Data, after: Data, t: Account, from: int, to: int, clock: nat -> int, rep: Report) {
    exists pis: seq<PaymentIntent>, ks: seq<string> :: PassWith(g, before, after, t, from, to, clock, rep, pis, ks)
  }

  /** A pass that a failed listing ended: nothing done, or only the transactions. */
  ghost predicate Stopped(g: Gw, before: Data, after: Data, t: Account, from: int, to: int, clock: nat -> int, rep: Report, up: Answers) {
    var txns := WindowTxns(Acct(g, t.stripeAccountID).txns, from, to);
    Pass(after, rep) == if up.txns then Run(Start(before, t.id), t.id, Items(txns, []), clock) else Start(before, t.id)
  }

  ghost predicate StoppedOver(g: Gw, before: Data, after: Data, t: Account, from: int, to: int, clock: nat -> int, up: Answers) {
    exists rep :: Stopped(g, before, after, t, from, to, clock, rep, up)
  }

  ghost predicate PassWith(g: Gw, before: Data, after: Data, t: Account, from: int, to: int, clock: nat -> int, rep: Report,
                           pis: seq<PaymentIntent>, ks: seq<string>) {
    var acct := Acct(g, t.stripeAccountID);
    && ListsIntents(pis, ks, acct.intents, from, to)
    && Pass(after, rep) == Run(Start(before, t.id), t.id, Items(WindowTxns(acct.txns, from, to), pis), clock)
  }
}
