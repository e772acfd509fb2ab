/** What the gateway records, column by column: intents, charges, refunds, events, and what a window shows. */
module GatewayRecords {
  import opened Domain
  import opened Store
  import opened Gateway
  import opened GatewayRuns

  /* ---------- intents ---------- */

  /** The account keeps its other intents and its customers. */
  ghost predicate OthersStay(x: GwAccount, y: GwAccount, id: string) {
    && y.customers == x.customers
    && y.intents.Keys == x.intents.Keys + {id}
    && (forall k | k in x.intents && k != id :: y.intents[k] == x.intents[k])
  }

  /** A valid creation adds one intent with what was asked for; an unconfirmed one is requested, a confirmed
      one takes the forced outcome, which is then used up, or succeeds. */
  lemma CreateRecords(g: Gw, a: string, p: IntentParams, x: Draw)
    ensures var (h, r) := CreateIntent(g, a, p, x);
      if p.amount.amount <= 0 || |p.amount.currency| != 3 then h == g && r == Err(Invalid)
      else
        && OthersStay(Acct(g, a), Acct(h, a), x.id)
        && (forall b | b != a :: Acct(h, b) == Acct(g, b))
        && var pi := Acct(h, a).intents[x.id];
        && r == Ok(pi)
        && pi.id == x.id && pi.amount == p.amount && pi.customerID == p.customerID && pi.metadata == p.metadata && pi.created == x.now
        && (if !p.confirm then pi.status == Requested && pi.failureReason == "" && h.next == g.next
            else if g.next.Some? then pi.status == g.next.value.status && pi.failureReason == g.next.value.reason && h.next == None
            else pi.status == Succeeded && pi.failureReason == "" && h.next == None)
  {
  }

  /** Paying and failing touch status and reason of one intent and nothing else of it. */
  lemma MovesStatus(g: Gw, a: string, id: string, txnID: string, now: int, reason: string)
    requires id in Acct(g, a).intents
    ensures var pi, h := Acct(g, a).intents[id], Succeed(g, a, id, txnID, now);
            OthersStay(Acct(g, a), Acct(h, a), id) && Acct(h, a).intents[id] == pi.(status := Succeeded)
    ensures var pi, h := Acct(g, a).intents[id], Fail(g, a, id, reason);
            OthersStay(Acct(g, a), Acct(h, a), id) && Acct(h, a).intents[id] == pi.(status := Failed, failureReason := reason)
            && Acct(h, a).txns == Acct(g, a).txns
  {
  }

  /** An event names its kind and its account and carries the intent as it is then. */
  lemma EventsCarry(g: Gw, a: string, id: string, eventID: string)
    requires id in Acct(g, a).intents
    ensures var e := SucceededEvent(g, a, id, eventID);
            e.id == eventID && e.kind == PaymentSucceeded && e.account == a && e.intent == Some(Acct(g, a).intents[id])
    ensures var e := FailedEvent(g, a, id, eventID);
            e.id == eventID && e.kind == PaymentFailed && e.account == a && e.intent == Some(Acct(g, a).intents[id])
  {
  }

  /** A refund answers the amount it was asked for, or the intent's; only an unknown intent is an error. */
  lemma RefundAnswers(g: Gw, a: string, id: string, amount: Option<Money>, txnID: string, now: int)
    ensures var r := Refund(g, a, id, amount, txnID, now).1;
      && (r == Err(NotFound) <==> id !in Acct(g, a).intents)
      && (r.Err? ==> r == Err(NotFound) && Refund(g, a, id, amount, txnID, now).0 == g)
      && (r.Ok? ==> r.value == if amount.Some? then amount.value else Acct(g, a).intents[id].amount)
  {
  }

  /* ---------- transactions over runs ---------- */

  /** The operation recorded this transaction of account `a`, at its own time. */
  ghost predicate Recorded(g: Gw, h: Gw, op: Op, a: string, t: BalanceTxn) {
    match op
    case Create(b, p, x) =>
      && b == a && p.confirm && x.id in Acct(h, a).intents && Acct(h, a).intents[x.id].status == Succeeded
      && t.id == x.txnID && t.kind == "charge" && t.sourceID == x.id && t.amount == p.amount && t.fee.amount == 0
      && t.created == x.chargedAt
    case Pay(b, id, txnID, now) =>
      && b == a && id in Acct(g, a).intents && Acct(g, a).intents[id].status != Succeeded
      && t.id == txnID && t.kind == "charge" && t.sourceID == Acct(g, a).intents[id].id && t.amount == Acct(g, a).intents[id].amount
      && t.fee.amount == 0 && t.created == now
    case PayBack(b, id, amount, txnID, now) =>
      && b == a && id in Acct(g, a).intents
      && t.id == txnID && t.kind == "refund" && t.sourceID == id && t.fee.amount == 0 && t.created == now
      && var asked := if amount.Some? then amount.value else Acct(g, a).intents[id].amount;
         t.amount.amount == -asked.amount && t.amount.currency == Normalise(asked.currency)
    case _ => false
  }

  lemma OpRecords(g: Gw, op: Op, a: string)
    ensures var h := Do(g, op);
      || Acct(h, a).txns == Acct(g, a).txns
      || (|Acct(h, a).txns| == |Acct(g, a).txns| + 1 && Acct(g, a).txns <= Acct(h, a).txns
          && Recorded(g, h, op, a, Acct(h, a).txns[|Acct(g, a).txns|]))
  {
    if op.Create? && Enabled(g, op) && ValidAmount(op.p.amount) {
      CreateRecords(g, op.a, op.p, op.x);
    }
  }

  /** Transactions are only ever appended, and every one that a run added was recorded by an operation of the
      run: a charge by a payment that succeeded, a refund by a refund, each with its own time and amount. */
  lemma {:induction false} TxnsFromOps(gs: seq<Gw>, ops: seq<Op>, n: nat, a: string, k: nat)
    requires Runs(gs, ops) && n <= |ops|
    ensures Acct(gs[0], a).txns <= Acct(gs[n], a).txns
    ensures |Acct(gs[0], a).txns| <= k < |Acct(gs[n], a).txns| ==>
            exists i :: 0 <= i < n && Recorded(gs[i], gs[i + 1], ops[i], a, Acct(gs[n], a).txns[k])
  {
    if n > 0 {
      TxnsFromOps(gs, ops, n - 1, a, k);
      OpRecords(gs[n - 1], ops[n - 1], a);
      assert gs[n - 1 + 1] == Do(gs[n - 1], ops[n - 1]);
      if |Acct(gs[n - 1], a).txns| <= k < |Acct(gs[n], a).txns| {
        assert Recorded(gs[n - 1], gs[n - 1 + 1], ops[n - 1], a, Acct(gs[n], a).txns[k]);
      }
    }
  }

  /* ---------- windows ---------- */

  /** A window shows exactly what was created between its bounds, both included. */
  lemma WindowHas(txns: seq<BalanceTxn>, from: int, to: int, t: BalanceTxn)
    ensures t in WindowTxns(txns, from, to) <==> t in txns && from <= t.created && t.created <= to
  {
  }

  lemma IntentsHas(pis: seq<PaymentIntent>, ks: seq<string>, intents: map<string, PaymentIntent>, from: int, to: int, id: string)
    requires ListsIntents(pis, ks, intents, from, to)
    ensures id in ks <==> id in intents && from <= intents[id].created && intents[id].created <= to
    ensures id in ks ==> intents[id] in pis
  {
    if id in ks {
      var i :| 0 <= i < |ks| && ks[i] == id;
      assert pis[i] == intents[id];
    }
  }

  /** Windows that meet lose nothing and show nothing twice. */
  lemma WindowsMeet(txns: seq<BalanceTxn>, from: int, mid: int, to: int, t: BalanceTxn)
    requires from <= mid < to
    ensures multiset(WindowTxns(txns, from, to))[t] ==
            multiset(WindowTxns(txns, from, mid))[t] + multiset(WindowTxns(txns, mid + 1, to))[t]
  {
    WindowCounts(txns, from, to, t);
    WindowCounts(txns, from, mid, t);
    WindowCounts(txns, mid + 1, to, t);
  }
}
