/** The stateful gateway: the authoritative record of intents and balance transactions. */
module Gateway {
  import opened Domain
  import opened Store

  datatype GwAccount = GwAccount(
    customers: map<string, Customer>,
    intents: map<string, PaymentIntent>,
    txns: seq<BalanceTxn>)

  const NoAccount := GwAccount(map[], map[], [])

  datatype Outcome = Outcome(status: Status, reason: string)

  datatype Gw = Gw(accounts: map<string, GwAccount>, next: Option<Outcome>)

  const EmptyGw := Gw(map[], None)

  /** An account that was never touched reads as empty. */
  function Acct(g: Gw, a: string): GwAccount {
    if a in g.accounts then g.accounts[a] else NoAccount
  }

  function SetAcct(g: Gw, a: string, x: GwAccount): Gw {
    g.(accounts := g.accounts[a := x])
  }

  function Charge(pi: PaymentIntent, txnID: string, now: int): BalanceTxn {
    BalanceTxn(txnID, "charge", pi.amount, NewMoney(0, pi.amount.currency), pi.id, now)
  }

  datatype IntentParams = IntentParams(amount: Money, customerID: string, confirm: bool, metadata: Metadata)

  /** The randomness and the clock one call draws on. */
  datatype Draw = Draw(id: string, txnID: string, now: int, chargedAt: int)

  function NewIntent(p: IntentParams, x: Draw): PaymentIntent {
    PaymentIntent(x.id, Requested, p.amount, p.customerID, "", p.metadata, x.now)
  }

  function ForcedOutcome(g: Gw): Outcome {
    if g.next.Some? then g.next.value else Outcome(Succeeded, "")
  }

  /** `CreatePaymentIntent`, with the outcome of a confirmed payment applied. */
  function CreateIntent(g: Gw, a: string, p: IntentParams, x: Draw): (Gw, Result<PaymentIntent>) {
    if !ValidAmount(p.amount) then (g, Err(Invalid))
    else
      var pi := NewIntent(p, x);
      var acct := Acct(g, a);
      if !p.confirm then
        (SetAcct(g, a, acct.(intents := acct.intents[x.id := pi])), Ok(pi))
      else
        var o := ForcedOutcome(g);
        var done := pi.(status := o.status, failureReason := o.reason);
        var txns := if o.status == Succeeded then acct.txns + [Charge(done, x.txnID, x.chargedAt)] else acct.txns;
        (SetAcct(g, a, acct.(intents := acct.intents[x.id := done], txns := txns)).(next := None), Ok(done))
  }

  /** No intent id is in two accounts. */
  ghost predicate OneHome(g: Gw) {
    forall a, b, id :: id in Acct(g, a).intents && id in Acct(g, b).intents ==> a == b
  }

  function GetIntent(g: Gw, a: string, id: string): Result<PaymentIntent> {
    if id in Acct(g, a).intents then Ok(Acct(g, a).intents[id]) else Err(NotFound)
  }

  function Refund(g: Gw, a: string, id: string, amount: Option<Money>, txnID: string, now: int): (Gw, Result<Money>) {
    var acct := Acct(g, a);
    if id !in acct.intents then (g, Err(NotFound))
    else
      var amt := if amount.Some? then amount.value else acct.intents[id].amount;
      var t := BalanceTxn(txnID, "refund", NewMoney(-amt.amount, amt.currency), Money(0, ""), id, now);
      (SetAcct(g, a, acct.(txns := acct.txns + [t])), Ok(amt))
  }

  /** Only a transition into `Succeeded` records a charge; the failure reason stays. */
  function Succeed(g: Gw, a: string, id: string, txnID: string, now: int): (h: Gw)
    requires id in Acct(g, a).intents
    ensures id in Acct(h, a).intents
  {
    var acct := Acct(g, a);
    var pi := acct.intents[id];
    if pi.status == Succeeded then SetAcct(g, a, acct)
    else
      var paid := pi.(status := Succeeded);
      SetAcct(g, a, acct.(intents := acct.intents[id := paid], txns := acct.txns + [Charge(paid, txnID, now)]))
  }

  function Fail(g: Gw, a: string, id: string, reason: string): (h: Gw)
    requires id in Acct(g, a).intents
    ensures id in Acct(h, a).intents
  {
    var acct := Acct(g, a);
    SetAcct(g, a, acct.(intents := acct.intents[id := acct.intents[id].(status := Failed, failureReason := reason)]))
  }

  function SucceededEvent(g: Gw, a: string, id: string, eventID: string): Event
    requires id in Acct(g, a).intents
  {
    Event(eventID, PaymentSucceeded, a, Some(Acct(g, a).intents[id]))
  }

  function FailedEvent(g: Gw, a: string, id: string, eventID: string): Event
    requires id in Acct(g, a).intents
  {
    Event(eventID, PaymentFailed, a, Some(Acct(g, a).intents[id]))
  }

  predicate InWindow(t: int, from: int, to: int) {
    from <= t <= to
  }

  function WindowTxns(txns: seq<BalanceTxn>, from: int, to: int): (r: seq<BalanceTxn>)
    ensures forall t :: t in r <==> t in txns && InWindow(t.created, from, to)
  {
    if |txns| == 0 then []
    else
      var last := txns[|txns| - 1];
      assert txns == txns[..|txns| - 1] + [last];
      WindowTxns(txns[..|txns| - 1], from, to) + if InWindow(last.created, from, to) then [last] else []
  }

  lemma WindowSnoc(txns: seq<BalanceTxn>, t: BalanceTxn, from: int, to: int)
    ensures WindowTxns(txns + [t], from, to) == WindowTxns(txns, from, to) + if InWindow(t.created, from, to) then [t] else []
  {
    assert (txns + [t])[..|txns|] == txns;
  }

  lemma Regroup<T>(x: seq<T>, y: seq<T>, z: seq<T>)
    ensures (x + y) + z == x + (y + z)
  {
  }

  /** The window keeps the order of the transactions. */
  lemma {:induction false} WindowConcat(xs: seq<BalanceTxn>, ys: seq<BalanceTxn>, from: int, to: int)
    ensures WindowTxns(xs + ys, from, to) == WindowTxns(xs, from, to) + WindowTxns(ys, from, to)
  {
    if ys == [] {
      assert xs + ys == xs;
    } else {
      var init, t := ys[..|ys| - 1], ys[|ys| - 1];
      WindowConcat(xs, init, from, to);
      assert ys == init + [t] && xs + ys == (xs + init) + [t];
      WindowSnoc(xs + init, t, from, to);
      WindowSnoc(init, t, from, to);
      Regroup(WindowTxns(xs, from, to), WindowTxns(init, from, to), if InWindow(t.created, from, to) then [t] else []);
    }
  }

  /** The window keeps how often each transaction occurs. */
  lemma {:induction false} WindowCounts(txns: seq<BalanceTxn>, from: int, to: int, t: BalanceTxn)
    ensures multiset(WindowTxns(txns, from, to))[t] == if InWindow(t.created, from, to) then multiset(txns)[t] else 0
  {
    if |txns| > 0 {
      var n := |txns| - 1;
      WindowCounts(txns[..n], from, to, t);
      assert txns == txns[..n] + [txns[n]];
    }
  }

  /** The intents of the window, each once, in any order: they are kept in a map. */
  ghost predicate ListsIntents(pis: seq<PaymentIntent>, ks: seq<string>, intents: map<string, PaymentIntent>, from: int, to: int) {
    && |pis| == |ks|
    && Distinct(ks)
    && (forall i :: 0 <= i < |ks| ==>
          ks[i] in intents && pis[i] == intents[ks[i]] && InWindow(pis[i].created, from, to))
    && (forall k | k in intents && InWindow(intents[k].created, from, to) :: k in ks)
  }

  predicate IsCharge(t: BalanceTxn) {
    t.kind == "charge" || t.kind == "payment"
  }

  /* ---------- the gateway invariant ---------- */

  /** `pi` has a charge for exactly its own amount. */
  ghost predicate Charged(acct: GwAccount, pi: PaymentIntent) {
    exists t :: t in acct.txns && IsCharge(t) && t.sourceID == pi.id && t.amount == pi.amount
  }

  ghost predicate IntentOk(acct: GwAccount, id: string)
    requires id in acct.intents
  {
    var pi := acct.intents[id];
    pi.id == id && Plain(id) && ValidAmount(pi.amount) && (pi.status == Succeeded ==> Charged(acct, pi))
  }

  ghost predicate TxnOk(acct: GwAccount, t: BalanceTxn) {
    IsCharge(t) ==>
      && t.sourceID in acct.intents
      && t.amount == acct.intents[t.sourceID].amount
      && Terminal(acct.intents[t.sourceID].status)
  }

  ghost predicate AcctInv(acct: GwAccount) {
    && (forall id | id in acct.intents :: IntentOk(acct, id))
    && (forall t | t in acct.txns :: TxnOk(acct, t))
  }

  ghost predicate GwInv(g: Gw) {
    forall a :: AcctInv(Acct(g, a))
  }

  /** What the gateway never takes back: intents keep amount, metadata and creation time,
      a terminal intent stays terminal, and transactions are only appended. */
  ghost predicate IntentLe(x: PaymentIntent, y: PaymentIntent) {
    && y.amount == x.amount && y.metadata == x.metadata && y.created == x.created
    && (Terminal(x.status) ==> Terminal(y.status))
  }

  ghost predicate AcctLe(x: GwAccount, y: GwAccount) {
    && (forall id | id in x.intents :: id in y.intents && IntentLe(x.intents[id], y.intents[id]))
    && x.txns <= y.txns
  }

  ghost predicate GwLe(g: Gw, h: Gw) {
    forall a :: AcctLe(Acct(g, a), Acct(h, a))
  }

  lemma SetAcctInv(g: Gw, a: string, x: GwAccount)
    requires GwInv(g) && AcctInv(x) && AcctLe(Acct(g, a), x)
    ensures GwInv(SetAcct(g, a, x)) && GwLe(g, SetAcct(g, a, x))
  {
    var h := SetAcct(g, a, x);
    forall b ensures AcctInv(Acct(h, b)) && AcctLe(Acct(g, b), Acct(h, b)) {
      assert AcctInv(Acct(g, b));
      if b != a {
        assert Acct(h, b) == Acct(g, b);
      }
    }
  }

  lemma CreateKeepsInv(g: Gw, a: string, p: IntentParams, x: Draw)
    requires GwInv(g) && x.id !in Acct(g, a).intents && Plain(x.id)
    ensures var (h, r) := CreateIntent(g, a, p, x);
            GwInv(h) && GwLe(g, h)
  {
    if ValidAmount(p.amount) {
      var acct := Acct(g, a);
      assert AcctInv(acct);
      var (h, r) := CreateIntent(g, a, p, x);
      var y := Acct(h, a);
      var pi := r.value;
      assert acct.txns <= y.txns;
      forall id | id in y.intents ensures IntentOk(y, id) {
        if id == x.id {
          if pi.status == Succeeded {
            assert y.txns[|acct.txns|] == Charge(pi, x.txnID, x.chargedAt);
            assert Charged(y, pi);
          }
        } else {
          assert IntentOk(acct, id);
          ChargedGrows(acct, y, id);
        }
      }
      forall t | t in y.txns ensures TxnOk(y, t) {
        assert t in acct.txns ==> TxnOk(acct, t);
      }
      SetAcctInv(g, a, y);
      assert Acct(h, a) == y;
      assert forall b :: Acct(h, b) == Acct(SetAcct(g, a, y), b);
    }
  }

  lemma ChargedGrows(x: GwAccount, y: GwAccount, id: string)
    requires id in x.intents && id in y.intents && y.intents[id] == x.intents[id]
    requires x.txns <= y.txns && IntentOk(x, id)
    ensures IntentOk(y, id)
  {
    if x.intents[id].status == Succeeded {
      var t :| t in x.txns && IsCharge(t) && t.sourceID == id && t.amount == x.intents[id].amount;
      var i :| 0 <= i < |x.txns| && x.txns[i] == t;
      assert y.txns[i] == t;
    }
  }

  lemma SucceedKeepsInv(g: Gw, a: string, id: string, txnID: string, now: int)
    requires GwInv(g) && id in Acct(g, a).intents
    ensures var h := Succeed(g, a, id, txnID, now);
            GwInv(h) && GwLe(g, h) && Acct(h, a).intents[id].status == Succeeded
  {
    var x := Acct(g, a);
    assert AcctInv(x) && IntentOk(x, id);
    var h := Succeed(g, a, id, txnID, now);
    var y := Acct(h, a);
    forall k | k in y.intents ensures IntentOk(y, k) {
      assert IntentOk(x, k);
      if k == id && x.intents[id].status != Succeeded {
        assert y.txns[|x.txns|] == Charge(y.intents[id], txnID, now);
        assert Charged(y, y.intents[id]);
      } else {
        ChargedGrows(x, y, k);
      }
    }
    forall t | t in y.txns ensures TxnOk(y, t) {
      assert t in x.txns ==> TxnOk(x, t);
    }
    SetAcctInv(g, a, y);
  }

  lemma FailKeepsInv(g: Gw, a: string, id: string, reason: string)
    requires GwInv(g) && id in Acct(g, a).intents
    ensures var h := Fail(g, a, id, reason);
            GwInv(h) && GwLe(g, h) && Acct(h, a).intents[id].status == Failed
  {
    var x := Acct(g, a);
    assert AcctInv(x);
    var y := Acct(Fail(g, a, id, reason), a);
    forall k | k in y.intents ensures IntentOk(y, k) {
      assert IntentOk(x, k);
      if k != id {
        ChargedGrows(x, y, k);
      }
    }
    forall t | t in y.txns ensures TxnOk(y, t) {
      assert TxnOk(x, t);
    }
    SetAcctInv(g, a, y);
  }

  lemma RefundKeepsInv(g: Gw, a: string, id: string, amount: Option<Money>, txnID: string, now: int)
    requires GwInv(g)
    ensures var (h, r) := Refund(g, a, id, amount, txnID, now);
            GwInv(h) && GwLe(g, h)
  {
    var x := Acct(g, a);
    assert AcctInv(x);
    if id in x.intents {
      var (h, r) := Refund(g, a, id, amount, txnID, now);
      var y := Acct(h, a);
      forall k | k in y.intents ensures IntentOk(y, k) {
        ChargedGrows(x, y, k);
      }
      forall t | t in y.txns ensures TxnOk(y, t) {
        assert t in x.txns ==> TxnOk(x, t);
      }
      SetAcctInv(g, a, y);
    }
  }

  /* ---------- the mock ---------- */

  class Mock {
    var accounts: map<string, GwAccount>
    var nextOutcome: Option<Outcome>

    ghost function View(): Gw
      reads this
    {
      Gw(accounts, nextOutcome)
    }

    constructor ()
      ensures View() == EmptyGw
    {
      accounts, nextOutcome := map[], None;
    }

    /** Reading an account creates it. */
    method Touch(a: string) returns (x: GwAccount)
      modifies this`accounts
      ensures x == old(Acct(View(), a)) && accounts == old(accounts)[a := x]
    {
      if a !in accounts {
        accounts := accounts[a := NoAccount];
      }
      x := accounts[a];
      assert accounts == old(accounts)[a := x];
    }

    method SetNextOutcome(status: Status, reason: string)
      modifies this
      ensures View() == old(View()).(next := Some(Outcome(status, reason)))
    {
      nextOutcome := Some(Outcome(status, reason));
    }

    method CreateCustomer(a: string, email: string, name: string, freshID: string) returns (c: Customer)
      modifies this
      ensures c == Customer(freshID, email, name)
      ensures var x := old(Acct(View(), a));
              View() == SetAcct(old(View()), a, x.(customers := x.customers[freshID := c]))
    {
      c := Customer(freshID, email, name);
      var x := Touch(a);
      accounts := accounts[a := x.(customers := x.customers[freshID := c])];
    }

    method CreatePaymentIntent(a: string, p: IntentParams, x: Draw) returns (r: Result<PaymentIntent>)
      modifies this
      ensures (View(), r) == CreateIntent(old(View()), a, p, x)
    {
      if !ValidAmount(p.amount) {
        return Err(Invalid);
      }
      var pi := NewIntent(p, x);
      var acct := Touch(a);
      acct := acct.(intents := acct.intents[x.id := pi]);
      if p.confirm {
        pi, acct := ApplyOutcome(acct, pi, x);
      }
      assert acct.intents == old(Acct(View(), a)).intents[x.id := pi];
      accounts := accounts[a := acct];
      assert accounts == old(accounts)[a := acct];
      r := Ok(pi);
    }

    method ApplyOutcome(acct: GwAccount, pi: PaymentIntent, x: Draw) returns (done: PaymentIntent, y: GwAccount)
      modifies this`nextOutcome
      ensures var o := ForcedOutcome(old(View()));
              && done == pi.(status := o.status, failureReason := o.reason)
              && y.customers == acct.customers
              && y.intents == acct.intents[pi.id := done]
              && y.txns == if o.status == Succeeded then acct.txns + [Charge(done, x.txnID, x.chargedAt)] else acct.txns
      ensures nextOutcome == None
    {
      var status, reason := Succeeded, "";
      if nextOutcome.Some? {
        status, reason := nextOutcome.value.status, nextOutcome.value.reason;
        nextOutcome := None;
      }
      done := pi.(status := status, failureReason := reason);
      y := acct.(intents := acct.intents[pi.id := done]);
      if status == Succeeded {
        y := RecordCharge(y, done, x.txnID, x.chargedAt);
      }
    }

    method RecordCharge(acct: GwAccount, pi: PaymentIntent, txnID: string, now: int) returns (y: GwAccount)
      ensures y == acct.(txns := acct.txns + [Charge(pi, txnID, now)])
    {
      var fee := NewMoney(0, pi.amount.currency);
      y := acct.(txns := acct.txns + [BalanceTxn(txnID, "charge", pi.amount, fee, pi.id, now)]);
    }

    method GetPaymentIntent(a: string, id: string) returns (r: Result<PaymentIntent>)
      modifies this
      ensures r == GetIntent(old(View()), a, id)
      ensures View() == SetAcct(old(View()), a, old(Acct(View(), a)))
    {
      var acct := Touch(a);
      r := if id in acct.intents then Ok(acct.intents[id]) else Err(NotFound);
    }

    method CreateRefund(a: string, id: string, amount: Option<Money>, txnID: string, now: int) returns (r: Result<Money>)
      modifies this
      ensures r == Refund(old(View()), a, id, amount, txnID, now).1
      ensures View() == if r.Ok? then Refund(old(View()), a, id, amount, txnID, now).0
                        else SetAcct(old(View()), a, old(Acct(View(), a)))
    {
      var acct := Touch(a);
      if id !in acct.intents {
        return Err(NotFound);
      }
      var amt := acct.intents[id].amount;
      if amount.Some? {
        amt := amount.value;
      }
      var t := BalanceTxn(txnID, "refund", NewMoney(-amt.amount, amt.currency), Money(0, ""), id, now);
      accounts := accounts[a := acct.(txns := acct.txns + [t])];
      r := Ok(amt);
    }

    /** Paying an unknown intent panics, so it must exist. */
    method SucceedIntent(a: string, id: string, txnID: string, eventID: string, now: int) returns (e: Event)
      requires id in Acct(View(), a).intents
      modifies this
      ensures View() == Succeed(old(View()), a, id, txnID, now)
      ensures e == SucceededEvent(View(), a, id, eventID)
    {
      var acct := Touch(a);
      var pi := acct.intents[id];
      if pi.status != Succeeded {
        pi := pi.(status := Succeeded);
        acct := acct.(intents := acct.intents[id := pi]);
        acct := RecordCharge(acct, pi, txnID, now);
        accounts := accounts[a := acct];
      }
      e := Event(eventID, PaymentSucceeded, a, Some(pi));
    }

    method FailIntent(a: string, id: string, reason: string, eventID: string) returns (e: Event)
      requires id in Acct(View(), a).intents
      modifies this
      ensures View() == Fail(old(View()), a, id, reason)
      ensures e == FailedEvent(View(), a, id, eventID)
    {
      var acct := Touch(a);
      var pi := acct.intents[id].(status := Failed, failureReason := reason);
      accounts := accounts[a := acct.(intents := acct.intents[id := pi])];
      e := Event(eventID, PaymentFailed, a, Some(pi));
    }

    method ListBalanceTransactions(a: string, from: int, to: int) returns (out: seq<BalanceTxn>)
      modifies this
      ensures out == WindowTxns(old(Acct(View(), a)).txns, from, to)
      ensures View() == SetAcct(old(View()), a, old(Acct(View(), a)))
    {
      out := [];
      var acct := Touch(a);
      for i := 0 to |acct.txns|
        invariant out == WindowTxns(acct.txns[..i], from, to)
      {
        assert acct.txns[..i + 1][..i] == acct.txns[..i];
        if InWindow(acct.txns[i].created, from, to) {
          out := out + [acct.txns[i]];
        }
      }
      assert acct.txns[..|acct.txns|] == acct.txns;
    }

    method ListPaymentIntents(a: string, from: int, to: int) returns (out: seq<PaymentIntent>, ghost ks: seq<string>)
      modifies this
      ensures ListsIntents(out, ks, old(Acct(View(), a)).intents, from, to)
      ensures View() == SetAcct(old(View()), a, old(Acct(View(), a)))
    {
      out, ks := [], [];
      var acct := Touch(a);
      var intents := acct.intents;
      var rest := intents.Keys;
      while rest != {}
        invariant |out| == |ks| && rest <= intents.Keys && Distinct(ks)
        invariant forall i :: 0 <= i < |ks| ==>
          ks[i] in intents && ks[i] !in rest && out[i] == intents[ks[i]] && InWindow(out[i].created, from, to)
        invariant forall k | k in intents && InWindow(intents[k].created, from, to) :: k in rest || k in ks
        decreases |rest|
      {
        var k :| k in rest;
        rest := rest - {k};
        if InWindow(intents[k].created, from, to) {
          out, ks := out + [intents[k]], ks + [k];
        }
      }
    }
  }
}
