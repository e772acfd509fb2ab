/** The gateway's money over whole runs: what the balance transactions attribute to an intent. */
module GatewayRuns {
  import opened Domain
  import opened Gateway

  /** The amount as far as it is in this currency. */
  function In(m: Money, currency: string): int {
    if m.currency == currency then m.amount else 0
  }

  /** The money in one currency that the balance transactions attribute to one intent. */
  function Net(txns: seq<BalanceTxn>, id: string, cur: string): int {
    if |txns| == 0 then 0
    else Net(txns[..|txns| - 1], id, cur) + if txns[|txns| - 1].sourceID == id then In(txns[|txns| - 1].amount, cur) else 0
  }

  lemma NetSnoc(txns: seq<BalanceTxn>, t: BalanceTxn, id: string, cur: string)
    ensures Net(txns + [t], id, cur) == Net(txns, id, cur) + if t.sourceID == id then In(t.amount, cur) else 0
  {
    assert (txns + [t])[..|txns|] == txns;
  }

  datatype Op =
    | Create(a: string, p: IntentParams, x: Draw)
    | Pay(a: string, id: string, txnID: string, now: int)
    | Decline(a: string, id: string, reason: string)
    | PayBack(a: string, id: string, amount: Option<Money>, txnID: string, now: int)
    | Force(status: Status, reason: string)

  /** Ids are fresh; paying and failing take an existing intent. */
  predicate Enabled(g: Gw, op: Op) {
    match op
    case Create(a, _, x) => x.id !in Acct(g, a).intents && Plain(x.id)
    case Pay(a, id, _, _) => id in Acct(g, a).intents
    case Decline(a, id, _) => id in Acct(g, a).intents
    case _ => true
  }

  function Do(g: Gw, op: Op): Gw {
    if !Enabled(g, op) then g
    else match op
      case Create(a, p, x) => CreateIntent(g, a, p, x).0
      case Pay(a, id, txnID, now) => Succeed(g, a, id, txnID, now)
      case Decline(a, id, reason) => Fail(g, a, id, reason)
      case PayBack(a, id, amount, txnID, now) => Refund(g, a, id, amount, txnID, now).0
      case Force(status, reason) => g.(next := Some(Outcome(status, reason)))
  }

  /** The states of a run: before the first operation and after each. */
  ghost predicate Runs(gs: seq<Gw>, ops: seq<Op>) {
    |gs| == |ops| + 1 && forall i :: 0 <= i < |ops| ==> gs[i + 1] == Do(gs[i], ops[i])
  }

  predicate HasSucceeded(g: Gw, a: string, id: string) {
    id in Acct(g, a).intents && Acct(g, a).intents[id].status == Succeeded
  }

  /** Between the two states the intent went from not succeeded to succeeded. */
  function Success(g: Gw, h: Gw, a: string, id: string): nat {
    if HasSucceeded(h, a, id) && !HasSucceeded(g, a, id) then 1 else 0
  }

  /** How often intent `id` went from not succeeded (or not there) to succeeded in the first `n` operations. */
  function Successes(gs: seq<Gw>, n: nat, a: string, id: string): nat
    requires n < |gs|
  {
    if n == 0 then 0 else Successes(gs, n - 1, a, id) + Success(gs[n - 1], gs[n], a, id)
  }

  /** What one operation refunds of intent `id` in the currency; a refund may name another one than the intent's. */
  function RefundOf(g: Gw, op: Op, a: string, id: string, cur: string): int {
    if op.PayBack? && op.a == a && op.id == id && id in Acct(g, a).intents then
      var amt := if op.amount.Some? then op.amount.value else Acct(g, a).intents[id].amount;
      In(NewMoney(amt.amount, amt.currency), cur)
    else 0
  }

  function Refunded(gs: seq<Gw>, ops: seq<Op>, n: nat, a: string, id: string, cur: string): int
    requires n <= |ops| && n < |gs|
  {
    if n == 0 then 0 else Refunded(gs, ops, n - 1, a, id, cur) + RefundOf(gs[n - 1], ops[n - 1], a, id, cur)
  }

  /** One operation: in each currency every transition into succeeded is charged once, at the intent's amount,
      and a refund takes exactly what it returns. */
  ghost predicate Moves(g: Gw, h: Gw, op: Op, a: string, id: string, cur: string) {
    && (id in Acct(g, a).intents ==> id in Acct(h, a).intents && Acct(h, a).intents[id].amount == Acct(g, a).intents[id].amount)
    && Net(Acct(h, a).txns, id, cur) == Net(Acct(g, a).txns, id, cur) - RefundOf(g, op, a, id, cur)
         + if HasSucceeded(h, a, id) && !HasSucceeded(g, a, id) then In(Acct(h, a).intents[id].amount, cur) else 0
  }

  lemma PayMoves(g: Gw, op: Op, a: string, id: string, cur: string)
    requires GwInv(g) && op.Pay? && Enabled(g, op)
    ensures Moves(g, Do(g, op), op, a, id, cur)
  {
    var acct := Acct(g, op.a);
    assert AcctInv(acct) && IntentOk(acct, op.id);
    var paid := acct.intents[op.id].(status := Succeeded);
    NetSnoc(acct.txns, Charge(paid, op.txnID, op.now), id, cur);
  }

  /** What creating does: a new intent, its charge if it is confirmed and succeeds, and nothing elsewhere. */
  lemma CreateEffect(g: Gw, a: string, p: IntentParams, x: Draw)
    requires ValidAmount(p.amount)
    ensures var (h, r) := CreateIntent(g, a, p, x);
      && r.Ok? && r.value.id == x.id && r.value.amount == p.amount && r.value.metadata == p.metadata
      && Acct(h, a).intents == Acct(g, a).intents[x.id := r.value]
      && Acct(h, a).txns == Acct(g, a).txns + (if p.confirm && r.value.status == Succeeded then [Charge(r.value, x.txnID, x.chargedAt)] else [])
      && (r.value.status == Succeeded ==> p.confirm)
      && (forall b :: b != a ==> Acct(h, b) == Acct(g, b))
  {
    assert Acct(g, a).txns + [] == Acct(g, a).txns;
  }

  lemma CreateMoves(g: Gw, op: Op, a: string, id: string, cur: string)
    requires op.Create? && Enabled(g, op)
    ensures Moves(g, Do(g, op), op, a, id, cur)
  {
    if ValidAmount(op.p.amount) {
      var (h, r) := CreateIntent(g, op.a, op.p, op.x);
      CreateEffect(g, op.a, op.p, op.x);
      NetSnoc(Acct(g, op.a).txns, Charge(r.value, op.x.txnID, op.x.chargedAt), id, cur);
      assert Do(g, op) == h;
      if a == op.a && id != op.x.id {
        assert Net(Acct(h, a).txns, id, cur) == Net(Acct(g, a).txns, id, cur);
      }
    }
  }

  lemma RefundMoves(g: Gw, op: Op, a: string, id: string, cur: string)
    requires op.PayBack?
    ensures Moves(g, Do(g, op), op, a, id, cur)
  {
    if op.id in Acct(g, op.a).intents {
      var acct := Acct(g, op.a);
      var amt := if op.amount.Some? then op.amount.value else acct.intents[op.id].amount;
      NetSnoc(acct.txns, BalanceTxn(op.txnID, "refund", NewMoney(-amt.amount, amt.currency), Money(0, ""), op.id, op.now), id, cur);
    }
  }

  lemma StepMoves(g: Gw, op: Op, a: string, id: string, cur: string)
    requires GwInv(g)
    ensures Moves(g, Do(g, op), op, a, id, cur) && GwInv(Do(g, op))
  {
    if Enabled(g, op) {
      match op {
        case Create(b, p, x) =>
          CreateMoves(g, op, a, id, cur);
          CreateKeepsInv(g, b, p, x);
        case Pay(b, i, txnID, now) =>
          PayMoves(g, op, a, id, cur);
          SucceedKeepsInv(g, b, i, txnID, now);
        case Decline(b, i, reason) => FailKeepsInv(g, b, i, reason);
        case PayBack(b, i, amount, txnID, now) =>
          RefundMoves(g, op, a, id, cur);
          RefundKeepsInv(g, b, i, amount, txnID, now);
        case Force(_, _) => assert forall b :: Acct(Do(g, op), b) == Acct(g, b);
      }
    }
  }

  /** `amount` taken `times` times. */
  function Total(times: nat, amount: int): int {
    if times == 0 then 0 else Total(times - 1, amount) + amount
  }

  lemma {:induction false} TotalIsProduct(times: nat, amount: int)
    ensures Total(times, amount) == times * amount
  {
    if times > 0 {
      TotalIsProduct(times - 1, amount);
      assert times * amount == (times - 1) * amount + amount;
    }
  }

  /** From `g` to `h` the net money of the intent in the currency grew by `times` its amount, less what was paid back. */
  ghost predicate Balanced(g: Gw, h: Gw, a: string, id: string, times: nat, paidBack: int, cur: string) {
    && (id !in Acct(h, a).intents ==> times == 0)
    && Net(Acct(h, a).txns, id, cur) == Net(Acct(g, a).txns, id, cur) - paidBack
         + if id in Acct(h, a).intents then Total(times, In(Acct(h, a).intents[id].amount, cur)) else 0
  }

  lemma Balance(start: int, before: int, after: int, paidBack: int, more: int, times: nat, amount: int, was: bool, now: bool, again: nat)
    requires again <= 1 && (!was ==> times == 0) && (was || again == 1 ==> now)
    requires before == start - paidBack + (if was then Total(times, amount) else 0)
    requires after == before - more + (if again == 1 then amount else 0)
    ensures (!now ==> times + again == 0) && after == start - (paidBack + more) + if now then Total(times + again, amount) else 0
  {
  }

  lemma BalancedStart(g: Gw, a: string, id: string, cur: string)
    ensures Balanced(g, g, a, id, 0, 0, cur)
  {
  }

  lemma BalancedMove(g: Gw, mid: Gw, h: Gw, op: Op, a: string, id: string, times: nat, paidBack: int, cur: string)
    requires Moves(mid, h, op, a, id, cur) && Balanced(g, mid, a, id, times, paidBack, cur)
    ensures Balanced(g, h, a, id, times + Success(mid, h, a, id), paidBack + RefundOf(mid, op, a, id, cur), cur)
  {
    var was, now := id in Acct(mid, a).intents, id in Acct(h, a).intents;
    Balance(Net(Acct(g, a).txns, id, cur), Net(Acct(mid, a).txns, id, cur), Net(Acct(h, a).txns, id, cur), paidBack, RefundOf(mid, op, a, id, cur),
            times, if now then In(Acct(h, a).intents[id].amount, cur) else 0, was, now, Success(mid, h, a, id));
  }

  lemma OneMove(g: Gw, h: Gw, op: Op, a: string, id: string, cur: string)
    requires GwInv(g) && h == Do(g, op)
    ensures GwInv(h) && Moves(g, h, op, a, id, cur)
  {
    StepMoves(g, op, a, id, cur);
  }

  lemma {:induction false} AlwaysInv(gs: seq<Gw>, ops: seq<Op>, n: nat)
    requires Runs(gs, ops) && GwInv(gs[0]) && n <= |ops|
    ensures GwInv(gs[n])
  {
    if n > 0 {
      AlwaysInv(gs, ops, n - 1);
      OneMove(gs[n - 1], gs[n - 1 + 1], ops[n - 1], "", "", "");
    }
  }

  lemma AllMove(gs: seq<Gw>, ops: seq<Op>, a: string, id: string, cur: string)
    requires Runs(gs, ops) && GwInv(gs[0])
    ensures forall i :: 0 <= i < |ops| ==> Moves(gs[i], gs[i + 1], ops[i], a, id, cur)
  {
    forall i | 0 <= i < |ops| ensures Moves(gs[i], gs[i + 1], ops[i], a, id, cur) {
      AlwaysInv(gs, ops, i);
      OneMove(gs[i], gs[i + 1], ops[i], a, id, cur);
    }
  }

  lemma {:induction false} MovesAddUp(gs: seq<Gw>, ops: seq<Op>, n: nat, a: string, id: string, cur: string)
    requires |gs| == |ops| + 1 && n <= |ops| && forall i :: 0 <= i < n ==> Moves(gs[i], gs[i + 1], ops[i], a, id, cur)
    ensures Balanced(gs[0], gs[n], a, id, Successes(gs, n, a, id), Refunded(gs, ops, n, a, id, cur), cur)
  {
    if n == 0 {
      BalancedStart(gs[0], a, id, cur);
    } else {
      MovesAddUp(gs, ops, n - 1, a, id, cur);
      BalancedMove(gs[0], gs[n - 1], gs[n], ops[n - 1], a, id, Successes(gs, n - 1, a, id), Refunded(gs, ops, n - 1, a, id, cur), cur);
    }
  }

  /** Over any run and in each currency, the net money of an intent grows by its amount for every transition into
      succeeded (a success after a failure is one more) and falls by everything refunded in that currency. */
  lemma NetOverRuns(gs: seq<Gw>, ops: seq<Op>, a: string, id: string, cur: string)
    requires Runs(gs, ops) && GwInv(gs[0])
    ensures var n := |ops|;
            var times := Successes(gs, n, a, id);
      Net(Acct(gs[n], a).txns, id, cur) == Net(Acct(gs[0], a).txns, id, cur) - Refunded(gs, ops, n, a, id, cur)
        + if id in Acct(gs[n], a).intents then times * In(Acct(gs[n], a).intents[id].amount, cur) else 0
  {
    AllMove(gs, ops, a, id, cur);
    MovesAddUp(gs, ops, |ops|, a, id, cur);
    if id in Acct(gs[|ops|], a).intents {
      TotalIsProduct(Successes(gs, |ops|, a, id), In(Acct(gs[|ops|], a).intents[id].amount, cur));
    }
  }

  /** Paying, failing and paying again charges twice. */
  lemma ChargedAgain(gs: seq<Gw>, a: string, id: string, cur: string)
    requires Runs(gs, [Pay(a, id, "txn_1", 1), Decline(a, id, "declined"), Pay(a, id, "txn_2", 2)]) && GwInv(gs[0])
    requires id in Acct(gs[0], a).intents && Acct(gs[0], a).intents[id].status == Requested
    ensures Net(Acct(gs[3], a).txns, id, cur) == Net(Acct(gs[0], a).txns, id, cur) + 2 * In(Acct(gs[0], a).intents[id].amount, cur)
  {
    var ops := [Pay(a, id, "txn_1", 1), Decline(a, id, "declined"), Pay(a, id, "txn_2", 2)];
    AllMove(gs, ops, a, id, cur);
    assert Moves(gs[0], gs[1], ops[0], a, id, cur) && Moves(gs[1], gs[2], ops[1], a, id, cur) && Moves(gs[2], gs[3], ops[2], a, id, cur);
  }
}
