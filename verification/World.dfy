/**
 * The whole protocol, cut at every store operation and every gateway call: donations, webhook
 * handlers and reconciliation passes run side by side, are delivered late, twice or never, and
 * may crash half-way. The gateway moves on its own. Handlers stop after their write: what they
 * send is not part of this system.
 */
module World {
  import opened Domain
  import opened Store
  import opened Gateway
  import opened Recon
  import opened ReconResult
  import opened ReconRace
  import W = Webhook
  import App

  /** One unit of work in flight, and what it does next. */
  datatype Task =
    | StartKey(input: App.Input, donor: Donor)
    | StartCreate(input: App.Input, donor: Donor)
    | StartWrite(row: Payment, key: string)
    | StartSave(key: string, id: string)
    | HandleRead(event: Event)
    | HandleWrite(found: Option<Payment>, row: Payment)
    | Sweep(a: string, from: int, to: int, listed: bool, worker: Worker)
    | Gone

  /** `emitted` are the events the gateway ever produced; any of them may be delivered at any time. */
  datatype Sys = Sys(gw: Gw, data: Data, emitted: set<Event>, tasks: seq<Task>)

  const Initial := Sys(EmptyGw, EmptyData, {}, [])

  datatype Act =
    | SaveDonor(donor: Donor)
    | BeginStart(input: App.Input)
    | BeginHandle(event: Event)
    | BeginPass(a: string, from: int, to: int)
    | Advance(i: nat, draw: Draw, now: int, pis: seq<PaymentIntent>, ks: seq<string>)
    | Crash(i: nat)
    | GwSucceed(a: string, id: string, txnID: string, eventID: string, now: int)
    | GwFail(a: string, id: string, reason: string, eventID: string)
    | GwRefund(a: string, id: string, amount: Option<Money>, txnID: string, now: int)
    | GwForce(status: Status, reason: string)

  /** Fresh, separator-free intent ids; only emitted events; only existing intents; truthful listings. */
  ghost predicate Enabled(s: Sys, act: Act) {
    match act
    case SaveDonor(_) => true
    case BeginStart(_) => true
    case BeginHandle(e) => e in s.emitted
    case BeginPass(_, _, _) => true
    case Advance(i, x, _, pis, ks) =>
      && i < |s.tasks|
      && (match s.tasks[i]
         case StartCreate(input, _) => x.id !in Acct(s.gw, input.accountID).intents && Plain(x.id)
         case Sweep(a, from, to, listed, w) =>
           !Done(w) || listed || ListsIntents(pis, ks, Acct(s.gw, a).intents, from, to)
         case Gone => false
         case _ => true)
    case Crash(i) => i < |s.tasks|
    case GwSucceed(a, id, _, _, _) => id in Acct(s.gw, a).intents
    case GwFail(a, id, _, _) => id in Acct(s.gw, a).intents
    case GwRefund(_, _, _, _, _) => true
    case GwForce(_, _) => true
  }

  function Emit(s: Sys, g: Gw, e: Event): Sys {
    s.(gw := g, emitted := s.emitted + {e})
  }

  function Spawn(s: Sys, t: Task): Sys {
    s.(tasks := s.tasks + [t])
  }

  /** `StartDonation` up to the donor lookup; a key is looked up next, in an operation of its own. */
  function StartTask(s: Sys, input: App.Input): Sys {
    var donor := FindDonor(s.data, input.accountID, input.donorID);
    if !ValidAmount(input.amount) || donor.None? then s
    else Spawn(s, if input.key != "" then StartKey(input, donor.value) else StartCreate(input, donor.value))
  }

  /** One operation of one task. */
  function AdvanceTask(s: Sys, bps: int, t: Task, x: Draw, now: int, pis: seq<PaymentIntent>): (Sys, Task) {
    match t
    case StartKey(input, donor) => (s, if App.Hit(s.data, input) then Gone else StartCreate(input, donor))
    case StartCreate(input, donor) =>
      var (g, r) := CreateIntent(s.gw, input.accountID, App.ParamsFor(input, donor), x);
      if r.Err? then (s, Gone)
      else (s.(gw := g), StartWrite(App.DonationRow(input, donor, r.value, bps, now), input.key))
    case StartWrite(row, key) =>
      (s.(data := PutPayment(s.data, row)), if key != "" then StartSave(key, row.intentID) else Gone)
    case StartSave(key, id) => (s.(data := PutKey(s.data, key, id)), Gone)
    case HandleRead(e) =>
      var status := W.StatusOf(e.kind);
      if status.None? || e.intent.None? then (s, Gone)
      else
        var pi := e.intent.value;
        var found := FindPayment(s.data, Lookup(pi.metadata, "account_id"), pi.id);
        (s, HandleWrite(found, W.EventRow(found, pi, status.value, now)))
    case HandleWrite(_, row) => (s.(data := PutPayment(s.data, row)), Gone)
    case Sweep(a, from, to, listed, w) =>
      if !Done(w) then
        var (d, v) := StepWorker(s.data, a, w, now);
        (s.(data := d), t.(worker := v))
      else if !listed then (s, t.(worker := w.(items := w.items + Items([], pis)), listed := true))
      else (s, Gone)
    case Gone => (s, Gone)
  }

  ghost function Apply(s: Sys, bps: int, act: Act): Sys {
    if !Enabled(s, act) then s
    else match act
      case SaveDonor(donor) => s.(data := PutDonor(s.data, donor))
      case BeginStart(input) => StartTask(s, input)
      case BeginHandle(e) =>
        if e.id in s.data.events then s else Spawn(s.(data := MarkEvent(s.data, e.id)), HandleRead(e))
      case BeginPass(a, from, to) =>
        Spawn(s, Sweep(a, from, to, false, NewWorker(Items(WindowTxns(Acct(s.gw, a).txns, from, to), []))))
      case Advance(i, x, now, pis, ks) =>
        var (next, t) := AdvanceTask(s, bps, s.tasks[i], x, now, pis);
        next.(tasks := s.tasks[i := t])
      case Crash(i) => s.(tasks := s.tasks[i := Gone])
      case GwSucceed(a, id, txnID, eventID, now) =>
        var g := Succeed(s.gw, a, id, txnID, now);
        Emit(s, g, SucceededEvent(g, a, id, eventID))
      case GwFail(a, id, reason, eventID) =>
        var g := Fail(s.gw, a, id, reason);
        Emit(s, g, FailedEvent(g, a, id, eventID))
      case GwRefund(a, id, amount, txnID, now) => s.(gw := Refund(s.gw, a, id, amount, txnID, now).0)
      case GwForce(status, reason) => s.(gw := s.gw.(next := Some(Outcome(status, reason))))
  }

  ghost function Exec(s: Sys, bps: int, acts: seq<Act>): Sys {
    if |acts| == 0 then s else Apply(Exec(s, bps, acts[..|acts| - 1]), bps, acts[|acts| - 1])
  }

  /* ---------- the steps of a run ---------- */

  /** The state before step `n`. */
  ghost function At(bps: int, acts: seq<Act>, n: nat): Sys
    requires n <= |acts|
  {
    Exec(Initial, bps, acts[..n])
  }

  lemma AtNext(bps: int, acts: seq<Act>, n: nat)
    requires n < |acts|
    ensures At(bps, acts, n + 1) == Apply(At(bps, acts, n), bps, acts[n])
  {
    assert acts[..n + 1][..n] == acts[..n];
  }

  /* ---------- the invariant ---------- */

  /** A row names an intent of its account, carries its exact amount, and is terminal only if the intent is. */
  ghost predicate RowOk(g: Gw, p: Payment) {
    var intents := Acct(g, p.accountID).intents;
    && p.intentID in intents
    && p.amount == intents[p.intentID].amount
    && (Terminal(p.status) ==> Terminal(intents[p.intentID].status))
  }

  ghost predicate EventOk(g: Gw, e: Event) {
    e.intent.Some? ==>
      var pi, intents := e.intent.value, Acct(g, e.account).intents;
      && pi.id in intents
      && pi.amount == intents[pi.id].amount
      && pi.metadata == intents[pi.id].metadata
      && (W.StatusOf(e.kind).Some? ==> Terminal(intents[pi.id].status))
  }

  ghost predicate ItemOk(g: Gw, a: string, item: Item) {
    var intents := Acct(g, a).intents;
    match item
    case Txn(tx) =>
      IsCharge(tx) ==> tx.sourceID in intents && tx.amount == intents[tx.sourceID].amount && Terminal(intents[tx.sourceID].status)
    case Intent(pi) =>
      pi.id in intents && pi.amount == intents[pi.id].amount && (pi.status == Failed ==> Terminal(intents[pi.id].status))
  }

  ghost predicate TaskOk(g: Gw, t: Task) {
    match t
    case StartWrite(row, _) => RowOk(g, row)
    case HandleRead(e) => EventOk(g, e)
    case HandleWrite(_, row) => RowOk(g, row) && Terminal(row.status)
    case Sweep(a, _, _, _, w) =>
      && (forall i | 0 <= i < |w.items| :: ItemOk(g, a, w.items[i]))
      && (w.stage.Writing? ==> RowOk(g, w.stage.row) && Terminal(w.stage.row.status))
      && (w.stage.Reading? ==> !Done(w) && w.items[w.idx].Txn? && IsCharge(w.items[w.idx].tx))
    case _ => true
  }

  /** Every intent carries its own account in its metadata. */
  ghost predicate Routed(g: Gw) {
    forall a, id | id in Acct(g, a).intents :: Lookup(Acct(g, a).intents[id].metadata, "account_id") == a
  }

  ghost predicate Inv(s: Sys) {
    && GwInv(s.gw) && Routed(s.gw) && Keyed(s.data)
    && (forall k | k in s.data.payments :: RowOk(s.gw, s.data.payments[k]))
    && (forall e | e in s.emitted :: EventOk(s.gw, e))
    && (forall i | 0 <= i < |s.tasks| :: TaskOk(s.gw, s.tasks[i]))
  }

  /* ---------- the gateway only moves forward ---------- */

  lemma RowOkForward(g: Gw, h: Gw, p: Payment)
    requires GwLe(g, h) && RowOk(g, p)
    ensures RowOk(h, p)
  {
    assert AcctLe(Acct(g, p.accountID), Acct(h, p.accountID));
  }

  lemma TaskOkForward(g: Gw, h: Gw, t: Task)
    requires GwLe(g, h) && TaskOk(g, t)
    ensures TaskOk(h, t)
  {
    match t
    case StartWrite(row, _) => RowOkForward(g, h, row);
    case HandleRead(e) => assert AcctLe(Acct(g, e.account), Acct(h, e.account));
    case HandleWrite(_, row) => RowOkForward(g, h, row);
    case Sweep(a, _, _, _, w) =>
      assert AcctLe(Acct(g, a), Acct(h, a));
      if w.stage.Writing? {
        RowOkForward(g, h, w.stage.row);
      }
    case _ =>
  }

  /** A move of the gateway alone, with one more event emitted or none. */
  lemma GatewayMoves(s: Sys, t: Sys)
    requires Inv(s) && GwLe(s.gw, t.gw) && GwInv(t.gw) && Routed(t.gw)
    requires t.data == s.data && t.tasks == s.tasks
    requires forall e | e in t.emitted :: e in s.emitted || EventOk(t.gw, e)
    ensures Inv(t)
  {
    forall k | k in t.data.payments ensures RowOk(t.gw, t.data.payments[k]) {
      RowOkForward(s.gw, t.gw, t.data.payments[k]);
    }
    forall e | e in t.emitted ensures EventOk(t.gw, e) {
      if e in s.emitted {
        assert EventOk(s.gw, e);
        assert AcctLe(Acct(s.gw, e.account), Acct(t.gw, e.account));
      }
    }
    forall i | 0 <= i < |t.tasks| ensures TaskOk(t.gw, t.tasks[i]) {
      TaskOkForward(s.gw, t.gw, s.tasks[i]);
    }
  }

  lemma RoutedStays(g: Gw, h: Gw)
    requires Routed(g) && GwLe(g, h)
    requires forall a, id | id in Acct(h, a).intents :: id in Acct(g, a).intents
    ensures Routed(h)
  {
    forall a, id | id in Acct(h, a).intents ensures Lookup(Acct(h, a).intents[id].metadata, "account_id") == a {
      assert AcctLe(Acct(g, a), Acct(h, a));
    }
  }

  /* ---------- what each task writes is right ---------- */

  /** A row found under an intent's key is that intent's row. */
  lemma FoundIsOwn(s: Sys, a: string, id: string)
    requires Inv(s) && id in Acct(s.gw, a).intents
    ensures var p := FindPayment(s.data, a, id);
            p.Some? ==> p.value.accountID == a && p.value.intentID == id && RowOk(s.gw, p.value)
  {
    var p := FindPayment(s.data, a, id);
    if p.Some? {
      assert RowOk(s.gw, p.value);
      assert AcctInv(Acct(s.gw, a)) && AcctInv(Acct(s.gw, p.value.accountID));
      assert IntentOk(Acct(s.gw, a), id) && IntentOk(Acct(s.gw, p.value.accountID), p.value.intentID);
      RowKeyInjective(p.value.accountID, p.value.intentID, a, id);
    }
  }

  lemma EventRowOk(s: Sys, e: Event, now: int)
    requires Inv(s) && EventOk(s.gw, e) && e.intent.Some? && W.StatusOf(e.kind).Some?
    ensures var pi := e.intent.value;
      RowOk(s.gw, W.EventRow(FindPayment(s.data, Lookup(pi.metadata, "account_id"), pi.id), pi, W.StatusOf(e.kind).value, now))
  {
    var pi := e.intent.value;
    assert Lookup(pi.metadata, "account_id") == e.account;
    FoundIsOwn(s, e.account, pi.id);
  }

  lemma SweepStepOk(s: Sys, a: string, w: Worker, now: int)
    requires Inv(s) && !Done(w) && (forall i | 0 <= i < |w.items| :: ItemOk(s.gw, a, w.items[i]))
    requires w.stage.Writing? ==> RowOk(s.gw, w.stage.row)
    requires w.stage.Reading? ==> w.items[w.idx].Txn? && IsCharge(w.items[w.idx].tx)
    ensures var (d, v) := StepWorker(s.data, a, w, now);
      && v.items == w.items
      && Keyed(d)
      && (forall k | k in d.payments :: RowOk(s.gw, d.payments[k]))
      && (v.stage.Writing? ==> RowOk(s.gw, v.stage.row) && Terminal(v.stage.row.status))
      && (v.stage.Reading? ==> !Done(v) && v.items[v.idx].Txn? && IsCharge(v.items[v.idx].tx))
  {
    assert ItemOk(s.gw, a, w.items[w.idx]);
    match w.items[w.idx]
    case Txn(tx) =>
      if IsCharge(tx) {
        FoundIsOwn(s, a, tx.sourceID);
      }
    case Intent(pi) =>
      FoundIsOwn(s, a, pi.id);
  }

  lemma CreateAdvances(s: Sys, bps: int, input: App.Input, donor: Donor, x: Draw, now: int)
    requires Inv(s) && x.id !in Acct(s.gw, input.accountID).intents && Plain(x.id)
    ensures var (n, t) := AdvanceTask(s, bps, StartCreate(input, donor), x, now, []);
      Inv(n) && TaskOk(n.gw, t) && GwLe(s.gw, n.gw) && n == s.(gw := n.gw)
  {
    var a := input.accountID;
    CreateKeepsInv(s.gw, a, App.ParamsFor(input, donor), x);
    App.MetadataRoutes(input, donor);
    var (g, r) := CreateIntent(s.gw, a, App.ParamsFor(input, donor), x);
    if r.Ok? {
      assert Acct(g, a).intents == Acct(s.gw, a).intents[x.id := r.value];
      forall b, id | id in Acct(g, b).intents ensures Lookup(Acct(g, b).intents[id].metadata, "account_id") == b {
        if b != a {
          assert Acct(g, b) == Acct(s.gw, b);
        }
      }
      GatewayMoves(s, s.(gw := g));
    } else {
      assert forall b :: AcctLe(Acct(s.gw, b), Acct(s.gw, b));
    }
  }

  lemma ListingOk(g: Gw, a: string, pis: seq<PaymentIntent>, ks: seq<string>, from: int, to: int)
    requires GwInv(g) && ListsIntents(pis, ks, Acct(g, a).intents, from, to)
    ensures forall i | 0 <= i < |pis| :: ItemOk(g, a, Intent(pis[i]))
  {
    assert AcctInv(Acct(g, a));
    forall i | 0 <= i < |pis| ensures ItemOk(g, a, Intent(pis[i])) {
      assert IntentOk(Acct(g, a), ks[i]);
    }
  }

  lemma GwLeRefl(g: Gw)
    ensures GwLe(g, g)
  {
  }

  lemma SweepAdvances(s: Sys, bps: int, t: Task, x: Draw, now: int, pis: seq<PaymentIntent>, ks: seq<string>)
    requires Inv(s) && t.Sweep? && TaskOk(s.gw, t)
    requires !Done(t.worker) || t.listed || ListsIntents(pis, ks, Acct(s.gw, t.a).intents, t.from, t.to)
    ensures var (n, u) := AdvanceTask(s, bps, t, x, now, pis);
      && n == s.(data := n.data) && Keyed(n.data) && TaskOk(s.gw, u)
      && (forall k | k in n.data.payments :: RowOk(s.gw, n.data.payments[k]))
  {
    if !Done(t.worker) {
      SweepStepOk(s, t.a, t.worker, now);
    } else if !t.listed {
      ListingOk(s.gw, t.a, pis, ks, t.from, t.to);
      var items := t.worker.items + Items([], pis);
      forall i | 0 <= i < |items| ensures ItemOk(s.gw, t.a, items[i]) {
        if i >= |t.worker.items| {
          assert items[i] == Intent(pis[i - |t.worker.items|]);
        }
      }
    }
  }

  lemma PutRowOk(s: Sys, row: Payment)
    requires Inv(s) && RowOk(s.gw, row)
    ensures var d := PutPayment(s.data, row); Keyed(d) && forall k | k in d.payments :: RowOk(s.gw, d.payments[k])
  {
  }

  /** A task that does not talk to the gateway: what it writes next is right. */
  lemma WriterAdvances(s: Sys, bps: int, t: Task, x: Draw, now: int)
    requires Inv(s) && TaskOk(s.gw, t) && (t.StartKey? || t.StartWrite? || t.StartSave? || t.HandleRead? || t.HandleWrite?)
    ensures var (n, u) := AdvanceTask(s, bps, t, x, now, []);
      && n == s.(data := n.data) && Keyed(n.data) && TaskOk(s.gw, u)
      && (forall k | k in n.data.payments :: RowOk(s.gw, n.data.payments[k]))
  {
    match t {
      case HandleRead(e) =>
        if W.StatusOf(e.kind).Some? && e.intent.Some? {
          EventRowOk(s, e, now);
        }
      case StartWrite(row, _) => PutRowOk(s, row);
      case HandleWrite(_, row) => PutRowOk(s, row);
      case _ =>
    }
  }

  /** What a task does keeps the tables right, and the task itself. */
  lemma TaskAdvances(s: Sys, bps: int, i: nat, x: Draw, now: int, pis: seq<PaymentIntent>, ks: seq<string>)
    requires Inv(s) && Enabled(s, Advance(i, x, now, pis, ks))
    ensures var (n, u) := AdvanceTask(s, bps, s.tasks[i], x, now, pis);
      && GwLe(s.gw, n.gw) && GwInv(n.gw) && Routed(n.gw) && Keyed(n.data) && TaskOk(n.gw, u)
      && (forall k | k in n.data.payments :: RowOk(n.gw, n.data.payments[k]))
      && n.emitted == s.emitted && n.tasks == s.tasks
  {
    var t := s.tasks[i];
    assert TaskOk(s.gw, t);
    GwLeRefl(s.gw);
    match t {
      case StartCreate(input, donor) => CreateAdvances(s, bps, input, donor, x, now);
      case Sweep(_, _, _, _, _) => SweepAdvances(s, bps, t, x, now, pis, ks);
      case Gone =>
      case _ => WriterAdvances(s, bps, t, x, now);
    }
  }

  lemma AdvanceKeeps(s: Sys, bps: int, act: Act)
    requires Inv(s) && act.Advance? && Enabled(s, act)
    ensures Inv(Apply(s, bps, act))
  {
    var (n, u) := AdvanceTask(s, bps, s.tasks[act.i], act.draw, act.now, act.pis);
    TaskAdvances(s, bps, act.i, act.draw, act.now, act.pis, act.ks);
    var t := n.(tasks := s.tasks[act.i := u]);
    forall e | e in t.emitted ensures EventOk(t.gw, e) {
      assert EventOk(s.gw, e) && AcctLe(Acct(s.gw, e.account), Acct(n.gw, e.account));
    }
    forall i | 0 <= i < |t.tasks| ensures TaskOk(t.gw, t.tasks[i]) {
      if i != act.i {
        TaskOkForward(s.gw, n.gw, s.tasks[i]);
      }
    }
  }

  /** The gateway moved forward without a new intent. */
  lemma GatewayActKeeps(s: Sys, t: Sys)
    requires Inv(s) && GwInv(t.gw) && GwLe(s.gw, t.gw) && t.data == s.data && t.tasks == s.tasks
    requires forall a, id | id in Acct(t.gw, a).intents :: id in Acct(s.gw, a).intents
    requires forall e | e in t.emitted :: e in s.emitted || EventOk(t.gw, e)
    ensures Inv(t)
  {
    RoutedStays(s.gw, t.gw);
    GatewayMoves(s, t);
  }

  lemma PayKeeps(s: Sys, a: string, id: string, txnID: string, eventID: string, now: int)
    requires Inv(s) && id in Acct(s.gw, a).intents
    ensures var g := Succeed(s.gw, a, id, txnID, now); Inv(Emit(s, g, SucceededEvent(g, a, id, eventID)))
  {
    SucceedKeepsInv(s.gw, a, id, txnID, now);
    var g := Succeed(s.gw, a, id, txnID, now);
    assert AcctInv(Acct(s.gw, a)) && IntentOk(Acct(s.gw, a), id);
    assert EventOk(g, SucceededEvent(g, a, id, eventID));
    GatewayActKeeps(s, Emit(s, g, SucceededEvent(g, a, id, eventID)));
  }

  lemma DeclineKeeps(s: Sys, a: string, id: string, reason: string, eventID: string)
    requires Inv(s) && id in Acct(s.gw, a).intents
    ensures var g := Fail(s.gw, a, id, reason); Inv(Emit(s, g, FailedEvent(g, a, id, eventID)))
  {
    FailKeepsInv(s.gw, a, id, reason);
    var g := Fail(s.gw, a, id, reason);
    assert AcctInv(Acct(s.gw, a)) && IntentOk(Acct(s.gw, a), id);
    assert EventOk(g, FailedEvent(g, a, id, eventID));
    GatewayActKeeps(s, Emit(s, g, FailedEvent(g, a, id, eventID)));
  }

  lemma QuietGatewayKeeps(s: Sys, bps: int, act: Act)
    requires Inv(s) && (act.GwRefund? || act.GwForce?)
    ensures Inv(Apply(s, bps, act))
  {
    var t := Apply(s, bps, act);
    if act.GwRefund? {
      RefundKeepsInv(s.gw, act.a, act.id, act.amount, act.txnID, act.now);
    } else {
      assert forall a :: Acct(t.gw, a) == Acct(s.gw, a);
    }
    GatewayActKeeps(s, t);
  }

  lemma BeginPassKeeps(s: Sys, bps: int, act: Act)
    requires Inv(s) && act.BeginPass?
    ensures Inv(Apply(s, bps, act))
  {
    var txns := WindowTxns(Acct(s.gw, act.a).txns, act.from, act.to);
    assert AcctInv(Acct(s.gw, act.a));
    forall i | 0 <= i < |txns| ensures ItemOk(s.gw, act.a, Txn(txns[i])) {
      assert txns[i] in txns;
      assert TxnOk(Acct(s.gw, act.a), txns[i]);
    }
  }

  /** Every operation of every task, and every move of the gateway, keeps the invariant. */
  lemma ApplyKeeps(s: Sys, bps: int, act: Act)
    requires Inv(s)
    ensures Inv(Apply(s, bps, act))
  {
    if Enabled(s, act) {
      if act.Advance? {
        AdvanceKeeps(s, bps, act);
      } else if act.BeginPass? {
        BeginPassKeeps(s, bps, act);
      } else if act.GwSucceed? {
        PayKeeps(s, act.a, act.id, act.txnID, act.eventID, act.now);
      } else if act.GwFail? {
        DeclineKeeps(s, act.a, act.id, act.reason, act.eventID);
      } else if act.GwRefund? || act.GwForce? {
        QuietGatewayKeeps(s, bps, act);
      }
    }
  }

  /** Every reachable state of the protocol agrees with the gateway on what exists and what it is worth. */
  lemma {:induction false} Reachable(bps: int, acts: seq<Act>)
    ensures Inv(Exec(Initial, bps, acts))
  {
    if |acts| > 0 {
      Reachable(bps, acts[..|acts| - 1]);
      ApplyKeeps(Exec(Initial, bps, acts[..|acts| - 1]), bps, acts[|acts| - 1]);
    } else {
      assert forall a :: Acct(EmptyGw, a) == NoAccount;
    }
  }
}
