/** The protocol with each operation taken whole: what rows keep, and what callers are told. */
module Protocol {
  import opened Domain
  import opened Store
  import opened Gateway
  import opened Recon
  import opened ReconResult
  import W = Webhook
  import L = WebhookLaws
  import App
  import GR = GatewayRuns

  datatype St = St(gw: Gw, world: W.World, emitted: set<Event>)

  const Initial := St(EmptyGw, W.World(EmptyData, [], []), {})

  datatype Step =
    | SaveDonor(donor: Donor)
    | Donate(input: App.Input, draw: Draw, now: int)
    | Deliver(delivery: W.Delivery)
    | Sweep(a: string, item: Item, now: int)
    | Pay(a: string, id: string, txnID: string, eventID: string, now: int)
    | Decline(a: string, id: string, reason: string, eventID: string)
    | PayBack(a: string, id: string, amount: Option<Money>, txnID: string, now: int)
    | Force(status: Status, reason: string)

  /** Deliveries are of emitted events; a pass only meets items that name intents of its account. */
  ghost predicate Enabled(s: St, step: Step) {
    match step
    case Donate(input, x, _) => x.id !in Acct(s.gw, input.accountID).intents && Plain(x.id)
    case Deliver(v) => v.event in s.emitted
    case Sweep(a, item, _) => ItemID(item) in Acct(s.gw, a).intents
    case Pay(a, id, _, _, _) => id in Acct(s.gw, a).intents
    case Decline(a, id, _, _) => id in Acct(s.gw, a).intents
    case _ => true
  }

  ghost function Apply(s: St, c: W.Config, bps: int, step: Step): St {
    if !Enabled(s, step) then s
    else match step
      case SaveDonor(donor) => s.(world := s.world.(data := PutDonor(s.world.data, donor)))
      case Donate(input, x, now) =>
        var r := App.StartDonation(s.gw, s.world.data, bps, input, x, now);
        s.(gw := r.gw, world := s.world.(data := r.data))
      case Deliver(v) => s.(world := W.Handle(s.world, c, v).0)
      case Sweep(a, item, now) => s.(world := s.world.(data := DoItem(Start(s.world.data, a), a, item, now).data))
      case Pay(a, id, txnID, eventID, now) =>
        var g := Succeed(s.gw, a, id, txnID, now);
        s.(gw := g, emitted := s.emitted + {SucceededEvent(g, a, id, eventID)})
      case Decline(a, id, reason, eventID) =>
        var g := Fail(s.gw, a, id, reason);
        s.(gw := g, emitted := s.emitted + {FailedEvent(g, a, id, eventID)})
      case PayBack(a, id, amount, txnID, now) => s.(gw := Refund(s.gw, a, id, amount, txnID, now).0)
      case Force(status, reason) => s.(gw := s.gw.(next := Some(Outcome(status, reason))))
  }

  ghost function Exec(s: St, c: W.Config, bps: int, steps: seq<Step>): St {
    if |steps| == 0 then s else Apply(Exec(s, c, bps, steps[..|steps| - 1]), c, bps, steps[|steps| - 1])
  }

  /* ---------- the invariant ---------- */

  /** The row of an intent holds the intent's metadata without the routing URL, and the service's own values. */
  ghost predicate IntentRow(d: Data, a: string, pi: PaymentIntent) {
    var row := FindPayment(d, a, pi.id);
    && row.Some? && row.value.accountID == a && row.value.intentID == pi.id
    && row.value.metadata == W.WithoutURL(pi.metadata)
    && row.value.amount == pi.amount
    && Lookup(pi.metadata, "account_id") == a
    && Lookup(pi.metadata, "product_id") == row.value.productID
    && "account_id" in pi.metadata
  }

  ghost predicate IntentKnown(g: Gw, d: Data, a: string, id: string) {
    id in Acct(g, a).intents ==>
      Plain(id) && Acct(g, a).intents[id].id == id && IntentRow(d, a, Acct(g, a).intents[id])
  }

  ghost predicate RowNamesIntent(g: Gw, p: Payment) {
    p.intentID in Acct(g, p.accountID).intents
  }

  /** Every intent of the gateway has its row, and every row its intent. */
  ghost predicate IntentsOk(g: Gw, d: Data) {
    && (forall a, id :: IntentKnown(g, d, a, id))
    && (forall k | k in d.payments :: RowNamesIntent(g, d.payments[k]))
  }

  ghost predicate EventOk(g: Gw, e: Event) {
    && e.intent.Some?
    && e.intent.value.id in Acct(g, e.account).intents
    && e.intent.value.metadata == Acct(g, e.account).intents[e.intent.value.id].metadata
  }

  /** The status is what the event says. */
  predicate Reported(n: W.Notification) {
    (n.event == PaymentSucceeded && n.status == Succeeded) || (n.event == PaymentFailed && n.status == Failed)
  }

  /** A notification tells the caller exactly what its row holds. */
  ghost predicate NoteOk(d: Data, n: W.Notification) {
    var row := FindPayment(d, n.accountID, n.intentID);
    && row.Some?
    && n.metadata == row.value.metadata
    && n.amount == row.value.amount.amount && n.currency == row.value.amount.currency
    && Lookup(n.metadata, "account_id") == n.accountID
    && Lookup(n.metadata, "product_id") == row.value.productID
    && n.tenantID == Lookup(n.metadata, "tenant_id")
    && "webhook_url" !in n.metadata
    && Reported(n)
  }

  ghost predicate Inv(s: St) {
    && Keyed(s.world.data)
    && IntentsOk(s.gw, s.world.data)
    && (forall e | e in s.emitted :: EventOk(s.gw, e))
    && (forall f | f in s.world.forwards :: NoteOk(s.world.data, f.note))
  }

  /* ---------- rows keep their record ---------- */

  /** Every row of `d` is still there with the same record, and terminal if it was. */
  ghost predicate RowsKept(d: Data, e: Data) {
    forall k | k in d.payments ::
      && k in e.payments
      && L.SameRecord(d.payments[k], e.payments[k])
      && (Terminal(d.payments[k].status) ==> Terminal(e.payments[k].status))
  }

  lemma HandleKeepsRows(w: W.World, c: W.Config, v: W.Delivery)
    requires Keyed(w.data)
    ensures Keyed(W.Handle(w, c, v).0.data) && RowsKept(w.data, W.Handle(w, c, v).0.data)
  {
    var e := W.Handle(w, c, v).0.data;
    L.HandleRow(w, c, v, "");
    forall k | k in w.data.payments
      ensures k in e.payments && L.SameRecord(w.data.payments[k], e.payments[k])
      ensures Terminal(w.data.payments[k].status) ==> Terminal(e.payments[k].status)
    {
      L.HandleRow(w, c, v, k);
      assert Cell(w.data, k) == Some(w.data.payments[k]);
    }
  }

  lemma SweepKeepsRows(d: Data, a: string, item: Item, now: int)
    requires Keyed(d)
    ensures var e := DoItem(Start(d, a), a, item, now).data; Keyed(e) && RowsKept(d, e)
  {
    var e := DoItem(Start(d, a), a, item, now).data;
    ItemSettles(Start(d, a), a, item, now, "");
    forall k | k in d.payments
      ensures k in e.payments && L.SameRecord(d.payments[k], e.payments[k])
      ensures Terminal(d.payments[k].status) ==> Terminal(e.payments[k].status)
    {
      ItemSettles(Start(d, a), a, item, now, k);
      assert Cell(d, k) == Some(d.payments[k]);
    }
  }

  /** A whole pass keeps every record too. */
  lemma {:induction false} PassKeepsRows(d: Data, a: string, items: seq<Item>, clock: nat -> int)
    requires Keyed(d)
    ensures var e := Run(Start(d, a), a, items, clock).data; Keyed(e) && RowsKept(d, e)
  {
    if |items| > 0 {
      var n := |items| - 1;
      PassKeepsRows(d, a, items[..n], clock);
      var c := Run(Start(d, a), a, items[..n], clock);
      SweepKeepsRows(c.data, a, items[n], clock(n));
      assert DoItem(c, a, items[n], clock(n)).data == DoItem(Start(c.data, a), a, items[n], clock(n)).data;
    }
  }

  lemma NotesKept(d: Data, e: Data, fs: seq<W.Forward>)
    requires RowsKept(d, e) && (forall f | f in fs :: NoteOk(d, f.note))
    ensures forall f | f in fs :: NoteOk(e, f.note)
  {
  }

  /** Writing no new row keeps the bijection between rows and intents. */
  lemma RowsKeptIntents(g: Gw, d: Data, e: Data)
    requires IntentsOk(g, d) && RowsKept(d, e) && e.payments.Keys == d.payments.Keys
    ensures IntentsOk(g, e)
  {
    forall a, id ensures IntentKnown(g, e, a, id) {
      assert IntentKnown(g, d, a, id);
    }
    forall k | k in e.payments ensures RowNamesIntent(g, e.payments[k]) {
      assert RowNamesIntent(g, d.payments[k]);
    }
  }

  /** `h` has the intents of `g`, with the same amounts and metadata. */
  ghost predicate IntentSame(g: Gw, h: Gw, a: string, id: string) {
    && (id in Acct(g, a).intents <==> id in Acct(h, a).intents)
    && (id in Acct(g, a).intents ==>
          var x, y := Acct(g, a).intents[id], Acct(h, a).intents[id];
          y.id == x.id && y.amount == x.amount && y.metadata == x.metadata)
  }

  lemma SameIntentsKept(s: St, h: Gw)
    requires Inv(s) && forall a, id :: IntentSame(s.gw, h, a, id)
    ensures Inv(s.(gw := h))
  {
    forall a, id ensures IntentKnown(h, s.world.data, a, id) {
      assert IntentKnown(s.gw, s.world.data, a, id) && IntentSame(s.gw, h, a, id);
    }
    forall k | k in s.world.data.payments ensures RowNamesIntent(h, s.world.data.payments[k]) {
      var p := s.world.data.payments[k];
      assert RowNamesIntent(s.gw, p) && IntentSame(s.gw, h, p.accountID, p.intentID);
    }
    forall e | e in s.emitted ensures EventOk(h, e) {
      assert EventOk(s.gw, e) && IntentSame(s.gw, h, e.account, e.intent.value.id);
    }
  }

  /* ---------- each step keeps the invariant ---------- */

  /** What one step keeps: the invariant, and the record and finality of every row. */
  ghost predicate Kept(s: St, t: St) {
    Inv(t) && RowsKept(s.world.data, t.world.data)
  }

  lemma PaySame(g: Gw, a: string, id: string, txnID: string, now: int, b: string, j: string)
    requires id in Acct(g, a).intents
    ensures IntentSame(g, Succeed(g, a, id, txnID, now), b, j)
  {
  }

  lemma PayEvent(g: Gw, a: string, id: string, txnID: string, eventID: string, now: int)
    requires id in Acct(g, a).intents && Acct(g, a).intents[id].id == id
    ensures var h := Succeed(g, a, id, txnID, now); EventOk(h, SucceededEvent(h, a, id, eventID))
  {
  }

  lemma PayKeeps(s: St, a: string, id: string, txnID: string, eventID: string, now: int)
    requires Inv(s) && id in Acct(s.gw, a).intents
    ensures var g := Succeed(s.gw, a, id, txnID, now);
            Kept(s, s.(gw := g, emitted := s.emitted + {SucceededEvent(g, a, id, eventID)}))
  {
    var g := Succeed(s.gw, a, id, txnID, now);
    assert IntentKnown(s.gw, s.world.data, a, id);
    forall b, j ensures IntentSame(s.gw, g, b, j) {
      PaySame(s.gw, a, id, txnID, now, b, j);
    }
    SameIntentsKept(s, g);
    PayEvent(s.gw, a, id, txnID, eventID, now);
  }

  lemma DeclineKeeps(s: St, a: string, id: string, reason: string, eventID: string)
    requires Inv(s) && id in Acct(s.gw, a).intents
    ensures var g := Fail(s.gw, a, id, reason);
            Kept(s, s.(gw := g, emitted := s.emitted + {FailedEvent(g, a, id, eventID)}))
  {
    var g := Fail(s.gw, a, id, reason);
    assert IntentKnown(s.gw, s.world.data, a, id);
    forall b, j ensures IntentSame(s.gw, g, b, j) {
    }
    SameIntentsKept(s, g);
  }

  lemma SweepKeeps(s: St, a: string, item: Item, now: int)
    requires Inv(s) && ItemID(item) in Acct(s.gw, a).intents
    ensures Kept(s, s.(world := s.world.(data := DoItem(Start(s.world.data, a), a, item, now).data)))
  {
    var d := s.world.data;
    var e := DoItem(Start(d, a), a, item, now).data;
    SweepKeepsRows(d, a, item, now);
    assert IntentKnown(s.gw, d, a, ItemID(item));
    forall k | k in e.payments ensures k in d.payments {
      ItemSettles(Start(d, a), a, item, now, k);
      assert k != RowKey(a, ItemID(item)) ==> Cell(e, k) == Cell(d, k);
    }
    assert e.payments.Keys == d.payments.Keys;
    RowsKeptIntents(s.gw, d, e);
    NotesKept(d, e, s.world.forwards);
  }

  /** The row an emitted event applies to is the row of its intent. */
  lemma EventHitsItsRow(s: St, e: Event)
    requires Inv(s) && e in s.emitted
    ensures e.intent.Some?
    ensures var pi := e.intent.value;
      && Lookup(pi.metadata, "account_id") == e.account
      && |pi.metadata| > 0
      && IntentRow(s.world.data, e.account, Acct(s.gw, e.account).intents[pi.id])
      && Acct(s.gw, e.account).intents[pi.id].id == pi.id
  {
    assert EventOk(s.gw, e);
    assert IntentKnown(s.gw, s.world.data, e.account, e.intent.value.id);
  }

  /** What applying an event stores and forwards. */
  lemma ApplyForwards(w: W.World, c: W.Config, v: W.Delivery, pi: PaymentIntent, status: Status)
    requires Keyed(w.data)
    ensures var a := Lookup(pi.metadata, "account_id");
            var p := W.EventRow(FindPayment(w.data, a, pi.id), pi, status, v.now);
            var after := W.Apply(w, c, v, pi, status).0;
      && FindPayment(after.data, a, pi.id) == Some(p) && p.status == status
      && (after.forwards == w.forwards
          || after.forwards == w.forwards + [W.Forward(v.event.id, W.TargetURL(c.defaultURL, v.event), W.NoteFor(v.event, p))])
  {
    var a := Lookup(pi.metadata, "account_id");
    var p := W.EventRow(FindPayment(w.data, a, pi.id), pi, status, v.now);
    L.EventRowFacts(FindPayment(w.data, a, pi.id), pi, status, v.now);
    assert RowKey(p.accountID, p.intentID) == RowKey(a, pi.id);
  }

  /** Forwards grow by at most the one notification built from the row just written. */
  lemma HandleForwards(w: W.World, c: W.Config, v: W.Delivery)
    requires Keyed(w.data)
    ensures var after := W.Handle(w, c, v).0;
      after.forwards == w.forwards ||
      (v.event.intent.Some? &&
       var pi := v.event.intent.value;
       var row := FindPayment(after.data, Lookup(pi.metadata, "account_id"), pi.id);
       row.Some? && W.StatusOf(v.event.kind) == Some(row.value.status)
       && exists url :: after.forwards == w.forwards + [W.Forward(v.event.id, url, W.NoteFor(v.event, row.value))])
  {
    var e := v.event;
    if e.id !in w.data.events && W.StatusOf(e.kind).Some? && e.intent.Some? {
      ApplyForwards(w.(data := MarkEvent(w.data, e.id)), c, v, e.intent.value, W.StatusOf(e.kind).value);
    }
  }

  lemma DeliverKeeps(s: St, c: W.Config, v: W.Delivery)
    requires Inv(s) && v.event in s.emitted
    ensures Kept(s, s.(world := W.Handle(s.world, c, v).0))
  {
    var w := s.world;
    var after := W.Handle(w, c, v).0;
    var e := v.event;
    EventHitsItsRow(s, e);
    HandleKeepsRows(w, c, v);
    forall k | k in after.data.payments ensures k in w.data.payments {
      L.HandleRow(w, c, v, k);
      assert !L.Hits(w, v, k) ==> Cell(after.data, k) == Cell(w.data, k);
    }
    assert after.data.payments.Keys == w.data.payments.Keys;
    RowsKeptIntents(s.gw, w.data, after.data);
    NotesKept(w.data, after.data, w.forwards);
    HandleForwards(w, c, v);
    if after.forwards != w.forwards {
      var pi := e.intent.value;
      var row := FindPayment(after.data, e.account, pi.id);
      NewNote(s, after.data, e, row.value);
    }
  }

  /** Delivering an event for the first time gives its intent's row the status the event reports, with the
      event's reason and the time of the delivery. */
  lemma DeliverySettles(s: St, c: W.Config, bps: int, v: W.Delivery)
    requires Inv(s) && Enabled(s, Deliver(v)) && v.event.id !in s.world.data.events && W.StatusOf(v.event.kind).Some?
    ensures var pi, t := v.event.intent.value, Apply(s, c, bps, Deliver(v));
            var row := FindPayment(t.world.data, v.event.account, pi.id);
      && row.Some? && row.value.status == (if v.event.kind == PaymentFailed then Failed else Succeeded)
      && row.value.failureReason == pi.failureReason && row.value.updatedAt == v.now && v.event.id in t.world.data.events
  {
    EventHitsItsRow(s, v.event);
    L.HandleRow(s.world, c, v, RowKey(v.event.account, v.event.intent.value.id));
    L.HandleMarks(s.world, c, v);
  }

  lemma NewNote(s: St, d: Data, e: Event, row: Payment)
    requires Inv(s) && e in s.emitted && e.intent.Some? && IntentsOk(s.gw, d)
    requires FindPayment(d, e.account, e.intent.value.id) == Some(row) && W.StatusOf(e.kind) == Some(row.status)
    ensures NoteOk(d, W.NoteFor(e, row))
  {
    EventHitsItsRow(s, e);
    assert IntentKnown(s.gw, d, e.account, e.intent.value.id);
    assert EventOk(s.gw, e);
  }

  /** The row of a new intent is new. */
  lemma FreshKey(g: Gw, d: Data, a: string, id: string)
    requires Keyed(d) && IntentsOk(g, d) && id !in Acct(g, a).intents && Plain(id)
    ensures RowKey(a, id) !in d.payments
  {
    var k := RowKey(a, id);
    if k in d.payments {
      var p := d.payments[k];
      assert RowNamesIntent(g, p) && IntentKnown(g, d, p.accountID, p.intentID);
      RowKeyInjective(a, id, p.accountID, p.intentID);
    }
  }

  lemma DonateKeeps(s: St, bps: int, input: App.Input, x: Draw, now: int)
    requires Inv(s) && x.id !in Acct(s.gw, input.accountID).intents && Plain(x.id)
    ensures var r := App.StartDonation(s.gw, s.world.data, bps, input, x, now);
            Kept(s, s.(gw := r.gw, world := s.world.(data := r.data)))
  {
    var d := s.world.data;
    var r := App.StartDonation(s.gw, d, bps, input, x, now);
    if App.Creates(d, input) {
      CreateKeeps(s, bps, input, x, now);
    } else {
      assert forall a :: Acct(r.gw, a) == Acct(s.gw, a);
      forall a, id ensures IntentKnown(r.gw, d, a, id) {
        assert IntentKnown(s.gw, d, a, id);
      }
      forall k | k in d.payments ensures RowNamesIntent(r.gw, d.payments[k]) {
        assert RowNamesIntent(s.gw, d.payments[k]);
      }
      forall e | e in s.emitted ensures EventOk(r.gw, e) {
        assert EventOk(s.gw, e);
      }
    }
  }

  /** What a creating call adds: one intent with the merged metadata, and one new row. */
  lemma CreateAdds(g: Gw, d: Data, bps: int, input: App.Input, x: Draw, now: int)
    requires App.Creates(d, input) && x.id !in Acct(g, input.accountID).intents
    ensures var donor := FindDonor(d, input.accountID, input.donorID).value;
            var r := App.StartDonation(g, d, bps, input, x, now);
      && r.result.Ok?
      && var pi := r.result.value;
      && pi.id == x.id && pi.amount == input.amount && pi.metadata == App.IntentMetadata(input, donor)
      && (forall a :: Acct(r.gw, a).intents ==
            if a == input.accountID then Acct(g, a).intents[x.id := pi] else Acct(g, a).intents)
      && r.data.payments == d.payments[RowKey(input.accountID, x.id) := App.DonationRow(input, donor, pi, bps, now)]
      && r.data.donors == d.donors && r.data.ledger == d.ledger
  {
    GR.CreateEffect(g, input.accountID, App.ParamsFor(input, FindDonor(d, input.accountID, input.donorID).value), x);
  }

  /** `h` and `e` are `g` and `d` with one more intent and its row. */
  ghost predicate Added(g: Gw, d: Data, h: Gw, e: Data, a: string, pi: PaymentIntent, row: Payment) {
    && (forall b :: Acct(h, b).intents == if b == a then Acct(g, a).intents[pi.id := pi] else Acct(g, b).intents)
    && e.payments == d.payments[RowKey(a, pi.id) := row]
  }

  lemma AddedIntents(g: Gw, d: Data, h: Gw, e: Data, a: string, pi: PaymentIntent, row: Payment)
    requires Keyed(d) && IntentsOk(g, d) && pi.id !in Acct(g, a).intents && Plain(pi.id)
    requires Added(g, d, h, e, a, pi, row) && IntentRow(e, a, pi)
    ensures IntentsOk(h, e) && RowsKept(d, e)
  {
    FreshKey(g, d, a, pi.id);
    forall b, id ensures IntentKnown(h, e, b, id) {
      AddedKnown(g, d, h, e, a, pi, row, b, id);
    }
    forall k | k in e.payments ensures RowNamesIntent(h, e.payments[k]) {
      assert k in d.payments ==> RowNamesIntent(g, d.payments[k]);
    }
  }

  lemma AddedKnown(g: Gw, d: Data, h: Gw, e: Data, a: string, pi: PaymentIntent, row: Payment, b: string, id: string)
    requires Plain(pi.id) && Added(g, d, h, e, a, pi, row) && IntentRow(e, a, pi) && IntentKnown(g, d, b, id)
    ensures IntentKnown(h, e, b, id)
  {
    if id in Acct(g, b).intents && RowKey(b, id) == RowKey(a, pi.id) {
      RowKeyInjective(b, id, a, pi.id);
    }
  }

  lemma AddedEvents(g: Gw, d: Data, h: Gw, e: Data, a: string, pi: PaymentIntent, row: Payment, ev: Event)
    requires Added(g, d, h, e, a, pi, row) && pi.id !in Acct(g, a).intents && EventOk(g, ev)
    ensures EventOk(h, ev)
  {
  }

  lemma CreatedRow(d: Data, bps: int, input: App.Input, donor: Donor, pi: PaymentIntent, now: int)
    requires pi.metadata == App.IntentMetadata(input, donor) && pi.amount == input.amount
    requires FindPayment(d, input.accountID, pi.id) == Some(App.DonationRow(input, donor, pi, bps, now))
    ensures IntentRow(d, input.accountID, pi)
  {
    App.MetadataRoutes(input, donor);
  }

  lemma CreateKeeps(s: St, bps: int, input: App.Input, x: Draw, now: int)
    requires Inv(s) && x.id !in Acct(s.gw, input.accountID).intents && Plain(x.id)
    requires App.Creates(s.world.data, input)
    ensures var r := App.StartDonation(s.gw, s.world.data, bps, input, x, now);
            Kept(s, s.(gw := r.gw, world := s.world.(data := r.data)))
  {
    var a, d := input.accountID, s.world.data;
    var donor := FindDonor(d, a, input.donorID).value;
    var r := App.StartDonation(s.gw, d, bps, input, x, now);
    CreateAdds(s.gw, d, bps, input, x, now);
    var pi := r.result.value;
    var row := App.DonationRow(input, donor, pi, bps, now);
    CreatedRow(r.data, bps, input, donor, pi, now);
    AddedIntents(s.gw, d, r.gw, r.data, a, pi, row);
    NotesKept(d, r.data, s.world.forwards);
    forall ev | ev in s.emitted ensures EventOk(r.gw, ev) {
      AddedEvents(s.gw, d, r.gw, r.data, a, pi, row, ev);
    }
  }

  lemma StepKeeps(s: St, c: W.Config, bps: int, step: Step)
    requires Inv(s)
    ensures Kept(s, Apply(s, c, bps, step))
  {
    if Enabled(s, step) {
      match step {
        case SaveDonor(donor) =>
          RowsKeptIntents(s.gw, s.world.data, Apply(s, c, bps, step).world.data);
          NotesKept(s.world.data, Apply(s, c, bps, step).world.data, s.world.forwards);
        case Donate(input, x, now) => DonateKeeps(s, bps, input, x, now);
        case Deliver(v) => DeliverKeeps(s, c, v);
        case Sweep(a, item, now) => SweepKeeps(s, a, item, now);
        case Pay(a, id, txnID, eventID, now) => PayKeeps(s, a, id, txnID, eventID, now);
        case Decline(a, id, reason, eventID) => DeclineKeeps(s, a, id, reason, eventID);
        case PayBack(a, id, amount, txnID, now) => RefundKeeps(s, a, id, amount, txnID, now);
        case Force(status, reason) => ForceKeeps(s, status, reason);
      }
    }
  }

  lemma ForceKeeps(s: St, status: Status, reason: string)
    requires Inv(s)
    ensures Kept(s, s.(gw := s.gw.(next := Some(Outcome(status, reason)))))
  {
    var g := s.gw.(next := Some(Outcome(status, reason)));
    forall a, id ensures IntentSame(s.gw, g, a, id) {
    }
    SameIntentsKept(s, g);
  }

  lemma RefundKeeps(s: St, a: string, id: string, amount: Option<Money>, txnID: string, now: int)
    requires Inv(s)
    ensures Kept(s, s.(gw := Refund(s.gw, a, id, amount, txnID, now).0))
  {
    var g := Refund(s.gw, a, id, amount, txnID, now).0;
    forall b, j ensures IntentSame(s.gw, g, b, j) {
    }
    SameIntentsKept(s, g);
  }

  /* ---------- whole runs ---------- */

  /** Over any run: the invariant holds, and no row of the start loses its record or its finality. */
  lemma {:induction false} RunKeeps(s: St, c: W.Config, bps: int, steps: seq<Step>)
    requires Inv(s)
    ensures Kept(s, Exec(s, c, bps, steps))
  {
    if |steps| > 0 {
      var n := |steps| - 1;
      RunKeeps(s, c, bps, steps[..n]);
      StepKeeps(Exec(s, c, bps, steps[..n]), c, bps, steps[n]);
      RowsKeptTwice(s.world.data, Exec(s, c, bps, steps[..n]).world.data, Exec(s, c, bps, steps).world.data);
    }
  }

  lemma RowsKeptTwice(d: Data, e: Data, f: Data)
    requires RowsKept(d, e) && RowsKept(e, f)
    ensures RowsKept(d, f)
  {
    forall k | k in d.payments
      ensures k in f.payments && L.SameRecord(d.payments[k], f.payments[k])
      ensures Terminal(d.payments[k].status) ==> Terminal(f.payments[k].status)
    {
      assert L.SameRecord(d.payments[k], e.payments[k]) && L.SameRecord(e.payments[k], f.payments[k]);
    }
  }

  lemma InitialInv()
    ensures Inv(Initial)
  {
    forall a, id ensures IntentKnown(EmptyGw, EmptyData, a, id) {
    }
  }

  /** Rows and gateway intents correspond one to one in every reachable state. */
  lemma Projection(c: W.Config, bps: int, steps: seq<Step>, a: string, id: string)
    ensures var s := Exec(Initial, c, bps, steps);
      && (id in Acct(s.gw, a).intents ==> IntentRow(s.world.data, a, Acct(s.gw, a).intents[id]))
      && (forall k | k in s.world.data.payments :: RowNamesIntent(s.gw, s.world.data.payments[k]))
  {
    InitialInv();
    RunKeeps(Initial, c, bps, steps);
    assert IntentKnown(Exec(Initial, c, bps, steps).gw, Exec(Initial, c, bps, steps).world.data, a, id);
  }

  /**
   * The metadata round trip. Whatever happens before and after a donation, every notification
   * forwarded for its intent carries the caller's metadata overlaid with the service's own values,
   * never the routing URL, and the donated amount.
   */
  lemma MetadataRoundTrip(c: W.Config, bps: int, before: seq<Step>, input: App.Input, x: Draw, now: int,
                          after: seq<Step>, f: W.Forward)
    requires var s := Exec(Initial, c, bps, before);
             Enabled(s, Donate(input, x, now)) && App.Creates(s.world.data, input)
    requires var s := Exec(Initial, c, bps, before);
             f in Exec(Apply(s, c, bps, Donate(input, x, now)), c, bps, after).world.forwards
    requires f.note.accountID == input.accountID && f.note.intentID == x.id
    ensures var donor := FindDonor(Exec(Initial, c, bps, before).world.data, input.accountID, input.donorID).value;
      && f.note.metadata == W.WithoutURL(App.IntentMetadata(input, donor))
      && Lookup(f.note.metadata, "account_id") == input.accountID
      && Lookup(f.note.metadata, "product_id") == input.productID
      && Lookup(f.note.metadata, "email") == donor.email
      && "webhook_url" !in f.note.metadata
      && f.note.amount == input.amount.amount && f.note.currency == input.amount.currency
      && ((f.note.event == PaymentSucceeded && f.note.status == Succeeded) || (f.note.event == PaymentFailed && f.note.status == Failed))
  {
    InitialInv();
    RunKeeps(Initial, c, bps, before);
    var s := Exec(Initial, c, bps, before);
    var t := Apply(s, c, bps, Donate(input, x, now));
    StepKeeps(s, c, bps, Donate(input, x, now));
    CreateAdds(s.gw, s.world.data, bps, input, x, now);
    App.MetadataRoutes(input, FindDonor(s.world.data, input.accountID, input.donorID).value);
    RunKeeps(t, c, bps, after);
    var u := Exec(t, c, bps, after);
    var k := RowKey(input.accountID, x.id);
    assert k in t.world.data.payments && L.SameRecord(t.world.data.payments[k], u.world.data.payments[k]);
    assert NoteOk(u.world.data, f.note);
  }

  /** What a donation recorded stays recorded: whatever happens before and after, its row keeps the donor,
      the product, the amount, the fee, the source, the creation time and the merged metadata. */
  lemma DonationIsKept(c: W.Config, bps: int, before: seq<Step>, input: App.Input, x: Draw, now: int, after: seq<Step>)
    requires var s := Exec(Initial, c, bps, before);
             Enabled(s, Donate(input, x, now)) && App.Creates(s.world.data, input)
    ensures var s := Exec(Initial, c, bps, before);
            var donor := FindDonor(s.world.data, input.accountID, input.donorID).value;
            var row := FindPayment(Exec(Apply(s, c, bps, Donate(input, x, now)), c, bps, after).world.data, input.accountID, x.id);
      && row.Some?
      && row.value.accountID == input.accountID && row.value.intentID == x.id
      && row.value.donorID == input.donorID && row.value.productID == input.productID
      && row.value.amount == input.amount && row.value.applicationFee == App.Fee(input.amount, bps)
      && row.value.source == Api && row.value.createdAt == now
      && row.value.metadata == W.WithoutURL(App.IntentMetadata(input, donor))
  {
    InitialInv();
    RunKeeps(Initial, c, bps, before);
    var s := Exec(Initial, c, bps, before);
    var t := Apply(s, c, bps, Donate(input, x, now));
    StepKeeps(s, c, bps, Donate(input, x, now));
    CreateAdds(s.gw, s.world.data, bps, input, x, now);
    RunKeeps(t, c, bps, after);
    var k := RowKey(input.accountID, x.id);
    assert k in t.world.data.payments && L.SameRecord(t.world.data.payments[k], Exec(t, c, bps, after).world.data.payments[k]);
  }

  /** With whole operations, terminal is final: no step of any run takes a settled row back. */
  lemma TerminalIsFinal(c: W.Config, bps: int, before: seq<Step>, after: seq<Step>, a: string, id: string)
    requires var row := FindPayment(Exec(Initial, c, bps, before).world.data, a, id);
             row.Some? && Terminal(row.value.status)
    ensures var was := FindPayment(Exec(Initial, c, bps, before).world.data, a, id).value;
            var row := FindPayment(Exec(Exec(Initial, c, bps, before), c, bps, after).world.data, a, id);
            row.Some? && Terminal(row.value.status) && L.SameRecord(was, row.value)
  {
    InitialInv();
    RunKeeps(Initial, c, bps, before);
    RunKeeps(Exec(Initial, c, bps, before), c, bps, after);
    assert RowsKept(Exec(Initial, c, bps, before).world.data, Exec(Exec(Initial, c, bps, before), c, bps, after).world.data);
  }
}
