/**
 * Account scoping. What is done for one account never shows in the payments and donors of another. It can
 * show in what another account is answered, through the three tables that are not scoped: idempotency keys,
 * event ids and ledger ids. This module says exactly when.
 */
module Accounts {
  import opened Domain
  import opened Store
  import opened Recon
  import opened StorePairs
  import G = Gateway
  import T = TwoStores
  import W = Webhook
  import L = WebhookLaws
  import App
  import K = AppLaws

  /** The account an operation is for; an event names it in its intent's metadata. */
  predicate For(op: T.Op, a: string) {
    match op
    case SaveDonor(donor) => donor.accountID == a
    case Donate(input, _, _) => input.accountID == a
    case Deliver(v) => v.event.intent.Some? ==> Lookup(v.event.intent.value.metadata, "account_id") == a
    case Sweep(b, _, _) => b == a
  }

  /** Rows and donors of account `b` read the same in both. */
  ghost predicate SameFor(d: Data, e: Data, b: string) {
    forall id :: FindPayment(e, b, id) == FindPayment(d, b, id) && FindDonor(e, b, id) == FindDonor(d, b, id)
  }

  lemma PutStays(d: Data, p: Payment, a: string, b: string)
    requires Keyed(d) && Plain(a) && Plain(b) && a != b && p.accountID == a
    ensures Keyed(PutPayment(d, p)) && SameFor(d, PutPayment(d, p), b)
  {
    forall id ensures FindPayment(PutPayment(d, p), b, id) == FindPayment(d, b, id) {
      DifferentAccounts(a, p.intentID, b, id);
    }
  }

  lemma DonorStaysApart(d: Data, r: Donor, a: string, b: string)
    requires Keyed(d) && Plain(a) && Plain(b) && a != b && r.accountID == a
    ensures Keyed(PutDonor(d, r)) && SameFor(d, PutDonor(d, r), b)
  {
    forall id ensures FindDonor(PutDonor(d, r), b, id) == FindDonor(d, b, id) {
      DifferentAccounts(a, r.id, b, id);
    }
  }

  lemma DeliverStays(w: W.World, c: W.Config, v: W.Delivery, a: string, b: string)
    requires Keyed(w.data) && Plain(a) && Plain(b) && a != b && For(T.Deliver(v), a)
    ensures var after := W.Handle(w, c, v).0.data; Keyed(after) && SameFor(w.data, after, b)
  {
    var after := W.Handle(w, c, v).0.data;
    L.HandleRow(w, c, v, "");
    L.HandleData(w, c, v);
    forall id ensures FindPayment(after, b, id) == FindPayment(w.data, b, id) {
      L.HandleRow(w, c, v, RowKey(b, id));
      if v.event.intent.Some? {
        DifferentAccounts(a, v.event.intent.value.id, b, id);
      }
      assert Cell(after, RowKey(b, id)) == Cell(w.data, RowKey(b, id));
    }
  }

  lemma SweepStays(d: Data, a: string, item: Item, now: int, b: string)
    requires Keyed(d) && Plain(a) && Plain(b) && a != b
    ensures var after := DoItem(Start(d, a), a, item, now).data; Keyed(after) && SameFor(d, after, b)
  {
    var after := DoItem(Start(d, a), a, item, now).data;
    var clock: nat -> int := _ => now;
    assert Run(Start(d, a), a, [item][..0], clock) == Start(d, a);
    assert Run(Start(d, a), a, [item], clock).data == after;
    OtherAccountsUntouched(d, a, [item], clock, b, "");
    forall id ensures FindPayment(after, b, id) == FindPayment(d, b, id) && FindDonor(after, b, id) == FindDonor(d, b, id) {
      OtherAccountsUntouched(d, a, [item], clock, b, id);
    }
  }

  lemma DonateStays(s: T.Mem, bps: int, input: App.Input, x: G.Draw, now: int, b: string)
    requires Keyed(s.world.data) && Plain(input.accountID) && Plain(b) && input.accountID != b
    ensures var after := App.StartDonation(s.gw, s.world.data, bps, input, x, now).data; Keyed(after) && SameFor(s.world.data, after, b)
  {
    var d := s.world.data;
    if App.Creates(d, input) {
      var donor := FindDonor(d, input.accountID, input.donorID).value;
      var pi := G.CreateIntent(s.gw, input.accountID, App.ParamsFor(input, donor), x).1.value;
      PutStays(d, App.DonationRow(input, donor, pi, bps, now), input.accountID, b);
    }
  }

  /** Any run of donations, deliveries and reconciliation steps for account `a` leaves the rows and the
      donors of every other account exactly as they were. */
  lemma {:induction false} RunStaysInAccount(s: T.Mem, bps: int, c: W.Config, ops: seq<T.Op>, a: string, b: string)
    requires Keyed(s.world.data) && Plain(a) && Plain(b) && a != b
    requires forall i :: 0 <= i < |ops| ==> For(ops[i], a)
    ensures var after := T.MemoryRun(s, bps, c, ops).0.world.data; Keyed(after) && SameFor(s.world.data, after, b)
  {
    if |ops| > 0 {
      var n := |ops| - 1;
      RunStaysInAccount(s, bps, c, ops[..n], a, b);
      var m := T.MemoryRun(s, bps, c, ops[..n]).0;
      match ops[n] {
        case SaveDonor(donor) => DonorStaysApart(m.world.data, donor, a, b);
        case Donate(input, x, now) => DonateStays(m, bps, input, x, now, b);
        case Deliver(v) => DeliverStays(m.world, c, v, a, b);
        case Sweep(_, item, now) => SweepStays(m.world.data, a, item, now, b);
      }
    }
  }

  /* ---------- the tables that are not scoped ---------- */

  /** What a run for account `a` leaves of everything account `b` can see: rows, donors and gateway account as
      they were, and keys, events and ledger entries only added. */
  ghost predicate Beside(s: T.Mem, t: T.Mem, a: string, b: string) {
    var d, e := s.world.data, t.world.data;
    && Keyed(e) && SameFor(d, e, b) && G.Acct(t.gw, b) == G.Acct(s.gw, b)
    && (forall k | k in d.idempotency :: k in e.idempotency && e.idempotency[k] == d.idempotency[k])
    && d.events <= e.events
    && (forall x | x in d.ledger :: x in e.ledger && e.ledger[x] == d.ledger[x])
    && (forall x | x in e.ledger && x !in d.ledger :: e.ledger[x].accountID == a)
  }

  lemma CreateElsewhere(g: G.Gw, a: string, p: G.IntentParams, x: G.Draw, b: string)
    requires a != b
    ensures G.Acct(G.CreateIntent(g, a, p, x).0, b) == G.Acct(g, b)
  {
  }

  /** What a donation does besides its row: its own gateway account, and its key if that is new. */
  lemma StartElsewhere(g: G.Gw, d: Data, bps: int, input: App.Input, x: G.Draw, now: int, b: string)
    requires input.accountID != b
    ensures var r := App.StartDonation(g, d, bps, input, x, now);
      && G.Acct(r.gw, b) == G.Acct(g, b)
      && (forall k | k in d.idempotency :: k in r.data.idempotency && r.data.idempotency[k] == d.idempotency[k])
      && r.data.events == d.events && r.data.ledger == d.ledger
  {
    if App.Creates(d, input) {
      var donor := FindDonor(d, input.accountID, input.donorID).value;
      CreateElsewhere(g, input.accountID, App.ParamsFor(input, donor), x, b);
      assert input.key != "" ==> input.key !in d.idempotency;
    } else {
      K.IdleEffect(K.At(g, d), bps, K.Donate(input, x, now));
    }
  }

  lemma DonateBeside(s: T.Mem, bps: int, c: W.Config, op: T.Op, b: string)
    requires Keyed(s.world.data) && op.Donate? && Plain(op.input.accountID) && Plain(b) && op.input.accountID != b
    ensures Beside(s, T.OnMemory(s, bps, c, op).0, op.input.accountID, b)
  {
    DonateStays(s, bps, op.input, op.draw, op.now, b);
    StartElsewhere(s.gw, s.world.data, bps, op.input, op.draw, op.now, b);
  }

  lemma DeliverBeside(s: T.Mem, bps: int, c: W.Config, op: T.Op, a: string, b: string)
    requires Keyed(s.world.data) && op.Deliver? && Plain(a) && Plain(b) && a != b && For(op, a)
    ensures Beside(s, T.OnMemory(s, bps, c, op).0, a, b)
  {
    DeliverStays(s.world, c, op.delivery, a, b);
    L.HandleData(s.world, c, op.delivery);
  }

  lemma SweepBeside(s: T.Mem, bps: int, c: W.Config, op: T.Op, a: string, b: string)
    requires Keyed(s.world.data) && op.Sweep? && Plain(a) && Plain(b) && a != b && For(op, a)
    ensures Beside(s, T.OnMemory(s, bps, c, op).0, a, b)
  {
    var d := s.world.data;
    SweepStays(d, a, op.item, op.now, b);
    SweepLedger(d, a, op.item, op.now);
  }

  lemma SweepLedger(d: Data, a: string, item: Item, now: int)
    ensures var e := DoItem(Start(d, a), a, item, now).data;
      && e.idempotency == d.idempotency && e.events == d.events
      && e.ledger == if item.Txn? && item.tx.id !in d.ledger then d.ledger[item.tx.id := Entry(a, item.tx)] else d.ledger
  {
  }

  lemma OpBeside(s: T.Mem, bps: int, c: W.Config, op: T.Op, a: string, b: string)
    requires Keyed(s.world.data) && Plain(a) && Plain(b) && a != b && For(op, a)
    ensures Beside(s, T.OnMemory(s, bps, c, op).0, a, b)
  {
    match op {
      case SaveDonor(donor) => DonorStaysApart(s.world.data, donor, a, b);
      case Donate(_, _, _) => DonateBeside(s, bps, c, op, b);
      case Deliver(_) => DeliverBeside(s, bps, c, op, a, b);
      case Sweep(_, _, _) => SweepBeside(s, bps, c, op, a, b);
    }
  }

  lemma BesideTwice(s: T.Mem, m: T.Mem, t: T.Mem, a: string, b: string)
    requires Beside(s, m, a, b) && Beside(m, t, a, b)
    ensures Beside(s, t, a, b)
  {
    forall id ensures FindPayment(t.world.data, b, id) == FindPayment(s.world.data, b, id)
              ensures FindDonor(t.world.data, b, id) == FindDonor(s.world.data, b, id) {
      assert FindPayment(m.world.data, b, id) == FindPayment(s.world.data, b, id);
    }
  }

  lemma {:induction false} RunBeside(s: T.Mem, bps: int, c: W.Config, ops: seq<T.Op>, a: string, b: string)
    requires Keyed(s.world.data) && Plain(a) && Plain(b) && a != b
    requires forall i :: 0 <= i < |ops| ==> For(ops[i], a)
    ensures Beside(s, T.MemoryRun(s, bps, c, ops).0, a, b)
  {
    if |ops| > 0 {
      var n := |ops| - 1;
      RunBeside(s, bps, c, ops[..n], a, b);
      var m := T.MemoryRun(s, bps, c, ops[..n]).0;
      OpBeside(m, bps, c, ops[n], a, b);
      BesideTwice(s, m, T.MemoryRun(s, bps, c, ops).0, a, b);
    }
  }

  /* ---------- donations ---------- */

  /** The donation reaches the key lookup with a key that is only in the second store. */
  predicate MeetsNewKey(d: Data, e: Data, input: App.Input) {
    K.Answered(d, input) && input.key != "" && input.key !in d.idempotency && input.key in e.idempotency
  }

  /** The donation is confirmed at once, and the gateway's forced outcome is another one by then. */
  predicate MeetsOtherOutcome(g: G.Gw, h: G.Gw, e: Data, input: App.Input) {
    App.Creates(e, input) && input.paymentMethodID != "" && G.ForcedOutcome(g) != G.ForcedOutcome(h)
  }

  /** The gateway files the account's intents under their own ids. */
  ghost predicate OwnIds(g: G.Gw, b: string) {
    forall id | id in G.Acct(g, b).intents :: G.Acct(g, b).intents[id].id == id
  }

  lemma AnsweredAlike(s: T.Mem, t: T.Mem, bps: int, input: App.Input, x: G.Draw, now: int, a: string)
    requires Beside(s, t, a, input.accountID) && OwnIds(s.gw, input.accountID) && x.id !in G.Acct(s.gw, input.accountID).intents
    ensures App.StartDonation(t.gw, t.world.data, bps, input, x, now).result ==
            App.StartDonation(s.gw, s.world.data, bps, input, x, now).result <==>
            !MeetsNewKey(s.world.data, t.world.data, input) && !MeetsOtherOutcome(s.gw, t.gw, t.world.data, input)
  {
    var d, e := s.world.data, t.world.data;
    assert FindDonor(e, input.accountID, input.donorID) == FindDonor(d, input.accountID, input.donorID);
    var before, after := K.At(s.gw, d), K.At(t.gw, e);
    var call := K.Donate(input, x, now);
    if App.Creates(d, input) {
      K.CreateEffect(before, bps, call);
      if App.Creates(e, input) {
        BothCreate(s, t, bps, input, x, now, a);
      } else {
        K.IdleEffect(after, bps, call);
      }
    } else {
      K.IdleEffect(before, bps, call);
      K.IdleEffect(after, bps, call);
      if !K.Answered(d, input) {
        TurnedAway(s, t, bps, input, x, now);
      }
    }
  }

  lemma BothCreate(s: T.Mem, t: T.Mem, bps: int, input: App.Input, x: G.Draw, now: int, a: string)
    requires Beside(s, t, a, input.accountID) && App.Creates(s.world.data, input) && App.Creates(t.world.data, input)
    ensures App.StartDonation(t.gw, t.world.data, bps, input, x, now).result ==
            App.StartDonation(s.gw, s.world.data, bps, input, x, now).result <==>
            !MeetsOtherOutcome(s.gw, t.gw, t.world.data, input)
  {
    assert FindDonor(t.world.data, input.accountID, input.donorID) == FindDonor(s.world.data, input.accountID, input.donorID);
  }

  lemma TurnedAway(s: T.Mem, t: T.Mem, bps: int, input: App.Input, x: G.Draw, now: int)
    requires !K.Answered(s.world.data, input)
    requires FindDonor(t.world.data, input.accountID, input.donorID) == FindDonor(s.world.data, input.accountID, input.donorID)
    ensures App.StartDonation(t.gw, t.world.data, bps, input, x, now).result ==
            App.StartDonation(s.gw, s.world.data, bps, input, x, now).result
  {
  }

  /** After any run for account `a`, a donation of another account is answered as it would have been without
      the run if and only if it does not look up a key that the run newly stored (and the run has not used up
      an outcome forced on the gateway for it). */
  lemma DonationBesideIff(s: T.Mem, bps: int, c: W.Config, ops: seq<T.Op>, a: string, input: App.Input, x: G.Draw, now: int)
    requires Keyed(s.world.data) && Plain(a) && Plain(input.accountID) && a != input.accountID
    requires forall i :: 0 <= i < |ops| ==> For(ops[i], a)
    requires OwnIds(s.gw, input.accountID) && x.id !in G.Acct(s.gw, input.accountID).intents
    ensures var t := T.MemoryRun(s, bps, c, ops).0;
            App.StartDonation(t.gw, t.world.data, bps, input, x, now).result ==
            App.StartDonation(s.gw, s.world.data, bps, input, x, now).result <==>
            !MeetsNewKey(s.world.data, t.world.data, input) && !MeetsOtherOutcome(s.gw, t.gw, t.world.data, input)
  {
    RunBeside(s, bps, c, ops, a, input.accountID);
    AnsweredAlike(s, T.MemoryRun(s, bps, c, ops).0, bps, input, x, now, a);
  }

  /* ---------- deliveries ---------- */

  /** What one delivery sends. */
  ghost function SentBy(w: W.World, c: W.Config, v: W.Delivery): (seq<W.Email>, seq<W.Forward>) {
    var after := W.Handle(w, c, v).0;
    if |w.emails| <= |after.emails| && |w.forwards| <= |after.forwards| then
      (after.emails[|w.emails|..], after.forwards[|w.forwards|..])
    else (after.emails, after.forwards)
  }

  /** The delivery does to account `b`, sends and returns the same in both worlds. */
  ghost predicate HandledAlike(w: W.World, u: W.World, c: W.Config, v: W.Delivery, b: string) {
    && SameFor(W.Handle(w, c, v).0.data, W.Handle(u, c, v).0.data, b)
    && W.Handle(w, c, v).1 == W.Handle(u, c, v).1
    && SentBy(w, c, v) == SentBy(u, c, v)
  }

  /** The delivery changes nothing of account `b`, sends nothing and returns no error. */
  ghost predicate Quiet(w: W.World, c: W.Config, v: W.Delivery, b: string) {
    SameFor(w.data, W.Handle(w, c, v).0.data, b) && W.Handle(w, c, v).1 == Ok(()) && SentBy(w, c, v) == ([], [])
  }

  /** Rows of the store belong to accounts without a separator. */
  lemma FoundOwner(d: Data, b: string, id: string)
    requires Keyed(d) && PlainRows(d) && Plain(b)
    ensures var p := FindPayment(d, b, id); p.Some? ==> p.value.accountID == b && p.value.intentID == id
  {
    var p := FindPayment(d, b, id);
    if p.Some? {
      RowKeyInjective(p.value.accountID, p.value.intentID, b, id);
    }
  }

  /** The row an event writes is its account's. */
  lemma RowOwner(d: Data, b: string, pi: PaymentIntent, status: Status, now: int)
    requires Keyed(d) && PlainRows(d) && Plain(b) && Lookup(pi.metadata, "account_id") == b
    ensures W.EventRow(FindPayment(d, b, pi.id), pi, status, now).accountID == b
  {
    FoundOwner(d, b, pi.id);
    L.EventRowFacts(FindPayment(d, b, pi.id), pi, status, now);
  }

  /** An applied event writes and sends the same beside a run for another account. */
  lemma ApplyBeside(w: W.World, u: W.World, c: W.Config, v: W.Delivery, pi: PaymentIntent, status: Status, b: string)
    requires Keyed(w.data) && PlainRows(w.data) && Plain(b) && SameFor(w.data, u.data, b) && Keyed(u.data)
    requires Lookup(pi.metadata, "account_id") == b && v.event.intent == Some(pi)
    ensures var x, y := W.Apply(w, c, v, pi, status), W.Apply(u, c, v, pi, status);
      && SameFor(x.0.data, y.0.data, b) && x.1 == y.1
      && |w.emails| <= |x.0.emails| && |w.forwards| <= |x.0.forwards| && |u.emails| <= |y.0.emails| && |u.forwards| <= |y.0.forwards|
      && x.0.emails[|w.emails|..] == y.0.emails[|u.emails|..] && x.0.forwards[|w.forwards|..] == y.0.forwards[|u.forwards|..]
  {
    var found := FindPayment(w.data, b, pi.id);
    assert FindPayment(u.data, b, pi.id) == found;
    var p := W.EventRow(found, pi, status, v.now);
    RowOwner(w.data, b, pi, status, v.now);
    PutBoth(w.data, u.data, p, b);
    MailSame(PutPayment(w.data, p), PutPayment(u.data, p), v.event, p);
    AlsoSuffix(w.emails, u.emails, W.EmailFor(PutPayment(w.data, p), v.event, p));
    AlsoSuffix(w.forwards, u.forwards, W.ForwardFor(c, v.event, p));
  }

  lemma MailSame(d: Data, e: Data, event: Event, p: Payment)
    requires SameFor(d, e, p.accountID)
    ensures W.EmailFor(d, event, p) == W.EmailFor(e, event, p)
  {
    assert FindDonor(e, p.accountID, p.donorID) == FindDonor(d, p.accountID, p.donorID);
  }

  lemma PutBoth(d: Data, e: Data, p: Payment, b: string)
    requires SameFor(d, e, b)
    ensures SameFor(PutPayment(d, p), PutPayment(e, p), b)
  {
    forall id ensures FindPayment(PutPayment(e, p), b, id) == FindPayment(PutPayment(d, p), b, id)
              ensures FindDonor(PutPayment(e, p), b, id) == FindDonor(PutPayment(d, p), b, id) {
      assert FindPayment(e, b, id) == FindPayment(d, b, id) && FindDonor(e, b, id) == FindDonor(d, b, id);
    }
  }

  lemma AlsoSuffix<X>(x: seq<X>, y: seq<X>, z: Option<X>)
    ensures |x| <= |W.Also(x, z)| && |y| <= |W.Also(y, z)|
    ensures W.Also(x, z)[|x|..] == W.Also(y, z)[|y|..] && x[|x|..] == y[|y|..] == []
  {
  }

  /** After any run for account `a`, a delivery for another account is handled as it would have been without
      the run if and only if the run has not marked its event id, or handling it would have been without
      effect anyway. */
  lemma DeliveryBesideIff(s: T.Mem, bps: int, c: W.Config, ops: seq<T.Op>, a: string, b: string, v: W.Delivery)
    requires Keyed(s.world.data) && PlainRows(s.world.data) && Plain(a) && Plain(b) && a != b && For(T.Deliver(v), b)
    requires forall i :: 0 <= i < |ops| ==> For(ops[i], a)
    ensures var w, u := s.world, T.MemoryRun(s, bps, c, ops).0.world;
      HandledAlike(w, u, c, v, b) <==> !(v.event.id !in w.data.events && v.event.id in u.data.events) || Quiet(w, c, v, b)
  {
    RunBeside(s, bps, c, ops, a, b);
    DeliveredAlike(s.world, T.MemoryRun(s, bps, c, ops).0.world, c, v, b);
  }

  lemma DeliveredAlike(w: W.World, u: W.World, c: W.Config, v: W.Delivery, b: string)
    requires Keyed(w.data) && PlainRows(w.data) && Keyed(u.data) && Plain(b) && For(T.Deliver(v), b)
    requires SameFor(w.data, u.data, b) && w.data.events <= u.data.events
    ensures HandledAlike(w, u, c, v, b) <==> !(v.event.id !in w.data.events && v.event.id in u.data.events) || Quiet(w, c, v, b)
  {
    var e := v.event;
    if e.id in w.data.events {
      SameSent(w, u, c, v);
    } else if e.id in u.data.events {
      SkippedSends(u, c, v);
      SkippedAlike(w, u, c, v, b);
    } else {
      NewAlike(w, u, c, v, b);
    }
  }

  lemma SkippedSends(u: W.World, c: W.Config, v: W.Delivery)
    requires v.event.id in u.data.events
    ensures W.Handle(u, c, v) == (u, Ok(())) && SentBy(u, c, v) == ([], [])
  {
    assert u.emails[|u.emails|..] == [] && u.forwards[|u.forwards|..] == [];
  }

  lemma SameSent(w: W.World, u: W.World, c: W.Config, v: W.Delivery)
    requires v.event.id in w.data.events && v.event.id in u.data.events
    ensures W.Handle(w, c, v) == (w, Ok(())) && W.Handle(u, c, v) == (u, Ok(())) && SentBy(w, c, v) == SentBy(u, c, v)
  {
    SkippedSends(w, c, v);
    SkippedSends(u, c, v);
  }

  /** A skipped delivery is alike exactly if it would have done nothing. */
  lemma SkippedAlike(w: W.World, u: W.World, c: W.Config, v: W.Delivery, b: string)
    requires SameFor(w.data, u.data, b) && W.Handle(u, c, v) == (u, Ok(())) && SentBy(u, c, v) == ([], [])
    ensures HandledAlike(w, u, c, v, b) <==> Quiet(w, c, v, b)
  {
    SameForSwap(W.Handle(w, c, v).0.data, w.data, u.data, b);
  }

  lemma SameForSwap(x: Data, d: Data, e: Data, b: string)
    requires SameFor(d, e, b)
    ensures SameFor(x, e, b) <==> SameFor(d, x, b)
  {
    forall id ensures FindPayment(e, b, id) == FindPayment(d, b, id) && FindDonor(e, b, id) == FindDonor(d, b, id) {
    }
    if SameFor(x, e, b) {
      forall id ensures FindPayment(x, b, id) == FindPayment(d, b, id) && FindDonor(x, b, id) == FindDonor(d, b, id) {
        assert FindPayment(e, b, id) == FindPayment(x, b, id);
      }
    }
    if SameFor(d, x, b) {
      forall id ensures FindPayment(e, b, id) == FindPayment(x, b, id) && FindDonor(e, b, id) == FindDonor(x, b, id) {
        assert FindPayment(x, b, id) == FindPayment(d, b, id);
      }
    }
  }

  lemma MarkBoth(d: Data, e: Data, event: string, b: string)
    requires SameFor(d, e, b)
    ensures SameFor(MarkEvent(d, event), MarkEvent(e, event), b)
  {
    forall id ensures FindPayment(MarkEvent(e, event), b, id) == FindPayment(MarkEvent(d, event), b, id)
              ensures FindDonor(MarkEvent(e, event), b, id) == FindDonor(MarkEvent(d, event), b, id) {
      assert FindPayment(e, b, id) == FindPayment(d, b, id) && FindDonor(e, b, id) == FindDonor(d, b, id);
    }
  }

  lemma NewAlike(w: W.World, u: W.World, c: W.Config, v: W.Delivery, b: string)
    requires Keyed(w.data) && PlainRows(w.data) && Keyed(u.data) && Plain(b) && For(T.Deliver(v), b)
    requires SameFor(w.data, u.data, b) && v.event.id !in w.data.events && v.event.id !in u.data.events
    ensures HandledAlike(w, u, c, v, b)
  {
    var e := v.event;
    MarkBoth(w.data, u.data, e.id, b);
    if W.StatusOf(e.kind).Some? && e.intent.Some? {
      ApplyBeside(w.(data := MarkEvent(w.data, e.id)), u.(data := MarkEvent(u.data, e.id)), c, v, e.intent.value, W.StatusOf(e.kind).value, b);
    } else {
      assert w.emails[|w.emails|..] == u.emails[|u.emails|..] == [] && w.forwards[|w.forwards|..] == u.forwards[|u.forwards|..] == [];
    }
  }

  /* ---------- reconciliation ---------- */

  /** After any run for account `a`, a reconciliation step of another account leaves that account's rows as
      it would have without the run, and reports the same if and only if it is not about a transaction whose
      ledger id the run newly stored; then the ledger has no entry for it but account `a`'s. */
  lemma SweepBesideIff(s: T.Mem, bps: int, c: W.Config, ops: seq<T.Op>, a: string, b: string, item: Item, now: int)
    requires Keyed(s.world.data) && Plain(a) && Plain(b) && a != b
    requires forall i :: 0 <= i < |ops| ==> For(ops[i], a)
    ensures var d, e := s.world.data, T.MemoryRun(s, bps, c, ops).0.world.data;
            var x, y := DoItem(Start(d, b), b, item, now), DoItem(Start(e, b), b, item, now);
            var taken := item.Txn? && item.tx.id !in d.ledger && item.tx.id in e.ledger;
      && SameFor(x.data, y.data, b)
      && (x.rep == y.rep <==> !taken)
      && (taken ==> y.data.ledger[item.tx.id].accountID == a && x.data.ledger[item.tx.id].accountID == b)
  {
    RunBeside(s, bps, c, ops, a, b);
    SweptAlike(s.world.data, T.MemoryRun(s, bps, c, ops).0.world.data, b, item, now);
  }

  lemma SweptAlike(d: Data, e: Data, b: string, item: Item, now: int)
    requires Keyed(d) && Keyed(e) && SameFor(d, e, b) && forall x | x in d.ledger :: x in e.ledger
    ensures var x, y := DoItem(Start(d, b), b, item, now), DoItem(Start(e, b), b, item, now);
            var taken := item.Txn? && item.tx.id !in d.ledger && item.tx.id in e.ledger;
      && SameFor(x.data, y.data, b)
      && (x.rep == y.rep <==> !taken)
      && (taken ==> y.data.ledger[item.tx.id] == e.ledger[item.tx.id] && x.data.ledger[item.tx.id].accountID == b)
  {
    match item {
      case Txn(tx) => TxnSwept(d, e, b, tx, now);
      case Intent(pi) =>
        assert FindPayment(e, b, pi.id) == FindPayment(d, b, pi.id);
        var row := FailRow(b, FindPayment(d, b, pi.id), pi, now);
        if row.Some? {
          PutBoth(d, e, row.value, b);
        }
    }
  }

  lemma TxnSwept(d: Data, e: Data, b: string, tx: BalanceTxn, now: int)
    requires SameFor(d, e, b) && (tx.id in d.ledger ==> tx.id in e.ledger)
    ensures var x, y := DoTxn(Start(d, b), b, tx, now), DoTxn(Start(e, b), b, tx, now);
            var taken := tx.id !in d.ledger && tx.id in e.ledger;
      && SameFor(x.data, y.data, b)
      && (x.rep == y.rep <==> !taken)
      && (taken ==> y.data.ledger[tx.id] == e.ledger[tx.id] && x.data.ledger[tx.id].accountID == b)
  {
    var f, g := PutLedger(d, Entry(b, tx)), PutLedger(e, Entry(b, tx));
    assert FindPayment(e, b, tx.sourceID) == FindPayment(d, b, tx.sourceID);
    LedgerBoth(d, e, Entry(b, tx), Entry(b, tx), b);
    var row := ChargeRow(b, FindPayment(f, b, tx.sourceID), tx, now);
    if row.Some? {
      PutBoth(f, g, row.value, b);
    }
  }

  lemma LedgerBoth(d: Data, e: Data, x: LedgerEntry, y: LedgerEntry, b: string)
    requires SameFor(d, e, b)
    ensures SameFor(PutLedger(d, x), PutLedger(e, y), b)
  {
    forall id ensures FindPayment(PutLedger(e, y), b, id) == FindPayment(PutLedger(d, x), b, id)
              ensures FindDonor(PutLedger(e, y), b, id) == FindDonor(PutLedger(d, x), b, id) {
      assert FindPayment(e, b, id) == FindPayment(d, b, id) && FindDonor(e, b, id) == FindDonor(d, b, id);
    }
  }
}
