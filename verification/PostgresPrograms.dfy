/** The service, the router and the engine calling the relational store: its own operations, in the callers' order. */
module PostgresPrograms {
  import opened Domain
  import opened Gateway
  import opened Recon
  import opened P = Postgres
  import App
  import W = Webhook

  class Backend {
    const gw: Mock
    const db: Pg
    const outbox: W.Outbox
    const config: W.Config
    const feeBps: int

    constructor (gw: Mock, db: Pg, outbox: W.Outbox, config: W.Config, feeBps: int)
      ensures this.gw == gw && this.db == db && this.outbox == outbox && this.config == config && this.feeBps == feeBps
    {
      this.gw, this.db, this.outbox, this.config, this.feeBps := gw, db, outbox, config, feeBps;
    }

    ghost function View(): PgWorld
      reads this, db, outbox
    {
      PgWorld(db.View(), outbox.emails, outbox.forwards)
    }

    method Start(input: App.Input, x: Draw, now: int, wall: int) returns (r: Result<PaymentIntent>)
      modifies gw, db
      ensures Started(gw.View(), db.View(), r) == StartDonation(old(gw.View()), old(db.View()), feeBps, input, x, now, wall)
    {
      if !ValidAmount(input.amount) {
        return Err(Invalid);
      }
      var found := db.GetDonor(input.accountID, input.donorID);
      if found.None? {
        return Err(NotFound);
      }
      var donor := found.value;
      if input.key != "" {
        var known := db.GetIdempotent(input.key);
        if known.Some? {
          r := gw.GetPaymentIntent(input.accountID, known.value);
          return;
        }
      }
      r := gw.CreatePaymentIntent(input.accountID, App.ParamsFor(input, donor), x);
      if r.Err? {
        return;
      }
      db.UpsertPayment(App.DonationRow(input, donor, r.value, feeBps, now), wall);
      if input.key != "" {
        db.SaveIdempotent(input.key, r.value.id);
      }
    }

    method HandleEvent(v: W.Delivery, wall: int) returns (r: Result<()>)
      modifies db, outbox
      ensures (View(), r) == Handle(old(View()), config, v, wall)
    {
      var e := v.event;
      var first := db.MarkEventProcessed(e.id);
      if !first {
        assert old(db.events) + {e.id} == old(db.events);
        return Ok(());
      }
      if W.StatusOf(e.kind).None? {
        return Ok(());
      }
      if e.intent.None? {
        return Err(MissingIntent);
      }
      r := ApplyEvent(v, e.intent.value, W.StatusOf(e.kind).value, wall);
    }

    method ApplyEvent(v: W.Delivery, pi: PaymentIntent, status: Status, wall: int) returns (r: Result<()>)
      modifies db, outbox
      ensures (View(), r) == Apply(old(View()), config, v, pi, status, wall)
    {
      var found := db.GetPayment(Lookup(pi.metadata, "account_id"), pi.id);
      var p := W.EventRow(found, pi, status, v.now);
      db.UpsertPayment(p, wall);
      if status == Failed {
        var donor := None;
        if p.donorID != "" {
          donor := db.GetDonor(p.accountID, p.donorID);
        }
        if donor.Some? {
          r := outbox.PaymentFailed(v.event.id, donor.value.email, p, v.mailOk);
          if r.Err? {
            return;
          }
        }
      }
      var f := W.ForwardFor(config, v.event, p);
      if f.None? {
        return Ok(());
      }
      r := outbox.Notify(f.value.eventID, f.value.url, f.value.note, v.forwardOk);
    }

    method ReconcileTxn(rep0: Report, a: string, tx: BalanceTxn, now: int, wall: int) returns (rep: Report)
      modifies db
      ensures PgPass(db.View(), rep) == P.DoTxn(PgPass(old(db.View()), rep0), a, tx, now, wall)
    {
      rep := rep0.(scanned := rep0.scanned + 1);
      var inserted := db.UpsertLedgerEntry(Entry(a, tx), wall);
      if inserted {
        rep := rep.(backfilled := rep.backfilled + 1);
      }
      if IsCharge(tx) {
        var found := db.GetPayment(a, tx.sourceID);
        var row := ChargeRow(a, found, tx, now);
        if row.Some? {
          db.UpsertPayment(row.value, wall);
        }
        if found.None? {
          rep := rep.(backfilled := rep.backfilled + 1);
        }
      }
    }

    method ReconcileIntent(rep0: Report, a: string, pi: PaymentIntent, now: int, wall: int) returns (rep: Report)
      modifies db
      ensures PgPass(db.View(), rep) == P.DoIntent(PgPass(old(db.View()), rep0), a, pi, now, wall)
    {
      rep := rep0.(scanned := rep0.scanned + 1);
      if pi.status != Failed {
        return;
      }
      var found := db.GetPayment(a, pi.id);
      var row := FailRow(a, found, pi, now);
      if row.None? {
        return;
      }
      db.UpsertPayment(row.value, wall);
      if found.None? {
        rep := rep.(backfilled := rep.backfilled + 1);
      } else {
        rep := rep.(updated := rep.updated + 1);
      }
    }
  }
}
