/** The relational store: what its upserts keep and lose, and the same programs run over it. */
module Postgres {
  import opened Domain
  import opened Store
  import opened Gateway
  import opened Recon
  import W = Webhook
  import App

  /* ---------- tables ---------- */

  datatype PaymentCols = PaymentCols(
    donorID: string, productID: string, amount: int, currency: string, status: Status, fee: int,
    source: Source, failureReason: string, created: int, updated: int, metadata: Metadata)

  datatype LedgerCols = LedgerCols(accountID: string, kind: string, amount: int, currency: string, fee: int, created: int)

  datatype Tables = Tables(
    donors: map<(string, string), Donor>,
    payments: map<(string, string), PaymentCols>,
    ledger: map<string, LedgerCols>,
    events: set<string>,
    keys: map<string, string>)

  const EmptyTables := Tables(map[], map[], map[], {}, map[])

  /** A zero time is stored as the current time. */
  function NonZero(t: int, wall: int): int {
    if t == 0 then wall else t
  }

  /** The fee keeps its amount and loses its currency. */
  function Cols(p: Payment, wall: int): PaymentCols {
    PaymentCols(p.donorID, p.productID, p.amount.amount, p.amount.currency, p.status, p.applicationFee.amount,
                p.source, p.failureReason, NonZero(p.createdAt, wall), NonZero(p.updatedAt, wall), p.metadata)
  }

  function ScanPayment(a: string, id: string, c: PaymentCols): Payment {
    Payment(a, c.donorID, c.productID, id, NewMoney(c.amount, c.currency), c.status, NewMoney(c.fee, c.currency),
            c.source, c.failureReason, c.created, c.updated, c.metadata)
  }

  /** On conflict every column is replaced except `created_at`. */
  function Upsert(t: Tables, p: Payment, wall: int): Tables {
    var k := (p.accountID, p.intentID);
    var c := Cols(p, wall);
    t.(payments := t.payments[k := if k in t.payments then c.(created := t.payments[k].created) else c])
  }

  function Select(t: Tables, a: string, id: string): Option<Payment> {
    if (a, id) in t.payments then Some(ScanPayment(a, id, t.payments[(a, id)])) else None
  }

  /** The payments as a query returns them. */
  function Scanned(t: Tables): map<(string, string), Payment> {
    map x | x in t.payments :: ScanPayment(x.0, x.1, t.payments[x])
  }

  function SelectDonor(t: Tables, a: string, id: string): Option<Donor> {
    if (a, id) in t.donors then Some(t.donors[(a, id)]) else None
  }

  function UpsertDonor(t: Tables, d: Donor): Tables {
    t.(donors := t.donors[(d.accountID, d.id) := d])
  }

  function EntryCols(e: LedgerEntry, wall: int): LedgerCols {
    LedgerCols(e.accountID, e.kind, e.amount.amount, e.amount.currency, e.fee.amount, NonZero(e.createdAt, wall))
  }

  /** On conflict nothing is done. */
  function InsertEntry(t: Tables, e: LedgerEntry, wall: int): Tables {
    if e.txnID in t.ledger then t else t.(ledger := t.ledger[e.txnID := EntryCols(e, wall)])
  }

  function InsertEvent(t: Tables, id: string): Tables {
    t.(events := t.events + {id})
  }

  /** On conflict the first intent id stays: unlike `Memory`, which overwrites. */
  function InsertKey(t: Tables, key: string, id: string): Tables {
    if key in t.keys then t else t.(keys := t.keys[key := id])
  }

  /** The row as the relational store returns it: currencies normalised, the fee in the payment's currency. */
  function Norm(p: Payment): Payment {
    p.(amount := NewMoney(p.amount.amount, p.amount.currency), applicationFee := NewMoney(p.applicationFee.amount, p.amount.currency))
  }

  /* ---------- reading back ---------- */

  /** One upsert, and what the database's clock shows. */
  datatype Write = Write(p: Payment, wall: int)

  function Writes(t: Tables, ws: seq<Write>): Tables {
    if |ws| == 0 then t else Upsert(Writes(t, ws[..|ws| - 1]), ws[|ws| - 1].p, ws[|ws| - 1].wall)
  }

  predicate To(w: Write, a: string, id: string) {
    w.p.accountID == a && w.p.intentID == id
  }

  function LastTo(ws: seq<Write>, a: string, id: string): Option<Write> {
    if |ws| == 0 then None
    else if To(ws[|ws| - 1], a, id) then Some(ws[|ws| - 1])
    else LastTo(ws[..|ws| - 1], a, id)
  }

  function FirstTo(ws: seq<Write>, a: string, id: string): Option<Write> {
    if |ws| == 0 then None
    else
      var r := FirstTo(ws[..|ws| - 1], a, id);
      if r.None? && To(ws[|ws| - 1], a, id) then Some(ws[|ws| - 1]) else r
  }

  /** What the store keeps of a row: everything but the fee's currency, which reads as the payment's. */
  predicate ReadsAs(q: Payment, p: Payment) {
    && q.accountID == p.accountID && q.intentID == p.intentID && q.donorID == p.donorID && q.productID == p.productID
    && q.status == p.status && q.source == p.source && q.failureReason == p.failureReason && q.metadata == p.metadata
    && q.amount.amount == p.amount.amount && q.amount.currency == Normalise(p.amount.currency)
    && q.applicationFee.amount == p.applicationFee.amount && q.applicationFee.currency == Normalise(p.amount.currency)
  }

  /** Over any sequence of upserts, to this row and to others, a read returns the last row written, its
      currencies normalised and the fee in the payment's currency, with the creation time of the row that was
      there or else of the first one written; a zero time reads as the database's clock at the write. */
  lemma {:induction false} ReadBack(t: Tables, ws: seq<Write>, a: string, id: string)
    ensures var last, first := LastTo(ws, a, id), FirstTo(ws, a, id);
      && (last.Some? <==> first.Some?)
      && Select(Writes(t, ws), a, id) ==
           if last.None? then Select(t, a, id)
           else Some(Norm(last.value.p).(
             createdAt := if Select(t, a, id).Some? then Select(t, a, id).value.createdAt else NonZero(first.value.p.createdAt, first.value.wall),
             updatedAt := NonZero(last.value.p.updatedAt, last.value.wall)))
    ensures var last, first := LastTo(ws, a, id), FirstTo(ws, a, id);
      last.Some? ==>
        var q := Select(Writes(t, ws), a, id).value;
        && ReadsAs(q, last.value.p)
        && q.updatedAt == (if last.value.p.updatedAt == 0 then last.value.wall else last.value.p.updatedAt)
        && q.createdAt == (if (a, id) in t.payments then t.payments[(a, id)].created
                           else if first.value.p.createdAt == 0 then first.value.wall else first.value.p.createdAt)
  {
    if |ws| > 0 {
      ReadBack(t, ws[..|ws| - 1], a, id);
    }
  }

  /** The rows of a table that a filter selects, in any order. */
  method SelectWhere(table: map<(string, string), Payment>, f: PaymentFilter) returns (out: seq<Payment>)
    ensures Listing(out, table, f)
  {
    out := [];
    ghost var ks: seq<(string, string)> := [];
    var rest := table.Keys;
    while rest != {}
      invariant |out| == |ks| && rest <= table.Keys && Distinct(ks)
      invariant forall i :: 0 <= i < |ks| ==> ks[i] in table && ks[i] !in rest && out[i] == table[ks[i]] && Matches(f, out[i])
      invariant forall k | k in table && Matches(f, table[k]) :: k in rest || k in ks
      decreases |rest|
    {
      var k :| k in rest;
      rest := rest - {k};
      if Matches(f, table[k]) {
        out, ks := out + [table[k]], ks + [k];
      }
    }
    assert Lists(out, ks, table, f);
  }

  class Pg {
    var donors: map<(string, string), Donor>
    var payments: map<(string, string), PaymentCols>
    var ledger: map<string, LedgerCols>
    var events: set<string>
    var keys: map<string, string>

    ghost function View(): Tables
      reads this
    {
      Tables(donors, payments, ledger, events, keys)
    }

    constructor ()
      ensures View() == EmptyTables
    {
      donors, payments, ledger, events, keys := map[], map[], map[], {}, map[];
    }

    method UpsertPayment(p: Payment, wall: int)
      modifies this
      ensures View() == Upsert(old(View()), p, wall)
    {
      var k := (p.accountID, p.intentID);
      var c := Cols(p, wall);
      if k in payments {
        c := c.(created := payments[k].created);
      }
      payments := payments[k := c];
    }

    method SaveDonor(d: Donor)
      modifies this
      ensures View() == UpsertDonor(old(View()), d)
    {
      donors := donors[(d.accountID, d.id) := d];
    }

    method GetDonor(a: string, id: string) returns (d: Option<Donor>)
      ensures d == SelectDonor(View(), a, id)
    {
      d := if (a, id) in donors then Some(donors[(a, id)]) else None;
    }

    method GetPayment(a: string, id: string) returns (p: Option<Payment>)
      ensures p == Select(View(), a, id)
    {
      p := if (a, id) in payments then Some(ScanPayment(a, id, payments[(a, id)])) else None;
    }

    method ListPayments(f: PaymentFilter) returns (out: seq<Payment>)
      ensures Listing(out, Scanned(View()), f)
    {
      out := SelectWhere(map x | x in payments :: ScanPayment(x.0, x.1, payments[x]), f);
    }

    method UpsertLedgerEntry(e: LedgerEntry, wall: int) returns (inserted: bool)
      modifies this
      ensures View() == InsertEntry(old(View()), e, wall) && inserted == (e.txnID !in old(ledger))
    {
      inserted := e.txnID !in ledger;
      if inserted {
        ledger := ledger[e.txnID := EntryCols(e, wall)];
      }
    }

    method MarkEventProcessed(id: string) returns (first: bool)
      modifies this
      ensures View() == InsertEvent(old(View()), id) && first == (id !in old(events))
    {
      first := id !in events;
      events := events + {id};
    }

    method GetIdempotent(key: string) returns (id: Option<string>)
      ensures id == if key in View().keys then Some(View().keys[key]) else None
    {
      id := if key in keys then Some(keys[key]) else None;
    }

    method SaveIdempotent(key: string, id: string)
      modifies this
      ensures View() == InsertKey(old(View()), key, id)
    {
      if key !in keys {
        keys := keys[key := id];
      }
    }
  }

  /* ---------- the service, the router and the engine over these tables ---------- */

  datatype Started = Started(gw: Gw, tables: Tables, result: Result<PaymentIntent>)

  function StartDonation(g: Gw, t: Tables, bps: int, input: App.Input, x: Draw, now: int, wall: int): Started {
    var a := input.accountID;
    if !ValidAmount(input.amount) then Started(g, t, Err(Invalid))
    else match SelectDonor(t, a, input.donorID)
      case None => Started(g, t, Err(NotFound))
      case Some(donor) =>
        if input.key != "" && input.key in t.keys then Started(SetAcct(g, a, Acct(g, a)), t, GetIntent(g, a, t.keys[input.key]))
        else
          var (h, r) := CreateIntent(g, a, App.ParamsFor(input, donor), x);
          match r
          case Err(e) => Started(h, t, Err(e))
          case Ok(pi) =>
            var stored := Upsert(t, App.DonationRow(input, donor, pi, bps, now), wall);
            Started(h, if input.key != "" then InsertKey(stored, input.key, pi.id) else stored, r)
  }

  datatype PgWorld = PgWorld(tables: Tables, emails: seq<W.Email>, forwards: seq<W.Forward>)

  function EmailFor(t: Tables, e: Event, p: Payment): Option<W.Email> {
    if p.donorID == "" then None
    else match SelectDonor(t, p.accountID, p.donorID)
      case None => None
      case Some(donor) => Some(W.Email(e.id, donor.email, p))
  }

  function SendForward(w: PgWorld, c: W.Config, v: W.Delivery, p: Payment): (PgWorld, Result<()>) {
    var f := W.ForwardFor(c, v.event, p);
    (w.(forwards := W.Also(w.forwards, f)), if f.Some? && !v.forwardOk then Err(ForwardFailed) else Ok(()))
  }

  function Apply(w: PgWorld, c: W.Config, v: W.Delivery, pi: PaymentIntent, status: Status, wall: int): (PgWorld, Result<()>) {
    var p := W.EventRow(Select(w.tables, Lookup(pi.metadata, "account_id"), pi.id), pi, status, v.now);
    var stored := w.(tables := Upsert(w.tables, p, wall));
    if status == Failed then
      var mail := EmailFor(stored.tables, v.event, p);
      var mailed := stored.(emails := W.Also(stored.emails, mail));
      if mail.Some? && !v.mailOk then (mailed, Err(NotifyFailed)) else SendForward(mailed, c, v, p)
    else SendForward(stored, c, v, p)
  }

  function Handle(w: PgWorld, c: W.Config, v: W.Delivery, wall: int): (PgWorld, Result<()>) {
    var e := v.event;
    if e.id in w.tables.events then (w, Ok(()))
    else
      var marked := w.(tables := InsertEvent(w.tables, e.id));
      match W.StatusOf(e.kind)
      case None => (marked, Ok(()))
      case Some(status) =>
        if e.intent.None? then (marked, Err(MissingIntent))
        else Apply(marked, c, v, e.intent.value, status, wall)
  }

  datatype PgPass = PgPass(tables: Tables, rep: Report)

  function UpsertIfAny(t: Tables, row: Option<Payment>, wall: int): Tables {
    if row.Some? then Upsert(t, row.value, wall) else t
  }

  function DoTxn(c: PgPass, a: string, tx: BalanceTxn, now: int, wall: int): PgPass {
    var inserted := tx.id !in c.tables.ledger;
    var t := InsertEntry(c.tables, Entry(a, tx), wall);
    var found := Select(t, a, tx.sourceID);
    var backfill := IsCharge(tx) && found.None?;
    PgPass(
      if IsCharge(tx) then UpsertIfAny(t, ChargeRow(a, found, tx, now), wall) else t,
      c.rep.(scanned := c.rep.scanned + 1,
             backfilled := c.rep.backfilled + (if inserted then 1 else 0) + (if backfill then 1 else 0)))
  }

  function DoIntent(c: PgPass, a: string, pi: PaymentIntent, now: int, wall: int): PgPass {
    var found := Select(c.tables, a, pi.id);
    var row := FailRow(a, found, pi, now);
    PgPass(
      UpsertIfAny(c.tables, row, wall),
      c.rep.(scanned := c.rep.scanned + 1,
             backfilled := c.rep.backfilled + (if row.Some? && found.None? then 1 else 0),
             updated := c.rep.updated + (if row.Some? && found.Some? then 1 else 0)))
  }

  function DoItem(c: PgPass, a: string, item: Item, now: int, wall: int): PgPass {
    match item
    case Txn(tx) => DoTxn(c, a, tx, now, wall)
    case Intent(pi) => DoIntent(c, a, pi, now, wall)
  }
}
