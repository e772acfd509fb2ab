/** The in-memory store and the relational store behave alike. */
module TwoStores {
  import opened Domain
  import opened Store
  import opened StorePairs
  import opened Gateway
  import opened Recon
  import W = Webhook
  import App
  import P = Postgres

  /* ---------- rows up to what the relational store cannot keep ---------- */

  function NormOption(p: Option<Payment>): Option<Payment> {
    if p.Some? then Some(P.Norm(p.value)) else None
  }

  lemma NormTwice(p: Payment)
    ensures P.Norm(P.Norm(p)) == P.Norm(p)
  {
    NormaliseIdempotent(p.amount.currency);
  }

  ghost predicate LedgersAlike(x: map<string, LedgerEntry>, y: map<string, P.LedgerCols>) {
    && y.Keys == x.Keys
    && (forall k | k in x ::
          && x[k].createdAt != 0 && y[k].created == x[k].createdAt
          && y[k].accountID == x[k].accountID && y[k].kind == x[k].kind
          && y[k].amount == x[k].amount.amount && y[k].currency == x[k].amount.currency && y[k].fee == x[k].fee.amount)
  }

  /** The relation between the two stores. */
  ghost predicate Alike(d: Data, t: P.Tables) {
    && Keyed(d) && PlainRows(d)
    && (forall k | k in d.payments :: d.payments[k].createdAt != 0)
    && (forall a, id | Plain(a) :: P.Select(t, a, id) == NormOption(FindPayment(d, a, id)))
    && (forall a, id | Plain(a) :: P.SelectDonor(t, a, id) == FindDonor(d, a, id))
    && LedgersAlike(d.ledger, t.ledger)
    && t.events == d.events
    && t.keys == d.idempotency
  }

  lemma EmptyAlike()
    ensures Alike(EmptyData, P.EmptyTables)
  {
  }

  /** Writing alike rows keeps the stores alike, provided the writer keeps the creation time it read. */
  lemma UpsertAlike(d: Data, t: P.Tables, p: Payment, q: Payment, wall: int)
    requires Alike(d, t) && Plain(p.accountID) && p.createdAt != 0 && p.updatedAt != 0 && P.Norm(p) == P.Norm(q)
    requires var was := FindPayment(d, p.accountID, p.intentID); was.Some? ==> was.value.createdAt == p.createdAt
    ensures Alike(PutPayment(d, p), P.Upsert(t, q, wall))
  {
    var e, u := PutPayment(d, p), P.Upsert(t, q, wall);
    PutKeeps(d, p, Donor("", p.accountID, "", "", ""));
    assert P.Select(t, p.accountID, p.intentID) == NormOption(FindPayment(d, p.accountID, p.intentID));
    forall a, id | Plain(a) ensures P.Select(u, a, id) == NormOption(FindPayment(e, a, id)) {
      assert P.Select(t, a, id) == NormOption(FindPayment(d, a, id));
      if RowKey(a, id) == RowKey(p.accountID, p.intentID) {
        RowKeyInjective(a, id, p.accountID, p.intentID);
      }
    }
    forall a, id | Plain(a) ensures P.SelectDonor(u, a, id) == FindDonor(e, a, id) {
      assert P.SelectDonor(t, a, id) == FindDonor(d, a, id);
    }
  }

  lemma DonorAlike(d: Data, t: P.Tables, r: Donor)
    requires Alike(d, t) && Plain(r.accountID)
    ensures Alike(PutDonor(d, r), P.UpsertDonor(t, r))
  {
    var e, u := PutDonor(d, r), P.UpsertDonor(t, r);
    forall a, id | Plain(a) ensures P.SelectDonor(u, a, id) == FindDonor(e, a, id) {
      assert P.SelectDonor(t, a, id) == FindDonor(d, a, id);
      if RowKey(a, id) == RowKey(r.accountID, r.id) {
        RowKeyInjective(a, id, r.accountID, r.id);
      }
    }
    forall a, id | Plain(a) ensures P.Select(u, a, id) == NormOption(FindPayment(e, a, id)) {
      assert P.Select(t, a, id) == NormOption(FindPayment(d, a, id));
    }
  }

  /** Payments and donors are alike when nothing touched them. */
  lemma SameRowsAlike(d: Data, t: P.Tables, e: Data, u: P.Tables)
    requires Alike(d, t) && e.payments == d.payments && e.donors == d.donors && u.payments == t.payments && u.donors == t.donors
    ensures forall a, id | Plain(a) :: P.Select(u, a, id) == NormOption(FindPayment(e, a, id))
    ensures forall a, id | Plain(a) :: P.SelectDonor(u, a, id) == FindDonor(e, a, id)
  {
    forall a, id | Plain(a)
      ensures P.Select(u, a, id) == NormOption(FindPayment(e, a, id)) && P.SelectDonor(u, a, id) == FindDonor(e, a, id)
    {
      assert P.Select(t, a, id) == NormOption(FindPayment(d, a, id));
      assert P.SelectDonor(t, a, id) == FindDonor(d, a, id);
    }
  }

  lemma EventAlike(d: Data, t: P.Tables, event: string)
    requires Alike(d, t)
    ensures Alike(MarkEvent(d, event), P.InsertEvent(t, event))
  {
    SameRowsAlike(d, t, MarkEvent(d, event), P.InsertEvent(t, event));
  }

  lemma EntriesAlike(x: map<string, LedgerEntry>, y: map<string, P.LedgerCols>, e: LedgerEntry, wall: int)
    requires LedgersAlike(x, y) && e.createdAt != 0
    ensures LedgersAlike(x[e.txnID := e], y[e.txnID := P.EntryCols(e, wall)])
  {
  }

  lemma LedgerAlike(d: Data, t: P.Tables, e: LedgerEntry, wall: int)
    requires Alike(d, t) && e.createdAt != 0
    ensures Alike(PutLedger(d, e), P.InsertEntry(t, e, wall))
  {
    if e.txnID !in d.ledger {
      EntriesAlike(d.ledger, t.ledger, e, wall);
      SameRowsAlike(d, t, PutLedger(d, e), P.InsertEntry(t, e, wall));
    }
  }

  /** A key is only ever saved after a failed lookup, so overwriting and keeping do the same. */
  lemma KeyAlike(d: Data, t: P.Tables, key: string, id: string)
    requires Alike(d, t) && key !in d.idempotency
    ensures Alike(PutKey(d, key, id), P.InsertKey(t, key, id))
  {
    SameRowsAlike(d, t, PutKey(d, key, id), P.InsertKey(t, key, id));
  }

  /* ---------- donations ---------- */

  /** Fresh intent id, separator-free account, running clock: the same result, and stores still alike. */
  lemma StartAlike(g: Gw, d: Data, t: P.Tables, bps: int, input: App.Input, x: Draw, now: int, wall: int)
    requires Alike(d, t) && Plain(input.accountID) && now != 0 && FindPayment(d, input.accountID, x.id).None?
    ensures var r, q := App.StartDonation(g, d, bps, input, x, now), P.StartDonation(g, t, bps, input, x, now, wall);
            r.result == q.result && r.gw == q.gw && Alike(r.data, q.tables)
  {
    var a := input.accountID;
    assert P.SelectDonor(t, a, input.donorID) == FindDonor(d, a, input.donorID);
    if App.Creates(d, input) {
      var donor := FindDonor(d, a, input.donorID).value;
      var (h, r) := CreateIntent(g, a, App.ParamsFor(input, donor), x);
      var row := App.DonationRow(input, donor, r.value, bps, now);
      assert r.Ok? && r.value.id == x.id;
      UpsertAlike(d, t, row, row, wall);
      if input.key != "" {
        KeyAlike(PutPayment(d, row), P.Upsert(t, row, wall), input.key, x.id);
      }
    }
  }

  /* ---------- webhooks ---------- */

  function NormNote(n: W.Notification): W.Notification {
    n.(currency := Normalise(n.currency))
  }

  /** The same messages to the same recipients, about rows that are alike. */
  ghost predicate MailAlike(x: seq<W.Email>, y: seq<W.Email>) {
    |x| == |y| && forall i :: 0 <= i < |x| ==> x[i].eventID == y[i].eventID && x[i].to == y[i].to && P.Norm(x[i].payment) == P.Norm(y[i].payment)
  }

  ghost predicate ForwardsAlike(x: seq<W.Forward>, y: seq<W.Forward>) {
    |x| == |y| && forall i :: 0 <= i < |x| ==> x[i].eventID == y[i].eventID && x[i].url == y[i].url && NormNote(x[i].note) == NormNote(y[i].note)
  }

  ghost predicate WorldsAlike(w: W.World, v: P.PgWorld) {
    Alike(w.data, v.tables) && MailAlike(w.emails, v.emails) && ForwardsAlike(w.forwards, v.forwards)
  }

  lemma EventRowAlike(found: Option<Payment>, pi: PaymentIntent, status: Status, now: int)
    ensures var p, q := W.EventRow(found, pi, status, now), W.EventRow(NormOption(found), pi, status, now);
      && P.Norm(p) == P.Norm(q)
      && (found.Some? ==> p.createdAt == found.value.createdAt && p.accountID == found.value.accountID && p.intentID == found.value.intentID)
      && (found.None? ==> p.createdAt == now && p.accountID == Lookup(pi.metadata, "account_id") && p.intentID == pi.id)
      && p.updatedAt == now
  {
    if found.Some? {
      NormTwice(found.value);
    }
  }

  lemma FoundUnderKey(d: Data, a: string, id: string)
    requires Keyed(d) && PlainRows(d) && Plain(a)
    ensures var p := FindPayment(d, a, id); p.Some? ==> p.value.accountID == a && p.value.intentID == id
  {
    var p := FindPayment(d, a, id);
    if p.Some? {
      RowKeyInjective(p.value.accountID, p.value.intentID, a, id);
    }
  }

  ghost predicate RoutedPlain(e: Event) {
    e.intent.Some? ==> Plain(Lookup(e.intent.value.metadata, "account_id"))
  }

  lemma SendAlike(w: W.World, u: P.PgWorld, c: W.Config, v: W.Delivery, p: Payment, q: Payment)
    requires WorldsAlike(w, u) && P.Norm(p) == P.Norm(q)
    ensures var x, y := W.SendForward(w, c, v, p), P.SendForward(u, c, v, q);
            WorldsAlike(x.0, y.0) && x.1 == y.1
  {
    assert NormNote(W.NoteFor(v.event, p)) == NormNote(W.NoteFor(v.event, q));
  }

  lemma StoredAlike(d: Data, t: P.Tables, v: W.Delivery, pi: PaymentIntent, status: Status, wall: int)
    requires Alike(d, t) && Plain(Lookup(pi.metadata, "account_id")) && v.now != 0
    ensures var a := Lookup(pi.metadata, "account_id");
            var p, q := W.EventRow(FindPayment(d, a, pi.id), pi, status, v.now), W.EventRow(P.Select(t, a, pi.id), pi, status, v.now);
      P.Norm(p) == P.Norm(q) && Plain(p.accountID) && Alike(PutPayment(d, p), P.Upsert(t, q, wall))
  {
    var a := Lookup(pi.metadata, "account_id");
    var found := FindPayment(d, a, pi.id);
    assert P.Select(t, a, pi.id) == NormOption(found);
    EventRowAlike(found, pi, status, v.now);
    FoundUnderKey(d, a, pi.id);
    UpsertAlike(d, t, W.EventRow(found, pi, status, v.now), W.EventRow(NormOption(found), pi, status, v.now), wall);
  }

  lemma EmailAlike(d: Data, t: P.Tables, e: Event, p: Payment, q: Payment)
    requires Alike(d, t) && P.Norm(p) == P.Norm(q) && Plain(p.accountID)
    ensures var x, y := W.EmailFor(d, e, p), P.EmailFor(t, e, q);
      && (x.Some? <==> y.Some?)
      && (x.Some? ==> x.value.eventID == y.value.eventID && x.value.to == y.value.to && P.Norm(x.value.payment) == P.Norm(y.value.payment))
  {
    assert p.accountID == P.Norm(p).accountID == q.accountID && p.donorID == P.Norm(p).donorID == q.donorID;
    assert P.SelectDonor(t, p.accountID, p.donorID) == FindDonor(d, p.accountID, p.donorID);
  }

  lemma AlsoAlike(x: seq<W.Email>, y: seq<W.Email>, mail: Option<W.Email>, post: Option<W.Email>)
    requires MailAlike(x, y) && (mail.Some? <==> post.Some?)
    requires mail.Some? ==> mail.value.eventID == post.value.eventID && mail.value.to == post.value.to
                            && P.Norm(mail.value.payment) == P.Norm(post.value.payment)
    ensures MailAlike(W.Also(x, mail), W.Also(y, post))
  {
  }

  lemma ApplyAlike(w: W.World, u: P.PgWorld, c: W.Config, v: W.Delivery, pi: PaymentIntent, status: Status, wall: int)
    requires WorldsAlike(w, u) && Plain(Lookup(pi.metadata, "account_id")) && v.now != 0
    ensures var x, y := W.Apply(w, c, v, pi, status), P.Apply(u, c, v, pi, status, wall);
            WorldsAlike(x.0, y.0) && x.1 == y.1
  {
    var a := Lookup(pi.metadata, "account_id");
    var p, q := W.EventRow(FindPayment(w.data, a, pi.id), pi, status, v.now), W.EventRow(P.Select(u.tables, a, pi.id), pi, status, v.now);
    StoredAlike(w.data, u.tables, v, pi, status, wall);
    var stored, kept := w.(data := PutPayment(w.data, p)), u.(tables := P.Upsert(u.tables, q, wall));
    if status == Failed {
      var mail, post := W.EmailFor(stored.data, v.event, p), P.EmailFor(kept.tables, v.event, q);
      EmailAlike(stored.data, kept.tables, v.event, p, q);
      AlsoAlike(stored.emails, kept.emails, mail, post);
      SendAlike(stored.(emails := W.Also(stored.emails, mail)), kept.(emails := W.Also(kept.emails, post)), c, v, p, q);
    } else {
      SendAlike(stored, kept, c, v, p, q);
    }
  }

  lemma HandleAlike(w: W.World, u: P.PgWorld, c: W.Config, v: W.Delivery, wall: int)
    requires WorldsAlike(w, u) && RoutedPlain(v.event) && v.now != 0
    ensures var x, y := W.Handle(w, c, v), P.Handle(u, c, v, wall);
            WorldsAlike(x.0, y.0) && x.1 == y.1
  {
    var e := v.event;
    if e.id !in w.data.events {
      EventAlike(w.data, u.tables, e.id);
      var marked, kept := w.(data := MarkEvent(w.data, e.id)), u.(tables := P.InsertEvent(u.tables, e.id));
      assert WorldsAlike(marked, kept);
      if W.StatusOf(e.kind).Some? && e.intent.Some? {
        ApplyAlike(marked, kept, c, v, e.intent.value, W.StatusOf(e.kind).value, wall);
      }
    }
  }

  /* ---------- reconciliation ---------- */

  lemma ReconRowsAlike(a: string, found: Option<Payment>, item: Item, now: int)
    ensures item.Txn? ==> var p, q := ChargeRow(a, found, item.tx, now), ChargeRow(a, NormOption(found), item.tx, now);
              (p.Some? <==> q.Some?) && (p.Some? ==> P.Norm(p.value) == P.Norm(q.value))
    ensures item.Intent? ==> var p, q := FailRow(a, found, item.pi, now), FailRow(a, NormOption(found), item.pi, now);
              (p.Some? <==> q.Some?) && (p.Some? ==> P.Norm(p.value) == P.Norm(q.value))
  {
    if found.Some? {
      NormTwice(found.value);
    }
  }

  ghost predicate Timed(item: Item) {
    match item
    case Txn(tx) => tx.created != 0
    case Intent(pi) => pi.created != 0
  }

  /** The payment half of a charge. */
  lemma ChargeAlike(d: Data, t: P.Tables, a: string, tx: BalanceTxn, now: int, wall: int)
    requires Alike(d, t) && Plain(a) && now != 0 && tx.created != 0
    ensures var found, got := FindPayment(d, a, tx.sourceID), P.Select(t, a, tx.sourceID);
      && (found.Some? <==> got.Some?)
      && Alike(PutIfAny(d, ChargeRow(a, found, tx, now)), P.UpsertIfAny(t, ChargeRow(a, got, tx, now), wall))
  {
    var found := FindPayment(d, a, tx.sourceID);
    assert P.Select(t, a, tx.sourceID) == NormOption(found);
    FoundUnderKey(d, a, tx.sourceID);
    ReconRowsAlike(a, found, Txn(tx), now);
    var p, q := ChargeRow(a, found, tx, now), ChargeRow(a, NormOption(found), tx, now);
    if p.Some? {
      UpsertAlike(d, t, p.value, q.value, wall);
    }
  }

  lemma SameIds(d: Data, t: P.Tables, id: string)
    requires Alike(d, t)
    ensures id in t.ledger <==> id in d.ledger
  {
  }

  lemma TxnAlike(d: Data, t: P.Tables, rep: Report, a: string, tx: BalanceTxn, now: int, wall: int)
    requires Alike(d, t) && Plain(a) && now != 0 && tx.created != 0
    ensures var x, y := Recon.DoTxn(Pass(d, rep), a, tx, now), P.DoTxn(P.PgPass(t, rep), a, tx, now, wall);
            x.rep == y.rep && Alike(x.data, y.tables)
  {
    var e, u := PutLedger(d, Entry(a, tx)), P.InsertEntry(t, Entry(a, tx), wall);
    LedgerAlike(d, t, Entry(a, tx), wall);
    SameIds(d, t, tx.id);
    if IsCharge(tx) {
      ChargeAlike(e, u, a, tx, now, wall);
    }
  }

  lemma IntentAlike(d: Data, t: P.Tables, rep: Report, a: string, pi: PaymentIntent, now: int, wall: int)
    requires Alike(d, t) && Plain(a) && now != 0 && pi.created != 0
    ensures var x, y := Recon.DoIntent(Pass(d, rep), a, pi, now), P.DoIntent(P.PgPass(t, rep), a, pi, now, wall);
            x.rep == y.rep && Alike(x.data, y.tables)
  {
    var found := FindPayment(d, a, pi.id);
    assert P.Select(t, a, pi.id) == NormOption(found);
    FoundUnderKey(d, a, pi.id);
    ReconRowsAlike(a, found, Item.Intent(pi), now);
    var p, q := FailRow(a, found, pi, now), FailRow(a, NormOption(found), pi, now);
    if p.Some? {
      UpsertAlike(d, t, p.value, q.value, wall);
    }
  }

  lemma ItemAlike(d: Data, t: P.Tables, rep: Report, a: string, item: Item, now: int, wall: int)
    requires Alike(d, t) && Plain(a) && now != 0 && Timed(item)
    ensures var x, y := Recon.DoItem(Pass(d, rep), a, item, now), P.DoItem(P.PgPass(t, rep), a, item, now, wall);
            x.rep == y.rep && Alike(x.data, y.tables)
  {
    match item {
      case Txn(tx) => TxnAlike(d, t, rep, a, tx, now, wall);
      case Intent(pi) => IntentAlike(d, t, rep, a, pi, now, wall);
    }
  }

  /* ---------- whole runs ---------- */

  datatype Op =
    | SaveDonor(donor: Donor)
    | Donate(input: App.Input, draw: Draw, now: int)
    | Deliver(delivery: W.Delivery)
    | Sweep(a: string, item: Item, now: int)

  /** Everything a caller can see of one operation. */
  datatype Seen = Silent | Created(intent: Result<PaymentIntent>) | Handled(outcome: Result<()>) | Reported(rep: Report)

  datatype Mem = Mem(gw: Gw, world: W.World)
  datatype Rel = Rel(gw: Gw, world: P.PgWorld)

  function OnMemory(s: Mem, bps: int, c: W.Config, op: Op): (Mem, Seen) {
    match op
    case SaveDonor(donor) => (s.(world := s.world.(data := PutDonor(s.world.data, donor))), Silent)
    case Donate(input, x, now) =>
      var r := App.StartDonation(s.gw, s.world.data, bps, input, x, now);
      (Mem(r.gw, s.world.(data := r.data)), Created(r.result))
    case Deliver(v) => var (w, r) := W.Handle(s.world, c, v); (s.(world := w), Handled(r))
    case Sweep(a, item, now) =>
      var p := Recon.DoItem(Recon.Start(s.world.data, a), a, item, now);
      (s.(world := s.world.(data := p.data)), Reported(p.rep))
  }

  function OnPostgres(s: Rel, bps: int, c: W.Config, op: Op, wall: int): (Rel, Seen) {
    match op
    case SaveDonor(donor) => (s.(world := s.world.(tables := P.UpsertDonor(s.world.tables, donor))), Silent)
    case Donate(input, x, now) =>
      var r := P.StartDonation(s.gw, s.world.tables, bps, input, x, now, wall);
      (Rel(r.gw, s.world.(tables := r.tables)), Created(r.result))
    case Deliver(v) => var (w, r) := P.Handle(s.world, c, v, wall); (s.(world := w), Handled(r))
    case Sweep(a, item, now) =>
      var p := P.DoItem(P.PgPass(s.world.tables, Report(a, 0, 0, 0, 0)), a, item, now, wall);
      (s.(world := s.world.(tables := p.tables)), Reported(p.rep))
  }

  /** Separator-free accounts, running clocks, and intent ids the store has not seen. */
  ghost predicate OpOk(s: Mem, op: Op) {
    match op
    case SaveDonor(donor) => Plain(donor.accountID)
    case Donate(input, x, now) => Plain(input.accountID) && now != 0 && FindPayment(s.world.data, input.accountID, x.id).None?
    case Deliver(v) => RoutedPlain(v.event) && v.now != 0
    case Sweep(a, item, now) => Plain(a) && now != 0 && Timed(item)
  }

  lemma OpAlike(s: Mem, r: Rel, bps: int, c: W.Config, op: Op, wall: int)
    requires s.gw == r.gw && WorldsAlike(s.world, r.world) && OpOk(s, op)
    ensures var (s', seen), (r', too) := OnMemory(s, bps, c, op), OnPostgres(r, bps, c, op, wall);
            s'.gw == r'.gw && WorldsAlike(s'.world, r'.world) && seen == too
  {
    match op
    case SaveDonor(donor) => DonorAlike(s.world.data, r.world.tables, donor);
    case Donate(input, x, now) => StartAlike(s.gw, s.world.data, r.world.tables, bps, input, x, now, wall);
    case Deliver(v) => HandleAlike(s.world, r.world, c, v, wall);
    case Sweep(a, item, now) => ItemAlike(s.world.data, r.world.tables, Report(a, 0, 0, 0, 0), a, item, now, wall);
  }

  function MemoryRun(s: Mem, bps: int, c: W.Config, ops: seq<Op>): (Mem, seq<Seen>) {
    if |ops| == 0 then (s, [])
    else
      var n := |ops| - 1;
      var (m, seen) := MemoryRun(s, bps, c, ops[..n]);
      var (m', x) := OnMemory(m, bps, c, ops[n]);
      (m', seen + [x])
  }

  function PostgresRun(r: Rel, bps: int, c: W.Config, ops: seq<Op>, wall: nat -> int): (Rel, seq<Seen>) {
    if |ops| == 0 then (r, [])
    else
      var n := |ops| - 1;
      var (m, seen) := PostgresRun(r, bps, c, ops[..n], wall);
      var (m', x) := OnPostgres(m, bps, c, ops[n], wall(n));
      (m', seen + [x])
  }

  ghost predicate RunOk(s: Mem, bps: int, c: W.Config, ops: seq<Op>) {
    forall i :: 0 <= i < |ops| ==> OpOk(MemoryRun(s, bps, c, ops[..i]).0, ops[i])
  }

  /** What both runs have shown and stored so far is alike. */
  ghost predicate RunsAlike(x: (Mem, seq<Seen>), y: (Rel, seq<Seen>)) {
    x.0.gw == y.0.gw && WorldsAlike(x.0.world, y.0.world) && x.1 == y.1
  }

  lemma RunStepAlike(s: Mem, r: Rel, seen: seq<Seen>, bps: int, c: W.Config, op: Op, wall: int)
    requires s.gw == r.gw && WorldsAlike(s.world, r.world) && OpOk(s, op)
    ensures var (m, x), (q, y) := OnMemory(s, bps, c, op), OnPostgres(r, bps, c, op, wall);
            RunsAlike((m, seen + [x]), (q, seen + [y]))
  {
    OpAlike(s, r, bps, c, op, wall);
  }

  lemma RunOkPrefix(s: Mem, bps: int, c: W.Config, ops: seq<Op>)
    requires |ops| > 0 && RunOk(s, bps, c, ops)
    ensures RunOk(s, bps, c, ops[..|ops| - 1]) && OpOk(MemoryRun(s, bps, c, ops[..|ops| - 1]).0, ops[|ops| - 1])
  {
    var head := ops[..|ops| - 1];
    assert forall i :: 0 <= i < |head| ==> head[..i] == ops[..i] && head[i] == ops[i];
  }

  /** Over every sequential run both stores give every caller the same answers, send the same messages
      and stay alike, whatever the database's own clock shows. */
  lemma {:induction false} SameBehaviour(s: Mem, r: Rel, bps: int, c: W.Config, ops: seq<Op>, wall: nat -> int)
    requires s.gw == r.gw && WorldsAlike(s.world, r.world) && RunOk(s, bps, c, ops)
    ensures RunsAlike(MemoryRun(s, bps, c, ops), PostgresRun(r, bps, c, ops, wall))
  {
    if |ops| > 0 {
      var n := |ops| - 1;
      RunOkPrefix(s, bps, c, ops);
      SameBehaviour(s, r, bps, c, ops[..n], wall);
      var (m, seen) := MemoryRun(s, bps, c, ops[..n]);
      RunStepAlike(m, PostgresRun(r, bps, c, ops[..n], wall).0, seen, bps, c, ops[n], wall(n));
    }
  }

  /** In particular from empty stores. */
  lemma SameFromEmpty(g: Gw, bps: int, c: W.Config, ops: seq<Op>, wall: nat -> int)
    requires RunOk(Mem(g, W.World(EmptyData, [], [])), bps, c, ops)
    ensures RunsAlike(MemoryRun(Mem(g, W.World(EmptyData, [], [])), bps, c, ops),
                      PostgresRun(Rel(g, P.PgWorld(P.EmptyTables, [], [])), bps, c, ops, wall))
  {
    EmptyAlike();
    SameBehaviour(Mem(g, W.World(EmptyData, [], [])), Rel(g, P.PgWorld(P.EmptyTables, [], [])), bps, c, ops, wall);
  }

  /* ---------- what the runs are runs of ---------- */

  function Deliveries(vs: seq<W.Delivery>): (ops: seq<Op>)
    ensures |ops| == |vs| && forall i :: 0 <= i < |vs| ==> ops[i] == Deliver(vs[i])
  {
    seq(|vs|, i requires 0 <= i < |vs| => Deliver(vs[i]))
  }

  /** A run of deliveries is the router's run of them. */
  lemma {:induction false} RunOfDeliveries(s: Mem, bps: int, c: W.Config, vs: seq<W.Delivery>)
    ensures MemoryRun(s, bps, c, Deliveries(vs)).0.world == W.HandleAll(s.world, c, vs)
  {
    if |vs| > 0 {
      var n := |vs| - 1;
      assert Deliveries(vs)[..n] == Deliveries(vs[..n]);
      RunOfDeliveries(s, bps, c, vs[..n]);
    }
  }

  function Sweeps(a: string, items: seq<Item>, clock: nat -> int): (ops: seq<Op>)
    ensures |ops| == |items| && forall i :: 0 <= i < |items| ==> ops[i] == Sweep(a, items[i], clock(i))
  {
    seq(|items|, i requires 0 <= i < |items| => Sweep(a, items[i], clock(i)))
  }

  lemma ItemAnyReport(d: Data, rep: Report, a: string, item: Item, now: int)
    ensures Recon.DoItem(Pass(d, rep), a, item, now).data == Recon.DoItem(Recon.Start(d, a), a, item, now).data
  {
  }

  /** A run of reconciliation steps is the engine's pass over them. */
  lemma {:induction false} RunOfSweeps(s: Mem, bps: int, c: W.Config, a: string, items: seq<Item>, clock: nat -> int)
    ensures MemoryRun(s, bps, c, Sweeps(a, items, clock)).0.world.data == Recon.Run(Recon.Start(s.world.data, a), a, items, clock).data
  {
    if |items| > 0 {
      var n := |items| - 1;
      assert Sweeps(a, items, clock)[..n] == Sweeps(a, items[..n], clock);
      RunOfSweeps(s, bps, c, a, items[..n], clock);
      var p := Recon.Run(Recon.Start(s.world.data, a), a, items[..n], clock);
      ItemAnyReport(p.data, p.rep, a, items[n], clock(n));
    }
  }

  /* ---------- where they differ ---------- */

  /** One save of an intent id under a key. */
  datatype Save = Save(key: string, id: string)

  function MemorySaves(d: Data, saves: seq<Save>): Data {
    if |saves| == 0 then d else PutKey(MemorySaves(d, saves[..|saves| - 1]), saves[|saves| - 1].key, saves[|saves| - 1].id)
  }

  function PostgresSaves(t: P.Tables, saves: seq<Save>): P.Tables {
    if |saves| == 0 then t else P.InsertKey(PostgresSaves(t, saves[..|saves| - 1]), saves[|saves| - 1].key, saves[|saves| - 1].id)
  }

  /** The ids saved under a key, in order. */
  function SavedIds(saves: seq<Save>, key: string): seq<string> {
    if |saves| == 0 then []
    else SavedIds(saves[..|saves| - 1], key) + if saves[|saves| - 1].key == key then [saves[|saves| - 1].id] else []
  }

  /** After any saves the memory holds the last id of a key, and the relational store the first one ever. */
  lemma {:induction false} KeysKept(d: Data, t: P.Tables, saves: seq<Save>, key: string)
    ensures var ids := SavedIds(saves, key);
      && (if |ids| > 0 then FindKey(MemorySaves(d, saves), key) == Some(ids[|ids| - 1])
          else FindKey(MemorySaves(d, saves), key) == FindKey(d, key))
      && (if key in t.keys then key in PostgresSaves(t, saves).keys && PostgresSaves(t, saves).keys[key] == t.keys[key]
          else if |ids| > 0 then key in PostgresSaves(t, saves).keys && PostgresSaves(t, saves).keys[key] == ids[0]
          else key !in PostgresSaves(t, saves).keys)
  {
    if |saves| > 0 {
      KeysKept(d, t, saves[..|saves| - 1], key);
    }
  }

  /** Called directly, the two upserts disagree exactly when an existing row is given another creation time. */
  lemma UpsertDiffers(d: Data, t: P.Tables, p: Payment, wall: int)
    requires Alike(d, t) && Plain(p.accountID) && p.createdAt != 0 && p.updatedAt != 0
    ensures P.Select(P.Upsert(t, p, wall), p.accountID, p.intentID) == NormOption(FindPayment(PutPayment(d, p), p.accountID, p.intentID)) <==>
            var was := FindPayment(d, p.accountID, p.intentID); was.Some? ==> was.value.createdAt == p.createdAt
  {
    assert P.Select(t, p.accountID, p.intentID) == NormOption(FindPayment(d, p.accountID, p.intentID));
  }
}
