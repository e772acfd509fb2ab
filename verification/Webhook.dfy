/** The webhook router: verified events applied to the projection, each id once. */
module Webhook {
  import opened Domain
  import opened Store

  /* ---------- rows ---------- */

  /** The row an event writes, given the row that was read. */
  function EventRow(found: Option<Payment>, pi: PaymentIntent, status: Status, now: int): Payment {
    var base :=
      match found
      case Some(p) => p
      case None =>
        Payment(Lookup(pi.metadata, "account_id"), "", Lookup(pi.metadata, "product_id"), pi.id, pi.amount, status,
                Money(0, ""), Source.Webhook, "", now, now,
                if Lookup(pi.metadata, "tenant_id") != "" then map["tenant_id" := pi.metadata["tenant_id"]] else map[]);
    base.(status := status, failureReason := pi.failureReason, updatedAt := now,
          source := if base.source == NoSource then Source.Webhook else base.source)
  }

  function StatusOf(kind: EventType): Option<Status> {
    match kind
    case PaymentSucceeded => Some(Succeeded)
    case PaymentFailed => Some(Failed)
    case OtherEvent(_) => None
  }

  /* ---------- notifications ---------- */

  datatype Notification = Notification(
    event: EventType, intentID: string, accountID: string, tenantID: string,
    status: Status, amount: int, currency: string, metadata: Metadata)

  /** Everything the router tried to send, tagged with the event that caused it. */
  datatype Email = Email(eventID: string, to: string, payment: Payment)
  datatype Forward = Forward(eventID: string, url: string, note: Notification)

  function WithoutURL(m: Metadata): (r: Metadata)
    ensures "webhook_url" !in r
    ensures forall k | k != "webhook_url" :: (k in r <==> k in m) && (k in m ==> r[k] == m[k])
  {
    map k | k in m && k != "webhook_url" :: m[k]
  }

  /** The event's own metadata, or the stored copy when the event has none. */
  function SentMetadata(e: Event, p: Payment): Metadata {
    if e.intent.Some? && |e.intent.value.metadata| > 0 then e.intent.value.metadata else p.metadata
  }

  function TargetURL(defaultURL: string, e: Event): string {
    var own := if e.intent.Some? then Lookup(e.intent.value.metadata, "webhook_url") else "";
    if own == "" then defaultURL else own
  }

  function NoteFor(e: Event, p: Payment): Notification {
    var meta := SentMetadata(e, p);
    Notification(e.kind, p.intentID, p.accountID, Lookup(meta, "tenant_id"), p.status, p.amount.amount, p.amount.currency, WithoutURL(meta))
  }

  /* ---------- one delivery ---------- */

  datatype Config = Config(forwards: bool, defaultURL: string)

  datatype World = World(data: Data, emails: seq<Email>, forwards: seq<Forward>)

  /** One delivery of an event, the clock, and whether the two outbound calls work. */
  datatype Delivery = Delivery(event: Event, now: int, mailOk: bool, forwardOk: bool)

  function EmailFor(d: Data, e: Event, p: Payment): Option<Email> {
    if p.donorID == "" then None
    else match FindDonor(d, p.accountID, p.donorID)
      case None => None
      case Some(donor) => Some(Email(e.id, donor.email, p))
  }

  function ForwardFor(c: Config, e: Event, p: Payment): Option<Forward> {
    if !c.forwards || TargetURL(c.defaultURL, e) == "" then None
    else Some(Forward(e.id, TargetURL(c.defaultURL, e), NoteFor(e, p)))
  }

  function Also<T>(s: seq<T>, x: Option<T>): seq<T> {
    if x.Some? then s + [x.value] else s
  }

  function SendForward(w: World, c: Config, v: Delivery, p: Payment): (World, Result<()>) {
    var f := ForwardFor(c, v.event, p);
    (w.(forwards := Also(w.forwards, f)), if f.Some? && !v.forwardOk then Err(ForwardFailed) else Ok(()))
  }

  /** A terminal event for `pi`: store the row, then email a failure, then forward. */
  function Apply(w: World, c: Config, v: Delivery, pi: PaymentIntent, status: Status): (World, Result<()>) {
    var p := EventRow(FindPayment(w.data, Lookup(pi.metadata, "account_id"), pi.id), pi, status, v.now);
    var stored := w.(data := PutPayment(w.data, p));
    if status == Failed then
      var mail := EmailFor(stored.data, v.event, p);
      var mailed := stored.(emails := Also(stored.emails, mail));
      if mail.Some? && !v.mailOk then (mailed, Err(NotifyFailed)) else SendForward(mailed, c, v, p)
    else SendForward(stored, c, v, p)
  }

  /** `Router.Handle`: the event is marked before anything else happens. */
  function Handle(w: World, c: Config, v: Delivery): (World, Result<()>) {
    var e := v.event;
    if e.id in w.data.events then (w, Ok(()))
    else
      var marked := w.(data := MarkEvent(w.data, e.id));
      match StatusOf(e.kind)
      case None => (marked, Ok(()))
      case Some(status) =>
        if e.intent.None? then (marked, Err(MissingIntent))
        else Apply(marked, c, v, e.intent.value, status)
  }

  function HandleAll(w: World, c: Config, vs: seq<Delivery>): World {
    if |vs| == 0 then w
    else Handle(HandleAll(w, c, vs[..|vs| - 1]), c, vs[|vs| - 1]).0
  }

  /* ---------- the outbound side, as spies ---------- */

  class Outbox {
    var emails: seq<Email>
    var forwards: seq<Forward>

    constructor ()
      ensures emails == [] && forwards == []
    {
      emails, forwards := [], [];
    }

    method PaymentFailed(eventID: string, to: string, p: Payment, ok: bool) returns (r: Result<()>)
      modifies this`emails
      ensures emails == old(emails) + [Email(eventID, to, p)]
      ensures r == if ok then Ok(()) else Err(NotifyFailed)
    {
      emails := emails + [Email(eventID, to, p)];
      r := if ok then Ok(()) else Err(NotifyFailed);
    }

    method Notify(eventID: string, url: string, note: Notification, ok: bool) returns (r: Result<()>)
      modifies this`forwards
      ensures forwards == old(forwards) + [Forward(eventID, url, note)]
      ensures r == if ok then Ok(()) else Err(ForwardFailed)
    {
      forwards := forwards + [Forward(eventID, url, note)];
      r := if ok then Ok(()) else Err(ForwardFailed);
    }
  }

  /** A copy of the map without the routing detail, entry by entry in any order. */
  method CopyWithoutURL(meta: Metadata) returns (out: Metadata)
    ensures out == WithoutURL(meta)
  {
    out := map[];
    var rest := meta.Keys;
    while rest != {}
      invariant rest <= meta.Keys
      invariant out == map k | k in meta && k !in rest && k != "webhook_url" :: meta[k]
      decreases |rest|
    {
      var k :| k in rest;
      rest := rest - {k};
      if k != "webhook_url" {
        out := out[k := meta[k]];
      }
    }
  }

  class Router {
    const store: Memory
    const outbox: Outbox
    const config: Config

    constructor (store: Memory, outbox: Outbox, config: Config)
      ensures this.store == store && this.outbox == outbox && this.config == config
    {
      this.store, this.outbox, this.config := store, outbox, config;
    }

    ghost function View(): World
      reads this, store, outbox
    {
      World(store.View(), outbox.emails, outbox.forwards)
    }

    method HandleEvent(v: Delivery) returns (r: Result<()>)
      requires store.Valid()
      modifies store, outbox
      ensures store.Valid()
      ensures (View(), r) == Handle(old(View()), config, v)
    {
      var e := v.event;
      var first := store.MarkEventProcessed(e.id);
      if !first {
        assert old(store.events) + {e.id} == old(store.events);
        return Ok(());
      }
      match e.kind {
        case PaymentSucceeded =>
          var p := ApplyPaymentStatus(e, Succeeded, v.now);
          if p.Err? {
            return Err(p.error);
          }
          r := ForwardEvent(v, p.value);
        case PaymentFailed =>
          var p := ApplyPaymentStatus(e, Failed, v.now);
          if p.Err? {
            return Err(p.error);
          }
          r := EmailFailure(v, p.value);
          if r.Ok? {
            r := ForwardEvent(v, p.value);
          }
        case OtherEvent(_) =>
          r := Ok(());
      }
    }

    method ApplyPaymentStatus(e: Event, status: Status, now: int) returns (r: Result<Payment>)
      requires store.Valid()
      modifies store
      ensures store.Valid()
      ensures e.intent.None? ==> r == Err(MissingIntent) && store.View() == old(store.View())
      ensures e.intent.Some? ==>
        var pi := e.intent.value;
        var p := EventRow(FindPayment(old(store.View()), Lookup(pi.metadata, "account_id"), pi.id), pi, status, now);
        r == Ok(p) && store.View() == PutPayment(old(store.View()), p)
    {
      if e.intent.None? {
        return Err(MissingIntent);
      }
      var pi := e.intent.value;
      var accountID := Lookup(pi.metadata, "account_id");
      var found := store.GetPayment(accountID, pi.id);
      var p;
      if found.None? {
        p := Payment(accountID, "", Lookup(pi.metadata, "product_id"), pi.id, pi.amount, status, Money(0, ""), Source.Webhook, "", now, now, map[]);
        if Lookup(pi.metadata, "tenant_id") != "" {
          p := p.(metadata := map["tenant_id" := pi.metadata["tenant_id"]]);
        }
      } else {
        p := found.value;
      }
      p := p.(status := status, failureReason := pi.failureReason, updatedAt := now);
      if p.source == NoSource {
        p := p.(source := Source.Webhook);
      }
      store.UpsertPayment(p);
      r := Ok(p);
    }

    method EmailFailure(v: Delivery, p: Payment) returns (r: Result<()>)
      modifies outbox`emails
      ensures var mail := EmailFor(store.View(), v.event, p);
              outbox.emails == Also(old(outbox.emails), mail)
              && r == if mail.Some? && !v.mailOk then Err(NotifyFailed) else Ok(())
    {
      if p.donorID == "" {
        return Ok(());
      }
      var d := store.GetDonor(p.accountID, p.donorID);
      if d.None? {
        return Ok(());
      }
      r := outbox.PaymentFailed(v.event.id, d.value.email, p, v.mailOk);
    }

    method ForwardEvent(v: Delivery, p: Payment) returns (r: Result<()>)
      modifies outbox`forwards
      ensures (World(store.View(), outbox.emails, outbox.forwards), r) ==
              SendForward(World(store.View(), outbox.emails, old(outbox.forwards)), config, v, p)
    {
      if !config.forwards {
        return Ok(());
      }
      var e := v.event;
      var url, meta := "", p.metadata;
      if e.intent.Some? {
        url := Lookup(e.intent.value.metadata, "webhook_url");
        if |e.intent.value.metadata| > 0 {
          meta := e.intent.value.metadata;
        }
      }
      if url == "" {
        url := config.defaultURL;
      }
      if url == "" {
        return Ok(());
      }
      var tenantID := Lookup(meta, "tenant_id");
      var outMeta := CopyWithoutURL(meta);
      r := outbox.Notify(e.id, url,
        Notification(e.kind, p.intentID, p.accountID, tenantID, p.status, p.amount.amount, p.amount.currency, outMeta), v.forwardOk);
    }
  }
}
