/** What the router tells the caller and the donor, column by column and over whole runs of deliveries. */
module WebhookNotes {
  import opened Domain
  import opened Store
  import opened Webhook
  import opened WebhookLaws

  /** A delivery is the first of its event: not processed before the run, nor earlier in it. */
  predicate First(w: World, vs: seq<Delivery>, i: nat) {
    i < |vs| && vs[i].event.id !in w.data.events + IDs(vs[..i])
  }

  /** What a reader of the map sees: nothing under an absent key. */
  function Read(m: Metadata, k: string): string {
    if k in m then m[k] else ""
  }

  /** The notification speaks of this row after this event: what happened, to which intent and account, with
      the status and the money of the row, and with the event's own metadata if it has any, else the row's. */
  ghost predicate Tells(n: Notification, e: Event, row: Payment)
    requires e.intent.Some?
  {
    var meta := if |e.intent.value.metadata| > 0 then e.intent.value.metadata else row.metadata;
    && n.event == e.kind
    && n.intentID == row.intentID && n.accountID == row.accountID
    && n.status == row.status
    && (n.status == Failed <==> e.kind == PaymentFailed) && (n.status == Succeeded <==> e.kind == PaymentSucceeded)
    && n.amount == row.amount.amount && n.currency == row.amount.currency
    && n.tenantID == Read(meta, "tenant_id")
    && n.metadata.Keys == meta.Keys - {"webhook_url"} && forall k | k in n.metadata :: n.metadata[k] == meta[k]
  }

  /** It goes to the address the event names, or else to the configured one. */
  predicate Addressed(url: string, c: Config, e: Event)
    requires e.intent.Some?
  {
    var own := Read(e.intent.value.metadata, "webhook_url");
    url == (if own != "" then own else c.defaultURL) && url != ""
  }

  /** The key of the row an event is about. */
  function RowOf(e: Event): string
    requires e.intent.Some?
  {
    RowKey(Read(e.intent.value.metadata, "account_id"), e.intent.value.id)
  }

  /** The forward is right for the delivery that left the tables as `d`. */
  ghost predicate RightForward(f: Forward, c: Config, v: Delivery, d: Data) {
    && v.event.intent.Some? && c.forwards && f.eventID == v.event.id && Addressed(f.url, c, v.event)
    && Cell(d, RowOf(v.event)).Some? && Tells(f.note, v.event, Cell(d, RowOf(v.event)).value)
  }

  /** The email reports the failed row to the row's own donor. */
  ghost predicate RightEmail(m: Email, v: Delivery, d: Data) {
    && v.event.intent.Some? && v.event.kind == PaymentFailed && m.eventID == v.event.id
    && Cell(d, RowOf(v.event)) == Some(m.payment) && m.payment.status == Failed
    && m.payment.donorID != "" && FindDonor(d, m.payment.accountID, m.payment.donorID).Some?
    && m.to == FindDonor(d, m.payment.accountID, m.payment.donorID).value.email
  }

  /* ---------- one delivery ---------- */

  lemma NoteTells(e: Event, p: Payment)
    requires e.intent.Some? && StatusOf(e.kind) == Some(p.status)
    ensures Tells(NoteFor(e, p), e, p)
  {
  }

  /** A delivery adds at most one right forward and at most one right email. */
  ghost predicate AddsRight(w: World, c: Config, v: Delivery, after: World) {
    && (after.forwards == w.forwards
        || (|after.forwards| == |w.forwards| + 1 && w.forwards <= after.forwards
            && RightForward(after.forwards[|w.forwards|], c, v, after.data)))
    && (after.emails == w.emails
        || (|after.emails| == |w.emails| + 1 && w.emails <= after.emails
            && RightEmail(after.emails[|w.emails|], v, after.data)))
  }

  lemma ForwardRight(d: Data, c: Config, v: Delivery, pi: PaymentIntent, p: Payment)
    requires v.event.intent == Some(pi) && StatusOf(v.event.kind) == Some(p.status) && Cell(d, RowOf(v.event)) == Some(p)
    ensures ForwardFor(c, v.event, p).Some? ==> RightForward(ForwardFor(c, v.event, p).value, c, v, d)
  {
    NoteTells(v.event, p);
  }

  lemma EmailRight(d: Data, v: Delivery, pi: PaymentIntent, p: Payment)
    requires v.event.intent == Some(pi) && v.event.kind == PaymentFailed && p.status == Failed && Cell(d, RowOf(v.event)) == Some(p)
    ensures EmailFor(d, v.event, p).Some? ==> RightEmail(EmailFor(d, v.event, p).value, v, d)
  {
  }

  lemma ApplyAdds(w: World, c: Config, v: Delivery, pi: PaymentIntent, status: Status)
    requires Keyed(w.data) && v.event.intent == Some(pi) && StatusOf(v.event.kind) == Some(status)
    ensures AddsRight(w, c, v, Apply(w, c, v, pi, status).0)
  {
    var a := Lookup(pi.metadata, "account_id");
    var p := EventRow(FindPayment(w.data, a, pi.id), pi, status, v.now);
    var d := PutPayment(w.data, p);
    EventRowFacts(FindPayment(w.data, a, pi.id), pi, status, v.now);
    assert RowKey(p.accountID, p.intentID) == RowOf(v.event) && Cell(d, RowOf(v.event)) == Some(p);
    ForwardRight(d, c, v, pi, p);
    if status == Failed {
      EmailRight(d, v, pi, p);
    }
  }

  lemma HandleAdds(w: World, c: Config, v: Delivery)
    requires Keyed(w.data)
    ensures AddsRight(w, c, v, Handle(w, c, v).0)
    ensures v.event.id in w.data.events ==> Handle(w, c, v).0 == w
  {
    if v.event.id !in w.data.events && StatusOf(v.event.kind).Some? && v.event.intent.Some? {
      ApplyAdds(w.(data := MarkEvent(w.data, v.event.id)), c, v, v.event.intent.value, StatusOf(v.event.kind).value);
    }
  }

  /* ---------- whole runs ---------- */

  /** Delivery `i` is the first of its event and caused the forward, which is right for the tables as that
      delivery left them. */
  ghost predicate CausedBy(w: World, c: Config, vs: seq<Delivery>, i: nat, f: Forward) {
    First(w, vs, i) && RightForward(f, c, vs[i], HandleAll(w, c, vs[..i + 1]).data)
  }

  ghost predicate MailedBy(w: World, c: Config, vs: seq<Delivery>, i: nat, m: Email) {
    First(w, vs, i) && RightEmail(m, vs[i], HandleAll(w, c, vs[..i + 1]).data)
  }

  lemma InPrefix(w: World, c: Config, vs: seq<Delivery>, n: nat, i: nat)
    requires i < n <= |vs|
    ensures forall f :: CausedBy(w, c, vs[..n], i, f) == CausedBy(w, c, vs, i, f)
    ensures forall m :: MailedBy(w, c, vs[..n], i, m) == MailedBy(w, c, vs, i, m)
  {
    assert vs[..n][..i + 1] == vs[..i + 1] && vs[..n][..i] == vs[..i];
  }

  /** The last delivery of a run, on its own. */
  lemma LastAdds(w: World, c: Config, vs: seq<Delivery>)
    requires Keyed(w.data) && |vs| > 0
    ensures var n := |vs| - 1;
            AddsRight(HandleAll(w, c, vs[..n]), c, vs[n], HandleAll(w, c, vs))
            && (!First(w, vs, n) ==> HandleAll(w, c, vs) == HandleAll(w, c, vs[..n]))
  {
    var n := |vs| - 1;
    LastEventWins(w, c, vs[..n], "");
    EventsAccumulate(w, c, vs[..n]);
    HandleAdds(HandleAll(w, c, vs[..n]), c, vs[n]);
  }

  lemma {:induction false} OnlyAppends(w: World, c: Config, vs: seq<Delivery>)
    requires Keyed(w.data)
    ensures w.forwards <= HandleAll(w, c, vs).forwards && w.emails <= HandleAll(w, c, vs).emails
  {
    if |vs| > 0 {
      OnlyAppends(w, c, vs[..|vs| - 1]);
      LastAdds(w, c, vs);
    }
  }

  lemma LastCaused(w: World, c: Config, vs: seq<Delivery>, k: nat)
    requires Keyed(w.data) && |vs| > 0 && k < |HandleAll(w, c, vs).forwards|
    ensures var n := |vs| - 1;
            var mid, after := HandleAll(w, c, vs[..n]).forwards, HandleAll(w, c, vs).forwards;
            if k < |mid| then after[k] == mid[k] else CausedBy(w, c, vs, n, after[k])
  {
    LastAdds(w, c, vs);
    assert vs[..|vs|] == vs;
  }

  lemma LastMailed(w: World, c: Config, vs: seq<Delivery>, k: nat)
    requires Keyed(w.data) && |vs| > 0 && k < |HandleAll(w, c, vs).emails|
    ensures var n := |vs| - 1;
            var mid, after := HandleAll(w, c, vs[..n]).emails, HandleAll(w, c, vs).emails;
            if k < |mid| then after[k] == mid[k] else MailedBy(w, c, vs, n, after[k])
  {
    LastAdds(w, c, vs);
    assert vs[..|vs|] == vs;
  }

  /** Every forward that a run adds was caused by the first delivery of its event, went to the event's own
      address or else the configured one, and tells what that delivery did: failed for a failure and
      succeeded for a success, which is the row's status at that moment, with the row's money. */
  lemma {:induction false} ForwardsTell(w: World, c: Config, vs: seq<Delivery>, k: nat) returns (i: nat)
    requires Keyed(w.data) && |w.forwards| <= k < |HandleAll(w, c, vs).forwards|
    ensures CausedBy(w, c, vs, i, HandleAll(w, c, vs).forwards[k])
  {
    i := 0;
    if |vs| > 0 {
      var n := |vs| - 1;
      OnlyAppends(w, c, vs[..n]);
      LastCaused(w, c, vs, k);
      if k < |HandleAll(w, c, vs[..n]).forwards| {
        i := ForwardsTell(w, c, vs[..n], k);
        InPrefix(w, c, vs, n, i);
      } else {
        i := n;
      }
    }
  }

  /** Every email that a run adds reports a failure, at its first delivery, to the donor of the failed row. */
  lemma {:induction false} EmailsReport(w: World, c: Config, vs: seq<Delivery>, k: nat) returns (i: nat)
    requires Keyed(w.data) && |w.emails| <= k < |HandleAll(w, c, vs).emails|
    ensures MailedBy(w, c, vs, i, HandleAll(w, c, vs).emails[k])
  {
    i := 0;
    if |vs| > 0 {
      var n := |vs| - 1;
      OnlyAppends(w, c, vs[..n]);
      LastMailed(w, c, vs, k);
      if k < |HandleAll(w, c, vs[..n]).emails| {
        i := EmailsReport(w, c, vs[..n], k);
        InPrefix(w, c, vs, n, i);
      } else {
        i := n;
      }
    }
  }

  lemma CountsOne(w: World, c: Config, vs: seq<Delivery>, i: nat)
    requires Keyed(w.data) && First(w, vs, i) && Forwards(HandleAll(w, c, vs[..i]).data, c, vs[i])
    ensures HandleAll(w, c, vs[..i + 1]).forwards != HandleAll(w, c, vs[..i]).forwards
  {
    SentUpTo(w, c, vs, i);
    SendsNothing(w, c, vs[..i], vs[i].event.id);
  }

  lemma GrowsFrom(w: World, c: Config, vs: seq<Delivery>, i: nat)
    requires Keyed(w.data) && i <= |vs|
    ensures HandleAll(w, c, vs[..i]).forwards <= HandleAll(w, c, vs).forwards
  {
    LastEventWins(w, c, vs[..i], "");
    HandleSplit(w, c, vs, i);
    OnlyAppends(HandleAll(w, c, vs[..i]), c, vs[i..]);
  }

  /** The first delivery of an event, when it forwards at all, adds exactly one forward, and that one is right. */
  lemma FirstDeliveryTells(w: World, c: Config, vs: seq<Delivery>, i: nat)
    requires Keyed(w.data) && First(w, vs, i) && Forwards(HandleAll(w, c, vs[..i]).data, c, vs[i])
    ensures var mid, next := HandleAll(w, c, vs[..i]), HandleAll(w, c, vs[..i + 1]);
      && |next.forwards| == |mid.forwards| + 1 && mid.forwards <= next.forwards <= HandleAll(w, c, vs).forwards
      && RightForward(next.forwards[|mid.forwards|], c, vs[i], next.data)
  {
    assert vs[..i + 1][..i] == vs[..i] && vs[..i + 1][i] == vs[i];
    LastAdds(w, c, vs[..i + 1]);
    CountsOne(w, c, vs, i);
    GrowsFrom(w, c, vs, i + 1);
  }
}
