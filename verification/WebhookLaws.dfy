/** De-duplication over whole runs of deliveries. */
module WebhookLaws {
  import opened Domain
  import opened Store
  import opened Webhook

  function IDs(vs: seq<Delivery>): set<string> {
    set i | 0 <= i < |vs| :: vs[i].event.id
  }

  lemma IDsAppend(vs: seq<Delivery>, v: Delivery)
    ensures IDs(vs + [v]) == IDs(vs) + {v.event.id}
  {
    var all := vs + [v];
    assert all[|vs|] == v && forall i :: 0 <= i < |vs| ==> all[i] == vs[i];
  }

  /** The deliveries with every repeat of an event id, and every id already seen, removed. */
  function FirstSeen(seen: set<string>, vs: seq<Delivery>): seq<Delivery> {
    if |vs| == 0 then []
    else
      var n := |vs| - 1;
      FirstSeen(seen, vs[..n]) + if vs[n].event.id in seen + IDs(vs[..n]) then [] else [vs[n]]
  }

  lemma HandleMarks(w: World, c: Config, v: Delivery)
    ensures Handle(w, c, v).0.data.events == w.data.events + {v.event.id}
  {
  }

  /** Processed ids accumulate; nothing else decides whether an event is new. */
  lemma {:induction false} EventsAccumulate(w: World, c: Config, vs: seq<Delivery>)
    ensures HandleAll(w, c, vs).data.events == w.data.events + IDs(vs)
  {
    if |vs| > 0 {
      var n := |vs| - 1;
      EventsAccumulate(w, c, vs[..n]);
      assert vs == vs[..n] + [vs[n]];
      IDsAppend(vs[..n], vs[n]);
      var before := HandleAll(w, c, vs[..n]);
      HandleMarks(before, c, vs[n]);
    } else {
      assert IDs(vs) == {};
    }
  }

  /** Handling all deliveries is handling the first of each id: the same tables, emails and forwards. */
  lemma {:induction false} RepeatsChangeNothing(w: World, c: Config, vs: seq<Delivery>, seen: set<string>)
    requires seen <= w.data.events
    ensures HandleAll(w, c, vs) == HandleAll(w, c, FirstSeen(seen, vs))
  {
    if |vs| > 0 {
      var n := |vs| - 1;
      var firsts := FirstSeen(seen, vs[..n]);
      RepeatsChangeNothing(w, c, vs[..n], seen);
      EventsAccumulate(w, c, vs[..n]);
      if vs[n].event.id in seen + IDs(vs[..n]) {
        assert vs[n].event.id in HandleAll(w, c, vs[..n]).data.events;
        assert firsts + [] == firsts;
      } else {
        assert (firsts + [vs[n]])[..|firsts|] == firsts;
      }
    }
  }

  lemma {:induction false} FirstSeenIDs(seen: set<string>, vs: seq<Delivery>)
    ensures IDs(FirstSeen(seen, vs)) == IDs(vs) - seen
  {
    if |vs| > 0 {
      var n := |vs| - 1;
      FirstSeenIDs(seen, vs[..n]);
      assert vs == vs[..n] + [vs[n]];
      IDsAppend(vs[..n], vs[n]);
      IDsAppend(FirstSeen(seen, vs[..n]), vs[n]);
      assert FirstSeen(seen, vs[..n]) + [] == FirstSeen(seen, vs[..n]);
    }
  }

  ghost predicate EachOnce(vs: seq<Delivery>) {
    forall i, j :: 0 <= i < j < |vs| ==> vs[i].event.id != vs[j].event.id
  }

  lemma OnceMore(vs: seq<Delivery>, v: Delivery)
    requires EachOnce(vs) && v.event.id !in IDs(vs)
    ensures EachOnce(vs + [v])
  {
    assert forall i :: 0 <= i < |vs| ==> vs[i].event.id in IDs(vs);
  }

  /** What is left after removing repeats has every id once, loses no id, and adds no delivery. */
  lemma {:induction false} FirstSeenIsDuplicateFree(seen: set<string>, vs: seq<Delivery>)
    ensures var r := FirstSeen(seen, vs);
      EachOnce(r) && IDs(r) == IDs(vs) - seen && (forall v | v in r :: v in vs)
  {
    FirstSeenIDs(seen, vs);
    if |vs| > 0 {
      var n := |vs| - 1;
      FirstSeenIsDuplicateFree(seen, vs[..n]);
      assert vs == vs[..n] + [vs[n]];
      var r := FirstSeen(seen, vs[..n]);
      if vs[n].event.id !in seen + IDs(vs[..n]) {
        OnceMore(r, vs[n]);
      } else {
        assert r + [] == r;
      }
    }
  }

  /* ---------- at most one email and one forward ---------- */

  function EmailCount(s: seq<Email>, id: string): nat {
    if |s| == 0 then 0 else EmailCount(s[..|s| - 1], id) + if s[|s| - 1].eventID == id then 1 else 0
  }

  function ForwardCount(s: seq<Forward>, id: string): nat {
    if |s| == 0 then 0 else ForwardCount(s[..|s| - 1], id) + if s[|s| - 1].eventID == id then 1 else 0
  }

  lemma CountAlso(es: seq<Email>, e: Option<Email>, fs: seq<Forward>, f: Option<Forward>, id: string)
    ensures EmailCount(Also(es, e), id) == EmailCount(es, id) + if e.Some? && e.value.eventID == id then 1 else 0
    ensures ForwardCount(Also(fs, f), id) == ForwardCount(fs, id) + if f.Some? && f.value.eventID == id then 1 else 0
  {
    if e.Some? {
      assert Also(es, e)[..|es|] == es;
    }
    if f.Some? {
      assert Also(fs, f)[..|fs|] == fs;
    }
  }

  /** `after` has at most `quota` more emails and forwards for event `id` than `w`. */
  ghost predicate SentAtMost(w: World, after: World, id: string, quota: nat) {
    && EmailCount(w.emails, id) <= EmailCount(after.emails, id) <= EmailCount(w.emails, id) + quota
    && ForwardCount(w.forwards, id) <= ForwardCount(after.forwards, id) <= ForwardCount(w.forwards, id) + quota
  }

  lemma ApplySendsOnce(w: World, c: Config, v: Delivery, pi: PaymentIntent, status: Status, id: string)
    ensures SentAtMost(w, Apply(w, c, v, pi, status).0, id, if id == v.event.id then 1 else 0)
  {
    var p := EventRow(FindPayment(w.data, Lookup(pi.metadata, "account_id"), pi.id), pi, status, v.now);
    CountAlso(w.emails, EmailFor(PutPayment(w.data, p), v.event, p), w.forwards, ForwardFor(c, v.event, p), id);
  }

  lemma HandleSendsOnce(w: World, c: Config, v: Delivery, id: string)
    ensures SentAtMost(w, Handle(w, c, v).0, id, if id == v.event.id && id !in w.data.events then 1 else 0)
  {
    var e := v.event;
    if e.id !in w.data.events && StatusOf(e.kind).Some? && e.intent.Some? {
      ApplySendsOnce(w.(data := MarkEvent(w.data, e.id)), c, v, e.intent.value, StatusOf(e.kind).value, id);
    }
  }

  /** However often an event is delivered, and whether or not the notifier and the forwarder work,
      it causes at most one email and one forward; an id already processed causes none. */
  lemma {:induction false} AtMostOnce(w: World, c: Config, vs: seq<Delivery>, id: string)
    ensures var after := HandleAll(w, c, vs);
      var quota := if id in IDs(vs) && id !in w.data.events then 1 else 0;
      && EmailCount(after.emails, id) <= EmailCount(w.emails, id) + quota
      && ForwardCount(after.forwards, id) <= ForwardCount(w.forwards, id) + quota
  {
    if |vs| > 0 {
      var n := |vs| - 1;
      AtMostOnce(w, c, vs[..n], id);
      EventsAccumulate(w, c, vs[..n]);
      HandleSendsOnce(HandleAll(w, c, vs[..n]), c, vs[n], id);
      assert vs == vs[..n] + [vs[n]];
      IDsAppend(vs[..n], vs[n]);
    }
  }

  /* ---------- exactly when something is sent ---------- */

  /** The event is terminal and carries an intent. */
  predicate Settles(e: Event) {
    StatusOf(e.kind).Some? && e.intent.Some?
  }

  /** The event's payment is stored with a donor that is stored too. */
  predicate DonorKnown(d: Data, e: Event) {
    e.intent.Some? &&
    var row := FindPayment(d, Lookup(e.intent.value.metadata, "account_id"), e.intent.value.id);
    row.Some? && row.value.donorID != "" && FindDonor(d, row.value.accountID, row.value.donorID).Some?
  }

  /** A failure is emailed to a known donor. */
  predicate Emails(d: Data, e: Event) {
    e.kind == PaymentFailed && DonorKnown(d, e)
  }

  /** A terminal event is forwarded to the address there is, unless the failure email went wrong. */
  predicate Forwards(d: Data, c: Config, v: Delivery) {
    Settles(v.event) && c.forwards && TargetURL(c.defaultURL, v.event) != "" && !(Emails(d, v.event) && !v.mailOk)
  }

  lemma ApplySends(w: World, c: Config, v: Delivery, status: Status)
    requires Keyed(w.data) && v.event.intent.Some? && StatusOf(v.event.kind) == Some(status)
    ensures var (after, r) := Apply(w, c, v, v.event.intent.value, status);
      && EmailCount(after.emails, v.event.id) == EmailCount(w.emails, v.event.id) + (if Emails(w.data, v.event) then 1 else 0)
      && ForwardCount(after.forwards, v.event.id) == ForwardCount(w.forwards, v.event.id) + (if Forwards(w.data, c, v) then 1 else 0)
      && (r.Ok? <==> (Emails(w.data, v.event) ==> v.mailOk) && (Forwards(w.data, c, v) ==> v.forwardOk))
  {
    var e, pi := v.event, v.event.intent.value;
    var p := EventRow(FindPayment(w.data, Lookup(pi.metadata, "account_id"), pi.id), pi, status, v.now);
    assert EmailFor(PutPayment(w.data, p), e, p).Some? <==> DonorKnown(w.data, e);
    CountAlso(w.emails, EmailFor(PutPayment(w.data, p), e, p), w.forwards, ForwardFor(c, e, p), e.id);
  }

  lemma HandleSends(w: World, c: Config, v: Delivery)
    requires Keyed(w.data) && v.event.id !in w.data.events
    ensures var (after, r) := Handle(w, c, v);
      && EmailCount(after.emails, v.event.id) == EmailCount(w.emails, v.event.id) + (if Emails(w.data, v.event) then 1 else 0)
      && ForwardCount(after.forwards, v.event.id) == ForwardCount(w.forwards, v.event.id) + (if Forwards(w.data, c, v) then 1 else 0)
  {
    if Settles(v.event) {
      var marked := w.(data := MarkEvent(w.data, v.event.id));
      ApplySends(marked, c, v, StatusOf(v.event.kind).value);
      assert DonorKnown(marked.data, v.event) == DonorKnown(w.data, v.event);
    }
  }

  /** A delivery returns without error if and only if its event was processed before, is not terminal, or
      carries an intent and every attempt to send that it makes works. */
  lemma HandleOkIff(w: World, c: Config, v: Delivery)
    requires Keyed(w.data)
    ensures Handle(w, c, v).1.Ok? <==>
            || v.event.id in w.data.events
            || StatusOf(v.event.kind).None?
            || (v.event.intent.Some? && (Emails(w.data, v.event) ==> v.mailOk) && (Forwards(w.data, c, v) ==> v.forwardOk))
  {
    if v.event.id !in w.data.events && Settles(v.event) {
      var marked := w.(data := MarkEvent(w.data, v.event.id));
      ApplySends(marked, c, v, StatusOf(v.event.kind).value);
      assert DonorKnown(marked.data, v.event) == DonorKnown(w.data, v.event);
    }
  }

  /** Over any run, an event not processed before sends exactly what its first delivery sends: one email if
      and only if that delivery reports a failure to a known donor, and one forward if and only if it is
      terminal, there is an address, and no failure email of it went wrong. Nothing later adds to that. */
  lemma SentExactlyIff(w: World, c: Config, vs: seq<Delivery>, i: nat)
    requires Keyed(w.data) && i < |vs| && vs[i].event.id !in w.data.events + IDs(vs[..i])
    ensures var id, mid, after := vs[i].event.id, HandleAll(w, c, vs[..i]), HandleAll(w, c, vs);
      && EmailCount(after.emails, id) == EmailCount(w.emails, id) + (if Emails(mid.data, vs[i].event) then 1 else 0)
      && ForwardCount(after.forwards, id) == ForwardCount(w.forwards, id) + (if Forwards(mid.data, c, vs[i]) then 1 else 0)
  {
    SentUpTo(w, c, vs, i);
    HandleSplit(w, c, vs, i + 1);
    SendsNothing(HandleAll(w, c, vs[..i + 1]), c, vs[i + 1..], vs[i].event.id);
  }

  /** What has been sent for an event up to its first delivery. */
  lemma SentUpTo(w: World, c: Config, vs: seq<Delivery>, i: nat)
    requires Keyed(w.data) && i < |vs| && vs[i].event.id !in w.data.events + IDs(vs[..i])
    ensures var id, mid, next := vs[i].event.id, HandleAll(w, c, vs[..i]), HandleAll(w, c, vs[..i + 1]);
      && id in next.data.events
      && EmailCount(next.emails, id) == EmailCount(w.emails, id) + (if Emails(mid.data, vs[i].event) then 1 else 0)
      && ForwardCount(next.forwards, id) == ForwardCount(w.forwards, id) + (if Forwards(mid.data, c, vs[i]) then 1 else 0)
  {
    var mid := HandleAll(w, c, vs[..i]);
    SendsNothing(w, c, vs[..i], vs[i].event.id);
    EventsAccumulate(w, c, vs[..i]);
    LastEventWins(w, c, vs[..i], "");
    HandleSends(mid, c, vs[i]);
    HandleMarks(mid, c, vs[i]);
    assert vs[..i + 1][..i] == vs[..i];
  }

  /** Deliveries of other events, or of one already processed, send nothing for it. */
  lemma {:induction false} SendsNothing(w: World, c: Config, vs: seq<Delivery>, id: string)
    requires id in w.data.events || id !in IDs(vs)
    ensures var after := HandleAll(w, c, vs);
      EmailCount(after.emails, id) == EmailCount(w.emails, id) && ForwardCount(after.forwards, id) == ForwardCount(w.forwards, id)
  {
    if |vs| > 0 {
      var n := |vs| - 1;
      assert vs == vs[..n] + [vs[n]];
      IDsAppend(vs[..n], vs[n]);
      SendsNothing(w, c, vs[..n], id);
      EventsAccumulate(w, c, vs[..n]);
      HandleSendsOnce(HandleAll(w, c, vs[..n]), c, vs[n], id);
    }
  }

  lemma {:induction false} HandleSplit(w: World, c: Config, vs: seq<Delivery>, i: nat)
    requires i <= |vs|
    ensures HandleAll(w, c, vs) == HandleAll(HandleAll(w, c, vs[..i]), c, vs[i..])
  {
    if i == |vs| {
      assert vs[..i] == vs && vs[i..] == [];
    } else {
      var n := |vs| - 1;
      HandleSplit(w, c, vs[..n], i);
      assert vs[..n][..i] == vs[..i] && vs[i..][..n - i] == vs[..n][i..];
    }
  }

  /** The guarantee is not exactly once: a failing notifier loses both the email and the forward,
      and redelivery does nothing because the id is already marked. */
  lemma FailureIsNotRetried(w: World, c: Config, v: Delivery, again: Delivery)
    requires v.event.id !in w.data.events && again.event == v.event
    requires v.event.kind == PaymentFailed && v.event.intent.Some? && !v.mailOk
    requires var pi := v.event.intent.value;
             var p := EventRow(FindPayment(w.data, Lookup(pi.metadata, "account_id"), pi.id), pi, Failed, v.now);
             EmailFor(w.data, v.event, p).Some?
    ensures HandleAll(w, c, [v, again]).forwards == w.forwards
    ensures Handle(w, c, v).1 == Err(NotifyFailed)
    ensures Handle(Handle(w, c, v).0, c, again) == (Handle(w, c, v).0, Ok(()))
  {
    assert [v, again][..1] == [v];
    assert [v][..0] == [];
    assert HandleAll(w, c, []) == w;
  }

  /* ---------- the status an intent ends with ---------- */

  /** The row key an event applies to, if it applies to one. */
  function AppliesTo(e: Event): Option<string> {
    if StatusOf(e.kind).Some? && e.intent.Some? then
      Some(RowKey(Lookup(e.intent.value.metadata, "account_id"), e.intent.value.id))
    else None
  }

  /** The last delivery that applies to row `k`. */
  function LastFor(vs: seq<Delivery>, k: string): (r: Option<Delivery>)
    ensures r.Some? ==> r.value in vs && AppliesTo(r.value.event) == Some(k)
  {
    if |vs| == 0 then None
    else
      var n := |vs| - 1;
      if AppliesTo(vs[n].event) == Some(k) then Some(vs[n]) else LastFor(vs[..n], k)
  }

  lemma LastAppend(vs: seq<Delivery>, v: Delivery, k: string)
    ensures LastFor(vs + [v], k) == if AppliesTo(v.event) == Some(k) then Some(v) else LastFor(vs, k)
  {
    assert (vs + [v])[..|vs|] == vs;
  }

  /** The parts of a row that no event changes; an empty source is filled in once. */
  ghost predicate SameRecord(p: Payment, q: Payment) {
    && q == p.(status := q.status, failureReason := q.failureReason, updatedAt := q.updatedAt, source := q.source)
    && (p.source != NoSource ==> q.source == p.source)
  }

  /** What one delivery does to the tables. */
  lemma HandleData(w: World, c: Config, v: Delivery)
    ensures var e := v.event;
      Handle(w, c, v).0.data ==
        if e.id in w.data.events then w.data
        else if AppliesTo(e).None? then MarkEvent(w.data, e.id)
        else
          var pi := e.intent.value;
          PutPayment(MarkEvent(w.data, e.id),
            EventRow(FindPayment(w.data, Lookup(pi.metadata, "account_id"), pi.id), pi, StatusOf(e.kind).value, v.now))
  {
  }

  lemma EventRowFacts(found: Option<Payment>, pi: PaymentIntent, status: Status, now: int)
    ensures var p := EventRow(found, pi, status, now);
      && p.status == status && p.failureReason == pi.failureReason && p.updatedAt == now && p.source != NoSource
      && (found.Some? ==> SameRecord(found.value, p))
      && (found.None? ==> p.accountID == Lookup(pi.metadata, "account_id") && p.intentID == pi.id)
  {
  }

  /** An event applies to row `k` for the first time. */
  predicate Hits(w: World, v: Delivery, k: string) {
    v.event.id !in w.data.events && AppliesTo(v.event) == Some(k)
  }

  lemma HandleRow(w: World, c: Config, v: Delivery, k: string)
    requires Keyed(w.data)
    ensures var after := Handle(w, c, v).0.data;
      && Keyed(after)
      && (Hits(w, v, k) ==>
            && Cell(after, k).Some?
            && Cell(after, k).value.status == StatusOf(v.event.kind).value
            && Cell(after, k).value.failureReason == v.event.intent.value.failureReason
            && Cell(after, k).value.updatedAt == v.now
            && (Cell(w.data, k).Some? ==> SameRecord(Cell(w.data, k).value, Cell(after, k).value)))
      && (!Hits(w, v, k) ==> Cell(after, k) == Cell(w.data, k))
  {
    HandleData(w, c, v);
    var e := v.event;
    if e.id !in w.data.events && AppliesTo(e).Some? {
      var pi := e.intent.value;
      EventRowFacts(FindPayment(w.data, Lookup(pi.metadata, "account_id"), pi.id), pi, StatusOf(e.kind).value, v.now);
    }
  }

  /** Each row ends with the status, reason and time of the last first-seen event that applies to it,
      and keeps its amount, donor, product, fee, creation time, metadata and non-empty source. */
  lemma {:induction false} LastEventWins(w: World, c: Config, vs: seq<Delivery>, k: string)
    requires Keyed(w.data)
    ensures var after := HandleAll(w, c, vs).data;
            var last := LastFor(FirstSeen(w.data.events, vs), k);
      && Keyed(after)
      && (last.None? ==> Cell(after, k) == Cell(w.data, k))
      && (last.Some? ==>
            && Cell(after, k).Some?
            && Cell(after, k).value.status == StatusOf(last.value.event.kind).value
            && Cell(after, k).value.failureReason == last.value.event.intent.value.failureReason
            && Cell(after, k).value.updatedAt == last.value.now)
      && (Cell(w.data, k).Some? ==> Cell(after, k).Some? && SameRecord(Cell(w.data, k).value, Cell(after, k).value))
  {
    if |vs| > 0 {
      var n := |vs| - 1;
      LastEventWins(w, c, vs[..n], k);
      EventsAccumulate(w, c, vs[..n]);
      HandleRow(HandleAll(w, c, vs[..n]), c, vs[n], k);
      var firsts := FirstSeen(w.data.events, vs[..n]);
      LastAppend(firsts, vs[n], k);
      assert firsts + [] == firsts;
    }
  }

  /** The first delivery that applies to row `k`. */
  function FirstFor(vs: seq<Delivery>, k: string): (r: Option<Delivery>)
    ensures r.Some? ==> r.value in vs && AppliesTo(r.value.event) == Some(k)
    ensures r.None? <==> LastFor(vs, k).None?
  {
    if |vs| == 0 then None
    else
      var n := |vs| - 1;
      var r := FirstFor(vs[..n], k);
      if r.None? && AppliesTo(vs[n].event) == Some(k) then Some(vs[n]) else r
  }

  /** What a row that only webhooks know keeps from the event that created it. */
  ghost predicate MadeFrom(p: Payment, v: Delivery)
    requires v.event.intent.Some?
  {
    var pi := v.event.intent.value;
    && p.accountID == Lookup(pi.metadata, "account_id") && p.intentID == pi.id && p.amount == pi.amount
    && p.productID == Lookup(pi.metadata, "product_id")
    && Lookup(p.metadata, "tenant_id") == Lookup(pi.metadata, "tenant_id") && p.metadata.Keys <= {"tenant_id"}
    && p.donorID == "" && p.applicationFee.amount == 0 && p.source == Source.Webhook && p.createdAt == v.now
  }

  lemma NewRow(w: World, c: Config, v: Delivery, k: string)
    requires Keyed(w.data) && Hits(w, v, k) && Cell(w.data, k).None?
    ensures Cell(Handle(w, c, v).0.data, k).Some? && MadeFrom(Cell(Handle(w, c, v).0.data, k).value, v)
  {
    HandleData(w, c, v);
    var pi := v.event.intent.value;
    EventRowFacts(None, pi, StatusOf(v.event.kind).value, v.now);
  }

  /** A row the webhooks had to create is made from the first event for it, whatever comes after. */
  lemma {:induction false} FirstEventCreates(w: World, c: Config, vs: seq<Delivery>, k: string)
    requires Keyed(w.data) && Cell(w.data, k).None?
    ensures var row := Cell(HandleAll(w, c, vs).data, k);
            var first := FirstFor(FirstSeen(w.data.events, vs), k);
      && (first.None? ==> row.None?)
      && (first.Some? ==> row.Some? && MadeFrom(row.value, first.value))
  {
    if |vs| > 0 {
      var n := |vs| - 1;
      var mid := HandleAll(w, c, vs[..n]);
      var firsts := FirstSeen(w.data.events, vs[..n]);
      FirstEventCreates(w, c, vs[..n], k);
      LastEventWins(w, c, vs[..n], k);
      EventsAccumulate(w, c, vs[..n]);
      HandleRow(mid, c, vs[n], k);
      FirstAppend(firsts, vs[n], k);
      assert firsts + [] == firsts;
      if Hits(mid, vs[n], k) && Cell(mid.data, k).None? {
        NewRow(mid, c, vs[n], k);
      }
    }
  }

  lemma FirstAppend(vs: seq<Delivery>, v: Delivery, k: string)
    ensures FirstFor(vs + [v], k) ==
            if FirstFor(vs, k).None? && AppliesTo(v.event) == Some(k) then Some(v) else FirstFor(vs, k)
  {
    assert (vs + [v])[..|vs|] == vs;
  }
}
