/** What a donation leaves behind, column by column: the gateway's intent, the row, the key and the answer. */
module Donations {
  import opened Domain
  import opened Store
  import opened Gateway
  import opened GatewayRecords
  import opened App

  /* ---------- the fee ---------- */

  /** `q` is `x` divided by `y`, the remainder having the sign of `x`. */
  predicate Truncated(x: int, y: int, q: int) {
    if x >= 0 then 0 <= x - q * y < y else -y < x - q * y <= 0
  }

  lemma TruncDivIs(x: int, y: int)
    requires y > 0
    ensures Truncated(x, y, TruncDiv(x, y))
  {
    var n := if x >= 0 then x else -x;
    assert n == y * (n / y) + n % y;
  }

  lemma Wrap64Is(x: int) returns (k: int)
    ensures Wrap64(x) == x + k * TwoTo64 && -TwoTo63 <= Wrap64(x) < TwoTo63
  {
    k := -((x + TwoTo63) / TwoTo64);
    assert x + TwoTo63 == TwoTo64 * ((x + TwoTo63) / TwoTo64) + (x + TwoTo63) % TwoTo64;
  }

  /** For every amount and rate, the fee is the 64-bit product divided by 10000, truncated toward zero. */
  lemma FeeIs(amount: int, bps: int)
    ensures exists k: int :: -TwoTo63 <= amount * bps + k * TwoTo64 < TwoTo63
                             && Truncated(amount * bps + k * TwoTo64, 10000, FeeAmount(amount, bps))
  {
    var k := Wrap64Is(amount * bps);
    TruncDivIs(Wrap64(amount * bps), 10000);
  }

  /* ---------- the stored row ---------- */

  /** The metadata that travels: the caller's parameters, and the values the service adds over them. */
  ghost predicate Merged(m: Metadata, input: Input, donor: Donor) {
    && m.Keys == input.metadata.Keys + {"account_id", "product_id", "email"}
                 + (if input.tenantID != "" then {"tenant_id"} else {}) + (if input.webhookURL != "" then {"webhook_url"} else {})
    && m["account_id"] == input.accountID && m["product_id"] == input.productID && m["email"] == donor.email
    && (input.tenantID != "" ==> m["tenant_id"] == input.tenantID)
    && (input.webhookURL != "" ==> m["webhook_url"] == input.webhookURL)
    && (forall k | k in input.metadata :: k in {"account_id", "product_id", "email"} || (k == "tenant_id" && input.tenantID != "")
                                          || (k == "webhook_url" && input.webhookURL != "") || m[k] == input.metadata[k])
  }

  ghost predicate SameButURL(m: Metadata, stored: Metadata) {
    stored.Keys == m.Keys - {"webhook_url"} && forall k | k in stored :: stored[k] == m[k]
  }

  /** The row of a donation against the intent the gateway made for it: the same amount and, at that moment,
      the same status. */
  ghost predicate RowOfIntent(row: Payment, pi: PaymentIntent, input: Input, bps: int, now: int) {
    && row.intentID == pi.id && row.amount == pi.amount == input.amount && row.status == pi.status
    && row.accountID == input.accountID && row.donorID == input.donorID && row.productID == input.productID
    && row.applicationFee.amount == FeeAmount(input.amount.amount, bps)
    && row.applicationFee.currency == Normalise(input.amount.currency)
    && row.source == Api && row.failureReason == "" && row.createdAt == now && row.updatedAt == now
    && SameButURL(pi.metadata, row.metadata)
  }

  lemma MetadataMerged(input: Input, donor: Donor)
    ensures Merged(IntentMetadata(input, donor), input, donor)
  {
  }

  lemma RowLike(input: Input, donor: Donor, pi: PaymentIntent, bps: int, now: int)
    requires pi.amount == input.amount && pi.metadata == IntentMetadata(input, donor)
    ensures RowOfIntent(DonationRow(input, donor, pi, bps, now), pi, input, bps, now)
  {
  }

  lemma RowWritten(g: Gw, d: Data, bps: int, input: Input, x: Draw, now: int)
    requires Creates(d, input)
    ensures var r := StartDonation(g, d, bps, input, x, now);
            var row, pi := FindPayment(r.data, input.accountID, x.id), r.result;
      && pi.Ok? && row.Some? && RowOfIntent(row.value, pi.value, input, bps, now)
      && x.id in Acct(r.gw, input.accountID).intents && Acct(r.gw, input.accountID).intents[x.id] == pi.value
  {
    var donor := FindDonor(d, input.accountID, input.donorID).value;
    CreateRecords(g, input.accountID, ParamsFor(input, donor), x);
    var pi := CreateIntent(g, input.accountID, ParamsFor(input, donor), x).1.value;
    RowLike(input, donor, pi, bps, now);
    var row := DonationRow(input, donor, pi, bps, now);
    assert FindPayment(PutPayment(d, row), input.accountID, x.id) == Some(row);
  }

  lemma IntentMade(g: Gw, d: Data, bps: int, input: Input, x: Draw, now: int)
    requires Creates(d, input)
    ensures var donor := FindDonor(d, input.accountID, input.donorID).value;
            var r := StartDonation(g, d, bps, input, x, now);
      && r.result.Ok?
      && var pi := r.result.value;
      && pi.id == x.id && pi.created == x.now && pi.customerID == donor.stripeCustomerID && Merged(pi.metadata, input, donor)
      && pi.status == (if input.paymentMethodID == "" then Requested else if g.next.Some? then g.next.value.status else Succeeded)
      && r.gw.next == (if input.paymentMethodID == "" then g.next else None)
  {
    var donor := FindDonor(d, input.accountID, input.donorID).value;
    MetadataMerged(input, donor);
    CreateRecords(g, input.accountID, ParamsFor(input, donor), x);
  }

  /** A donation that creates: the stored row has the status, the amount and the metadata of the gateway's
      intent. Without a payment method that status is requested; with one it is succeeded, unless the gateway
      was told another outcome, and then that. */
  lemma StoredAsTheGatewaySays(g: Gw, d: Data, bps: int, input: Input, x: Draw, now: int)
    requires Creates(d, input)
    ensures var a, r := input.accountID, StartDonation(g, d, bps, input, x, now);
      && FindPayment(r.data, a, x.id).Some? && x.id in Acct(r.gw, a).intents
      && var row, pi := FindPayment(r.data, a, x.id).value, Acct(r.gw, a).intents[x.id];
      && r.result == Ok(pi)
      && RowOfIntent(row, pi, input, bps, now)
      && Merged(pi.metadata, input, FindDonor(d, a, input.donorID).value)
      && row.status == (if input.paymentMethodID == "" then Requested else if g.next.Some? then g.next.value.status else Succeeded)
  {
    RowWritten(g, d, bps, input, x, now);
    IntentMade(g, d, bps, input, x, now);
  }

  /** Only the one row is written, and the key, if there is one, names its intent. */
  lemma NothingElseStored(g: Gw, d: Data, bps: int, input: Input, x: Draw, now: int, k: string)
    requires Creates(d, input)
    ensures var e := StartDonation(g, d, bps, input, x, now).data;
      && (k != RowKey(input.accountID, x.id) ==> Cell(e, k) == Cell(d, k))
      && e == d.(payments := e.payments, idempotency := e.idempotency)
      && (input.key != "" ==> FindKey(e, input.key) == Some(x.id))
      && (k == "" || k != input.key ==> FindKey(e, k) == FindKey(d, k))
  {
  }

  /** What a call that creates nothing answers: a bad amount is refused before an unknown donor, and a known
      key is answered with its intent or, when this account has none, "not found". No table changes. */
  lemma TurnedAway(g: Gw, d: Data, bps: int, input: Input, x: Draw, now: int)
    ensures var r := StartDonation(g, d, bps, input, x, now);
            var donor := FindDonor(d, input.accountID, input.donorID);
      && (r.result == Err(Invalid) <==> input.amount.amount <= 0 || |input.amount.currency| != 3)
      && (!Creates(d, input) ==> r.data == d && (forall b :: Acct(r.gw, b) == Acct(g, b)) && r.gw.next == g.next)
      && (r.result != Err(Invalid) && donor.None? ==> r.result == Err(NotFound))
      && (r.result != Err(Invalid) && donor.Some? && input.key != "" && input.key in d.idempotency ==>
            var id := d.idempotency[input.key];
            r.result == if id in Acct(g, input.accountID).intents then Ok(Acct(g, input.accountID).intents[id]) else Err(NotFound))
      && (r.result != Err(Invalid) && donor.Some? && (input.key == "" || input.key !in d.idempotency) ==> Creates(d, input))
  {
    if Creates(d, input) {
      RowWritten(g, d, bps, input, x, now);
    }
  }
}
