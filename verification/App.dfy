/** The donation use-cases: idempotency, metadata precedence, application fee, donors. */
module App {
  import opened Domain
  import opened Store
  import opened Gateway
  import opened Webhook

  /* ---------- the application fee ---------- */

  const TwoTo63 := 0x8000_0000_0000_0000
  const TwoTo64 := 0x1_0000_0000_0000_0000

  /** A product as Go's int64 keeps it. */
  function Wrap64(x: int): int {
    (x + TwoTo63) % TwoTo64 - TwoTo63
  }

  /** Go's division truncates toward zero. */
  function TruncDiv(x: int, y: int): int
    requires y > 0
  {
    if x >= 0 then x / y else -((-x) / y)
  }

  function FeeAmount(amount: int, bps: int): int {
    TruncDiv(Wrap64(amount * bps), 10000)
  }

  function Fee(amount: Money, bps: int): Money {
    NewMoney(FeeAmount(amount.amount, bps), amount.currency)
  }

  /* ---------- starting a donation ---------- */

  datatype Input = Input(
    accountID: string, tenantID: string, donorID: string, productID: string, amount: Money,
    paymentMethodID: string, key: string, webhookURL: string, metadata: Metadata)

  function Attribution(accountID: string, tenantID: string): Metadata {
    var m := map["account_id" := accountID];
    if tenantID != "" then m["tenant_id" := tenantID] else m
  }

  /** The caller's parameters first, then the reserved keys, which win. */
  function IntentMetadata(input: Input, donor: Donor): Metadata {
    var m := (input.metadata + Attribution(input.accountID, input.tenantID))["product_id" := input.productID]["email" := donor.email];
    if input.webhookURL != "" then m["webhook_url" := input.webhookURL] else m
  }

  /** The reserved keys win whatever the caller supplied. */
  lemma MetadataRoutes(input: Input, donor: Donor)
    ensures Lookup(IntentMetadata(input, donor), "account_id") == input.accountID
    ensures Lookup(IntentMetadata(input, donor), "product_id") == input.productID
    ensures Lookup(IntentMetadata(input, donor), "email") == donor.email
  {
  }

  /** Account, product and email always win. The tenant and the routing URL win exactly if the request names
      one or the caller's parameters do not; every other parameter is the caller's. */
  lemma ReservedKeysWinIff(input: Input, donor: Donor, k: string)
    ensures var m := IntentMetadata(input, donor);
      && Lookup(m, "account_id") == input.accountID && Lookup(m, "product_id") == input.productID && Lookup(m, "email") == donor.email
      && (Lookup(m, "tenant_id") == input.tenantID <==> input.tenantID != "" || Lookup(input.metadata, "tenant_id") == "")
      && (Lookup(m, "webhook_url") == input.webhookURL <==> input.webhookURL != "" || Lookup(input.metadata, "webhook_url") == "")
      && (k !in {"account_id", "product_id", "email", "tenant_id", "webhook_url"} ==>
            (k in m <==> k in input.metadata) && Lookup(m, k) == Lookup(input.metadata, k))
  {
  }

  function ParamsFor(input: Input, donor: Donor): IntentParams {
    IntentParams(input.amount, donor.stripeCustomerID, input.paymentMethodID != "", IntentMetadata(input, donor))
  }

  function DonationRow(input: Input, donor: Donor, pi: PaymentIntent, bps: int, now: int): Payment {
    Payment(input.accountID, input.donorID, input.productID, pi.id, input.amount, pi.status, Fee(input.amount, bps), Api, "",
            now, now, WithoutURL(IntentMetadata(input, donor)))
  }

  predicate Hit(d: Data, input: Input) {
    input.key != "" && FindKey(d, input.key).Some?
  }

  /** A valid call whose key is not yet known: the only case that reaches the gateway's create. */
  predicate Creates(d: Data, input: Input) {
    ValidAmount(input.amount) && FindDonor(d, input.accountID, input.donorID).Some? && !Hit(d, input)
  }

  datatype Started = Started(gw: Gw, data: Data, result: Result<PaymentIntent>)

  function StartDonation(g: Gw, d: Data, bps: int, input: Input, x: Draw, now: int): Started {
    var a := input.accountID;
    if !ValidAmount(input.amount) then Started(g, d, Err(Invalid))
    else match FindDonor(d, a, input.donorID)
      case None => Started(g, d, Err(NotFound))
      case Some(donor) =>
        if Hit(d, input) then Started(SetAcct(g, a, Acct(g, a)), d, GetIntent(g, a, FindKey(d, input.key).value))
        else
          var (h, r) := CreateIntent(g, a, ParamsFor(input, donor), x);
          match r
          case Err(e) => Started(h, d, Err(e))
          case Ok(pi) =>
            var stored := PutPayment(d, DonationRow(input, donor, pi, bps, now));
            Started(h, if input.key != "" then PutKey(stored, input.key, pi.id) else stored, r)
  }

  /** `dst` overwritten with `src`, entry by entry in any order. */
  method Overlay(dst: Metadata, src: Metadata) returns (out: Metadata)
    ensures out == dst + src
  {
    out := dst;
    var rest := src.Keys;
    while rest != {}
      invariant rest <= src.Keys
      invariant out == dst + map k | k in src && k !in rest :: src[k]
      decreases |rest|
    {
      var k :| k in rest;
      ghost var done := map j | j in src && j !in rest :: src[j];
      rest := rest - {k};
      assert (map j | j in src && j !in rest :: src[j]) == done[k := src[k]];
      out := out[k := src[k]];
    }
    assert (map k | k in src && k !in rest :: src[k]) == src;
  }

  /** The parameters and the reserved keys of one donation, in the order that lets the reserved keys win. */
  method MergeMetadata(input: Input, donor: Donor) returns (meta: Metadata)
    ensures meta == IntentMetadata(input, donor)
  {
    meta := Overlay(map[], input.metadata);
    assert meta == input.metadata;
    meta := Overlay(meta, Attribution(input.accountID, input.tenantID));
    meta := meta["product_id" := input.productID]["email" := donor.email];
    if input.webhookURL != "" {
      meta := meta["webhook_url" := input.webhookURL];
    }
  }

  class Service {
    const gw: Mock
    const store: Memory
    const feeBps: int

    constructor (gw: Mock, store: Memory, feeBps: int)
      ensures this.gw == gw && this.store == store && this.feeBps == feeBps
    {
      this.gw, this.store, this.feeBps := gw, store, feeBps;
    }

    method Start(input: Input, x: Draw, now: int) returns (r: Result<PaymentIntent>)
      requires store.Valid()
      modifies gw, store
      ensures store.Valid()
      ensures Started(gw.View(), store.View(), r) == StartDonation(old(gw.View()), old(store.View()), feeBps, input, x, now)
    {
      if !ValidAmount(input.amount) {
        return Err(Invalid);
      }
      var found := store.GetDonor(input.accountID, input.donorID);
      if found.None? {
        return Err(NotFound);
      }
      var donor := found.value;
      if input.key != "" {
        var known := store.GetIdempotent(input.key);
        if known.Some? {
          r := gw.GetPaymentIntent(input.accountID, known.value);
          return;
        }
      }
      var meta := MergeMetadata(input, donor);
      r := gw.CreatePaymentIntent(input.accountID, IntentParams(input.amount, donor.stripeCustomerID, input.paymentMethodID != "", meta), x);
      if r.Err? {
        return;
      }
      var localMeta := CopyWithoutURL(meta);
      store.UpsertPayment(Payment(input.accountID, input.donorID, input.productID, r.value.id, input.amount, r.value.status,
                                  Fee(input.amount, feeBps), Api, "", now, now, localMeta));
      if input.key != "" {
        store.SaveIdempotent(input.key, r.value.id);
      }
    }

    method EnsureDonor(accountID: string, email: string, name: string, freshID: string) returns (d: Donor)
      requires store.Valid()
      modifies gw, store
      ensures store.Valid()
      ensures EnsureStep(old(store.View()), store.View(), accountID, email, name, freshID, d)
      ensures forall a :: Acct(gw.View(), a).intents == old(Acct(gw.View(), a).intents)
      ensures d.accountID == accountID && d.email == email
      ensures (forall k | k in old(store.donors) :: !MatchesDonor(old(store.donors)[k], accountID, email)) ==>
              var x := old(Acct(gw.View(), accountID));
              && d.id == d.stripeCustomerID == freshID && d.name == name
              && gw.View() == SetAcct(old(gw.View()), accountID, x.(customers := x.customers[d.stripeCustomerID := Customer(freshID, email, name)]))
      ensures (exists k :: k in old(store.donors) && MatchesDonor(old(store.donors)[k], accountID, email)) ==> gw.View() == old(gw.View())
    {
      var found := store.FindDonorByEmail(accountID, email);
      if found.Some? {
        return found.value;
      }
      var cus := gw.CreateCustomer(accountID, email, name, freshID);
      d := Donor(cus.id, accountID, email, name, cus.id);
      store.SaveDonor(d);
    }
  }

  predicate MatchesDonor(d: Donor, accountID: string, email: string) {
    d.accountID == accountID && d.email == email
  }

  /** `EnsureDonor` as a relation: any matching donor may be returned, and only a miss creates one. */
  ghost predicate EnsureStep(d: Data, e: Data, accountID: string, email: string, name: string, freshID: string, r: Donor) {
    if exists k :: k in d.donors && MatchesDonor(d.donors[k], accountID, email) then
      e == d && exists k :: k in d.donors && d.donors[k] == r && MatchesDonor(r, accountID, email)
    else
      r == Donor(freshID, accountID, email, name, freshID) && e == PutDonor(d, r)
  }
}
