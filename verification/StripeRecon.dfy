/** A pass over what the production gateway lists: declined intents and charges reach the projection. */
module StripeRecon {
  import opened Domain
  import opened Store
  import opened Recon
  import opened ReconLaws
  import opened ReconRecords
  import opened Stripe

  /** Some listed item is intent `id`, declined. */
  ghost predicate DeclinedAt(ds: seq<RawIntent>, j: nat, id: string) {
    j < |ds| && ds[j].id == id && Declined(ds[j])
  }

  /** Some listed item is a charge of intent `id`. */
  ghost predicate ChargedAt(ts: seq<RawTxn>, i: nat, id: string) {
    i < |ts| && ts[i].source == id && (ts[i].kind == "charge" || ts[i].kind == "payment")
  }

  lemma FailIffDeclined(ts: seq<RawTxn>, ds: seq<RawIntent>, id: string)
    ensures HasFail(Items(ToTxns(ts), ToIntents(ds)), id) <==> exists j: nat :: DeclinedAt(ds, j, id)
  {
    var items := Items(ToTxns(ts), ToIntents(ds));
    IntentsRead(ds);
    if k: nat :| FailAt(items, k, id) {
      assert DeclinedAt(ds, k - |ts|, id);
    }
    if j: nat :| DeclinedAt(ds, j, id) {
      assert items[|ts| + j] == Intent(ToIntents(ds)[j]) && ReadsIntent(ToIntents(ds)[j], ds[j]);
      assert FailAt(items, |ts| + j, id);
    }
  }

  lemma ChargeIffCharged(ts: seq<RawTxn>, ds: seq<RawIntent>, id: string)
    ensures HasCharge(Items(ToTxns(ts), ToIntents(ds)), id) <==> exists i: nat :: ChargedAt(ts, i, id)
  {
    var items := Items(ToTxns(ts), ToIntents(ds));
    TxnsRead(ts);
    if k: nat :| ChargeAt(items, k, id) {
      assert ChargedAt(ts, k, id);
    }
    if i: nat :| ChargedAt(ts, i, id) {
      assert items[i] == Txn(ToTxns(ts)[i]) && ReadsTxn(ToTxns(ts)[i], ts[i]);
      assert ChargeAt(items, i, id);
    }
  }

  /** From any store, a pass over complete listings of the production gateway leaves an intent's row failed if
      an item says it was declined, else succeeded if an item charges it, and else untouched up to its time. */
  lemma ListedEndsRight(srvT: Server<RawTxn>, srvI: Server<RawIntent>, d: Data, a: string, clock: nat -> int, id: string)
    requires Keyed(d) && Reached(srvT, 0) == Some(|srvT.list|) && Reached(srvI, 0) == Some(|srvI.list|)
    ensures var items := Items(ToTxns(srvT.list), ToIntents(srvI.list));
            var was, row := FindPayment(d, a, id), FindPayment(Run(Start(d, a), a, items, clock).data, a, id);
      if exists j: nat :: DeclinedAt(srvI.list, j, id) then row.Some? && row.value.status == Failed
      else if exists i: nat :: ChargedAt(srvT.list, i, id) then row.Some? && row.value.status == Succeeded
      else (row.Some? <==> was.Some?) && (row.Some? ==> row.value == was.value.(updatedAt := row.value.updatedAt))
  {
    FailIffDeclined(srvT.list, srvI.list, id);
    ChargeIffCharged(srvT.list, srvI.list, id);
    ItemsOrdered(ToTxns(srvT.list), ToIntents(srvI.list));
    PassRows(d, a, Items(ToTxns(srvT.list), ToIntents(srvI.list)), clock, id);
  }

  lemma FailureRead(ts: seq<RawTxn>, ds: seq<RawIntent>, k: nat, id: string) returns (j: nat)
    requires FailAt(Items(ToTxns(ts), ToIntents(ds)), k, id)
    ensures DeclinedAt(ds, j, id) && Items(ToTxns(ts), ToIntents(ds))[k].pi.failureReason == ds[j].lastError.value
  {
    IntentsRead(ds);
    j := k - |ts|;
    assert Items(ToTxns(ts), ToIntents(ds))[k] == Intent(ToIntents(ds)[j]) && ReadsIntent(ToIntents(ds)[j], ds[j]);
  }

  /** With unique ids, the row of a declined intent that was not failed before carries the error's text. */
  lemma DeclineReason(ts: seq<RawTxn>, ds: seq<RawIntent>, d: Data, a: string, clock: nat -> int, j: nat)
    requires Keyed(d) && j < |ds| && Declined(ds[j]) && forall i, k :: 0 <= i < k < |ds| ==> ds[i].id != ds[k].id
    requires var was := FindPayment(d, a, ds[j].id); was.Some? ==> was.value.status != Failed
    ensures var row := FindPayment(Run(Start(d, a), a, Items(ToTxns(ts), ToIntents(ds)), clock).data, a, ds[j].id);
            row.Some? && row.value.status == Failed && row.value.failureReason == ds[j].lastError.value
  {
    var items, id := Items(ToTxns(ts), ToIntents(ds)), ds[j].id;
    assert DeclinedAt(ds, j, id);
    FailIffDeclined(ts, ds, id);
    ItemsOrdered(ToTxns(ts), ToIntents(ds));
    PassRows(d, a, items, clock, id);
    var row := FindPayment(Run(Start(d, a), a, items, clock).data, a, id).value;
    assert ReasonIs(FindPayment(d, a, id), row, items, id);
    var i: nat :| FirstFailure(items, i, id) && row.failureReason == items[i].pi.failureReason;
    var k := FailureRead(ts, ds, i, id);
  }
}
