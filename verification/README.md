# The payment projection protocol

A donation platform keeps a local projection of what its payment gateway knows. The gateway is the
authority on payment intents and balance transactions. Three writers touch the projection: the service that
starts a donation, the webhook router (deliveries are late, repeated, reordered or lost) and the
reconciliation engine (repeated and concurrent). The dashboard sums the projection. This project models the
gateway, the store, the three writers and the aggregator, and proves what the protocol guarantees over whole
runs, and where a promise of the code's comments does not hold, exactly when it does.

Each component that updates state in place is a class (`Memory`, `Mock`, `Engine`, `Router`, `Service`,
`Aggregator`, `Pg`, `Backend`) whose methods are proved equal to a function on the abstract state; the laws are lemmas
about those functions, over single calls, over runs, and over interleavings.

## Files

| file | content |
|---|---|
| `Domain.dfy` | entities, money, Go's trimming and upper-casing |
| `Store.dfy`, `StorePairs.dfy`, `Accounts.dfy` | `Memory`; its joined keys against a pair-keyed table; what a run for one account shows another |
| `Postgres.dfy`, `PostgresPrograms.dfy` | the relational tables; the service, the router and the engine calling them |
| `TwoStores.dfy`, `TwoSummaries.dfy` | both stores behave alike; exactly when their summaries agree |
| `Gateway.dfy`, `GatewayRuns.dfy`, `GatewayRecords.dfy` | the mock gateway and its invariant; its money over runs; what it records, column by column |
| `Recon.dfy`, `ReconResult.dfy`, `ReconLaws.dfy`, `ReconRecords.dfy` | the engine; a closed form of one pass; accounting, idempotence, convergence; ledger entries, rows and times, column by column |
| `ReconRace.dfy`, `ReconCounts.dfy` | any number of passes cut at every store operation; what their counters add up to |
| `Webhook.dfy`, `WebhookLaws.dfy`, `WebhookNotes.dfy` | the router; de-duplication over runs of deliveries; what callers and donors are told |
| `App.dfy`, `Donations.dfy`, `AppLaws.dfy`, `DonorRace.dfy` | donations and donors; what a donation leaves behind, column by column; idempotency keys, unique donors, fees; overlapping donor calls |
| `Metrics.dfy` | the summaries |
| `World.dfy`, `WorldPass.dfy`, `WorldMoney.dfy` | everything interleaved at every operation, with crashes; an undisturbed pass in it; end-to-end money |
| `WorldStatus.dfy`, `WorldRecords.dfy`, `WorldKeys.dfy` | exactly when interleaving reopens a row, loses a record, or makes two intents for one key |
| `Protocol.dfy`, `ProtocolKeys.dfy` | operations taken whole: metadata round trip, finality, keys |
| `Stripe.dfy`, `StripeRecon.dfy`, `Signature.dfy` | cursor pagination and what the items mean; a pass over such listings; the signature header |

## Main results

- **End-to-end money agreement** (`WorldMoney.EndToEnd`). After any run whatever, cut at every store
  operation, with crashes and lost, repeated and reordered events, one undisturbed pass over a covering window
  makes captured money, success count and failure count equal the gateway's, and requested money and the pending
  count those of the intents that have a row.
- **Concurrent reconciliation** (`ReconRace.ConcurrentEqualsSequential`, `ReconRace.PassesFinish`). For every
  number of passes and every interleaving of their store operations, each pass seeing the intents in its own
  order, the tables end as after one pass, and each new ledger row is reported by exactly one pass.
- **One pass in closed form** (`ReconResult.RunSettles`), and from it convergence from any store, exact
  accounting of all counters, and idempotence.
- **Two stores, one behaviour** (`TwoStores.SameBehaviour`, `TwoSummaries.SameSummaryIff`): the same answers,
  messages and rows over every run, and exactly when the same summaries.
- **Webhook de-duplication over runs** (`WebhookLaws.RepeatsChangeNothing`, `WebhookLaws.AtMostOnce`,
  `WebhookLaws.LastEventWins`).
- **Exactly what interleaving breaks**: a row's status (`WorldStatus.OnlyLateStartReopens`), a row's record
  (`WorldRecords.RecordsChangeIffClash`), a key's single intent (`WorldKeys.SecondIntentIff`), the counters of
  concurrent passes (`ReconCounts.TotalExactIff`), and what an event sends (`WebhookLaws.SentExactlyIff`), each
  as an if-and-only-if over whole runs.
- **The ledger adds up** (`ReconRecords.LedgerAddsUp`, `ReconRecords.PassLedger`): after a covering pass the ledger's
  amounts and fees are the gateway's.
- **Callers are told what happened** (`WebhookNotes.ForwardsTell`, `WebhookNotes.EmailsReport`), over every run of
  deliveries.
- **Metadata round trip** (`Protocol.MetadataRoundTrip`) and **idempotency keys** (`ProtocolKeys.KeyedCalls`,
  `ProtocolKeys.FoundKeyIff`) over runs of whole operations.
- **What one account shows another** (`Accounts.RunStaysInAccount`, `Accounts.DonationBesideIff`,
  `Accounts.DeliveryBesideIff`, `Accounts.SweepBesideIff`).
- **The gateway's money over runs** (`GatewayRuns.NetOverRuns`).

## Where the code and its comments disagree

- "Idempotent" (`internal/recon/recon.go:53`): the tables are, up to update times. The counter `Updated` is
  not: a second pass reports exactly the intents that are both charged and failed
  (`ReconLaws.SecondPassUpdates`), because the first phase sets them to succeeded again.
- "Safe to run concurrently" (`internal/recon/recon.go:53`): among passes, the tables are. The payment part of `Backfilled`
  counts a new row twice exactly when one pass reads it missing while another pass's write of it is pending
  (`ReconCounts.BackfillCounts`, `ReconCounts.TotalExactIff`, `ReconRace.BackfillCountedTwice`).
- The port's comment allows a charge id as `SourceID` (`internal/payment/payment.go:87`). A pass settles an
  intent through a charge only if the charge names the intent itself (`ReconLaws.SucceededIffSourced`,
  `ReconLaws.ChargeIdStrands`). The mock always does (`internal/payment/mock/mock.go:203`).
- A terminal row is not final: a donation's unconditional upsert (`internal/app/service.go:190`) reopens it
  when a webhook was faster, and nothing else does (`WorldStatus.OnlyLateStartReopens`,
  `WorldStatus.LateStartHappens`). The next covering pass repairs it.
- A row's record is not safe either. Each writer reads a row, or misses it, and writes the whole row later. A
  handler or a pass that missed the row can land after the donation's own write and wipe out donor, product, fee,
  source and metadata (`WorldRecords.DonationOverwritten`); both are then done, and no later pass repairs it
  (`Protocol.PassKeepsRows`). Over a run a record changes if and only if a donation's write, or a write decided
  on a missing row, lands on an existing row with another record (`WorldRecords.RecordsChangeIffClash`); once
  that has happened, a write decided on the older record can change it again
  (`WorldRecords.StaleHandlerOverwrites`). `Protocol.DonationIsKept` holds for whole operations only.
- An idempotency key is looked up and saved in separate operations, and the intent is created in between. A call
  creates a second intent for its key if and only if an earlier call created one whose save had not landed when
  this call looked: it was still running (`WorldKeys.OverlappingCallsShareNoKey`), or it had stopped after
  creating and never will save (`WorldKeys.StoppedCallLosesKey`), with no overlap at all.
- Two overlapping `EnsureDonor` calls can create two donors for one email (`DonorRace.TwoDonors`), exactly when
  one saves between the other's lookup and save (`DonorRace.SecondDonorIff`).
- "Our attribution/routing always wins over any collision" (`internal/app/service.go:153-154`): the tenant and
  the routing URL win only if the request names them; otherwise the caller's own `tenant_id` and `webhook_url`
  parameters go through (`App.ReservedKeysWinIff`).
- The gateway charges every transition into succeeded, so a success after a failure charges again
  (`GatewayRuns.ChargedAgain`).
- "Redelivery is safe" (`internal/webhook/router.go:3`) means at most once: an event is marked before it is
  acted on, so a failed email or forward is not retried (`WebhookLaws.FailureIsNotRetried`). What its first
  delivery sends, and nothing else, is what is ever sent (`WebhookLaws.SentExactlyIff`).
- The application fee multiplies in 64 bits (`internal/app/service.go:52`) and is right if and only if the
  product fits (`AppLaws.FeeExactIffFits`).
- "All access is account-scoped" (`internal/store/store.go:3`): payments and donors are, if account ids or row ids
  have no `|` (`Accounts.RunStaysInAccount`, `Store.RowKeyCollision`, `StorePairs.SharedRow`). Idempotency keys,
  event ids and ledger ids are in tables that all accounts share (`internal/store/store.go:64-66`). A key that one
  account's call stored makes another account's call "not found", although that call alone would succeed
  (`ProtocolKeys.KeyOfAnotherAccount`); a call that finds its key is answered if and only if its own account stored
  it (`ProtocolKeys.FoundKeyIff`). Exactly when the shared tables show is stated for donations, deliveries and
  reconciliation steps (`Accounts.DonationBesideIff`, `Accounts.DeliveryBesideIff`, `Accounts.SweepBesideIff`).
- "Fans out over every account" (`internal/recon/recon.go:140`): only tests call `SaveAccount`
  (`internal/store/store.go:93`, `internal/store/postgres.go:139`), so the calls of `ReconcileAll` in the program
  (`cmd/api/main.go:142`, `internal/httpapi/server.go:362`) visit no account unless the accounts table is filled
  some other way.
- `DESIGN.md` section 9 promises that amount mismatches raise alerts and that rows unknown to the gateway are
  flagged. The code does neither; `Flagged` stays zero (`ReconLaws.ExactAccounting`).

## Model

| member | source | states |
|---|---|---|
| Domain.NormaliseIdempotent | internal/money/money.go:20-23 | Normalising a currency code twice is normalising it once, for every string. |
| Domain.NormaliseIs | internal/money/money.go:20-23 | Normalising cuts the blanks off both ends, makes the letters a to z capital, and changes nothing else. |
| Store.JoinKey | internal/store/store.go:82-91 | The accumulating loop builds the parts joined by the separator. |
| Store.RowKeyCollision | internal/store/store.go:82-91 | Two (account, id) pairs share a row if and only if they are equal or one account extends the other across a separator that the ids make up for. |
| Store.RowKeyInjective | internal/store/store.go:82-91 | With separator-free accounts, or separator-free ids, the joined key is injective. |
| Store.Memory.ListAccounts | internal/store/store.go:110-118 | Every account once, in arbitrary order. |
| Store.Memory.SaveAccount | internal/store/store.go:93-98 | Files the account under its own id, so that every listing has each id once. |
| Store.Memory.FindDonorByEmail | internal/store/store.go:137-146 | Any matching donor, and "not found" only if none matches. |
| Store.Memory.UpsertPayment | internal/store/store.go:148-153 | Overwrites the whole row at the joined key and nothing else. |
| Store.Memory.GetPayment | internal/store/store.go:155-163 | Reads the row at the joined key. |
| Store.Memory.ListPayments | internal/store/store.go:165-185 | Exactly the rows that match the filter, each once, in arbitrary order. |
| Store.ListedIff | internal/store/store.go:165-185 | A row of the table is listed exactly if it is the account's, of the product if one is named, and created between the bounds that are set, both included; nothing else is listed. |
| Store.Memory.UpsertLedgerEntry | internal/store/store.go:194-202 | Check-and-insert in one step; tells whether it inserted; an existing entry stays. |
| Store.Memory.MarkEventProcessed | internal/store/store.go:204-212 | Says "first" exactly for ids not marked before. |
| Store.Memory.SaveIdempotent | internal/store/store.go:221-226 | Overwrites the intent id of a key. |
| StorePairs.FindIsPairLookup | internal/store/store.go:127-163 | Reading payments and donors by joined key is reading a table keyed by the pair. |
| StorePairs.PutIsPairUpdate | internal/store/store.go:148-153 | Writing a payment by joined key is writing the pair-keyed table. |
| StorePairs.PutDonorIsPairUpdate | internal/store/store.go:120-125 | The same for donors. |
| StorePairs.SameValues | internal/store/store.go:165-185 | The two tables hold the same payments. |
| StorePairs.ListingIsPairListing | internal/store/store.go:165-185 | Listing by filter gives the same rows from both tables. |
| StorePairs.SameSearch | internal/store/store.go:137-146 | A search by email succeeds in one table if and only if it does in the other. |
| StorePairs.OtherAccountsUntouched | internal/recon/recon.go:54-115 | A pass for one account leaves every row of every other account exactly as it was. |
| StorePairs.SharedRow | internal/store/store.go:82-91 | With a separator in an account id, two accounts share a row: a concrete pair. |
| Accounts.RunStaysInAccount | internal/store/store.go:1-3 | Any run of donations, deliveries and reconciliation steps for one account leaves the payments and donors of every other account unchanged; the shared tables are the next three rows. |
| Accounts.DonationBesideIff | internal/store/store.go:214-226 | After any run for another account a donation is answered as without the run if and only if it does not look up a key the run newly stored (nor misses an outcome that was forced on the mock and that the run used up). |
| Accounts.DeliveryBesideIff | internal/store/store.go:204-212 | After any run for another account a delivery stores, sends and returns the same as without the run if and only if the run has not newly marked its event id, or the delivery would have had no effect. |
| Accounts.SweepBesideIff | internal/store/store.go:194-202 | After any run for another account a reconciliation step leaves its own account's rows as without the run, and reports the same if and only if it is not about a ledger id the run newly stored; that entry then stays the other account's. |
| Gateway.Mock.CreatePaymentIntent | internal/payment/mock/mock.go:157-179 | The new intent and, when confirmed, the forced or default outcome and its charge; nothing on an invalid amount. |
| Gateway.Mock.ApplyOutcome | internal/payment/mock/mock.go:182-194 | Consumes the forced outcome, and records a charge exactly for a success. |
| Gateway.Mock.CreateRefund | internal/payment/mock/mock.go:218-235 | Appends a refund of the given or the full amount; "not found" changes nothing. |
| Gateway.Mock.SucceedIntent | internal/payment/mock/mock.go:341-352 | Charges only on the transition into succeeded; the event carries the intent as it then is. |
| Gateway.Mock.FailIntent | internal/payment/mock/mock.go:355-365 | Fails the intent from any status, with the reason. |
| Gateway.Mock.ListBalanceTransactions | internal/payment/mock/mock.go:310-320 | The transactions of the window, in order. |
| Gateway.Mock.ListPaymentIntents | internal/payment/mock/mock.go:322-332 | The intents of the window, each once, in arbitrary order. |
| Gateway.WindowConcat | internal/payment/mock/mock.go:310-320 | The listing of the window keeps the order of the transactions. |
| Gateway.WindowCounts | internal/payment/mock/mock.go:310-336 | It contains each transaction of the window as often as it occurs, and no other. |
| Gateway.CreateKeepsInv | internal/payment/mock/mock.go:157-206 | Creating keeps the gateway invariant (every succeeded intent has a charge with its id and amount; every charge names a terminal intent with its amount) and takes nothing back. |
| Gateway.SucceedKeepsInv | internal/payment/mock/mock.go:341-352 | Paying keeps the invariant and ends in succeeded. |
| Gateway.FailKeepsInv | internal/payment/mock/mock.go:355-365 | Failing keeps it, also after a success. |
| Gateway.RefundKeepsInv | internal/payment/mock/mock.go:218-235 | Refunding keeps it. |
| GatewayRecords.CreateRecords | internal/payment/mock/mock.go:157-194 | A creation refuses an amount that is not positive or a currency that is not three characters, and else adds one intent with the amount, customer, metadata and time it was given: requested without a confirmation, else the forced outcome, used up, or succeeded. |
| GatewayRecords.MovesStatus | internal/payment/mock/mock.go:341-365 | Paying changes the status of one intent, failing its status and reason, and neither anything else of the intents. |
| GatewayRecords.EventsCarry | internal/payment/mock/mock.go:341-365 | An event names its id, kind and account and carries the intent as it is then. |
| GatewayRecords.RefundAnswers | internal/payment/mock/mock.go:218-235 | A refund answers the amount asked for, or the intent's; it is "not found" exactly for an unknown intent. |
| GatewayRecords.TxnsFromOps | internal/payment/mock/mock.go:157-235 | Over any run transactions are only appended, and each one added was recorded by an operation of the run, with its own id, time, source, amount and no fee: a charge by a payment that succeeded, a negative amount by a refund. |
| GatewayRecords.WindowHas | internal/payment/mock/mock.go:310-336 | A window shows exactly the transactions created between its bounds, both included. |
| GatewayRecords.WindowsMeet | internal/payment/mock/mock.go:310-336 | Windows that meet lose no transaction and show none twice. |
| GatewayRuns.NetOverRuns | internal/payment/mock/mock.go:157-235 | Over any run and in each currency, the net money of an intent is its amount times the number of transitions into succeeded, minus everything refunded in that currency. |
| GatewayRuns.ChargedAgain | internal/payment/mock/mock.go:341-365 | Paying, failing and paying again charges twice. |
| Recon.Engine.Reconcile | internal/recon/recon.go:54-115 | The two loops compute one run over the transactions and then the intents that the gateway lists; a listing that fails ends the pass with nothing done, or with the transactions only; the gateway is unchanged. |
| Recon.Engine.ReconcileTxn | internal/recon/recon.go:62-83 | One turn of the first loop: ledger entry, payment row and both counters; what they hold is `ReconRecords.PassLedger` and `ReconRecords.PassRows`. |
| Recon.Engine.ReconcileIntent | internal/recon/recon.go:90-111 | One turn of the second loop: only failed intents write, and the counters say how. |
| Recon.Engine.EnsureSucceededPayment | internal/recon/recon.go:119-130 | Backfills a missing row, turns any other status to succeeded, and tells which. |
| Recon.Engine.BackfillPayment | internal/recon/recon.go:132-138 | The whole row that is written. |
| Recon.Engine.ReconcileAll | internal/recon/recon.go:142-156 | One pass per known account, chained, in whatever order the store lists them, up to the first error, with the reports so far. |
| ReconLaws.StoppedThenRepeated | internal/recon/recon.go:54-115 | A pass that stopped after its transactions does no harm: the next pass ends where it would have ended without it, up to update times. |
| ReconResult.RunSettles | internal/recon/recon.go:54-115 | A whole pass in closed form: every row is settled by its first charge and its first failure (a failure wins), every ledger entry by the first transaction of its id, and nothing else is touched. |
| ReconResult.RunSettlesIntent | internal/recon/recon.go:54-130 | The same, for the row of one intent. |
| ReconLaws.ExactAccounting | internal/recon/recon.go:62-113 | From any store, also with repeated transaction and source ids: `Scanned` is the number of items, `Backfilled` the growth of both tables, `Flagged` zero. |
| ReconLaws.UpdatedExactly | internal/recon/recon.go:103-111 | `Updated` is the number of distinct failed intents whose row said otherwise, before the pass or because of a charge in the same lists. |
| ReconLaws.SecondPass | internal/recon/recon.go:52-115 | A second pass over the same lists backfills nothing and leaves every table unchanged up to update times. |
| ReconLaws.SecondPassUpdates | internal/recon/recon.go:52-115 | The second pass reports as updated exactly the intents both charged and failed; with none of them it writes nothing at all. |
| ReconLaws.PassConverges | internal/recon/recon.go:54-130 | From any store contents, a covering pass gives every succeeded or failed intent its row with the gateway's status, and leaves every other row alone. |
| ReconLaws.ReconcileConverges | internal/recon/recon.go:54-115 | The same, of the engine's own lists over a covering window. |
| ReconLaws.AllConverge | internal/recon/recon.go:142-156 | In the chain of passes over all accounts no later pass undoes an earlier one: every account passed agrees with the gateway. |
| ReconRecords.PassLedger | internal/recon/recon.go:62-72 | A pass loses and changes no ledger entry, stores every listed transaction, and each new entry has the kind, amount, fee and time of the first listed transaction of its id, under the account. |
| ReconRecords.LedgerAddsUp | internal/recon/recon.go:57-72 | From an empty ledger, a covering pass leaves the gateway's transactions and no other, and amounts and fees each add up to the gateway's in every currency. |
| ReconRecords.RaceLedger | internal/recon/recon.go:52-72 | The same entries after any number of passes at once, whatever the schedule. |
| ReconRecords.PassRows | internal/recon/recon.go:74-138 | What a pass makes of each row: failed if listed as failed, else succeeded if a transaction of kind charge or payment names it, else untouched; which reason it has; an old row keeps its record, and a new one has the amount and time of the item that decided it and nothing else. |
| ReconRecords.RaceRows | internal/recon/recon.go:52-138 | The same rows after any number of passes at once. |
| ReconRecords.PassStamps | internal/recon/recon.go:104-138 | A row a pass changes carries its clock at an item about that intent; a row it does not change keeps its time. |
| ReconLaws.SucceededIffSourced | internal/recon/recon.go:119-130 | An intent not listed as failed ends succeeded if and only if it already was or a charge names it as its source. |
| ReconLaws.ChargeIdStrands | internal/payment/payment.go:82-89 | With a charge id as the source, the intent's row stays requested and a second row is backfilled. |
| ReconRace.RaceSettles | internal/recon/recon.go:54-130 | For every interleaving at store operations, when all passes are done the tables have the closed form of one pass. |
| ReconRace.ConcurrentEqualsSequential | internal/recon/recon.go:52-115 | They equal the tables of one sequential pass up to update times, also for intents both charged and failed; each new ledger row was reported to exactly one pass. |
| ReconRace.ListingsAgree | internal/payment/mock/mock.go:322-332 | Listings of one window that order the intents differently give the same facts, so the theorem covers passes with different listings. |
| ReconRace.PassesFinish | internal/recon/recon.go:62-112 | However passes interleave, each operation leaves less to do: all finish within three operations per listed item. |
| ReconRace.BackfillCountedTwice | internal/recon/recon.go:119-130 | A schedule in which two passes both count one new payment row. |
| ReconCounts.BackfillCounts | internal/recon/recon.go:62-111 | Over every schedule: no row present at launch is counted, every new row is, once all are done nothing else is; a row is counted by two passes if and only if one reads it missing while another's write of it is pending; each pass's counter is the number of entries and rows it counts. |
| ReconCounts.TwiceIffDoubled | internal/recon/recon.go:94-130 | The if-and-only-if for one row, for every schedule, finished or not. |
| ReconCounts.TotalExactIff | internal/recon/recon.go:62-111 | The reports of all passes together never fall short of the growth of the two tables, and equal it if and only if no row is read missing while another pass's write of it is pending. |
| Webhook.Router.HandleEvent | internal/webhook/router.go:55-86 | Marks first, then stores the row, emails a failure and forwards; each error stops what follows. |
| Webhook.Router.ApplyPaymentStatus | internal/webhook/router.go:129-154 | The row that is written, from the row that was read or from the event. |
| Webhook.Router.EmailFailure | internal/webhook/router.go:156-165 | One email when the payment has a known donor, none otherwise. |
| Webhook.Router.ForwardEvent | internal/webhook/router.go:90-127 | The target address, the metadata and the payload of the forward, or none; what they say is `WebhookNotes.ForwardsTell`. |
| Webhook.CopyWithoutURL | internal/webhook/router.go:111-116 | The copying loop keeps every entry except the routing URL. |
| WebhookLaws.RepeatsChangeNothing | internal/webhook/router.go:55-62 | Any sequence of deliveries gives the same tables, emails and forwards as with every repeat of an event id removed. |
| WebhookLaws.FirstSeenIsDuplicateFree | internal/webhook/router.go:55-62 | What is left has each id once and loses none. |
| WebhookLaws.AtMostOnce | internal/webhook/router.go:55-86 | Per event id at most one email and one forward over any run, whether or not the outbound calls work. |
| WebhookLaws.SentExactlyIff | internal/webhook/router.go:55-127 | Over any run an event not processed before causes exactly one attempt to email if and only if its first delivery reports a failure to a known donor, and exactly one attempt to forward if and only if that delivery is terminal with an intent, there is an address, and no failure email of it went wrong. |
| WebhookLaws.HandleOkIff | internal/webhook/router.go:55-86 | A delivery returns without error if and only if its event was processed before, is not terminal, or carries an intent and every attempt to send that it makes works; a terminal event without an intent is an error with nothing attempted. |
| WebhookNotes.ForwardsTell | internal/webhook/router.go:90-127 | Every forward a run adds was caused by the first delivery of its event, went to the event's address or else the configured one, and tells the event, the row's intent, account and money, the metadata without the URL, and the row's status at that moment: failed exactly for a failure, succeeded exactly for a success. |
| WebhookNotes.EmailsReport | internal/webhook/router.go:156-165 | Every email a run adds reports the failed row, at the first delivery of a failure, to the row's own donor. |
| WebhookNotes.FirstDeliveryTells | internal/webhook/router.go:55-127 | The first delivery of an event, when it forwards, adds exactly one forward, and that one is right. |
| WebhookLaws.FailureIsNotRetried | internal/webhook/router.go:55-86 | The failing case of it: a failing notifier loses the forward too, and redelivery does nothing. |
| WebhookLaws.LastEventWins | internal/webhook/router.go:129-154 | Each row ends with status, reason and time of the last first-seen event for it, and keeps everything else. |
| WebhookLaws.FirstEventCreates | internal/webhook/router.go:135-146 | A row the webhooks had to create is made from the first event for it, whatever follows. |
| App.Service.Start | internal/app/service.go:138-203 | Validation, donor, key lookup, creation, row and key, in that order, against one function of the state before; what that leaves is the next three rows. |
| Donations.StoredAsTheGatewaySays | internal/app/service.go:138-203 | A donation that creates: the stored row has the status, amount and metadata of the gateway's intent, with donor, product, fee and times; the status is requested without a payment method, else succeeded or the outcome the gateway was told. |
| Donations.NothingElseStored | internal/app/service.go:187-202 | It writes that one row, and the intent's id under the key if there is one, and nothing else. |
| Donations.TurnedAway | internal/app/service.go:138-152 | A bad amount is refused before an unknown donor is not found; a known key is answered with its intent; none of these changes a table. |
| App.Service.EnsureDonor | internal/app/service.go:69-86 | Returns a matching donor without touching anything, or creates one with the email and name given, under the id of a new customer of the gateway that has them too. |
| App.Overlay | internal/app/service.go:155-163 | The copying loop overlays one map on another in any order. |
| App.ReservedKeysWinIff | internal/app/service.go:59-65 | Account, product and email always win; tenant and routing URL win if and only if the request names them or the caller does not; every other parameter is the caller's. |
| App.MergeMetadata | internal/app/service.go:153-169 | The merging code computes the overlay in that order. |
| AppLaws.OneIntentPerKey | internal/app/service.go:138-203 | Over any sequential run, whoever calls and with anything harmless in between: after a successful call with a key every later call with it changes no table, and if valid returns that intent if its account has it and "not found" otherwise. |
| AppLaws.CreatesOnce | internal/app/service.go:148-202 | Over any sequential run at most one call of all accounts together creates an intent for a key. |
| ProtocolKeys.StepHarmless | internal/webhook/router.go:55-86 | Deliveries, reconciliation steps, donor saves and all moves of the gateway are harmless: they touch no key and drop no intent. |
| ProtocolKeys.EnsureHarmless | internal/app/service.go:69-86 | So is finding or creating a donor. |
| ProtocolKeys.KeyedCalls | internal/app/service.go:138-203 | In any run of whole operations, after a successful call a later call of the same account with the same key succeeds if and only if it is valid, returns the same intent and changes nothing. |
| ProtocolKeys.SomeoneStored | internal/app/service.go:197-201 | A key that is stored was stored by a creating call of the run. |
| ProtocolKeys.FoundKeyIff | internal/app/service.go:148-152 | In any run of whole operations whose intent ids are new, a valid donation that finds its key is answered with the intent of the call that stored the key if and only if that call was for the same account; otherwise it is "not found"; either way it changes nothing. |
| ProtocolKeys.KeyOfAnotherAccount | internal/app/service.go:148-152 | A run in which the call of one account stores a key and a call of another account, which would succeed alone, is "not found". |
| WorldKeys.SecondIntentIff | internal/app/service.go:148-202 | With every operation interleaved and calls stopping anywhere: the intent a call creates for its key is not the first if and only if an earlier call created one whose save had not landed at this call's lookup. |
| WorldKeys.OneIntentIff | internal/app/service.go:148-202 | A run makes at most one intent for a key if and only if no creating call looked while such an intent was unsaved. |
| WorldKeys.StoredIffSaved | internal/app/service.go:148-202 | A lookup misses if and only if no save of the key has landed before it. |
| WorldKeys.PatientCallsShareKey | internal/app/service.go:148-202 | If each call with a key begins only after the earlier ones have finished without being stopped, they make one intent. |
| WorldKeys.FoundKeyAnswers | internal/app/service.go:148-152 | With every operation interleaved and intent ids new, a call that finds its key is answered with an intent if and only if a call of its own account made the stored intent for that key; otherwise a call of another account did, and it is "not found". |
| AppLaws.KeysPersist | internal/app/service.go:148-152 | Whoever calls, every stored key points at an existing intent at every point of a run, with anything harmless in between. |
| AppLaws.DonorsUnique | internal/app/service.go:69-86 | Every reachable store has at most one donor per account and email, so the search order does not matter. |
| AppLaws.SameDonorForever | internal/app/service.go:69-86 | Every later call for the same account and email returns the same donor and creates nothing. |
| DonorRace.SecondDonorIff | internal/app/service.go:69-86 | With the calls interleaved at find, create and save: the donor a call saves is the second for its account and email if and only if another call saved one between this call's lookup and its save. |
| DonorRace.TwoDonors | internal/app/service.go:69-86 | A schedule of two calls that ends with two donors for one email. |
| AppLaws.FeeExactIffFits | internal/app/service.go:51-53 | The 64-bit fee is the mathematical fee if and only if the product fits. |
| Donations.FeeIs | internal/app/service.go:51-53 | For every amount and rate the fee is the product as 64 bits keep it, divided by 10000 and truncated toward zero. |
| AppLaws.FeeWithinAmount | internal/app/service.go:51-53 | With at most 10000 basis points the fee is between zero and the amount, and monotone. |
| AppLaws.SplittingLosesLittle | internal/app/service.go:51-53 | Splitting a donation into n parts loses at most n - 1 minor units of fee and never gains. |
| Metrics.Summarize | internal/metrics/metrics.go:65-87 | The loop computes the totals of the payments in the currency, and they show what the next row says, with the rate of success among those that ended. |
| Metrics.TallyCounts | internal/metrics/metrics.go:65-87 | Attempts and requested are the number and the sum of all payments in the currency, successes and captured those of the succeeded ones, failures the number of the failed ones, pending that of the others. |
| Metrics.Aggregator.AccountSummary | internal/metrics/metrics.go:39-45 | The summary of the rows that match the filter, the same for every order the store may list them in. |
| Metrics.Aggregator.ByProduct | internal/metrics/metrics.go:48-62 | One summary for each product that occurs, over exactly its payments, whatever the listing order. |
| Metrics.OrderIndependent | internal/metrics/metrics.go:65-87 | The totals depend only on the multiset of payments. |
| Metrics.Partition | internal/metrics/metrics.go:65-87 | Attempts are successes plus failures plus pending; captured is at most requested for non-negative amounts. |
| Metrics.ByProductAddsUp | internal/metrics/metrics.go:39-62 | What `ByProduct` returns adds up, in each of the six columns, to what `AccountSummary` returns for the same filter. |
| Postgres.Pg.UpsertPayment | internal/store/postgres.go:214-232 | Replaces every column but the creation time on conflict. |
| Postgres.ReadBack | internal/store/postgres.go:214-313 | After any sequence of upserts a read returns every column of the last row written, currencies normalised and the fee in the payment's currency, with the first creation time; a zero time is the database's clock. |
| Postgres.Pg.UpsertLedgerEntry | internal/store/postgres.go:330-340 | Inserts once, does nothing on conflict, tells which. |
| Postgres.Pg.SaveIdempotent | internal/store/postgres.go:360-364 | Keeps the first intent id of a key. |
| Postgres.Pg.ListPayments | internal/store/postgres.go:254-285 | Exactly the rows that match the filter, as the store returns them, each once, in arbitrary order. |
| PostgresPrograms.Backend.Start | internal/app/service.go:138-203 | The service calling the relational store computes the program that the comparison of the stores runs. |
| PostgresPrograms.Backend.HandleEvent | internal/webhook/router.go:55-86 | So does the router. |
| PostgresPrograms.Backend.ReconcileTxn | internal/recon/recon.go:62-83 | So does the first loop of the engine. |
| PostgresPrograms.Backend.ReconcileIntent | internal/recon/recon.go:90-111 | So does the second loop. |
| TwoStores.UpsertAlike | internal/store/postgres.go:214-232 | A writer that keeps the creation time it read keeps both stores alike. |
| TwoStores.UpsertDiffers | internal/store/postgres.go:219-228 | Called directly, the two upserts disagree if and only if an existing row is given another creation time. |
| TwoStores.KeysKept | internal/store/postgres.go:360-364 | After any saves of a key the memory holds the last intent id and the relational store the first. |
| TwoStores.SameBehaviour | internal/store/postgres.go:214-364 | Over every sequential run of donations, deliveries and reconciliation steps both stores give the same answers, send the same messages and stay alike. |
| TwoStores.SameFromEmpty | internal/store/postgres.go:214-364 | In particular from empty stores. |
| TwoStores.RunOfDeliveries | internal/webhook/router.go:55-86 | A run of deliveries is the router's run of them. |
| TwoStores.RunOfSweeps | internal/recon/recon.go:54-115 | A run of reconciliation steps is the engine's pass over them. |
| TwoSummaries.SameListing | internal/store/postgres.go:254-285 | Over alike stores every listing of an account in memory is, normalised, a listing of the relational store. |
| TwoSummaries.SameSummaryIff | internal/metrics/metrics.go:39-87 | Over alike stores an account's summary is the same if and only if each matching row counts in the reporting currency exactly when its normalised currency does. |
| TwoSummaries.SameDashboards | internal/metrics/metrics.go:39-87 | After any permitted run both stores give an account the same summary and the same summaries by product, if its payments' currencies are normalised. |
| World.Reachable | internal/webhook/router.go:129-154 | In every reachable state of the interleaved system each row names an intent of its account with the exact amount, is terminal only if the intent is, and the gateway invariant holds. |
| WorldPass.AlonePassSettles | internal/recon/recon.go:54-115 | A pass of the interleaved system, cut at every store operation, ends in the closed form of an engine pass over its window when nothing else moves meanwhile. |
| WorldMoney.MoneyAgrees | internal/metrics/metrics.go:1-4 | From any state of that invariant, one covering pass makes the totals equal the gateway's: captured, successes and failures over all intents, requested and pending over those that have a row. |
| WorldMoney.EndToEnd | internal/recon/recon.go:1-3 | After any run whatever, one undisturbed covering pass makes the account summary's captured money and both counts equal the gateway's in every currency, and requested money and the pending count those of the intents that have a row. |
| WorldStatus.OnlyLateStartReopens | internal/app/service.go:190-196 | A terminal row stops being terminal if and only if the step is a donation's own late upsert of a non-terminal status. |
| WorldStatus.LateStartHappens | internal/app/service.go:170-196 | A run that reaches that situation. |
| WorldKeys.OverlappingCallsShareNoKey | internal/app/service.go:148-202 | A run in which two overlapping calls with one key create two intents. |
| WorldKeys.StoppedCallLosesKey | internal/app/service.go:170-202 | A run in which the first call stops after creating and a later one creates a second intent, without overlap. |
| WorldRecords.RecordChangesIff | internal/webhook/router.go:129-154 | A step changes the donor, product, amount, fee, source, creation time or metadata of an existing row if and only if it lands a pending write with another record; it is then a donation's write, one decided on a missing row, or one decided on a record changed since. |
| WorldRecords.StaleIff | internal/recon/recon.go:97-130 | A write decided on a row that was found changes the record if and only if the row has another record by then. |
| WorldRecords.RecordsChangeIffClash | internal/app/service.go:190-196 | Over any run a row's record changes if and only if a donation's write, or a write decided on a missing row, lands on the existing row with another record. |
| WorldRecords.DonationOverwritten | internal/webhook/router.go:133-153 | A run after which the donation and the handler are both done and the row has lost donor, source and metadata. |
| WorldRecords.StaleHandlerOverwrites | internal/webhook/router.go:133-153 | A run in which a write decided on a row that was found overwrites the donation's record. |
| Protocol.Projection | internal/app/service.go:170-196 | With whole operations, rows and gateway intents correspond one to one, with the same amount, metadata and routing. |
| Protocol.MetadataRoundTrip | internal/webhook/router.go:90-127 | Every notification ever forwarded for a donation carries the caller's metadata overlaid with the service's values, without the routing URL, the donated amount, and the status its event says. |
| Protocol.DonationIsKept | internal/app/service.go:190-196 | With whole operations, whatever happens later, the row keeps donor, product, amount, fee, source, creation time and metadata. |
| Protocol.TerminalIsFinal | internal/webhook/router.go:1-3 | With whole operations no step of any run takes a settled row back. |
| Protocol.DeliverySettles | internal/webhook/router.go:129-154 | With whole operations the first delivery of an event gives its intent's row the status it reports, its reason and the time. |
| Protocol.PassKeepsRows | internal/recon/recon.go:54-130 | From any store, a whole pass changes no row's amount, donor, product, fee, creation time, non-empty source or metadata. |
| Stripe.ListBalanceTransactions | internal/payment/stripe/stripe.go:473-503 | Against any server with unique ids the loop terminates with each item up to where the pages stop, once and in order, or with the error of a failed request. |
| Stripe.ListPaymentIntents | internal/payment/stripe/stripe.go:505-524 | The same for intents. |
| Stripe.TxnsRead | internal/payment/stripe/stripe.go:491-497 | Each transaction has its item's id, kind, source and time, and its amount and fee in the normalised currency. |
| Stripe.IntentsRead | internal/payment/stripe/stripe.go:136-160 | Each intent is failed exactly if its item waits for a payment method after an error, succeeded or canceled exactly if the item says so, and requested otherwise; its reason is the error's text; the other columns are the item's. |
| StripeRecon.ListedEndsRight | internal/recon/recon.go:62-111 | A pass over complete listings of the production gateway leaves a row failed if its intent is listed as declined, else succeeded if a charge names it, else untouched. |
| StripeRecon.DeclineReason | internal/recon/recon.go:90-111 | With unique ids the row of a declined intent that was not failed before carries the error's text. |
| Stripe.CompleteIff | internal/payment/stripe/stripe.go:498-501 | The list is complete if and only if every request gets through and no requested page stops short. |
| Stripe.TruthfulIsComplete | internal/payment/stripe/stripe.go:473-524 | Against a server that is never empty early and never denies what remains, the list is complete, whatever the page sizes. |
| Signature.ParseSigHeader | internal/payment/stripe/stripe.go:552-566 | The loop over the parts: the last timestamp, and the signatures in order. |
| Signature.RoundTrip | internal/payment/stripe/stripe.go:552-566 | Parsing a printed header gives back the timestamp and the signatures, which may contain `=`. |
| Signature.OtherSchemesIgnored | internal/payment/stripe/stripe.go:552-566 | Inserting an entry of another scheme, or without `=`, anywhere changes nothing. |
| Signature.BlanksIgnored | internal/payment/stripe/stripe.go:552-566 | Blanks around the parts of a header change nothing. |
| Signature.Verify | internal/payment/stripe/stripe.go:530-550 | Decodes the payload exactly if the header has a timestamp and the expected signature among its own, and is an error otherwise. |
| Signature.OneGoodSignature | internal/payment/stripe/stripe.go:530-566 | Of several printed signatures one good one is enough, and needed. |

## Left out

- Gateway.Mock.SucceedIntent: paying an unknown intent panics in the source; here the intent must exist.
- Gateway.Mock.FailIntent: the same.
- Recon.Engine.Reconcile: errors of the gateway's listings are modelled, errors of the store are not; `Memory` returns none.
- Recon.Engine.ReconcileAll: the same.
- ReconRace.ConcurrentEqualsSequential: the passes see one gateway state and there is no other writer; with other writers and a moving gateway, `World` and `WorldMoney.EndToEnd` apply.
- ReconLaws.AllConverge: account ids are distinct, as `Recon.Engine.ReconcileAll` returns them, and have no separator.
- ReconLaws.PassConverges: only for succeeded and failed intents, since the code skips the others; it corrects statuses, not amounts.
- WorldMoney.EndToEnd: the rows of account `a` are compared with the gateway account `a`, as the service uses one id for both; the covering pass runs undisturbed.
- TwoStores.SameBehaviour: clocks are not zero, accounts have no separator and intent ids are new, as the service and the gateway provide.
- TwoSummaries.SameDashboards: payments' currencies are normalised, as `money.New` makes them; for others `TwoSummaries.SameSummaryIff` says when it holds.
- PostgresPrograms.Backend.HandleEvent: one reading of the database's clock per operation; accounts and the search for a donor by email are not modelled for the relational store.
- Protocol.TerminalIsFinal: each operation is one step; the interleaved case is `WorldStatus.OnlyLateStartReopens`.
- Protocol.DonationIsKept: each operation is one step; the interleaved case is `WorldRecords.RecordsChangeIffClash`.
- AppLaws.KeysPersist: what happens between calls is harmless by hypothesis; `ProtocolKeys.StepHarmless` and `ProtocolKeys.EnsureHarmless` discharge it.
- AppLaws.OneIntentPerKey: the same, and each call is one step; calls that interleave or stop are `WorldKeys.SecondIntentIff`.
- WebhookLaws.SentExactlyIff: counts attempts to email and to forward; whether they arrive is the delivery's own result.
- Crashes are modelled in `World` as tasks that stop between operations; write errors of a store are not. Handlers in `World` end after their write and send nothing.
- The order in which a pass asks the gateway twice is kept in `World` (intents are listed after the first loop), while `ReconRace` fixes both lists beforehand.
- Random ids and clocks are parameters: a fresh id is one the gateway account does not hold, without `|`; the clock of a pass is any function of its progress.
- A nil metadata map and an empty one are the same value, and the sharing of one metadata map between caller and mock is not modelled.
- Times are integers, zero meaning "not set"; the precision and time zone a database keeps are not modelled.
- Amounts are unbounded integers, except the fee product, which wraps at 64 bits.
- Trimming and upper-casing cover ASCII; Unicode blanks and letters are left as they are.
- The client secret, the receipt address and the fee parameter of an intent are not kept by the mock's reads and are left out.
- HTTP, JSON, form encoding, HMAC, SQL text, migrations, connection pooling, telemetry and the email and HTTP senders: external effects; email and forward are an append-only outbox with a result that may fail.
- Subscriptions, cards, products, prices and payment links: plain map inserts and lookups that would only add easy members.
- Features that only `DESIGN.md` describes (outbox table, fan-out, rollups, disputes, flags, alerts): not in the code.
- The success rate is modelled as a real quotient; floating-point rounding is not.
