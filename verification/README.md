# Payment accounting of webtorrent-ilp, modelled in Dafny

webtorrent-ilp puts BitTorrent-style data transfer behind Interledger
micropayments. A peer that requests data is charged against a credit
balance it tops up by paying. A peer we download from is paid when it asks,
unless the decider sees that we have paid it without receiving anything.
This project models the accounting that makes those decisions, in both
generations the repository contains:

- `WtIlp` (`src/index.js`): the `WebTorrentIlp` client. It keeps
  `peerBalances`, the `peerWires` registry filled by handshakes, and each
  torrent's `totalEarned`. Its handlers are `ChargePeerForRequest`,
  `PayPeer` and `HandleIncomingPayment`, plus wire setup, handshake and
  download registration. Calls on a wire (`unchoke`, `forceChoke`,
  `sendPaymentRequest`), the `outgoing_payment`/`incoming_payment` events
  and the submission to the settlement client are appended to an ordered
  effect log. Each wire's choke state is kept in a map.
- `Decider` (`src/decider.js`): the three record stores (payment requests,
  payments, deliveries), the filtered sums `getTotalSent` and
  `getBytesDelivered`, `getCostPerByte`, and `shouldSendPayment`. Each
  store is a sequence of records. Every record has a unique id taken from
  a counter, which stands for the uuid generator.
- `PaymentManager` (`src/paymentManager.js`): the older balance map. A
  request is charged a flat price when the balance is at least that price.
  Credits name the peer through the memo's `public_key`.
- `Ledger`: what both generations share. It holds peer keys, JavaScript
  truthiness of a key, balances that default to 0, and the credit rule.
- `Generations`: the one lemma that compares the two charge rules.

Amounts are exact decimals (BigNumber in the source), modelled as `real`.
Cost per byte is `Finite(r)` or `NonFinite`, because only its finiteness
drives the decision. The specification of each operation is a pure
function. Each class method is proved to update its state as that function
says. Lemmas state the properties over whole runs of events.

## Model

| member | source | states |
|---|---|---|
| `Ledger.CreditedPeer` | src/index.js:193-197 | a credit names a peer exactly when it has a memo record whose `public_key` is present and non-empty |
| `Ledger.ApplyCredit` | src/index.js:198-201 | a tagged credit raises that peer's balance (0 if unseen) by the credited amount and leaves every other peer's balance unchanged; an untagged credit changes nothing |
| `Ledger.CreditTo` | src/index.js:199 | what one credit adds to a given peer: nothing for other peers, never negative for a non-negative amount |
| `Ledger.ApplyCreditKeepsNonNegative` | src/index.js:198-201 | a non-negative credit keeps every balance non-negative |
| `Decider.Where` | src/decider.js:69-72 | a store query returns the stored records the filter accepts and no others, and no more records than the store holds |
| `Decider.WhereCounts` | src/decider.js:69-72 | a store query keeps each accepted record exactly as many times as the store holds it, and no other record |
| `Decider.Sum` | src/decider.js:89-95 | the sum of non-negative values is non-negative |
| `Decider.SumItems` | src/decider.js:89-95 | the accumulator loop of `sum` returns exactly the sum over all items |
| `Decider.BytesDelivered` | src/decider.js:74-77 | bytes delivered under any filter are never negative |
| `Decider.CostPerByte` | src/decider.js:79-86 | 0 whenever nothing was sent; otherwise not finite exactly when no byte was delivered; a finite rate times bytes delivered equals total sent |
| `Decider.Decide` | src/decider.js:31-47 | the decider refuses exactly when money was sent to that peer on that torrent and no byte was delivered |
| `Decider.Eject` | src/decider.js:59-62 | after ejecting an id, no record with that id remains and every other stored record is still present |
| `Decider.EjectCounts` | src/decider.js:59-62 | ejecting an id removes exactly the records with that id and keeps every other record as many times as it was stored |
| `Decider.TotalSentAfterRecord` | src/decider.js:54-57 | recording a payment raises the total sent by its amount for the filters it matches and leaves the other totals unchanged |
| `Decider.BytesDeliveredAfterRecord` | src/decider.js:64-67 | recording a delivery of `b` bytes raises bytes delivered by exactly `b` for the filters it matches and by nothing for the others |
| `Decider.TotalSentWithoutMatch` | src/decider.js:69-72 | with no matching payment the total sent is 0 |
| `Decider.FirstPaymentApproved` | src/decider.js:35-45 | with no prior payment to that peer on that torrent, the decision is always to pay, whatever was delivered |
| `Decider.RecordThenEjectRestores` | src/decider.js:54-62 | recording a payment under a fresh id and then ejecting that id restores the store, so the total sent returns to its prior value for every filter |
| `Decider.Decider.constructor` | src/decider.js:8-29 | the three stores start empty |
| `Decider.Decider.RecordPaymentRequest` | src/decider.js:49-52 | appends the request under a fresh id; payments and deliveries unchanged |
| `Decider.Decider.RecordPayment` | src/decider.js:54-57 | appends the payment under an id no stored payment carries, and returns that id |
| `Decider.Decider.RecordFailedPayment` | src/decider.js:59-62 | removes the payment with the given id; the other stores are unchanged |
| `Decider.Decider.RecordDelivery` | src/decider.js:64-67 | appends the delivery under a fresh id; the other stores are unchanged |
| `Decider.Decider.GetTotalSent` | src/decider.js:69-72 | returns the sum of `sourceAmount` over the payments matching every given field of the filter |
| `Decider.Decider.GetBytesDelivered` | src/decider.js:74-77 | returns the sum of `bytes` over the matching deliveries |
| `Decider.Decider.GetCostPerByte` | src/decider.js:79-86 | returns the cost per byte of the current stores |
| `Decider.Decider.ShouldSendPayment` | src/decider.js:31-47 | first appends the request to the request store, leaving payments and deliveries unchanged, then refuses exactly when the cost per byte is not finite |
| `PaymentManager.Sufficient` | src/paymentManager.js:49-54 | false without a usable key; otherwise whether the balance (0 if unseen) is at least the price |
| `PaymentManager.ApplyCharge` | src/paymentManager.js:56-65 | a charge is taken exactly when the balance suffices; it lowers that balance by exactly the price, leaves it at 0 or more, and changes no other balance; a refused charge changes nothing |
| `PaymentManager.ChargeRequestAsWritten` | src/paymentManager.js:56-60 | a charge completed as written always had a stored entry for the key |
| `PaymentManager.AsWrittenCrashesOnlyForFreeUnseenPeer` | src/paymentManager.js:56-60 | the written charge fails exactly for a price of 0 or less and a peer never credited, and otherwise agrees with `ApplyCharge` |
| `PaymentManager.FreeRequestFromUnseenPeerCrashes` | src/paymentManager.js:56-60 | at price 0 a request from an unseen peer fails as written, while the corrected charge succeeds and records a balance of 0 |
| `PaymentManager.ChargedIsPricePerCharge` | src/paymentManager.js:58 | over any run, the amount charged to a peer is the price times the number of charges taken from it |
| `PaymentManager.Conservation` | src/paymentManager.js:56-93 | over any run of charges and credits, balance = initial balance + total credited − price × successful charges |
| `PaymentManager.BalancesStayNonNegative` | src/paymentManager.js:56-93 | over any run whose credits are non-negative, balances never go negative |
| `PaymentManager.PaymentManager.constructor` | src/paymentManager.js:12-25 | starts with no balances at the given price |
| `PaymentManager.PaymentManager.GetBalance` | src/paymentManager.js:41-47 | the stored balance for a known key, 0 for an unseen key |
| `PaymentManager.PaymentManager.HasSufficientBalance` | src/paymentManager.js:49-54 | false without a usable key, otherwise balance ≥ price |
| `PaymentManager.PaymentManager.ChargeRequest` | src/paymentManager.js:56-65 | returns whether the balance sufficed and updates the balances as `ApplyCharge` says |
| `PaymentManager.PaymentManager.HandleIncomingCredit` | src/paymentManager.js:73-97 | initialises a missing balance to 0 and adds the amount for the memo's key; a memo without a key changes nothing |
| `WtIlp.RequestedPayment` | src/index.js:139-142 | the payment asked for is at least the amount to charge and at least 0.0001, and is one of the two |
| `WtIlp.ChargeForRequest` | src/index.js:125-145 | served exactly when the balance (0 if unseen) is strictly greater than price × bytes; then the balance drops by that amount and stays > 0, and the amount is earned; otherwise no balance changes and the payment asked for is `max(amount, 0.0001)`; other peers are untouched |
| `WtIlp.UncoveredRequestRefused` | src/index.js:127-133 | a balance exactly equal to the amount, or an unseen peer with a positive-cost request, is refused and changes nothing |
| `WtIlp.Conservation` | src/index.js:125-201 | over any run of requests and credits, balance = initial balance + total credited − total charged |
| `WtIlp.BalancesStayNonNegative` | src/index.js:133-135 | over any run whose credits are non-negative, balances never go negative |
| `WtIlp.Register` | src/index.js:89-92 | a handshake appends the wire to its key's list, created empty on first sight; other keys' lists are untouched |
| `WtIlp.UnchokeAll` | src/index.js:206-209 | every wire of the list ends unchoked; every other wire keeps its state |
| `WtIlp.WireUnchokes` | src/index.js:206-209 | one transport unchoke per registered wire, in registration order |
| `WtIlp.RollbackAsWrittenKeepsFailedPayment` | src/index.js:180-185 | after a failed send, the written rollback leaves the payment counted in every total it matches, while the id-based rollback restores the totals |
| `WtIlp.WebTorrentIlp.constructor` | src/index.js:13-35 | starts with empty balances, wire registry and decider stores |
| `WtIlp.WebTorrentIlp.SetupTorrent` | src/index.js:77-78 | a transfer's earnings start at 0 |
| `WtIlp.WebTorrentIlp.SetupWire` | src/index.js:113 | a new wire is force-choked |
| `WtIlp.WebTorrentIlp.OnHandshake` | src/index.js:86-93 | registers the wire as `Register` says; nothing else changes |
| `WtIlp.WebTorrentIlp.OnDownload` | src/index.js:101-107 | records a delivery of the downloaded bytes for the wire's peer and the torrent |
| `WtIlp.WebTorrentIlp.ChargePeerForRequest` | src/index.js:125-145 | updates balances as `ChargeForRequest` says; when served, `totalEarned` grows by exactly the amount and the wire is unchoked; otherwise it sends the payment request and force-chokes the wire |
| `WtIlp.WebTorrentIlp.PayPeer` | src/index.js:147-190 | the request is recorded and the decider decides on the prior stores; an approved payment is recorded, announced and submitted; a failed submission leaves the payment store exactly as before; a refusal records no payment |
| `WtIlp.WebTorrentIlp.SendApprovedPayment` | src/index.js:160-185 | an approved payment is recorded under a fresh id, announced as `outgoing_payment` and submitted with both memos; a failed submission ejects it by that id, so the payment store is exactly as before |
| `WtIlp.WebTorrentIlp.HandleIncomingPayment` | src/index.js:192-211 | credits the tagged peer as `ApplyCredit` says, announces it, and unchokes every wire registered for that key; an untagged credit changes nothing |
| `WtIlp.WebTorrentIlp.UnchokeWires` | src/index.js:206-209 | every wire of the list ends unchoked, with one transport unchoke per wire in list order; balances and registry are untouched |
| `Generations.ChargeRulesDiffer` | src/index.js:133 | with a balance exactly equal to the cost, the per-byte client refuses while the flat-price manager charges and leaves 0 |

## Modelling choices

- Memos arrive already parsed, as `Option<Memo>`. In `src/index.js`, `None`
  stands for a memo that is missing or not an object, so a string memo is
  ignored there. In `src/paymentManager.js`, `None` stands for a memo that
  is missing or does not parse, and a string memo is taken after parsing.
- A missing key and the empty string are both falsy in JavaScript, so
  neither names a peer (`Ledger.Present`).
- `src/paymentManager.js:82` compares against a bare identifier `object`.
  As written, that throws for every memo that is not a string. The model
  takes the evident intent, which is `typeof memo === 'object'`.
- `src/paymentManager.js:86` reads `public_key` of a possibly undefined
  memo. The model treats a missing memo as one without a key, which
  changes nothing.
- `src/index.js:207` iterates `peerWires[key]` even when no wire was
  registered for that key. The model treats that as an empty list. The
  credit is applied and the event is announced before that loop, so the
  final state is the same.
- A wire's peer key is taken as a string. A wire that never completed its
  handshake would be charged under JavaScript's `"undefined"` key; that
  case is not distinguished.
- The extension's `unchoke`/`forceChoke` and the transport's `unchoke`
  are separate effects. Both set the wire's state in the choke map.
- The source stores the same request object as a payment request and
  then as a payment. The model gives each stored record its own fresh id.

## Findings

| source | as written | input that shows it | evidently intended | confidence | as-written member | corrected member |
|---|---|---|---|---|---|---|
| src/index.js:184 | the rollback passes the payment parameters to `recordFailedPayment`. Those parameters carry no id, so no stored payment is ejected | any approved payment whose submission fails | eject the recorded payment by the id `recordPayment` gave it, so totals return to their prior values | not executed; high | `WtIlp.RollbackAsWrittenKeepsFailedPayment` | `WtIlp.WebTorrentIlp.SendApprovedPayment` with `Decider.RecordThenEjectRestores` |
| src/paymentManager.js:58 | the new balance is computed from the stored entry `_peerBalances[key]`, which is undefined for a peer never credited | price 0 and a request from a peer never credited: `hasSufficientBalance` says yes (0 ≥ 0), then `undefined.minus` throws | charge against `getBalance(key)` as the sufficiency check did | not executed; medium | `PaymentManager.ChargeRequestAsWritten` with `PaymentManager.FreeRequestFromUnseenPeerCrashes` | `PaymentManager.ApplyCharge` with `PaymentManager.AsWrittenCrashesOnlyForFreeUnseenPeer` |

## Left out

- `src/walletClient.js` as a whole: socket subscriptions, HTTP fetches of
  transfers, webfinger lookups and payment submission are network I/O. The
  outcome of `sendPayment` is an input of `PayPeer`.
- Promise chains: each handler runs as one sequential step. The decider's
  answer is used in the same step, and the send outcome is a parameter.
- `_catchTorrent` and `_waitForWalletClient` (src/index.js:47-75): they
  rewrite library method tables and wait for wallet readiness.
- The `done` handler (src/index.js:116-122) only logs the torrent's total
  cost. `_handleOutgoingPayment` (src/index.js:213-215) has an empty body.
  `PaymentManager.handlePaymentRequest` and `disconnect` only forward to
  the wallet client.
- `PaymentManager.connect` (src/paymentManager.js:27-35): once the wallet
  client is ready it sets `ready` and `account` and only then subscribes
  `_handleIncomingCredit` to `incomingCredit`, so no credit is handled
  before that point. The model has no readiness state: it takes each
  credit as already delivered to the handler.
- `debug` and `console.log` output, and the `warning` handler, which only
  logs.
- JSON parsing of string memos (src/paymentManager.js:76-81).
- JS-Data internals and uuid generation: ids come from a counter. Timestamps
  (`moment()`) are opaque strings passed in.
- BigNumber rounding in the division of `getCostPerByte`: the quotient is
  exact, and only its finiteness affects a decision.
- The wire protocol encoding of payment requests and choke messages: they
  are effects in a log.
- Concurrency between handlers: events are handled one at a time, which is
  what the single-threaded event loop guarantees for each synchronous
  handler.
