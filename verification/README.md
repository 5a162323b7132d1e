# OpenBazaar order protocol: a verified model

This project models what an OpenBazaar 3.0 node does with orders, the messages about them and the money in
them, and proves what those parts promise each other. It is plain Dafny; `dafny verify dfyconfig.toml` checks
everything.

The layers, bottom to top:

- `OrderModel.dfy`: the order record of `models/orders.go`: its slots and lists, `PutMessage`, `ParkMessage`,
  `PutTransaction`, the totals and the guards, as a mutable class and as the value of its database row.
- `OrderRules.dfy`, `OrderProcessor.dfy`: `orders/*.go`. What each message type does to a row as functions, and
  the imperative processor (one handler per type, the sorted retry of parked messages, `ProcessMessage`,
  `ProcessACK`), each method proved to land where the functions say.
- `OrderLaws.dfy`: what each message, wallet notification and local action does, told by the fields of the record and
  the messages sent.
- `OrderInvariants.dfy`: what every run of messages, wallet events and acknowledgements keeps, and that the
  guards of the local actions agree with the handlers.
- `OrderConvergence.dfy`, `OrderRuns.dfy`: order insensitivity. The documentation of `ProcessMessage`
  (`orders/processor.go:112-114`) promises that the same set of messages gives the same state in any order. That
  is false for some sets; for sets without a DISPUTE_OPEN of a moderated order it is proved here for exactly
  the sets without conflicting messages, up to the time in a reject the node wrote itself.
- `OrderMessaging.dfy`, `OrderDelivery.dfy`: the outbox, the acknowledgements and the duplicate check, as a node
  and as a system of two nodes over a network that loses, repeats and reorders.
- `OrderAgreement.dfy`, `OrderEndToEnd.dfy`, `OrderProgress.dfy`, `OrderDiscipline.dfy`: the two joined. In every
  orderly run, both parties hold the same order once both outboxes are empty, and every run can be continued to that
  point. A run that is not orderly can end in disagreement.
- `OrderPayments.dfy`, `OrderReleases.dfy`: escrow releases and direct refunds, and that released coins stay spent in
  every run of an order.
- `OrderPricing.dfy`, `PriceLaws.dfy`: order totals, coupons, taxes and shipping, and the laws that fix every field.
- `PublicData.dfy`, `Channels.dfy`, `DisputeCases.dfy`, `Listings.dfy`: the transaction overlay over the public
  files, chat channel heads and history, the moderator's case, and listing slugs.

A message carries the peer whose key signed it instead of a signature. Two payloads are the same message exactly
when they are equal. The wallet, the clock, the sort's freedom among equal types and random message IDs are
inputs of each step; messages a node writes itself, its automatic reject included, carry the time of that step. A
node's identity, currencies and the orders it considers valid are fixed for a run (`Config`). Runs of one node mix
messages delivered by any peer, wallet events and acknowledgements.

## Model

| member | source | states |
|---|---|---|
| OrderModel.Order.PutMessage | models/orders.go:391-552 | single slots are overwritten, the three lists grow, and a fulfilment, refund or payment notice that names something already listed is refused with the record unchanged |
| OrderModel.Order.ListsItem | models/orders.go:447-455 | the nested search finds exactly the stored fulfilments that share an item |
| OrderModel.Order.PutTransaction | models/orders.go:196-219 | a transaction is recorded unless its ID is known |
| OrderModel.Order.ParkMessage | models/orders.go:555-569 | a parked message joins the end of the list and nothing else changes |
| OrderModel.Order.AddUpPayments | models/orders.go:925-948 | the nested loop adds up every output that pays the order's address, over all recorded transactions |
| OrderModel.Order.CheckFulfilled | models/orders.go:898-922 | deleting delivered indices leaves nothing exactly when every item is delivered |
| OrderProcessing.OrderProcessor.ProcessMessage | orders/processor.go:118-173 | park when there is no order, else handle, retry the parked messages in type order and save: the row and the queued messages are those of the rules, whatever order the sort picked among equal types |
| OrderProcessing.OrderProcessor.Dispatch | orders/processor.go:226-258 | a message not signed by the delivering peer changes nothing; any other reaches its handler |
| OrderProcessing.OrderProcessor.RetryParked | orders/processor.go:149-169 | the retry loop is the fold of single retries; a failure logs the current message, not the parked one |
| OrderProcessing.OrderProcessor.ProcessACK | orders/processor.go:176-223 | sets the flag of the acknowledged message's type, of two flags the right one for a DISPUTE_OPEN, and touches nothing else |
| OrderProcessing.OrderProcessor.ProcessOrderOpenMessage | orders/order_open.go:26-159 | duplicate, changed and fresh ORDER_OPEN, the role, and the vendor's own reject of an order that does not validate |
| OrderProcessing.OrderProcessor.ProcessOrderRejectMessage | orders/order_reject.go:13-63 | refused after a confirmation, parked before the order, stored otherwise |
| OrderProcessing.OrderProcessor.ProcessOrderCancelMessage | orders/order_cancel.go:14-83 | parked before the order; records the release of a cancelable order; stored |
| OrderProcessing.OrderProcessor.ProcessOrderConfirmationMessage | orders/order_confirmation.go:14-84 | refused after a reject, parked before the order; records the release of a cancelable order; stored |
| OrderProcessing.OrderProcessor.ProcessRatingSignaturesMessage | orders/rating_signatures.go:19-88 | parked before the order, checked against its rating keys, stored |
| OrderProcessing.OrderProcessor.ProcessOrderFulfillmentMessage | orders/order_fulfillment.go:13-61 | refused after a reject, parked until both the order and the confirmation are there, appended otherwise |
| OrderProcessing.OrderProcessor.ProcessOrderCompleteMessage | orders/order_complete.go:20-121 | refused after a cancel, parked before the order, rating and release checks, stored |
| OrderProcessing.OrderProcessor.ProcessRefundMessage | orders/refund.go:18-84 | refused after a cancel, parked before the order, a duplicate is swallowed, a direct refund's spend is recorded |
| OrderProcessing.OrderProcessor.ProcessPaymentSentMessage | orders/payment_sent.go:14-70 | parked before the order, a duplicate is swallowed, an unknown payment to the order is looked up and processed |
| OrderProcessing.OrderProcessor.ProcessIncomingPayment | orders/transactions.go:68-187 | records a payment once; the buyer announces it, the vendor of a funded order sends rating signatures |
| OrderProcessing.OrderProcessor.ProcessOutgoingPayment | orders/transactions.go:190-208 | records the spend once |
| OrderProcessing.OrderProcessor.ProcessWalletTransaction | orders/transactions.go:23-65 | outputs before inputs, and an error leaves the row to be rolled back |
| OrderProcessing.OrderProcessor.ProcessDisputeOpenMessage | orders/dispute_open.go:17-152 | the refusals of a closed or unmoderated order, and the other party's contract notice, impossible once anything was parked |
| OrderProcessing.SortByType | orders/processor.go:154-156 | the result is a permutation in type order |
| OrderInvariants.HandleKeeps | orders/processor.go:226-258 | every handler call, by any peer, keeps the invariant and only adds to the record |
| OrderInvariants.HandleKeepsBooks | orders/processor.go:226-258 | a handler may set the order's ID and park its own message; flags and older parked messages stay; once the order is open only fulfilments are parked |
| OrderInvariants.EveryRunKeepsInvariant | orders/order_confirmation.go:30-44 | over any run: REJECT and CONFIRMATION exclude each other, fulfilments need a confirmation, everything needs the order, lists name nothing twice |
| OrderInvariants.ReachableOrders | orders/order_fulfillment.go:19-42 | in every reachable row: no reject beside a fulfilment, disjoint fulfilments, distinct payouts, payments and transactions |
| OrderInvariants.EveryRunOnlyAdds | models/orders.go:391-552 | OPEN, REJECT, CANCEL, CONFIRMATION and COMPLETE are write-once and the lists append-only over every run, and a cancelled order gains no completion or refund |
| OrderInvariants.RejectGuard | models/orders.go:636-658 | when CanReject holds the node's own reject is stored |
| OrderInvariants.ConfirmGuard | models/orders.go:662-684 | when CanConfirm holds the confirmation is never refused as unexpected, and is stored when the currency is supported |
| OrderInvariants.CancelGuard | models/orders.go:688-710 | the same for CanCancel |
| OrderInvariants.RefundGuard | models/orders.go:714-737 | the same for CanRefund, with the exact list afterwards |
| OrderInvariants.FulfillGuard | models/orders.go:741-784 | CanFulfill never tests the reject slot; in every reachable row the handler still accepts |
| OrderInvariants.CompleteGuard | models/orders.go:788-822 | CanComplete never tests the cancel slot: the handler refuses the node's own message if and only if the order was cancelled |
| OrderInvariants.CompleteGuardCanMislead | orders/order_complete.go:37-40 | a run of OPEN, CANCEL, CONFIRMATION and FULFILLMENT that reaches a row where that happens |
| OrderLaws.TypesInOrder | orders/processor.go:154-156 | the message types in the order in which parked messages are retried |
| OrderLaws.FlagsAreDistinct | orders/processor.go:188-221 | two messages share an acknowledgement flag only when types and recipients agree |
| OrderLaws.ForeignSignature | orders/processor.go:226-258 | a message signed by another peer than the delivering one changes nothing |
| OrderLaws.CopiesAndChanges | orders/order_reject.go:18-27 | a copy of a stored message is ignored, a different one of its type refused, for every type stored once |
| OrderLaws.OutOfTurn | orders/order_confirmation.go:30-33 | what each message type finds stored that makes it unexpected; the record stays as it was |
| OrderLaws.BeforeTheOrder | orders/order_reject.go:38-41 | before the order every handled message is parked and the others are refused |
| OrderLaws.NoHandler | orders/processor.go:234-258 | DISPUTE_UPDATE, DISPUTE_CLOSE and PAYMENT_FINALIZED are refused and change nothing |
| OrderLaws.FulfillmentWaits | orders/order_fulfillment.go:28-42 | a fulfilment of an order neither confirmed nor rejected is parked |
| OrderLaws.WithoutARow | orders/processor.go:129-140 | without a row anything but an order is parked in a new one |
| OrderLaws.FailedRetryIsLogged | orders/processor.go:158-169 | exactly a failed retry logs, and it logs the message being processed |
| OrderLaws.OrderOpens | orders/order_open.go:34-104 | ID, role, payment address and, at a vendor that finds it invalid, the reject it sends and stores |
| OrderLaws.AnswerRecordsRelease | orders/order_confirmation.go:39-65 | a stored cancellation or confirmation of a cancelable order records the wallet transaction it names if that spends from the payment address, and no other order or transaction does |
| OrderLaws.RejectIsStored | orders/order_reject.go:29-62 | a reject of an open, unconfirmed order is stored and nothing else changes |
| OrderLaws.CompletionIsChecked | orders/order_complete.go:50-121 | a completion is stored exactly when ratings, currency and, for a moderated vendor, a fulfilment allow it |
| OrderLaws.RatingsAreChecked | orders/rating_signatures.go:44-88 | rating signatures are stored exactly when genuine and matching the keys |
| OrderLaws.FulfillmentIsListed | models/orders.go:435-466 | a fulfilment joins the list exactly when no stored one names one of its items |
| OrderLaws.RefundJoins | models/orders.go:467-508 | a refund joins the list exactly when no stored one names the same transaction or release |
| OrderLaws.RefundRecordsSpend | orders/refund.go:44-61 | the transactions after a refund: with its own, if the order is direct and it spends from the payment address |
| OrderLaws.NoticeJoins | models/orders.go:509-536 | a payment notice joins the list exactly when no stored one names its transaction |
| OrderLaws.NoticeRecordsPayment | orders/payment_sent.go:33-61 | the transactions after a payment notice: with the one it names, if the wallet knows it and it pays the order |
| OrderLaws.NoModerator | orders/dispute_open.go:61-63 | an order without moderation cannot be disputed |
| OrderLaws.DisputeOpens | orders/dispute_open.go:90-151 | the opener's node stores the dispute, the other party's also its contract, sent to the moderator, unless something was ever parked or logged |
| OrderLaws.NothingNew | orders/transactions.go:23-65 | known transactions, and those of other addresses, change nothing |
| OrderLaws.SpendIsRecorded | orders/transactions.go:190-200 | a new transaction that spends from the payment address is recorded |
| OrderLaws.BuyerAnnounces | orders/transactions.go:68-135 | the buyer's first report of a payment records it, lists one PAYMENT_SENT with its ID and queues it for the vendor; if that ID is listed already, the update fails as a whole |
| OrderLaws.VendorSigns | orders/transactions.go:154-187 | the vendor's first report records the payment and, exactly when the order is then paid in full, signs the ratings for the buyer |
| OrderLaws.FundingAddsUp | models/orders.go:925-948 | the funding total adds up output by output and transaction by transaction |
| OrderLaws.WhoMayAct | models/orders.go:636-822 | for every action, by role, stored messages, amounts and items, exactly when the guard lets it pass |
| OrderConvergence.HandleAbsorbs | orders/processor.go:226-258 | one verified message is absorbed into the slots, or is a fulfilment that waits |
| OrderConvergence.RetryAbsorbs | orders/processor.go:149-169 | one pass in type order absorbs every parked message the peer signed, fulfilments because the confirmation comes first |
| OrderConvergence.AbsorbedIsUnique | orders/processor.go:112-114 | two orders that absorbed the same set without conflicting pairs have the same slots |
| OrderConvergence.ModeratedCompletionDependsOnOrder | orders/order_complete.go:95-99 | at the vendor of a moderated order a completion with release info before the fulfilment is refused and lost, after it stored |
| OrderRuns.SlotsAreAFunctionOfTheSet | orders/processor.go:112-173 | after any run, in any order, with any repeats, with wallet events and other peers in between, the slots are what the set of verified messages says |
| OrderRuns.SameMessagesSameSlots | orders/processor.go:112-114 | two runs over the same conflict-free set end in the same slots, but for the time in a reject the node wrote itself |
| OrderRuns.RedeliveryChangesNothing | orders/processor.go:112-173 | delivering received messages again, any number of times, changes no slot |
| OrderRuns.SecondPassChangesNothing | orders/processor.go:149-169 | one pass over the parked messages suffices: another one, for any peer, changes no slot |
| OrderRuns.ConvergesUpToStampExactly | orders/processor.go:112-114 | all runs over a set agree, but for the time in the node's own reject, if and only if the set is conflict-free: no two counting messages for one slot, no reject with confirmation, no cancel with completion or refund, no shared payout or payment, no shared item or foreign signer among the fulfilments of a confirmed order, and at the vendor of a moderated one no fulfilment beside a valid completion with release info |
| OrderRuns.ConvergesExactly | orders/processor.go:112-114 | all runs over a set agree if and only if the set is conflict-free and the node does not reject the order itself |
| OrderRuns.OwnRejectsDiffer | orders/order_open.go:53-57 | a vendor that rejects an invalid order stores a different reject in a run at another time |
| OrderRuns.ConflictDiverges | orders/order_reject.go:40-44 | for every conflicting pair there are two runs that end differently: whichever comes first wins |
| OrderRuns.SharedItemsDiverge | models/orders.go:447-455 | the same for two fulfilments that share an item |
| OrderRuns.SignersDiverge | orders/processor.go:162-162 | a parked fulfilment is verified against the peer that delivers the confirmation, so with another signer the order of arrival decides |
| OrderRuns.GatedDiverges | orders/order_complete.go:95-99 | for every such completion and fulfilment of a confirmed order there are two runs that end differently |
| OrderMessaging.OpenBazaarNode.ReliablySendMessage | net/messenger.go:105-143 | an outbox row and a first send |
| OrderMessaging.OpenBazaarNode.Flush | net/messenger.go:120-143 | on commit every queued message has a row of its own and is sent once, in order, under the ID of that row |
| OrderMessaging.OpenBazaarNode.HandleOrderMessage | core/network.go:248-277 | a message ID is processed once, every copy is acknowledged |
| OrderMessaging.OpenBazaarNode.HandleAckMessage | core/network.go:214-243 | marks the order and deletes the outbox row; a second acknowledgement finds no row |
| OrderMessaging.OpenBazaarNode.RetryAllMessages | net/messenger.go:317-358 | resends exactly the outbox rows whose back-off says they are due |
| OrderMessaging.OpenBazaarNode.SubmitOrderMessage | core/confirm.go:24-110 | check the guard, process the node's own message, queue it: all or nothing; its packet is the last one sent, and every packet has its outbox row; CANCEL, REFUND, FULFILL, COMPLETE and PURCHASE follow the same pattern |
| OrderMessaging.OpenBazaarNode.RejectOrder | core/reject.go:73-142 | a reject, and the refund exactly when the amount was paid and the order is not cancelable, processed, stored and sent in one transaction |
| OrderMessaging.OneTransactionIsTwoActions | core/reject.go:73-142 | that transaction leaves the row, and queues the messages, of a reject followed by a refund |
| OrderMessaging.RefundWhenDue | core/reject.go:80-142 | what was paid covers the amount and the order is direct or moderated: the refund is stored and sent behind the reject; otherwise only the reject is, and no refund |
| OrderMessaging.SentAsQueued | net/messenger.go:105-143 | the k-th queued message is the k-th packet sent, under the ID of its own outbox row |
| OrderMessaging.OpenBazaarNode.ReportTransaction | orders/transactions.go:23-65 | a wallet transaction updates the row and queues its messages, or changes nothing |
| OrderDelivery.EveryRunIsReliable | net/messenger.go:105-153 | the delivery invariant holds in every reachable state of the two nodes |
| OrderDelivery.NothingIsLost | net/messenger.go:105-153 | each posted message is still in its sender's outbox, unchanged, or was handled by its recipient |
| OrderDelivery.AtMostOnceAndAcksTrue | core/network.go:201-243 | no message ID is handled twice in a run, and an acknowledged flag means the recipient handled a message of that type |
| OrderDelivery.RedeliveryIsIdle | core/network.go:248-253 | a second copy changes nothing but earns another acknowledgement |
| OrderDelivery.QuietNodesKnowTheSame | net/messenger.go:147-153 | with both outboxes empty both nodes have processed exactly what was posted |
| OrderAgreement.ProcessReplies | orders/order_open.go:52-104 | what one call of ProcessMessage queues: rating signatures, and the reject of an invalid order exactly when it opens; a buyer queues nothing |
| OrderAgreement.NodeProcesses | orders/processor.go:118-173 | after a message and its replies the row is what the known messages make of the order |
| OrderAgreement.NodePays | orders/transactions.go:68-187 | the same after a wallet transaction, with the announcement it causes |
| OrderEndToEnd.ActConflictFree | core/confirm.go:32-34 | a message an orderly node may send conflicts with nothing either party posted before |
| OrderEndToEnd.OrderlyRunsNeverConflict | core/completion.go:40-42 | in an orderly run no posted message rules another out, at either node |
| OrderEndToEnd.EveryRunAgrees | orders/processor.go:112-173 | at every moment of an orderly run each row is a function of the messages its node knows |
| OrderEndToEnd.ConflictFreeRunsAgree | orders/processor.go:112-173 | the same at every moment of a run whose posted messages do not conflict, orderly or not |
| OrderEndToEnd.BothPartiesHoldTheSameOrder | orders/processor.go:112-114 | over a lossy, duplicating, reordering network: when both outboxes are empty after an orderly run, buyer and vendor hold the same OPEN, REJECT, CANCEL, CONFIRMATION and COMPLETE and the same sets of fulfilments, refunds and payment notices |
| OrderEndToEnd.ConflictFreeRunsEndEqual | orders/processor.go:112-114 | the same for parties that keep to no discipline, whenever the messages they posted do not conflict |
| OrderEndToEnd.WhatIsKnownIsStored | orders/processor.go:149-169 | at every moment a node stores every counting message it knows, even messages that crossed; only a fulfilment waits, parked, for the confirmation |
| OrderEndToEnd.AckedIsStored | core/network.go:201-243 | an acknowledged flag means the recipient's row holds a message of that type, or has it parked, if it is the order itself or a message that counts |
| OrderEndToEnd.CrossingMessagesAreBothKept | core/confirm.go:20-23 | a cancel and a confirmation that crossed are in the end held by both parties |
| OrderProgress.EveryRunCanSettle | net/messenger.go:317-358 | from every reachable state of an orderly run deliveries and acknowledgements alone lead to empty outboxes and the same order on both sides |
| OrderDiscipline.UndisciplinedRunsCanDisagree | models/orders.go:788-822 | for every cancelable order there is a run, all guards met, after which both outboxes are empty and only the vendor holds the completion the buyer sent after cancelling |
| OrderPayments.SelectCoins | core/cancel.go:127-145 | the two passes select the unspent outputs at the payment address, in order, and total them |
| OrderPayments.UnspentExactly | core/cancel.go:134-145 | a coin is selected if and only if it is an output at the address that no recorded transaction spends |
| OrderPayments.ReleaseFromCancelableAddress | core/cancel.go:97-161 | fails exactly for other payment methods or an empty address; otherwise output plus fee is the sum of the inputs and the fee is one estimate plus half of it, rounded down, per further input |
| OrderPayments.FeePerInput | core/cancel.go:150-156 | one input costs the estimate, each further one half of it, rounded down |
| OrderPayments.BuildEscrowRelease | core/refund.go:169-206 | fails exactly without a recorded transaction; otherwise the same selection with the fixed fee, and nothing checks that coins were found |
| OrderPayments.EscrowConserves | core/refund.go:185-206 | over any history of recorded transactions and releases: what was paid in is what the releases took, fees included, what other transactions spent, and what is unspent |
| OrderPayments.NothingSpentElsewhere | core/refund.go:185-206 | when only releases spend the coins of the address, nothing was spent elsewhere |
| OrderPayments.NoCoinSelectedTwice | core/cancel.go:127-145 | over any history no release selects a coin an earlier recorded release took |
| OrderReleases.ReleasedCoinsAreNeverSelected | orders/order_confirmation.go:52-65 | over any run of order rows: once a cancellation or confirmation that reports a release is stored, directly or on a retry, its transaction is known for good and no release selects a coin it spends |
| OrderReleases.RejectReturnsEverything | core/reject.go:86-120 | after a reject with its refund the recorded refunds equal what was paid |
| OrderPayments.FundingIsASetSum | models/orders.go:925-948 | the funding total depends only on the set of recorded transactions |
| OrderPayments.NotificationsCountOnce | models/orders.go:196-219 | two lists of notifications over the same transactions, repeated and reordered at will, give the same funding total |
| OrderPayments.BuildDirectRefund | core/refund.go:111-125 | the refund is the funding total less all earlier refunds |
| OrderPayments.RefundStep | core/refund.go:111-139 | handling the node's own refund makes the recorded refunds equal to the funding total it was computed from, and leaves due exactly what the refund's own transaction, when it gets recorded, paid back to the order |
| OrderPayments.RefundsNeverExceedPayments | core/refund.go:111-139 | over any run of payments, repeated notifications, refunds and other messages, with their retries, the vendor never records more refunded than paid |
| OrderPricing.CalculateOrderTotal | orders/order_open.go:345-492 | the loops compute the subtotal, discounts, taxes, shipping and total defined item by item; fails exactly for a bad quantity, SKU or shipping option |
| OrderPricing.CalculateShippingTotal | orders/order_open.go:494-641 | filters the shipped items and charges by the branch for none, one or several |
| PriceLaws.FailsExactly | orders/order_open.go:352-425 | there are totals exactly when every line has a positive quantity, a SKU and, if shipped, a shipping option |
| PriceLaws.TruncateIsTowardZero | orders/order_open.go:398-402 | a percentage drops its fraction, whatever its sign |
| PriceLaws.OneMoreLine | orders/order_open.go:352-477 | one more line adds its own amounts, and multiplies the taxes shown before it by its quantity |
| PriceLaws.QuantityScales | orders/order_open.go:467-476 | everything but the discounts shown grows with the quantity, which is one for a market price |
| PriceLaws.ListPrice | orders/order_open.go:382-426 | price, market modifier and surcharge of a unit without coupons and taxes |
| PriceLaws.NoCoupons | orders/order_open.go:428-452 | a line without codes or without coupons has no discount |
| PriceLaws.LastCoupon | orders/order_open.go:434-450 | the coupon a code names takes its amount, or its truncated share, off what the coupons before it left; any other takes nothing |
| PriceLaws.LastCode | orders/order_open.go:429-452 | a further code starts from what the codes before it left |
| PriceLaws.UnnamedCouponIsFree | orders/order_open.go:434-435 | a coupon no code of its line names changes no field |
| PriceLaws.LastTax | orders/order_open.go:455-466 | a tax that names the buyer's country takes its truncated share of the unit with the earlier taxes in it; any other takes nothing |
| PriceLaws.OneTax | orders/order_open.go:454-467 | one such tax adds quantity times the truncated share of the price |
| PriceLaws.ForeignTaxIsFree | orders/order_open.go:455-457 | a tax that does not name the buyer's country changes no field, on any line and at any place |
| PriceLaws.UntaxedOrder | orders/order_open.go:454-467 | when no tax names the country the order shows none |
| PriceLaws.ShippingStandsApart | orders/order_open.go:478-491 | what is shipped changes the shipping charge, the total by that, and nothing else |
| PriceLaws.ParcelsAround | orders/order_open.go:506-599 | the shipped lines, in order, with their own prices, quantities and shipping tax; the others add nothing |
| PriceLaws.LastShippingTax | orders/order_open.go:580-591 | the shipping tax is that of the last tax that names the country and applies to shipping |
| PriceLaws.ShipsAlone | orders/order_open.go:606-615 | a single shipped line costs its primary price and the secondary price for every further unit, each with its tax |
| PriceLaws.TwoParcels | orders/order_open.go:617-640 | two shipped lines: secondary prices for all units, the primary price for one of the dearer line, the first when equal |
| PriceLaws.AnotherParcel | orders/order_open.go:617-640 | from two on, a further line adds its secondary prices and takes the primary price over when it is the dearest |
| OrderPricing.PartsAndTotal | orders/order_open.go:345-492 | the reported parts exceed the total by an explicit amount: taxes counted again for every later quantity, and discounts of every unit but one |
| OrderPricing.PartsAddUpExactly | orders/order_open.go:462-481 | when coupons lower and taxes raise prices, the parts add up if and only if every discounted item is a single unit and only single units follow a taxed item |
| OrderPricing.TaxesShownAre | orders/order_open.go:474-475 | the re-multiplied tax total is each item's tax times its own and every later quantity |
| OrderPricing.ShippingIsThePlainBill | orders/order_open.go:591-641 | untaxed, both branches charge the primary rate of the first dearest item once and the secondary rate for every other unit |
| OrderPricing.TaxTruncation | orders/order_open.go:607-648 | the tax the several-item branch leaves on the other units is the single-item branch's or one more |
| OrderPricing.ShippingIsNonNegative | orders/order_open.go:494-641 | shipping never goes negative |
| OrderPricing.OneMoreParcelLowersExactly | orders/order_open.go:591-641 | one more item, at any place among the others, lowers the charge if and only if it becomes the first dearest one and its secondary and swap costs together are below what the old dearest one added |
| OrderPricing.OneMoreParcelNeverLowers | orders/order_open.go:591-641 | at one common tax rate that case never arises |
| OrderPricing.MixedRatesCanLower | orders/order_open.go:613-641 | an order where that happens |
| PublicData.Tx.Get | database/ffsqlite/ffsqlite.go:269-416 | the backward scan returns the last value put in the transaction, or the file |
| PublicData.Tx.Set | database/ffsqlite/ffsqlite.go:280-430 | a write is refused on a read-only transaction; otherwise it changes what one getter sees and saves the old value |
| PublicData.GettersAgreeWithReplay | database/ffsqlite/ffsqlite.go:269-430 | a getter returns what replaying the cache would leave if and only if the last write to the file is not a delete or the file was never there |
| PublicData.StaleExactlyWhenDeleted | database/ffsqlite/ffsqlite.go:344-380 | in a transaction that can commit the getter is wrong for exactly the listings left deleted |
| PublicData.Tx.Commit | database/ffsqlite/ffsqlite.go:155-181 | succeeds exactly when every write and SQL do; then the files are the replay and the hooks ran once each in order; otherwise no hook ran, and every file that existed and is covered has its old contents as far as the rollback got |
| PublicData.Tx.Rollback | database/ffsqlite/ffsqlite.go:186-207 | restores every covered file from any partial commit, or, stopped by a failing write, those whose old value was already written; SQL is rolled back only after the last write |
| PublicData.UndoRestores | database/ffsqlite/ffsqlite.go:196-200 | playing the saved values over any half-written files restores a covered file |
| PublicData.RollbackRestoresExactly | database/ffsqlite/ffsqlite.go:186-207 | after a full rollback a file is as before if and only if it was covered and there, or was never there and is neither a listing or profile the commit wrote nor a list whose missing value was saved; ratings and images stay as the commit left them |
| PublicData.RollbackRestoresByName | database/ffsqlite/ffsqlite.go:186-207 | a full rollback restores the profile, both lists, both indexes and every listing, and no rating or image |
| PublicData.NewFilesSurviveAFailedCommit | database/ffsqlite/ffsqlite.go:450-470 | a listing a failed commit created stays |
| PublicData.RollbackCreatesEmptyLists | database/ffsqlite/ffsqlite.go:457-464 | a list that had no file gets one, holding nil, on every rollback that saved it |
| Channels.Channel.UpdateHead | models/chat.go:116-149 | the new head is the unlinked old entries plus the new node, or one old entry and the new node when the map is full |
| Channels.HeadStaysSmall | models/chat.go:132-141 | after any update the head has no duplicates and at most 49 entries |
| Channels.FewEntriesStay | models/chat.go:116-149 | with fewer than 49 entries the new node does not link to, the head is those and the node, which comes first |
| Channels.FullHeadForgets | models/chat.go:136-141 | from 49 such entries on, all but exactly one are dropped, and a new node joins |
| Channels.HeadReachesEverything | models/chat.go:116-149 | below the cap every received node stays reachable from the head, whatever arrives in whatever order |
| Channels.ReachableExactlyBelowTheCap | models/chat.go:116-149 | when nodes arrive once and after what they link to, every received node stays reachable after every update if and only if the map never fills |
| Channels.HeadIsTheFrontier | models/chat.go:116-149 | when nodes arrive once and after what they link to, the head is exactly the received nodes nothing links to |
| Channels.Channel.Messages | channels/channel.go:166-249 | stops on any acyclic graph with whole levels listed: only what is reachable and readable, nothing of a later level once the limit is reached, everything below it; what is not listed is in reach of the cached level, which holds a listed message when the limit was reached |
| Channels.PagingLosesNothing | channels/channel.go:166-249 | paging on from listed messages of the cached level: whatever the head reaches was listed or is in reach of the cached level |
| Channels.ShortPageEndsPaging | channels/channel.go:166-249 | when a page falls short of its limit, every message the head reaches was listed |
| Channels.EmptyPageExactly | channels/channel.go:170-178 | a page is empty exactly when its start reaches nothing but the message it goes on from |
| Channels.ReceivedIsListed | channels/channel.go:199-239 | such a listing from the head shows every received node that is readable together with the received nodes that lead down to it |
| DisputeCases.Case.PutDisputeOpen | models/cases.go:44-69 | stores the opener's contract, over an earlier one, and releases a parked update into the other slot |
| DisputeCases.Case.ReceiveDisputeOpen | core/disputes.go:199-207 | a second opening is refused and changes nothing |
| DisputeCases.Case.PutDisputeUpdate | models/cases.go:71-95 | parked before the opening, stored once after it, refused when already there |
| DisputeCases.BothArrived | models/cases.go:44-95 | one opening and one update, in any order and with any repeats, by either party, end with both contracts in place and nothing parked |
| DisputeCases.FirstOpeningStays | core/disputes.go:199-207 | after a run that starts with an opening the opener and its contract are those of that opening |
| DisputeCases.TwoUpdatesDoNot | models/cases.go:77-90 | two different updates do depend on the order: parked the last one wins, behind the opening the first |
| DisputeCases.CaseConvergesExactly | core/disputes.go:199-207 | all ways to receive a set of openings and updates make the same case if and only if the set has no two different openings and no two different updates |
| Listings.ListingIndex.GenerateSlug | core/listings.go:286-307 | ends within one try more than there are listings, at the first candidate that is not taken, of at most 70 characters below 100000 listings |
| Listings.CandidatesAreNumbered | core/listings.go:286-307 | the candidates are the base and the base followed by 1, 2, 3, … in decimal |
| Listings.UpdateFinds | models/listings.go:22-34 | an update changes what is found under its own slug only and keeps slugs distinct |
| Listings.DeleteFinds | models/listings.go:37-44 | after a delete the slug is gone and every other listing is found as before |

## Left out

- Cryptography, hashing, protobuf and JSON: a message is signed by one peer, and equality stands for equal serialisations.
- libp2p, IPFS, store-and-forward, the gateway, websockets and configuration: only what they deliver, when they deliver it, is modelled.
- Retry timing, goroutines inside one handler and the gap between a View and the following Update: each handler call and each local action is one atomic step, and so is the saving of the incoming message ID after the handler.
- Validation of ORDER_OPEN: one predicate on the payload, fixed per node, decides whether an order is valid.
- DISPUTE_OPEN of a moderated order in the convergence results: at the other party it fails once anything was parked.
- Moderated orders in the two-node agreement: there the vendor's own fulfilments come before any completion, which the sets of `GatedDiverges` do not express.
- RATING_SIGNATURES in the write-once and agreement results: the vendor writes the slot again on every funded payment (orders/transactions.go:155-160).
- The errored list in every comparison: on a failed retry the current message is logged, not the parked one (orders/processor.go:165).
- The parked list in every comparison: parked messages are never deleted, and are parked again by every retry before the order arrives.
- OrderEndToEnd.BothPartiesHoldTheSameOrder: assumes what the nodes do not check themselves: no completion after a cancel, no fulfilment of an item twice, no refund with a listed payout. `UndisciplinedRunsCanDisagree` shows what breaks without it, `ConflictFreeRunsEndEqual` what suffices.
- Two-node runs: a reject with its refund appears there as two actions in a row, which `OneTransactionIsTwoActions` relates to the one transaction. Acknowledged copies of a DISPUTE_OPEN sent to a moderator are not in those runs.
- OrderRuns.ConvergesExactly: what arrives before the order is taken to come from the peer that opens it; a message parked from anyone else is verified against the wrong key on the retry, as `SignersDiverge` shows for fulfilments.
- OrderProcessing.OrderProcessor.ProcessOrderCompleteMessage: the rating index it updates and the broadcast of a moderated release are not part of this model.
- OrderPayments.RefundsNeverExceedPayments: the other messages of a run are not refunds; the vendor's own are the only ones counted.
- Broadcasting, signing and fee estimation by the wallet: transaction IDs, coin IDs and estimates are inputs.
- Floating-point rounding, exchange rates and the conversion of prices: converted prices are integers, percentages exact rationals.
- OrderPricing.CalculateShippingTotal: the choice of shipping option and service from the listing is an input per item.
- OrderPricing.CalculateOrderTotal: the SKU lookup and the matching of coupon hashes are inputs.
- Ratings and images in a rollback: the source keeps no old value for them.
- Channels.Channel.Messages: the final sort by timestamp, and the decoding and signature check behind `readable`.
- Listings.ListingIndex.GenerateSlug: the base slug from the title; a listing whose CID does not parse counts as free, as in the source.
- Validation errors and the closing of a moderator's case.
- FulfillOrder accepts an item index equal to the number of items (core/fulfillment.go:36); indices are plain numbers here and the off-by-one is not modelled.
