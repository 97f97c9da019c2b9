# Order intake and order-state rules of the matching engine

This project is a Dafny model of the parts of the Lykke matching engine that decide
whether an order is accepted and what happens to order state once it has been
accepted. It covers five pieces:

- **Input validation** (`InputValidator`, `input_validator.dfy`). These are stateless checks
  on one limit or stop-limit order: fee shape, disabled assets, price sign, stop-price
  bounds, minimum and maximum volume, maximum value, and decimal accuracy of volume and
  price. Each failing check carries one order status, and a validation stops at its
  first failing check.
- **Business validation** (`BusinessValidator`, `business_validator.dfy`). This is the fixed
  chain of balance (skipped for trusted clients), negative spread, the two statuses
  set upstream, and expiry.
- **The validation preprocessor** (`Preprocessor`, `preprocessor.dfy`). It picks the validator
  by order type and turns a validation failure into a verdict. It forwards every parsed
  message, valid or not. A message whose processing raises any other error is dropped
  and answered with RUNTIME. The stage is a class holding its input queue, its output
  queue and the responses it has written.
- **The stop-limit processor** (`StopLimit`, `stop_limit.dfy`).
  - `processStopOrder` computes the limit asset and the volume to reserve, collects the
    client's stop orders to cancel, and sums their reservations in a loop.
  - The order then takes one of three paths: it is rejected, triggered straight into
    matching, or parked in the stop book.
  - The reservation and the stop book change only when the balance write succeeds.
  - The state is a class, proved against a pure message-step function (`Step`) whose
    paths are described lemma by lemma.
  - `stop_limit_examples.dfy` works two concrete messages through that step.
- **The batch canceller** (`Canceller`, `canceller.dfy`).
  - It classifies orders as CANCEL (resolvable pair) or REMOVE, and groups them by pair
    and side.
  - It removes the orders from one copy of each pair's book and records the changed sides.
  - It computes the reserve-release wallet operations and splits the order reports into
    the client bucket and the trusted bucket.
  - It builds the persistence data and, in `apply`, cancels the orders in the order
    service and installs the copies as the live books.
  - The canceller and the order service are classes with the source's fields.

Shared entities (orders, pairs, assets, statuses, the outcome of a check) are in
`types.dfy`. `numbers.dfy` gives the decimal rounding and scale helpers over exact
`real` amounts.

## Model

| member | source | states |
|---|---|---|
| InputValidator.ValidateFee | src/main/kotlin/com/lykke/matching/engine/services/validators/input/impl/LimitOrderInputValidatorImpl.kt:74-78 | fails, with InvalidFee only, exactly when `fee` is set and more than one `fees` entry is given, or the fee checker rejects `fees` |
| InputValidator.ValidateAssets | src/main/kotlin/com/lykke/matching/engine/services/validators/input/impl/LimitOrderInputValidatorImpl.kt:80-84 | fails, with DisabledAsset only, exactly when the base or the quoting asset of the pair is disabled |
| InputValidator.ValidatePrice | src/main/kotlin/com/lykke/matching/engine/services/validators/input/impl/LimitOrderInputValidatorImpl.kt:86-90 | fails, with InvalidPrice only, exactly when price <= 0 |
| InputValidator.ValidateLimitPrices | src/main/kotlin/com/lykke/matching/engine/services/validators/input/impl/LimitOrderInputValidatorImpl.kt:92-101 | fails, with InvalidPrice only, exactly when the stop bounds are not well formed: no complete pair, a half pair, a non-positive price, or lowerLimitPrice >= upperLimitPrice with both pairs present |
| InputValidator.CheckMinVolume | src/main/kotlin/com/lykke/matching/engine/services/validators/input/impl/LimitOrderInputValidatorImpl.kt:56-61 | holds exactly when the applicable minimum (minVolume if straight, else minInvertedVolume) is absent or |volume| reaches it |
| InputValidator.ValidateVolume | src/main/kotlin/com/lykke/matching/engine/services/validators/input/impl/LimitOrderInputValidatorImpl.kt:110-120 | raises a non-validation error exactly when the pair is not configured; otherwise TooSmallVolume exactly when the minimum fails, and InvalidVolume (too large) exactly when the minimum holds and |volume| > maxVolume |
| InputValidator.ValidateValue | src/main/kotlin/com/lykke/matching/engine/services/validators/input/impl/LimitOrderInputValidatorImpl.kt:103-108 | raises a non-validation error exactly when the pair is not configured; otherwise fails, with InvalidVolume only, exactly when maxValue is set and |volume| x price > maxValue |
| InputValidator.ValidateVolumeAccuracy | src/main/kotlin/com/lykke/matching/engine/services/validators/input/impl/LimitOrderInputValidatorImpl.kt:122-129 | fails, with InvalidVolumeAccuracy only, exactly when the volume has more decimal places than the base asset's accuracy |
| InputValidator.ValidatePriceAccuracy | src/main/kotlin/com/lykke/matching/engine/services/validators/input/impl/LimitOrderInputValidatorImpl.kt:131-136 | fails, with InvalidPriceAccuracy only, exactly when the price has more decimal places than the pair's accuracy |
| InputValidator.ValidateLimitOrder | src/main/kotlin/com/lykke/matching/engine/services/validators/input/impl/LimitOrderInputValidatorImpl.kt:28-38 | any failure carries one of the limit order's statuses, and never InvalidFee or DisabledAsset for a trusted client |
| InputValidator.ValidateLimitOrderExplicit | src/main/kotlin/com/lykke/matching/engine/services/validators/input/impl/LimitOrderInputValidatorImpl.kt:40-54 | the same status bounds as the context overload, for the overload taking the order's parts |
| InputValidator.ValidateStopOrder | src/main/kotlin/com/lykke/matching/engine/services/validators/input/impl/LimitOrderInputValidatorImpl.kt:63-72 | any failure carries one of the stop order's statuses |
| InputValidator.LimitOrderChecksRunInOrder | src/main/kotlin/com/lykke/matching/engine/services/validators/input/impl/LimitOrderInputValidatorImpl.kt:28-38 | the result is the first failure of fee, assets (both for untrusted clients only), price, volume, price accuracy, volume accuracy |
| InputValidator.ExplicitLimitOrderChecksRunInOrder | src/main/kotlin/com/lykke/matching/engine/services/validators/input/impl/LimitOrderInputValidatorImpl.kt:40-54 | the same chain with the value check placed after the volume check |
| InputValidator.StopOrderChecksRunInOrder | src/main/kotlin/com/lykke/matching/engine/services/validators/input/impl/LimitOrderInputValidatorImpl.kt:63-72 | the result is the first failure of fee, assets, limit prices, volume, volume accuracy, price accuracy, whatever the client's trust |
| InputValidator.TrustedClientsSkipFeeAndAssetChecks | src/main/kotlin/com/lykke/matching/engine/services/validators/input/impl/LimitOrderInputValidatorImpl.kt:30-31 | for a trusted client the verdict does not depend on the fee checker or the disabled assets |
| InputValidator.InvalidFeeComesFirst | src/main/kotlin/com/lykke/matching/engine/services/validators/input/impl/LimitOrderInputValidatorImpl.kt:28-72 | an untrusted client's invalid fee is reported as InvalidFee by both the limit and the stop validator, whatever else is wrong with the order |
| InputValidator.LimitOrderPassesIffAllChecksPass | src/main/kotlin/com/lykke/matching/engine/services/validators/input/impl/LimitOrderInputValidatorImpl.kt:28-38 | a limit order passes exactly when each individual check that applies to it passes |
| InputValidator.ExplicitOverloadAddsOnlyTheValueCheck | src/main/kotlin/com/lykke/matching/engine/services/validators/input/impl/LimitOrderInputValidatorImpl.kt:40-54 | the explicit overload agrees with the context overload whenever the value check passes |
| InputValidator.StopOrderPassesIffAllChecksPass | src/main/kotlin/com/lykke/matching/engine/services/validators/input/impl/LimitOrderInputValidatorImpl.kt:63-72 | a stop order passes exactly when fee, assets, well-formed bounds, volume and both accuracies pass |
| BusinessValidator.CheckBalance | src/main/kotlin/com/lykke/matching/engine/services/validators/business/impl/LimitOrderBusinessValidatorImpl.kt:21-23 | fails, with NotEnoughFunds only, exactly when the available balance is below the required volume |
| BusinessValidator.ValidatePreviousOrderNotFound | src/main/kotlin/com/lykke/matching/engine/services/validators/business/impl/LimitOrderBusinessValidatorImpl.kt:33-37 | fails, with NotFoundPrevious, exactly when the order's status already is NotFoundPrevious |
| BusinessValidator.ValidateLeadToNegativeSpread | src/main/kotlin/com/lykke/matching/engine/services/validators/business/impl/LimitOrderBusinessValidatorImpl.kt:39-43 | fails, with LeadToNegativeSpread, exactly when the book reports a negative spread for the client |
| BusinessValidator.ValidateEnoughFunds | src/main/kotlin/com/lykke/matching/engine/services/validators/business/impl/LimitOrderBusinessValidatorImpl.kt:45-49 | fails, with NotEnoughFunds, exactly when the order's status already is NotEnoughFunds |
| BusinessValidator.CheckExpiration | src/main/kotlin/com/lykke/matching/engine/services/validators/business/impl/LimitOrderBusinessValidatorImpl.kt:51-55 | fails, with Cancelled and reason "expired" only, exactly when the order has expired at the date |
| BusinessValidator.PerformValidation | src/main/kotlin/com/lykke/matching/engine/services/validators/business/impl/LimitOrderBusinessValidatorImpl.kt:15-29 | never raises a non-validation error; a failure carries NotEnoughFunds, LeadToNegativeSpread, NotFoundPrevious or Cancelled |
| BusinessValidator.BusinessChecksRunInOrder | src/main/kotlin/com/lykke/matching/engine/services/validators/business/impl/LimitOrderBusinessValidatorImpl.kt:15-29 | the result is the first failure of balance (untrusted only), negative spread, previous-not-found, not-enough-funds status, expiry |
| BusinessValidator.PerformValidationPassesIff | src/main/kotlin/com/lykke/matching/engine/services/validators/business/impl/LimitOrderBusinessValidatorImpl.kt:15-29 | the order passes exactly when funds suffice or the client is trusted, no negative spread, neither upstream status is set, and it has not expired |
| BusinessValidator.TrustedClientIgnoresBalance | src/main/kotlin/com/lykke/matching/engine/services/validators/business/impl/LimitOrderBusinessValidatorImpl.kt:21-23 | for a trusted client the verdict is the same for any balance figures |
| BusinessValidator.LackOfFundsComesFirst | src/main/kotlin/com/lykke/matching/engine/services/validators/business/impl/LimitOrderBusinessValidatorImpl.kt:21-23 | an untrusted client short of funds gets NotEnoughFunds whatever else holds |
| BusinessValidator.UpstreamStatusBeforeExpiry | src/main/kotlin/com/lykke/matching/engine/services/validators/business/impl/LimitOrderBusinessValidatorImpl.kt:26-28 | with funds and no negative spread, an upstream NotFoundPrevious or NotEnoughFunds status is reported before expiry |
| Preprocessor.GetValidationResult | src/main/kotlin/com/lykke/matching/engine/incoming/preprocessor/impl/SingleLimitOrderPreprocessor.kt:46-59 | LIMIT orders get the limit-order validator's verdict and STOP_LIMIT orders the stop-order validator's; a validation failure becomes (false, reason, status), a pass becomes (true), any other error is no verdict |
| Preprocessor.WriteResponse | src/main/kotlin/com/lykke/matching/engine/incoming/preprocessor/impl/SingleLimitOrderPreprocessor.kt:82-89 | the legacy response exactly for OLD_LIMIT_ORDER messages, otherwise a new response carrying the given status and nothing else |
| Preprocessor.ForwardedWhateverTheVerdict | src/main/kotlin/com/lykke/matching/engine/incoming/preprocessor/impl/SingleLimitOrderPreprocessor.kt:38-44 | a parsed message is forwarded exactly when a verdict was reached, valid or not, carrying that verdict and the same order |
| Preprocessor.InvalidOrdersAreForwarded | src/main/kotlin/com/lykke/matching/engine/incoming/preprocessor/impl/SingleLimitOrderPreprocessor.kt:42-43 | a stop order with an invalid fee is forwarded marked invalid with InvalidFee |
| Preprocessor.SingleLimitOrderPreprocessor.PreProcess | src/main/kotlin/com/lykke/matching/engine/incoming/preprocessor/impl/SingleLimitOrderPreprocessor.kt:38-44 | raises exactly when parsing or validation raises; otherwise appends the parsed message, with its verdict, to the outgoing queue and changes nothing else |
| Preprocessor.SingleLimitOrderPreprocessor.RunOnce | src/main/kotlin/com/lykke/matching/engine/incoming/preprocessor/impl/SingleLimitOrderPreprocessor.kt:61-75 | takes the head of the input queue; a forwarded message writes no response, a raising one is not forwarded and gets exactly one RUNTIME response |
| StopLimit.LimitAssetId | src/main/kotlin/com/lykke/matching/engine/order/StopLimitOrderProcessor.kt:50 | the quoting asset for a buy order, the base asset for a sell order |
| StopLimit.LimitVolume | src/main/kotlin/com/lykke/matching/engine/order/StopLimitOrderProcessor.kt:51-54 | for a buy, volume x (upperPrice, else lowerPrice) rounded up to the asset's accuracy (between the product and one unit above it, at that scale); undefined with neither price; for a sell, |volume| |
| StopLimit.SearchOrders | src/main/kotlin/com/lykke/matching/engine/order/StopLimitOrderProcessor.kt:62 | exactly the stop orders of the book with the client, pair and side of the incoming order |
| StopLimit.SearchOrdersCounts | src/main/kotlin/com/lykke/matching/engine/order/StopLimitOrderProcessor.kt:60-65 | the cancel set holds each matching order of the book exactly as often as the book does, and no other order, so the cancel volume sums exactly the matching orders' reservations |
| StopLimit.SumReservedAppend | src/main/kotlin/com/lykke/matching/engine/order/StopLimitOrderProcessor.kt:65 | the cancel volume of a concatenation of orders is the sum of the parts' reserved volumes |
| StopLimit.RemoveOrders | src/main/kotlin/com/lykke/matching/engine/order/StopLimitOrderProcessor.kt:96 | exactly the stop orders whose ids are not in the cancel set stay in the book |
| StopLimit.RemoveOrdersCounts | src/main/kotlin/com/lykke/matching/engine/order/StopLimitOrderProcessor.kt:96 | removal keeps each order whose id is not cancelled exactly as often as the book holds it, and drops every order whose id is cancelled |
| StopLimit.TriggerPrice | src/main/kotlin/com/lykke/matching/engine/order/StopLimitOrderProcessor.kt:124-131 | lower bound first: lowerPrice when lowerLimitPrice is set and 0 < quote (ask for buy, bid for sell) <= lowerLimitPrice; else upperPrice when upperLimitPrice is set and quote >= upperLimitPrice; else not fired |
| StopLimit.TriggerFiresIff | src/main/kotlin/com/lykke/matching/engine/order/StopLimitOrderProcessor.kt:124-131 | with well-formed bounds the order fires exactly when one bound is met, and the two bounds are never met together |
| StopLimit.WellFormedBoundsGiveReservationPrice | src/main/kotlin/com/lykke/matching/engine/order/StopLimitOrderProcessor.kt:52 | an order that passed the limit-price check always has a positive price to reserve at |
| StopLimit.StopVolumeAccuracy | src/main/kotlin/com/lykke/matching/engine/order/StopLimitOrderProcessor.kt:201 | raises a non-validation error exactly when the base asset is unknown, otherwise is the input validator's volume accuracy check |
| StopLimit.ValidateOrder | src/main/kotlin/com/lykke/matching/engine/order/StopLimitOrderProcessor.kt:195-203 | a failure carries one of the statuses of the processor's checks |
| StopLimit.ProcessorChecksRunInOrder | src/main/kotlin/com/lykke/matching/engine/order/StopLimitOrderProcessor.kt:195-203 | the result is the first failure of fee, assets, limit prices, volume, balance, volume accuracy, price accuracy |
| StopLimit.ProcessorValidationPassesIff | src/main/kotlin/com/lykke/matching/engine/order/StopLimitOrderProcessor.kt:195-203 | the order passes exactly when every one of those checks passes |
| StopLimit.PreparationOnWellFormedBook | src/main/kotlin/com/lykke/matching/engine/order/StopLimitOrderProcessor.kt:49-69 | preparation fails exactly on an unknown pair, an unknown limit asset or a buy order with no price; the cancel volume is never negative, and zero with an empty cancel set when cancelOrders is unset |
| StopLimit.CancelSetIsClientsSide | src/main/kotlin/com/lykke/matching/engine/order/StopLimitOrderProcessor.kt:59-67 | the cancel set is exactly the book's stop orders of the same client, pair and side, and empty without cancelOrders |
| StopLimit.ValidLimitVolumeIsNonNegative | src/main/kotlin/com/lykke/matching/engine/order/StopLimitOrderProcessor.kt:51-54 | an order with well-formed bounds has a defined, non-negative required volume |
| StopLimit.ReservedKeyIsLimitAsset | src/main/kotlin/com/lykke/matching/engine/order/StopLimitOrderProcessor.kt:56-57 | the balance read and written is the client's holding of the limit asset |
| StopLimit.StepKeepsBookWellFormed | src/main/kotlin/com/lykke/matching/engine/order/StopLimitOrderProcessor.kt:96-176 | every stop order in the book keeps a reserved limit volume after any message |
| StopLimit.OnlyTheLimitAssetReservationChanges | src/main/kotlin/com/lykke/matching/engine/order/StopLimitOrderProcessor.kt:82-86 | no balance changes, and no reservation other than the client's limit-asset one |
| StopLimit.RejectedPath | src/main/kotlin/com/lykke/matching/engine/order/StopLimitOrderProcessor.kt:70-118 | on rejection the reservation drops by the cancel volume (rounded) only when that volume is positive; only if that write succeeded (or none was needed) does the cancel set leave the book and the rejection response (external id, id, message id, status), the report and the execution event (with the balance update when one was made) go out; otherwise only a persistence-error response is written |
| StopLimit.TriggeredPath | src/main/kotlin/com/lykke/matching/engine/order/StopLimitOrderProcessor.kt:133-144 | a triggered order, now InOrderBook at the trigger price, is handed to matching with matched volume 0; reservations, stop book and sequence number are untouched |
| StopLimit.ParkedPath | src/main/kotlin/com/lykke/matching/engine/order/StopLimitOrderProcessor.kt:146-192 | reserved becomes round(reserved - cancel + required); on a successful write the cancel set leaves the book, the order joins it with reservedLimitVolume = required, and OK is answered; on a failed write only a persistence-error response is written |
| StopLimit.AbortedPath | src/main/kotlin/com/lykke/matching/engine/order/StopLimitOrderProcessor.kt:48-71 | an aborted message (unknown pair or limit asset, a buy order with no price, a cancelled order without a reservation, or an unknown base asset at the volume-accuracy check) changes nothing |
| StopLimit.AbortedIff | src/main/kotlin/com/lykke/matching/engine/order/StopLimitOrderProcessor.kt:48-71 | processing aborts exactly when the preparation raises, or when the fee, asset, limit-price, volume and balance checks pass and the pair's base asset is unknown to the volume-accuracy lookup |
| StopLimitExamples.MissingBaseAssetAborts | src/main/kotlin/com/lykke/matching/engine/order/StopLimitOrderProcessor.kt:195-203 | a buy stop whose quoting asset is known but whose base asset is not is prepared, passes the checks up to the balance, and is then aborted at the volume-accuracy check with no state change |
| StopLimit.BookChangesOnlyAfterSavedWrite | src/main/kotlin/com/lykke/matching/engine/order/StopLimitOrderProcessor.kt:87-116 | when the balance write fails the stop book and the reservations stay as they were |
| StopLimit.StopLimitOrderProcessor.NextSequenceNumber | src/main/kotlin/com/lykke/matching/engine/order/StopLimitOrderProcessor.kt:79 | returns the next sequence number and records it |
| StopLimit.StopLimitOrderProcessor.UpdateReservedBalance | src/main/kotlin/com/lykke/matching/engine/order/StopLimitOrderProcessor.kt:82-86 | writes the new reservation exactly when the write succeeds, and reports that |
| StopLimit.StopLimitOrderProcessor.PrepareOrder | src/main/kotlin/com/lykke/matching/engine/order/StopLimitOrderProcessor.kt:49-69 | computes the limit asset, required volume, cancel set, cancel volume and available balance exactly as the preparation function does, and gives up (None) where the source throws |
| StopLimit.StopLimitOrderProcessor.SumCancelVolume | src/main/kotlin/com/lykke/matching/engine/order/StopLimitOrderProcessor.kt:60-65 | the loop succeeds exactly when every order to cancel carries a reservation, and then returns the sum of those reservations |
| StopLimit.StepOnPath | src/main/kotlin/com/lykke/matching/engine/order/StopLimitOrderProcessor.kt:45-192 | each way processing can end (aborted, rejected, triggered, parked) applies exactly that path's update to the state |
| StopLimit.StopLimitOrderProcessor.RejectOrder | src/main/kotlin/com/lykke/matching/engine/order/StopLimitOrderProcessor.kt:74-117 | the new state is the rejection step of the old one |
| StopLimit.StopLimitOrderProcessor.ParkOrder | src/main/kotlin/com/lykke/matching/engine/order/StopLimitOrderProcessor.kt:146-192 | the new state is the park step of the old one |
| StopLimit.StopLimitOrderProcessor.ProcessStopOrder | src/main/kotlin/com/lykke/matching/engine/order/StopLimitOrderProcessor.kt:46-193 | the new state is one message step of the old one, whose paths the four path lemmas describe |
| StopLimitExamples.ParkedExample | src/main/kotlin/com/lykke/matching/engine/order/StopLimitOrderProcessor.kt:146-192 | a buy stop of 10 at 15 with 180 available is parked and reserves 150 |
| StopLimitExamples.RejectedExample | src/main/kotlin/com/lykke/matching/engine/order/StopLimitOrderProcessor.kt:70-118 | a buy stop needing 150 with 140 available, cancelling an earlier stop holding 100, is rejected with NotEnoughFunds, releases the 100 and empties the book |
| Canceller.GetOrderOperation | src/main/kotlin/com/lykke/matching/engine/order/cancel/AbstractLimitOrdersCanceller.kt:59-63 | Remove exactly when the order's asset pair cannot be resolved, Cancel otherwise |
| Canceller.OperationsPartition | src/main/kotlin/com/lykke/matching/engine/order/cancel/AbstractLimitOrdersCanceller.kt:50-57 | the cancel and remove lists together hold exactly the input orders (as a multiset) |
| Canceller.OperationsSelect | src/main/kotlin/com/lykke/matching/engine/order/cancel/AbstractLimitOrdersCanceller.kt:50-57 | the cancel list holds only input orders of resolvable pairs, the remove list only those of unresolvable ones |
| Canceller.GroupPreservesOrders | src/main/kotlin/com/lykke/matching/engine/order/cancel/AbstractLimitOrdersCanceller.kt:219-234 | the grouped orders are exactly the input orders (as a multiset) |
| Canceller.GroupIsByPairAndSide | src/main/kotlin/com/lykke/matching/engine/order/cancel/AbstractLimitOrdersCanceller.kt:219-234 | one group per asset pair of the input; each group's buy and sell lists are the input's orders of that pair and side |
| Canceller.GroupSidesAreHomogeneous | src/main/kotlin/com/lykke/matching/engine/order/cancel/AbstractLimitOrdersCanceller.kt:30-40 | every order in a group's buy list is a buy order of that pair, every order in its sell list a sell order of that pair |
| Canceller.AssetOrderBook.RemoveOrder | src/main/kotlin/com/lykke/matching/engine/order/cancel/AbstractLimitOrdersCanceller.kt:179 | the order's side loses exactly the orders with its id; the other side is unchanged |
| Canceller.HasSideIff | src/main/kotlin/com/lykke/matching/engine/order/cancel/AbstractLimitOrdersCanceller.kt:180-184 | a side is touched exactly when some removed order is of that side |
| Canceller.ChangedPairsIff | src/main/kotlin/com/lykke/matching/engine/order/cancel/AbstractLimitOrdersCanceller.kt:180-189 | a pair is marked changed for a side exactly when some group of that pair removed an order of that side |
| Canceller.CopiesKept | src/main/kotlin/com/lykke/matching/engine/order/cancel/AbstractLimitOrdersCanceller.kt:174-176 | after removal the copies cover the earlier copies and the batch's pairs, and copies of other pairs are untouched |
| Canceller.OneCopyPerPair | src/main/kotlin/com/lykke/matching/engine/order/cancel/AbstractLimitOrdersCanceller.kt:173-179 | each pair's copy is its earlier copy or the live book, taken once, with all of the group's orders removed |
| Canceller.RemoveFromBook | src/main/kotlin/com/lykke/matching/engine/order/cancel/AbstractLimitOrdersCanceller.kt:178-185 | removes every order of a group from one book, reporting whether a buy and whether a sell order was removed |
| Canceller.OrderWalletStep | src/main/kotlin/com/lykke/matching/engine/order/cancel/AbstractLimitOrdersCanceller.kt:94-108 | nothing for a trusted client or zero reservation; an error when the limit asset is unknown; else a release with balance delta 0 and reserved delta -min(limitVolume, reserved), never releasing more than is reserved |
| Canceller.GroupWalletOperationsAreReleases | src/main/kotlin/com/lykke/matching/engine/order/cancel/AbstractLimitOrdersCanceller.kt:91-112 | a group yields at most one operation per order, each a release |
| Canceller.WalletOperationsAreReleases | src/main/kotlin/com/lykke/matching/engine/order/cancel/AbstractLimitOrdersCanceller.kt:79-89 | every operation of the batch is a release |
| Canceller.CalculateWalletOperation | src/main/kotlin/com/lykke/matching/engine/order/cancel/AbstractLimitOrdersCanceller.kt:91-112 | the loop builds exactly the group's operations, or fails on an unknown asset |
| Canceller.CalculateWalletOperations | src/main/kotlin/com/lykke/matching/engine/order/cancel/AbstractLimitOrdersCanceller.kt:79-89 | the loop builds exactly the batch's operations over resolvable pairs, or fails |
| Canceller.ClampIsPerOrder | src/main/kotlin/com/lykke/matching/engine/order/cancel/AbstractLimitOrdersCanceller.kt:101-106 | two orders each clamped against the same reservation of 100 release 80 each, 160 in all |
| Canceller.BucketsPartition | src/main/kotlin/com/lykke/matching/engine/order/cancel/AbstractLimitOrdersCanceller.kt:202-217 | every order lands in exactly one bucket, the trusted one exactly when its client is trusted and it is not partially matched |
| Canceller.CalculateOrdersWithTrades | src/main/kotlin/com/lykke/matching/engine/order/cancel/AbstractLimitOrdersCanceller.kt:202-217 | the loop fills the buckets of the flattened groups in order |
| Canceller.ReportsCoverExactlyTheCancelled | src/main/kotlin/com/lykke/matching/engine/order/cancel/AbstractLimitOrdersCanceller.kt:136-146 | the reports cover exactly the cancel list, so removed orders get none |
| Canceller.PersistedRemovalsAreTheBatch | src/main/kotlin/com/lykke/matching/engine/order/cancel/AbstractLimitOrdersCanceller.kt:114-118 | the orders persisted as removed are exactly the cancel and remove lists |
| Canceller.InstalledBooks | src/main/kotlin/com/lykke/matching/engine/order/cancel/AbstractLimitOrdersCanceller.kt:160-166 | after apply the live books are the copies for the batch's pairs and unchanged for other pairs |
| Canceller.LimitOrderService.CancelLimitOrders | src/main/kotlin/com/lykke/matching/engine/order/cancel/AbstractLimitOrdersCanceller.kt:198 | the cancelled orders leave the active-order index, nothing else does |
| Canceller.LimitOrdersCanceller.PreProcessLists | src/main/kotlin/com/lykke/matching/engine/order/cancel/AbstractLimitOrdersCanceller.kt:65-77 | ordersToCancel groups the cancel list only, allOrders groups cancel then remove |
| Canceller.LimitOrdersCanceller.PreProcess | src/main/kotlin/com/lykke/matching/engine/order/cancel/AbstractLimitOrdersCanceller.kt:50-57 | the same, on the split of the input by GetOrderOperation |
| Canceller.LimitOrdersCanceller.RemoveOrdersFromAssetOrderBookCopy | src/main/kotlin/com/lykke/matching/engine/order/cancel/AbstractLimitOrdersCanceller.kt:169-193 | copies once per pair and removes the groups' orders from the copies; marks changed sides; announces a copy of each changed book and side |
| Canceller.LimitOrdersCanceller.Process | src/main/kotlin/com/lykke/matching/engine/order/cancel/AbstractLimitOrdersCanceller.kt:136-147 | changes the copies for allOrders; reports and wallet operations come from ordersToCancel only; no result when an asset is unknown |
| Canceller.LimitOrdersCanceller.GetPersistenceData | src/main/kotlin/com/lykke/matching/engine/order/cancel/AbstractLimitOrdersCanceller.kt:114-132 | every order of allOrders is removed, none saved, and a side snapshot of a copy exists exactly for each changed pair and side |
| Canceller.LimitOrdersCanceller.Apply | src/main/kotlin/com/lykke/matching/engine/order/cancel/AbstractLimitOrdersCanceller.kt:154-166 | cancels every grouped order in the service and installs each pair's copy as its live book |
| Canceller.LimitOrdersCanceller.RemoveGroupFromCache | src/main/kotlin/com/lykke/matching/engine/order/cancel/AbstractLimitOrdersCanceller.kt:197-200 | cancels the group's buy and sell orders in the service (they leave the active orders) and installs the pair's copy as its live book; no other book changes |

## Left out

- Threads, blocking queues, logging and metrics are not modelled. The preprocessor is modelled as one iteration of its loop over a sequence queue.
- Protobuf builders, the event factory and message sending are outputs only. Responses, reports, balance updates, executions and hand-offs to matching become entries of an output log, with their payloads.
- `SingleLimitOrderContextParser` is not part of this model. It is a parameter that may fail.
- Several collaborators whose code is not part of this model are parameters:
  - `checkFee`;
  - `leadToNegativeSpreadForClient`;
  - `isExpired`;
  - `getOrderLimitVolume` (`Holders.limitVolumeOf`);
  - the balance-write outcome (`persisted`).
- Best bid and best ask are inputs to the stop-limit processor. The order book's own structure is not modelled.
- `OrderValidationUtils.validateBalance` is not part of this model. It is given the meaning NotEnoughFunds exactly when the available balance is below the required volume.
- `BalancesHolder.getAvailableBalance` is modelled as balance − reserved + the released volume.
- `NumberUtils` is not part of this model. Its helpers are defined over exact decimals:
  - rounding up means toward +∞, which equals `BigDecimal` UP for the non-negative amounts involved;
  - half-up rounds halves away from zero;
  - "scale smaller or equal" means a whole multiple of 10^-scale.
- `LimitOrderValidator` is not part of this model. It is the stop-limit processor's validator, which is not shown. The input validator's fee, asset, limit-price, volume and price-accuracy checks stand for its checks of the same names. Its volume-accuracy check takes only the order, so it must look up the base asset of the order's pair itself; `StopLimit.StopVolumeAccuracy` models that lookup, and an unknown base asset is an error there.
- `MessageStatusUtils.toMessageStatus` is kept symbolic (`OfOrder(status)`).
- `processLimitOrder`, the matching algorithm, is not modelled. The triggered order is handed off as an output entry.
- `getCancelResult` becomes the `CancelResult` datatype, and `processChangedOrderBook` becomes a set of announced book copies.
- `genericLimitOrderService.cancelLimitOrders` is not part of this model. It is modelled as removing the orders, by id, from an index of active orders, without changing the orders' statuses.
- Kotlin's non-null assertions (`!!`) and lookups that throw are error outcomes, not crashes:
  - a validation `Error` outcome, which makes the preprocessor answer RUNTIME;
  - an aborted stop-limit step that changes nothing, when the pair, the limit asset, a reservation price or a cancelled order's reserved volume is missing, or when the base asset of the order's pair is unknown at the volume-accuracy check (for a buy order the limit asset is the quoting asset, so the preparation does not catch this);
  - no canceller result when an asset is unknown.
- Canceller.LimitOrdersCanceller.Process: when an unknown asset makes wallet operations fail, the copies and the changed sides have already been updated. This matches the source, where the exception escapes after the removal.
- Canceller.LimitOrdersCanceller.Apply: its message id, processed message and result parameters are unused in the source and are dropped. It requires that every grouped pair has a copy, which `process` guarantees and which the source enforces with `!!`.
- Hash-map and hash-set iteration orders are not modelled:
  - groups come in the order in which their pair first appears;
  - persistence snapshots and changed-book notices are sets.
- Order reports are values, so the aliasing between a report and the order it describes is not modelled, and neither are the status changes that `cancelStopLimitOrders` makes.
- BusinessValidator.ValidatePreviousOrderNotFound: its reason text leaves out the previous external id that the source appends. The status is exact.
- The validators' other reason texts are shortened to their fixed wording.
- StopLimit.TriggeredPath: on the triggered path the cancel set is left in the stop book and no reservation is released. This is what the source does; the model keeps it.
- Canceller.ClampIsPerOrder: each order's release is clamped against the same unchanged reservation, so several orders of one client can release more than is reserved. This is the source's behaviour, and the lemma exhibits it; the model does not add a cap.
