/** Intake of a stop-limit order (StopLimitOrderProcessor.processStopOrder).
    The order reserves funds in one asset, may first release the client's resting stop
    orders on the same pair and side, and then ends in one of three ways: rejected by
    validation, triggered at once against the best bid or ask and handed to matching,
    or parked in the stop book with its reservation. */
module StopLimit {
  import opened Types
  import opened Numbers
  import InputValidator
  import BusinessValidator

  /** Something the processor emits, in emission order: a response to the sender, a
      balance-update notification, a client limit-orders report, an execution event, or
      the hand-off of a triggered order to the limit-order matching processor. */
  datatype Output =
    | ResponseOut(response: Response)
    | BalanceUpdateOut(externalId: string, updates: seq<ClientBalanceUpdate>, messageId: string)
    | ReportOut(messageId: string, orders: seq<LimitOrder>)
    | EventOut(sequenceNumber: int, messageId: string, updates: seq<ClientBalanceUpdate>, orders: seq<LimitOrder>)
    | MatchingHandOff(messageId: string, order: LimitOrder, matchedVolume: real)

  /** The state processStopOrder reads and writes: balances and reserved balances per
      client and asset, the stop-order book, the message sequence number and the log of
      emitted outputs. */
  datatype StopEngine = StopEngine(
    balances: map<BalanceKey, real>,
    reserved: map<BalanceKey, real>,
    stopBook: seq<LimitOrder>,
    sequenceNumber: int,
    published: seq<Output>)

  /** Reference data and the fee checker the validator consults. */
  datatype Environment = Environment(reference: ReferenceData, checkFee: InputValidator.FeeChecker)

  /** The asset a stop order reserves: the quoting asset for a buy, the base asset for a sell. */
  function LimitAssetId(order: LimitOrder, assetPair: AssetPair): (id: string)
    ensures id == assetPair.quotingAssetId || id == assetPair.baseAssetId
    ensures order.IsBuySide() ==> id == assetPair.quotingAssetId
    ensures !order.IsBuySide() ==> id == assetPair.baseAssetId
  {
    if order.IsBuySide() then assetPair.quotingAssetId else assetPair.baseAssetId
  }

  /** The price a buy reservation is computed at: the upper price if set, else the lower one. */
  function ReservationPrice(order: LimitOrder): Option<real>
  {
    if order.upperPrice.Some? then order.upperPrice else order.lowerPrice
  }

  /** The volume a stop order reserves, at the limit asset's accuracy. `None` stands for the
      exception raised for a buy order that has neither an upper nor a lower price. */
  function LimitVolume(order: LimitOrder, accuracy: nat): (r: Option<real>)
    ensures r.None? <==> order.IsBuySide() && order.upperPrice.None? && order.lowerPrice.None?
    ensures order.IsBuySide() && order.upperPrice.Some? ==>
      (r.Some? && order.volume * order.upperPrice.value <= r.value < order.volume * order.upperPrice.value + 1.0 / Pow10(accuracy))
    ensures order.IsBuySide() && order.upperPrice.None? && order.lowerPrice.Some? ==>
      (r.Some? && order.volume * order.lowerPrice.value <= r.value < order.volume * order.lowerPrice.value + 1.0 / Pow10(accuracy))
    ensures order.IsBuySide() && r.Some? ==> IsScaleSmallerOrEqual(r.value, accuracy)
    ensures !order.IsBuySide() ==> r == Some(order.AbsVolume())
  {
    if order.IsBuySide() then
      match ReservationPrice(order)
      case None => None
      case Some(price) => Some(SetScaleRoundUp(order.volume * price, accuracy))
    else Some(order.AbsVolume())
  }

  /** The available balance of a key once `adjustment` of its reservation is released.
      (BalancesHolder.getAvailableBalance is not part of this model; this is the
      definition assumed for it.) */
  function AvailableBalance(balances: map<BalanceKey, real>, reserved: map<BalanceKey, real>,
                            key: BalanceKey, adjustment: real): real
  {
    GetOrZero(balances, key) - GetOrZero(reserved, key) + adjustment
  }

  predicate SameClientPairSide(o: LimitOrder, clientId: string, assetPairId: string, isBuy: bool)
  {
    o.clientId == clientId && o.assetPairId == assetPairId && o.IsBuySide() == isBuy
  }

  /** The resting stop orders of a client on one pair and side, in book order. */
  function SearchOrders(book: seq<LimitOrder>, clientId: string, assetPairId: string, isBuy: bool): (r: seq<LimitOrder>)
    ensures forall o :: o in r <==> o in book && SameClientPairSide(o, clientId, assetPairId, isBuy)
    ensures |r| <= |book|
  {
    if book == [] then []
    else
      (if SameClientPairSide(book[0], clientId, assetPairId, isBuy) then [book[0]] else [])
      + SearchOrders(book[1..], clientId, assetPairId, isBuy)
  }

  /** The search keeps every matching order of the book as often as the book holds it, and
      no other order. */
  lemma {:induction false} SearchOrdersCounts(book: seq<LimitOrder>, clientId: string, assetPairId: string, isBuy: bool)
    ensures forall o :: multiset(SearchOrders(book, clientId, assetPairId, isBuy))[o] ==
                        if SameClientPairSide(o, clientId, assetPairId, isBuy) then multiset(book)[o] else 0
  {
    if book != [] {
      SearchOrdersCounts(book[1..], clientId, assetPairId, isBuy);
      assert book == [book[0]] + book[1..];
    }
  }

  predicate AllReserved(orders: seq<LimitOrder>)
  {
    forall i :: 0 <= i < |orders| ==> orders[i].reservedLimitVolume.Some?
  }

  /** Total of the reservations of some stop orders. */
  function SumReserved(orders: seq<LimitOrder>): real
    requires AllReserved(orders)
  {
    if orders == [] then 0.0
    else SumReserved(orders[..|orders| - 1]) + orders[|orders| - 1].reservedLimitVolume.value
  }

  lemma {:induction false} SumReservedAppend(a: seq<LimitOrder>, b: seq<LimitOrder>)
    requires AllReserved(a) && AllReserved(b)
    ensures AllReserved(a + b)
    ensures SumReserved(a + b) == SumReserved(a) + SumReserved(b)
  {
    if b != [] {
      var b' := b[..|b| - 1];
      assert (a + b)[..|a + b| - 1] == a + b';
      SumReservedAppend(a, b');
    } else {
      assert a + b == a;
    }
  }

  /** Reservations that are all nonnegative add up to a nonnegative total. */
  lemma {:induction false} SumReservedNonNegative(orders: seq<LimitOrder>)
    requires AllReserved(orders)
    requires forall i :: 0 <= i < |orders| ==> orders[i].reservedLimitVolume.value >= 0.0
    ensures SumReserved(orders) >= 0.0
  {
    if orders != [] {
      SumReservedNonNegative(orders[..|orders| - 1]);
    }
  }

  function Ids(orders: seq<LimitOrder>): set<string>
  {
    set o | o in orders :: o.id
  }

  /** The book once the given orders are cancelled, matched by id. */
  function RemoveOrders(book: seq<LimitOrder>, toCancel: seq<LimitOrder>): (r: seq<LimitOrder>)
    ensures forall o :: o in r <==> o in book && o.id !in Ids(toCancel)
    ensures |r| <= |book|
  {
    if book == [] then []
    else
      (if book[0].id in Ids(toCancel) then [] else [book[0]]) + RemoveOrders(book[1..], toCancel)
  }

  /** Removal keeps every order whose id is not cancelled as often as the book holds it, and
      drops the others entirely. */
  lemma {:induction false} RemoveOrdersCounts(book: seq<LimitOrder>, toCancel: seq<LimitOrder>)
    ensures forall o :: multiset(RemoveOrders(book, toCancel))[o] == if o.id in Ids(toCancel) then 0 else multiset(book)[o]
  {
    if book != [] {
      RemoveOrdersCounts(book[1..], toCancel);
      assert book == [book[0]] + book[1..];
    }
  }

  /** The trigger price, if the order fires against the best bid and ask: the lower bound
      is tried first, against the best ask for a buy and the best bid for a sell. */
  function TriggerPrice(order: LimitOrder, bestBid: real, bestAsk: real): (r: Option<real>)
    ensures var quote := if order.IsBuySide() then bestAsk else bestBid;
            var lowerFires := order.lowerLimitPrice.Some? && 0.0 < quote <= order.lowerLimitPrice.value;
            var upperFires := order.upperLimitPrice.Some? && quote >= order.upperLimitPrice.value;
            (lowerFires ==> r == order.lowerPrice) &&
            (!lowerFires && upperFires ==> r == order.upperPrice) &&
            (!lowerFires && !upperFires ==> r.None?)
  {
    if order.lowerLimitPrice.Some? &&
       ((order.IsBuySide() && bestAsk > 0.0 && bestAsk <= order.lowerLimitPrice.value) ||
        (!order.IsBuySide() && bestBid > 0.0 && bestBid <= order.lowerLimitPrice.value)) then
      order.lowerPrice
    else if order.upperLimitPrice.Some? &&
            ((order.IsBuySide() && bestAsk >= order.upperLimitPrice.value) ||
             (!order.IsBuySide() && bestBid >= order.upperLimitPrice.value)) then
      order.upperPrice
    else None
  }

  /** With well-formed bounds the order fires exactly when the quote has fallen to the lower
      trigger price or risen to the upper one, and at most one of the two can hold. */
  lemma TriggerFiresIff(order: LimitOrder, bestBid: real, bestAsk: real)
    requires InputValidator.WellFormedBounds(InputValidator.Bounds(order))
    ensures var quote := if order.IsBuySide() then bestAsk else bestBid;
            var lowerFires := order.lowerLimitPrice.Some? && 0.0 < quote <= order.lowerLimitPrice.value;
            var upperFires := order.upperLimitPrice.Some? && quote >= order.upperLimitPrice.value;
            (TriggerPrice(order, bestBid, bestAsk).Some? <==> lowerFires || upperFires) &&
            !(lowerFires && upperFires)
  {
  }

  /** With well-formed bounds the reservation price is set and positive. */
  lemma WellFormedBoundsGiveReservationPrice(order: LimitOrder)
    requires InputValidator.WellFormedBounds(InputValidator.Bounds(order))
    ensures ReservationPrice(order).Some? && ReservationPrice(order).value > 0.0
  {
  }

  /** validateOrder's volume-accuracy check reads the base asset of the order's pair. */
  function StopVolumeAccuracy(order: LimitOrder, assetPair: AssetPair, assets: map<string, Asset>): (r: Check)
    ensures r.Error? <==> assetPair.baseAssetId !in assets
    ensures assetPair.baseAssetId in assets ==> r == InputValidator.ValidateVolumeAccuracy(order, assets[assetPair.baseAssetId])
  {
    if assetPair.baseAssetId !in assets then Error("Unable to find asset " + assetPair.baseAssetId)
    else InputValidator.ValidateVolumeAccuracy(order, assets[assetPair.baseAssetId])
  }

  /** The checks of validateOrder, in the order they run. */
  function ProcessorChecks(order: LimitOrder, assetPair: AssetPair, availableBalance: real, limitVolume: real,
                           env: Environment): seq<Check>
  {
    [InputValidator.ValidateFee(order, env.checkFee),
     InputValidator.ValidateAssets(assetPair, env.reference.disabledAssets),
     InputValidator.ValidateLimitPrices(order),
     InputValidator.ValidateVolume(order, env.reference.assetPairs),
     BusinessValidator.CheckBalance(availableBalance, limitVolume),
     StopVolumeAccuracy(order, assetPair, env.reference.assets),
     InputValidator.ValidatePriceAccuracy(order, assetPair)]
  }

  function ValidateOrder(order: LimitOrder, assetPair: AssetPair, availableBalance: real, limitVolume: real,
                         env: Environment): (r: Check)
    ensures r.Invalid? ==> r.status in {InvalidFee, DisabledAsset, InvalidPrice, TooSmallVolume, InvalidVolume,
                                        NotEnoughFunds, InvalidVolumeAccuracy, InvalidPriceAccuracy}
  {
    if !InputValidator.ValidateFee(order, env.checkFee).Passed? then InputValidator.ValidateFee(order, env.checkFee)
    else if !InputValidator.ValidateAssets(assetPair, env.reference.disabledAssets).Passed? then
      InputValidator.ValidateAssets(assetPair, env.reference.disabledAssets)
    else if !InputValidator.ValidateLimitPrices(order).Passed? then InputValidator.ValidateLimitPrices(order)
    else if !InputValidator.ValidateVolume(order, env.reference.assetPairs).Passed? then
      InputValidator.ValidateVolume(order, env.reference.assetPairs)
    else if !BusinessValidator.CheckBalance(availableBalance, limitVolume).Passed? then
      BusinessValidator.CheckBalance(availableBalance, limitVolume)
    else if !StopVolumeAccuracy(order, assetPair, env.reference.assets).Passed? then
      StopVolumeAccuracy(order, assetPair, env.reference.assets)
    else InputValidator.ValidatePriceAccuracy(order, assetPair)
  }

  /** validateOrder runs fee, assets, limit prices, volume, balance, volume accuracy and price
      accuracy in that order, and the first failure wins. */
  lemma {:induction false} ProcessorChecksRunInOrder(order: LimitOrder, assetPair: AssetPair, availableBalance: real,
                                                     limitVolume: real, env: Environment)
    ensures ValidateOrder(order, assetPair, availableBalance, limitVolume, env) ==
            FirstFailure(ProcessorChecks(order, assetPair, availableBalance, limitVolume, env))
  {
    FirstFailureOfSeven(InputValidator.ValidateFee(order, env.checkFee),
                        InputValidator.ValidateAssets(assetPair, env.reference.disabledAssets),
                        InputValidator.ValidateLimitPrices(order),
                        InputValidator.ValidateVolume(order, env.reference.assetPairs),
                        BusinessValidator.CheckBalance(availableBalance, limitVolume),
                        StopVolumeAccuracy(order, assetPair, env.reference.assets),
                        InputValidator.ValidatePriceAccuracy(order, assetPair));
  }

  /** A stop order passes validateOrder exactly when each of its seven checks passes. */
  lemma ProcessorValidationPassesIff(order: LimitOrder, assetPair: AssetPair, availableBalance: real,
                                     limitVolume: real, env: Environment)
    ensures ValidateOrder(order, assetPair, availableBalance, limitVolume, env).Passed? <==>
      InputValidator.ValidateFee(order, env.checkFee).Passed? &&
      InputValidator.ValidateAssets(assetPair, env.reference.disabledAssets).Passed? &&
      InputValidator.WellFormedBounds(InputValidator.Bounds(order)) &&
      InputValidator.ValidateVolume(order, env.reference.assetPairs).Passed? &&
      availableBalance >= limitVolume &&
      assetPair.baseAssetId in env.reference.assets &&
      IsScaleSmallerOrEqual(order.volume, env.reference.assets[assetPair.baseAssetId].accuracy) &&
      IsScaleSmallerOrEqual(order.price, assetPair.accuracy)
  {

  }

  /** Everything processStopOrder works out before validating. */
  datatype Preparation = Preparation(
    assetPair: AssetPair,
    limitAsset: Asset,
    key: BalanceKey,
    limitVolume: real,
    balance: real,
    reserved: real,
    toCancel: seq<LimitOrder>,
    cancelVolume: real,
    availableBalance: real)

  /** `None` when the preparation raises: the pair or the limit asset is unknown, a buy
      order has no price to reserve at, or an order to cancel carries no reservation. */
  function Prepare(e: StopEngine, context: SingleLimitContext, reference: ReferenceData): Option<Preparation>
  {
    var order := context.limitOrder;
    if order.assetPairId !in reference.assetPairs then None
    else
      var assetPair := reference.assetPairs[order.assetPairId];
      var assetId := LimitAssetId(order, assetPair);
      if assetId !in reference.assets then None
      else
        var asset := reference.assets[assetId];
        var limitVolume := LimitVolume(order, asset.accuracy);
        if limitVolume.None? then None
        else
          var key := BalanceKey(order.clientId, assetId);
          var toCancel := if context.cancelOrders
                          then SearchOrders(e.stopBook, order.clientId, order.assetPairId, order.IsBuySide())
                          else [];
          if !AllReserved(toCancel) then None
          else
            var cancelVolume := SumReserved(toCancel);
            Some(Preparation(assetPair, asset, key, limitVolume.value, GetOrZero(e.balances, key), GetOrZero(e.reserved, key),
                             toCancel, cancelVolume,
                             SetScaleRoundHalfUp(AvailableBalance(e.balances, e.reserved, key, cancelVolume), asset.accuracy)))
  }

  /** The response written when a balance change could not be saved. */
  function PersistenceErrorResponse(order: LimitOrder): Response
  {
    NewResponse(None, Some(order.id), None, OfOrder(order.status), Some("Unable to save result data"))
  }

  /** Rejection: the order takes the failing status; the cancel set's reservation is released
      when there is one to release, and the cancel set leaves the book only if that release
      (when needed) was saved. */
  function Reject(e: StopEngine, messageId: string, context: SingleLimitContext, p: Preparation,
                  status: OrderStatus, persisted: bool): StopEngine
  {
    var order := context.limitOrder;
    var rejected := order.UpdateStatus(status, context.orderProcessingStartTime);
    var sequenceNumber := e.sequenceNumber + 1;
    var newReserved := SetScaleRoundHalfUp(p.reserved - p.cancelVolume, p.limitAsset.accuracy);
    var releases := p.cancelVolume > 0.0;
    var updates := if releases && persisted
                   then [ClientBalanceUpdate(order.clientId, p.key.assetId, p.balance, p.balance, p.reserved, newReserved)]
                   else [];
    var balanceOutputs := if releases && persisted then [BalanceUpdateOut(order.externalId, updates, messageId)] else [];
    if !releases || persisted then
      e.(reserved := if releases then e.reserved[p.key := newReserved] else e.reserved,
         stopBook := RemoveOrders(e.stopBook, p.toCancel),
         sequenceNumber := sequenceNumber,
         published := e.published + balanceOutputs +
           [ResponseOut(NewResponse(Some(order.externalId), Some(order.id), Some(messageId), OfOrder(status), None)),
            ReportOut(messageId, p.toCancel + [rejected]),
            EventOut(sequenceNumber, messageId, updates, p.toCancel + [rejected])])
    else
      e.(sequenceNumber := sequenceNumber,
         published := e.published + [ResponseOut(PersistenceErrorResponse(rejected))])
  }

  /** Immediate trigger: the order enters the order book at the trigger price and goes to
      matching with nothing matched yet; the state is otherwise untouched. */
  function Trigger(e: StopEngine, messageId: string, context: SingleLimitContext, price: real): StopEngine
  {
    var triggered := context.limitOrder.UpdateStatus(InOrderBook, context.orderProcessingStartTime).(price := price);
    e.(published := e.published + [MatchingHandOff(messageId, triggered, 0.0)])
  }

  /** Parking: the reservation becomes reserved − cancel volume + limit volume at the asset's
      accuracy; only when that is saved does the cancel set leave the book and the order
      join it with its reservation. */
  function Park(e: StopEngine, messageId: string, context: SingleLimitContext, p: Preparation, persisted: bool): StopEngine
  {
    var order := context.limitOrder;
    var newReserved := SetScaleRoundHalfUp(p.reserved - p.cancelVolume + p.limitVolume, p.limitAsset.accuracy);
    var updates := [ClientBalanceUpdate(order.clientId, p.key.assetId, p.balance, p.balance, p.reserved, newReserved)];
    var sequenceNumber := e.sequenceNumber + 1;
    var parked := order.(reservedLimitVolume := Some(p.limitVolume));
    if !persisted then
      e.(sequenceNumber := sequenceNumber, published := e.published + [ResponseOut(PersistenceErrorResponse(order))])
    else
      e.(reserved := e.reserved[p.key := newReserved],
         stopBook := RemoveOrders(e.stopBook, p.toCancel) + [parked],
         sequenceNumber := sequenceNumber,
         published := e.published +
           [BalanceUpdateOut(order.externalId, updates, messageId),
            ResponseOut(NewResponse(None, Some(order.id), None, Ok, None)),
            ReportOut(messageId, p.toCancel + [parked]),
            EventOut(sequenceNumber, messageId, updates, p.toCancel + [parked])])
  }

  /** The way a stop order's processing ends. */
  datatype Path = Aborted | Rejected(status: OrderStatus) | Triggered(price: real) | Parked

  function Classify(e: StopEngine, context: SingleLimitContext, bestBid: real, bestAsk: real, env: Environment): Path
  {
    var prep := Prepare(e, context, env.reference);
    if prep.None? then Aborted
    else
      var check := ValidateOrder(context.limitOrder, prep.value.assetPair, prep.value.availableBalance,
                                 prep.value.limitVolume, env);
      if check.Error? then Aborted
      else if check.Invalid? then Rejected(check.status)
      else match TriggerPrice(context.limitOrder, bestBid, bestAsk)
        case Some(price) => Triggered(price)
        case None => Parked
  }

  /** processStopOrder as a function of the state before it; `persisted` is the outcome of
      the reserved-balance write, when one is made. */
  function Step(e: StopEngine, messageId: string, context: SingleLimitContext, bestBid: real, bestAsk: real,
                persisted: bool, env: Environment): StopEngine
  {
    var prep := Prepare(e, context, env.reference);
    if prep.None? then e
    else
      var p := prep.value;
      var check := ValidateOrder(context.limitOrder, p.assetPair, p.availableBalance, p.limitVolume, env);
      if check.Error? then e
      else if check.Invalid? then Reject(e, messageId, context, p, check.status, persisted)
      else match TriggerPrice(context.limitOrder, bestBid, bestAsk)
        case Some(price) => Trigger(e, messageId, context, price)
        case None => Park(e, messageId, context, p, persisted)
  }

  /** Step follows the path Classify names: each path's update applied to the preparation. */
  lemma StepOnPath(e: StopEngine, messageId: string, context: SingleLimitContext, bestBid: real, bestAsk: real,
                   persisted: bool, env: Environment)
    ensures var path := Classify(e, context, bestBid, bestAsk, env);
            var e' := Step(e, messageId, context, bestBid, bestAsk, persisted, env);
            (path.Aborted? ==> e' == e) &&
            (path.Rejected? ==> e' == Reject(e, messageId, context, Prepare(e, context, env.reference).value, path.status, persisted)) &&
            (path.Triggered? ==> e' == Trigger(e, messageId, context, path.price)) &&
            (path.Parked? ==> e' == Park(e, messageId, context, Prepare(e, context, env.reference).value, persisted))
  {
  }

  /** Every order in the stop book carries a nonnegative reservation. */
  predicate WellFormedBook(book: seq<LimitOrder>)
  {
    forall i :: 0 <= i < |book| ==> book[i].reservedLimitVolume.Some? && book[i].reservedLimitVolume.value >= 0.0
  }

  lemma SearchPreservesWellFormed(book: seq<LimitOrder>, clientId: string, assetPairId: string, isBuy: bool)
    requires WellFormedBook(book)
    ensures WellFormedBook(SearchOrders(book, clientId, assetPairId, isBuy))
  {
    var found := SearchOrders(book, clientId, assetPairId, isBuy);
    forall i | 0 <= i < |found|
      ensures found[i].reservedLimitVolume.Some? && found[i].reservedLimitVolume.value >= 0.0
    {
      assert found[i] in book;
    }
  }

  /** On a well-formed book the preparation raises only for an unknown pair or asset or a
      buy order without prices, and the cancel volume is never negative. */
  lemma {:induction false} PreparationOnWellFormedBook(e: StopEngine, context: SingleLimitContext, reference: ReferenceData)
    requires WellFormedBook(e.stopBook)
    ensures var order := context.limitOrder;
            Prepare(e, context, reference).None? <==>
              order.assetPairId !in reference.assetPairs ||
              LimitAssetId(order, reference.assetPairs[order.assetPairId]) !in reference.assets ||
              (order.IsBuySide() && order.upperPrice.None? && order.lowerPrice.None?)
    ensures Prepare(e, context, reference).Some? ==> Prepare(e, context, reference).value.cancelVolume >= 0.0
    ensures Prepare(e, context, reference).Some? && !context.cancelOrders ==>
            Prepare(e, context, reference).value.cancelVolume == 0.0 && Prepare(e, context, reference).value.toCancel == []
  {
    var order := context.limitOrder;
    if context.cancelOrders {
      SearchPreservesWellFormed(e.stopBook, order.clientId, order.assetPairId, order.IsBuySide());
      var found := SearchOrders(e.stopBook, order.clientId, order.assetPairId, order.IsBuySide());
      SumReservedNonNegative(found);
    }
  }

  /** The cancel set is every resting stop order of the same client, pair and side when the
      context asks to cancel, and nothing otherwise. */
  lemma CancelSetIsClientsSide(e: StopEngine, context: SingleLimitContext, reference: ReferenceData)
    requires Prepare(e, context, reference).Some?
    ensures var order := context.limitOrder;
            forall o :: o in Prepare(e, context, reference).value.toCancel <==>
              context.cancelOrders && o in e.stopBook && SameClientPairSide(o, order.clientId, order.assetPairId, order.IsBuySide())
  {
  }

  /** An order that passed its bound checks reserves a nonnegative volume. */
  lemma ValidLimitVolumeIsNonNegative(order: LimitOrder, accuracy: nat)
    requires InputValidator.WellFormedBounds(InputValidator.Bounds(order))
    ensures LimitVolume(order, accuracy).Some? && LimitVolume(order, accuracy).value >= 0.0
  {
    WellFormedBoundsGiveReservationPrice(order);
    if order.IsBuySide() {
      var price := ReservationPrice(order).value;
      assert order.volume * price > 0.0;
    }
  }

  lemma RemoveKeepsWellFormed(book: seq<LimitOrder>, toCancel: seq<LimitOrder>)
    requires WellFormedBook(book)
    ensures WellFormedBook(RemoveOrders(book, toCancel))
  {
    var rest := RemoveOrders(book, toCancel);
    forall i | 0 <= i < |rest|
      ensures rest[i].reservedLimitVolume.Some? && rest[i].reservedLimitVolume.value >= 0.0
    {
      assert rest[i] in book;
    }
  }

  /** processStopOrder keeps the stop book well formed. */
  lemma {:induction false} StepKeepsBookWellFormed(e: StopEngine, messageId: string, context: SingleLimitContext,
                                                   bestBid: real, bestAsk: real, persisted: bool, env: Environment)
    requires WellFormedBook(e.stopBook)
    ensures WellFormedBook(Step(e, messageId, context, bestBid, bestAsk, persisted, env).stopBook)
  {
    StepOnPath(e, messageId, context, bestBid, bestAsk, persisted, env);
    var path := Classify(e, context, bestBid, bestAsk, env);
    if path.Rejected? || path.Parked? {
      var p := Prepare(e, context, env.reference).value;
      var order := context.limitOrder;
      RemoveKeepsWellFormed(e.stopBook, p.toCancel);
      if path.Parked? {
        ProcessorValidationPassesIff(order, p.assetPair, p.availableBalance, p.limitVolume, env);
        ValidLimitVolumeIsNonNegative(order, p.limitAsset.accuracy);
        ParkUpdates(e, messageId, context, p, persisted);
      }
    }
  }

  /** Balances are never written, and the only reservation that can change is the client's
      reservation in the limit asset. */
  lemma OnlyTheLimitAssetReservationChanges(e: StopEngine, messageId: string, context: SingleLimitContext,
                                            bestBid: real, bestAsk: real, persisted: bool, env: Environment, k: BalanceKey)
    requires Prepare(e, context, env.reference).Some? ==> k != Prepare(e, context, env.reference).value.key
    ensures Step(e, messageId, context, bestBid, bestAsk, persisted, env).balances == e.balances
    ensures GetOrZero(Step(e, messageId, context, bestBid, bestAsk, persisted, env).reserved, k) == GetOrZero(e.reserved, k)
  {
    StepOnPath(e, messageId, context, bestBid, bestAsk, persisted, env);
  }

  /** The key whose reservation may change is the client's one in the quoting asset for a
      buy and in the base asset for a sell. */
  lemma ReservedKeyIsLimitAsset(e: StopEngine, context: SingleLimitContext, reference: ReferenceData)
    requires Prepare(e, context, reference).Some?
    ensures var order := context.limitOrder;
            var pair := reference.assetPairs[order.assetPairId];
            Prepare(e, context, reference).value.key ==
              BalanceKey(order.clientId, if order.IsBuySide() then pair.quotingAssetId else pair.baseAssetId)
  {
  }

  /** Rejection releases exactly the cancel volume from the reservation, and only when it is
      positive; the cancel set leaves the book and the order is reported only if the release
      (when needed) was saved; otherwise only a persistence-error response is written. */
  lemma RejectedPath(e: StopEngine, messageId: string, context: SingleLimitContext,
                     bestBid: real, bestAsk: real, persisted: bool, env: Environment)
    requires Classify(e, context, bestBid, bestAsk, env).Rejected?
    ensures var p := Prepare(e, context, env.reference).value;
            var status := Classify(e, context, bestBid, bestAsk, env).status;
            var e' := Step(e, messageId, context, bestBid, bestAsk, persisted, env);
            var rejected := context.limitOrder.UpdateStatus(status, context.orderProcessingStartTime);
            e'.sequenceNumber == e.sequenceNumber + 1 &&
            e'.balances == e.balances &&
            (p.cancelVolume <= 0.0 ==> e'.reserved == e.reserved) &&
            (p.cancelVolume > 0.0 && persisted ==>
               e'.reserved == e.reserved[p.key := SetScaleRoundHalfUp(p.reserved - p.cancelVolume, p.limitAsset.accuracy)]) &&
            (p.cancelVolume <= 0.0 || persisted ==>
               var updates := if p.cancelVolume > 0.0
                              then [ClientBalanceUpdate(context.limitOrder.clientId, p.key.assetId, p.balance, p.balance, p.reserved,
                                                        SetScaleRoundHalfUp(p.reserved - p.cancelVolume, p.limitAsset.accuracy))]
                              else [];
               e'.stopBook == RemoveOrders(e.stopBook, p.toCancel) &&
               ResponseOut(NewResponse(Some(context.limitOrder.externalId), Some(context.limitOrder.id), Some(messageId),
                                       OfOrder(status), None)) in e'.published &&
               ReportOut(messageId, p.toCancel + [rejected]) in e'.published &&
               EventOut(e.sequenceNumber + 1, messageId, updates, p.toCancel + [rejected]) in e'.published) &&
            (p.cancelVolume > 0.0 && !persisted ==>
               e'.reserved == e.reserved && e'.stopBook == e.stopBook &&
               e'.published == e.published + [ResponseOut(PersistenceErrorResponse(rejected))])
  {
    StepOnPath(e, messageId, context, bestBid, bestAsk, persisted, env);
  }

  /** A triggered order goes to matching in the order book at the trigger price with nothing
      matched; reservations, the book and the sequence number stay as they were, and the
      cancel set is left in place. */
  lemma TriggeredPath(e: StopEngine, messageId: string, context: SingleLimitContext,
                      bestBid: real, bestAsk: real, persisted: bool, env: Environment)
    requires Classify(e, context, bestBid, bestAsk, env).Triggered?
    ensures var price := Classify(e, context, bestBid, bestAsk, env).price;
            var e' := Step(e, messageId, context, bestBid, bestAsk, persisted, env);
            e'.reserved == e.reserved && e'.stopBook == e.stopBook && e'.sequenceNumber == e.sequenceNumber &&
            e'.published == e.published +
              [MatchingHandOff(messageId, context.limitOrder.UpdateStatus(InOrderBook, context.orderProcessingStartTime).(price := price), 0.0)]
  {
    StepOnPath(e, messageId, context, bestBid, bestAsk, persisted, env);
  }

  /** A parked order reserves its limit volume on top of what remains after the cancel set is
      released, and joins the book with that reservation; a failed write changes nothing but
      the sequence number and writes a persistence-error response. */
  lemma ParkedPath(e: StopEngine, messageId: string, context: SingleLimitContext,
                   bestBid: real, bestAsk: real, persisted: bool, env: Environment)
    requires Classify(e, context, bestBid, bestAsk, env).Parked?
    ensures var p := Prepare(e, context, env.reference).value;
            var e' := Step(e, messageId, context, bestBid, bestAsk, persisted, env);
            var parked := context.limitOrder.(reservedLimitVolume := Some(p.limitVolume));
            e'.sequenceNumber == e.sequenceNumber + 1 &&
            (persisted ==>
               e'.reserved == e.reserved[p.key := SetScaleRoundHalfUp(p.reserved - p.cancelVolume + p.limitVolume, p.limitAsset.accuracy)] &&
               e'.stopBook == RemoveOrders(e.stopBook, p.toCancel) + [parked] &&
               ResponseOut(NewResponse(None, Some(context.limitOrder.id), None, Ok, None)) in e'.published) &&
            (!persisted ==>
               e'.reserved == e.reserved && e'.stopBook == e.stopBook &&
               e'.published == e.published + [ResponseOut(PersistenceErrorResponse(context.limitOrder))])
  {
    StepOnPath(e, messageId, context, bestBid, bestAsk, persisted, env);
    ParkUpdates(e, messageId, context, Prepare(e, context, env.reference).value, persisted);
  }

  lemma ParkUpdates(e: StopEngine, messageId: string, context: SingleLimitContext, p: Preparation, persisted: bool)
    ensures var e' := Park(e, messageId, context, p, persisted);
            var parked := context.limitOrder.(reservedLimitVolume := Some(p.limitVolume));
            e'.sequenceNumber == e.sequenceNumber + 1 &&
            (persisted ==>
               e'.reserved == e.reserved[p.key := SetScaleRoundHalfUp(p.reserved - p.cancelVolume + p.limitVolume, p.limitAsset.accuracy)] &&
               e'.stopBook == RemoveOrders(e.stopBook, p.toCancel) + [parked] &&
               ResponseOut(NewResponse(None, Some(context.limitOrder.id), None, Ok, None)) in e'.published) &&
            (!persisted ==>
               e'.reserved == e.reserved && e'.stopBook == e.stopBook &&
               e'.published == e.published + [ResponseOut(PersistenceErrorResponse(context.limitOrder))])
  {
  }

  /** Nothing happens when processing raises before validation ends. */
  lemma AbortedPath(e: StopEngine, messageId: string, context: SingleLimitContext,
                    bestBid: real, bestAsk: real, persisted: bool, env: Environment)
    requires Classify(e, context, bestBid, bestAsk, env).Aborted?
    ensures Step(e, messageId, context, bestBid, bestAsk, persisted, env) == e
  {
    StepOnPath(e, messageId, context, bestBid, bestAsk, persisted, env);
  }

  /** Processing aborts exactly when the preparation raises, or when every check before the
      volume-accuracy check passes and the pair's base asset, which that check looks up, is unknown. */
  lemma AbortedIff(e: StopEngine, context: SingleLimitContext, bestBid: real, bestAsk: real, env: Environment)
    ensures Classify(e, context, bestBid, bestAsk, env).Aborted? <==>
            Prepare(e, context, env.reference).None? ||
            (var p := Prepare(e, context, env.reference).value;
             var order := context.limitOrder;
             InputValidator.ValidateFee(order, env.checkFee).Passed? &&
             InputValidator.ValidateAssets(p.assetPair, env.reference.disabledAssets).Passed? &&
             InputValidator.WellFormedBounds(InputValidator.Bounds(order)) &&
             InputValidator.ValidateVolume(order, env.reference.assetPairs).Passed? &&
             p.availableBalance >= p.limitVolume &&
             p.assetPair.baseAssetId !in env.reference.assets)
  {
    if Prepare(e, context, env.reference).Some? {
      assert context.limitOrder.assetPairId in env.reference.assetPairs;
    }
  }

  /** The stop book changes only on paths whose reservation write, when needed, succeeded. */
  lemma BookChangesOnlyAfterSavedWrite(e: StopEngine, messageId: string, context: SingleLimitContext,
                                       bestBid: real, bestAsk: real, env: Environment)
    requires Classify(e, context, bestBid, bestAsk, env).Parked? ||
             (Classify(e, context, bestBid, bestAsk, env).Rejected? && Prepare(e, context, env.reference).value.cancelVolume > 0.0)
    ensures Step(e, messageId, context, bestBid, bestAsk, false, env).stopBook == e.stopBook
    ensures Step(e, messageId, context, bestBid, bestAsk, false, env).reserved == e.reserved
  {
    StepOnPath(e, messageId, context, bestBid, bestAsk, false, env);
  }

  /** A processor over the engine state; its one operation is specified by `Step`. */
  class StopLimitOrderProcessor {
    var balances: map<BalanceKey, real>
    var reserved: map<BalanceKey, real>
    var stopBook: seq<LimitOrder>
    var sequenceNumber: int
    var published: seq<Output>
    const env: Environment

    constructor (env: Environment, balances: map<BalanceKey, real>, reserved: map<BalanceKey, real>,
                 stopBook: seq<LimitOrder>, sequenceNumber: int)
      ensures this.env == env
      ensures Snapshot() == StopEngine(balances, reserved, stopBook, sequenceNumber, [])
    {
      this.env := env;
      this.balances := balances;
      this.reserved := reserved;
      this.stopBook := stopBook;
      this.sequenceNumber := sequenceNumber;
      published := [];
    }

    function Snapshot(): StopEngine
      reads this
    {
      StopEngine(balances, reserved, stopBook, sequenceNumber, published)
    }

    /** MessageSequenceNumberHolder.getNewValue. */
    method NextSequenceNumber() returns (n: int)
      modifies this`sequenceNumber
      ensures n == old(sequenceNumber) + 1 && sequenceNumber == n
    {
      sequenceNumber := sequenceNumber + 1;
      n := sequenceNumber;
    }

    /** BalancesHolder.updateReservedBalance; `persisted` is whether the write is saved. */
    method UpdateReservedBalance(key: BalanceKey, newReserved: real, persisted: bool) returns (updated: bool)
      modifies this`reserved
      ensures updated == persisted
      ensures reserved == if persisted then old(reserved)[key := newReserved] else old(reserved)
    {
      if persisted {
        reserved := reserved[key := newReserved];
      }
      updated := persisted;
    }

    /** The loop of processStopOrder that adds up the reservations of the orders to cancel;
        an order without a reservation aborts it. */
    static method SumCancelVolume(orders: seq<LimitOrder>) returns (allReserved: bool, cancelVolume: real)
      ensures allReserved <==> AllReserved(orders)
      ensures allReserved ==> cancelVolume == SumReserved(orders)
    {
      cancelVolume := 0.0;
      for i := 0 to |orders|
        invariant AllReserved(orders[..i]) && cancelVolume == SumReserved(orders[..i])
      {
        if orders[i].reservedLimitVolume.None? {
          return false, cancelVolume;
        }
        assert orders[..i + 1][..i] == orders[..i];
        cancelVolume := cancelVolume + orders[i].reservedLimitVolume.value;
      }
      assert orders[..|orders|] == orders;
      allReserved := true;
    }

    /** The reads processStopOrder makes before validating, with the loop that collects
        the cancel set and adds up its reservations. */
    method PrepareOrder(context: SingleLimitContext) returns (prep: Option<Preparation>)
      ensures prep == Prepare(Snapshot(), context, env.reference)
    {
      var order := context.limitOrder;
      if order.assetPairId !in env.reference.assetPairs {
        return None;
      }
      var assetPair := env.reference.assetPairs[order.assetPairId];
      var assetId := if order.IsBuySide() then assetPair.quotingAssetId else assetPair.baseAssetId;
      if assetId !in env.reference.assets {
        return None;
      }
      var asset := env.reference.assets[assetId];
      var volume := LimitVolume(order, asset.accuracy);
      if volume.None? {
        return None;
      }
      var key := BalanceKey(order.clientId, assetId);
      var ordersToCancel: seq<LimitOrder> := [];
      var cancelVolume := 0.0;
      if context.cancelOrders {
        ordersToCancel := SearchOrders(stopBook, order.clientId, order.assetPairId, order.IsBuySide());
        var allReserved;
        allReserved, cancelVolume := SumCancelVolume(ordersToCancel);
        if !allReserved {
          return None;
        }
      }
      var availableBalance := SetScaleRoundHalfUp(AvailableBalance(balances, reserved, key, cancelVolume), asset.accuracy);
      prep := Some(Preparation(assetPair, asset, key, volume.value, GetOrZero(balances, key), GetOrZero(reserved, key),
                               ordersToCancel, cancelVolume, availableBalance));
    }

    /** The rejection path of processStopOrder. */
    method RejectOrder(messageId: string, context: SingleLimitContext, p: Preparation, status: OrderStatus, persisted: bool)
      modifies this
      ensures Snapshot() == Reject(old(Snapshot()), messageId, context, p, status, persisted)
    {
      var order := context.limitOrder;
      var rejected := order.UpdateStatus(status, context.orderProcessingStartTime);
      var updated := true;
      var updates: seq<ClientBalanceUpdate> := [];
      var balanceOutputs: seq<Output> := [];
      var sequenceNumber := NextSequenceNumber();
      if p.cancelVolume > 0.0 {
        var newReserved := SetScaleRoundHalfUp(p.reserved - p.cancelVolume, p.limitAsset.accuracy);
        updated := UpdateReservedBalance(p.key, newReserved, persisted);
        if updated {
          updates := [ClientBalanceUpdate(order.clientId, p.key.assetId, p.balance, p.balance, p.reserved, newReserved)];
          balanceOutputs := [BalanceUpdateOut(order.externalId, updates, messageId)];
        }
      }
      if updated {
        stopBook := RemoveOrders(stopBook, p.toCancel);
        published := published + balanceOutputs +
          [ResponseOut(NewResponse(Some(order.externalId), Some(order.id), Some(messageId), OfOrder(status), None)),
           ReportOut(messageId, p.toCancel + [rejected]),
           EventOut(sequenceNumber, messageId, updates, p.toCancel + [rejected])];
      } else {
        published := published + [ResponseOut(PersistenceErrorResponse(rejected))];
      }
    }

    /** The parking path of processStopOrder. */
    method ParkOrder(messageId: string, context: SingleLimitContext, p: Preparation, persisted: bool)
      modifies this
      ensures Snapshot() == Park(old(Snapshot()), messageId, context, p, persisted)
    {
      var order := context.limitOrder;
      var newReserved := SetScaleRoundHalfUp(p.reserved - p.cancelVolume + p.limitVolume, p.limitAsset.accuracy);
      var updates := [ClientBalanceUpdate(order.clientId, p.key.assetId, p.balance, p.balance, p.reserved, newReserved)];
      var sequenceNumber := NextSequenceNumber();
      var updated := UpdateReservedBalance(p.key, newReserved, persisted);
      if !updated {
        published := published + [ResponseOut(PersistenceErrorResponse(order))];
        return;
      }
      var parked := order.(reservedLimitVolume := Some(p.limitVolume));
      stopBook := RemoveOrders(stopBook, p.toCancel) + [parked];
      published := published +
        [BalanceUpdateOut(order.externalId, updates, messageId),
         ResponseOut(NewResponse(None, Some(order.id), None, Ok, None)),
         ReportOut(messageId, p.toCancel + [parked]),
         EventOut(sequenceNumber, messageId, updates, p.toCancel + [parked])];
    }

    /** processStopOrder: prepare, validate, then reject, hand off or park. */
    method ProcessStopOrder(messageId: string, context: SingleLimitContext, bestBid: real, bestAsk: real, persisted: bool)
      modifies this
      ensures Snapshot() == Step(old(Snapshot()), messageId, context, bestBid, bestAsk, persisted, env)
    {
      var prep := PrepareOrder(context);
      if prep.None? {
        return;
      }
      var p := prep.value;
      var order := context.limitOrder;
      var check := ValidateOrder(order, p.assetPair, p.availableBalance, p.limitVolume, env);
      if check.Error? {
        return;
      }
      if check.Invalid? {
        RejectOrder(messageId, context, p, check.status, persisted);
        return;
      }
      var price := TriggerPrice(order, bestBid, bestAsk);
      if price.Some? {
        var triggered := order.UpdateStatus(InOrderBook, context.orderProcessingStartTime).(price := price.value);
        published := published + [MatchingHandOff(messageId, triggered, 0.0)];
        return;
      }
      ParkOrder(messageId, context, p, persisted);
    }
  }
}
