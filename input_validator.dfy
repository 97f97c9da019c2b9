/** Stateless input checks of one limit or stop-limit order
    (LimitOrderInputValidatorImpl). Every check either passes or fails with one
    order status; a composite validation runs its checks in a fixed order and the
    first failure wins. */
module InputValidator {
  import opened Types
  import opened Numbers

  /** The fee checker applied to an order's list of fee instructions (checkFee,
      whose code is not part of this model). */
  type FeeChecker = Option<seq<FeeInstruction>> -> bool

  function FeeCount(fees: Option<seq<FeeInstruction>>): nat
  {
    match fees
    case None => 0
    case Some(list) => |list|
  }

  function ValidateFee(order: LimitOrder, checkFee: FeeChecker): (r: Check)
    ensures r.Passed? || r == Invalid(InvalidFee, "has invalid fee")
    ensures !r.Passed? <==> (order.fee.Some? && FeeCount(order.fees) > 1) || !checkFee(order.fees)
  {
    if (order.fee.Some? && FeeCount(order.fees) > 1) || !checkFee(order.fees) then
      Invalid(InvalidFee, "has invalid fee")
    else
      Passed
  }

  function ValidateAssets(assetPair: AssetPair, disabledAssets: set<string>): (r: Check)
    ensures r.Passed? || r == Invalid(DisabledAsset, "disabled asset")
    ensures !r.Passed? <==> assetPair.baseAssetId in disabledAssets || assetPair.quotingAssetId in disabledAssets
  {
    if assetPair.baseAssetId in disabledAssets || assetPair.quotingAssetId in disabledAssets then
      Invalid(DisabledAsset, "disabled asset")
    else
      Passed
  }

  function ValidatePrice(order: LimitOrder): (r: Check)
    ensures r.Passed? || r == Invalid(InvalidPrice, "price is invalid")
    ensures !r.Passed? <==> order.price <= 0.0
  {
    if order.price <= 0.0 then Invalid(InvalidPrice, "price is invalid") else Passed
  }

  /** The stop bounds of an order seen as a sum type: a lower pair (trigger price and
      the limit price it activates), an upper pair, both, none, or a pair with one half
      missing. */
  datatype StopBounds =
    | NoBounds
    | LowerOnly(lowerLimitPrice: real, lowerPrice: real)
    | UpperOnly(upperLimitPrice: real, upperPrice: real)
    | BothBounds(lowerLimitPrice: real, lowerPrice: real, upperLimitPrice: real, upperPrice: real)
    | HalfPair

  function Bounds(order: LimitOrder): StopBounds
  {
    if order.lowerLimitPrice.Some? != order.lowerPrice.Some? ||
       order.upperLimitPrice.Some? != order.upperPrice.Some? then HalfPair
    else if order.lowerLimitPrice.Some? && order.upperLimitPrice.Some? then
      BothBounds(order.lowerLimitPrice.value, order.lowerPrice.value, order.upperLimitPrice.value, order.upperPrice.value)
    else if order.lowerLimitPrice.Some? then LowerOnly(order.lowerLimitPrice.value, order.lowerPrice.value)
    else if order.upperLimitPrice.Some? then UpperOnly(order.upperLimitPrice.value, order.upperPrice.value)
    else NoBounds
  }

  /** Acceptable stop bounds: at least one complete pair, every price positive, and with
      both pairs the lower trigger price below the upper one. */
  predicate WellFormedBounds(b: StopBounds)
  {
    match b
    case NoBounds => false
    case HalfPair => false
    case LowerOnly(lowerLimit, lower) => lowerLimit > 0.0 && lower > 0.0
    case UpperOnly(upperLimit, upper) => upperLimit > 0.0 && upper > 0.0
    case BothBounds(lowerLimit, lower, upperLimit, upper) =>
      lowerLimit > 0.0 && lower > 0.0 && upperLimit > 0.0 && upper > 0.0 && lowerLimit < upperLimit
  }

  function ValidateLimitPrices(order: LimitOrder): (r: Check)
    ensures r.Passed? || r == Invalid(InvalidPrice, "limit prices are invalid")
    ensures r.Passed? <==> WellFormedBounds(Bounds(order))
  {
    if (order.lowerLimitPrice.None? && order.lowerPrice.None? && order.upperLimitPrice.None? && order.upperPrice.None?) ||
       (order.lowerLimitPrice.None? != order.lowerPrice.None?) ||
       (order.upperLimitPrice.None? != order.upperPrice.None?) ||
       (order.lowerLimitPrice.Some? && (order.lowerLimitPrice.value <= 0.0 || order.lowerPrice.value <= 0.0)) ||
       (order.upperLimitPrice.Some? && (order.upperLimitPrice.value <= 0.0 || order.upperPrice.value <= 0.0)) ||
       (order.lowerLimitPrice.Some? && order.upperLimitPrice.Some? && order.lowerLimitPrice.value >= order.upperLimitPrice.value)
    then Invalid(InvalidPrice, "limit prices are invalid")
    else Passed
  }

  /** The minimum volume that applies: the straight minimum for a straight order, the
      inverted minimum otherwise. */
  function ApplicableMinVolume(order: LimitOrder, assetPair: AssetPair): Option<real>
  {
    if order.straight then assetPair.minVolume else assetPair.minInvertedVolume
  }

  function CheckMinVolume(order: LimitOrder, assetPair: AssetPair): (ok: bool)
    ensures order.straight ==> (ok <==> assetPair.minVolume.None? || order.AbsVolume() >= assetPair.minVolume.value)
    ensures !order.straight ==>
              (ok <==> assetPair.minInvertedVolume.None? || order.AbsVolume() >= assetPair.minInvertedVolume.value)
  {
    var minVolume := ApplicableMinVolume(order, assetPair);
    minVolume.None? || order.AbsVolume() >= minVolume.value
  }

  /** Looking up an asset pair that is not configured raises an error that is not a
      validation failure. */
  function UnknownAssetPair(assetPairId: string): Check
  {
    Error("Unable to find asset pair " + assetPairId)
  }

  function ValidateVolume(order: LimitOrder, assetPairs: map<string, AssetPair>): (r: Check)
    ensures r.Error? <==> order.assetPairId !in assetPairs
    ensures r.Passed? || r.Error? || r == Invalid(TooSmallVolume, "volume is too small") || r == Invalid(InvalidVolume, "volume is too large")
    ensures order.assetPairId in assetPairs ==>
      var pair := assetPairs[order.assetPairId];
      var tooSmall := !CheckMinVolume(order, pair);
      var tooLarge := pair.maxVolume.Some? && order.AbsVolume() > pair.maxVolume.value;
      (r == Invalid(TooSmallVolume, "volume is too small") <==> tooSmall) &&
      (r == Invalid(InvalidVolume, "volume is too large") <==> !tooSmall && tooLarge)
  {
    if order.assetPairId !in assetPairs then UnknownAssetPair(order.assetPairId)
    else
      var assetPair := assetPairs[order.assetPairId];
      if !CheckMinVolume(order, assetPair) then Invalid(TooSmallVolume, "volume is too small")
      else if assetPair.maxVolume.Some? && order.AbsVolume() > assetPair.maxVolume.value then
        Invalid(InvalidVolume, "volume is too large")
      else Passed
  }

  function ValidateValue(order: LimitOrder, assetPairs: map<string, AssetPair>): (r: Check)
    ensures r.Error? <==> order.assetPairId !in assetPairs
    ensures r.Passed? || r.Error? || r == Invalid(InvalidVolume, "value is too large")
    ensures order.assetPairId in assetPairs ==>
      var pair := assetPairs[order.assetPairId];
      (r.Invalid? <==> pair.maxValue.Some? && order.AbsVolume() * order.price > pair.maxValue.value)
  {
    if order.assetPairId !in assetPairs then UnknownAssetPair(order.assetPairId)
    else
      var assetPair := assetPairs[order.assetPairId];
      if assetPair.maxValue.Some? && order.AbsVolume() * order.price > assetPair.maxValue.value then
        Invalid(InvalidVolume, "value is too large")
      else Passed
  }

  function ValidateVolumeAccuracy(order: LimitOrder, baseAsset: Asset): (r: Check)
    ensures r.Passed? || r == Invalid(InvalidVolumeAccuracy, "volume accuracy is invalid")
    ensures r.Passed? <==> IsScaleSmallerOrEqual(order.volume, baseAsset.accuracy)
  {
    if !IsScaleSmallerOrEqual(order.volume, baseAsset.accuracy) then
      Invalid(InvalidVolumeAccuracy, "volume accuracy is invalid")
    else Passed
  }

  function ValidatePriceAccuracy(order: LimitOrder, assetPair: AssetPair): (r: Check)
    ensures r.Passed? || r == Invalid(InvalidPriceAccuracy, "price accuracy is invalid")
    ensures r.Passed? <==> IsScaleSmallerOrEqual(order.price, assetPair.accuracy)
  {
    if !IsScaleSmallerOrEqual(order.price, assetPair.accuracy) then
      Invalid(InvalidPriceAccuracy, "price accuracy is invalid")
    else Passed
  }

  /** The checks of a limit order in the order they run. Fee and asset checks are run
      for clients that are not trusted only; the value check belongs to the overload
      that receives the order's parts explicitly. */
  function LimitOrderChecks(isTrustedClient: bool, order: LimitOrder, assetPair: AssetPair, baseAsset: Asset,
                            reference: ReferenceData, checkFee: FeeChecker, withValue: bool): seq<Check>
  {
    (if isTrustedClient then [] else [ValidateFee(order, checkFee), ValidateAssets(assetPair, reference.disabledAssets)])
    + [ValidatePrice(order), ValidateVolume(order, reference.assetPairs)]
    + (if withValue then [ValidateValue(order, reference.assetPairs)] else [])
    + [ValidatePriceAccuracy(order, assetPair), ValidateVolumeAccuracy(order, baseAsset)]
  }

  /** validateLimitOrder on a parsed single-limit-order context. */
  function ValidateLimitOrder(context: SingleLimitContext, reference: ReferenceData, checkFee: FeeChecker): (r: Check)
    ensures r.Invalid? ==> r.status in {InvalidFee, DisabledAsset, InvalidPrice, TooSmallVolume, InvalidVolume,
                                        InvalidPriceAccuracy, InvalidVolumeAccuracy}
    ensures context.isTrustedClient ==> r.Invalid? ==> r.status !in {InvalidFee, DisabledAsset}
  {
    var order := context.limitOrder;
    if !context.isTrustedClient && !ValidateFee(order, checkFee).Passed? then ValidateFee(order, checkFee)
    else if !context.isTrustedClient && !ValidateAssets(context.assetPair, reference.disabledAssets).Passed? then
      ValidateAssets(context.assetPair, reference.disabledAssets)
    else if !ValidatePrice(order).Passed? then ValidatePrice(order)
    else if !ValidateVolume(order, reference.assetPairs).Passed? then ValidateVolume(order, reference.assetPairs)
    else if !ValidatePriceAccuracy(order, context.assetPair).Passed? then ValidatePriceAccuracy(order, context.assetPair)
    else ValidateVolumeAccuracy(order, context.baseAsset)
  }

  /** validateLimitOrder with the order, its pair and its base asset given explicitly;
      it adds the value check after the volume check. */
  function ValidateLimitOrderExplicit(isTrustedClient: bool, order: LimitOrder, assetPair: AssetPair, baseAsset: Asset,
                                      reference: ReferenceData, checkFee: FeeChecker): (r: Check)
    ensures r.Invalid? ==> r.status in {InvalidFee, DisabledAsset, InvalidPrice, TooSmallVolume, InvalidVolume,
                                        InvalidPriceAccuracy, InvalidVolumeAccuracy}
    ensures isTrustedClient ==> r.Invalid? ==> r.status !in {InvalidFee, DisabledAsset}
  {
    if !isTrustedClient && !ValidateFee(order, checkFee).Passed? then ValidateFee(order, checkFee)
    else if !isTrustedClient && !ValidateAssets(assetPair, reference.disabledAssets).Passed? then
      ValidateAssets(assetPair, reference.disabledAssets)
    else if !ValidatePrice(order).Passed? then ValidatePrice(order)
    else if !ValidateVolume(order, reference.assetPairs).Passed? then ValidateVolume(order, reference.assetPairs)
    else if !ValidateValue(order, reference.assetPairs).Passed? then ValidateValue(order, reference.assetPairs)
    else if !ValidatePriceAccuracy(order, assetPair).Passed? then ValidatePriceAccuracy(order, assetPair)
    else ValidateVolumeAccuracy(order, baseAsset)
  }

  /** The checks of a stop-limit order in the order they run; trust plays no part. */
  function StopOrderChecks(order: LimitOrder, assetPair: AssetPair, baseAsset: Asset,
                           reference: ReferenceData, checkFee: FeeChecker): seq<Check>
  {
    [ValidateFee(order, checkFee), ValidateAssets(assetPair, reference.disabledAssets), ValidateLimitPrices(order),
     ValidateVolume(order, reference.assetPairs), ValidateVolumeAccuracy(order, baseAsset),
     ValidatePriceAccuracy(order, assetPair)]
  }

  function ValidateStopOrder(context: SingleLimitContext, reference: ReferenceData, checkFee: FeeChecker): (r: Check)
    ensures r.Invalid? ==> r.status in {InvalidFee, DisabledAsset, InvalidPrice, TooSmallVolume, InvalidVolume,
                                        InvalidPriceAccuracy, InvalidVolumeAccuracy}
  {
    var order := context.limitOrder;
    if !ValidateFee(order, checkFee).Passed? then ValidateFee(order, checkFee)
    else if !ValidateAssets(context.assetPair, reference.disabledAssets).Passed? then
      ValidateAssets(context.assetPair, reference.disabledAssets)
    else if !ValidateLimitPrices(order).Passed? then ValidateLimitPrices(order)
    else if !ValidateVolume(order, reference.assetPairs).Passed? then ValidateVolume(order, reference.assetPairs)
    else if !ValidateVolumeAccuracy(order, context.baseAsset).Passed? then ValidateVolumeAccuracy(order, context.baseAsset)
    else ValidatePriceAccuracy(order, context.assetPair)
  }

  /** validateLimitOrder on a context runs its checks in source order and stops at the first failure. */
  lemma {:induction false} LimitOrderChecksRunInOrder(context: SingleLimitContext, reference: ReferenceData, checkFee: FeeChecker)
    ensures ValidateLimitOrder(context, reference, checkFee) ==
            FirstFailure(LimitOrderChecks(context.isTrustedClient, context.limitOrder, context.assetPair,
                                          context.baseAsset, reference, checkFee, false))
  {
    var order := context.limitOrder;
    var fee, assets := ValidateFee(order, checkFee), ValidateAssets(context.assetPair, reference.disabledAssets);
    var price, volume := ValidatePrice(order), ValidateVolume(order, reference.assetPairs);
    var priceAccuracy, volumeAccuracy := ValidatePriceAccuracy(order, context.assetPair), ValidateVolumeAccuracy(order, context.baseAsset);
    if context.isTrustedClient {
      FirstFailureOfFour(price, volume, priceAccuracy, volumeAccuracy);
      assert LimitOrderChecks(true, order, context.assetPair, context.baseAsset, reference, checkFee, false) ==
             [price, volume, priceAccuracy, volumeAccuracy];
    } else {
      FirstFailureOfSix(fee, assets, price, volume, priceAccuracy, volumeAccuracy);
      assert LimitOrderChecks(false, order, context.assetPair, context.baseAsset, reference, checkFee, false) ==
             [fee, assets, price, volume, priceAccuracy, volumeAccuracy];
    }
  }

  /** The explicit overload runs the same checks with the value check after the volume check. */
  lemma {:induction false} ExplicitLimitOrderChecksRunInOrder(isTrustedClient: bool, order: LimitOrder, assetPair: AssetPair, baseAsset: Asset,
                                                              reference: ReferenceData, checkFee: FeeChecker)
    ensures ValidateLimitOrderExplicit(isTrustedClient, order, assetPair, baseAsset, reference, checkFee) ==
            FirstFailure(LimitOrderChecks(isTrustedClient, order, assetPair, baseAsset, reference, checkFee, true))
  {
    var fee, assets := ValidateFee(order, checkFee), ValidateAssets(assetPair, reference.disabledAssets);
    var price, volume, value := ValidatePrice(order), ValidateVolume(order, reference.assetPairs), ValidateValue(order, reference.assetPairs);
    var priceAccuracy, volumeAccuracy := ValidatePriceAccuracy(order, assetPair), ValidateVolumeAccuracy(order, baseAsset);
    if isTrustedClient {
      FirstFailureOfFive(price, volume, value, priceAccuracy, volumeAccuracy);
      assert LimitOrderChecks(true, order, assetPair, baseAsset, reference, checkFee, true) ==
             [price, volume, value, priceAccuracy, volumeAccuracy];
    } else {
      FirstFailureOfSeven(fee, assets, price, volume, value, priceAccuracy, volumeAccuracy);
      assert LimitOrderChecks(false, order, assetPair, baseAsset, reference, checkFee, true) ==
             [fee, assets, price, volume, value, priceAccuracy, volumeAccuracy];
    }
  }

  /** validateStopOrder runs its six checks in source order and stops at the first failure. */
  lemma {:induction false} StopOrderChecksRunInOrder(context: SingleLimitContext, reference: ReferenceData, checkFee: FeeChecker)
    ensures ValidateStopOrder(context, reference, checkFee) ==
            FirstFailure(StopOrderChecks(context.limitOrder, context.assetPair, context.baseAsset, reference, checkFee))
  {
    var order := context.limitOrder;
    FirstFailureOfSix(ValidateFee(order, checkFee), ValidateAssets(context.assetPair, reference.disabledAssets),
                      ValidateLimitPrices(order), ValidateVolume(order, reference.assetPairs),
                      ValidateVolumeAccuracy(order, context.baseAsset), ValidatePriceAccuracy(order, context.assetPair));
  }

  /** The verdict on a trusted client's limit order depends neither on the fee checker
      nor on which assets are disabled. */
  lemma TrustedClientsSkipFeeAndAssetChecks(context: SingleLimitContext, reference: ReferenceData,
                                            checkFee: FeeChecker, disabled: set<string>, otherFeeCheck: FeeChecker)
    requires context.isTrustedClient
    ensures ValidateLimitOrder(context, reference, checkFee) ==
            ValidateLimitOrder(context, reference.(disabledAssets := disabled), otherFeeCheck)
  {
  }

  /** A client that is not trusted gets InvalidFee whenever the fee is invalid, whatever else is wrong. */
  lemma InvalidFeeComesFirst(context: SingleLimitContext, reference: ReferenceData, checkFee: FeeChecker)
    requires !context.isTrustedClient
    requires !ValidateFee(context.limitOrder, checkFee).Passed?
    ensures ValidateLimitOrder(context, reference, checkFee) == Invalid(InvalidFee, "has invalid fee")
    ensures ValidateStopOrder(context, reference, checkFee) == Invalid(InvalidFee, "has invalid fee")
  {
  }

  /** A limit order passes exactly when every one of its checks passes. */
  lemma LimitOrderPassesIffAllChecksPass(context: SingleLimitContext, reference: ReferenceData, checkFee: FeeChecker)
    ensures ValidateLimitOrder(context, reference, checkFee).Passed? <==>
      (context.isTrustedClient ||
        (ValidateFee(context.limitOrder, checkFee).Passed? && ValidateAssets(context.assetPair, reference.disabledAssets).Passed?)) &&
      context.limitOrder.price > 0.0 &&
      ValidateVolume(context.limitOrder, reference.assetPairs).Passed? &&
      IsScaleSmallerOrEqual(context.limitOrder.price, context.assetPair.accuracy) &&
      IsScaleSmallerOrEqual(context.limitOrder.volume, context.baseAsset.accuracy)
  {

  }

  /** The explicit overload differs from the context one only by the value check: when the
      value check passes, both give the same verdict. */
  lemma {:induction false} ExplicitOverloadAddsOnlyTheValueCheck(context: SingleLimitContext, reference: ReferenceData, checkFee: FeeChecker)
    requires ValidateValue(context.limitOrder, reference.assetPairs).Passed?
    ensures ValidateLimitOrderExplicit(context.isTrustedClient, context.limitOrder, context.assetPair, context.baseAsset,
                                       reference, checkFee) == ValidateLimitOrder(context, reference, checkFee)
  {
  }

  /** A stop order passes exactly when its bounds are well formed and its fee, assets,
      volume and accuracies pass. */
  lemma StopOrderPassesIffAllChecksPass(context: SingleLimitContext, reference: ReferenceData, checkFee: FeeChecker)
    ensures ValidateStopOrder(context, reference, checkFee).Passed? <==>
      ValidateFee(context.limitOrder, checkFee).Passed? &&
      ValidateAssets(context.assetPair, reference.disabledAssets).Passed? &&
      WellFormedBounds(Bounds(context.limitOrder)) &&
      ValidateVolume(context.limitOrder, reference.assetPairs).Passed? &&
      IsScaleSmallerOrEqual(context.limitOrder.volume, context.baseAsset.accuracy) &&
      IsScaleSmallerOrEqual(context.limitOrder.price, context.assetPair.accuracy)
  {

  }
}
