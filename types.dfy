/** Entities shared by the order-intake and order-state rules of the matching engine:
    orders, asset pairs, assets, order and message statuses, and the outcome of a
    validation check. */
module Types {

  datatype Option<+T> = None | Some(value: T)

  /** Order statuses used by the validators and processors. */
  datatype OrderStatus =
    | InOrderBook
    | Pending
    | Processing
    | Matched
    | Cancelled
    | Replaced
    | NotFoundPrevious
    | NotEnoughFunds
    | LeadToNegativeSpread
    | InvalidFee
    | DisabledAsset
    | InvalidPrice
    | TooSmallVolume
    | InvalidVolume
    | InvalidVolumeAccuracy
    | InvalidPriceAccuracy

  /** Status carried by a response. `OfOrder(s)` stands for the message status that
      the engine derives from order status `s` (that mapping is not part of this model). */
  datatype MessageStatus = Ok | Runtime | OfOrder(orderStatus: OrderStatus)

  datatype LimitOrderType = Limit | StopLimit

  /** One entry of the `fees` list of an order; only the fee checker looks inside. */
  datatype FeeInstruction = FeeInstruction(feeType: nat, size: Option<real>, assetIds: seq<string>)

  /** A limit or stop-limit order. The sign of `volume` gives the side: positive is buy. */
  datatype LimitOrder = LimitOrder(
    id: string,
    externalId: string,
    assetPairId: string,
    clientId: string,
    orderType: LimitOrderType,
    volume: real,
    remainingVolume: real,
    price: real,
    straight: bool,
    status: OrderStatus,
    statusDate: int,
    fee: Option<FeeInstruction>,
    fees: Option<seq<FeeInstruction>>,
    lowerLimitPrice: Option<real>,
    lowerPrice: Option<real>,
    upperLimitPrice: Option<real>,
    upperPrice: Option<real>,
    reservedLimitVolume: Option<real>)
  {
    predicate IsBuySide() { volume > 0.0 }

    function AbsVolume(): real { if volume < 0.0 then -volume else volume }

    /** Some of the order's volume has already been executed. */
    predicate IsPartiallyMatched() { remainingVolume != volume }

    function UpdateStatus(newStatus: OrderStatus, date: int): LimitOrder
    {
      this.(status := newStatus, statusDate := date)
    }
  }

  datatype AssetPair = AssetPair(
    assetPairId: string,
    baseAssetId: string,
    quotingAssetId: string,
    accuracy: nat,
    minVolume: Option<real>,
    minInvertedVolume: Option<real>,
    maxVolume: Option<real>,
    maxValue: Option<real>)

  datatype Asset = Asset(assetId: string, accuracy: nat)

  /** Key of a balance: a client's holding of one asset. */
  datatype BalanceKey = BalanceKey(clientId: string, assetId: string)

  /** Reference data read by the validators and processors: configured asset pairs,
      assets and the assets that are currently disabled. */
  datatype ReferenceData = ReferenceData(
    assetPairs: map<string, AssetPair>,
    assets: map<string, Asset>,
    disabledAssets: set<string>)

  /** The outcome of one check: it passes, it raises an order-validation exception
      carrying an order status and a reason, or it raises some other exception
      (an unresolvable asset pair, say). */
  datatype Check = Passed | Invalid(status: OrderStatus, reason: string) | Error(description: string)

  /** The result of a chain of checks run in order: the first one that does not pass. */
  function FirstFailure(checks: seq<Check>): Check
  {
    if checks == [] then Passed
    else if !checks[0].Passed? then checks[0]
    else FirstFailure(checks[1..])
  }

  /** Value of a map at a key, zero when the key is absent. */
  function GetOrZero<K>(m: map<K, real>, k: K): real
  {
    if k in m then m[k] else 0.0
  }

  function Min(a: real, b: real): real { if a <= b then a else b }

  /** Verdict attached to an order by the validation preprocessor. */
  datatype OrderValidationResult = OrderValidationResult(isValid: bool, message: Option<string>, status: Option<OrderStatus>)

  /** The processing context of one single-limit-order message. */
  datatype SingleLimitContext = SingleLimitContext(
    limitOrder: LimitOrder,
    assetPair: AssetPair,
    baseAsset: Asset,
    isTrustedClient: bool,
    cancelOrders: bool,
    orderProcessingStartTime: int,
    validationResult: Option<OrderValidationResult>)

  /** A response written back to the sender of a message: the legacy form, which
      carries no status, or the new form. */
  datatype Response =
    | LegacyResponse
    | NewResponse(id: Option<string>, matchingEngineId: Option<string>, messageId: Option<string>,
                  status: MessageStatus, statusReason: Option<string>)

  /** Change of one client's balance and reserved balance in one asset. */
  datatype ClientBalanceUpdate = ClientBalanceUpdate(
    clientId: string, assetId: string,
    oldBalance: real, newBalance: real,
    oldReserved: real, newReserved: real)

  lemma {:induction false} FirstFailurePassesIffAllPass(checks: seq<Check>)
    ensures FirstFailure(checks).Passed? <==> forall i :: 0 <= i < |checks| ==> checks[i].Passed?
  {
    if checks != [] {
      FirstFailurePassesIffAllPass(checks[1..]);
      assert forall i :: 1 <= i < |checks| ==> checks[i] == checks[1..][i - 1];
    }
  }

  /** One step of the chain: a failing head is the result, a passing head defers to the rest. */
  lemma FirstFailureCons(c: Check, rest: seq<Check>)
    ensures FirstFailure([c] + rest) == if c.Passed? then FirstFailure(rest) else c
  {
    assert ([c] + rest)[1..] == rest;
  }

  /** Chains of four to seven checks, unrolled: the first check that does not pass is the result. */
  lemma FirstFailureOfFour(a: Check, b: Check, c: Check, d: Check)
    ensures FirstFailure([a, b, c, d]) ==
            if !a.Passed? then a else if !b.Passed? then b else if !c.Passed? then c else d
  {
    FirstFailureCons(d, []);
    FirstFailureCons(c, [d]);
    FirstFailureCons(b, [c, d]);
    FirstFailureCons(a, [b, c, d]);
    assert [a] + [b, c, d] == [a, b, c, d];
  }

  lemma FirstFailureOfFive(a: Check, b: Check, c: Check, d: Check, e: Check)
    ensures FirstFailure([a, b, c, d, e]) ==
            if !a.Passed? then a else if !b.Passed? then b else if !c.Passed? then c else if !d.Passed? then d else e
  {
    FirstFailureOfFour(b, c, d, e);
    FirstFailureCons(a, [b, c, d, e]);
    assert [a] + [b, c, d, e] == [a, b, c, d, e];
  }

  lemma FirstFailureOfSix(a: Check, b: Check, c: Check, d: Check, e: Check, f: Check)
    ensures FirstFailure([a, b, c, d, e, f]) ==
            if !a.Passed? then a else if !b.Passed? then b else if !c.Passed? then c else if !d.Passed? then d
            else if !e.Passed? then e else f
  {
    FirstFailureOfFive(b, c, d, e, f);
    FirstFailureCons(a, [b, c, d, e, f]);
    assert [a] + [b, c, d, e, f] == [a, b, c, d, e, f];
  }

  lemma FirstFailureOfSeven(a: Check, b: Check, c: Check, d: Check, e: Check, f: Check, g: Check)
    ensures FirstFailure([a, b, c, d, e, f, g]) ==
            if !a.Passed? then a else if !b.Passed? then b else if !c.Passed? then c else if !d.Passed? then d
            else if !e.Passed? then e else if !f.Passed? then f else g
  {
    FirstFailureOfSix(b, c, d, e, f, g);
    FirstFailureCons(a, [b, c, d, e, f, g]);
    assert [a] + [b, c, d, e, f, g] == [a, b, c, d, e, f, g];
  }

  /** The chain's result is the check at the first position that does not pass. */
  lemma {:induction false} FirstFailureIsFirst(checks: seq<Check>, k: nat)
    requires k < |checks| && !checks[k].Passed?
    requires forall j :: 0 <= j < k ==> checks[j].Passed?
    ensures FirstFailure(checks) == checks[k]
  {
    if k > 0 {
      FirstFailureIsFirst(checks[1..], k - 1);
    }
  }

  /** The chain's result is either a pass or one of the checks. */
  lemma {:induction false} FirstFailureIsOneOfTheChecks(checks: seq<Check>)
    ensures FirstFailure(checks).Passed? || FirstFailure(checks) in checks
  {
    if checks != [] && checks[0].Passed? {
      FirstFailureIsOneOfTheChecks(checks[1..]);
    }
  }
}
