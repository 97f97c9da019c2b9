/** Two worked runs of processStopOrder on a buy stop order at whole-unit accuracy:
    one parks the order, the other rejects it for lack of funds after releasing the
    client's earlier stop order. */
module StopLimitExamples {
  import opened Types
  import opened Numbers
  import InputValidator
  import StopLimit

  const Pair := AssetPair("BTCUSD", "BTC", "USD", 0, None, None, None, None)
  const Reference := ReferenceData(map["BTCUSD" := Pair], map["BTC" := Asset("BTC", 0), "USD" := Asset("USD", 0)], {})
  const Env := StopLimit.Environment(Reference, (fees: Option<seq<FeeInstruction>>) => true)
  const Key := BalanceKey("client", "USD")

  /** A buy stop order for 10 BTC that, once the ask reaches 14, becomes a limit order at 15. */
  function BuyStop(id: string): LimitOrder
  {
    LimitOrder(id, "ext-" + id, "BTCUSD", "client", LimitOrderType.StopLimit, 10.0, 10.0, 15.0, true, Pending, 0,
               None, None, None, None, Some(14.0), Some(15.0), None)
  }

  function Context(order: LimitOrder, cancelOrders: bool): SingleLimitContext
  {
    SingleLimitContext(order, Pair, Asset("BTC", 0), false, cancelOrders, 7, None)
  }

  lemma BuyStopPassesStaticChecks(id: string)
    ensures StopLimit.LimitVolume(BuyStop(id), 0) == Some(150.0)
    ensures IsScaleSmallerOrEqual(10.0, 0) && IsScaleSmallerOrEqual(15.0, 0)
    ensures StopLimit.TriggerPrice(BuyStop(id), 12.0, 13.0).None?
  {
    WholeAmountsAtScaleZero(150);
    assert Pow10(0) == 1.0;
    assert (10.0 * Pow10(0)).Floor == 10;
    assert (15.0 * Pow10(0)).Floor == 15;
  }

  /** 180 USD and nothing reserved: the order does not fire at an ask of 13, so it is parked and
      150 USD (10 × 15) is reserved. */
  lemma ParkedExample()
    ensures var e := StopLimit.StopEngine(map[Key := 180.0], map[], [], 41, []);
            var e' := StopLimit.Step(e, "m1", Context(BuyStop("O2"), false), 12.0, 13.0, true, Env);
            e'.reserved == map[Key := 150.0] &&
            e'.stopBook == [BuyStop("O2").(reservedLimitVolume := Some(150.0))] &&
            e'.sequenceNumber == 42
  {
    var e := StopLimit.StopEngine(map[Key := 180.0], map[], [], 41, []);
    var context := Context(BuyStop("O2"), false);
    BuyStopPassesStaticChecks("O2");
    WholeAmountsAtScaleZero(180);
    WholeAmountsAtScaleZero(150);
    assert StopLimit.AvailableBalance(e.balances, e.reserved, Key, 0.0) == 180.0;
    var p := StopLimit.Preparation(Pair, Asset("USD", 0), Key, 150.0, 180.0, 0.0, [], 0.0, 180.0);
    assert StopLimit.Prepare(e, context, Reference) == Some(p);
    StopLimit.ProcessorValidationPassesIff(BuyStop("O2"), Pair, 180.0, 150.0, Env);
    assert StopLimit.ValidateOrder(BuyStop("O2"), Pair, 180.0, 150.0, Env).Passed?;
    assert 0.0 - 0.0 + 150.0 == 150.0;
  }

  /** The earlier stop order O1, resting with 100 USD reserved. */
  const O1 := BuyStop("O1").(reservedLimitVolume := Some(100.0))
  const RejectedStart := StopLimit.StopEngine(map[Key := 140.0], map[Key := 100.0], [O1], 41, [])

  /** Cancelling O1 frees its 100 USD, so 140 USD are available for the 150 the order needs. */
  lemma RejectedExamplePreparation()
    ensures StopLimit.Prepare(RejectedStart, Context(BuyStop("O2"), true), Reference) ==
            Some(StopLimit.Preparation(Pair, Asset("USD", 0), Key, 150.0, 140.0, 100.0, [O1], 100.0, 140.0))
  {
    BuyStopPassesStaticChecks("O2");
    WholeAmountsAtScaleZero(140);
    assert StopLimit.SearchOrders([O1], "client", "BTCUSD", true) == [O1];
    assert StopLimit.SumReserved([O1]) == 100.0;
    assert GetOrZero(RejectedStart.balances, Key) == 140.0 && GetOrZero(RejectedStart.reserved, Key) == 100.0;
    assert StopLimit.AvailableBalance(RejectedStart.balances, RejectedStart.reserved, Key, 100.0) == 140.0;
  }

  /** Every check before the balance check passes, and 140 < 150 fails it. */
  lemma RejectedExampleVerdict()
    ensures StopLimit.ValidateOrder(BuyStop("O2"), Pair, 140.0, 150.0, Env) == Invalid(NotEnoughFunds, "not enough funds")
  {
    BuyStopPassesStaticChecks("O2");
    StopLimit.ProcessorChecksRunInOrder(BuyStop("O2"), Pair, 140.0, 150.0, Env);
    FirstFailureIsFirst(StopLimit.ProcessorChecks(BuyStop("O2"), Pair, 140.0, 150.0, Env), 4);
  }

  /** 140 USD with 100 reserved by O1, which this message cancels: the available 140 does not
      cover 150, so the order is rejected with NotEnoughFunds, the 100 are released and O1
      leaves the book. */
  lemma RejectedExample()
    ensures var e' := StopLimit.Step(RejectedStart, "m2", Context(BuyStop("O2"), true), 12.0, 13.0, true, Env);
            StopLimit.Classify(RejectedStart, Context(BuyStop("O2"), true), 12.0, 13.0, Env) == StopLimit.Rejected(NotEnoughFunds) &&
            e'.reserved == map[Key := 0.0] &&
            e'.stopBook == [] &&
            e'.sequenceNumber == 42
  {
    RejectedExamplePreparation();
    RejectedExampleVerdict();
    StopLimit.StepOnPath(RejectedStart, "m2", Context(BuyStop("O2"), true), 12.0, 13.0, true, Env);
    WholeAmountsAtScaleZero(0);
    assert 100.0 - 100.0 == 0.0;
    assert "O1" in StopLimit.Ids([O1]);
  }

  /** Reference data that knows the quoting asset USD but not the base asset BTC. */
  const ReferenceWithoutBase := ReferenceData(map["BTCUSD" := Pair], map["USD" := Asset("USD", 0)], {})
  const EnvWithoutBase := StopLimit.Environment(ReferenceWithoutBase, (fees: Option<seq<FeeInstruction>>) => true)

  /** A buy stop reserves USD, so the preparation succeeds without BTC; every check up to the
      balance passes, and the volume-accuracy check's lookup of BTC then aborts the message. */
  lemma MissingBaseAssetAborts()
    ensures var e := StopLimit.StopEngine(map[Key := 180.0], map[], [], 41, []);
            StopLimit.Prepare(e, Context(BuyStop("O2"), false), ReferenceWithoutBase).Some? &&
            StopLimit.Classify(e, Context(BuyStop("O2"), false), 12.0, 13.0, EnvWithoutBase) == StopLimit.Aborted &&
            StopLimit.Step(e, "m3", Context(BuyStop("O2"), false), 12.0, 13.0, true, EnvWithoutBase) == e
  {
    var e := StopLimit.StopEngine(map[Key := 180.0], map[], [], 41, []);
    BuyStopPassesStaticChecks("O2");
    WholeAmountsAtScaleZero(180);
    assert GetOrZero(e.balances, Key) == 180.0 && GetOrZero(e.reserved, Key) == 0.0;
    var p := StopLimit.Preparation(Pair, Asset("USD", 0), Key, 150.0, 180.0, 0.0, [], 0.0, 180.0);
    assert StopLimit.Prepare(e, Context(BuyStop("O2"), false), ReferenceWithoutBase) == Some(p);
    StopLimit.AbortedIff(e, Context(BuyStop("O2"), false), 12.0, 13.0, EnvWithoutBase);
    StopLimit.StepOnPath(e, "m3", Context(BuyStop("O2"), false), 12.0, 13.0, true, EnvWithoutBase);
  }
}
