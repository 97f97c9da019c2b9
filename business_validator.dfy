/** Business rules applied to a limit order before it is matched
    (LimitOrderBusinessValidatorImpl): funds, negative spread, statuses set upstream
    and expiry, in that order; the first failure wins. */
module BusinessValidator {
  import opened Types

  /** Whether the order would cross the client's own orders in the book
      (leadToNegativeSpreadForClient; the order book is not part of this model). */
  type SpreadOracle = LimitOrder -> bool

  /** Whether the order has expired at a date (isExpired; not part of this model). */
  type ExpiryOracle = (LimitOrder, int) -> bool

  /** The balance check shared by the validators: the available balance must cover
      the volume the order reserves. */
  function CheckBalance(availableBalance: real, limitVolume: real): (r: Check)
    ensures r.Passed? || r == Invalid(NotEnoughFunds, "not enough funds")
    ensures r.Passed? <==> availableBalance >= limitVolume
  {
    if availableBalance < limitVolume then Invalid(NotEnoughFunds, "not enough funds") else Passed
  }

  function OrderInfo(order: LimitOrder): string
  {
    "Limit order (id: " + order.externalId + ")"
  }

  function ValidatePreviousOrderNotFound(order: LimitOrder): (r: Check)
    ensures r.Passed? <==> order.status != NotFoundPrevious
    ensures r.Invalid? ==> r.status == NotFoundPrevious
    ensures !r.Error?
  {
    if order.status == NotFoundPrevious then
      Invalid(NotFoundPrevious, OrderInfo(order) + " has not found previous order")
    else Passed
  }

  function ValidateLeadToNegativeSpread(order: LimitOrder, leadsToNegativeSpread: SpreadOracle): (r: Check)
    ensures r.Passed? <==> !leadsToNegativeSpread(order)
    ensures r.Invalid? ==> r.status == LeadToNegativeSpread
    ensures !r.Error?
  {
    if leadsToNegativeSpread(order) then
      Invalid(LeadToNegativeSpread, "Limit order (id: " + order.externalId + ") lead to negative spread")
    else Passed
  }

  function ValidateEnoughFunds(order: LimitOrder): (r: Check)
    ensures r.Passed? <==> order.status != NotEnoughFunds
    ensures r.Invalid? ==> r.status == NotEnoughFunds
    ensures !r.Error?
  {
    if order.status == NotEnoughFunds then Invalid(NotEnoughFunds, OrderInfo(order) + " has not enough funds")
    else Passed
  }

  function CheckExpiration(order: LimitOrder, date: int, isExpired: ExpiryOracle): (r: Check)
    ensures r.Passed? || r == Invalid(Cancelled, "expired")
    ensures r.Passed? <==> !isExpired(order, date)
  {
    if isExpired(order, date) then Invalid(Cancelled, "expired") else Passed
  }

  /** The business checks in the order they run; the balance check applies to clients
      that are not trusted only. */
  function BusinessChecks(isTrustedClient: bool, order: LimitOrder, availableBalance: real, limitVolume: real,
                          leadsToNegativeSpread: SpreadOracle, date: int, isExpired: ExpiryOracle): seq<Check>
  {
    (if isTrustedClient then [] else [CheckBalance(availableBalance, limitVolume)])
    + [ValidateLeadToNegativeSpread(order, leadsToNegativeSpread), ValidatePreviousOrderNotFound(order),
       ValidateEnoughFunds(order), CheckExpiration(order, date, isExpired)]
  }

  function PerformValidation(isTrustedClient: bool, order: LimitOrder, availableBalance: real, limitVolume: real,
                             leadsToNegativeSpread: SpreadOracle, date: int, isExpired: ExpiryOracle): (r: Check)
    ensures !r.Error?
    ensures r.Invalid? ==> r.status in {NotEnoughFunds, LeadToNegativeSpread, NotFoundPrevious, Cancelled}
  {
    if !isTrustedClient && !CheckBalance(availableBalance, limitVolume).Passed? then CheckBalance(availableBalance, limitVolume)
    else if !ValidateLeadToNegativeSpread(order, leadsToNegativeSpread).Passed? then
      ValidateLeadToNegativeSpread(order, leadsToNegativeSpread)
    else if !ValidatePreviousOrderNotFound(order).Passed? then ValidatePreviousOrderNotFound(order)
    else if !ValidateEnoughFunds(order).Passed? then ValidateEnoughFunds(order)
    else CheckExpiration(order, date, isExpired)
  }

  /** performValidation runs its checks in source order and stops at the first failure. */
  lemma {:induction false} BusinessChecksRunInOrder(isTrustedClient: bool, order: LimitOrder, availableBalance: real, limitVolume: real,
                                                    leadsToNegativeSpread: SpreadOracle, date: int, isExpired: ExpiryOracle)
    ensures PerformValidation(isTrustedClient, order, availableBalance, limitVolume, leadsToNegativeSpread, date, isExpired) ==
            FirstFailure(BusinessChecks(isTrustedClient, order, availableBalance, limitVolume, leadsToNegativeSpread, date, isExpired))
  {
    var balance := CheckBalance(availableBalance, limitVolume);
    var spread := ValidateLeadToNegativeSpread(order, leadsToNegativeSpread);
    var previous, funds := ValidatePreviousOrderNotFound(order), ValidateEnoughFunds(order);
    var expiry := CheckExpiration(order, date, isExpired);
    if isTrustedClient {
      FirstFailureOfFour(spread, previous, funds, expiry);
      assert BusinessChecks(true, order, availableBalance, limitVolume, leadsToNegativeSpread, date, isExpired) ==
             [spread, previous, funds, expiry];
    } else {
      FirstFailureOfFive(balance, spread, previous, funds, expiry);
      assert BusinessChecks(false, order, availableBalance, limitVolume, leadsToNegativeSpread, date, isExpired) ==
             [balance, spread, previous, funds, expiry];
    }
  }

  /** An order passes exactly when the funds suffice (or the client is trusted), it does not
      lead to negative spread, no upstream failure status is set and it has not expired. */
  lemma PerformValidationPassesIff(isTrustedClient: bool, order: LimitOrder, availableBalance: real, limitVolume: real,
                                   leadsToNegativeSpread: SpreadOracle, date: int, isExpired: ExpiryOracle)
    ensures PerformValidation(isTrustedClient, order, availableBalance, limitVolume, leadsToNegativeSpread, date, isExpired).Passed? <==>
      (isTrustedClient || availableBalance >= limitVolume) &&
      !leadsToNegativeSpread(order) &&
      order.status != NotFoundPrevious && order.status != NotEnoughFunds &&
      !isExpired(order, date)
  {

  }

  /** A trusted client never fails for lack of funds: its verdict does not depend on the
      balance figures at all. */
  lemma TrustedClientIgnoresBalance(order: LimitOrder, availableBalance: real, limitVolume: real, otherAvailable: real,
                                    otherLimit: real, leadsToNegativeSpread: SpreadOracle, date: int, isExpired: ExpiryOracle)
    ensures PerformValidation(true, order, availableBalance, limitVolume, leadsToNegativeSpread, date, isExpired) ==
            PerformValidation(true, order, otherAvailable, otherLimit, leadsToNegativeSpread, date, isExpired)
  {
  }

  /** A client that is not trusted and lacks funds gets NotEnoughFunds, whatever else holds. */
  lemma LackOfFundsComesFirst(order: LimitOrder, availableBalance: real, limitVolume: real,
                              leadsToNegativeSpread: SpreadOracle, date: int, isExpired: ExpiryOracle)
    requires availableBalance < limitVolume
    ensures PerformValidation(false, order, availableBalance, limitVolume, leadsToNegativeSpread, date, isExpired) ==
            Invalid(NotEnoughFunds, "not enough funds")
  {
  }

  /** With enough funds, an order failing several rules is reported in rule order:
      negative spread before the upstream statuses, and those before expiry. */
  lemma UpstreamStatusBeforeExpiry(isTrustedClient: bool, order: LimitOrder, availableBalance: real, limitVolume: real,
                                   leadsToNegativeSpread: SpreadOracle, date: int, isExpired: ExpiryOracle)
    requires isTrustedClient || availableBalance >= limitVolume
    requires !leadsToNegativeSpread(order)
    requires order.status in {NotFoundPrevious, NotEnoughFunds}
    ensures PerformValidation(isTrustedClient, order, availableBalance, limitVolume, leadsToNegativeSpread, date, isExpired).status
            == order.status
  {
  }
}
