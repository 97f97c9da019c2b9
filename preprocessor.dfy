/** Validation stage for single limit order messages (SingleLimitOrderPreprocessor):
    the message is parsed, the input validator chosen by order type gives the order a
    verdict, and the message goes on to the next queue whatever that verdict is. Any
    other failure drops the message and answers it with RUNTIME. */
module Preprocessor {
  import opened Types
  import InputValidator

  /** The message types this stage distinguishes: the legacy limit-order message,
      which is answered with the legacy response, and every other type. */
  datatype MessageType = OldLimitOrderMessage | LimitOrderMessage | OtherMessage(code: int)

  /** An incoming message; `context` is filled by the parser. */
  datatype MessageWrapper = MessageWrapper(msgType: MessageType, messageId: string, context: Option<SingleLimitContext>)

  /** The context parser (its code is not part of this model); `None` stands for a parse
      that raises an exception. */
  type ContextParser = MessageWrapper -> Option<MessageWrapper>

  /** A response written back through a message's callback. */
  datatype WrittenResponse = WrittenResponse(messageId: string, response: Response)

  /** The verdict attached to an order: valid, or invalid with the failing check's status
      and reason. `None` stands for an exception that is not a validation failure. */
  function GetValidationResult(context: SingleLimitContext, reference: ReferenceData,
                               checkFee: InputValidator.FeeChecker): (r: Option<OrderValidationResult>)
    ensures var check := if context.limitOrder.orderType.Limit?
                         then InputValidator.ValidateLimitOrder(context, reference, checkFee)
                         else InputValidator.ValidateStopOrder(context, reference, checkFee);
            (r.None? <==> check.Error?) &&
            (r == Some(OrderValidationResult(true, None, None)) <==> check.Passed?) &&
            (check.Invalid? ==> r == Some(OrderValidationResult(false, Some(check.reason), Some(check.status))))
  {
    var check := match context.limitOrder.orderType
      case Limit => InputValidator.ValidateLimitOrder(context, reference, checkFee)
      case StopLimit => InputValidator.ValidateStopOrder(context, reference, checkFee);
    match check
    case Passed => Some(OrderValidationResult(true, None, None))
    case Invalid(status, reason) => Some(OrderValidationResult(false, Some(reason), Some(status)))
    case Error(_) => None
  }

  /** The response written for a message with a status. */
  function WriteResponse(message: MessageWrapper, status: MessageStatus): (r: Response)
    ensures r.LegacyResponse? <==> message.msgType.OldLimitOrderMessage?
    ensures r.NewResponse? ==> r == NewResponse(None, None, None, status, None)
  {
    if message.msgType.OldLimitOrderMessage? then LegacyResponse
    else NewResponse(None, None, None, status, None)
  }

  /** What preProcess does with one message: it forwards the parsed message with the
      verdict attached, or it raises. */
  datatype Outcome = Forwarded(message: MessageWrapper) | Raised

  function PreProcessOutcome(message: MessageWrapper, parse: ContextParser, reference: ReferenceData,
                             checkFee: InputValidator.FeeChecker): Outcome
  {
    var parsed := parse(message);
    if parsed.None? || parsed.value.context.None? then Raised
    else
      var context := parsed.value.context.value;
      var verdict := GetValidationResult(context, reference, checkFee);
      if verdict.None? then Raised
      else Forwarded(parsed.value.(context := Some(context.(validationResult := verdict))))
  }

  /** A parsed message is forwarded whatever its verdict, valid or not, carrying
      exactly the verdict of the validator chosen by order type. */
  lemma ForwardedWhateverTheVerdict(message: MessageWrapper, parse: ContextParser, reference: ReferenceData,
                                    checkFee: InputValidator.FeeChecker)
    requires parse(message).Some? && parse(message).value.context.Some?
    ensures var context := parse(message).value.context.value;
            var verdict := GetValidationResult(context, reference, checkFee);
            (PreProcessOutcome(message, parse, reference, checkFee).Forwarded? <==> verdict.Some?) &&
            (verdict.Some? ==>
              PreProcessOutcome(message, parse, reference, checkFee).message.context.value.validationResult == verdict &&
              PreProcessOutcome(message, parse, reference, checkFee).message.context.value.limitOrder == context.limitOrder)
  {
  }

  /** An order rejected by its validator is still forwarded, marked invalid with the
      failing status. */
  lemma InvalidOrdersAreForwarded(message: MessageWrapper, parse: ContextParser, reference: ReferenceData,
                                  checkFee: InputValidator.FeeChecker)
    requires parse(message).Some? && parse(message).value.context.Some?
    requires var context := parse(message).value.context.value;
             context.limitOrder.orderType.StopLimit? &&
             !InputValidator.ValidateFee(context.limitOrder, checkFee).Passed?
    ensures PreProcessOutcome(message, parse, reference, checkFee) ==
            var parsed := parse(message).value;
            Forwarded(parsed.(context := Some(parsed.context.value.(validationResult :=
              Some(OrderValidationResult(false, Some("has invalid fee"), Some(InvalidFee)))))))
  {
  }

  class SingleLimitOrderPreprocessor {
    var inputQueue: seq<MessageWrapper>
    var preProcessedQueue: seq<MessageWrapper>
    var responses: seq<WrittenResponse>
    const parse: ContextParser
    const reference: ReferenceData
    const checkFee: InputValidator.FeeChecker

    constructor (parse: ContextParser, reference: ReferenceData, checkFee: InputValidator.FeeChecker,
                 inputQueue: seq<MessageWrapper>)
      ensures this.parse == parse && this.reference == reference && this.checkFee == checkFee
      ensures this.inputQueue == inputQueue && preProcessedQueue == [] && responses == []
    {
      this.parse := parse;
      this.reference := reference;
      this.checkFee := checkFee;
      this.inputQueue := inputQueue;
      preProcessedQueue := [];
      responses := [];
    }

    /** preProcess: parse, attach the verdict, forward. `raised` reports an exception, in
        which case nothing was forwarded. */
    method PreProcess(message: MessageWrapper) returns (raised: bool)
      modifies this`preProcessedQueue
      ensures raised <==> PreProcessOutcome(message, parse, reference, checkFee).Raised?
      ensures preProcessedQueue == if raised then old(preProcessedQueue)
                                   else old(preProcessedQueue) + [PreProcessOutcome(message, parse, reference, checkFee).message]
    {
      var parsed := parse(message);
      if parsed.None? || parsed.value.context.None? {
        return true;
      }
      var context := parsed.value.context.value;
      var verdict := GetValidationResult(context, reference, checkFee);
      if verdict.None? {
        return true;
      }
      preProcessedQueue := preProcessedQueue + [parsed.value.(context := Some(context.(validationResult := verdict)))];
      raised := false;
    }

    /** One iteration of the run loop: take the next message, pre-process it, and answer
        it with RUNTIME if that raised. With an empty queue there is nothing to take. */
    method RunOnce() returns (took: bool)
      modifies this`inputQueue, this`preProcessedQueue, this`responses
      ensures took <==> old(inputQueue) != []
      ensures !took ==> inputQueue == old(inputQueue) && preProcessedQueue == old(preProcessedQueue) && responses == old(responses)
      ensures took ==>
        var message := old(inputQueue)[0];
        var outcome := PreProcessOutcome(message, parse, reference, checkFee);
        inputQueue == old(inputQueue)[1..] &&
        (outcome.Forwarded? ==> preProcessedQueue == old(preProcessedQueue) + [outcome.message] && responses == old(responses)) &&
        (outcome.Raised? ==> preProcessedQueue == old(preProcessedQueue) &&
                             responses == old(responses) + [WrittenResponse(message.messageId, WriteResponse(message, Runtime))])
    {
      if inputQueue == [] {
        return false;
      }
      var message := inputQueue[0];
      inputQueue := inputQueue[1..];
      var raised := PreProcess(message);
      if raised {
        responses := responses + [WrittenResponse(message.messageId, WriteResponse(message, Runtime))];
      }
      took := true;
    }
  }
}
