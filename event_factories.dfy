/**
 * The participants' event factories. Every builder stamps a header with the
 * given transaction id, the event class name and its own service as source;
 * the failure events carry `exception.Message` as their error text.
 * `messageId` and `now` are the GUID and clock reading of the header.
 */
module ValidatorServiceEventFactory {
  import opened Basics
  import opened Messaging

  function BuildTransferValidatedEvent(transactionId: Option<string>, messageId: string, now: DateTime): Event
  {
    NewEvent(TransferValidatedEvent, Validator, transactionId, NoContent, messageId, now)
  }

  function BuildInvalidTransactionEvent(transactionId: Option<string>, message: string,
                                       messageId: string, now: DateTime): Event
  {
    NewEvent(InvalidTransactionEvent, Validator, transactionId, ErrorContent(message), messageId, now)
  }

  function BuildInvalidAccountEvent(transactionId: Option<string>, message: string,
                                   messageId: string, now: DateTime): Event
  {
    NewEvent(InvalidAccountEvent, Validator, transactionId, ErrorContent(message), messageId, now)
  }

  function BuildInvalidAmountEvent(transactionId: Option<string>, message: string,
                                  messageId: string, now: DateTime): Event
  {
    NewEvent(InvalidAmountEvent, Validator, transactionId, ErrorContent(message), messageId, now)
  }

  function BuildOtherReasonValidationFailedEvent(transactionId: Option<string>, exception: Exception,
                                                messageId: string, now: DateTime): Event
  {
    NewEvent(OtherReasonValidationFailedEvent, Validator, transactionId, ErrorContent(exception.Message()), messageId, now)
  }

  function BuildTransferCanceledEvent(transactionId: Option<string>, messageId: string, now: DateTime): Event
  {
    NewEvent(TransferCanceledEvent, Validator, transactionId, NoContent, messageId, now)
  }

  function BuildTransferNotCanceledEvent(transactionId: Option<string>, exception: Exception,
                                        messageId: string, now: DateTime): Event
  {
    NewEvent(TransferNotCanceledEvent, Validator, transactionId, ErrorContent(exception.Message()), messageId, now)
  }

  /**
   * Every Validator event names its own class and the Validator service,
   * carries the given transaction id, GUID and clock reading, and has the
   * content its class calls for: none for TransferValidated and
   * TransferCanceled, the given message for the Invalid* events, and the
   * exception's message for the other two.
   */
  lemma ValidatorEventsWellFormed(transactionId: Option<string>, message: string, exception: Exception,
                                  messageId: string, now: DateTime)
    ensures Stamped(BuildTransferValidatedEvent(transactionId, messageId, now), Validator, transactionId, messageId, now)
    ensures Stamped(BuildInvalidTransactionEvent(transactionId, message, messageId, now), Validator, transactionId, messageId, now)
    ensures Stamped(BuildInvalidAccountEvent(transactionId, message, messageId, now), Validator, transactionId, messageId, now)
    ensures Stamped(BuildInvalidAmountEvent(transactionId, message, messageId, now), Validator, transactionId, messageId, now)
    ensures Stamped(BuildOtherReasonValidationFailedEvent(transactionId, exception, messageId, now), Validator, transactionId, messageId, now)
    ensures Stamped(BuildTransferCanceledEvent(transactionId, messageId, now), Validator, transactionId, messageId, now)
    ensures Stamped(BuildTransferNotCanceledEvent(transactionId, exception, messageId, now), Validator, transactionId, messageId, now)
    ensures BuildTransferValidatedEvent(transactionId, messageId, now).content == NoContent
    ensures BuildTransferCanceledEvent(transactionId, messageId, now).content == NoContent
    ensures BuildInvalidTransactionEvent(transactionId, message, messageId, now).content == ErrorContent(message)
    ensures BuildInvalidAccountEvent(transactionId, message, messageId, now).content == ErrorContent(message)
    ensures BuildInvalidAmountEvent(transactionId, message, messageId, now).content == ErrorContent(message)
    ensures BuildOtherReasonValidationFailedEvent(transactionId, exception, messageId, now).content
         == ErrorContent(exception.Message())
    ensures BuildTransferNotCanceledEvent(transactionId, exception, messageId, now).content
         == ErrorContent(exception.Message())
  {
  }
}

module TransferServiceEventFactory {
  import opened Basics
  import opened Messaging

  function BuildTransferSucceededEvent(transactionId: Option<string>, messageId: string, now: DateTime): Event
  {
    NewEvent(TransferSucceededEvent, Transfer, transactionId, NoContent, messageId, now)
  }

  function BuildOtherReasonTransferFailedEvent(transactionId: Option<string>, exception: Exception,
                                              messageId: string, now: DateTime): Event
  {
    NewEvent(OtherReasonTransferFailedEvent, Transfer, transactionId, ErrorContent(exception.Message()), messageId, now)
  }

  function BuildTransferCanceledEvent(transactionId: Option<string>, messageId: string, now: DateTime): Event
  {
    NewEvent(TransferCanceledEvent, Transfer, transactionId, NoContent, messageId, now)
  }

  /**
   * Every Transfer event names its own class and the Transfer service and
   * carries the given transaction id; Succeeded and Canceled carry no
   * content, the failure carries the exception's message.
   */
  lemma TransferEventsWellFormed(transactionId: Option<string>, exception: Exception, messageId: string, now: DateTime)
    ensures Stamped(BuildTransferSucceededEvent(transactionId, messageId, now), Transfer, transactionId, messageId, now)
    ensures Stamped(BuildOtherReasonTransferFailedEvent(transactionId, exception, messageId, now), Transfer, transactionId, messageId, now)
    ensures Stamped(BuildTransferCanceledEvent(transactionId, messageId, now), Transfer, transactionId, messageId, now)
    ensures BuildTransferSucceededEvent(transactionId, messageId, now).content == NoContent
    ensures BuildTransferCanceledEvent(transactionId, messageId, now).content == NoContent
    ensures BuildOtherReasonTransferFailedEvent(transactionId, exception, messageId, now).content
         == ErrorContent(exception.Message())
  {
  }
}

module ReceiptServiceEventFactory {
  import opened Basics
  import opened Messaging

  function BuildReceiptIssuedEvent(transactionId: Option<string>, signature: string,
                                  messageId: string, now: DateTime): Event
  {
    NewEvent(ReceiptIssuedEvent, Receipt, transactionId, ReceiptContent(signature), messageId, now)
  }

  function BuildOtherReasonReceiptFailedEvent(transactionId: Option<string>, exception: Exception,
                                             messageId: string, now: DateTime): Event
  {
    NewEvent(OtherReasonReceiptFailedEvent, Receipt, transactionId, ErrorContent(exception.Message()), messageId, now)
  }

  /**
   * Both Receipt events name their own class and the Receipt service and
   * carry the given transaction id; the receipt carries the signature
   * verbatim, the failure the exception's message.
   */
  lemma ReceiptEventsWellFormed(transactionId: Option<string>, signature: string, exception: Exception,
                                messageId: string, now: DateTime)
    ensures Stamped(BuildReceiptIssuedEvent(transactionId, signature, messageId, now), Receipt, transactionId, messageId, now)
    ensures Stamped(BuildOtherReasonReceiptFailedEvent(transactionId, exception, messageId, now), Receipt, transactionId, messageId, now)
    ensures BuildReceiptIssuedEvent(transactionId, signature, messageId, now).content == ReceiptContent(signature)
    ensures BuildOtherReasonReceiptFailedEvent(transactionId, exception, messageId, now).content
         == ErrorContent(exception.Message())
  {
  }
}
