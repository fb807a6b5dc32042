/**
 * The messages the saga services exchange: the header every command and
 * event carries, the transaction details of a command, and the event
 * classes with their content.
 */
module Messaging {
  import opened Basics

  /**
   * A message header. Its properties are get-only, so a header is a value:
   * nothing changes it after construction. A deserialized header may lack
   * its message type, so that is a string that may be null.
   */
  datatype MessageHeader = MessageHeader(
    transactionId: Option<string>,
    messageId: string,
    messageType: Option<string>,
    source: string,
    creationDate: DateTime)

  /**
   * `new MessageHeader(transactionId, messageType, source)`. The GUID the
   * constructor draws and the value `SystemTime.Now` has at that moment are
   * passed in, as `messageId` and `now`.
   */
  function NewMessageHeader(transactionId: Option<string>, messageType: Option<string>, source: string,
                            messageId: string, now: DateTime): (h: MessageHeader)
    ensures h.transactionId == transactionId && h.messageType == messageType && h.source == source
    ensures h.messageId == messageId && h.creationDate == now
  {
    MessageHeader(transactionId, messageId, messageType, source, now)
  }

  /** Headers built from different GUIDs differ, whatever else they share. */
  lemma FreshGuidsGiveDistinctHeaders(transactionId: Option<string>, messageType: Option<string>, source: string,
                                      g1: string, g2: string, now: DateTime)
    requires g1 != g2
    ensures NewMessageHeader(transactionId, messageType, source, g1, now)
         != NewMessageHeader(transactionId, messageType, source, g2, now)
  {
  }

  /** The money movement a command asks for (amounts are exact `decimal`s). */
  datatype TransactionDetails = TransactionDetails(
    accountFromId: Option<string>,
    accountToId: Option<string>,
    amount: real)

  /** The four command classes the orchestrator sends. */
  datatype CommandKind = ValidateTransferCommand | TransferCommand | CancelTransferCommand | IssueReceiptCommand
  {
    /** `nameof` of the command class. */
    function Name(): string
    {
      match this
      case ValidateTransferCommand => "ValidateTransferCommand"
      case TransferCommand => "TransferCommand"
      case CancelTransferCommand => "CancelTransferCommand"
      case IssueReceiptCommand => "IssueReceiptCommand"
    }
  }

  /** Command class names identify the command class. */
  lemma CommandNamesDistinct(a: CommandKind, b: CommandKind)
    ensures a.Name() == b.Name() <==> a == b
  {
  }

  /**
   * A command as the participants read it: its header and `Content.Transaction`,
   * either of which may be null in a parsed message.
   */
  datatype Command = Command(header: Option<MessageHeader>, transaction: Option<TransactionDetails>)

  /** `header?.TransactionId`. */
  function HeaderTransactionId(header: Option<MessageHeader>): Option<string>
  {
    if header.Some? then header.value.transactionId else None
  }

  /**
   * The received form of a command (`ICommandContainer`): parsing it as a
   * command either yields one or throws. The JSON text itself is not modelled.
   */
  datatype CommandContainer = CommandContainer(parsed: Result<Command, Exception>)

  /** The event classes the participants send back. */
  datatype EventKind =
    | TransferValidatedEvent | InvalidTransactionEvent | InvalidAccountEvent | InvalidAmountEvent
    | OtherReasonValidationFailedEvent | TransferCanceledEvent | TransferNotCanceledEvent
    | TransferSucceededEvent | OtherReasonTransferFailedEvent
    | ReceiptIssuedEvent | OtherReasonReceiptFailedEvent
  {
    /** `nameof` of the event class. */
    function Name(): string
    {
      match this
      case TransferValidatedEvent => "TransferValidatedEvent"
      case InvalidTransactionEvent => "InvalidTransactionEvent"
      case InvalidAccountEvent => "InvalidAccountEvent"
      case InvalidAmountEvent => "InvalidAmountEvent"
      case OtherReasonValidationFailedEvent => "OtherReasonValidationFailedEvent"
      case TransferCanceledEvent => "TransferCanceledEvent"
      case TransferNotCanceledEvent => "TransferNotCanceledEvent"
      case TransferSucceededEvent => "TransferSucceededEvent"
      case OtherReasonTransferFailedEvent => "OtherReasonTransferFailedEvent"
      case ReceiptIssuedEvent => "ReceiptIssuedEvent"
      case OtherReasonReceiptFailedEvent => "OtherReasonReceiptFailedEvent"
    }

    /** The event classes whose content is an `ErrorDetails`. */
    predicate CarriesError()
    {
      InvalidTransactionEvent? || InvalidAccountEvent? || InvalidAmountEvent?
      || OtherReasonValidationFailedEvent? || TransferNotCanceledEvent?
      || OtherReasonTransferFailedEvent? || OtherReasonReceiptFailedEvent?
    }
  }

  /** Event class names identify the event class. */
  lemma EventNamesDistinct(a: EventKind, b: EventKind)
    ensures a.Name() == b.Name() <==> a == b
  {
  }

  /** The content of an event: none, an error message, or a receipt signature. */
  datatype EventContent = NoContent | ErrorContent(message: string) | ReceiptContent(receiptSignature: string)

  /** An event object as a participant builds it. */
  datatype Event = Event(kind: EventKind, header: MessageHeader, content: EventContent)
  {
    /**
     * What every event factory guarantees: the header names the event's own
     * class and the sending service, and the content has the class's shape.
     */
    predicate BuiltBy(source: Sources)
    {
      && header.messageType == Some(kind.Name())
      && header.source == source.Name()
      && (kind.CarriesError() <==> content.ErrorContent?)
      && (kind.ReceiptIssuedEvent? <==> content.ReceiptContent?)
    }
  }

  /** `e` is an event the factory of `source` built for `transactionId` with this GUID and clock reading. */
  predicate Stamped(e: Event, source: Sources, transactionId: Option<string>, messageId: string, now: DateTime)
  {
    e.BuiltBy(source) && e.header.transactionId == transactionId
    && e.header.messageId == messageId && e.header.creationDate == now
  }

  /**
   * An event of class `kind` sent by `source`, as every factory's private
   * `BuildEventHeader` and object initializer put it together.
   */
  function NewEvent(kind: EventKind, source: Sources, transactionId: Option<string>, content: EventContent,
                    messageId: string, now: DateTime): Event
  {
    Event(kind, NewMessageHeader(transactionId, Some(kind.Name()), source.Name(), messageId, now), content)
  }
}
