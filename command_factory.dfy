/**
 * `CommandFactory`: the orchestrator's four command builders. Each builds a
 * header from the transaction id and the command class name, with source
 * Orchestrator, and copies the accounts and amount of the transaction.
 */
module CommandFactory {
  import opened Basics
  import opened Messaging
  import opened Transactions

  /**
   * `BuildEventHeaderFromTransactionId`; `messageId` and `now` are the GUID
   * and clock reading the header constructor takes.
   */
  function BuildEventHeaderFromTransactionId(transactionId: string, messageType: string,
                                            messageId: string, now: DateTime): MessageHeader
  {
    NewMessageHeader(Some(transactionId), Some(messageType), Orchestrator.Name(), messageId, now)
  }

  /** The command of class `kind` for `item`, as each of the four builders writes it out. */
  function BuildCommand(kind: CommandKind, item: TransactionItem, messageId: string, now: DateTime): Command
  {
    Command(Some(BuildEventHeaderFromTransactionId(item.id, kind.Name(), messageId, now)),
            Some(TransactionDetails(item.accountFromId, item.accountToId, item.amount)))
  }

  function BuildValidateTransferCommand(item: TransactionItem, messageId: string, now: DateTime): Command
  {
    BuildCommand(ValidateTransferCommand, item, messageId, now)
  }

  function BuildTransferCommand(item: TransactionItem, messageId: string, now: DateTime): Command
  {
    BuildCommand(TransferCommand, item, messageId, now)
  }

  function BuildCancelTransferCommand(item: TransactionItem, messageId: string, now: DateTime): Command
  {
    BuildCommand(CancelTransferCommand, item, messageId, now)
  }

  function BuildIssueReceiptCommand(item: TransactionItem, messageId: string, now: DateTime): Command
  {
    BuildCommand(IssueReceiptCommand, item, messageId, now)
  }

  /** The builder of each command class. */
  function Builder(kind: CommandKind, item: TransactionItem, messageId: string, now: DateTime): Command
  {
    match kind
    case ValidateTransferCommand => BuildValidateTransferCommand(item, messageId, now)
    case TransferCommand => BuildTransferCommand(item, messageId, now)
    case CancelTransferCommand => BuildCancelTransferCommand(item, messageId, now)
    case IssueReceiptCommand => BuildIssueReceiptCommand(item, messageId, now)
  }

  /**
   * Every built command has a header carrying the transaction's id, the
   * command's class name and source Orchestrator, with the given GUID and
   * clock reading, and its details are the transaction's accounts and amount
   * (the transaction's state is not carried).
   */
  lemma BuiltCommandShape(kind: CommandKind, item: TransactionItem, messageId: string, now: DateTime)
    ensures var c := Builder(kind, item, messageId, now);
      && c.header.Some? && c.transaction.Some?
      && c.header.value.transactionId == Some(item.id)
      && c.header.value.messageType == Some(kind.Name())
      && c.header.value.source == "Orchestrator"
      && c.header.value.messageId == messageId && c.header.value.creationDate == now
      && c.transaction.value.accountFromId == item.accountFromId
      && c.transaction.value.accountToId == item.accountToId
      && c.transaction.value.amount == item.amount
  {
  }

  /** The state of the transaction does not reach the command. */
  lemma CommandIgnoresState(kind: CommandKind, item: TransactionItem, state: string, messageId: string, now: DateTime)
    ensures Builder(kind, item.(state := state), messageId, now) == Builder(kind, item, messageId, now)
  {
  }

  /**
   * For one transaction, two builders give the same transaction id and
   * details; their headers differ in the message type, and only there when
   * they share GUID and clock reading.
   */
  lemma BuildersDifferOnlyInKind(k1: CommandKind, k2: CommandKind, item: TransactionItem,
                                 messageId: string, now: DateTime)
    ensures var c1 := Builder(k1, item, messageId, now);
      var c2 := Builder(k2, item, messageId, now);
      && c1.transaction == c2.transaction
      && c1.header.value.transactionId == c2.header.value.transactionId
      && c1.header.value.(messageType := None) == c2.header.value.(messageType := None)
      && (c1 == c2 <==> k1 == k2)
  {
    CommandNamesDistinct(k1, k2);
  }
}
