# Saga orchestration: a Dafny model

This project models the core of a serverless money-transfer saga written in
C# on Azure Functions. An HTTP function, `SagaStarter`, checks a posted
transaction and starts a durable orchestration for it. The orchestrator then:

- stores the transaction as Pending;
- sends ValidateTransferCommand, TransferCommand and IssueReceiptCommand in
  turn over Event Hubs;
- after each command, waits with a timeout for the answering participant's
  event;
- compensates with CancelTransferCommand when no receipt is issued;
- stores the final state: Success, Cancelled or Fail.

Three participant services (Validator, Transfer, Receipt) receive the
commands. Each routes a command by its message type to a processor. The
processor checks or changes its aggregate, persists it and produces a reply
event. An event processor stores every reply and raises it to the
orchestration instance named by its transaction id.

The model has these parts:

- **Values.** Exceptions are values (`Basics.Exception`) and a fallible call
  returns `Result<T, Exception>`. A .NET null is `Option`. DateTime and
  TimeSpan are tick counts.
- **Sinks.** Every `IAsyncCollector` and repository is a `Collectors.Collector`
  class. Its value records what it holds, how many calls it took, and which
  numbered calls throw.
- **Orchestration.** The orchestrator's run is a function that builds a
  trace of the closures it called (`DurableOrchestration.Step`). The method
  `OrchestrateAsync` is proved to return the state and trace of that
  function.
- **Durable context.** What the context decides is passed in as outcomes:
  whether the activity or the timer finishes first, and which event arrives
  before its timer.
- **Receipt signature.** It is the SHA-256 digest (FIPS 180-4) of the
  aggregate's ASCII text, written in lower-case hexadecimal. That digit loop
  is a method with loop invariants.

## Model

| member | source | states |
|---|---|---|
| Basics.AddTimeSpan | src/Saga.Orchestration/Utils/DurableOrchestrationContextExtensions.cs:19 | adding the timeout to the context's time succeeds exactly when the sum is a date, and otherwise throws ArgumentOutOfRangeException on "value" |
| Basics.NullOrEmptyIsNullOrWhiteSpace | src/Saga.Participants/Transfer/Models/CheckingAccountTransfer.cs:55-61 | the ledger's white-space check is stricter than the starter's emptiness check: a null or empty string is blank, and " " is blank without being empty |
| Basics.SourceNamesDistinct | src/Saga.Common/Messaging/MessageHeader.cs:34-41 | two services have the same source name exactly when they are the same service |
| Basics.CancellationTokenSource.Cancel | src/Saga.Functions/Factories/ActivityFactory.cs:50 | after `Cancel` the token source reports cancellation |
| Collectors.AddToKeepsItem | src/Saga.Functions/Services/EventProcessor.cs:44 | one `AddAsync` keeps its item after the earlier ones exactly when that call does not throw, and counts the call |
| Collectors.AddEachAllKept | src/Saga.Functions/Services/EventProcessor.cs:25-46 | when none of the calls throws, a sequence of awaited adds keeps every item in order |
| Collectors.AddEachKeepsPrefix | src/Saga.Functions/Services/EventProcessor.cs:25-46 | whatever the faults, the sink keeps its old items followed by a prefix of the new ones, and keeps fewer than all of them only when a call threw |
| Collectors.Collector.Add | src/Saga.Functions/Services/EventProcessor.cs:44 | the sink's new value is the value `AddTo` gives for its old value and the item, and the reported fault is that call's |
| Transactions.NewTransactionItem | src/Saga.Orchestration/Models/Transaction/TransactionItem.cs:6-22 | a new item has the drawn GUID as id, state Pending, no accounts and amount 0 |
| Transactions.SagaStateNamesDistinct | src/Saga.Functions/Factories/TransactionFactory.cs:9-19 | state names identify the state |
| Transactions.BuildKeepsIdentity | src/Saga.Functions/Factories/TransactionFactory.cs:9-19 | the stamped copy keeps id, accounts and amount and carries the state's name |
| Transactions.BuildChangesOnlyState | src/Saga.Functions/Factories/TransactionFactory.cs:9-19 | only the state distinguishes the copy: stamping back the old state gives the item back |
| Transactions.BuildLastStateWins | src/Saga.Functions/Factories/TransactionFactory.cs:9-19 | stamping twice is stamping with the last state, so stamping is idempotent |
| Messaging.NewMessageHeader | src/Saga.Common/Messaging/MessageHeader.cs:34-41 | the header carries the transaction id, message type and source it was built with, the drawn GUID and the clock reading |
| Messaging.FreshGuidsGiveDistinctHeaders | src/Saga.Common/Messaging/MessageHeader.cs:34-41 | headers built with different GUIDs differ, whatever else they share |
| Messaging.CommandNamesDistinct | src/Saga.Orchestration/Factories/CommandFactory.cs:11-77 | command class names identify the command class |
| Messaging.EventNamesDistinct | src/Saga.Participants/Validator/Factories/ValidatorServiceEventFactory.cs:11-73 | event class names identify the event class |
| Clock.SystemTime.constructor | src/Saga.Common/Utils/SystemTime.cs:9-12 | with no custom date, `Now` reads the ambient clock |
| Clock.SystemTime.Now | src/Saga.Common/Utils/SystemTime.cs:14-24 | the custom date when one is set (anything but MinValue), and otherwise the ambient clock |
| Clock.SystemTime.SetCustomDate | src/Saga.Common/Utils/SystemTime.cs:26-29 | any date but MinValue fixes every later `Now` to it, and MinValue restores the ambient clock |
| Clock.NowIsNeverMinValue | src/Saga.Common/Utils/SystemTime.cs:14-24 | `Now` is never MinValue while the ambient clock is not |
| ConstantStrings.TimeoutErrorNamesFunction | src/Saga.Functions/Factories/ActivityFactory.cs:46 | the timeout message for a function determines the function: different names give different messages |
| CommandFactory.BuiltCommandShape | src/Saga.Orchestration/Factories/CommandFactory.cs:11-82 | every command has a header with the item's id, its own class name, source Orchestrator, the GUID and clock reading, and details that copy the item's accounts and amount |
| CommandFactory.CommandIgnoresState | src/Saga.Orchestration/Factories/CommandFactory.cs:11-77 | the item's state does not reach the command |
| CommandFactory.BuildersDifferOnlyInKind | src/Saga.Orchestration/Factories/CommandFactory.cs:11-82 | two builders agree on the details and transaction id, their headers differ only in message type, and the commands are equal exactly when the classes are |
| Dispatch.NewDispatcher | src/Saga.Common/Processors/CommandProcessorDispatcher.cs:14-22 | a dispatcher is built exactly when the map is present and not empty, and keeps the map; otherwise it throws `new ArgumentException()` |
| Dispatch.Route | src/Saga.Common/Processors/CommandProcessorDispatcher.cs:24-52 | a null container throws ArgumentException; a parse failure propagates; a headerless command throws NullReferenceException; a null message type throws ArgumentNullException from `ContainsKey`; otherwise the processor under the message type, if any |
| Dispatch.RouteFindsRegisteredProcessor | src/Saga.Common/Processors/CommandProcessorDispatcher.cs:24-52 | a processor is reached exactly when the container parses, has a header and its type is present and a key, and that processor is the key's; a null type throws ArgumentNullException on "key" |
| ValidatorServiceEventFactory.ValidatorEventsWellFormed | src/Saga.Participants/Validator/Factories/ValidatorServiceEventFactory.cs:11-106 | every Validator event names its class and the Validator service, carries the transaction id, GUID and clock reading, and has the content its class calls for |
| TransferServiceEventFactory.TransferEventsWellFormed | src/Saga.Participants/Transfer/Factories/TransferServiceEventFactory.cs:11-50 | every Transfer event names its class and the Transfer service and carries the transaction id; only the failure carries a message, the exception's |
| ReceiptServiceEventFactory.ReceiptEventsWellFormed | src/Saga.Participants/Receipt/Factories/ReceiptServiceEventFactory.cs:11-38 | both Receipt events name their class and the Receipt service; the receipt carries the signature verbatim, the failure the exception's message |
| InitialTransferModel.ValidationVerdicts | src/Saga.Participants/Validator/Models/InitialTransfer.cs:33-55 | VALID exactly when both accounts are non-blank and the amount positive, else INVALID; the event class says which check failed and carries the transaction id |
| InitialTransferModel.ValidatorAgreesWithLedger | src/Saga.Participants/Validator/Models/InitialTransfer.cs:33-55 | under a non-blank transaction id, the Validator accepts exactly the transfers the Transfer ledger accepts |
| InitialTransferModel.InitialTransfer.constructor | src/Saga.Participants/Validator/Models/InitialTransfer.cs:24-31 | stores its arguments, in state NONE |
| InitialTransferModel.InitialTransfer.ValidateTransfer | src/Saga.Participants/Validator/Models/InitialTransfer.cs:33-55 | the new state and the event are the `Validation` verdict on the old aggregate; nothing else changes |
| InitialTransferModel.InitialTransfer.CancelTransfer | src/Saga.Participants/Validator/Models/InitialTransfer.cs:57-61 | the aggregate becomes CANCELLED and returns TransferCanceledEvent; nothing else changes |
| ValidatorProcessors.NormalPathPersistsThenProduces | src/Saga.Participants/Validator/Processors/ValidateTransferCommandProcessor.cs:23-50 | on the normal path exactly one aggregate is persisted, in the state its operation left, and then exactly its event is produced, for valid and invalid transfers alike |
| ValidatorProcessors.CancellationAlwaysSucceeds | src/Saga.Participants/Validator/Processors/CancelTransferCommandProcessor.cs:23-50 | any command with details persists a CANCELLED aggregate and produces TransferCanceledEvent |
| ValidatorProcessors.MissingDetailsReportFailure | src/Saga.Participants/Validator/Processors/ValidateTransferCommandProcessor.cs:23-56 | a command without details persists nothing and produces only the failure event, with the header's id and the exception's message |
| ValidatorProcessors.FaultsReachFailurePath | src/Saga.Participants/Validator/Processors/ValidateTransferCommandProcessor.cs:23-56 | a throwing repository or producer leads to the failure event, or, without a header, to a NullReferenceException out of the failure path |
| ValidatorProcessors.ParseFailurePropagates | src/Saga.Participants/Validator/Processors/ValidateTransferCommandProcessor.cs:25 | a container that does not parse throws the parser's exception and changes nothing |
| ValidatorProcessors.ProcessAsync | src/Saga.Participants/Validator/Processors/ValidateTransferCommandProcessor.cs:23-38 | on the sinks in place: the result and new sink values are those of `Process` |
| ValidatorProcessors.OperationAsync | src/Saga.Participants/Validator/Processors/ValidateTransferCommandProcessor.cs:40-50 | on the sinks in place: the result and new sink values are those of `Attempt` |
| ValidatorProcessors.ProcessFailure | src/Saga.Participants/Validator/Processors/ValidateTransferCommandProcessor.cs:52-56 | on the sinks in place: the result and new sink values are those of `Failure` |
| ValidatorServiceCommandProcessorFactory.ProcessorMapShape | src/Saga.Participants/Validator/Factories/ValidatorServiceCommandProcessorFactory.cs:13-20 | the map has exactly the two Validator command keys, each with its processor, so a dispatcher can be built |
| ValidatorServiceCommandProcessorFactory.OtherCommandsAreIgnored | src/Saga.Participants/Validator/Factories/ValidatorServiceCommandProcessorFactory.cs:13-20 | TransferCommand and IssueReceiptCommand change nothing and throw nothing |
| ValidatorServiceCommandProcessorFactory.ProcessCommandAsync | src/Saga.Common/Processors/CommandProcessorDispatcher.cs:24-35 | on the sinks in place: the result and new sink values are those of `Receive`, the dispatch over the Validator map |
| TransferLedger.LineCopiesArguments | src/Saga.Participants/Transfer/Models/CheckingAccountLine.cs:24-33 | a line copies transaction id, account, amount and description, uses the transaction id as transfer type, and takes its id and date from the GUID and clock |
| TransferLedger.ValidateAccepts | src/Saga.Participants/Transfer/Models/CheckingAccountTransfer.cs:55-61 | validation passes exactly when the three ids are non-blank and the amount is positive |
| TransferLedger.PairSums | src/Saga.Participants/Transfer/Models/CheckingAccountTransfer.cs:19-48 | the total and the per-account balances of a debit and credit pair |
| TransferLedger.TransferThenCancelNetsZero | src/Saga.Participants/Transfer/Models/CheckingAccountTransfer.cs:19-48 | each operation's two lines sum to zero, and a transfer followed by its cancellation leaves every balance unchanged |
| TransferLedger.TransferMovesAmount | src/Saga.Participants/Transfer/Models/CheckingAccountTransfer.cs:19-30 | a transfer takes the amount from the source account and gives it to the target, when they differ |
| TransferLedger.CheckingAccountTransfer.constructor | src/Saga.Participants/Transfer/Models/CheckingAccountTransfer.cs:14-17 | a new aggregate with an empty ledger |
| TransferLedger.CheckingAccountTransfer.TranferAmountBetweenAccounts | src/Saga.Participants/Transfer/Models/CheckingAccountTransfer.cs:19-35 | when validation passes, the transfer's two lines are appended and TransferSucceededEvent is returned; otherwise it throws and the ledger is unchanged |
| TransferLedger.CheckingAccountTransfer.CancelTranferAmountBetweenAccounts | src/Saga.Participants/Transfer/Models/CheckingAccountTransfer.cs:37-53 | when validation passes, the reverting lines are appended and TransferCanceledEvent is returned; otherwise it throws and the ledger is unchanged |
| TransferProcessors.AcceptedCommandIsBooked | src/Saga.Participants/Transfer/Processors/TransferCommandProcessor.cs:23-52 | when nothing throws, the repository gets the operation's two lines in order, then exactly the operation's event is produced |
| TransferProcessors.RejectedCommandOnlyReportsFailure | src/Saga.Participants/Transfer/Processors/TransferCommandProcessor.cs:23-58 | details that fail validation or are missing book nothing; the only effect is one failure event with the header's id and the exception's message |
| TransferProcessors.HeaderlessCommandThrows | src/Saga.Participants/Transfer/Processors/TransferCommandProcessor.cs:23-58 | a command without a header is never booked and ends in a NullReferenceException with nothing persisted or produced |
| TransferProcessors.ParseFailurePropagates | src/Saga.Participants/Transfer/Processors/TransferCommandProcessor.cs:25 | a container that does not parse throws the parser's exception and changes nothing |
| TransferProcessors.NoRollbackAfterPartialBooking | src/Saga.Participants/Transfer/Processors/TransferCommandProcessor.cs:40-58 | when the repository refuses the second line, the first stays booked and the failure event follows it |
| TransferProcessors.ProcessAsync | src/Saga.Participants/Transfer/Processors/TransferCommandProcessor.cs:23-38 | on the sinks in place: the result and new sink values are those of `Process` |
| TransferProcessors.OperationAsync | src/Saga.Participants/Transfer/Processors/CancelTransferCommandProcessor.cs:40-52 | on the sinks in place: the result and new sink values are those of `Attempt` |
| TransferProcessors.ProcessFailure | src/Saga.Participants/Transfer/Processors/TransferCommandProcessor.cs:54-58 | on the sinks in place: the result and new sink values are those of `Failure` |
| TransferServiceCommandProcessorFactory.ProcessorMapShape | src/Saga.Participants/Transfer/Factories/TransferServiceCommandProcessorFactory.cs:13-20 | the map has exactly the two Transfer command keys, each with its own processor over the shared producer and repository |
| TransferServiceCommandProcessorFactory.OtherCommandsAreIgnored | src/Saga.Participants/Transfer/Factories/TransferServiceCommandProcessorFactory.cs:13-20 | validation and receipt commands change nothing and throw nothing |
| TransferServiceCommandProcessorFactory.TransferCommandsReachTheirProcessor | src/Saga.Participants/Transfer/Factories/TransferServiceCommandProcessorFactory.cs:13-20 | a TransferCommand is transferred, a CancelTransferCommand is cancelled, and a null type throws ArgumentNullException with no effect |
| TransferServiceCommandProcessorFactory.ProcessCommandAsync | src/Saga.Common/Processors/CommandProcessorDispatcher.cs:24-35 | on the sinks in place: the result and new sink values are those of `Receive`, the dispatch over the Transfer map |
| Encodings.AsciiRoundTrip | src/Saga.Participants/Receipt/Models/ExecutedTransfer.cs:46 | ASCII text encodes to its code points and decodes back to itself; other characters become '?' |
| Encodings.HexByte | src/Saga.Participants/Receipt/Models/ExecutedTransfer.cs:52 | `ToString("x2")` gives two lower-case digits |
| Encodings.DigitValue | src/Saga.Participants/Receipt/Models/ExecutedTransfer.cs:52 | a hexadecimal digit's value is a nibble |
| Encodings.DigitRoundTrip | src/Saga.Participants/Receipt/Models/ExecutedTransfer.cs:52 | each nibble's digit reads back as that nibble |
| Encodings.HexByteRoundTrip | src/Saga.Participants/Receipt/Models/ExecutedTransfer.cs:52 | a byte's two digits are lower-case and read back as the byte |
| Encodings.HexAppend | src/Saga.Participants/Receipt/Models/ExecutedTransfer.cs:50-53 | appending a byte appends its two digits to the text |
| Encodings.HexRoundTrip | src/Saga.Participants/Receipt/Models/ExecutedTransfer.cs:50-53 | the text has two lower-case digits per byte, and decoding it gives the bytes back |
| Sha256.Padding | src/Saga.Participants/Receipt/Models/ExecutedTransfer.cs:48 | the FIPS 180-4 padding brings the message to a whole number of 64-byte blocks |
| Sha256.Digest | src/Saga.Participants/Receipt/Models/ExecutedTransfer.cs:48 | the SHA-256 digest is 32 bytes |
| ExecutedTransferModel.NewExecutedTransfer | src/Saga.Participants/Receipt/Models/ExecutedTransfer.cs:25-31 | a new aggregate has the transaction id, state NONE, no signature and the clock's date |
| ExecutedTransferModel.SignatureShape | src/Saga.Participants/Receipt/Models/ExecutedTransfer.cs:41-54 | a signature is 64 lower-case hexadecimal digits that decode to the 32-byte digest of the aggregate's ASCII text |
| ExecutedTransferModel.IssueSignsIssuedText | src/Saga.Participants/Receipt/Models/ExecutedTransfer.cs:33-39 | issuing leaves the aggregate ISSUED, with id and date unchanged and a signature of its ISSUED text, and returns a ReceiptIssuedEvent carrying that signature |
| ExecutedTransferModel.IssueDependsOnlyOnIdAndDate | src/Saga.Participants/Receipt/Models/ExecutedTransfer.cs:33-59 | the receipt depends only on id and date, so issuing twice gives the same aggregate and event |
| ExecutedTransferModel.AppendHexDigits | src/Saga.Participants/Receipt/Models/ExecutedTransfer.cs:50-53 | the loop appends each digest byte's two digits to the builder |
| ExecutedTransferModel.HexDigest | src/Saga.Participants/Receipt/Models/ExecutedTransfer.cs:48-53 | the digest written out: 64 lower-case digits that decode to the digest |
| ExecutedTransferModel.ExecutedTransfer.constructor | src/Saga.Participants/Receipt/Models/ExecutedTransfer.cs:25-31 | the new object holds the value `NewExecutedTransfer` describes |
| ExecutedTransferModel.ExecutedTransfer.Hash | src/Saga.Participants/Receipt/Models/ExecutedTransfer.cs:41-54 | returns the hash of the current text and changes nothing |
| ExecutedTransferModel.ExecutedTransfer.IssueReceipt | src/Saga.Participants/Receipt/Models/ExecutedTransfer.cs:33-39 | the new state and event are those of `Issue` on the old aggregate |
| ReceiptProcessors.NormalPathIssuesReceipt | src/Saga.Participants/Receipt/Processors/IssueReceiptCommandProcessor.cs:23-49 | exactly one ISSUED aggregate with a 64-digit signature is persisted, then exactly one ReceiptIssuedEvent with that signature is produced; a headerless command gets a null id |
| ReceiptProcessors.ContentIsIgnored | src/Saga.Participants/Receipt/Processors/IssueReceiptCommandProcessor.cs:40-49 | commands with the same header are processed alike: the content is never read |
| ReceiptProcessors.FaultsReachFailurePath | src/Saga.Participants/Receipt/Processors/IssueReceiptCommandProcessor.cs:23-55 | a throwing repository leads to the failure event, or, without a header, to a NullReferenceException with nothing produced |
| ReceiptProcessors.ParseFailurePropagates | src/Saga.Participants/Receipt/Processors/IssueReceiptCommandProcessor.cs:25 | a container that does not parse throws the parser's exception and changes nothing |
| ReceiptProcessors.ProcessAsync | src/Saga.Participants/Receipt/Processors/IssueReceiptCommandProcessor.cs:23-38 | on the sinks in place: the result and new sink values are those of `Process` |
| ReceiptProcessors.CreateReceiptAsync | src/Saga.Participants/Receipt/Processors/IssueReceiptCommandProcessor.cs:40-49 | on the sinks in place: the result and new sink values are those of `Attempt` |
| ReceiptProcessors.ProcessFailure | src/Saga.Participants/Receipt/Processors/IssueReceiptCommandProcessor.cs:51-55 | on the sinks in place: the result and new sink values are those of `Failure` |
| ReceiptServiceCommandProcessorFactory.ProcessorMapShape | src/Saga.Participants/Receipt/Factories/ReceiptServiceCommandProcessorFactory.cs:13-19 | the map has the one key IssueReceiptCommand, so a dispatcher can be built |
| ReceiptServiceCommandProcessorFactory.OnlyReceiptCommandsAreProcessed | src/Saga.Participants/Receipt/Factories/ReceiptServiceCommandProcessorFactory.cs:13-19 | a message type is processed exactly when it is IssueReceiptCommand; every other type is ignored, and a null type throws ArgumentNullException with no effect |
| ReceiptServiceCommandProcessorFactory.ProcessCommandAsync | src/Saga.Common/Processors/CommandProcessorDispatcher.cs:24-35 | on the sinks in place: the result and new sink values are those of `Receive`, the dispatch over the Receipt map |
| Producing.BlockedTill | src/Saga.Orchestration/Models/Producer/Producer.cs:70-77 | a break ends no earlier than it starts: after the configured duration, or at the last date |
| Producing.PublishDeliversOnce | src/Saga.Orchestration/Models/Producer/Producer.cs:42-68 | the answer is valid exactly when the collector kept the message, once; otherwise the collector is unchanged and the answer carries an empty message |
| Producing.PublishLogsRetries | src/Saga.Orchestration/Models/Producer/Producer.cs:59-87 | one warning per retry, numbered on from the attempt, then one error exactly when the answer is invalid |
| Producing.BrokenCollectorIsInvalid | src/Saga.Orchestration/Models/Producer/Producer.cs:42-68 | a null collector, or one whose every remaining call throws, gives an invalid answer |
| Producing.OpenCircuitRejectsAll | src/Saga.Orchestration/Models/Producer/Producer.cs:70-77 | while an open circuit's break lasts, the collector is never called and the answer is invalid with the breaker's error |
| Producing.TryKeepsBreakerValid | src/Saga.Orchestration/Models/Producer/Producer.cs:70-77 | the breaker keeps its invariant, and the allowed number of consecutive failures opens it until the break ends |
| Producing.FirstSuccessEnds | src/Saga.Orchestration/Models/Producer/Producer.cs:79-87 | the first successful attempt ends the call, with nothing logged after it |
| Producing.ProducerPolicies.Execute | src/Saga.Orchestration/Models/Producer/Producer.cs:70-77 | one call through the breaker: breaker, collector and result are those of `Try`, and the breaker stays valid |
| Producing.Logger.Log | src/Saga.Orchestration/Models/Producer/Producer.cs:83-86 | appends one entry to the log |
| Producing.Producer.constructor | src/Saga.Orchestration/Models/Producer/Producer.cs:25-32 | stores collector and logger and rebuilds the shared policies with a closed circuit |
| Producing.Producer.ProduceCommandWithRetryAsync | src/Saga.Orchestration/Models/Producer/Producer.cs:42-68 | never throws; result, breaker, collector and log are those of `Publish` |
| ActivityFactory.NullActivityIsInvalid | src/Saga.Functions/Factories/ActivityFactory.cs:23-31 | a null activity is reported invalid with the exception message, with nothing scheduled and no timer set |
| ActivityFactory.RaceOutcome | src/Saga.Functions/Factories/ActivityFactory.cs:33-56 | the activity is scheduled by name and the timer set at time plus timeout; valid exactly when the activity wins, and then the timer is cancelled; otherwise the message names the function |
| ActivityFactory.ActivityValueIsIgnored | src/Saga.Functions/Factories/ActivityFactory.cs:38-55 | once the activity beats the timer, how it ended does not matter: a faulted activity is reported valid |
| ActivityFactory.RaceErrors | src/Saga.Functions/Factories/ActivityFactory.cs:33-37 | the race throws only before scheduling: on a null context, or when the deadline is past the last date |
| ActivityFactory.CallActivityWithRetryAndTimeoutAsync | src/Saga.Functions/Factories/ActivityFactory.cs:21-57 | the result, including whether the timer was cancelled, is that of `CallWithTimeout` |
| ActivityFactory.ProducerActivityOutcomes | src/Saga.Functions/Factories/ActivityFactory.cs:91-120 | fails exactly when the activity threw FunctionFailedException, reporting its message; throws exactly on any other exception; passes a returned result on as valid |
| ActivityFactory.InvalidPublicationIsValidStep | src/Saga.Functions/Factories/ActivityFactory.cs:91-120 | an unsuccessful publication is still a valid activity result |
| ActivityFactory.ProducersCallTheirActivity | src/Saga.Functions/Factories/ActivityFactory.cs:59-89 | each producer calls its own activity with the command its class's builder makes for the item |
| SagaFactory.PersistsStampedCopy | src/Saga.Functions/Factories/SagaFactory.cs:17-53 | the persisting activity gets the item stamped with the state's name and the configured timeout |
| SagaFactory.PersistedIffActivityWins | src/Saga.Functions/Factories/SagaFactory.cs:17-53 | with a context and a date deadline, persisted exactly when the activity beats the timer; a null context or unrepresentable deadline throws |
| DurableContext.TimeoutGuardRejectsNothing | src/Saga.Orchestration/Utils/DurableOrchestrationContextExtensions.cs:14-19 | the timeout guard rejects no timeout; with a context the wait fails only when the deadline is not a date |
| DurableContext.NullContextThrows | src/Saga.Orchestration/Utils/DurableOrchestrationContextExtensions.cs:13 | a null context throws ArgumentNullException on "ctx" |
| DurableContext.WaitOutcome | src/Saga.Orchestration/Utils/DurableOrchestrationContextExtensions.cs:11-30 | listens on the source's name with the timer at time plus timeout, and returns the event's value, with the timer cancelled, exactly when the event wins |
| DurableContext.WaitForExternalEventWithTimeout | src/Saga.Orchestration/Utils/DurableOrchestrationContextExtensions.cs:11-30 | the result, including whether the timer was cancelled, is that of `AwaitExternalEvent` |
| DurableOrchestration.ConstructionChecksTables | src/Saga.Orchestration/Factories/DurableOrchestrator.cs:26-45 | construction fails with the InvalidParameters ArgumentException exactly when a table is null or empty, and otherwise keeps both tables |
| DurableOrchestration.Persist | src/Saga.Orchestration/Factories/DurableOrchestrator.cs:49-54 | a missing key throws KeyNotFoundException before anything runs; the persister's exception propagates; false ends the run in Fail |
| DurableOrchestration.ProduceStep | src/Saga.Orchestration/Factories/DurableOrchestrator.cs:56-62 | a missing key throws KeyNotFoundException before anything runs; the producer's exception propagates; an invalid result ends the run in Fail |
| DurableOrchestration.WaitStep | src/Saga.Orchestration/Factories/DurableOrchestrator.cs:64-73 | the wait's exception propagates; a reply other than the expected one, or none in time, rejects the step |
| DurableOrchestration.Settle | src/Saga.Orchestration/Factories/DurableOrchestrator.cs:64-73 | a step that did not pass ends the run, in Fail through the Fail persister or with its exception |
| DurableOrchestration.Finish | src/Saga.Orchestration/Factories/DurableOrchestrator.cs:120-133 | the terminal persister runs last, its boolean is ignored, and the run returns the state unless the persister throws |
| DurableOrchestration.Compensate | src/Saga.Orchestration/Factories/DurableOrchestrator.cs:105-128 | CancelTransferCommand comes first; the run ends in Cancelled or Fail, after persisting that state |
| DurableOrchestration.ReceiptStage | src/Saga.Orchestration/Factories/DurableOrchestrator.cs:94-133 | IssueReceiptCommand comes first; the run ends in a terminal state it persisted last |
| DurableOrchestration.TransferStage | src/Saga.Orchestration/Factories/DurableOrchestrator.cs:75-133 | TransferCommand comes first; the run ends in a terminal state it persisted last |
| DurableOrchestration.Forward | src/Saga.Orchestration/Factories/DurableOrchestrator.cs:56-133 | ValidateTransferCommand comes first; the run ends in a terminal state it persisted last |
| DurableOrchestration.OrchestrateAsync | src/Saga.Orchestration/Factories/DurableOrchestrator.cs:47-134 | returns the outcome of the `Orchestrate` run, having called the closures in the order of its trace |
| DurableOrchestrationProperties.CompensateOutcome | src/Saga.Orchestration/Factories/DurableOrchestrator.cs:105-128 | the cancellation comes first; Cancelled exactly when the cancellation was valid, answered TransferCanceledEvent and persisted |
| DurableOrchestrationProperties.ReceiptStageOutcome | src/Saga.Orchestration/Factories/DurableOrchestrator.cs:94-133 | Success exactly when the receipt was issued and persisted; Cancelled exactly when it was not issued and the compensation succeeded |
| DurableOrchestrationProperties.TransferStageOutcome | src/Saga.Orchestration/Factories/DurableOrchestrator.cs:75-133 | Success and Cancelled exactly under their conditions from the transfer on; never Pending; ends persisting; only waits throw on full tables |
| DurableOrchestrationProperties.TransferStageShape | src/Saga.Orchestration/Factories/DurableOrchestrator.cs:75-81 | a missing TransferCommand key throws at once; otherwise TransferCommand is the stage's first step, and an invalid result persists Fail right after |
| DurableOrchestrationProperties.TransferStageGates | src/Saga.Orchestration/Factories/DurableOrchestrator.cs:75-128 | the receipt and cancellation commands are produced only after the transfer succeeded |
| DurableOrchestrationProperties.ForwardOutcome | src/Saga.Orchestration/Factories/DurableOrchestrator.cs:56-133 | Success and Cancelled exactly under their conditions from the validation on; never Pending; ends persisting; only waits throw on full tables |
| DurableOrchestrationProperties.ForwardShape | src/Saga.Orchestration/Factories/DurableOrchestrator.cs:56-62 | a missing ValidateTransferCommand key throws at once; otherwise that command is the first step, and an invalid result persists Fail right after |
| DurableOrchestrationProperties.ForwardGates | src/Saga.Orchestration/Factories/DurableOrchestrator.cs:56-128 | each later command is produced only after every earlier one was valid and answered as the saga needs |
| DurableOrchestrationProperties.PendingFirst | src/Saga.Orchestration/Factories/DurableOrchestrator.cs:49-54 | the Pending persister is called first, and a missing key throws before it; when it returns false the run is Fail and nothing else runs |
| DurableOrchestrationProperties.CommandsInOrder | src/Saga.Orchestration/Factories/DurableOrchestrator.cs:47-134 | the four commands come in saga order, none twice, each only after Pending and the earlier answers as the saga needs; no persister is called twice |
| DurableOrchestrationProperties.OutcomeRoutes | src/Saga.Orchestration/Factories/DurableOrchestrator.cs:47-134 | Success and Cancelled, each exactly under its conditions; never Pending; the last closure is the persister of the state returned |
| DurableOrchestrationProperties.FullTablesOnlyWaitsThrow | src/Saga.Orchestration/Factories/DurableOrchestrator.cs:47-134 | with full tables and no closure throwing, only a wait throws, and then an ArgumentException |
| DurableOrchestrationProperties.MissingKeyThrows | src/Saga.Orchestration/Factories/DurableOrchestrator.cs:75-81 | a missing key the run reaches throws KeyNotFoundException and nothing further is called |
| DurableOrchestrationProperties.CompensateRejectionEnds | src/Saga.Orchestration/Factories/DurableOrchestrator.cs:109-115 | an invalid cancellation result is followed only by the Fail persister |
| DurableOrchestrationProperties.ReceiptStageRejectionEnds | src/Saga.Orchestration/Factories/DurableOrchestrator.cs:94-128 | any invalid command result from the receipt on is followed only by the Fail persister |
| DurableOrchestrationProperties.TransferStageRejectionEnds | src/Saga.Orchestration/Factories/DurableOrchestrator.cs:75-128 | any invalid command result from the transfer on is followed only by the Fail persister |
| DurableOrchestrationProperties.ForwardRejectionEnds | src/Saga.Orchestration/Factories/DurableOrchestrator.cs:56-128 | any invalid command result from the validation on is followed only by the Fail persister |
| DurableOrchestrationProperties.InvalidResultFails | src/Saga.Orchestration/Factories/DurableOrchestrator.cs:56-128 | an invalid command result is followed only by the Fail persister, and the run returns what that persister makes of Fail |
| DurableOrchestrationProperties.FinishIgnoresResult | src/Saga.Orchestration/Factories/DurableOrchestrator.cs:120-133 | a terminal persister that returns gives the same run whatever boolean it returns |
| DurableOrchestrationProperties.TerminalResultIgnored | src/Saga.Orchestration/Factories/DurableOrchestrator.cs:120-133 | the run does not depend on the boolean a terminal persister returns; only Pending's matters |
| OrchestratorActivity.PendingIsInsertedAsIs | src/Saga.Functions/Services/Activities/OrchestratorActivity.cs:29-33 | a Pending item is stored as is, under its id, and returned |
| OrchestratorActivity.OtherStatesUpdateOnlyState | src/Saga.Functions/Services/Activities/OrchestratorActivity.cs:35-45 | any other item changes only the state of the document with its id; every other document and property is kept |
| OrchestratorActivity.MissingDocumentFails | src/Saga.Functions/Services/Activities/OrchestratorActivity.cs:35-45 | a non-Pending item without a stored document throws NullReferenceException and stores nothing |
| OrchestratorActivity.ReturnsItsInput | src/Saga.Functions/Services/Activities/OrchestratorActivity.cs:17-46 | a returned item is the input unchanged |
| OrchestratorActivity.LifecycleEndsInLastState | src/Saga.Functions/Services/Activities/OrchestratorActivity.cs:17-46 | after the Pending copy is stored, later states land on that document, which ends as the item stamped with the last state, and no other document changes |
| OrchestratorActivity.LaterStatesUpdate | src/Saga.Functions/Services/Activities/OrchestratorActivity.cs:35-45 | later states keep updating the stored document with the newest state |
| OrchestratorActivity.TransactionCollection.SagaOrchestratorActivity | src/Saga.Functions/Services/Activities/OrchestratorActivity.cs:17-46 | on the document collection in place: the result and new documents are those of `PersistTransaction` |
| OrchestratorFunction.ProducerTableComplete | src/Saga.Functions/Services/Orchestrator.cs:26-32 | the producer table has exactly the four command names, each with its class's call |
| OrchestratorFunction.PersisterTableComplete | src/Saga.Functions/Services/Orchestrator.cs:34-40 | the persister table has exactly the four state names, each with its state's call |
| OrchestratorFunction.InvocationCatchesArgumentExceptions | src/Saga.Functions/Services/Orchestrator.cs:42-52 | completes exactly when the run returns or throws an ArgumentException, which is then logged; anything else is rethrown |
| OrchestratorFunction.NullInputThrows | src/Saga.Functions/Services/Orchestrator.cs:24-48 | a null input makes the Pending persister throw NullReferenceException, which escapes with nothing logged |
| OrchestratorFunction.WellBehavedActivitiesNeverThrow | src/Saga.Functions/Services/Orchestrator.cs:20-53 | with an input, failure-reporting activities and date deadlines, the function never throws; every exception is a wait's ArgumentException, which is logged |
| EventProcessing.SagaEventProcessor | src/Saga.Functions/Services/EventProcessor.cs:16-47 | on the two sinks in place: the result, the count of logged errors and the sink values are those of `Process` |
| EventProcessing.ProcessHandlesEveryHeader | src/Saga.Functions/Services/EventProcessor.cs:25-46 | with no faults, one item stored and one event raised per event with a header, in order, one error logged per event without, and the batch completes |
| EventProcessing.ProcessKeepsSinksInStep | src/Saga.Functions/Services/EventProcessor.cs:25-46 | whatever throws, stored and raised follow the headers in order, and the store is at most one item ahead, only when it threw |
| EventProcessing.SignalAnswersWait | src/Saga.Functions/Services/EventProcessor.cs:36-45 | the raised event goes to the instance of the transaction id under the sender's name, and its payload is the expected class's name exactly when the reply is of that class |
| SagaStarter.ValidateInputNamesFirstFault | src/Saga.Functions/Services/SagaStarterService.cs:41-80 | valid exactly when the item is present, both ids non-empty and the amount positive; an invalid input names the first failing check |
| SagaStarter.StarterAdmitsWhatLedgerAccepts | src/Saga.Functions/Services/SagaStarterService.cs:41-80 | every transfer the ledger accepts is admitted, and so is one with a blank account, which the ledger rejects |
| SagaStarter.StartsOnlyValidInput | src/Saga.Functions/Services/SagaStarterService.cs:16-39 | a saga is started exactly when the input is valid, once, under the transaction's id, and the 200 answer carries the instance id the client returned; invalid input is answered 400 with no call |
| SagaStarter.SagaStarterFunction | src/Saga.Functions/Services/SagaStarterService.cs:16-39 | on the durable client in place, with `StartNewAsync`'s returned id as input: the answer and client value are those of `Start` |

## Left out

- JSON serialization and deserialization. A received container either parses to a command or throws, and an event's payload is modelled as its fields, not its JSON text.
- Cosmos DB, Event Hubs and the durable task runtime are not modelled as services. Each output binding, repository and durable client is a sink that keeps items or throws on chosen calls.
- Durable replay, task scheduling and the `RetryOptions` retry behaviour of the runtime. Which of an activity and its timer finishes first is an input.
- Log texts. Logging is modelled only where the log carries an outcome: the producer's retry warnings and final error, and the event processor's and orchestrator function's errors.
- The texts of `ConstantStrings` and the file `RequestInputResult.cs` are not part of this model. Their messages are distinct identifiers, and `RequestInputResult` is modelled from its use in `SagaStarterService`.
- Reading timeouts and retry counts from environment variables. They are parameters, with their `int.Parse` range, and parse failures are not modelled.
- Polly's stricter argument checks when a policy is built (for example, a non-positive exception count) are not modelled. The settings are required to be in range instead.
- Culture-specific DateTime formatting in `ExecutedTransfer.ToString` is a parameter (`formatDate`).
- Each command is stamped with a single clock reading and GUID, passed in. The model does not capture that successive reads of the clock may differ within one command.
- The hosting wiring of the producer activity functions and of the participant services' function entry points, beyond the processor maps.
- DurableOrchestration.OrchestrateAsync: its `input` parameter is unused in the source, so the model takes none.
- ActivityFactory.ActivityValueIsIgnored shows that a faulted activity that beats its timer is reported valid. That is what the code does, and it is documented here rather than corrected.
- Orchestrator.GetInput deserialization failures other than a null input.
- Argument validation inside the durable client's `RaiseEventAsync` and `StartNewAsync`. The instance id and event names reach the client as given. How the client picks the instance id it returns (its own GUID for an empty id) is not modelled: that id is an input of `SagaStarter.Start`.
- UTF-8 decoding of event bodies in `EventProcessor`. A body either deserializes to an event or throws.
- Floating point. Amounts are `decimal` in the source and exact reals here, so rounding is not modelled.
