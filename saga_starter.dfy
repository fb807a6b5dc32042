/**
 * `SagaStarterService.SagaStarter`: the HTTP function that starts a saga.
 * It checks the posted transaction (present, both accounts given, a
 * positive amount), answers 400 naming the first property that fails, and
 * otherwise starts the orchestration with the transaction's id as instance
 * id and answers 200 with the instance id the durable client returns.
 */
module SagaStarter {
  import opened Basics
  import opened Transactions
  import opened Collectors
  import TransferLedger

  /** The orchestration function the starter names. */
  const SagaOrchestratorFunction: string := "SagaOrchestrator"

  /**
   * What `ValidateInput` returns: whether the input is valid and, when it
   * is not, the name of the property at fault.
   */
  datatype RequestInputResult = RequestInputResult(valid: bool, propertyName: Option<string>)

  /** One `StartNewAsync(orchestratorFunctionName, instanceId, input)` call. */
  datatype StartRequest = StartRequest(orchestratorFunctionName: string, instanceId: string, input: TransactionItem)

  /** The body of the 200 answer. */
  datatype SagaStarterResponse = SagaStarterResponse(transactionId: string)

  /** The HTTP answer. */
  datatype ActionResult = BadRequestObjectResult(message: string) | OkObjectResult(response: SagaStarterResponse)

  /** An answer, or the exception the durable client threw, with the client after the call. */
  datatype Started = Started(result: Result<ActionResult, Exception>, client: Store<StartRequest>)

  /**
   * `ValidateInput`: checks, in order, that the item is present, that
   * neither account id is null or empty, and that the amount is positive.
   */
  function ValidateInput(item: Option<TransactionItem>): RequestInputResult
  {
    if item.None? then RequestInputResult(false, Some("item"))
    else if IsNullOrEmpty(item.value.accountFromId) then RequestInputResult(false, Some("AccountFromId"))
    else if IsNullOrEmpty(item.value.accountToId) then RequestInputResult(false, Some("AccountToId"))
    else if item.value.amount <= 0.0 then RequestInputResult(false, Some("Amount"))
    else RequestInputResult(true, None)
  }

  /**
   * The input is valid exactly when the item is present, both account ids
   * are non-empty and the amount is positive; an invalid input names the
   * first of those checks that fails.
   */
  lemma ValidateInputNamesFirstFault(item: Option<TransactionItem>)
    ensures var v := ValidateInput(item);
      && (v.valid <==> item.Some? && !IsNullOrEmpty(item.value.accountFromId)
                       && !IsNullOrEmpty(item.value.accountToId) && item.value.amount > 0.0)
      && (v.valid <==> v.propertyName.None?)
      && (item.None? ==> v.propertyName == Some("item"))
      && (item.Some? && IsNullOrEmpty(item.value.accountFromId) ==> v.propertyName == Some("AccountFromId"))
      && (item.Some? && !IsNullOrEmpty(item.value.accountFromId) && IsNullOrEmpty(item.value.accountToId) ==>
            v.propertyName == Some("AccountToId"))
      && (v.propertyName == Some("Amount") <==>
            item.Some? && !IsNullOrEmpty(item.value.accountFromId) && !IsNullOrEmpty(item.value.accountToId)
            && item.value.amount <= 0.0)
  {
  }

  /**
   * The starter lets through every transaction the Validator and the ledger
   * accept, but not only those: it checks for empty account ids, where they
   * check for white space too.
   */
  lemma StarterAdmitsWhatLedgerAccepts(item: TransactionItem)
    ensures TransferLedger.Validate(Some(item.id), item.accountFromId, item.accountToId, item.amount).None?
            ==> ValidateInput(Some(item)).valid
    ensures var blank := item.(accountFromId := Some(" "), accountToId := Some("to"), amount := 1.0);
      ValidateInput(Some(blank)).valid
      && TransferLedger.Validate(Some(blank.id), blank.accountFromId, blank.accountToId, blank.amount).Some?
  {
    TransferLedger.ValidateAccepts(Some(item.id), item.accountFromId, item.accountToId, item.amount);
    var blank := item.(accountFromId := Some(" "), accountToId := Some("to"), amount := 1.0);
    assert IsWhiteSpace(" "[0]);
    TransferLedger.ValidateAccepts(Some(blank.id), blank.accountFromId, blank.accountToId, blank.amount);
  }

  /**
   * The whole function on the client's value: a 400 naming the property
   * and no call for an invalid input, and otherwise one start request for
   * the item under its own id, answered 200 unless the call threw. The
   * 200 answer carries `instanceId`, the id `StartNewAsync` returns; the
   * durable client decides it (it makes one up when the id it is given is
   * empty), so it is an input here.
   */
  function Start(item: Option<TransactionItem>, client: Store<StartRequest>, instanceId: string): Started
  {
    var v := ValidateInput(item);
    if !v.valid then
      Started(Ok(BadRequestObjectResult("The " + v.propertyName.value + " value is invalid")), client)
    else
      var call := AddTo(client, StartRequest(SagaOrchestratorFunction, item.value.id, item.value));
      if call.fault.Some? then Started(Err(call.fault.value), call.store)
      else Started(Ok(OkObjectResult(SagaStarterResponse(instanceId))), call.store)
  }

  /**
   * A saga is started exactly when the input is valid, and then once, as
   * `SagaOrchestrator` with the transaction's id as instance id and the
   * transaction as input; a 200 answer carries the instance id the client
   * returned, and an invalid input is answered 400 with no call made.
   */
  lemma StartsOnlyValidInput(item: Option<TransactionItem>, client: Store<StartRequest>, instanceId: string)
    ensures var s := Start(item, client, instanceId);
      && (ValidateInput(item).valid <==> s.client.calls == client.calls + 1)
      && (!ValidateInput(item).valid ==> s.client == client && s.result.Ok? && s.result.value.BadRequestObjectResult?)
      && (ValidateInput(item).valid && client.calls !in client.faults ==>
            s.client.items == client.items + [StartRequest(SagaOrchestratorFunction, item.value.id, item.value)]
            && s.result == Ok(OkObjectResult(SagaStarterResponse(instanceId))))
      && (ValidateInput(item).valid && client.calls in client.faults ==>
            s.client.items == client.items && s.result == Err(client.faults[client.calls]))
  {
    if ValidateInput(item).valid {
      AddToKeepsItem(client, StartRequest(SagaOrchestratorFunction, item.value.id, item.value));
    }
  }

  /**
   * `SagaStarter(item, request, client, log)` on the durable client in
   * place; `returnedId` is what `StartNewAsync` returns when it does not throw.
   */
  method SagaStarterFunction(item: Option<TransactionItem>, client: Collector<StartRequest>, returnedId: string)
    returns (r: Result<ActionResult, Exception>)
    modifies client
    ensures Started(r, client.State()) == Start(item, old(client.State()), returnedId)
  {
    var result := ValidateInput(item);
    if !result.valid {
      return Ok(BadRequestObjectResult("The " + result.propertyName.value + " value is invalid"));
    }
    var fault := client.Add(StartRequest(SagaOrchestratorFunction, item.value.id, item.value));
    if fault.Some? {
      return Err(fault.value);
    }
    var instanceId := returnedId;
    return Ok(OkObjectResult(SagaStarterResponse(instanceId)));
  }
}
