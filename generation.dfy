/** generateGptResponse of app/src/demo-ai-app/operations.ts: entitlement
    check, debit of one credit, a call to the completion provider, parsing of
    the tool-call arguments, and in the catch block a conditional refund and
    a rethrow.

    The provider's reply and the JSON parser are parameters: `reply` stands for
    what the provider answered to the request built from the product name,
    target audience and tone, and `parse` for `JSON.parse`. `apiKeySet` is
    whether OPENAI_API_KEY was set when the module was loaded. `caller` is
    `context.user`, a snapshot of the user's row taken when the request
    started; the debit and the refund act on the stored row. */
module Generation {

  import opened Errors
  import opened Entities
  import opened Users

  /** What the provider sends back: a completion whose first choice may carry
      tool-call arguments, or a rejection of the request itself. */
  datatype ProviderReply = Completion(toolArgs: Option<string>) | ProviderFailure(error: Error)

  /** `JSON.parse` of the arguments: any JSON value, whatever its shape, or a
      SyntaxError (which has no status code). */
  datatype ParseOutcome = Parsed(value: Json) | SyntaxError(message: string)

  const ApiKeyNotSet := HttpError(500, "OpenAI API key is not set")
  const NotPaid := HttpError(402, "User has not paid or is out of credits")
  const BadResponse := HttpError(500, "Bad response from OpenAI")

  /** A subscription entitles unless it is absent, empty, 'deleted' or 'past_due'. */
  predicate HasValidSubscription(status: Option<string>)
  {
    Truthy(status) && status.value != "deleted" && status.value != "past_due"
  }

  /** The entitlement check: credits left, or a valid subscription. */
  predicate CanContinue(u: User)
  {
    u.credits > 0 || HasValidSubscription(u.subscriptionStatus)
  }

  /** The try block as a value: whether it debited, and what it returned or threw. */
  datatype Attempt = Attempt(debited: bool, outcome: Result<Json>)

  /** What the provider's reply turns into: the parsed arguments, or the error
      thrown while obtaining them. */
  function Completed(reply: ProviderReply, parse: string -> ParseOutcome): Result<Json>
  {
    match reply
    case ProviderFailure(e) => Err(e)
    case Completion(args) =>
      if !Truthy(args) then Err(BadResponse)
      else
        match parse(args.value)
        case Parsed(v) => Ok(v)
        case SyntaxError(m) => Err(Error(None, m))
  }

  function TryBlock(apiKeySet: bool, u: User, reply: ProviderReply, parse: string -> ParseOutcome): Attempt
  {
    if !apiKeySet then Attempt(false, Err(ApiKeyNotSet))
    else if !CanContinue(u) then Attempt(false, Err(NotPaid))
    else Attempt(true, Completed(reply, parse))
  }

  /** The refund guard of the catch block: it looks at the snapshot's
      subscription status only, and at the error's status code. */
  predicate RefundApplies(u: User, e: Error)
  {
    !Truthy(u.subscriptionStatus) && e.statusCode != Some(402)
  }

  /** The error the catch block rethrows: the original status code unless it
      is absent or 0, then 500; the original message unless it is empty, then
      a generic one. */
  function Rethrown(e: Error): Error
  {
    HttpError(if e.statusCode.Some? && e.statusCode.value != 0 then e.statusCode.value else 500,
              if e.message != "" then e.message else "Internal server error")
  }

  /** The whole operation as a value: its response and the net change it
      makes to the stored user's credits. */
  datatype Outcome = Outcome(response: Result<Json>, creditDelta: int)

  function Generate(apiKeySet: bool, caller: Option<User>, reply: ProviderReply, parse: string -> ParseOutcome): Outcome
  {
    match caller
    case None => Outcome(Err(Unauthorized), 0)
    case Some(u) =>
      var attempt := TryBlock(apiKeySet, u, reply, parse);
      var debit := if attempt.debited then -1 else 0;
      match attempt.outcome
      case Ok(v) => Outcome(Ok(v), debit)
      case Err(e) => Outcome(Err(Rethrown(e)), debit + if RefundApplies(u, e) then 1 else 0)
  }

  /** The operation on the user table. */
  method GenerateGptResponse(users: UserTable, apiKeySet: bool, caller: Option<User>,
                             reply: ProviderReply, parse: string -> ParseOutcome)
    returns (r: Result<Json>)
    requires users.Valid()
    requires caller.Some? ==> caller.value.id in users.rows
    modifies users
    ensures users.Valid() && users.order == old(users.order)
    ensures r == Generate(apiKeySet, caller, reply, parse).response
    ensures caller.None? ==> users.rows == old(users.rows)
    ensures caller.Some? ==>
              var id := caller.value.id;
              var delta := Generate(apiKeySet, caller, reply, parse).creditDelta;
              users.rows == old(users.rows)[id := old(users.rows)[id].(credits := old(users.rows)[id].credits + delta)]
  {
    if caller.None? {
      return Err(Unauthorized);
    }
    var user := caller.value;
    var outcome: Result<Json>;
    // try
    if !apiKeySet {
      outcome := Err(ApiKeyNotSet);
    } else if !CanContinue(user) {
      outcome := Err(NotPaid);
    } else {
      users.IncrementCredits(user.id, -1);
      match reply {
        case ProviderFailure(e) =>
          outcome := Err(e);
        case Completion(args) =>
          if !Truthy(args) {
            outcome := Err(BadResponse);
          } else {
            var parsed := parse(args.value);
            match parsed {
              case Parsed(v) => outcome := Ok(v);
              case SyntaxError(m) => outcome := Err(Error(None, m));
            }
          }
      }
    }
    // catch
    if outcome.Err? {
      var e := outcome.error;
      if !Truthy(user.subscriptionStatus) && e.statusCode != Some(402) {
        users.IncrementCredits(user.id, 1);
      }
      var statusCode := if e.statusCode.Some? && e.statusCode.value != 0 then e.statusCode.value else 500;
      var message := if e.message != "" then e.message else "Internal server error";
      r := Err(HttpError(statusCode, message));
    } else {
      r := outcome;
    }
  }

  // Properties of the operation, for a caller whose snapshot is `u`.

  /** Without a user the operation rejects with 401 and changes nothing. */
  lemma UnauthenticatedRejected(apiKeySet: bool, reply: ProviderReply, parse: string -> ParseOutcome)
    ensures Generate(apiKeySet, None, reply, parse) == Outcome(Err(HttpError(401, "")), 0)
  {
  }

  /** With the key set, the try block debits exactly when the caller is entitled. */
  lemma DebitsIffEntitled(u: User, reply: ProviderReply, parse: string -> ParseOutcome)
    ensures TryBlock(true, u, reply, parse).debited <==> CanContinue(u)
    ensures CanContinue(u) <==> u.credits > 0 || (Truthy(u.subscriptionStatus) &&
                                 u.subscriptionStatus.value !in {"deleted", "past_due"})
  {
  }

  /** A caller who is not entitled gets 402 and keeps every credit: nothing
      was debited, and the refund guard leaves 402 out. */
  lemma NotEntitledRejectedFree(u: User, reply: ProviderReply, parse: string -> ParseOutcome)
    requires !CanContinue(u)
    ensures Generate(true, Some(u), reply, parse) ==
            Outcome(Err(HttpError(402, "User has not paid or is out of credits")), 0)
  {
  }

  /** An entitled caller whose reply parses gets the parsed value back
      unchanged and pays exactly one credit. */
  lemma SuccessCostsOneCredit(u: User, args: string, v: Json, parse: string -> ParseOutcome)
    requires CanContinue(u)
    requires args != "" && parse(args) == Parsed(v)
    ensures Generate(true, Some(u), Completion(Some(args)), parse) == Outcome(Ok(v), -1)
  {
  }

  /** Conversely, every success comes from an entitled caller, a parsed
      tool-call argument, and costs one credit. */
  lemma SuccessOnlyFromParsedArguments(apiKeySet: bool, u: User, reply: ProviderReply, parse: string -> ParseOutcome)
    requires Generate(apiKeySet, Some(u), reply, parse).response.Ok?
    ensures apiKeySet && CanContinue(u)
    ensures reply.Completion? && Truthy(reply.toolArgs) && parse(reply.toolArgs.value).Parsed?
    ensures Generate(apiKeySet, Some(u), reply, parse) ==
            Outcome(Ok(parse(reply.toolArgs.value).value), -1)
  {
  }

  /** An entitled caller without a subscription status whose call fails after
      the debit ends where it started: missing arguments (500 "Bad response
      from OpenAI"), a parse error and a provider error are all refunded,
      except a provider error that itself carries status 402. */
  lemma UnsubscribedFailureRefunded(u: User, reply: ProviderReply, parse: string -> ParseOutcome)
    requires CanContinue(u) && !Truthy(u.subscriptionStatus)
    requires Generate(true, Some(u), reply, parse).response.Err?
    ensures Completed(reply, parse).error.statusCode != Some(402) ==>
              Generate(true, Some(u), reply, parse).creditDelta == 0
    ensures Completed(reply, parse).error.statusCode == Some(402) ==>
              Generate(true, Some(u), reply, parse).creditDelta == -1
  {
  }

  /** Missing tool-call arguments reject with 500 "Bad response from OpenAI". */
  lemma MissingArgumentsAreBadResponse(u: User, args: Option<string>, parse: string -> ParseOutcome)
    requires CanContinue(u) && !Truthy(args)
    ensures Generate(true, Some(u), Completion(args), parse).response ==
            Err(HttpError(500, "Bad response from OpenAI"))
  {
  }

  /** The refund guard looks only at whether a status is set: a lapsed
      ('past_due' or 'deleted') subscriber entitled by credits loses the
      credit when the call fails. */
  lemma LapsedSubscriberNotRefunded(u: User, reply: ProviderReply, parse: string -> ParseOutcome)
    requires u.subscriptionStatus == Some("past_due") || u.subscriptionStatus == Some("deleted")
    requires u.credits > 0
    requires Generate(true, Some(u), reply, parse).response.Err?
    ensures Generate(true, Some(u), reply, parse).creditDelta == -1
  {
  }

  /** A subscriber in good standing is debited too, and a failed call is not
      refunded. */
  lemma ValidSubscriberFailureCharged(u: User, reply: ProviderReply, parse: string -> ParseOutcome)
    requires HasValidSubscription(u.subscriptionStatus)
    requires Generate(true, Some(u), reply, parse).response.Err?
    ensures Generate(true, Some(u), reply, parse).creditDelta == -1
  {
  }

  /** Without the API key the operation throws 500 before the entitlement
      check, and a caller without a subscription status is then credited one
      credit that was never debited. */
  lemma MissingKeyRefundsWithoutDebit(u: User, reply: ProviderReply, parse: string -> ParseOutcome)
    ensures Generate(false, Some(u), reply, parse).response == Err(HttpError(500, "OpenAI API key is not set"))
    ensures Generate(false, Some(u), reply, parse).creditDelta == if Truthy(u.subscriptionStatus) then 0 else 1
  {
  }

  /** The net effect on credits in every case: one of -1, 0 and 1; +1 exactly
      on the missing-key path of a caller without a subscription status; -1
      exactly when an entitled caller succeeds, or fails with a status set or
      with status 402. */
  lemma CreditDeltaCases(apiKeySet: bool, u: User, reply: ProviderReply, parse: string -> ParseOutcome)
    ensures var g := Generate(apiKeySet, Some(u), reply, parse);
            && -1 <= g.creditDelta <= 1
            && (g.creditDelta == 1 <==> !apiKeySet && !Truthy(u.subscriptionStatus))
            && (g.creditDelta == -1 <==>
                  apiKeySet && CanContinue(u) &&
                  (g.response.Ok? || Truthy(u.subscriptionStatus) || g.response.error.statusCode == Some(402)))
  {
  }

  /** The rethrown error keeps a non-zero status code and a non-empty message
      of the original, and fills in 500 and "Internal server error" otherwise. */
  lemma RethrowKeepsOriginal(e: Error)
    ensures Rethrown(e).statusCode.Some?
    ensures e.statusCode.Some? && e.statusCode.value != 0 ==> Rethrown(e).statusCode == e.statusCode
    ensures e.statusCode.None? || e.statusCode == Some(0) ==> Rethrown(e).statusCode == Some(500)
    ensures Rethrown(e).message == if e.message == "" then "Internal server error" else e.message
  {
  }

  /** Every rejection an authenticated caller sees carries a non-zero status
      code and a non-empty message. */
  lemma AuthenticatedErrorsAreComplete(apiKeySet: bool, u: User, reply: ProviderReply, parse: string -> ParseOutcome)
    requires Generate(apiKeySet, Some(u), reply, parse).response.Err?
    ensures var e := Generate(apiKeySet, Some(u), reply, parse).response.error;
            e.statusCode.Some? && e.statusCode.value != 0 && e.message != ""
  {
  }
}
