/**
 The `serve` handler of the `safro-transaction` edge function: CORS preflight,
 method check, body parse, configuration read for the address prefix, the
 receiver check, then `sendTokens`, with every exception mapped to a 500.
 */
module Handler {
  import opened JsValues
  import opened Json
  import opened FaucetConfig
  import opened Dispatch

  datatype Header = Header(name: string, value: string)

  const CorsHeaders: seq<Header> := [
    Header("Access-Control-Allow-Origin", "*"),
    Header("Access-Control-Allow-Headers", "authorization, x-client-info, apikey, content-type")]

  /** `{ "Content-Type": "application/json", ...corsHeaders }` */
  const JsonHeaders: seq<Header> := [Header("Content-Type", "application/json")] + CorsHeaders

  const MethodNotAllowedMessage := "Method not allowed"
  const InvalidReceiverPrefix := "Invalid receiver address. Must start with: "
  const UnknownErrorMessage := "An unknown error occurred"

  /** A response; `body` is `None` for the `null` body of the preflight answer, otherwise
      the JSON value that is stringified. */
  datatype Response = Response(status: int, headers: seq<Header>, body: Option<Json>)

  /** An inbound request: its method, and what `await req.json()` followed by reading
      `receiver` from it gives (or throws). */
  datatype Request = Request(verb: string, receiver: Result<Field>)

  datatype HandlerRun = HandlerRun(response: Response, calls: seq<Call>)

  function ErrorBody(message: string): Json {
    JObject([Str("error", message)])
  }

  function FailureBody(message: string): Json {
    JObject([Str("error", message), Member("success", JBool(false))])
  }

  /** `error instanceof Error ? error.message : "An unknown error occurred"` */
  function ErrorMessage(e: Thrown): string {
    if e.ErrorObject? then e.message else UnknownErrorMessage
  }

  function InternalError(e: Thrown): Response {
    Response(500, JsonHeaders, Some(FailureBody(ErrorMessage(e))))
  }

  /** `receiverAddress && receiverAddress.startsWith(PREFIX)` */
  predicate ReceiverAccepted(receiver: Field, prefix: Field) {
    Truthy(receiver) && StartsWith(receiver.s, Render(prefix))
  }

  /** The handler, given its request, the answers of the two configuration reads (its
      own, for the prefix, and the one inside `sendTokens`), the BIP-39 check and the
      SDK's answers. */
  function Handle(req: Request, handlerConfig: Result<Config>, sendConfig: Result<Config>,
                  validateMnemonic: string -> bool, chain: Chain): HandlerRun
    requires |chain.attempts| >= MaxRetries
  {
    if req.verb == "OPTIONS" then
      HandlerRun(Response(200, CorsHeaders, None), [])
    else if req.verb != "POST" then
      HandlerRun(Response(405, JsonHeaders, Some(ErrorBody(MethodNotAllowedMessage))), [])
    else if req.receiver.Err? then
      HandlerRun(InternalError(req.receiver.error), [ReadBody])
    else if handlerConfig.Err? then
      HandlerRun(InternalError(handlerConfig.error), [ReadBody, FetchConfig])
    else
      var prefix := handlerConfig.value.prefix;
      if !ReceiverAccepted(req.receiver.value, prefix) then
        HandlerRun(Response(400, JsonHeaders, Some(ErrorBody(InvalidReceiverPrefix + Render(prefix)))),
                   [ReadBody, FetchConfig])
      else
        var send := SendTokens(req.receiver.value.s, sendConfig, validateMnemonic, chain);
        var response :=
          match send.outcome
          case Threw(e) => InternalError(e)
          case Sent(r) => Response(200, JsonHeaders, Some(ReplaceBigInts(ResultJson(r))))
          case UnknownError =>
            Response(200, JsonHeaders, Some(ReplaceBigInts(JObject([Member("success", JBool(false)), Str("error", "Unknown error")]))));
        HandlerRun(response, [ReadBody, FetchConfig] + send.calls)
  }

  /** A preflight request gets an empty answer with the CORS headers, before the body is
      read or anything is fetched. */
  lemma OptionsPreflight(req: Request, handlerConfig: Result<Config>, sendConfig: Result<Config>,
                         validateMnemonic: string -> bool, chain: Chain)
    requires |chain.attempts| >= MaxRetries
    requires req.verb == "OPTIONS"
    ensures Handle(req, handlerConfig, sendConfig, validateMnemonic, chain) ==
            HandlerRun(Response(200, CorsHeaders, None), [])
  {
  }

  /** Any method but OPTIONS and POST gets 405, with no read, fetch or send. */
  lemma MethodNotAllowed(req: Request, handlerConfig: Result<Config>, sendConfig: Result<Config>,
                         validateMnemonic: string -> bool, chain: Chain)
    requires |chain.attempts| >= MaxRetries
    requires req.verb != "OPTIONS" && req.verb != "POST"
    ensures Handle(req, handlerConfig, sendConfig, validateMnemonic, chain) ==
            HandlerRun(Response(405, JsonHeaders, Some(JObject([Member("error", JString("Method not allowed"))]))), [])
  {
  }

  /** A missing receiver, or one without the configured prefix, gets 400 naming the
      prefix; `sendTokens` is not entered, so nothing is broadcast. */
  lemma InvalidReceiverRejected(receiver: Field, cfg: Config, sendConfig: Result<Config>,
                                validateMnemonic: string -> bool, chain: Chain)
    requires |chain.attempts| >= MaxRetries
    requires !Truthy(receiver) || !StartsWith(receiver.s, Render(cfg.prefix))
    ensures var run := Handle(Request("POST", Ok(receiver)), Ok(cfg), sendConfig, validateMnemonic, chain);
      && run.response.status == 400
      && run.response.body == Some(JObject([Member("error", JString(InvalidReceiverPrefix + Render(cfg.prefix)))]))
      && run.calls == [ReadBody, FetchConfig]
      && BroadcastCount(run.calls) == 0
  {
  }

  /** The status decision, total over every input: preflight 200 with bare CORS headers;
      405; 400 when the receiver is refused; 200 with a success payload exactly when
      `sendTokens` delivered; 500 exactly when something was thrown after the method check.
      Every answer but the preflight one carries the JSON content type and the CORS headers.
      At most three transfers are broadcast. */
  lemma StatusClassification(req: Request, handlerConfig: Result<Config>, sendConfig: Result<Config>,
                             validateMnemonic: string -> bool, chain: Chain)
    requires |chain.attempts| >= MaxRetries
    ensures var run := Handle(req, handlerConfig, sendConfig, validateMnemonic, chain);
      var dispatched := req.verb == "POST" && req.receiver.Ok? && handlerConfig.Ok?
        && ReceiverAccepted(req.receiver.value, handlerConfig.value.prefix);
      && run.response.status in {200, 400, 405, 500}
      && (req.verb != "OPTIONS" ==> run.response.headers == JsonHeaders)
      && BroadcastCount(run.calls) <= MaxRetries
      && (BroadcastCount(run.calls) > 0 ==> dispatched)
      && (run.response.status == 405 <==> req.verb != "OPTIONS" && req.verb != "POST")
      && (run.response.status == 400 <==>
            req.verb == "POST" && req.receiver.Ok? && handlerConfig.Ok?
            && !ReceiverAccepted(req.receiver.value, handlerConfig.value.prefix))
      && (run.response.status == 200 <==>
            req.verb == "OPTIONS"
            || (dispatched && SendTokens(req.receiver.value.s, sendConfig, validateMnemonic, chain).outcome.Sent?))
      && (run.response.status == 500 <==>
            req.verb == "POST"
            && (req.receiver.Err? || handlerConfig.Err?
                || (dispatched && SendTokens(req.receiver.value.s, sendConfig, validateMnemonic, chain).outcome.Threw?)))
  {
    var run := Handle(req, handlerConfig, sendConfig, validateMnemonic, chain);
    if req.verb == "POST" && req.receiver.Ok? && handlerConfig.Ok? {
      if ReceiverAccepted(req.receiver.value, handlerConfig.value.prefix) {
        var send := SendTokens(req.receiver.value.s, sendConfig, validateMnemonic, chain);
        SendTokensOutcome(req.receiver.value.s, sendConfig, validateMnemonic, chain);
        BroadcastCountAppend([ReadBody, FetchConfig], send.calls);
        BroadcastFree([ReadBody, FetchConfig]);
      } else {
        BroadcastFree(run.calls);
      }
    } else {
      BroadcastFree(run.calls);
    }
  }

  /** Every exception after the method check becomes a 500 with `success: false` and the
      message of what was thrown: the body read's, the handler's configuration read's, or
      the one `sendTokens` threw. */
  lemma InternalErrors(req: Request, handlerConfig: Result<Config>, sendConfig: Result<Config>,
                       validateMnemonic: string -> bool, chain: Chain)
    requires |chain.attempts| >= MaxRetries
    ensures var run := Handle(req, handlerConfig, sendConfig, validateMnemonic, chain);
      && (req.verb == "POST" && req.receiver.Err? ==>
            run.response == Response(500, JsonHeaders, Some(FailureBody(ErrorMessage(req.receiver.error)))))
      && (req.verb == "POST" && req.receiver.Ok? && handlerConfig.Err? ==>
            run.response == Response(500, JsonHeaders, Some(FailureBody(ErrorMessage(handlerConfig.error)))))
      && (req.verb == "POST" && req.receiver.Ok? && handlerConfig.Ok?
          && ReceiverAccepted(req.receiver.value, handlerConfig.value.prefix)
          && SendTokens(req.receiver.value.s, sendConfig, validateMnemonic, chain).outcome.Threw? ==>
            run.response == Response(500, JsonHeaders, Some(FailureBody(ErrorMessage(
              SendTokens(req.receiver.value.s, sendConfig, validateMnemonic, chain).outcome.error)))))
  {
  }

  /** A wallet derivation that rejects with a non-nullish value that is not an `Error`
      is rethrown unchanged by the outer `catch` of `sendTokens`, and the answer says
      "An unknown error occurred", with nothing broadcast. A nullish rejection instead
      makes that `catch` throw a `TypeError`, whose message the answer reports. */
  lemma NonErrorWalletFailureReported(receiver: string, cfg: Config, sendConfig: Config,
                                      validateMnemonic: string -> bool, chain: Chain)
    requires |chain.attempts| >= MaxRetries
    requires ReceiverAccepted(Text(receiver), cfg.prefix)
    requires CheckConfig(sendConfig, validateMnemonic).None?
    requires chain.wallet.Err? && !chain.wallet.error.ErrorObject?
    ensures var run := Handle(Request("POST", Ok(Text(receiver))), Ok(cfg), Ok(sendConfig), validateMnemonic, chain);
      && run.response == Response(500, JsonHeaders, Some(JObject([Member("error", JString(
           if Nullish(chain.wallet.error) then MessageReadError(chain.wallet.error).message
           else "An unknown error occurred")), Member("success", JBool(false))])))
      && run.calls == [ReadBody, FetchConfig, FetchConfig, DeriveWallet]
  {
  }

  /** A `null` rejection of the first broadcast makes the loop's `catch` throw a
      `TypeError` reading `message`; that is the error the answer reports, after one
      broadcast and no retry. */
  lemma NullBroadcastRejectionReported(receiver: string, cfg: Config, sendConfig: Config,
                                       validateMnemonic: string -> bool, chain: Chain)
    requires |chain.attempts| >= MaxRetries
    requires ReceiverAccepted(Text(receiver), cfg.prefix)
    requires CheckConfig(sendConfig, validateMnemonic).None?
    requires chain.wallet.Ok? && chain.connect.None? && chain.chainId.Ok? && chain.senderBalance.Ok?
    requires chain.attempts[0].broadcast == Err(NullValue)
    ensures var run := Handle(Request("POST", Ok(Text(receiver))), Ok(cfg), Ok(sendConfig), validateMnemonic, chain);
      && run.response == Response(500, JsonHeaders, Some(JObject([
           Member("error", JString(NullMessageRead)),
           Member("success", JBool(false))])))
      && BroadcastCount(run.calls) == 1
  {
    var send := SendTokens(receiver, Ok(sendConfig), validateMnemonic, chain);
    NullBroadcastRejection(receiver, sendConfig, validateMnemonic, chain);
    BroadcastFree([ReadBody, FetchConfig]);
    BroadcastCountAppend([ReadBody, FetchConfig], send.calls);
  }

  /** A 200 answer to a POST is the payload of the first successful attempt: `success: true`,
      the amount `{denom, amount}` and memo of `sendTokens`' own configuration snapshot,
      the request's receiver, and the explorer link built from that snapshot's prefix and
      the transaction hash. */
  lemma SuccessPayload(receiver: string, handlerConfig: Result<Config>, sendConfig: Result<Config>,
                       validateMnemonic: string -> bool, chain: Chain)
    requires |chain.attempts| >= MaxRetries
    requires Handle(Request("POST", Ok(Text(receiver))), handlerConfig, sendConfig, validateMnemonic, chain).response.status == 200
    ensures sendConfig.Ok? && FirstExit(chain.attempts, 0, MaxRetries).Some?
    ensures Succeeds(chain.attempts[FirstExit(chain.attempts, 0, MaxRetries).value])
    ensures var run := Handle(Request("POST", Ok(Text(receiver))), handlerConfig, sendConfig, validateMnemonic, chain);
      var cfg := sendConfig.value;
      var tx := chain.attempts[FirstExit(chain.attempts, 0, MaxRetries).value].broadcast.value;
      && run.response.body.Some? && run.response.body.value.JObject?
      && var ms := run.response.body.value.members;
      && Lookup(ms, "success") == Some(JBool(true))
      && Lookup(ms, "amount") == Some(JObject([Member("denom", JString(cfg.denom.s)), Member("amount", JString(cfg.amount.s))]))
      && Lookup(ms, "receiverAddress") == Some(JString(receiver))
      && Lookup(ms, "memo") == MemoJson(cfg.memo)
      && Lookup(ms, "transactionHash") == Some(JString(tx.transactionHash))
      && Lookup(ms, "explorerTxUrl") == Some(JString(ExplorerPrefix(cfg.explorerUrlPrefix) + tx.transactionHash))
  {
    var send := SendTokens(receiver, sendConfig, validateMnemonic, chain);
    SendTokensOutcome(receiver, sendConfig, validateMnemonic, chain);
    assert send.outcome.Sent?;
    var r := send.outcome.result;
    ResultJsonHasNoBigInt(r);
    ResultJsonFields(r);
  }

  /** When the configuration is complete and every attempt fails, the answer is 500 and
      its message carries the last attempt's error. */
  lemma ExhaustedRetriesAnswer(receiver: string, handlerConfig: Config, sendConfig: Config,
                               validateMnemonic: string -> bool, chain: Chain)
    requires |chain.attempts| >= MaxRetries
    requires ReceiverAccepted(Text(receiver), handlerConfig.prefix)
    requires CheckConfig(sendConfig, validateMnemonic).None?
    requires chain.wallet.Ok? && chain.connect.None? && chain.chainId.Ok? && chain.senderBalance.Ok?
    requires forall j :: 0 <= j < MaxRetries ==> Retried(chain.attempts[j])
    ensures var run := Handle(Request("POST", Ok(Text(receiver))), Ok(handlerConfig), Ok(sendConfig), validateMnemonic, chain);
      var last := chain.attempts[MaxRetries - 1];
      && run.response.status == 500
      && Retried(last)
      && run.response.body == Some(FailureBody(RetriesExhaustedPrefix + MessageOf(Some(FailureOf(last)))))
      && BroadcastCount(run.calls) == MaxRetries
  {
    var send := SendTokens(receiver, Ok(sendConfig), validateMnemonic, chain);
    ExhaustionUsesLastError(chain.attempts, receiver);
    var setup := [FetchConfig, DeriveWallet, Connect, GetChainId, GetBalances(chain.wallet.value)];
    var loop := RetryLoop(chain.attempts, receiver, MaxRetries, None);
    BroadcastFree(setup);
    BroadcastFree([ReadBody, FetchConfig]);
    BroadcastCountAppend(setup, loop.calls);
    BroadcastCountAppend([ReadBody, FetchConfig], send.calls);
  }
}
