# Safro faucet edge function, modelled in Dafny

The Safro faucet is a web page plus one Supabase edge function,
`safro-transaction`. The function accepts a POST that carries a `receiver`
address. It reads the faucet configuration row, checks that the address starts
with the configured bech32 prefix, and then calls `sendTokens`. That
procedure validates the configuration, derives the faucet wallet, connects to
the chain and broadcasts a single-coin bank transfer, trying at most three
times. The HTTP answer is 200 with the transaction record, 400 for a refused
address, 405 for a wrong method, 500 for any thrown error, or a bare CORS
answer to a preflight.

This project models that request path.

- `js_values.dfy` (`JsValues`) covers the JavaScript semantics the function relies on:
  - values that are `undefined`, `null` or a string;
  - truthiness and template-literal rendering;
  - thrown values: an `Error` with its message, `null`, `undefined`, or another value with or without a `message` property; reading `message` from `null` or `undefined` throws a `TypeError`, and only an `Error` passes `instanceof Error`;
  - `split(" ")`, which keeps empty segments, and its inverse `join`.
- `decimal.dfy` (`Decimal`) is `BigInt.prototype.toString`: canonical decimal text, with its round trip back to the integer.
- `json.dfy` (`Json`) is a JSON value tree that can hold BigInts, with `JSONStringifyWithBigInt`'s replacer as a function on that tree.
- `config.dfy` (`FaucetConfig`) is the configuration row, the two completeness guards of `sendTokens` and the explorer-prefix default.
- `dispatch.dfy` (`Dispatch`) is `sendTokens`:
  - the external calls it makes, recorded as a trace;
  - the retry loop, both as the imperative method `RunRetries` over a script of per-attempt outcomes and as the function `RetryLoop` that the method is proved equal to;
  - a reference "first exit" definition (the first attempt that is not retried: a success or a nullish failure), and the record built on success.
- `handler.dfy` (`Handler`) is the `serve` handler's decision, with status, headers and body.

Every external call is a parameter whose answer is given in advance. This covers:
- both reads of the configuration table;
- `req.json()`;
- wallet derivation;
- `connectWithSigner`, `getChainId`, `getAllBalances` and `signAndBroadcast`.

The BIP-39 `validateMnemonic` check is an uninterpreted predicate. The
handler reads the configuration once for the prefix, and `sendTokens` reads it
again, so the two reads are independent inputs (`handlerConfig`,
`sendConfig`). Each model function returns the trace of the external calls
it made. Properties such as "nothing is broadcast" or "at most three
transfers" are stated on that trace.

The retry loop has one behaviour worth knowing. The receiver-balance read
after a successful `signAndBroadcast` is inside the same `try` as the
broadcast. If that read fails, the transfer is broadcast again: up to three
transfers can be sent for one request, which still ends in a 500.
`Dispatch.BalanceReadFailureRebroadcasts` states this. The model keeps the
code's behaviour.

The first statement of the loop's `catch` reads `error.message`. When an
attempt is rejected with `null` or `undefined`, that read throws a
`TypeError`, so the loop ends without a retry and the request is answered
with the `TypeError`'s message (`Dispatch.NullishFailureStopsRetrying`,
`Handler.NullBroadcastRejectionReported`). The outer `catch` of `sendTokens`
does the same for a nullish error thrown by the setup calls
(`Dispatch.SetupFailureRethrown`).

## Model

| member | source | states |
|---|---|---|
| Handler.Handle | supabase/functions/safro-transaction/index.ts:160-212 | the handler as a function of the request, both config reads, the mnemonic check and the SDK's answers, giving the response and the calls made; its behaviour is stated by the Handler lemmas in this table |
| Handler.ReceiverAccepted | supabase/functions/safro-transaction/index.ts:180 | the receiver check: a non-empty string that starts with the prefix as a template literal renders it |
| Handler.ErrorMessage | supabase/functions/safro-transaction/index.ts:203 | the message a 500 reports: an `Error`'s message, otherwise "An unknown error occurred" |
| Handler.OptionsPreflight | supabase/functions/safro-transaction/index.ts:160-163 | an OPTIONS request gets status 200, the two CORS headers and a null body, and no body read, config read or send is made |
| Handler.MethodNotAllowed | supabase/functions/safro-transaction/index.ts:164-173 | any method other than OPTIONS and POST gets 405 with `{"error": "Method not allowed"}` and the JSON+CORS headers; no external call is made |
| Handler.InvalidReceiverRejected | supabase/functions/safro-transaction/index.ts:174-188 | a receiver that is falsy or does not start with the rendered prefix gets 400 with the message naming the prefix; only the body and the handler's config read happen, and nothing is broadcast |
| Handler.StatusClassification | supabase/functions/safro-transaction/index.ts:160-211 | over every input: status is one of 200/400/405/500; 405 iff the method is neither OPTIONS nor POST; 400 iff a POST whose receiver is refused; 200 iff preflight or `sendTokens` delivered; 500 iff a POST where the body read, the handler's config read or `sendTokens` threw; every non-preflight answer has the JSON+CORS headers; at most three broadcasts, and only after the receiver was accepted |
| Handler.InternalErrors | supabase/functions/safro-transaction/index.ts:174-210 | a POST whose body read throws, whose config read throws, or whose `sendTokens` throws gets 500 with body `{error, success: false}`, the error being the text `error instanceof Error ? error.message : "An unknown error occurred"` gives for exactly that thrown value |
| Handler.NonErrorWalletFailureReported | supabase/functions/safro-transaction/index.ts:80-210 | a wallet derivation rejecting with a non-nullish value that is not an `Error` is rethrown unchanged and answered with 500 "An unknown error occurred"; one rejecting with `null` or `undefined` is answered with 500 and the `TypeError` message of reading `message` from it; in both cases after exactly the body read, both config reads and the derivation |
| Handler.NullBroadcastRejectionReported | supabase/functions/safro-transaction/index.ts:140-210 | a `null` rejection of the first broadcast is answered with 500 and the `TypeError` message of reading `message` from `null`, after one broadcast |
| Handler.SuccessPayload | supabase/functions/safro-transaction/index.ts:189-198 | a 200 answer to a POST implies that `sendTokens`' own config read succeeded and that the attempt ending the loop succeeded; its body reads back `success: true`, the amount `{denom, amount}` and the memo from that config, the request's receiver, that attempt's hash, and explorer prefix ++ hash |
| Handler.ExhaustedRetriesAnswer | supabase/functions/safro-transaction/index.ts:140-153 | with a complete config and three failing attempts whose `catch` completes, the answer is 500 with "Transaction failed after multiple retries: " ++ the third failure's message, after exactly three broadcasts |
| FaucetConfig.CheckConfig | supabase/functions/safro-transaction/index.ts:64-70 | the config passes iff the mnemonic is a non-empty string with at least 11 spaces that `validateMnemonic` accepts and rpc_endpoint, denom, amount and prefix are non-empty strings; the mnemonic error is raised iff the mnemonic guard fails, and the missing-fields error iff the mnemonic passes and a required field does not |
| FaucetConfig.MnemonicSegmentsAreSpaces | supabase/functions/safro-transaction/index.ts:65 | "at least 12 segments on a single space" is exactly "at least 11 space characters"; empty segments count |
| FaucetConfig.ExplorerPrefix | supabase/functions/safro-transaction/index.ts:55 | the default explorer prefix is used only when the property is absent; a string is used as is, and a null renders as "null" |
| JsValues.Truthy | supabase/functions/safro-transaction/index.ts:65-68 | the truthiness tested by `!x` on a configuration field or the receiver: a non-empty string |
| JsValues.Render | supabase/functions/safro-transaction/index.ts:136 | what `${x}` (and `startsWith`'s conversion of its argument) produces: the string itself, "undefined" or "null" |
| JsValues.MessageReadError | supabase/functions/safro-transaction/index.ts:141 | the `TypeError` raised by reading `message` from `null` or `undefined`; it is an `Error` |
| JsValues.Rethrow | supabase/functions/safro-transaction/index.ts:154-156 | what the outer `catch` ends up throwing: a non-nullish error unchanged, never a nullish value |
| JsValues.SplitLength | supabase/functions/safro-transaction/index.ts:65 | `split` on one character yields one more segment than the separator's occurrences |
| JsValues.SplitSegmentsFree | supabase/functions/safro-transaction/index.ts:65 | no segment returned by `split` contains the separator |
| JsValues.SplitJoin | supabase/functions/safro-transaction/index.ts:65 | joining the segments with the separator gives back the original string |
| JsValues.Split | supabase/functions/safro-transaction/index.ts:65 | `split` on one separator character, keeping empty segments; it always yields at least one segment |
| Decimal.NatToDecimalValue | supabase/functions/safro-transaction/index.ts:134-135 | the decimal text of a natural number reads back as that number |
| Decimal.IntToDecimal | supabase/functions/safro-transaction/index.ts:134-135 | `BigInt.prototype.toString()` in base ten |
| Decimal.IntToDecimalRoundTrip | supabase/functions/safro-transaction/index.ts:134-135 | `toString` of a BigInt is canonical decimal text (optional minus, no leading zero) that reads back as the same integer |
| Decimal.IntToDecimalInjective | supabase/functions/safro-transaction/index.ts:134-135 | distinct integers render to distinct strings |
| Json.ReplaceBigInts | supabase/functions/safro-transaction/index.ts:38-42 | the replacer's result contains no BigInt anywhere in the tree |
| Json.ReplaceBigIntsIdentity | supabase/functions/safro-transaction/index.ts:38-42 | the replacer leaves a tree without BigInts unchanged |
| Json.ReplaceBigIntsIdempotent | supabase/functions/safro-transaction/index.ts:38-42 | applying the replacer twice equals applying it once |
| Json.ReplaceBigIntMember | supabase/functions/safro-transaction/index.ts:38-42 | a BigInt member of an object keeps its key and becomes canonical decimal text that reads back as the same integer |
| Dispatch.RunRetries | supabase/functions/safro-transaction/index.ts:96-153 | the imperative `while (retries > 0)` loop returns the same outcome and call trace as `RetryLoop` from three retries and no error, and never falls through to the `Unknown error` return |
| Dispatch.RetryLoop | supabase/functions/safro-transaction/index.ts:96-153 | the loop as a function of the remaining retries and the last recorded error, one pass per call: a success returns, a nullish failure makes the `catch` throw, any other failure is recorded and retried, and at zero retries the exhaustion error is built |
| Dispatch.MessageOf | supabase/functions/safro-transaction/index.ts:151 | `${txError?.message}`: an `Error`'s message, a non-Error's rendered `message` property, "undefined" otherwise |
| Dispatch.FirstExit | supabase/functions/safro-transaction/index.ts:99-148 | reference definition: the least index in a range whose attempt ends the loop (it succeeds, or fails with a nullish value so that its `catch` throws), or none when every attempt there is retried |
| Dispatch.SucceededAttemptStep | supabase/functions/safro-transaction/index.ts:100-139 | an attempt whose broadcast and balance read both succeed is delivered with its own number, after one broadcast, and is the first exit from that point |
| Dispatch.NullishAttemptStep | supabase/functions/safro-transaction/index.ts:140-141 | an attempt that fails with `null` or `undefined` ends the loop with the `TypeError` of reading `message` from it, after one broadcast, and is the first exit from that point |
| Dispatch.FailedAttemptStep | supabase/functions/safro-transaction/index.ts:140-148 | an attempt that fails with a non-nullish value costs one broadcast, records its failure as `txError` and leaves the outcome to the remaining passes |
| Dispatch.RetryLoopNeverFallsThrough | supabase/functions/safro-transaction/index.ts:99-153 | from any loop state the loop ends by a return, a throw, or with `retries` at zero, never at the `Unknown error` return |
| Dispatch.RetryLoopFrom | supabase/functions/safro-transaction/index.ts:99-152 | from any loop state, the loop ends at the first remaining attempt that is not retried (delivered on success, the `TypeError` on a nullish failure) with one broadcast per attempt tried, or ends in the retries-exhausted error carrying the third attempt's failure |
| Dispatch.FirstSuccessReturned | supabase/functions/safro-transaction/index.ts:96-139 | one to three broadcasts; delivery iff some attempt succeeds after only retried ones; a delivery returns attempt *n*'s transaction and receiver balance, after exactly *n* broadcasts, with every earlier attempt retried |
| Dispatch.NullishFailureStopsRetrying | supabase/functions/safro-transaction/index.ts:140-144 | the loop ends in the `catch`'s own `TypeError` iff some attempt fails with `null` or `undefined` after only retried ones; then it is that attempt's number, after that many broadcasts |
| Dispatch.ExhaustionUsesLastError | supabase/functions/safro-transaction/index.ts:140-153 | the loop never falls through; exhaustion happens iff all three attempts are retried, after three broadcasts, with the message prefix ++ the last failure's `message` (rendered from a non-Error's property, `undefined` when it has none) |
| Dispatch.BalanceReadFailureRebroadcasts | supabase/functions/safro-transaction/index.ts:100-148 | when every broadcast succeeds but every receiver-balance read fails with a non-nullish error, three transfers are broadcast and the loop ends exhausted with the last read's error |
| Dispatch.GasString | supabase/functions/safro-transaction/index.ts:134-135 | a gas counter is omitted iff it is zero (falsy), otherwise it is canonical decimal text of its value |
| Dispatch.AssembleResult | supabase/functions/safro-transaction/index.ts:123-137 | builds `processedResult` from the config, the sender, the receiver, the chain id, both balances and the delivered transaction |
| Dispatch.ResultJson | supabase/functions/safro-transaction/index.ts:123-137 | `processedResult` as the JSON object the handler stringifies, with `undefined` members left out |
| Dispatch.ResultJsonHasNoBigInt | supabase/functions/safro-transaction/index.ts:123-137 | the success record contains no BigInt, so the replacer leaves it unchanged |
| Dispatch.ResultJsonFields | supabase/functions/safro-transaction/index.ts:123-137 | the success record reads back `success: true`, the hash, the single-coin amount, the receiver, the memo (absent when undefined), the gas strings (absent when zero) and the explorer URL |
| Dispatch.ConfigFailureStopsBeforeBroadcast | supabase/functions/safro-transaction/index.ts:64-70 | an incomplete config ends `sendTokens` after its config read, before the wallet is derived and without a broadcast, with the error of the guard that failed |
| Dispatch.ConfigReadFailurePropagates | supabase/functions/safro-transaction/index.ts:47 | a failure of `sendTokens`' own config read, which is outside its `try`, propagates unchanged after that one call |
| Dispatch.SetupFailureRethrown | supabase/functions/safro-transaction/index.ts:80-156 | after a successful, complete config read: a failing wallet derivation, connection, chain-id read or sender-balance read ends `sendTokens` at that call, without a broadcast, throwing that error, or the `TypeError` of reading `message` when it is nullish; from there on `sendTokens` never throws a nullish value |
| Dispatch.NullBroadcastRejection | supabase/functions/safro-transaction/index.ts:140-156 | a `null` rejection of the first broadcast ends `sendTokens` with the `TypeError` of reading `message` from `null`, after one broadcast |
| Dispatch.SendTokensOutcome | supabase/functions/safro-transaction/index.ts:44-158 | `sendTokens` broadcasts at most three times and never returns the `Unknown error` object; it broadcasts iff every setup step succeeded; on success its record has the configured amount and memo, the receiver, the sender's address, and the hash, explorer URL, `gasUsed` and `gasWanted` of the successful attempt that ended the loop |
| Dispatch.SendTokens | supabase/functions/safro-transaction/index.ts:44-158 | `sendTokens` as a function of its config read, the mnemonic check and the SDK's answers, giving the outcome and the calls made; its behaviour is stated by the `sendTokens` lemmas in this table |
| Dispatch.BroadcastCountAppend | supabase/functions/safro-transaction/index.ts:102 | broadcasts in a concatenated trace add up |
| Dispatch.AttemptCallsBroadcastOnce | supabase/functions/safro-transaction/index.ts:100-122 | each loop iteration broadcasts exactly once |

## Left out

- `fetchFaucetConfig` (the HTTP read of `safro_faucet_config`, its service-key check and its error messages) is not modelled. Its answer is an input: a config row or a thrown error.
- The CosmJS calls and `bip39.validateMnemonic` are external code. Their answers are inputs: wallet derivation on path m/44'/118'/0'/0/0, `connectWithSigner`, `getChainId`, `getAllBalances` and `signAndBroadcast`. `validateMnemonic` is an uninterpreted predicate.
- The arguments passed to `signAndBroadcast` are not modelled beyond the attempt number in the trace. These are the `MsgSend` message, the fee `{denom, "500"}` with gas "200000", and the memo.
- The `code` field of the broadcast response is never inspected by the source. A broadcast that returns counts as a success, and the model does the same.
- `req.json()` is an input: a parsed `receiver` field or a thrown error.
- A receiver, configuration value or `message` property of a thrown value that is neither a string, `null` nor absent is not modelled. For example, a number as receiver would make `startsWith` throw.
- The text of the `TypeError` raised by reading `message` from `null` or `undefined` is V8's wording (`NullMessageRead`, `UndefinedMessageRead`); another JavaScript engine words it differently.
- The dynamic `import()` calls of the SDK modules could fail. Their failure is not modelled.
- `console.log` and `console.error` output is not modelled.
- The text encoding of JSON (string escaping, whitespace, number formatting) is left out. The body is a JSON value tree that keeps the members in their literal order and leaves out members whose value is `undefined`.
- The runtime's normalisation of HTTP method names is not modelled; the method is compared as given.
- The web page (`src/components/FaucetForm.tsx`, `src/pages/Index.tsx`, `src/components/ThemeSwitcher.tsx`) is user interface code and is not modelled.
- Rate limiting, IP identification and the attempt ledger are not modelled. The code does not implement them.
- The loop counter is an unbounded integer. This changes nothing here, since it only takes the values 0 to 3.
