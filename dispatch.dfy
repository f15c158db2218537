/**
 `sendTokens`: re-read the configuration, check it, derive the faucet wallet,
 connect, read chain id and sender balance, then sign and broadcast one
 MsgSend with up to three attempts, and assemble the result record.

 Every SDK call is an oracle: its answers for one request are fixed in a
 `Chain` value, and the model records which calls were made, in order, as a
 trace of `Call`s.
 */
module Dispatch {
  import opened JsValues
  import opened Decimal
  import opened Json
  import opened FaucetConfig

  datatype Coin = Coin(denom: string, amount: string)
  type Balances = seq<Coin>

  /** The fields of the SDK's broadcast response the function reads. */
  datatype TxResponse = TxResponse(transactionHash: string, height: int, gasUsed: int, gasWanted: int)

  /** What one pass through the retry loop's `try` block meets: the answer of
      `signAndBroadcast`, then (only if that succeeded) of `getAllBalances(receiver)`. */
  datatype Attempt = Attempt(broadcast: Result<TxResponse>, receiverBalance: Result<Balances>)

  /** The SDK's answers for one request. */
  datatype Chain = Chain(
    wallet: Result<string>,          // fromMnemonic + getAccounts: the sender address
    connect: Option<Thrown>,         // connectWithSigner: None when it connects
    chainId: Result<string>,         // getChainId
    senderBalance: Result<Balances>, // getAllBalances(sender)
    attempts: seq<Attempt>)          // one entry per pass of the retry loop, in order

  /** The external calls a request makes, in the order it makes them. */
  datatype Call =
    | ReadBody
    | FetchConfig
    | DeriveWallet
    | Connect
    | GetChainId
    | GetBalances(address: string)
    | SignAndBroadcast(attempt: nat)

  /** Number of `signAndBroadcast` calls in a trace. */
  function BroadcastCount(calls: seq<Call>): nat {
    if calls == [] then 0
    else (if calls[0].SignAndBroadcast? then 1 else 0) + BroadcastCount(calls[1..])
  }

  lemma {:induction false} BroadcastCountAppend(a: seq<Call>, b: seq<Call>)
    ensures BroadcastCount(a + b) == BroadcastCount(a) + BroadcastCount(b)
    decreases |a|
  {
    if a != [] {
      assert (a + b)[0] == a[0];
      assert (a + b)[1..] == a[1..] + b;
      BroadcastCountAppend(a[1..], b);
    } else {
      assert a + b == b;
    }
  }

  lemma {:induction false} BroadcastFree(calls: seq<Call>)
    requires forall i :: 0 <= i < |calls| ==> !calls[i].SignAndBroadcast?
    ensures BroadcastCount(calls) == 0
    decreases |calls|
  {
    if calls != [] {
      BroadcastFree(calls[1..]);
    }
  }

  lemma BroadcastCountOne(c: Call)
    ensures BroadcastCount([c]) == if c.SignAndBroadcast? then 1 else 0
  {
  }

  /** Every attempt makes exactly one `signAndBroadcast` call. */
  lemma AttemptCallsBroadcastOnce(a: Attempt, n: nat, receiver: string)
    ensures BroadcastCount(AttemptCalls(a, n, receiver)) == 1
  {
    BroadcastCountOne(SignAndBroadcast(n));
    BroadcastCountOne(GetBalances(receiver));
    BroadcastCountAppend([SignAndBroadcast(n)], if a.broadcast.Ok? then [GetBalances(receiver)] else []);
  }

  // ---------------------------------------------------------------------
  // The retry loop
  // ---------------------------------------------------------------------

  const MaxRetries: nat := 3
  const RetriesExhaustedPrefix := "Transaction failed after multiple retries: "

  datatype LoopOutcome =
    | Delivered(attempt: nat, tx: TxResponse, receiverBalance: Balances)  // the `return processedResult`
    | CatchThrew(attempt: nat, error: Thrown)                              // `error.message` threw inside the `catch`
    | RetriesExhausted(message: string)                                    // the `throw` after the loop
    | FellThrough                                                          // the `{success: false, error: "Unknown error"}`

  datatype LoopRun = LoopRun(outcome: LoopOutcome, calls: seq<Call>)

  /** An attempt whose whole `try` block completes. */
  predicate Succeeds(a: Attempt) {
    a.broadcast.Ok? && a.receiverBalance.Ok?
  }

  /** The value the `catch` receives. */
  function FailureOf(a: Attempt): Thrown
    requires !Succeeds(a)
  {
    if a.broadcast.Err? then a.broadcast.error else a.receiverBalance.error
  }

  /** An attempt that fails and whose `catch` block runs to its end, so that the loop
      goes round again: its first statement reads `error.message`, which throws on a
      nullish value. */
  predicate Retried(a: Attempt) {
    !Succeeds(a) && !Nullish(FailureOf(a))
  }

  /** The calls one attempt makes. */
  function AttemptCalls(a: Attempt, n: nat, receiver: string): seq<Call> {
    [SignAndBroadcast(n)] + (if a.broadcast.Ok? then [GetBalances(receiver)] else [])
  }

  /** `${txError?.message}`: the message of an `Error`, the rendered `message` property of
      another value, and "undefined" when there is no error or it is nullish. */
  function MessageOf(e: Option<Thrown>): string {
    match e
    case Some(ErrorObject(m)) => m
    case Some(OtherValue(m)) => Render(m)
    case _ => "undefined"
  }

  /** A run of the loop preceded by the calls already made. */
  function PrefixCalls(calls: seq<Call>, run: LoopRun): LoopRun {
    LoopRun(run.outcome, calls + run.calls)
  }

  /** The loop from a state with `retries` left and `txError` last recorded, up to the
      statement after it. Attempt number `4 - retries` uses `script[3 - retries]`. */
  function RetryLoop(script: seq<Attempt>, receiver: string, retries: int, txError: Option<Thrown>): LoopRun
    requires 0 <= retries <= MaxRetries <= |script|
    decreases retries
  {
    if retries > 0 then
      var a := script[MaxRetries - retries];
      var here := AttemptCalls(a, MaxRetries + 1 - retries, receiver);
      if Succeeds(a) then
        LoopRun(Delivered(MaxRetries + 1 - retries, a.broadcast.value, a.receiverBalance.value), here)
      else if Nullish(FailureOf(a)) then
        LoopRun(CatchThrew(MaxRetries + 1 - retries, MessageReadError(FailureOf(a))), here)
      else
        PrefixCalls(here, RetryLoop(script, receiver, retries - 1, Some(FailureOf(a))))
    else if retries == 0 then
      LoopRun(RetriesExhausted(RetriesExhaustedPrefix + MessageOf(txError)), [])
    else
      LoopRun(FellThrough, [])
  }

  /** One pass of the loop body. */
  lemma RetryLoopStep(script: seq<Attempt>, receiver: string, retries: int, txError: Option<Thrown>)
    requires 0 < retries <= MaxRetries <= |script|
    ensures var a := script[MaxRetries - retries];
      var n := MaxRetries + 1 - retries;
      Succeeds(a) ==>
        RetryLoop(script, receiver, retries, txError) ==
        LoopRun(Delivered(n, a.broadcast.value, a.receiverBalance.value), AttemptCalls(a, n, receiver))
    ensures var a := script[MaxRetries - retries];
      var n := MaxRetries + 1 - retries;
      !Succeeds(a) && Nullish(FailureOf(a)) ==>
        RetryLoop(script, receiver, retries, txError) ==
        LoopRun(CatchThrew(n, MessageReadError(FailureOf(a))), AttemptCalls(a, n, receiver))
    ensures var a := script[MaxRetries - retries];
      Retried(a) ==>
        RetryLoop(script, receiver, retries, txError) ==
        PrefixCalls(AttemptCalls(a, MaxRetries + 1 - retries, receiver),
                    RetryLoop(script, receiver, retries - 1, Some(FailureOf(a))))
  {
  }

  /** The loop only leaves through a `return`, a `throw`, or with `retries` at zero. */
  lemma {:induction false} RetryLoopNeverFallsThrough(script: seq<Attempt>, receiver: string, retries: int, txError: Option<Thrown>)
    requires 0 <= retries <= MaxRetries <= |script|
    ensures !RetryLoop(script, receiver, retries, txError).outcome.FellThrough?
    decreases retries
  {
    if retries > 0 {
      var a := script[MaxRetries - retries];
      RetryLoopStep(script, receiver, retries, txError);
      if Retried(a) {
        RetryLoopNeverFallsThrough(script, receiver, retries - 1, Some(FailureOf(a)));
      }
    }
  }

  /** The loop of `sendTokens` as written: `retries` counts down from 3, a success
      returns at once, a failure is stored in `txError`, and a nullish failure makes
      the `catch` itself throw. */
  method RunRetries(script: seq<Attempt>, receiver: string) returns (outcome: LoopOutcome, calls: seq<Call>)
    requires |script| >= MaxRetries
    ensures LoopRun(outcome, calls) == RetryLoop(script, receiver, MaxRetries, None)
    ensures !outcome.FellThrough?
  {
    var retries: int := MaxRetries;
    var txError: Option<Thrown> := None;
    calls := [];
    ghost var spec := RetryLoop(script, receiver, retries, txError);
    RetryLoopNeverFallsThrough(script, receiver, retries, txError);
    while retries > 0
      invariant 0 <= retries <= MaxRetries
      invariant spec == PrefixCalls(calls, RetryLoop(script, receiver, retries, txError))
      decreases retries
    {
      var a := script[MaxRetries - retries];
      var here := AttemptCalls(a, MaxRetries + 1 - retries, receiver);
      RetryLoopStep(script, receiver, retries, txError);
      if Succeeds(a) {
        outcome := Delivered(MaxRetries + 1 - retries, a.broadcast.value, a.receiverBalance.value);
        calls := calls + here;
        return;
      }
      var error := FailureOf(a);
      if Nullish(error) {
        outcome := CatchThrew(MaxRetries + 1 - retries, MessageReadError(error));
        calls := calls + here;
        return;
      }
      ghost var rest := RetryLoop(script, receiver, retries - 1, Some(error));
      assert calls + (here + rest.calls) == (calls + here) + rest.calls;
      calls := calls + here;
      txError := Some(error);
      retries := retries - 1;
    }
    if retries == 0 {
      outcome := RetriesExhausted(RetriesExhaustedPrefix + MessageOf(txError));
    } else {
      outcome := FellThrough;
    }
    assert calls + [] == calls;
  }

  /** Reference definition: the index of the first attempt in [lo, hi) that ends the
      loop, by success or by a `catch` that throws. */
  function FirstExit(script: seq<Attempt>, lo: nat, hi: nat): (r: Option<nat>)
    requires lo <= hi <= |script|
    ensures r.Some? ==>
      && lo <= r.value < hi
      && !Retried(script[r.value])
      && (forall j :: lo <= j < r.value ==> Retried(script[j]))
    ensures r.None? ==> (forall j :: lo <= j < hi ==> Retried(script[j]))
    decreases hi - lo
  {
    if lo == hi then None
    else if !Retried(script[lo]) then Some(lo)
    else FirstExit(script, lo + 1, hi)
  }

  /** A successful attempt is delivered after its one broadcast, and it is the first
      exit from here on. */
  lemma SucceededAttemptStep(script: seq<Attempt>, receiver: string, retries: int, txError: Option<Thrown>)
    requires 0 < retries <= MaxRetries <= |script|
    requires Succeeds(script[MaxRetries - retries])
    ensures var run := RetryLoop(script, receiver, retries, txError);
      var lo := MaxRetries - retries;
      && run.outcome == Delivered(lo + 1, script[lo].broadcast.value, script[lo].receiverBalance.value)
      && BroadcastCount(run.calls) == 1
      && FirstExit(script, lo, MaxRetries) == Some(lo)
  {
    var lo := MaxRetries - retries;
    RetryLoopStep(script, receiver, retries, txError);
    AttemptCallsBroadcastOnce(script[lo], lo + 1, receiver);
  }

  /** A nullish failure ends the loop after its one broadcast with the `TypeError` of
      reading its `message`, and it is the first exit from here on. */
  lemma NullishAttemptStep(script: seq<Attempt>, receiver: string, retries: int, txError: Option<Thrown>)
    requires 0 < retries <= MaxRetries <= |script|
    requires !Succeeds(script[MaxRetries - retries]) && Nullish(FailureOf(script[MaxRetries - retries]))
    ensures var run := RetryLoop(script, receiver, retries, txError);
      var lo := MaxRetries - retries;
      && run.outcome == CatchThrew(lo + 1, MessageReadError(FailureOf(script[lo])))
      && BroadcastCount(run.calls) == 1
      && FirstExit(script, lo, MaxRetries) == Some(lo)
  {
    var lo := MaxRetries - retries;
    RetryLoopStep(script, receiver, retries, txError);
    AttemptCallsBroadcastOnce(script[lo], lo + 1, receiver);
  }

  /** A retried attempt costs one broadcast and hands over to the next pass with its
      failure recorded; the first exit is then searched among the later attempts. */
  lemma FailedAttemptStep(script: seq<Attempt>, receiver: string, retries: int, txError: Option<Thrown>)
    requires 0 < retries <= MaxRetries <= |script|
    requires Retried(script[MaxRetries - retries])
    ensures var run := RetryLoop(script, receiver, retries, txError);
      var rest := RetryLoop(script, receiver, retries - 1, Some(FailureOf(script[MaxRetries - retries])));
      && run.outcome == rest.outcome
      && BroadcastCount(run.calls) == 1 + BroadcastCount(rest.calls)
      && FirstExit(script, MaxRetries - retries, MaxRetries) == FirstExit(script, MaxRetries - retries + 1, MaxRetries)
  {
  }

  /** The outcome of the loop for the attempt `i` that ends it. */
  function ExitOutcome(script: seq<Attempt>, i: nat): LoopOutcome
    requires i < |script|
  {
    var a := script[i];
    if Succeeds(a) then Delivered(i + 1, a.broadcast.value, a.receiverBalance.value)
    else if Nullish(FailureOf(a)) then CatchThrew(i + 1, MessageReadError(FailureOf(a)))
    else RetriesExhausted(RetriesExhaustedPrefix + MessageOf(Some(FailureOf(a))))
  }

  /** The loop from any state agrees with the reference: it ends at the first remaining
      attempt that does not retry, or reports the failure of the third attempt. */
  lemma {:induction false} RetryLoopFrom(script: seq<Attempt>, receiver: string, retries: int, txError: Option<Thrown>)
    requires 0 < retries <= MaxRetries <= |script|
    ensures var run := RetryLoop(script, receiver, retries, txError);
      match FirstExit(script, MaxRetries - retries, MaxRetries)
      case Some(i) =>
        && run.outcome == ExitOutcome(script, i)
        && BroadcastCount(run.calls) == i + 1 - (MaxRetries - retries)
      case None =>
        && run.outcome == RetriesExhausted(RetriesExhaustedPrefix + MessageOf(Some(FailureOf(script[MaxRetries - 1]))))
        && BroadcastCount(run.calls) == retries
    decreases retries
  {
    var lo := MaxRetries - retries;
    var a := script[lo];
    if Succeeds(a) {
      SucceededAttemptStep(script, receiver, retries, txError);
    } else if Nullish(FailureOf(a)) {
      NullishAttemptStep(script, receiver, retries, txError);
    } else {
      FailedAttemptStep(script, receiver, retries, txError);
      if retries > 1 {
        RetryLoopFrom(script, receiver, retries - 1, Some(FailureOf(a)));
      } else {
        assert RetryLoop(script, receiver, 0, Some(FailureOf(a))) ==
          LoopRun(RetriesExhausted(RetriesExhaustedPrefix + MessageOf(Some(FailureOf(a)))), []);
      }
    }
  }

  /** At most three broadcasts, at least one; a delivery is the first attempt whose
      `try` block completed, every earlier one was retried, and nothing is attempted
      after it. */
  lemma FirstSuccessReturned(script: seq<Attempt>, receiver: string)
    requires |script| >= MaxRetries
    ensures var run := RetryLoop(script, receiver, MaxRetries, None);
      && 1 <= BroadcastCount(run.calls) <= MaxRetries
      && (run.outcome.Delivered? <==>
            exists j :: 0 <= j < MaxRetries && Succeeds(script[j]) && forall k :: 0 <= k < j ==> Retried(script[k]))
      && (run.outcome.Delivered? ==>
            && 1 <= run.outcome.attempt <= MaxRetries
            && BroadcastCount(run.calls) == run.outcome.attempt
            && Succeeds(script[run.outcome.attempt - 1])
            && run.outcome.tx == script[run.outcome.attempt - 1].broadcast.value
            && run.outcome.receiverBalance == script[run.outcome.attempt - 1].receiverBalance.value
            && forall j :: 0 <= j < run.outcome.attempt - 1 ==> Retried(script[j]))
  {
    RetryLoopFrom(script, receiver, MaxRetries, None);
  }

  /** A nullish rejection of an attempt whose predecessors were all retried makes the
      `catch` throw a `TypeError`: the loop ends there, with no further attempt. */
  lemma NullishFailureStopsRetrying(script: seq<Attempt>, receiver: string)
    requires |script| >= MaxRetries
    ensures var run := RetryLoop(script, receiver, MaxRetries, None);
      && (run.outcome.CatchThrew? <==>
            exists j :: 0 <= j < MaxRetries && !Succeeds(script[j]) && Nullish(FailureOf(script[j]))
                        && forall k :: 0 <= k < j ==> Retried(script[k]))
      && (run.outcome.CatchThrew? ==>
            && 1 <= run.outcome.attempt <= MaxRetries
            && BroadcastCount(run.calls) == run.outcome.attempt
            && !Succeeds(script[run.outcome.attempt - 1])
            && Nullish(FailureOf(script[run.outcome.attempt - 1]))
            && run.outcome.error == MessageReadError(FailureOf(script[run.outcome.attempt - 1])))
  {
    RetryLoopFrom(script, receiver, MaxRetries, None);
  }

  /** When all three attempts are retried, the error carries the message of the last
      failure, and the `Unknown error` return after the loop is never reached. */
  lemma ExhaustionUsesLastError(script: seq<Attempt>, receiver: string)
    requires |script| >= MaxRetries
    ensures var run := RetryLoop(script, receiver, MaxRetries, None);
      && !run.outcome.FellThrough?
      && (run.outcome.RetriesExhausted? <==> forall j :: 0 <= j < MaxRetries ==> Retried(script[j]))
      && (run.outcome.RetriesExhausted? ==>
            && BroadcastCount(run.calls) == MaxRetries
            && run.outcome.message == RetriesExhaustedPrefix + MessageOf(Some(FailureOf(script[MaxRetries - 1]))))
  {
    RetryLoopFrom(script, receiver, MaxRetries, None);
  }

  /** A failure of the balance read that follows a successful broadcast is caught by the
      same `catch` as a broadcast failure, so the transfer is broadcast again: when every
      such read fails with a non-nullish error, three transfers are sent and the request
      still fails with the last balance-read error. */
  lemma BalanceReadFailureRebroadcasts(script: seq<Attempt>, receiver: string)
    requires |script| >= MaxRetries
    requires forall j :: 0 <= j < MaxRetries ==>
      script[j].broadcast.Ok? && script[j].receiverBalance.Err? && !Nullish(script[j].receiverBalance.error)
    ensures var run := RetryLoop(script, receiver, MaxRetries, None);
      && run.calls == [SignAndBroadcast(1), GetBalances(receiver),
                       SignAndBroadcast(2), GetBalances(receiver),
                       SignAndBroadcast(3), GetBalances(receiver)]
      && run.outcome == RetriesExhausted(RetriesExhaustedPrefix + MessageOf(Some(script[MaxRetries - 1].receiverBalance.error)))
  {
  }

  // ---------------------------------------------------------------------
  // Result assembly
  // ---------------------------------------------------------------------

  /** The record `sendTokens` returns on success. */
  datatype ProcessedResult = ProcessedResult(
    transactionHash: string,
    chainId: string,
    height: int,
    amount: Coin,
    senderAddress: string,
    receiverAddress: string,
    memo: Field,
    senderBalance: Balances,
    receiverBalance: Balances,
    gasUsed: Option<string>,
    gasWanted: Option<string>,
    explorerTxUrl: string)

  /** `g ? g.toString() : undefined` for a BigInt gas counter: zero is falsy. */
  function GasString(g: int): (r: Option<string>)
    ensures r.None? <==> g == 0
    ensures r.Some? ==> IsCanonical(r.value) && ValueOf(r.value) == g
  {
    IntToDecimalRoundTrip(g);
    if g == 0 then None else Some(IntToDecimal(g))
  }

  function AssembleResult(cfg: Config, sender: string, receiver: string, chainId: string,
                          senderBalance: Balances, tx: TxResponse, receiverBalance: Balances): ProcessedResult
    requires cfg.denom.Text? && cfg.amount.Text?
  {
    ProcessedResult(
      tx.transactionHash, chainId, tx.height, Coin(cfg.denom.s, cfg.amount.s),
      sender, receiver, cfg.memo, senderBalance, receiverBalance,
      GasString(tx.gasUsed), GasString(tx.gasWanted),
      ExplorerPrefix(cfg.explorerUrlPrefix) + tx.transactionHash)
  }

  function CoinJson(c: Coin): Json {
    JObject([Str("denom", c.denom), Str("amount", c.amount)])
  }

  function BalancesJson(b: Balances): Json {
    JArray(seq(|b|, i requires 0 <= i < |b| => CoinJson(b[i])))
  }

  /** A property whose value may be `undefined`: `JSON.stringify` leaves it out. */
  function Optional(key: string, v: Option<Json>): seq<Member> {
    if v.Some? then [Member(key, v.value)] else []
  }

  function MemoJson(m: Field): Option<Json> {
    match m
    case Undefined => None
    case Null => Some(JNull)
    case Text(s) => Some(JString(s))
  }

  function GasJson(g: Option<string>): Option<Json> {
    if g.Some? then Some(JString(g.value)) else None
  }

  /** The object `processedResult` as a JSON value, properties in their literal order. */
  function ResultJson(r: ProcessedResult): Json {
    JObject(ResultHead(r) + Optional("memo", MemoJson(r.memo)) + ResultBalances(r)
      + Optional("gasUsed", GasJson(r.gasUsed)) + Optional("gasWanted", GasJson(r.gasWanted))
      + [Str("explorerTxUrl", r.explorerTxUrl)])
  }

  function ResultHead(r: ProcessedResult): seq<Member> {
    [ Member("success", JBool(true)),
      Str("transactionHash", r.transactionHash),
      Str("chainId", r.chainId),
      Member("height", JNumber(r.height)),
      Member("amount", CoinJson(r.amount)),
      Str("senderAddress", r.senderAddress),
      Str("receiverAddress", r.receiverAddress) ]
  }

  function ResultBalances(r: ProcessedResult): seq<Member> {
    [ Member("senderBalance", BalancesJson(r.senderBalance)),
      Member("receiverBalance", BalancesJson(r.receiverBalance)) ]
  }

  lemma BalancesNoBigInt(b: Balances)
    ensures NoBigInt(BalancesJson(b))
  {
  }

  /** The success payload carries no BigInt, so the BigInt-aware stringifier leaves it unchanged. */
  lemma ResultJsonHasNoBigInt(r: ProcessedResult)
    ensures NoBigInt(ResultJson(r))
    ensures ReplaceBigInts(ResultJson(r)) == ResultJson(r)
  {
    var head, memo, bal := ResultHead(r), Optional("memo", MemoJson(r.memo)), ResultBalances(r);
    var gu, gw := Optional("gasUsed", GasJson(r.gasUsed)), Optional("gasWanted", GasJson(r.gasWanted));
    var tail := [Str("explorerTxUrl", r.explorerTxUrl)];
    BalancesNoBigInt(r.senderBalance);
    BalancesNoBigInt(r.receiverBalance);
    assert MembersNoBigInt(head) && MembersNoBigInt(memo) && MembersNoBigInt(bal);
    assert MembersNoBigInt(gu) && MembersNoBigInt(gw) && MembersNoBigInt(tail);
    assert MembersNoBigInt(head + memo + bal + gu + gw + tail);
    ReplaceBigIntsIdentity(ResultJson(r));
  }

  /** Looking a key up in the payload looks it up part by part. */
  lemma ResultJsonLookup(r: ProcessedResult, k: string)
    ensures Lookup(ResultJson(r).members, k) ==
      var head, memo, bal := ResultHead(r), Optional("memo", MemoJson(r.memo)), ResultBalances(r);
      var gu, gw := Optional("gasUsed", GasJson(r.gasUsed)), Optional("gasWanted", GasJson(r.gasWanted));
      if Lookup(head, k).Some? then Lookup(head, k)
      else if Lookup(memo, k).Some? then Lookup(memo, k)
      else if Lookup(bal, k).Some? then Lookup(bal, k)
      else if Lookup(gu, k).Some? then Lookup(gu, k)
      else if Lookup(gw, k).Some? then Lookup(gw, k)
      else Lookup([Str("explorerTxUrl", r.explorerTxUrl)], k)
  {
    var head, memo, bal := ResultHead(r), Optional("memo", MemoJson(r.memo)), ResultBalances(r);
    var gu, gw := Optional("gasUsed", GasJson(r.gasUsed)), Optional("gasWanted", GasJson(r.gasWanted));
    var tail := [Str("explorerTxUrl", r.explorerTxUrl)];
    LookupAppend(head + memo + bal + gu + gw, tail, k);
    LookupAppend(head + memo + bal + gu, gw, k);
    LookupAppend(head + memo + bal, gu, k);
    LookupAppend(head + memo, bal, k);
    LookupAppend(head, memo, k);
  }

  /** The keys that follow the fixed head of the payload: each optional one is absent
      exactly when its value is undefined. */
  lemma LateKeys(r: ProcessedResult, k: string)
    requires k == "memo" || k == "gasUsed" || k == "gasWanted" || k == "explorerTxUrl"
    ensures Lookup(ResultJson(r).members, k) ==
      if k == "memo" then MemoJson(r.memo)
      else if k == "gasUsed" then GasJson(r.gasUsed)
      else if k == "gasWanted" then GasJson(r.gasWanted)
      else Some(JString(r.explorerTxUrl))
  {
    var head, memo, bal := ResultHead(r), Optional("memo", MemoJson(r.memo)), ResultBalances(r);
    var gu, gw := Optional("gasUsed", GasJson(r.gasUsed)), Optional("gasWanted", GasJson(r.gasWanted));
    var tail := [Str("explorerTxUrl", r.explorerTxUrl)];
    ResultJsonLookup(r, k);
    LookupMissing(head, k);
    LookupMissing(bal, k);
    if k != "memo" || memo == [] { LookupMissing(memo, k); } else { LookupAt(memo, 0, k); }
    if k != "gasUsed" || gu == [] { LookupMissing(gu, k); } else { LookupAt(gu, 0, k); }
    if k != "gasWanted" || gw == [] { LookupMissing(gw, k); } else { LookupAt(gw, 0, k); }
    if k != "explorerTxUrl" { LookupMissing(tail, k); } else { LookupAt(tail, 0, k); }
  }

  /** The success payload reads back with `success: true`, the transaction hash, the
      single-coin amount, the receiver, the memo (absent when undefined), the gas
      counters as decimal strings (absent when zero) and the explorer link. */
  lemma ResultJsonFields(r: ProcessedResult)
    ensures var ms := ResultJson(r).members;
      && Lookup(ms, "success") == Some(JBool(true))
      && Lookup(ms, "transactionHash") == Some(JString(r.transactionHash))
      && Lookup(ms, "amount") == Some(JObject([Member("denom", JString(r.amount.denom)), Member("amount", JString(r.amount.amount))]))
      && Lookup(ms, "receiverAddress") == Some(JString(r.receiverAddress))
      && Lookup(ms, "memo") == MemoJson(r.memo)
      && Lookup(ms, "gasUsed") == GasJson(r.gasUsed)
      && Lookup(ms, "gasWanted") == GasJson(r.gasWanted)
      && Lookup(ms, "explorerTxUrl") == Some(JString(r.explorerTxUrl))
  {
    var head := ResultHead(r);
    LookupAt(head, 0, "success");
    LookupAt(head, 1, "transactionHash");
    LookupAt(head, 4, "amount");
    LookupAt(head, 6, "receiverAddress");
    ResultJsonLookup(r, "success");
    ResultJsonLookup(r, "transactionHash");
    ResultJsonLookup(r, "amount");
    ResultJsonLookup(r, "receiverAddress");
    LateKeys(r, "memo");
    LateKeys(r, "gasUsed");
    LateKeys(r, "gasWanted");
    LateKeys(r, "explorerTxUrl");
  }

  // ---------------------------------------------------------------------
  // sendTokens
  // ---------------------------------------------------------------------

  datatype SendOutcome =
    | Sent(result: ProcessedResult)
    | UnknownError            // `{ success: false, error: "Unknown error" }`
    | Threw(error: Thrown)

  datatype SendRun = SendRun(outcome: SendOutcome, calls: seq<Call>)

  /** `sendTokens(receiver)` given the answer of its own configuration read, the BIP-39
      check and the SDK's answers. A failure of the configuration read happens before
      the `try`; every later one goes through the outer `catch`, which rethrows it. */
  function SendTokens(receiver: string, fetched: Result<Config>, validateMnemonic: string -> bool,
                      chain: Chain): SendRun
    requires |chain.attempts| >= MaxRetries
  {
    if fetched.Err? then SendRun(Threw(fetched.error), [FetchConfig])
    else
      var cfg := fetched.value;
      var check := CheckConfig(cfg, validateMnemonic);
      if check.Some? then SendRun(Threw(Rethrow(check.value)), [FetchConfig])
      else if chain.wallet.Err? then SendRun(Threw(Rethrow(chain.wallet.error)), [FetchConfig, DeriveWallet])
      else
        var sender := chain.wallet.value;
        if chain.connect.Some? then
          SendRun(Threw(Rethrow(chain.connect.value)), [FetchConfig, DeriveWallet, Connect])
        else if chain.chainId.Err? then
          SendRun(Threw(Rethrow(chain.chainId.error)), [FetchConfig, DeriveWallet, Connect, GetChainId])
        else if chain.senderBalance.Err? then
          SendRun(Threw(Rethrow(chain.senderBalance.error)), [FetchConfig, DeriveWallet, Connect, GetChainId, GetBalances(sender)])
        else
          var setup := [FetchConfig, DeriveWallet, Connect, GetChainId, GetBalances(sender)];
          var loop := RetryLoop(chain.attempts, receiver, MaxRetries, None);
          var outcome :=
            match loop.outcome
            case Delivered(_, tx, receiverBalance) =>
              Sent(AssembleResult(cfg, sender, receiver, chain.chainId.value, chain.senderBalance.value, tx, receiverBalance))
            case CatchThrew(_, e) => Threw(Rethrow(e))
            case RetriesExhausted(m) => Threw(Rethrow(ErrorObject(m)))
            case FellThrough => UnknownError;
          SendRun(outcome, setup + loop.calls)
  }

  /** Everything before the retry loop succeeded: configuration read and complete,
      wallet derived, connected, chain id and sender balance read. */
  predicate SetupSucceeds(fetched: Result<Config>, validateMnemonic: string -> bool, chain: Chain) {
    && fetched.Ok? && CheckConfig(fetched.value, validateMnemonic).None?
    && chain.wallet.Ok? && chain.connect.None? && chain.chainId.Ok? && chain.senderBalance.Ok?
  }

  /** An incomplete configuration fails before the wallet is derived: no broadcast is
      attempted, and the error names which guard failed. */
  lemma ConfigFailureStopsBeforeBroadcast(receiver: string, cfg: Config, validateMnemonic: string -> bool, chain: Chain)
    requires |chain.attempts| >= MaxRetries
    requires CheckConfig(cfg, validateMnemonic).Some?
    ensures var run := SendTokens(receiver, Ok(cfg), validateMnemonic, chain);
      && run.calls == [FetchConfig]
      && BroadcastCount(run.calls) == 0
      && (!MnemonicAccepted(cfg.mnemonic, validateMnemonic) ==> run.outcome == Threw(ErrorObject(InvalidMnemonicMessage)))
      && (MnemonicAccepted(cfg.mnemonic, validateMnemonic) ==> run.outcome == Threw(ErrorObject(MissingFieldsMessage)))
  {
  }

  /** A failure of the configuration read at the start of `sendTokens` happens before
      its `try`: the error propagates unchanged, and nothing else is called. */
  lemma ConfigReadFailurePropagates(receiver: string, e: Thrown, validateMnemonic: string -> bool, chain: Chain)
    requires |chain.attempts| >= MaxRetries
    ensures SendTokens(receiver, Err(e), validateMnemonic, chain) == SendRun(Threw(e), [FetchConfig])
  {
  }

  /** A failing SDK call before the loop ends `sendTokens` at that call, and the outer
      `catch` rethrows its error, or the `TypeError` of reading `message` from a
      nullish one. */
  lemma SetupFailureRethrown(receiver: string, cfg: Config, validateMnemonic: string -> bool, chain: Chain)
    requires |chain.attempts| >= MaxRetries
    requires CheckConfig(cfg, validateMnemonic).None?
    ensures var run := SendTokens(receiver, Ok(cfg), validateMnemonic, chain);
      && (chain.wallet.Err? ==>
            run == SendRun(Threw(Rethrow(chain.wallet.error)), [FetchConfig, DeriveWallet]))
      && (chain.wallet.Ok? && chain.connect.Some? ==>
            run == SendRun(Threw(Rethrow(chain.connect.value)), [FetchConfig, DeriveWallet, Connect]))
      && (chain.wallet.Ok? && chain.connect.None? && chain.chainId.Err? ==>
            run == SendRun(Threw(Rethrow(chain.chainId.error)), [FetchConfig, DeriveWallet, Connect, GetChainId]))
      && (chain.wallet.Ok? && chain.connect.None? && chain.chainId.Ok? && chain.senderBalance.Err? ==>
            run.outcome == Threw(Rethrow(chain.senderBalance.error)) && BroadcastCount(run.calls) == 0)
      && (run.outcome.Threw? ==> !Nullish(run.outcome.error))
  {
    var run := SendTokens(receiver, Ok(cfg), validateMnemonic, chain);
    if chain.wallet.Ok? && chain.connect.None? && chain.chainId.Ok? && chain.senderBalance.Err? {
      BroadcastFree(run.calls);
    }
  }

  /** A `null` rejection of the first broadcast ends `sendTokens` with the `TypeError` of
      reading its `message`, after that one broadcast. */
  lemma NullBroadcastRejection(receiver: string, cfg: Config, validateMnemonic: string -> bool, chain: Chain)
    requires |chain.attempts| >= MaxRetries
    requires CheckConfig(cfg, validateMnemonic).None?
    requires chain.wallet.Ok? && chain.connect.None? && chain.chainId.Ok? && chain.senderBalance.Ok?
    requires chain.attempts[0].broadcast == Err(NullValue)
    ensures var run := SendTokens(receiver, Ok(cfg), validateMnemonic, chain);
      && run.outcome == Threw(ErrorObject(NullMessageRead))
      && BroadcastCount(run.calls) == 1
  {
    var setup := [FetchConfig, DeriveWallet, Connect, GetChainId, GetBalances(chain.wallet.value)];
    var loop := RetryLoop(chain.attempts, receiver, MaxRetries, None);
    NullishAttemptStep(chain.attempts, receiver, MaxRetries, None);
    BroadcastFree(setup);
    BroadcastCountAppend(setup, loop.calls);
  }

  /** `sendTokens` broadcasts at most three times, never returns the `Unknown error`
      object, and on success returns the record built from the first successful attempt
      and its own configuration snapshot. */
  lemma SendTokensOutcome(receiver: string, fetched: Result<Config>, validateMnemonic: string -> bool, chain: Chain)
    requires |chain.attempts| >= MaxRetries
    ensures var run := SendTokens(receiver, fetched, validateMnemonic, chain);
      && BroadcastCount(run.calls) <= MaxRetries
      && !run.outcome.UnknownError?
      && (BroadcastCount(run.calls) > 0 <==> SetupSucceeds(fetched, validateMnemonic, chain))
      && (run.outcome.Sent? ==>
            var cfg := fetched.value;
            var r := run.outcome.result;
            var i := FirstExit(chain.attempts, 0, MaxRetries).value;
            var tx := chain.attempts[i].broadcast.value;
            && FirstExit(chain.attempts, 0, MaxRetries).Some?
            && Succeeds(chain.attempts[i])
            && r.amount == Coin(cfg.denom.s, cfg.amount.s)
            && r.receiverAddress == receiver
            && r.memo == cfg.memo
            && r.transactionHash == tx.transactionHash
            && r.explorerTxUrl == ExplorerPrefix(cfg.explorerUrlPrefix) + tx.transactionHash
            && r.senderAddress == chain.wallet.value
            && r.gasUsed == GasString(tx.gasUsed)
            && r.gasWanted == GasString(tx.gasWanted))
  {
    var run := SendTokens(receiver, fetched, validateMnemonic, chain);
    if SetupSucceeds(fetched, validateMnemonic, chain) {
      var setup := [FetchConfig, DeriveWallet, Connect, GetChainId, GetBalances(chain.wallet.value)];
      var loop := RetryLoop(chain.attempts, receiver, MaxRetries, None);
      assert run.calls == setup + loop.calls;
      BroadcastFree(setup);
      RetryLoopFrom(chain.attempts, receiver, MaxRetries, None);
      BroadcastCountAppend(setup, loop.calls);
    } else {
      BroadcastFree(run.calls);
    }
  }
}
