/**
 The faucet configuration row and the completeness check `sendTokens` runs on
 it before touching the chain. The row comes from an HTTP read of the
 `safro_faucet_config` table; that read is an oracle whose answer is passed in.
 */
module FaucetConfig {
  import opened JsValues

  /** One row of `safro_faucet_config`, as destructured in `sendTokens`. */
  datatype Config = Config(
    mnemonic: Field,
    rpcEndpoint: Field,
    denom: Field,
    amount: Field,
    prefix: Field,
    memo: Field,
    explorerUrlPrefix: Field)

  const MinMnemonicSegments: nat := 12
  const InvalidMnemonicMessage := "Invalid or missing MNEMONIC configuration"
  const MissingFieldsMessage := "Missing required configuration (rpc_endpoint, denom, amount, or prefix)"
  /** The destructuring default of `explorer_url_prefix`. */
  const DefaultExplorerPrefix := "https://rpcsafro.cardanotask.com/tx?hash=0x"

  /** Present, at least twelve segments when split on one space, and accepted by the
      BIP-39 check `validateMnemonic` (an uninterpreted predicate here). */
  predicate MnemonicAccepted(m: Field, validateMnemonic: string -> bool) {
    Truthy(m) && |Split(m.s, ' ')| >= MinMnemonicSegments && validateMnemonic(m.s)
  }

  predicate RequiredFieldsPresent(cfg: Config) {
    Truthy(cfg.rpcEndpoint) && Truthy(cfg.denom) && Truthy(cfg.amount) && Truthy(cfg.prefix)
  }

  /** The two guards of `sendTokens`: `None` when both pass, otherwise the error thrown. */
  function CheckConfig(cfg: Config, validateMnemonic: string -> bool): (r: Option<Thrown>)
    ensures r.None? <==>
      && cfg.mnemonic.Text? && cfg.mnemonic.s != ""
      && Count(cfg.mnemonic.s, ' ') >= 11
      && validateMnemonic(cfg.mnemonic.s)
      && cfg.rpcEndpoint.Text? && cfg.rpcEndpoint.s != ""
      && cfg.denom.Text? && cfg.denom.s != ""
      && cfg.amount.Text? && cfg.amount.s != ""
      && cfg.prefix.Text? && cfg.prefix.s != ""
    ensures r == Some(ErrorObject(InvalidMnemonicMessage)) <==> !MnemonicAccepted(cfg.mnemonic, validateMnemonic)
    ensures r == Some(ErrorObject(MissingFieldsMessage)) <==>
      MnemonicAccepted(cfg.mnemonic, validateMnemonic) && !RequiredFieldsPresent(cfg)
  {
    SplitLength(if cfg.mnemonic.Text? then cfg.mnemonic.s else "", ' ');
    if !MnemonicAccepted(cfg.mnemonic, validateMnemonic) then Some(ErrorObject(InvalidMnemonicMessage))
    else if !RequiredFieldsPresent(cfg) then Some(ErrorObject(MissingFieldsMessage))
    else None
  }

  /** The mnemonic word-count guard counts separators, not words: consecutive spaces
      make empty segments, which count too. */
  lemma MnemonicSegmentsAreSpaces(m: string)
    ensures |Split(m, ' ')| >= MinMnemonicSegments <==> Count(m, ' ') >= 11
  {
    SplitLength(m, ' ');
  }

  /** The prefix of explorer links: the default only when the property is absent;
      a null column renders as "null". */
  function ExplorerPrefix(f: Field): (p: string)
    ensures f.Undefined? ==> p == DefaultExplorerPrefix
    ensures f.Text? ==> p == f.s
    ensures f.Null? ==> p == "null"
  {
    if f.Undefined? then DefaultExplorerPrefix else Render(f)
  }
}
