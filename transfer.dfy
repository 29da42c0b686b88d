/** The `TokenTransfer` class of index.js: balance queries and the token
    transfer procedure (conversion, balance check, gas estimate with fallback,
    gas buffer, gas price selection, submission, confirmation wait) and the
    error hints printed when it fails.

    Every RPC call is answered by a `Network` value given as a parameter: it
    holds, per call, the value the node returns or the message of the error
    the call throws. The calls a method issues are recorded, in order, in the
    ghost call log of the object. */
module Transfer {
  import opened Wrappers
  import opened Text
  import opened Units
  import opened EnvConfig

  /** The answer to one call: a value, or an error thrown with its message. */
  datatype Reply<+T> = Ok(value: T) | Throws(message: string)

  /** `getTokenInfo()`: name, symbol and decimals of the token. */
  datatype TokenInfo = TokenInfo(name: string, symbol: string, decimals: Uint8)

  /** `provider.getFeeData()`; `gasPrice` may be null. */
  datatype FeeData = FeeData(gasPrice: Option<nat>)

  /** The receipt `tx.wait(2)` resolves to. */
  datatype Receipt = Receipt(blockNumber: nat, gasUsed: nat, gasLimit: Option<nat>)

  /** The transaction `transfer(to, amount, {gasLimit, gasPrice})` submits. */
  datatype TxRequest = TxRequest(to: string, amount: nat, gasLimit: nat, gasPrice: nat)

  /** What the node answers to each call of the class. */
  datatype Network = Network(
    tokenInfo: Reply<TokenInfo>,  // name(), symbol(), decimals()
    balance: Reply<nat>,          // tokenContract.balanceOf(account)
    gasEstimate: Reply<nat>,      // tokenContract.transfer.estimateGas(to, amount)
    feeData: Reply<FeeData>,      // provider.getFeeData()
    submission: Reply<string>,    // tokenContract.transfer(...), the transaction hash
    confirmation: Reply<Receipt>) // tx.wait(2)

  /** One call to the node, with the arguments it is made with. */
  datatype Call =
    | TokenInfoCall
    | BalanceOfCall(account: string)
    | EstimateGasCall(to: string, amount: nat)
    | FeeDataCall
    | TransferCall(tx: TxRequest)
    | WaitCall(confirmations: nat)

  /** The kind of a call, forgetting its arguments. */
  datatype Step = TokenInfoStep | BalanceStep | EstimateStep | FeeDataStep | SubmitStep | WaitStep

  function StepOf(c: Call): Step
  {
    match c
    case TokenInfoCall => TokenInfoStep
    case BalanceOfCall(_) => BalanceStep
    case EstimateGasCall(_, _) => EstimateStep
    case FeeDataCall => FeeDataStep
    case TransferCall(_) => SubmitStep
    case WaitCall(_) => WaitStep
  }

  function Steps(calls: seq<Call>): seq<Step>
  {
    if calls == [] then [] else [StepOf(calls[0])] + Steps(calls[1..])
  }

  /** The steps line up with the calls they come from. */
  lemma {:induction false} StepsIndex(calls: seq<Call>)
    ensures |Steps(calls)| == |calls|
    ensures forall i :: 0 <= i < |calls| ==> Steps(calls)[i] == StepOf(calls[i])
    decreases |calls|
  {
    if calls != [] {
      StepsIndex(calls[1..]);
    }
  }

  /** The order in which `transferTokens` talks to the node. */
  const PROTOCOL: seq<Step> :=
    [TokenInfoStep, BalanceStep, EstimateStep, FeeDataStep, SubmitStep, WaitStep]

  const INSUFFICIENT_TOKEN_BALANCE: string := "Insufficient token balance"
  /** Gas units assumed when estimation throws. */
  const FALLBACK_GAS: nat := 150000
  /** Confirmations awaited before the receipt is returned. */
  const CONFIRMATIONS: nat := 2
  const GAS_PRICE_VAR: string := "GAS_PRICE_GWEI"
  const DEFAULT_GAS_PRICE_GWEI: string := "20"
  /** Messages of the conversion stand-ins when they refuse their input. */
  const TOO_MANY_DECIMALS: string := "too many decimals for format"
  const INVALID_DECIMAL: string := "invalid decimal string"

  // ---------------------------------------------------------------------
  // Gas

  /** The `try`/`catch` around `estimateGas`: the estimate, or the fallback. */
  function EstimatedGas(reply: Reply<nat>): (gas: nat)
    ensures reply.Ok? ==> gas == reply.value
    ensures reply.Throws? ==> gas == FALLBACK_GAS
  {
    match reply
    case Ok(g) => g
    case Throws(_) => FALLBACK_GAS
  }

  /** `(estimatedGas * 120n) / 100n`: the estimate plus 20%, rounded down. */
  function GasLimit(estimatedGas: nat): (limit: nat)
    ensures estimatedGas <= limit
    ensures limit * 100 <= estimatedGas * 120 < (limit + 1) * 100
  {
    (estimatedGas * 120) / 100
  }

  lemma GasLimitExamples()
    ensures GasLimit(FALLBACK_GAS) == 180000
    ensures GasLimit(100000) == 120000
  {
  }

  /** A larger estimate never gives a smaller limit. */
  lemma GasLimitMonotone(a: nat, b: nat)
    requires a <= b
    ensures GasLimit(a) <= GasLimit(b)
  {
  }

  /** JavaScript truthiness of `feeData.gasPrice`: null and 0n are falsy. */
  predicate Truthy(gasPrice: Option<nat>)
  {
    gasPrice.Some? && gasPrice.value != 0
  }

  /** `process.env.GAS_PRICE_GWEI || '20'`. */
  function ConfiguredGwei(env: Env): (text: string)
    ensures text != ""
    ensures IsSet(env, GAS_PRICE_VAR) ==> text == Lookup(env, GAS_PRICE_VAR)
    ensures !IsSet(env, GAS_PRICE_VAR) ==> text == DEFAULT_GAS_PRICE_GWEI
  {
    if IsSet(env, GAS_PRICE_VAR) then Lookup(env, GAS_PRICE_VAR) else DEFAULT_GAS_PRICE_GWEI
  }

  /** `ethers.parseUnits(text, 'gwei')`: gwei text to wei, or the error thrown. */
  function GweiToWei(text: string): (wei: Reply<nat>)
    ensures wei.Ok? ==> exists d :: ParseDecimalText(text) == Some(d)
                                    && wei.value * Pow10(d.fractionDigits) == d.mantissa * Pow10(GWEI_DECIMALS)
    ensures ParseDecimalText(text).None? ==> wei == Throws(INVALID_DECIMAL)
    ensures ParseDecimalText(text).Some? && ParseUnits(ParseDecimalText(text).value, GWEI_DECIMALS).Exact? ==>
              wei.Ok?
  {
    match ParseDecimalText(text)
    case None => Throws(INVALID_DECIMAL)
    case Some(d) =>
      match ParseUnits(d, GWEI_DECIMALS)
      case Exact(w) => Ok(w)
      case TooManyDecimals => Throws(TOO_MANY_DECIMALS)
  }

  /** `feeData.gasPrice || parseUnits(GAS_PRICE_GWEI || '20', 'gwei')`. */
  function SelectGasPrice(fee: FeeData, env: Env): (price: Reply<nat>)
    ensures Truthy(fee.gasPrice) ==> price == Ok(fee.gasPrice.value)
    ensures !Truthy(fee.gasPrice) ==> price == GweiToWei(ConfiguredGwei(env))
  {
    if Truthy(fee.gasPrice) then Ok(fee.gasPrice.value) else GweiToWei(ConfiguredGwei(env))
  }

  /** With no usable network price and nothing configured: 20 gwei exactly. */
  lemma DefaultGasPrice(fee: FeeData, env: Env)
    requires !Truthy(fee.gasPrice) && !IsSet(env, GAS_PRICE_VAR)
    ensures SelectGasPrice(fee, env) == Ok(20000000000)
  {
    assert NatText(20) == DEFAULT_GAS_PRICE_GWEI;
    ParseNatText(20);
  }

  /** A whole number of gwei configured in GAS_PRICE_GWEI is used, times 10^9,
      whenever the network price is null or zero. */
  lemma ConfiguredGasPrice(fee: FeeData, env: Env, gwei: nat)
    requires !Truthy(fee.gasPrice) && Lookup(env, GAS_PRICE_VAR) == NatText(gwei)
    ensures SelectGasPrice(fee, env) == Ok(gwei * 1000000000)
  {
    ParseNatText(gwei);
  }

  /** A gwei text that reads as a decimal with at most nine fraction digits
      converts to its value in wei. */
  lemma GweiTextToWei(text: string, d: Decimal)
    requires ParseDecimalText(text) == Some(d) && d.fractionDigits <= GWEI_DECIMALS
    ensures GweiToWei(text) == Ok(d.mantissa * Pow10(GWEI_DECIMALS - d.fractionDigits))
  {
  }

  /** `GAS_PRICE_GWEI=1.5` gives 1500000000 wei. */
  lemma GasPriceOneAndAHalf()
    ensures GweiToWei("1.5") == Ok(1500000000)
  {
    assert "1" + "." + "5" == "1.5";
    ParseFractionText("1", "5");
    assert DigitsValue("1") == 1 && DigitsValue("5") == 5 by {
      assert "1"[..0] == "" && "5"[..0] == "";
    }
    GweiTextToWei("1.5", Decimal(15, 1));
  }

  // ---------------------------------------------------------------------
  // Error hints

  /** The diagnostic printed by the `catch` of `transferTokens`. */
  datatype Hint = GasHint | FundsHint | NoHint

  /** The gas hint wins over the funds hint when a message has both. */
  function ErrorHint(message: string): (h: Hint)
    ensures h == GasHint <==> Contains(message, "intrinsic gas too low")
    ensures h == FundsHint <==> !Contains(message, "intrinsic gas too low")
                                && Contains(message, "insufficient funds")
    ensures h == NoHint <==> !Contains(message, "intrinsic gas too low")
                             && !Contains(message, "insufficient funds")
  {
    if Contains(message, "intrinsic gas too low") then GasHint
    else if Contains(message, "insufficient funds") then FundsHint
    else NoHint
  }

  /** A message without the letters 'g' and 'd' can hold neither phrase. */
  lemma NoHintWithoutLetters(message: string)
    requires 'g' !in message && 'd' !in message
    ensures ErrorHint(message) == NoHint
  {
    NotContainsMissingChar(message, "intrinsic gas too low", 'g');
    NotContainsMissingChar(message, "insufficient funds", 'd');
  }

  /** The script's own balance error carries neither hint. */
  lemma InsufficientBalanceHasNoHint()
    ensures ErrorHint(INSUFFICIENT_TOKEN_BALANCE) == NoHint
  {
    NoHintWithoutLetters(INSUFFICIENT_TOKEN_BALANCE);
  }

  /** A node error such as "insufficient funds for gas * price + value" is
      recognised wherever the phrase stands in the message. */
  lemma FundsHintInContext(before: string, after: string)
    requires !Contains(before + "insufficient funds" + after, "intrinsic gas too low")
    ensures ErrorHint(before + "insufficient funds" + after) == FundsHint
  {
    var m := before + "insufficient funds" + after;
    assert m[|before|..|before| + |"insufficient funds"|] == "insufficient funds";
    ContainsAt(m, "insufficient funds", |before|);
  }

  // ---------------------------------------------------------------------
  // Balance query

  /** `address || this.wallet.address`: a missing or empty address
      (both falsy) selects the wallet's own address. */
  function TargetAddress(address: Option<string>, wallet: string): (target: string)
    ensures address == None || address == Some("") ==> target == wallet
    ensures address.Some? && address.value != "" ==> target == address.value
  {
    if address.Some? && address.value != "" then address.value else wallet
  }

  /** What `getBalance` returns. */
  datatype BalanceReport = BalanceReport(balance: nat, formatted: Decimal, tokenInfo: TokenInfo)

  /** The calls `getBalance` makes and what it returns or throws. */
  datatype BalanceRun = BalanceRun(calls: seq<Call>, result: Reply<BalanceReport>)

  function BalanceQuery(wallet: string, address: Option<string>, net: Network): (q: BalanceRun)
    ensures 1 <= |q.calls| <= 2 && q.calls[0] == BalanceOfCall(TargetAddress(address, wallet))
    ensures |q.calls| == 2 <==> net.balance.Ok?
    ensures |q.calls| == 2 ==> q.calls[1] == TokenInfoCall
    ensures net.balance.Throws? ==> q.result == Throws(net.balance.message)
    ensures net.balance.Ok? && net.tokenInfo.Throws? ==> q.result == Throws(net.tokenInfo.message)
    ensures net.balance.Ok? && net.tokenInfo.Ok? ==> q.result.Ok?
    ensures q.result.Ok? ==>
              net.balance.Ok? && net.tokenInfo.Ok?
              && q.result.value.balance == net.balance.value
              && q.result.value.tokenInfo == net.tokenInfo.value
              && ParseUnits(q.result.value.formatted, net.tokenInfo.value.decimals) == Exact(net.balance.value)
  {
    var target := TargetAddress(address, wallet);
    match net.balance
    case Throws(m) => BalanceRun([BalanceOfCall(target)], Throws(m))
    case Ok(balance) =>
      var calls := [BalanceOfCall(target), TokenInfoCall];
      match net.tokenInfo
      case Throws(m) => BalanceRun(calls, Throws(m))
      case Ok(info) =>
        BalanceRun(calls, Ok(BalanceReport(balance, FormatUnits(balance, info.decimals), info)))
  }

  // ---------------------------------------------------------------------
  // Transfer procedure

  /** The calls the `try` block of `transferTokens` issues and the value it
      returns or the error it throws. */
  datatype Attempt = Attempt(calls: seq<Call>, result: Reply<Receipt>)

  /** The amount in base units; None when token info or conversion fails. */
  function AmountInWei(amount: Decimal, net: Network): Option<nat>
  {
    if net.tokenInfo.Ok? then
      match ParseUnits(amount, net.tokenInfo.value.decimals)
      case Exact(u) => Some(u)
      case TooManyDecimals => None
    else None
  }

  predicate BalanceSufficient(amount: Decimal, net: Network)
  {
    AmountInWei(amount, net).Some? && net.balance.Ok?
    && net.balance.value >= AmountInWei(amount, net).value
  }

  predicate BalanceInsufficient(amount: Decimal, net: Network)
  {
    AmountInWei(amount, net).Some? && net.balance.Ok?
    && net.balance.value < AmountInWei(amount, net).value
  }

  /** From the gas estimate on: estimate (its failure is absorbed), fee data,
      gas price, submission, and the wait for confirmations. */
  function SubmitTransfer(to: string, amountInWei: nat, net: Network, env: Env): (run: Attempt)
    ensures 2 <= |run.calls| <= 4
    ensures run.calls[0] == EstimateGasCall(to, amountInWei) && run.calls[1] == FeeDataCall
    ensures |run.calls| >= 3 <==> net.feeData.Ok? && SelectGasPrice(net.feeData.value, env).Ok?
    ensures |run.calls| >= 3 ==>
              run.calls[2] == TransferCall(TxRequest(to, amountInWei,
                                                     GasLimit(EstimatedGas(net.gasEstimate)),
                                                     SelectGasPrice(net.feeData.value, env).value))
    ensures |run.calls| == 4 <==> |run.calls| >= 3 && net.submission.Ok?
    ensures |run.calls| == 4 ==> run.calls[3] == WaitCall(CONFIRMATIONS) && run.result == net.confirmation
    ensures |run.calls| < 4 ==> run.result.Throws?
  {
    var gasLimit := GasLimit(EstimatedGas(net.gasEstimate));
    var c := [EstimateGasCall(to, amountInWei), FeeDataCall];
    match net.feeData
    case Throws(m) => Attempt(c, Throws(m))
    case Ok(fee) =>
      match SelectGasPrice(fee, env)
      case Throws(m) => Attempt(c, Throws(m))
      case Ok(price) =>
        var c2 := c + [TransferCall(TxRequest(to, amountInWei, gasLimit, price))];
        match net.submission
        case Throws(m) => Attempt(c2, Throws(m))
        case Ok(_) => Attempt(c2 + [WaitCall(CONFIRMATIONS)], net.confirmation)
  }

  /** Each error that ends the stage is the one thrown where it stops: the
      fee-data read's, the gas-price conversion's or the node's rejection of
      the submitted transaction, each with its own message. */
  lemma SubmitTransferErrors(to: string, amountInWei: nat, net: Network, env: Env)
    ensures var run := SubmitTransfer(to, amountInWei, net, env);
            && (net.feeData.Throws? ==> run.result == Throws(net.feeData.message))
            && (net.feeData.Ok? && SelectGasPrice(net.feeData.value, env).Throws? ==>
                  run.result == Throws(SelectGasPrice(net.feeData.value, env).message))
            && (|run.calls| == 3 ==> run.result == Throws(net.submission.message))
  {
  }

  /** From the balance read on: the transfer goes ahead only when the wallet
      holds at least the amount. */
  function CheckedTransfer(wallet: string, to: string, amountInWei: nat, net: Network, env: Env): (run: Attempt)
    ensures |run.calls| >= 1
    ensures run.calls[0] == BalanceOfCall(wallet)
    ensures |run.calls| > 1 <==> net.balance.Ok? && net.balance.value >= amountInWei
    ensures net.balance.Ok? && net.balance.value < amountInWei ==>
              run == Attempt([BalanceOfCall(wallet)], Throws(INSUFFICIENT_TOKEN_BALANCE))
    ensures net.balance.Throws? ==> run == Attempt([BalanceOfCall(wallet)], Throws(net.balance.message))
    ensures |run.calls| > 1 ==> Attempt(run.calls[1..], run.result) == SubmitTransfer(to, amountInWei, net, env)
  {
    var c := [BalanceOfCall(wallet)];
    match net.balance
    case Throws(m) => Attempt(c, Throws(m))
    case Ok(balance) =>
      if balance < amountInWei then Attempt(c, Throws(INSUFFICIENT_TOKEN_BALANCE))
      else
        var rest := SubmitTransfer(to, amountInWei, net, env);
        assert (c + rest.calls)[1..] == rest.calls;
        Attempt(c + rest.calls, rest.result)
  }

  /** The `try` block of `transferTokens(toAddress, amount)`, from the wallet
      `wallet`, with the environment `env`, against the node `net`: token
      info and conversion first, the rest only once the amount is known. */
  function TransferSteps(wallet: string, to: string, amount: Decimal, net: Network, env: Env): (run: Attempt)
  {
    var c := [TokenInfoCall];
    match net.tokenInfo
    case Throws(m) => Attempt(c, Throws(m))
    case Ok(info) =>
      match ParseUnits(amount, info.decimals)
      case TooManyDecimals => Attempt(c, Throws(TOO_MANY_DECIMALS))
      case Exact(amountInWei) =>
        var rest := CheckedTransfer(wallet, to, amountInWei, net, env);
        assert (c + rest.calls)[1..] == rest.calls;
        Attempt(c + rest.calls, rest.result)
  }

  /** The stages of `transferTokens`: token info comes first; an error there,
      or an amount finer than the token's decimals, ends the attempt; otherwise
      the balance-guarded rest follows with the converted amount. */
  lemma TransferStepsStages(wallet: string, to: string, amount: Decimal, net: Network, env: Env)
    ensures var run := TransferSteps(wallet, to, amount, net, env);
            && |run.calls| >= 1 && run.calls[0] == TokenInfoCall
            && (|run.calls| > 1 <==> AmountInWei(amount, net).Some?)
            && (net.tokenInfo.Throws? ==> run == Attempt([TokenInfoCall], Throws(net.tokenInfo.message)))
            && (net.tokenInfo.Ok? && AmountInWei(amount, net).None? ==>
                  run == Attempt([TokenInfoCall], Throws(TOO_MANY_DECIMALS)))
            && (|run.calls| > 1 ==>
                  Attempt(run.calls[1..], run.result)
                  == CheckedTransfer(wallet, to, AmountInWei(amount, net).value, net, env))
  {
  }

  /** A run that passed the balance check, followed by the submission stage,
      keeps the protocol order. */
  lemma CoveredRunFollowsProtocol(wallet: string, to: string, amountInWei: nat, net: Network, env: Env, calls: seq<Call>)
    requires calls == [TokenInfoCall, BalanceOfCall(wallet)] + SubmitTransfer(to, amountInWei, net, env).calls
    ensures Steps(calls) <= PROTOCOL
  {
    var submit := SubmitTransfer(to, amountInWei, net, env);
    StepsIndex(calls);
    forall i | 0 <= i < |calls| ensures Steps(calls)[i] == PROTOCOL[i] {
      if i >= 2 {
        assert calls[i] == submit.calls[i - 2];
      }
    }
  }

  /** Whatever the node answers, `transferTokens` makes its calls in the
      protocol order and stops at the first failure: the run is a prefix of
      token info, balance, estimate, fee data, submit, wait. A failed
      estimate never stops it (no run ends right after the estimate), and a
      receipt is only returned after waiting for two confirmations. */
  lemma TransferFollowsProtocol(wallet: string, to: string, amount: Decimal, net: Network, env: Env)
    ensures var run := TransferSteps(wallet, to, amount, net, env);
            && Steps(run.calls) <= PROTOCOL
            && |run.calls| != 3
            && (run.result.Ok? ==> |run.calls| == 6 && run.calls[5] == WaitCall(CONFIRMATIONS))
  {
    var run := TransferSteps(wallet, to, amount, net, env);
    TransferStepsStages(wallet, to, amount, net, env);
    StepsIndex(run.calls);
    if |run.calls| > 1 {
      var w := AmountInWei(amount, net).value;
      var checked := CheckedTransfer(wallet, to, w, net, env);
      if |checked.calls| > 1 {
        var submit := SubmitTransfer(to, w, net, env);
        assert run.calls == [TokenInfoCall, BalanceOfCall(wallet)] + submit.calls;
        CoveredRunFollowsProtocol(wallet, to, w, net, env, run.calls);
      }
    }
  }

  /** The `catch` block: the hint it prints for a thrown error. */
  function CaughtHint(result: Reply<Receipt>): (h: Hint)
    ensures result.Ok? ==> h == NoHint
    ensures result.Throws? ==> h == ErrorHint(result.message)
  {
    if result.Throws? then ErrorHint(result.message) else NoHint
  }

  /** Nothing is estimated or submitted when the balance is too low, and the
      error thrown is the script's own (which carries no hint, by
      `InsufficientBalanceHasNoHint`). */
  lemma InsufficientBalanceNeverSubmits(wallet: string, to: string, amount: Decimal, net: Network, env: Env)
    requires BalanceInsufficient(amount, net)
    ensures var run := TransferSteps(wallet, to, amount, net, env);
            run == Attempt([TokenInfoCall, BalanceOfCall(wallet)], Throws(INSUFFICIENT_TOKEN_BALANCE))
            && EstimateStep !in Steps(run.calls) && SubmitStep !in Steps(run.calls)
  {
    var w := AmountInWei(amount, net).value;
    assert CheckedTransfer(wallet, to, w, net, env)
        == Attempt([BalanceOfCall(wallet)], Throws(INSUFFICIENT_TOKEN_BALANCE));
    TransferStepsStages(wallet, to, amount, net, env);
    var calls := [TokenInfoCall, BalanceOfCall(wallet)];
    StepsIndex(calls);
    assert Steps(calls) == [TokenInfoStep, BalanceStep];
  }

  /** When the node rejects the submitted transaction, that error, with its
      own message, is what the attempt throws, so the hint is chosen from the
      node's message. */
  lemma SubmissionErrorReachesCaller(wallet: string, to: string, amount: Decimal, net: Network, env: Env, m: string)
    requires BalanceSufficient(amount, net) && net.feeData.Ok? && SelectGasPrice(net.feeData.value, env).Ok?
    requires net.submission == Throws(m)
    ensures TransferSteps(wallet, to, amount, net, env).result == Throws(m)
    ensures CaughtHint(TransferSteps(wallet, to, amount, net, env).result) == ErrorHint(m)
  {
  }

  /** A failed fee-data read ends a covered transfer with the node's error,
      after the estimate: the configured gas price does not stand in for it. */
  lemma FeeDataErrorAborts(wallet: string, to: string, amount: Decimal, net: Network, env: Env)
    requires BalanceSufficient(amount, net) && net.feeData.Throws?
    ensures var run := TransferSteps(wallet, to, amount, net, env);
            run.result == Throws(net.feeData.message)
            && |run.calls| == 4 && run.calls[3] == FeeDataCall
  {
    TransferStepsStages(wallet, to, amount, net, env);
  }

  /** When estimation throws, the transaction goes out with the fallback
      150000 gas plus the buffer: a limit of 180000. */
  lemma EstimateFailureUsesFallback(wallet: string, to: string, amount: Decimal, net: Network, env: Env)
    requires net.gasEstimate.Throws?
    requires BalanceSufficient(amount, net) && net.feeData.Ok? && SelectGasPrice(net.feeData.value, env).Ok?
    ensures var run := TransferSteps(wallet, to, amount, net, env);
            |run.calls| >= 5 && run.calls[4].TransferCall? && run.calls[4].tx.gasLimit == 180000
  {
    GasLimitExamples();
  }

  /** The gas limit sent is never lower than a successful estimate, so the
      buffer only adds margin. */
  lemma SubmittedGasCoversEstimate(wallet: string, to: string, amount: Decimal, net: Network, env: Env)
    requires net.gasEstimate.Ok?
    ensures var run := TransferSteps(wallet, to, amount, net, env);
            |run.calls| >= 5 ==> run.calls[4].tx.gasLimit >= net.gasEstimate.value
  {
  }

  /** Two decimals, balance 500 base units, amount 4.00: 400 base units are
      covered, so the procedure goes on to estimate gas; with a balance of
      300 it stops with the balance error and estimates nothing. */
  lemma BalanceScenarios(wallet: string, to: string, net: Network, env: Env)
    requires net.tokenInfo.Ok? && net.tokenInfo.value.decimals == 2
    ensures net.balance == Ok(500) ==>
              var run := TransferSteps(wallet, to, Decimal(400, 2), net, env);
              |run.calls| >= 3 && run.calls[2] == EstimateGasCall(to, 400)
    ensures net.balance == Ok(300) ==>
              TransferSteps(wallet, to, Decimal(400, 2), net, env)
              == Attempt([TokenInfoCall, BalanceOfCall(wallet)], Throws(INSUFFICIENT_TOKEN_BALANCE))
  {
    assert ParseUnits(Decimal(400, 2), 2) == Exact(400);
  }

  // ---------------------------------------------------------------------
  // The class

  /** `TokenTransfer`: the provider URL, the wallet's address and the token
      contract's address are set once, by construction (`setupProvider`). */
  class TokenTransfer {
    const rpcUrl: string
    const walletAddress: string
    const tokenAddress: string
    /** The calls made to the node so far, oldest first. */
    ghost var calls: seq<Call>

    constructor (rpcUrl: string, walletAddress: string, tokenAddress: string)
      ensures this.rpcUrl == rpcUrl && this.walletAddress == walletAddress
      ensures this.tokenAddress == tokenAddress && calls == []
    {
      this.rpcUrl := rpcUrl;
      this.walletAddress := walletAddress;
      this.tokenAddress := tokenAddress;
      calls := [];
    }

    /** `getTokenInfo()`: the three reads, rethrowing any error. */
    method GetTokenInfo(net: Network) returns (info: Reply<TokenInfo>)
      modifies this`calls
      ensures calls == old(calls) + [TokenInfoCall]
      ensures info == net.tokenInfo
    {
      calls := calls + [TokenInfoCall];
      info := net.tokenInfo;
    }

    /** `getBalance(address)`. */
    method GetBalance(address: Option<string>, net: Network) returns (result: Reply<BalanceReport>)
      modifies this`calls
      ensures calls == old(calls) + BalanceQuery(walletAddress, address, net).calls
      ensures result == BalanceQuery(walletAddress, address, net).result
    {
      var target := TargetAddress(address, walletAddress);
      calls := calls + [BalanceOfCall(target)];
      var balance := net.balance;
      if balance.Throws? {
        return Throws(balance.message);
      }
      var info := GetTokenInfo(net);
      if info.Throws? {
        return Throws(info.message);
      }
      var formatted := FormatUnits(balance.value, info.value.decimals);
      result := Ok(BalanceReport(balance.value, formatted, info.value));
    }

    /** The `try` block of `transferTokens`: token info and the conversion of
        the amount to base units, then the balance-guarded rest. */
    method AttemptTransfer(to: string, amount: Decimal, net: Network, env: Env) returns (result: Reply<Receipt>)
      modifies this`calls
      ensures calls == old(calls) + TransferSteps(walletAddress, to, amount, net, env).calls
      ensures result == TransferSteps(walletAddress, to, amount, net, env).result
    {
      ghost var plan := TransferSteps(walletAddress, to, amount, net, env);
      ghost var start := calls;
      var info := GetTokenInfo(net);
      if info.Throws? {
        assert plan == Attempt([TokenInfoCall], Throws(info.message));
        return Throws(info.message);
      }
      var conversion := ParseUnits(amount, info.value.decimals);
      if conversion.TooManyDecimals? {
        assert plan == Attempt([TokenInfoCall], Throws(TOO_MANY_DECIMALS));
        return Throws(TOO_MANY_DECIMALS);
      }
      var amountInWei := conversion.units;
      ghost var rest := CheckedTransfer(walletAddress, to, amountInWei, net, env);
      assert plan == Attempt([TokenInfoCall] + rest.calls, rest.result);
      result := TransferIfCovered(to, amountInWei, net, env);
      assert calls == start + [TokenInfoCall] + rest.calls;
    }

    /** The balance check: read the wallet's balance and stop, before any gas
        is estimated, when it is below the amount. */
    method TransferIfCovered(to: string, amountInWei: nat, net: Network, env: Env) returns (result: Reply<Receipt>)
      modifies this`calls
      ensures calls == old(calls) + CheckedTransfer(walletAddress, to, amountInWei, net, env).calls
      ensures result == CheckedTransfer(walletAddress, to, amountInWei, net, env).result
    {
      calls := calls + [BalanceOfCall(walletAddress)];
      var balance := net.balance;
      if balance.Throws? {
        return Throws(balance.message);
      }
      if balance.value < amountInWei {
        return Throws(INSUFFICIENT_TOKEN_BALANCE);
      }
      result := SubmitWithGas(to, amountInWei, net, env);
    }

    /** Gas estimate (falling back on failure), buffered gas limit, gas
        price, submission and the wait for confirmations. */
    method SubmitWithGas(to: string, amountInWei: nat, net: Network, env: Env) returns (result: Reply<Receipt>)
      modifies this`calls
      ensures calls == old(calls) + SubmitTransfer(to, amountInWei, net, env).calls
      ensures result == SubmitTransfer(to, amountInWei, net, env).result
    {
      ghost var plan := SubmitTransfer(to, amountInWei, net, env);
      ghost var start := calls;
      calls := calls + [EstimateGasCall(to, amountInWei)];
      var estimatedGas: nat;
      match net.gasEstimate {
        case Ok(g) => estimatedGas := g;
        case Throws(_) => estimatedGas := FALLBACK_GAS;
      }
      var gasLimit := GasLimit(estimatedGas);

      calls := calls + [FeeDataCall];
      var feeData := net.feeData;
      ghost var asked := [EstimateGasCall(to, amountInWei), FeeDataCall];
      assert calls == start + asked;
      if feeData.Throws? {
        assert plan == Attempt(asked, Throws(feeData.message));
        return Throws(feeData.message);
      }
      var gasPrice := SelectGasPrice(feeData.value, env);
      if gasPrice.Throws? {
        assert plan == Attempt(asked, Throws(gasPrice.message));
        return Throws(gasPrice.message);
      }

      var request := TxRequest(to, amountInWei, gasLimit, gasPrice.value);
      calls := calls + [TransferCall(request)];
      ghost var sent := asked + [TransferCall(request)];
      assert calls == start + sent;
      var tx := net.submission;
      if tx.Throws? {
        assert plan == Attempt(sent, Throws(tx.message));
        return Throws(tx.message);
      }

      calls := calls + [WaitCall(CONFIRMATIONS)];
      assert calls == start + (sent + [WaitCall(CONFIRMATIONS)]);
      assert plan == Attempt(sent + [WaitCall(CONFIRMATIONS)], net.confirmation);
      result := net.confirmation;
    }

    /** `transferTokens(toAddress, amount)`: the error of a failed attempt is
        rethrown unchanged, after the hint for it is printed. */
    method TransferTokens(to: string, amount: Decimal, net: Network, env: Env) returns (result: Reply<Receipt>, hint: Hint)
      modifies this`calls
      ensures calls == old(calls) + TransferSteps(walletAddress, to, amount, net, env).calls
      ensures result == TransferSteps(walletAddress, to, amount, net, env).result
      ensures hint == CaughtHint(result)
    {
      result := AttemptTransfer(to, amount, net, env);
      hint := CaughtHint(result);
    }
  }
}
