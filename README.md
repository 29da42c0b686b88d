# transfer-script, modelled in Dafny

transfer-script is a Node.js command-line tool that sends ERC-20 tokens from a
wallet. Its `TokenTransfer` class (index.js) does the following:
- reads the token's metadata and balances;
- transfers tokens in a fixed protocol: token info, amount conversion,
  balance check, gas estimate (with a fallback), a 20% gas buffer, gas price
  selection, submission, and a wait for two confirmations;
- prints a hint when the transfer fails.

`main` refuses to start when a required environment variable is missing or
still a template placeholder. test-setup.js is a self-test. It checks the
same variables and the format of the addresses, the private key and the RPC
URL, then prints a summary.

The model is in five modules:

- `Text` (text.dfy): `String.prototype.includes` as a recursive scan, proved
  equal to the positional definition of an occurrence.
- `Units` (units.dfy): exact decimal amounts and integer stand-ins for
  `parseUnits`/`formatUnits`. Also a decimal-text reader for `GAS_PRICE_GWEI`.
- `EnvConfig` (env_config.dfy): `process.env` as a map, with an absent
  variable read as "". Holds the `missingVars` filter and the start-up
  decision of `main`.
- `Transfer` (transfer.dfy): the `TokenTransfer` class.
  - Every answer the node gives is a field of a `Network` value: the value it
    returns, or the message of the error it throws.
  - The object's ghost `calls` log records each call and its arguments, in
    order.
  - Each method is proved to leave in that log exactly the calls that a
    specification function computes, and to return that function's result.
    The functions are `TransferSteps`, `CheckedTransfer`, `SubmitTransfer` and
    `BalanceQuery`. Lemmas then state the protocol's properties about them.
- `SetupCheck` (setup_check.dfy): test-setup.js.
  - The variable loop is a method with loop invariants.
  - The private-key regular expression is a recursive matcher, proved equal
    to a direct description of the key shape.
  - The guards of the other tests and the summary are also modelled.
  - Whatever ethers or `new URL` would answer is passed in as a parameter.

Two behaviours of the code worth noting:
- **Fee data:** an error from `getFeeData` aborts the transfer (index.js:115).
  It does not fall back to the default price.
- **Zero gas price:** a network gas price of 0 is falsy, so it is replaced by
  the configured price (index.js:116).

## Model

| member | source | states |
|---|---|---|
| Text.ContainsIff | index.js:183 | `includes` holds exactly when the pattern occurs at some position of the text |
| Text.NotContainsMissingChar | index.js:144-148 | a pattern holding a character absent from the text is never included |
| Units.ParseUnits | index.js:89 | when the conversion succeeds, the base-unit integer times 10^fractionDigits equals the mantissa times 10^decimals; an amount with no more fraction digits than the token's decimals always converts |
| Units.ParseUnitsIff | index.js:89 | the conversion yields `units` if and only if `units` base units carry exactly the amount's value (so it refuses only amounts no whole number of base units represents) |
| Units.FormatUnits | index.js:67 | the formatted balance converts back to exactly the raw balance |
| Units.ParseFormatRoundTrip | index.js:67 | converting an amount to base units and formatting it back gives the same value |
| Units.ParseDecimalText | index.js:116 | reads digits with an optional '.' and fraction; a text that reads has a digit at every position except the first '.', so a text such as "1.x" is refused; a text without '.' reads as a whole number of digits; the value read is stated by `ParseDigitsText` and `ParseFractionText` |
| Units.ParseDigitsText | index.js:116 | a nonempty digit string, leading zeros included ("020"), reads as the whole number it denotes |
| Units.ParseFractionText | index.js:116 | digits `a`, a '.' and digits `f` (at least one digit in all, so ".5" and "00.5" too) read as the decimal with mantissa value(a) × 10^|f| + value(f) and |f| fraction digits |
| Units.DigitsValueAppend | index.js:116 | the value of two digit strings written one after the other is the first shifted by the length of the second, plus the second |
| Units.ParseNatText | index.js:116 | a whole number written in decimal reads back as itself with no fraction digits |
| EnvConfig.MissingVars | index.js:183 | a name is in the result if and only if it is a required name whose variable is unset, empty, or contains `YOUR_` or `your_`; the result is never longer than the input |
| EnvConfig.MissingVarsAppend | index.js:183 | the filter keeps the order of the names: filtering a concatenation concatenates the filtered parts |
| EnvConfig.MissingVarsSingle | index.js:183 | one name is kept exactly when it is missing |
| EnvConfig.StartupDecision | index.js:182-190 | `main` exits with status 1, listing the missing names (a nonempty list), if and only if some required variable is missing; otherwise it goes on |
| Transfer.StepsIndex | index.js:86-129 | the step sequence of a call log has the log's length and names each call's kind in order |
| Transfer.EstimatedGas | index.js:101-108 | the gas estimate when it succeeds, 150000 when estimation throws |
| Transfer.GasLimit | index.js:111 | the limit is at least the estimate, and is the largest integer not above estimate × 120 / 100 |
| Transfer.GasLimitExamples | index.js:107-111 | the fallback 150000 gives a limit of 180000; 100000 gives 120000 |
| Transfer.GasLimitMonotone | index.js:111 | a larger estimate never gives a smaller limit |
| Transfer.ConfiguredGwei | index.js:116 | `GAS_PRICE_GWEI` when it is set and nonempty, "20" otherwise |
| Transfer.GweiToWei | index.js:116 | a successful conversion reads the text as a decimal and scales it exactly by 10^9; a text that does not read as a decimal is refused; a decimal that converts exactly always succeeds |
| Transfer.GweiTextToWei | index.js:116 | a gwei text that reads as a decimal with at most nine fraction digits converts to that value times 10^9 wei |
| Transfer.GasPriceOneAndAHalf | index.js:116 | `GAS_PRICE_GWEI=1.5` gives 1500000000 wei |
| Transfer.SelectGasPrice | index.js:115-116 | a truthy (present and nonzero) network gas price is used as is; otherwise the configured gwei price converted to wei |
| Transfer.DefaultGasPrice | index.js:116 | with no usable network price and nothing configured, the price is exactly 20000000000 wei (20 gwei) |
| Transfer.ConfiguredGasPrice | index.js:116 | a whole number of gwei configured in `GAS_PRICE_GWEI` becomes that number times 10^9 wei |
| Transfer.ErrorHint | index.js:144-151 | the gas hint exactly when the message contains "intrinsic gas too low"; the funds hint exactly when it contains "insufficient funds" but not the gas phrase; no hint otherwise |
| Transfer.NoHintWithoutLetters | index.js:144-151 | a message lacking the letters 'g' and 'd' gets no hint |
| Transfer.InsufficientBalanceHasNoHint | index.js:96 | the script's own "Insufficient token balance" error gets no hint |
| Transfer.FundsHintInContext | index.js:148 | "insufficient funds" anywhere in a node message (without the gas phrase) gives the funds hint |
| Transfer.TargetAddress | index.js:63 | an absent or empty address selects the wallet's own address; any other address is used |
| Transfer.BalanceQuery | index.js:61-75 | `balanceOf(target)` is called first and `getTokenInfo` second, only once the balance is read; each error is rethrown unchanged; when both reads succeed the query succeeds; a result carries the raw balance, the token info, and a formatted value that converts back to the raw balance |
| Transfer.SubmitTransfer | index.js:99-138 | the estimate and fee-data calls are always made, since an estimate failure is absorbed; the transfer is submitted exactly when the fee data and gas price are available, with the recipient, the amount, the buffered limit and the selected price; the wait for 2 confirmations happens exactly after a successful submission, and its outcome is the result; a run that stops earlier throws |
| Transfer.SubmitTransferErrors | index.js:115-123 | a stage that stops throws the error of the step where it stopped, with that step's message: the fee-data read's, the gas-price conversion's, or the node's rejection of the submitted transaction |
| Transfer.CheckedTransfer | index.js:93-97 | the wallet's own balance is read first; the rest runs exactly when the balance covers the amount; a lower balance ends the attempt with "Insufficient token balance" and a failed read with its own error |
| Transfer.TransferStepsStages | index.js:85-97 | token info comes first; a token-info error, or an amount with nonzero digits beyond the token's decimals, ends the attempt right there; otherwise the balance-checked rest runs with the converted amount |
| Transfer.CoveredRunFollowsProtocol | index.js:86-129 | token info and balance followed by the submission stage's calls keep the protocol order |
| Transfer.TransferFollowsProtocol | index.js:78-138 | for every node behaviour, the calls follow the order token info, balance, estimate, fee data, submit, wait as a prefix; no run stops right after the estimate; a receipt is returned only after `wait(2)` as the sixth call |
| Transfer.TransferSteps | index.js:85-138 | the `try` block as calls and outcome; its stages are stated by `TransferStepsStages` and its order by `TransferFollowsProtocol` |
| Transfer.SubmissionErrorReachesCaller | index.js:120-153 | when the node rejects a covered, priced transfer, the attempt throws that error with its own message, and the hint is the one for that message |
| Transfer.FeeDataErrorAborts | index.js:115 | a failed fee-data read ends a covered transfer after four calls with the node's error; the configured price does not stand in for it |
| Transfer.CaughtHint | index.js:140-153 | a thrown error gets the hint of its message; a success gets none |
| Transfer.InsufficientBalanceNeverSubmits | index.js:94-97 | when the balance is below the amount, the only calls are token info and the balance read; nothing is estimated or submitted; the error is "Insufficient token balance" |
| Transfer.EstimateFailureUsesFallback | index.js:105-111 | when estimation throws and the transfer goes ahead, it is submitted with a gas limit of 180000 |
| Transfer.SubmittedGasCoversEstimate | index.js:103-121 | a submitted gas limit is never below a successful estimate |
| Transfer.BalanceScenarios | index.js:89-97 | with 2 decimals and an amount of 4.00, a balance of 500 goes on to estimate 400 base units, and a balance of 300 stops with the balance error after two calls |
| Transfer.TokenTransfer.constructor | index.js:13-19 | the URL and the wallet and token addresses are fixed; the call log starts empty |
| Transfer.TokenTransfer.GetTokenInfo | index.js:46-59 | records one token-info call and returns the node's answer or rethrows its error |
| Transfer.TokenTransfer.GetBalance | index.js:61-76 | appends to the log exactly the calls of `BalanceQuery` and returns its result |
| Transfer.TokenTransfer.AttemptTransfer | index.js:85-138 | appends exactly the calls of `TransferSteps` and returns its result |
| Transfer.TokenTransfer.TransferIfCovered | index.js:93-97 | appends exactly the calls of `CheckedTransfer` and returns its result |
| Transfer.TokenTransfer.SubmitWithGas | index.js:99-138 | appends exactly the calls of `SubmitTransfer` and returns its result; the estimate variable is set in the `try` or the `catch` |
| Transfer.TokenTransfer.TransferTokens | index.js:78-155 | appends exactly the calls of `TransferSteps`; the error of a failed attempt is rethrown unchanged; the hint is the one for that error |
| SetupCheck.ClassifyVar | test-setup.js:21-31 | "not set" exactly when the variable is unset or empty; "set" exactly when the transfer script would not list it as missing |
| SetupCheck.CheckRequiredVars | test-setup.js:17-32 | one status per name, in order; the flag stays true exactly when every name is set and free of placeholders, and exactly when the transfer script's `missingVars` would be empty for the same names |
| SetupCheck.AllSetIffNoneMissing | test-setup.js:20-32 | every name passes test 2 exactly when the `missingVars` filter of index.js:183 is empty |
| SetupCheck.MatchHexRunIff | test-setup.js:55 | `[a-fA-F0-9]{n}$` matches exactly the texts of n hex digits |
| SetupCheck.KeyPatternIff | test-setup.js:55 | `/^0x[a-fA-F0-9]{64}$/` accepts exactly texts of 66 characters: "0x" and 64 hex digits |
| SetupCheck.PlaceholderKeyNeverMatches | test-setup.js:55 | a key containing "YOUR_" never has the key format |
| SetupCheck.AdvisedKeyNeverMatches | test-setup.js:55 | a key of 64 hex digits without "0x", as the summary advises at line 94, is always reported invalid |
| SetupCheck.CorrectedAdviceMatches | test-setup.js:55 | a key written as "0x" and 64 hex digits (the advice corrected) follows it exactly when the format test accepts it |
| SetupCheck.PrivateKeyCheck | test-setup.js:53-63 | skipped exactly when `PRIVATE_KEY` is unset, empty or contains "your_"; otherwise the format is valid exactly for the key shape, and a wallet derivation is attempted exactly for a valid format |
| SetupCheck.UpperPlaceholderKeyIsTested | test-setup.js:53-58 | a key with "YOUR_" but no "your_" is format-tested, reported invalid and no wallet is derived, while test 2 reports it as a placeholder |
| SetupCheck.AddressCheck | test-setup.js:37-45 | an address is checked exactly when it is set and does not contain "YOUR_", and the result is what `isAddress` answers |
| SetupCheck.RpcUrlCheck | test-setup.js:72-80 | skipped unless the URL is set and does not contain "YOUR_"; valid exactly when it passes that guard and parses |
| SetupCheck.LowerPlaceholderPassesGuard | test-setup.js:37 | a value with only the lower-case "your_" passes the guard of tests 3 and 5, although test 2 reports it as a placeholder |
| SetupCheck.SetVarPassesGuard | test-setup.js:42 | every value that passes test 2 also passes the guard of tests 3 and 5 |
| SetupCheck.RunSetupTest | test-setup.js:17-97 | the report holds the per-variable statuses, both address checks, the key check and the URL check; the summary is "all passed" exactly when no required variable is missing, which is exactly when `main` of index.js goes on; the outcomes of tests 3 to 5 do not affect it |

## Left out

- RPC traffic, provider/wallet/contract construction (`setupProvider`, index.js:21-44): the node's answers are inputs (`Network`). Construction failure and its `process.exit(1)` are not modelled.
- `process.exit(1)` in `main` is the `Exit(1, …)` value of `StartupDecision`. The rest of `main` is a demonstration sequence of the modelled methods and is not modelled: network info, balances, a transfer of 1 token, balances again.
- `Promise.all` in `getTokenInfo`: the three metadata reads are one call with one answer.
- Units.ParseUnits: the ethers library code is not part of this model. The model uses exact integer stand-ins for `parseUnits` and `formatUnits`. They do not model the library's text grammar, negative amounts or its error wording. `FormatUnits` returns an exact decimal value, not the rendered string.
- Transfer.GweiToWei: reads only digits with an optional fraction. Signs, exponents and whitespace in `GAS_PRICE_GWEI` are not modelled.
- `amount.toString()` on a JavaScript Number: the amount is an exact `Decimal`. Floating-point formatting is not modelled.
- `ethers.isAddress`, `new URL(...)` and `new ethers.Wallet(...)`: their outcomes are the `Answers` parameters of `RunSetupTest`.
- Console output, including the formatted gas price and the receipt fields printed after confirmation, is not modelled.
- Test 1 of test-setup.js (the ethers version) is not modelled.
- `getNetworkInfo` (index.js:157-173) is diagnostics only.
- example.js and test-gas.js re-run the same methods and repeat the gas formula.
- A bounded wait for confirmations is not modelled: the wait is one answer of the node.
- The code has no transfer-event history query and no read-only contract binding, so there is nothing of them to model.
- `GAS_LIMIT` is named in a hint message but never read, so it is not modelled.

## Findings

| source | as written | input that shows it | evidently intended | confidence | as-written member | corrected member |
|---|---|---|---|---|---|---|
| test-setup.js:94 with test-setup.js:55 | the failure summary tells the user to set the private key "without 0x prefix", but the format test accepts only keys that start with "0x" | any 64-hex-digit key, such as 64 times '1' | advise the "0x" form that the format test checks for | medium (not executed) | SetupCheck.AdvisedKeyNeverMatches | SetupCheck.CorrectedAdviceMatches |
