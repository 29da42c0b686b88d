/** The setup self-test (test-setup.js): the check of the required
    environment variables, the guards around the address, private-key and
    RPC URL checks, the private-key format test and the summary.

    What ethers answers (`isAddress`, `new Wallet`) and whether `new URL`
    accepts the RPC URL are given as parameters. */
module SetupCheck {
  import opened Wrappers
  import opened Text
  import opened EnvConfig

  // ---------------------------------------------------------------------
  // Test 2: environment variables

  /** What test 2 reports for one variable. */
  datatype VarStatus = NotSet | Placeholder | SetOk

  /** The status of one variable: not set (unset or empty), set but holding a
      placeholder, or set. A variable passes exactly when the start-up check
      of the transfer script would not list it as missing. */
  function ClassifyVar(env: Env, name: string): (r: VarStatus)
    ensures r == NotSet <==> !IsSet(env, name)
    ensures r == SetOk <==> !IsMissing(env, name)
  {
    if !IsSet(env, name) then NotSet
    else if HasPlaceholder(Lookup(env, name)) then Placeholder
    else SetOk
  }

  /** The `forEach` of test 2: one status per name, in order, and the flag
      `envTestPassed`, cleared by the first name that is not set or holds a
      placeholder and never set again. The flag ends up true exactly when
      the transfer script's `missingVars` filter is empty for the same names. */
  method CheckRequiredVars(env: Env, names: seq<string>) returns (passed: bool, statuses: seq<VarStatus>)
    ensures |statuses| == |names|
    ensures forall i :: 0 <= i < |names| ==> statuses[i] == ClassifyVar(env, names[i])
    ensures passed <==> forall i :: 0 <= i < |names| ==> statuses[i] == SetOk
    ensures passed <==> MissingVars(env, names) == []
  {
    passed := true;
    statuses := [];
    var i := 0;
    while i < |names|
      invariant 0 <= i <= |names|
      invariant |statuses| == i
      invariant forall j :: 0 <= j < i ==> statuses[j] == ClassifyVar(env, names[j])
      invariant passed <==> forall j :: 0 <= j < i ==> statuses[j] == SetOk
    {
      var name := names[i];
      var status: VarStatus;
      if IsSet(env, name) {
        var value := Lookup(env, name);
        if HasPlaceholder(value) {
          status := Placeholder;
          passed := false;
        } else {
          status := SetOk;
        }
      } else {
        status := NotSet;
        passed := false;
      }
      assert status == ClassifyVar(env, name);
      statuses := statuses + [status];
      i := i + 1;
    }
    AllSetIffNoneMissing(env, names);
  }

  /** Every name passes test 2 exactly when none is missing. */
  lemma AllSetIffNoneMissing(env: Env, names: seq<string>)
    ensures (forall i :: 0 <= i < |names| ==> ClassifyVar(env, names[i]) == SetOk)
            <==> MissingVars(env, names) == []
  {
    var missing := MissingVars(env, names);
    if missing != [] {
      assert missing[0] in missing;
    }
  }

  // ---------------------------------------------------------------------
  // Test 4: private key format

  predicate IsHexDigit(c: char)
  {
    '0' <= c <= '9' || 'a' <= c <= 'f' || 'A' <= c <= 'F'
  }

  /** `[a-fA-F0-9]{n}$`: exactly `n` hex digits and then the end of the text. */
  predicate MatchHexRun(s: string, n: nat)
    decreases n
  {
    if n == 0 then s == []
    else |s| > 0 && IsHexDigit(s[0]) && MatchHexRun(s[1..], n - 1)
  }

  /** `/^0x[a-fA-F0-9]{64}$/.test(key)`, read left to right. */
  predicate MatchesKeyPattern(key: string)
  {
    |key| >= 2 && key[0] == '0' && key[1] == 'x' && MatchHexRun(key[2..], 64)
  }

  /** The shape of a hex-encoded 32-byte private key: "0x" and 64 hex digits,
      66 characters in all (lower-case 'x' only). */
  predicate IsPrivateKeyShape(key: string)
  {
    |key| == 66 && key[..2] == "0x" && forall i :: 2 <= i < 66 ==> IsHexDigit(key[i])
  }

  lemma {:induction false} MatchHexRunIff(s: string, n: nat)
    ensures MatchHexRun(s, n) <==> |s| == n && forall i :: 0 <= i < |s| ==> IsHexDigit(s[i])
    decreases n
  {
    if n > 0 && |s| > 0 {
      MatchHexRunIff(s[1..], n - 1);
      assert forall i :: 1 <= i < |s| ==> s[i] == s[1..][i - 1];
    }
  }

  /** The pattern accepts exactly the keys of that shape. */
  lemma KeyPatternIff(key: string)
    ensures MatchesKeyPattern(key) <==> IsPrivateKeyShape(key)
  {
    if |key| >= 2 {
      MatchHexRunIff(key[2..], 64);
      assert forall i :: 2 <= i < |key| ==> key[i] == key[2..][i - 2];
      assert "0x" == ['0', 'x'];
      assert key[0] == key[..2][0] && key[1] == key[..2][1];
    }
  }

  /** A key still holding a "YOUR_" placeholder never has the key format. */
  lemma PlaceholderKeyNeverMatches(key: string)
    requires Contains(key, "YOUR_")
    ensures !MatchesKeyPattern(key)
  {
    var i := ContainsWitness(key, "YOUR_");
    assert key[i] == key[i..i + 5][0] == 'Y';
    KeyPatternIff(key);
  }

  /** A key written as the failure summary advises: "without 0x prefix",
      that is, the 64 hex digits alone. */
  predicate KeyAsAdvised(key: string)
  {
    |key| == 64 && forall i :: 0 <= i < |key| ==> IsHexDigit(key[i])
  }

  /** The advice the format test calls for: the 64 hex digits after "0x". */
  predicate KeyAsAdvisedCorrected(key: string)
  {
    |key| == 66 && key[..2] == "0x" && KeyAsAdvised(key[2..])
  }

  /** Every key that follows the summary's advice is reported invalid. */
  lemma AdvisedKeyNeverMatches(key: string)
    requires KeyAsAdvised(key)
    ensures !MatchesKeyPattern(key)
  {
    KeyPatternIff(key);
  }

  /** With the advice corrected, a key follows it exactly when the format
      test accepts it. */
  lemma CorrectedAdviceMatches(key: string)
    ensures KeyAsAdvisedCorrected(key) <==> MatchesKeyPattern(key)
  {
    KeyPatternIff(key);
    if |key| == 66 {
      assert forall i :: 2 <= i < 66 ==> key[i] == key[2..][i - 2];
    }
  }

  /** Whether `new ethers.Wallet(key)` succeeds: well-formed keys can still be
      refused (zero, or not below the secp256k1 group order). */
  datatype WalletOutcome = WalletNotTried | WalletDerived | WalletRefused

  /** What test 4 reports. */
  datatype KeyCheck = KeySkipped | KeyChecked(formatValid: bool, wallet: WalletOutcome)

  /** Test 4: skipped (placeholder message) when PRIVATE_KEY is unset, empty
      or holds the lower-case "your_"; otherwise the format is tested, and a
      wallet derived only from a key of the right format. */
  function PrivateKeyCheck(env: Env, walletDerives: bool): (r: KeyCheck)
    ensures r == KeySkipped <==> !IsSet(env, "PRIVATE_KEY") || Contains(Lookup(env, "PRIVATE_KEY"), "your_")
    ensures r.KeyChecked? ==> (r.formatValid <==> IsPrivateKeyShape(Lookup(env, "PRIVATE_KEY")))
    ensures r.KeyChecked? ==> (r.wallet == WalletNotTried <==> !r.formatValid)
    ensures r.KeyChecked? && r.formatValid ==> (r.wallet == WalletDerived <==> walletDerives)
  {
    var key := Lookup(env, "PRIVATE_KEY");
    if key != "" && !Contains(key, "your_") then
      var formatValid := MatchesKeyPattern(key);
      KeyPatternIff(key);
      KeyChecked(formatValid,
                 if !formatValid then WalletNotTried
                 else if walletDerives then WalletDerived
                 else WalletRefused)
    else
      KeySkipped
  }

  /** The private-key guard looks for the lower-case placeholder only: a key
      holding "YOUR_" (and not "your_") is tested, reported invalid and no
      wallet is derived from it, while test 2 already flags it. */
  lemma UpperPlaceholderKeyIsTested(env: Env, walletDerives: bool)
    requires Contains(Lookup(env, "PRIVATE_KEY"), "YOUR_")
    requires !Contains(Lookup(env, "PRIVATE_KEY"), "your_")
    ensures PrivateKeyCheck(env, walletDerives) == KeyChecked(false, WalletNotTried)
    ensures ClassifyVar(env, "PRIVATE_KEY") == Placeholder
  {
    var key := Lookup(env, "PRIVATE_KEY");
    var i := ContainsWitness(key, "YOUR_");
    assert key != "";
    PlaceholderKeyNeverMatches(key);
    KeyPatternIff(key);
  }

  // ---------------------------------------------------------------------
  // Tests 3 and 5: addresses and RPC URL

  /** The guard of the address checks and of the RPC URL check: the
      variable is set and does not hold the upper-case "YOUR_". */
  predicate GuardPasses(env: Env, name: string)
  {
    IsSet(env, name) && !Contains(Lookup(env, name), "YOUR_")
  }

  /** Test 3 for one address: `Some(isAddress(value))` when the check runs. */
  function AddressCheck(env: Env, name: string, isAddress: bool): (r: Option<bool>)
    ensures r.Some? <==> GuardPasses(env, name)
    ensures r.Some? ==> r.value == isAddress
  {
    if GuardPasses(env, name) then Some(isAddress) else None
  }

  /** What test 5 reports. */
  datatype UrlCheck = UrlSkipped | UrlValid | UrlError

  /** Test 5: skipped (placeholder message) unless the RPC URL passes the
      guard; otherwise valid when `new URL` accepts it, and the caught error
      otherwise. */
  function RpcUrlCheck(env: Env, urlParses: bool): (r: UrlCheck)
    ensures r == UrlSkipped <==> !GuardPasses(env, "RPC_URL")
    ensures r == UrlValid <==> GuardPasses(env, "RPC_URL") && urlParses
  {
    if GuardPasses(env, "RPC_URL") then (if urlParses then UrlValid else UrlError) else UrlSkipped
  }

  /** A value with only the lower-case "your_" placeholder gets through the
      guard of tests 3 and 5, although test 2 reports it as a placeholder. */
  lemma LowerPlaceholderPassesGuard(env: Env, name: string)
    requires IsSet(env, name)
    requires Contains(Lookup(env, name), "your_") && !Contains(Lookup(env, name), "YOUR_")
    ensures GuardPasses(env, name)
    ensures ClassifyVar(env, name) == Placeholder
  {
  }

  /** A value that passes test 2 always passes the guard of tests 3 and 5. */
  lemma SetVarPassesGuard(env: Env, name: string)
    requires ClassifyVar(env, name) == SetOk
    ensures GuardPasses(env, name)
  {
  }

  // ---------------------------------------------------------------------
  // The whole self-test

  /** The answers of the environment to the checks the script delegates. */
  datatype Answers = Answers(
    contractIsAddress: bool,   // ethers.isAddress(TOKEN_CONTRACT_ADDRESS)
    recipientIsAddress: bool,  // ethers.isAddress(RECIPIENT_ADDRESS)
    walletDerives: bool,       // new ethers.Wallet(PRIVATE_KEY) does not throw
    urlParses: bool)           // new URL(RPC_URL) does not throw

  datatype SetupReport = SetupReport(
    statuses: seq<VarStatus>,
    contractAddress: Option<bool>,
    recipientAddress: Option<bool>,
    key: KeyCheck,
    rpcUrl: UrlCheck,
    allPassed: bool)

  /** The script from test 2 to the summary. The summary reports success
      exactly when no required variable is missing, the same condition under
      which `main` of the transfer script goes on; what tests 3 to 5 find
      (an invalid address, key or URL) does not change it. */
  method RunSetupTest(env: Env, answers: Answers) returns (report: SetupReport)
    ensures |report.statuses| == |REQUIRED_ENV_VARS|
    ensures forall i :: 0 <= i < |REQUIRED_ENV_VARS| ==>
              report.statuses[i] == ClassifyVar(env, REQUIRED_ENV_VARS[i])
    ensures report.contractAddress == AddressCheck(env, "TOKEN_CONTRACT_ADDRESS", answers.contractIsAddress)
    ensures report.recipientAddress == AddressCheck(env, "RECIPIENT_ADDRESS", answers.recipientIsAddress)
    ensures report.key == PrivateKeyCheck(env, answers.walletDerives)
    ensures report.rpcUrl == RpcUrlCheck(env, answers.urlParses)
    ensures report.allPassed <==> MissingVars(env, REQUIRED_ENV_VARS) == []
    ensures report.allPassed <==> StartupDecision(env) == Proceed
  {
    var envTestPassed, statuses := CheckRequiredVars(env, REQUIRED_ENV_VARS);
    var contract := AddressCheck(env, "TOKEN_CONTRACT_ADDRESS", answers.contractIsAddress);
    var recipient := AddressCheck(env, "RECIPIENT_ADDRESS", answers.recipientIsAddress);
    var key := PrivateKeyCheck(env, answers.walletDerives);
    var url := RpcUrlCheck(env, answers.urlParses);
    report := SetupReport(statuses, contract, recipient, key, url, envTestPassed);
  }
}
