/** Environment configuration as the scripts read it from `process.env`
    (loaded from `.env`), and the start-up validation in `main` of index.js. */
module EnvConfig {
  import opened Text

  /** The process environment: a variable is either absent or holds a string. */
  type Env = map<string, string>

  /** `process.env[name]`, with an absent variable read as "" (both are falsy
      in JavaScript and every use in the scripts tests truthiness first). */
  function Lookup(env: Env, name: string): (v: string)
    ensures name !in env ==> v == ""
    ensures name in env ==> v == env[name]
  {
    if name in env then env[name] else ""
  }

  /** `process.env[name]` is truthy: defined and not empty. */
  predicate IsSet(env: Env, name: string)
  {
    Lookup(env, name) != ""
  }

  /** The value still holds a template placeholder (`YOUR_...` or `your_...`). */
  predicate HasPlaceholder(v: string)
  {
    Contains(v, "YOUR_") || Contains(v, "your_")
  }

  /** The filter condition of `missingVars`: unset, empty or a placeholder. */
  predicate IsMissing(env: Env, name: string)
  {
    !IsSet(env, name) || HasPlaceholder(Lookup(env, name))
  }

  /** `requiredEnvVars` of `main`. */
  const REQUIRED_ENV_VARS: seq<string> :=
    ["RPC_URL", "PRIVATE_KEY", "TOKEN_CONTRACT_ADDRESS", "RECIPIENT_ADDRESS"]

  /** `requiredEnvVars.filter(...)`: the names whose variable is missing or
      still a placeholder, in the order they are listed. */
  function MissingVars(env: Env, names: seq<string>): (missing: seq<string>)
    ensures |missing| <= |names|
    ensures forall n :: n in missing <==> n in names && IsMissing(env, n)
    decreases |names|
  {
    if names == [] then []
    else (if IsMissing(env, names[0]) then [names[0]] else []) + MissingVars(env, names[1..])
  }

  /** The filter distributes over concatenation: its output keeps the order
      of the input, and each name contributes itself or nothing. */
  lemma {:induction false} MissingVarsAppend(env: Env, a: seq<string>, b: seq<string>)
    ensures MissingVars(env, a + b) == MissingVars(env, a) + MissingVars(env, b)
    decreases |a|
  {
    if a != [] {
      var head := if IsMissing(env, a[0]) then [a[0]] else [];
      assert (a + b)[0] == a[0];
      assert (a + b)[1..] == a[1..] + b;
      assert MissingVars(env, a + b) == head + MissingVars(env, a[1..] + b);
      MissingVarsAppend(env, a[1..], b);
      assert MissingVars(env, a) == head + MissingVars(env, a[1..]);
    } else {
      assert a + b == b;
    }
  }

  /** A single name is kept exactly when it is missing. */
  lemma MissingVarsSingle(env: Env, n: string)
    ensures MissingVars(env, [n]) == if IsMissing(env, n) then [n] else []
  {
    assert [n][1..] == [];
  }

  /** Outcome of the validation step of `main`. */
  datatype Startup = Proceed | Exit(code: int, missing: seq<string>)

  /** `main` exits with status 1, listing the missing names, exactly when
      some required variable is missing; otherwise it goes on. */
  function StartupDecision(env: Env): (r: Startup)
    ensures r.Exit? <==> exists n :: n in REQUIRED_ENV_VARS && IsMissing(env, n)
    ensures r.Exit? ==> r.code == 1 && r.missing == MissingVars(env, REQUIRED_ENV_VARS)
                        && |r.missing| > 0
  {
    var missing := MissingVars(env, REQUIRED_ENV_VARS);
    if |missing| > 0 then Exit(1, missing) else Proceed
  }
}
