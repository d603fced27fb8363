/**
 The action's input loader (`Load` in main.go). The GitHub Actions runtime is
 abstracted as a lookup from input name to value, where an input that was not
 given reads as the empty string.
 */
module Loader {
  import opened Results
  import opened Strconv

  /** The action's `with:` configuration as the runtime hands it over. */
  type Env = map<string, string>

  /** `act.GetInput(name)`: the value of an input, "" when it is not set. */
  function GetInput(env: Env, name: string): string {
    if name in env then env[name] else ""
  }

  /** The ten inputs Load reads; every other input is ignored. */
  const InputNames: set<string> :=
    {"url", "amount", "tx-mode", "baseline", "allow-dirty",
     "dir", "cloud-dir", "cloud-token", "cloud-url", "cloud-tag"}

  /** The accepted transaction modes. */
  const TxModes: set<string> := {"all", "none", "file"}

  /** The cloud-backed migration directory settings. */
  datatype Cloud = Cloud(dir: string, token: string, url: string, tag: string)

  /** The validated configuration record. */
  datatype Input = Input(
    url: string,
    amount: uint64,
    txMode: string,
    baseline: string,
    allowDirty: bool,
    dir: string,
    revisionsSchema: string,
    cloud: Cloud)

  /** One kind per error return of Load, in the order Load checks them. */
  datatype LoadError =
    | UrlRequired
    | InvalidAmount(cause: NumError)
    | InvalidTxMode(txMode: string)
    | InvalidAllowDirty(allowDirty: string)
    | DirAndCloudDirExclusive
    | CloudTokenRequired

  /** What every record Load returns satisfies. */
  predicate ValidInput(i: Input) {
    && i.url != ""
    && (i.txMode == "" || i.txMode in TxModes)
    && !(i.dir != "" && i.cloud.dir != "")
    && (i.cloud.dir != "" ==> i.cloud.token != "")
    && i.revisionsSchema == ""
  }

  /** The first check, in Load's order, that the inputs fail; None when all pass. */
  function FirstError(env: Env): Option<LoadError> {
    var amount := GetInput(env, "amount");
    var txMode := GetInput(env, "tx-mode");
    var allowDirty := GetInput(env, "allow-dirty");
    var dir := GetInput(env, "dir");
    var cloudDir := GetInput(env, "cloud-dir");
    if GetInput(env, "url") == "" then Some(UrlRequired)
    else if amount != "" && ParseUint10(amount).Failure? then Some(InvalidAmount(ParseUint10(amount).error))
    else if txMode != "" && txMode !in TxModes then Some(InvalidTxMode(txMode))
    else if allowDirty != "" && ParseBoolLower(allowDirty).Failure? then Some(InvalidAllowDirty(allowDirty))
    else if dir != "" && cloudDir != "" then Some(DirAndCloudDirExclusive)
    else if cloudDir != "" && GetInput(env, "cloud-token") == "" then Some(CloudTokenRequired)
    else None
  }

  /** The record the inputs describe, each field at its default when its input is empty. */
  function RecordOf(env: Env): Input
    requires FirstError(env).None?
  {
    var amount := GetInput(env, "amount");
    var allowDirty := GetInput(env, "allow-dirty");
    Input(
      url := GetInput(env, "url"),
      amount := if amount == "" then 0 else ParseUint10(amount).value,
      txMode := GetInput(env, "tx-mode"),
      baseline := GetInput(env, "baseline"),
      allowDirty := allowDirty != "" && ParseBoolLower(allowDirty).value,
      dir := GetInput(env, "dir"),
      revisionsSchema := "",
      cloud := Cloud(
        dir := GetInput(env, "cloud-dir"),
        token := GetInput(env, "cloud-token"),
        url := GetInput(env, "cloud-url"),
        tag := GetInput(env, "cloud-tag")))
  }

  /** Specification of Load: the first failing check, or the record. */
  function LoadResult(env: Env): (r: Result<Input, LoadError>)
    ensures r.Success? ==> ValidInput(r.value)
    ensures r.Failure? <==> FirstError(env).Some?
  {
    if FirstError(env).Some? then Failure(FirstError(env).value) else Success(RecordOf(env))
  }

  /**
   Load: allocates a record holding the url, then checks and fills the other
   fields one after another, returning at the first failed check.
   */
  method Load(env: Env) returns (r: Result<Input, LoadError>)
    ensures r == LoadResult(env)
  {
    var i := Input(GetInput(env, "url"), 0, "", "", false, "", "", Cloud("", "", "", ""));
    if i.url == "" {
      return Failure(UrlRequired);
    }
    var amountIn := GetInput(env, "amount");
    if amountIn != "" {
      var a := ParseUint10(amountIn);
      if a.Failure? {
        return Failure(InvalidAmount(a.error));
      }
      i := i.(amount := a.value);
    }
    var txModeIn := GetInput(env, "tx-mode");
    if txModeIn != "" {
      if txModeIn !in TxModes {
        return Failure(InvalidTxMode(txModeIn));
      }
      i := i.(txMode := txModeIn);
      // The source assigns the field a second time from a fresh lookup of the same input.
      i := i.(txMode := GetInput(env, "tx-mode"));
    }
    i := i.(baseline := GetInput(env, "baseline"));
    var allowDirtyIn := GetInput(env, "allow-dirty");
    if allowDirtyIn != "" {
      var b := ParseBoolLower(allowDirtyIn);
      if b.Failure? {
        return Failure(InvalidAllowDirty(allowDirtyIn));
      }
      i := i.(allowDirty := b.value);
    }
    i := i.(dir := GetInput(env, "dir"));
    i := i.(cloud := i.cloud.(dir := GetInput(env, "cloud-dir")));
    if i.dir != "" && i.cloud.dir != "" {
      return Failure(DirAndCloudDirExclusive);
    }
    i := i.(cloud := i.cloud.(token := GetInput(env, "cloud-token")));
    if i.cloud.dir != "" && i.cloud.token == "" {
      return Failure(CloudTokenRequired);
    }
    i := i.(cloud := i.cloud.(url := GetInput(env, "cloud-url")));
    i := i.(cloud := i.cloud.(tag := GetInput(env, "cloud-tag")));
    return Success(i);
  }

  // ---------------------------------------------------------------------------
  // Properties of Load
  // ---------------------------------------------------------------------------

  /** Without a url nothing else is looked at: the result is the url error. */
  lemma UrlIsRequired(env: Env)
    ensures GetInput(env, "url") == "" <==> LoadResult(env) == Failure(UrlRequired)
  {
  }

  /** The amount input: empty means 0, otherwise a base-10 uint64 or an error. */
  lemma AmountIsParsed(env: Env)
    ensures var a := GetInput(env, "amount");
      LoadResult(env).Success? ==>
        if a == "" then LoadResult(env).value.amount == 0
        else AllDigits(a) && DecimalValue(a) <= MaxUint64 && LoadResult(env).value.amount as int == DecimalValue(a)
    ensures var a := GetInput(env, "amount");
      a != "" && !(AllDigits(a) && DecimalValue(a) <= MaxUint64) ==> LoadResult(env).Failure?
  {
    ParseUint10Outcome(GetInput(env, "amount"));
  }

  /** The tx-mode input: empty stays empty, one of the three modes is kept, anything else fails. */
  lemma TxModeIsChecked(env: Env)
    ensures var t := GetInput(env, "tx-mode");
      LoadResult(env).Success? ==>
        && (LoadResult(env).value.txMode == "" <==> t == "")
        && (t != "" ==> LoadResult(env).value.txMode == t && t in TxModes)
    ensures var t := GetInput(env, "tx-mode");
      t != "" && t !in TxModes ==> LoadResult(env).Failure?
  {
  }

  /** The allow-dirty input: empty is false, otherwise a case-insensitive boolean or an error. */
  lemma AllowDirtyIsParsed(env: Env)
    ensures var d := GetInput(env, "allow-dirty");
      LoadResult(env).Success? ==>
        && (d == "" ==> !LoadResult(env).value.allowDirty)
        && (d != "" ==> (ToLower(d) in TrueTokens || ToLower(d) in FalseTokens))
        && (d != "" ==> (LoadResult(env).value.allowDirty <==> ToLower(d) in TrueTokens))
    ensures var d := GetInput(env, "allow-dirty");
      d != "" && ToLower(d) !in TrueTokens && ToLower(d) !in FalseTokens ==> LoadResult(env).Failure?
  {
  }

  /** dir and cloud-dir never both survive, and cloud-dir never survives without cloud-token. */
  lemma DirectoryRules(env: Env)
    ensures GetInput(env, "dir") != "" && GetInput(env, "cloud-dir") != "" ==> LoadResult(env).Failure?
    ensures GetInput(env, "cloud-dir") != "" && GetInput(env, "cloud-token") == "" ==> LoadResult(env).Failure?
    ensures LoadResult(env).Success? ==>
      && !(LoadResult(env).value.dir != "" && LoadResult(env).value.cloud.dir != "")
      && (LoadResult(env).value.cloud.dir != "" ==> LoadResult(env).value.cloud.token != "")
  {
  }

  /** The string fields are the inputs verbatim, and the revisions schema is never set. */
  lemma FieldsAreCopied(env: Env)
    requires LoadResult(env).Success?
    ensures var i := LoadResult(env).value;
      && i.url == GetInput(env, "url")
      && i.baseline == GetInput(env, "baseline")
      && i.dir == GetInput(env, "dir")
      && i.cloud == Cloud(GetInput(env, "cloud-dir"), GetInput(env, "cloud-token"),
                          GetInput(env, "cloud-url"), GetInput(env, "cloud-tag"))
      && i.revisionsSchema == ""
  {
  }

  /** Load succeeds exactly when every one of its checks passes. */
  lemma SuccessIff(env: Env)
    ensures var a := GetInput(env, "amount");
      var t := GetInput(env, "tx-mode");
      var d := GetInput(env, "allow-dirty");
      var dir := GetInput(env, "dir");
      var cloudDir := GetInput(env, "cloud-dir");
      LoadResult(env).Success? <==>
        && GetInput(env, "url") != ""
        && (a == "" || (AllDigits(a) && DecimalValue(a) <= MaxUint64))
        && (t == "" || t in TxModes)
        && (d == "" || ToLower(d) in TrueTokens || ToLower(d) in FalseTokens)
        && !(dir != "" && cloudDir != "")
        && (cloudDir != "" ==> GetInput(env, "cloud-token") != "")
  {
    ParseUint10Outcome(GetInput(env, "amount"));
  }

  // Each error kind below is characterised by the inputs alone: the checks
  // before it pass and its own check fails. Together they fix the order in
  // which Load runs its checks.

  /** The amount input passes its check: empty, or a base-10 uint64. */
  predicate AmountAccepted(env: Env) {
    GetInput(env, "amount") == "" || ParseUint10(GetInput(env, "amount")).Success?
  }

  /** The tx-mode input passes its check: empty, or one of the three modes. */
  predicate TxModeAccepted(env: Env) {
    GetInput(env, "tx-mode") == "" || GetInput(env, "tx-mode") in TxModes
  }

  /** The allow-dirty input passes its check: empty, or a boolean once lowered. */
  predicate AllowDirtyAccepted(env: Env) {
    GetInput(env, "allow-dirty") == "" || ParseBoolLower(GetInput(env, "allow-dirty")).Success?
  }

  /** An amount error comes exactly when the url is given and the amount does not parse; it carries ParseUint's error. */
  lemma AmountErrorIff(env: Env)
    ensures (LoadResult(env).Failure? && LoadResult(env).error.InvalidAmount?) <==>
      GetInput(env, "url") != "" && !AmountAccepted(env)
    ensures LoadResult(env).Failure? && LoadResult(env).error.InvalidAmount? ==>
      LoadResult(env).error == InvalidAmount(ParseUint10(GetInput(env, "amount")).error)
  {
  }

  /** A tx-mode error comes exactly when url and amount pass and the mode is not one of the three; it carries the input. */
  lemma TxModeErrorIff(env: Env)
    ensures (LoadResult(env).Failure? && LoadResult(env).error.InvalidTxMode?) <==>
      GetInput(env, "url") != "" && AmountAccepted(env) && !TxModeAccepted(env)
    ensures LoadResult(env).Failure? && LoadResult(env).error.InvalidTxMode? ==>
      LoadResult(env).error == InvalidTxMode(GetInput(env, "tx-mode"))
  {
  }

  /** An allow-dirty error comes exactly when url, amount and tx-mode pass and the flag is not a boolean; it carries the input. */
  lemma AllowDirtyErrorIff(env: Env)
    ensures (LoadResult(env).Failure? && LoadResult(env).error.InvalidAllowDirty?) <==>
      GetInput(env, "url") != "" && AmountAccepted(env) && TxModeAccepted(env) && !AllowDirtyAccepted(env)
    ensures LoadResult(env).Failure? && LoadResult(env).error.InvalidAllowDirty? ==>
      LoadResult(env).error == InvalidAllowDirty(GetInput(env, "allow-dirty"))
  {
  }

  /** The mutual-exclusion error comes exactly when the four value checks pass and both directories are set. */
  lemma DirConflictErrorIff(env: Env)
    ensures LoadResult(env) == Failure(DirAndCloudDirExclusive) <==>
      && GetInput(env, "url") != "" && AmountAccepted(env) && TxModeAccepted(env) && AllowDirtyAccepted(env)
      && GetInput(env, "dir") != "" && GetInput(env, "cloud-dir") != ""
  {
  }

  /** The missing-token error comes exactly when every earlier check passes, cloud-dir is set and cloud-token is not. */
  lemma CloudTokenErrorIff(env: Env)
    ensures LoadResult(env) == Failure(CloudTokenRequired) <==>
      && GetInput(env, "url") != "" && AmountAccepted(env) && TxModeAccepted(env) && AllowDirtyAccepted(env)
      && !(GetInput(env, "dir") != "" && GetInput(env, "cloud-dir") != "")
      && GetInput(env, "cloud-dir") != "" && GetInput(env, "cloud-token") == ""
  {
  }

  /** Inputs other than the ten Load reads have no effect on it. */
  lemma {:induction false} OnlyNamedInputsMatter(env1: Env, env2: Env)
    requires forall name :: name in InputNames ==> GetInput(env1, name) == GetInput(env2, name)
    ensures LoadResult(env1) == LoadResult(env2)
  {
    assert "url" in InputNames && "amount" in InputNames && "tx-mode" in InputNames;
    assert "baseline" in InputNames && "allow-dirty" in InputNames && "dir" in InputNames;
    assert "cloud-dir" in InputNames && "cloud-token" in InputNames;
    assert "cloud-url" in InputNames && "cloud-tag" in InputNames;
  }
}
