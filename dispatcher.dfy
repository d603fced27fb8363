/**
 The run dispatcher (`Run` in main.go): it turns a loaded Input into the
 parameters of the external client's apply operation and hands them to that
 client. The client, and the temporary file that holds the rendered cloud
 configuration, are parameters of the model.
 */
module Dispatcher {
  import opened Results
  import opened Strconv
  import opened Loader

  /** The URL scheme the external client expects for a local migration directory. */
  const FileScheme: string := "file://"

  /** The execution environment named in the rendered cloud configuration. */
  const CloudEnv: string := "atlas"

  /** The fields of the client's apply parameters that the action sets. */
  datatype ApplyParams = ApplyParams(
    url: string,
    amount: uint64,
    txMode: string,
    baselineVersion: string,
    dirUrl: string,
    configUrl: string,
    env: string)

  /**
   The report the client returns. Only the length of the two file lists is
   used, so each file is represented by its name.
   */
  datatype ApplyReport = ApplyReport(
    error: string,
    current: string,
    target: string,
    pending: seq<string>,
    applied: seq<string>)

  /** The external apply operation: the report, or the error the client returned. */
  type ApplyClient = ApplyParams -> Result<ApplyReport, string>

  /**
   The parameters the dispatcher builds for an input. `configPath` is the path
   of the temporary file holding the rendered cloud configuration; it is only
   used when a cloud directory is configured.
   */
  function ParamsFor(i: Input, configPath: string): (p: ApplyParams)
    ensures p.url == i.url && p.amount == i.amount && p.txMode == i.txMode && p.baselineVersion == i.baseline
    ensures p.dirUrl != "" <==> i.dir != ""
    ensures i.dir != "" ==> |p.dirUrl| > |FileScheme| && p.dirUrl[..|FileScheme|] == FileScheme
                            && p.dirUrl[|FileScheme|..] == i.dir
    ensures p.configUrl == (if i.cloud.dir != "" then configPath else "")
    ensures p.env == (if i.cloud.dir != "" then CloudEnv else "")
  {
    ApplyParams(
      url := i.url,
      amount := i.amount,
      txMode := i.txMode,
      baselineVersion := i.baseline,
      dirUrl := if i.dir != "" then FileScheme + i.dir else "",
      configUrl := if i.cloud.dir != "" then configPath else "",
      env := if i.cloud.dir != "" then CloudEnv else "")
  }

  /**
   Run: fills the parameters field by field, then calls the client once and
   returns what it returns, error included.
   */
  method Run(i: Input, configPath: string, apply: ApplyClient) returns (r: Result<ApplyReport, string>)
    ensures r == apply(ParamsFor(i, configPath))
  {
    var params := ApplyParams(i.url, i.amount, i.txMode, i.baseline, "", "", "");
    if i.dir != "" {
      params := params.(dirUrl := FileScheme + i.dir);
    }
    if i.cloud.dir != "" {
      params := params.(configUrl := configPath);
      params := params.(env := CloudEnv);
    }
    r := apply(params);
  }

  // ---------------------------------------------------------------------------
  // Properties of the parameter mapping
  // ---------------------------------------------------------------------------

  /** The cloud configuration file and the "atlas" environment are used exactly when a cloud directory is set. */
  lemma CloudConfigIff(i: Input, configPath: string)
    requires configPath != ""
    ensures var p := ParamsFor(i, configPath);
      && (p.env == CloudEnv <==> i.cloud.dir != "")
      && (p.env != CloudEnv ==> p.env == "")
      && (p.configUrl != "" <==> i.cloud.dir != "")
      && (p.configUrl != "" ==> p.configUrl == configPath)
  {
  }

  /** allow-dirty and the revisions schema are validated but never passed on to the client. */
  lemma NotForwarded(i: Input, configPath: string, allowDirty: bool, revisionsSchema: string)
    ensures ParamsFor(i.(allowDirty := allowDirty, revisionsSchema := revisionsSchema), configPath)
         == ParamsFor(i, configPath)
  {
  }

  /** For a loaded input the client gets at most one migration directory source. */
  lemma OneDirectorySource(i: Input, configPath: string)
    requires ValidInput(i)
    ensures var p := ParamsFor(i, configPath);
      !(p.dirUrl != "" && p.configUrl != "") && !(p.dirUrl != "" && p.env != "")
  {
  }

  /** Loading and mapping together: the parameters are read straight off the inputs. */
  lemma {:induction false} LoadedParams(env: Env, configPath: string)
    requires LoadResult(env).Success?
    ensures var p := ParamsFor(LoadResult(env).value, configPath);
      && p.url == GetInput(env, "url")
      && p.baselineVersion == GetInput(env, "baseline")
      && p.txMode == GetInput(env, "tx-mode")
      && (p.dirUrl == if GetInput(env, "dir") == "" then "" else FileScheme + GetInput(env, "dir"))
      && (GetInput(env, "amount") == "" ==> p.amount == 0)
      && (GetInput(env, "amount") != "" ==>
            AllDigits(GetInput(env, "amount")) && p.amount as int == DecimalValue(GetInput(env, "amount")))
      && (p.configUrl == if GetInput(env, "cloud-dir") == "" then "" else configPath)
      && (p.env == if GetInput(env, "cloud-dir") == "" then "" else CloudEnv)
      && !(p.dirUrl != "" && p.configUrl != "")
  {
    FieldsAreCopied(env);
    AmountIsParsed(env);
    TxModeIsChecked(env);
  }
}
