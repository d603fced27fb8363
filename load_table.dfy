/**
 The cases of the loader's table-driven test, stated against the model. The
 environment is keyed by input name; the runtime's `INPUT_<NAME>` variable
 naming is not part of the model. Where the test only asks for an error, the
 lemma also names which one.
 */
module LoadTable {
  import opened Results
  import opened Strconv
  import opened Loader

  const NoCloud: Cloud := Cloud("", "", "", "")

  lemma MissingUrl()
    ensures LoadResult(map[]) == Failure(UrlRequired)
  {
  }

  lemma ValidInputs()
    ensures LoadResult(map["url" := "sqlite://file.db", "amount" := "1", "tx-mode" := "all",
                           "baseline" := "1234", "allow-dirty" := "true"])
         == Success(Input("sqlite://file.db", 1, "all", "1234", true, "", "", NoCloud))
  {
    var env := map["url" := "sqlite://file.db", "amount" := "1", "tx-mode" := "all",
                    "baseline" := "1234", "allow-dirty" := "true"];
    assert DecimalValue("1") == 1 by { assert "1"[..0] == []; }
    ParseUint10Outcome("1");
    assert ParseUint10(GetInput(env, "amount")) == Success(1);
    assert ToLower("true") == "true";
    assert ParseBoolLower(GetInput(env, "allow-dirty")) == Success(true);
  }

  /** `count` is not an input Load reads, and "invalid" is not a transaction mode. */
  lemma IllegalTxMode()
    ensures LoadResult(map["url" := "sqlite://file.db", "count" := "1", "tx-mode" := "invalid",
                           "baseline" := "1234", "allow-dirty" := "true"])
         == Failure(InvalidTxMode("invalid"))
  {
  }

  lemma InvalidDirty()
    ensures LoadResult(map["url" := "sqlite://file.db", "allow-dirty" := "notABool"])
         == Failure(InvalidAllowDirty("notABool"))
  {
    var env := map["url" := "sqlite://file.db", "allow-dirty" := "notABool"];
    assert GetInput(env, "amount") == "" && GetInput(env, "tx-mode") == "";
    assert ParseBoolLower(GetInput(env, "allow-dirty")).Failure? by {
      assert |ToLower("notABool")| == 8;
    }
    assert FirstError(env) == Some(InvalidAllowDirty("notABool"));
  }

  lemma InvalidAmountInput()
    ensures LoadResult(map["url" := "sqlite://file.db", "amount" := "notAnInt"])
         == Failure(InvalidAmount(ErrSyntax))
  {
  }

  lemma DirAndCloudDirExclusion()
    ensures LoadResult(map["url" := "sqlite://file.db", "dir" := "dir", "cloud-dir" := "cloud-dir"])
         == Failure(DirAndCloudDirExclusive)
  {
  }

  lemma DirOnly()
    ensures LoadResult(map["url" := "sqlite://file.db", "dir" := "dir"])
         == Success(Input("sqlite://file.db", 0, "", "", false, "dir", "", NoCloud))
  {
  }

  lemma CloudDirNoToken()
    ensures LoadResult(map["url" := "sqlite://file.db", "cloud-dir" := "dir"])
         == Failure(CloudTokenRequired)
  {
  }

  lemma CloudDirToken()
    ensures LoadResult(map["url" := "sqlite://file.db", "cloud-dir" := "dir", "cloud-token" := "token"])
         == Success(Input("sqlite://file.db", 0, "", "", false, "", "", Cloud("dir", "token", "", "")))
  {
  }
}
