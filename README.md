# atlas-deploy-action: input loading, parameter mapping and outputs

This project models the logic of the atlas-deploy-action GitHub Action, a thin adapter
that applies database schema migrations by calling the external `atlas` client. It covers
three parts:

- **Loader**: `Load` reads up to ten named inputs (`url`, `amount`, `tx-mode`,
  `baseline`, `allow-dirty`, `dir`, `cloud-dir`, `cloud-token`, `cloud-url`,
  `cloud-tag`). It checks them in a fixed order and returns either a validated
  `Input` record or the first error it meets.
- **Dispatcher**: `Run` maps the `Input` to the client's apply parameters and calls the
  client once. A local directory becomes a `file://` URL. A cloud directory switches to the
  rendered configuration file and the `atlas` environment.
- **Outputs**: `main` publishes the client's report as the five outputs `error`,
  `current`, `target`, `pending_count` and `applied_count`. The two counts are the
  base-10 renderings of the list lengths.

The library functions the loader and `main` call are modelled too: `strconv.ParseUint` with
base 10 and bit size 64, `strconv.ParseBool`, `strconv.Itoa`, and `strings.ToLower` restricted
to ASCII letters. `ParseUint10` follows strconv's left-to-right digit loop and is proved
against `ParseOutcome`, a reference definition that reads the result off the whole string.
`Itoa` is proved against the digit value. `Itoa` and `ParseUint10` are proved inverse on
numbers of at most 2^64-1 and on canonical digit strings of value at most 2^64-1
(`ItoaParses`, `ParseThenItoa`). That is why a published count reads back as the list length.
`ParseBool` is Go's table of spellings as it stands. What is proved is which inputs it accepts
once they have been lowered.

Files: `results.dfy` (Result and Option), `strconv.dfy`, `loader.dfy`, `dispatcher.dfy`,
`outputs.dfy`, and `load_table.dfy` (the cases of the loader's table test). The model has a
few interfaces to the outside:

- The runtime's input source is a `map<string, string>`; an unset input reads as `""`.
- The external apply client is a function parameter `ApplyClient`.
- The path of the temporary cloud configuration file is an opaque parameter `configPath`.
- The outputs come back as the ordered list of `SetOutput` calls.
- A fatal exit is the `Exit` value `LoadFailed` or `RunFailed`.

The code decides some points that are easy to get wrong:

- An empty `amount` gives `0`. There is no separate "unlimited" value.
- Only `amount` is read; `count` is ignored (the table test's "Illegal TxMode" case sets it).
- The local directory is always passed with the `file://` prefix.
- `allow-dirty` is validated but never passed to the client (`Dispatcher.NotForwarded`).

## Model

| member | source | states |
|---|---|---|
| `Strconv.ParseUint10` | main.go:72 | `strconv.ParseUint(s, 10, 64)`: an empty string is a syntax error, then strconv's digit loop runs. The result equals the reference outcome `ParseOutcome`, which reads it off the digit run before the first non-digit. |
| `Strconv.ParseUint10Outcome` | main.go:71-77 | `strconv.ParseUint(s, 10, 64)` (`ParseUint10`) succeeds exactly on a non-empty all-digit string whose value is at most 2^64-1, and then yields that value. The empty string is `ErrSyntax`. An all-digit string that is too large is `ErrRange`. The result always equals the reference outcome `ParseOutcome`. |
| `Strconv.ParseDigitsFromOutcome` | main.go:72 | strconv's digit loop, started anywhere within the leading digit run with the value read so far, ends in the reference outcome. An overflow is reported as soon as the digits before the first non-digit exceed 2^64-1, even when a syntax error follows. |
| `Strconv.ParseBoolLower` | main.go:89 | `strconv.ParseBool(strings.ToLower(s))` is true exactly when the lowered input is one of "1", "t", "true", and false exactly when it is one of "0", "f", "false". Any other input is `ErrSyntax`. The upper-case spellings ParseBool also knows can never be reached. |
| `Strconv.ParseBoolLowerIgnoresCase` | main.go:89 | Two inputs that differ only in the case of ASCII letters lower to the same string and parse to the same result. |
| `Strconv.ToLower` | main.go:89 | `strings.ToLower` on ASCII letters keeps the length and every character in place, lowering each upper-case letter. No upper-case letter is left in the result. |
| `Strconv.Itoa` | main.go:38-39 | `strconv.Itoa(n)` for n >= 0 is a canonical decimal string: non-empty, digits only, no leading zero unless it is "0". Its value is n. |
| `Strconv.ItoaParses` | main.go:38-39 | For n <= 2^64-1, ParseUint reads `Itoa(n)` back as n. |
| `Strconv.ParseThenItoa` | main.go:38-39 | A canonical digit string of value at most 2^64-1 is accepted by ParseUint, and Itoa renders the parsed value as the same string. |
| `Strconv.ItoaOfValue` | main.go:38-39 | Every canonical digit string is the `Itoa` rendering of its own value, so Itoa and the digit value are inverse on canonical strings. |
| `Loader.LoadResult` | main.go:64-107 | Specification of Load. It fails exactly when one of the checks fails, with that check's error. Every record it returns has a url, a transaction mode that is empty or one of all/none/file, not both `dir` and `cloud-dir`, a token whenever `cloud-dir` is set, and an empty revisions schema. |
| `Loader.Load` | main.go:64-107 | Load fills the record one field at a time and returns at the first failed check. Its result equals `LoadResult`. |
| `Loader.UrlIsRequired` | main.go:65-70 | An empty `url` gives the url error whatever the other inputs hold. A non-empty url never gives that error. |
| `Loader.AmountIsParsed` | main.go:71-77 | An empty `amount` gives 0. A non-empty one succeeds only if it is all digits with value <= 2^64-1, and the field is then that value. Any other non-empty amount makes Load fail. |
| `Loader.TxModeIsChecked` | main.go:78-86 | On success the transaction mode is empty exactly when the input is. A non-empty mode is one of all/none/file and equals the input. Any other non-empty value makes Load fail. |
| `Loader.AllowDirtyIsParsed` | main.go:88-94 | An empty `allow-dirty` gives false. A lowered 1/t/true gives true and 0/f/false gives false. Any other value makes Load fail. |
| `Loader.DirectoryRules` | main.go:95-103 | Inputs with both `dir` and `cloud-dir`, or with `cloud-dir` but no `cloud-token`, always fail. No successful record breaks either rule. |
| `Loader.FieldsAreCopied` | main.go:87-105 | On success, url, baseline, dir and the four cloud fields equal their inputs verbatim, and the revisions schema is empty. |
| `Loader.SuccessIff` | main.go:64-107 | Load succeeds if and only if all six checks pass. |
| `Loader.AmountErrorIff` | main.go:71-77 | Load fails with the amount error exactly when the url is present and a non-empty `amount` does not parse. The error carries ParseUint's own error for that input. |
| `Loader.TxModeErrorIff` | main.go:78-86 | Load fails with the tx-mode error exactly when the url and amount checks pass and a non-empty `tx-mode` is not one of all/none/file. The error carries the `tx-mode` input. |
| `Loader.AllowDirtyErrorIff` | main.go:88-94 | Load fails with the allow-dirty error exactly when the url, amount and tx-mode checks pass and a non-empty `allow-dirty` does not parse once lowered. The error carries the `allow-dirty` input as given. |
| `Loader.DirConflictErrorIff` | main.go:95-99 | Load fails with the mutual-exclusion error exactly when the url, amount, tx-mode and allow-dirty checks pass and both `dir` and `cloud-dir` are set. |
| `Loader.CloudTokenErrorIff` | main.go:100-103 | Load fails with the missing-token error exactly when all earlier checks pass, the directories do not clash, `cloud-dir` is set and `cloud-token` is empty. |
| `Loader.OnlyNamedInputsMatter` | main.go:64-107 | Two environments that agree on the ten inputs Load reads give the same result. Any other input, such as `count`, has no effect. |
| `Dispatcher.Run` | main.go:119-142 | Run builds the parameters field by field and returns the client's result for exactly `ParamsFor(i, configPath)`, error included. |
| `Dispatcher.ParamsFor` | main.go:119-141 | The url, amount, transaction mode and baseline version reach the client unchanged. The directory URL is set exactly when a local directory is; it then starts with `file://`, and stripping that prefix gives the directory back. The configuration file and the `atlas` environment are set when a cloud directory is, and are empty otherwise. |
| `Dispatcher.CloudConfigIff` | main.go:128-141 | For a non-empty configuration path, the path and the `atlas` environment are both set if and only if a cloud directory is set; otherwise both are empty. |
| `Dispatcher.NotForwarded` | main.go:119-141 | The parameters do not depend on `allowDirty` or `revisionsSchema`. |
| `Dispatcher.OneDirectorySource` | main.go:125-141 | For a validated input the client never gets both a directory URL and a cloud configuration. |
| `Dispatcher.LoadedParams` | main.go:64-141 | Loading followed by the mapping passes the url, baseline and tx-mode inputs through verbatim. The amount is 0 for an empty input and the parsed value otherwise. The directory URL is `file://` plus the `dir` input, the configuration file and `atlas` environment follow the `cloud-dir` input, and a directory URL never comes together with a configuration file. |
| `Outputs.ActionOutcome` | main.go:27-39 | main ends in a load failure when the url is missing. It ends in a run failure only after Load succeeded, and then with the client's own error. When it completes, it publishes exactly five outputs. |
| `Outputs.OutputsOf` | main.go:35-39 | The outputs are error, current, target, pending_count and applied_count, in that order. The first three carry the report's strings verbatim. The two counts are canonical decimals whose values are the lengths of the pending and applied lists. |
| `Outputs.CountsReadBack` | main.go:38-39 | `pending_count` and `applied_count` are canonical decimals that parse back as the lengths of the pending and applied lists. |
| `Outputs.CountsDetermineLengths` | main.go:38-39 | Two reports publish the same count exactly when their lists have the same length. |
| `Outputs.CompletesIff` | main.go:27-39 | A run completes if and only if Load and the client both succeed, and it then publishes that report. A load failure is fatal with Load's own error. When Load succeeds and the client fails, the run failure carries the client's error unchanged. |
| `LoadTable.MissingUrl` | main_test.go:28-32 | An empty environment fails with the url error. |
| `LoadTable.ValidInputs` | main_test.go:33-50 | The fully specified environment gives exactly the expected record, with all other fields at their zero values. |
| `LoadTable.IllegalTxMode` | main_test.go:51-62 | Tx-mode "invalid" fails with the tx-mode error; `count` plays no part. |
| `LoadTable.InvalidDirty` | main_test.go:63-71 | allow-dirty "notABool" fails with the allow-dirty error. |
| `LoadTable.InvalidAmountInput` | main_test.go:72-80 | Amount "notAnInt" fails with a syntax error from ParseUint. |
| `LoadTable.DirAndCloudDirExclusion` | main_test.go:81-90 | Setting both directories fails with the mutual-exclusion error. |
| `LoadTable.DirOnly` | main_test.go:91-101 | A local directory alone gives a record with only url and dir set. |
| `LoadTable.CloudDirNoToken` | main_test.go:102-109 | A cloud directory without a token fails with the missing-token error. |
| `LoadTable.CloudDirToken` | main_test.go:110-124 | A cloud directory with a token gives a record with only url, cloud dir and token set. |

## Left out

- The GitHub Actions runtime. `GetInput` turns a name into the `INPUT_<NAME>` variable and
  trims whitespace; the model is given the looked-up values directly. `SetOutput`'s output
  file is left out, and so are `Warningf` (the deprecation notice), `Infof` and `Fatalf`'s
  message and process exit, which the model returns as an `Exit` value.
- Rendering the cloud configuration from the embedded `atlashcl.tmpl` template
  (main.go:17-20, 129-132). The template is not part of this model, so its content cannot be
  specified. A rendering error is not modelled either.
- Creating the temporary configuration file and removing it afterwards (main.go:133-138).
  This is filesystem I/O. Its path is the opaque parameter `configPath`, and a failure to
  create it is not modelled.
- `os.Getwd` and `atlasexec.NewClient` (main.go:111-118) and the client's `Apply` call
  (main.go:142). These are the process environment and an external subprocess. The client is
  the function parameter `ApplyClient`, and the Getwd and NewClient error returns are not modelled.
- Exact error message texts, including strconv's. The model returns error kinds
  (`LoadError`, strconv's `ErrSyntax`/`ErrRange`) instead.
- Strconv.ToLower: only ASCII letters are lowered, whereas `strings.ToLower` maps all of
  Unicode. No non-ASCII character lowers to one of the letters in "true" or "false", so which
  inputs are accepted does not change.
- The client's report entries (migration files) are represented by their names. Only the
  list lengths are used.
- The loader test's integration harness: the sqlite database, the fake cloud server and
  the migration directory archive. These are I/O.
