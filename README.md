# tf_multistate, modelled in Dafny

`infra/util/tf_multistate.go` runs terraform once per feature of a deployment
environment. It has four parts:

1. It reads the remote-state backend settings (`bucket`, `key`, `region`,
   `profile`, `dynamodb_table`) from a `backend.tfvars` file of `key = "value"`
   lines.
2. It reads the list of features.
3. For every feature, it enters the feature directory and runs
   `terraform init` with the backend settings. The feature's own state file is
   the backend `key`. It then runs `terraform plan`, asks for confirmation,
   runs `terraform apply -auto-approve` only on the answer `yes`, and goes back
   to the directory it started in.
4. A failing feature is logged, and the loop carries on with the next one.

The project has five modules:

- `Wrappers` holds `Option`.
- `Text` models the three Go string functions the reader uses:
  - `strings.TrimSpace`, with the white-space set of `unicode.IsSpace`
  - `strings.Trim` with the cut set `"`
  - `strings.SplitN(s, "=", 2)`
- `Backend` holds the `BackendConfig` record, one line of the reader as a
  function (`ApplyLine`), the reader as a left fold (`ParseLines`), and
  `ReadBackendConfig`, the reader's loop written as a method proved equal to
  that fold.
- `Commands` holds the `Feature` record and the argument lists of `init`,
  `plan` and `apply`. It also reads the `-backend-config=` arguments back into
  name/value pairs.
- `Executor` models the process as a class `Process`. Its fields are the
  current directory, the commands launched so far, and the log.
  - `ExecuteTerraform` is `executeTerraform`.
  - `RunFeatures` is the loop of `main`.
  - Both methods are proved against the functions `Execute`, `Step` and
    `Batch`.
  - The lemmas about those functions state what the program promises: the
    order of the steps, the first-failure error, the deferred return to the
    starting directory, one `init` per entered feature, and every error logged
    in order.

Whatever the outside world decides arrives as one `Replies` value per feature:
- whether `os.Getwd` succeeds
- whether each `os.Chdir` succeeds, including the deferred one back
- each terraform exit status
- the token read at the prompt

Strings are sequences of Unicode scalar values.

Two details of the code decide what the reader stores and when `apply` runs:
- **Trimming.** The key is only trimmed of white space. The value is trimmed
  of white space first, then of every leading and trailing `"` (`CleanValue`),
  so spaces inside the quotes are kept.
- **Confirmation.** `apply` runs only when the token that `fmt.Scanln` stores
  is exactly `yes`. The model takes that token as given
  (`Replies.confirmation`) and compares it exactly (`Confirmed`).

## Model

| member | source | states |
|---|---|---|
| Text.TrimSpace | infra/util/tf_multistate.go:35-36 | the result is no longer than the input, is empty exactly when every character is white space, and otherwise neither starts nor ends with white space. These clauses state only the shape of the result; its exact value is pinned by `Text.TrimPadded` with the white-space set |
| Text.Trim | infra/util/tf_multistate.go:39 | the result is no longer than the input, is empty exactly when every character is in the cut set, and otherwise starts and ends outside it. These clauses state only the shape of the result; its exact value is pinned by `Text.TrimPadded` |
| Text.TrimLeft | infra/util/tf_multistate.go:39 | the result is a suffix of the input; what was removed is all cut characters; the result does not start with one |
| Text.TrimRight | infra/util/tf_multistate.go:39 | the result is a prefix of the input; what was removed is all cut characters; the result does not end with one |
| Text.TrimPadded | infra/util/tf_multistate.go:39 | trimming a text with no cut characters at its ends, padded with cut characters on both sides, gives back exactly that text |
| Text.SplitFirst | infra/util/tf_multistate.go:33-34 | there is no split exactly when the separator does not occur; otherwise the input is before + separator + after, and before holds no separator (the split is at the first one) |
| Text.SplitFirstOfJoin | infra/util/tf_multistate.go:33 | splitting `left + "=" + right` with no `=` in `left` gives back `left` and `right`, whatever `right` holds |
| Backend.FieldOf | infra/util/tf_multistate.go:37-48 | a key is recognised exactly when it is one of the five names, case-sensitive, and then names that field |
| Backend.BackendConfig.With | infra/util/tf_multistate.go:38-47 | setting a field changes that field to the value and leaves the other four as they were |
| Backend.CleanValue | infra/util/tf_multistate.go:36-39 | the stored value is no longer than the raw text; it is empty exactly when the space-trimmed text is all quotes; otherwise it neither starts nor ends with `"`. Its exact value is pinned by `Backend.QuotedValue` for every value: quoted on both ends, on one end only, or not at all (`Backend.UnquotedValue`) |
| Backend.ParseLine | infra/util/tf_multistate.go:33-34 | a line without `=` assigns nothing |
| Backend.ApplyLine | infra/util/tf_multistate.go:32-49 | a line without `=` leaves the record unchanged; any field that changes is the one the line assigns, and it gets the line's value. These clauses do not say that the field does change; `Backend.RecognizedLine` and `Backend.UnknownKeyLine` pin the full effect |
| Backend.ReadLine | infra/util/tf_multistate.go:32-49 | the body of the reader's loop (split, trim, switch on the key) computes exactly `ApplyLine` |
| Backend.ReadBackendConfig | infra/util/tf_multistate.go:30-54 | the loop starts from the zero record and returns exactly the fold of `ApplyLine` over the lines in order (`ParseLines`) |
| Backend.RecognizedLine | infra/util/tf_multistate.go:33-47 | a line `k=v` whose trimmed key names a field sets that field to the cleaned text after the first `=`, with any further `=` kept, and leaves every other field alone |
| Backend.UnknownKeyLine | infra/util/tf_multistate.go:37-48 | a line whose trimmed key is not one of the five leaves the record unchanged |
| Backend.QuotedValue | infra/util/tf_multistate.go:36-39 | a value written as white space, a run of quotes, inner text that neither starts nor ends with `"`, a run of quotes, white space is stored as the inner text; either quote run may be empty, and the part between the white space must not start or end with white space |
| Backend.UnquotedValue | infra/util/tf_multistate.go:36-39 | a value without quotes at its ends, surrounded by white space, is stored with only that white space removed |
| Backend.ParseFromAppend | infra/util/tf_multistate.go:31-50 | reading lines `a` and then lines `b` is reading `a + b` |
| Backend.IgnoredLine | infra/util/tf_multistate.go:34-48 | a line that assigns nothing can be removed from the file without changing the result |
| Backend.LastAssignmentWins | infra/util/tf_multistate.go:30-50 | a field no line assigns stays empty; otherwise it holds the value of the last line that assigns it |
| Backend.FieldNamePlain | infra/util/tf_multistate.go:38-46 | every recognised key is non-empty, holds no `=` and has no white space at either end |
| Backend.SettingLine | infra/util/tf_multistate.go:33-47 | a line `name = "x"` with a one-character `x` other than `"` sets field `name` to `x` and leaves the others |
| Backend.SettingLineParts | infra/util/tf_multistate.go:33-39 | such a line splits at its `=` into a key that space-trims to the field's name and a value that cleans to the one character `x` |
| Backend.ExampleFile | infra/util/tf_multistate.go:22-55 | a file setting all five keys to quoted values yields the record of the unquoted values |
| Commands.InitArgs | infra/util/tf_multistate.go:98-104 | `init` has seven arguments, first `init` and last `-reconfigure`. This states only the frame; the five settings between are pinned by `Commands.InitSettings` |
| Commands.PlanArgs | infra/util/tf_multistate.go:116 | `plan` has two arguments: `plan`, then the environment's variables file |
| Commands.ApplyArgs | infra/util/tf_multistate.go:131 | `apply` has three arguments: `apply`, `-auto-approve`, then the environment's variables file |
| Commands.BackendArgRoundTrip | infra/util/tf_multistate.go:99-103 | a `-backend-config=name=value` argument reads back as that name and value |
| Commands.InitSettings | infra/util/tf_multistate.go:98-104 | `init` carries exactly five backend settings in the order bucket, key, region, profile, dynamodb_table; `key` is the feature's state file and the rest come from the parsed record |
| Commands.InitIgnoresParsedKey | infra/util/tf_multistate.go:97-100 | the `init` command does not depend on the parsed `key` setting |
| Commands.ExampleInit | infra/util/tf_multistate.go:98-104 | the concrete `init` argument list for one backend record and feature |
| Commands.ExamplePlan | infra/util/tf_multistate.go:116 | the concrete `plan` argument list for environment `dev` |
| Commands.ExampleApply | infra/util/tf_multistate.go:131 | the concrete `apply` argument list for environment `dev` |
| Executor.LaunchedSteps | infra/util/tf_multistate.go:93-137 | `init` runs exactly when the directory was entered; `plan` runs exactly when `init` succeeded; `apply` runs exactly when `plan` succeeded and the token is `yes`. The order is always init, plan, apply. Every command is `terraform`, runs in the feature directory as reached from the directory at entry, and has `TF_STATE` set to the state-file path |
| Executor.VerdictFirstFailure | infra/util/tf_multistate.go:82-143 | the error is none exactly when every step that ran succeeded (a declined prompt is success); otherwise it names the first failed step and the feature directory; a failed way back is never returned |
| Executor.ExecuteRestoresCwd | infra/util/tf_multistate.go:82-95 | a failed `Getwd` changes nothing; the directory at return is the one at entry unless it was left and the way back failed; only a failed way back is logged |
| Executor.Process.RunSteps | infra/util/tf_multistate.go:93-143 | the steps after `Getwd` launch exactly `Launched` from the directory at entry, so every command is recorded with the feature directory as its working directory; they move into the feature directory exactly when `Chdir` succeeds, and return exactly `Verdict` |
| Executor.Process.ExecuteTerraform | infra/util/tf_multistate.go:79-144 | the new state of the process and the returned error are exactly `Execute` of the old state: the commands of `Launched`, each run in the feature directory; the directory and log of `ExecuteRestoresCwd`; the error of `Verdict` |
| Executor.Process.RunFeature | infra/util/tf_multistate.go:169-172 | one iteration runs the executor with the feature's own state file and logs its error, if any (`Step`) |
| Executor.Process.RunFeatures | infra/util/tf_multistate.go:168-173 | the loop leaves the process in exactly the state `Batch` gives: every feature in order, none skipped after a failure |
| Executor.BatchAppend | infra/util/tf_multistate.go:168-173 | running `fs1` and then `fs2` is running `fs1 + fs2`, so no feature ends the loop early |
| Executor.BatchKeepsCwd | infra/util/tf_multistate.go:87-91 | when every way back succeeds, the loop ends in the directory it started in |
| Executor.InitsOfLaunched | infra/util/tf_multistate.go:98-131 | one call launches exactly one `init`, and only when it entered the directory; that `init` runs in the feature directory |
| Executor.StepInits | infra/util/tf_multistate.go:168-172 | one iteration adds exactly the feature's own `init` to the `init` commands, run in the feature directory reached from where the loop stood, if it entered the directory |
| Executor.BatchInits | infra/util/tf_multistate.go:168-173 | the `init` commands of the whole loop are one per entered feature, in list order, each with that feature's state file as backend key and run in that feature's directory as reached from where the loop stood at its turn (the starting directory whenever every earlier way back succeeded, by `Executor.BatchKeepsCwd`) |
| Executor.StepReports | infra/util/tf_multistate.go:169-172 | one iteration adds exactly the executor's returned error, if any, to the reported errors |
| Executor.BatchReportsErrors | infra/util/tf_multistate.go:168-173 | the reported errors of the whole loop are every feature's error, once each, in list order; failed ways back, which are logged too, are not counted among them |
| Executor.ReportedAppend | infra/util/tf_multistate.go:88-89 | the reported errors of two logs joined are those of each log joined |
| Executor.InitsAppend | infra/util/tf_multistate.go:98-104 | the `init` commands of two command lists joined are those of each list joined |

## Left out

- Opening `backend.tfvars` and scanning it into lines is I/O (lines 23-29). So are the scanner's error path (lines 51-53) and the line-length limit of `bufio.Scanner`. The model starts from the lines.
- `readFeatures` (lines 63-77) decodes JSON with `encoding/json`. That is a library call; the model takes the feature list as given.
- `main`'s argument check, `os.Exit`, `log.Fatalf` on a read failure, and the final exit status 0 are process control outside the loop (lines 146-166, 175).
- Printed messages and the output streams of the terraform processes are not modelled. That covers `fmt.Printf`, `fmt.Println`, `log.Printf` and `log.Println`. Logging is modelled as appending the error value to `logged`.
- Only the `TF_STATE` entry of a command's environment is modelled. The inherited `os.Environ()` entries are not.
- How `fmt.Scanln` splits the input into a token, and its error on extra words, are not modelled. The model receives the token it stores.
- Path handling by the operating system is reduced to `Resolve`. It is the directory itself if absolute, otherwise the current one + `/` + it, with no cleaning of `.` or `..`.
- `executeTerraform`'s `backendTFVarsPath` parameter is not used by the function, so it is not modelled.
- Every error the Go code returns wraps the underlying OS or terraform error with `%v` (lines 84, 94, 111, 121, 136). `Failure` keeps only the failed step and the feature directory, not the wrapped cause, because the cause comes from the operating system or from terraform.
- Executor.Process.RunSteps: requires a successful `Getwd`, because its caller `ExecuteTerraform` returns before the steps otherwise.
- Go strings are UTF-8 bytes. The model works on Unicode scalar values, which agree with the bytes on well-formed UTF-8 text.
