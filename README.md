# Terraform operator lifecycle (hydroform provision)

This project models the Terraform operator of hydroform's `provision` package. The operator is the lifecycle orchestrator behind cluster provisioning, with three operations:

- **Create** applies the timeouts, silences stderr unless verbose, and defers the workspace cleanup unless persistent. It then resolves the workspace directory, bootstraps the Gardener provider (Gardener only), runs `terraform init`, writes the cluster files, runs `terraform apply`, and reads the cluster details back.
- **Status** reports `Provisioned` or `Unknown` from a supplied Terraform state, or from the state stored in the workspace.
- **Delete** always silences stderr and defers the cleanup unless persistent. It then prepares the workspace as Create does, loads the stored state (none supplied) or stores the supplied one, and runs `terraform destroy`.

Every collaborator is an oracle: the workspace manager, the state store, the provider bootstrap, the Terraform engine and `applyTimeouts`. A call on one is an `Event`, and an `Env` value says which calls fail, which state is on disk and which cluster details are read back.

The model has four modules:

- `Types`: the values the operator reads and returns.
- `Calls`: the events, and `Execute`, which runs a plan of calls in order and stops at the first failure.
- `Lifecycle`: the specification as values. `CreateRun`, `StatusRun` and `DeleteRun` give the exact call trace and the result of each operation. It also holds the error-wrapping policy (`ErrorFor`) and the properties proved about them.
- `Operator`: the imperative operator.
  - `Process` holds the process-wide `os.Stderr` and the standard logger's output.
  - `Terraform` holds the options and a ghost trace of the calls made.
  - Its methods run the steps one by one with early returns, and run the deferred calls explicitly before each return.
  - Each method is proved to make exactly the calls, and return exactly the result, that `Lifecycle` specifies.

## Model

| member | source | states |
|---|---|---|
| Calls.ExecuteSteps | provision/internal/operator/terraform/operator.go:53-75 | The calls made are a prefix of the plan, in plan order. Every call but the last one succeeded. The run stops short of the plan only at a failing call, so no step after a failure is ever made. |
| Calls.ExecuteSucceeds | provision/internal/operator/terraform/operator.go:53-75 | A plan runs to its end without failure if and only if none of its steps fails, and then every step was called. |
| Calls.ExecuteAppend | provision/internal/operator/terraform/operator.go:121-156 | Running setup steps followed by further steps gives the setup's calls alone when the setup fails, and otherwise the whole setup followed by the further steps' calls. |
| Calls.ReachesLast | provision/internal/operator/terraform/operator.go:72-75 | The last step of a plan is reached only if every earlier step succeeded, and then the whole plan was called. |
| Lifecycle.ErrorFor | provision/internal/operator/terraform/operator.go:59-148 | The returned error always comes from the failing call. A failed Gardener bootstrap is wrapped "could not initialize the gardener provider", failed cluster files "Could not initialize cluster data", a failed state load "no state provided, attempted to load from file" and a failed state store "could not store state into file". Every other failure is passed through unchanged. |
| Lifecycle.PlanErrorAppend | provision/internal/operator/terraform/operator.go:121-156 | The error of setup plus further steps is the setup's error when the setup fails, and otherwise the further steps' error. |
| Lifecycle.StatusRun | provision/internal/operator/terraform/operator.go:79-100 | Status makes no workspace call except loading the state, and it loads only when no state is supplied. It fails only when that load fails; the error is then wrapped "no state provided, attempted to load from file" and the phase is Unknown. Otherwise the phase is Provisioned exactly when the state in use has resources. |
| Lifecycle.LifecycleFrame | provision/internal/operator/terraform/operator.go:37-51 | The null device is opened exactly when silencing. Cleanup happens exactly when not persistent and the open did not fail. The restore happens exactly when a swap succeeded. |
| Lifecycle.WorkspaceCallsFollowPlan | provision/internal/operator/terraform/operator.go:53-75 | The workspace calls of Create or Delete are the plan's steps in order, up to and including the first failure. There are none when the null device cannot be opened. |
| Lifecycle.FirstFailureDecides | provision/internal/operator/terraform/operator.go:40-75 | An operation fails if and only if the open or some plan step fails. The error it returns is the error of the failing call it made. |
| Lifecycle.CleanupOnEveryExit | provision/internal/operator/terraform/operator.go:48-56 | When not persistent, cleanup happens exactly once on every exit after the stderr setup, including a `clusterDir` failure. When persistent, or when the null device cannot be opened, it never happens. |
| Lifecycle.NoWorkAfterCleanup | provision/internal/operator/terraform/operator.go:116-124 | No workspace call follows the cleanup. |
| Lifecycle.StderrRestoredOnEveryExit | provision/internal/operator/terraform/operator.go:37-45 | Stderr is swapped exactly when silencing. After a successful swap it is restored exactly once, as the very last event, on every exit. A failed open ends the call at once with the open's own error, before anything else runs or is deferred. |
| Lifecycle.ProviderBootstrap | provision/internal/operator/terraform/operator.go:127-137 | The Gardener bootstrap runs if and only if the provider is Gardener and the workspace directory was resolved. When it fails, only `clusterDir` and the bootstrap ran, so init never runs, and the error is wrapped "could not initialize the gardener provider". This holds for Create's and Delete's plans alike. |
| Lifecycle.ClusterFilesFailure | provision/internal/operator/terraform/operator.go:67-69 | In Create's and Delete's plans alike, when the cluster files are written and that fails, the workspace calls are exactly the setup steps up to and including it, and the error is the call's failure wrapped "Could not initialize cluster data". |
| Lifecycle.CreateClusterFilesFailure | provision/internal/operator/terraform/operator.go:67-75 | A Create whose cluster-file step fails returns that wrapped error, and neither `tfApply` nor `clusterInfoFromFile` runs. |
| Lifecycle.CreateSucceeds | provision/internal/operator/terraform/operator.go:33-76 | Create returns the cluster details if and only if the open and every step succeed. Its workspace calls are then exactly clusterDir, (Gardener) bootstrap, init, cluster files, apply, and cluster info. |
| Lifecycle.CreateReadsInfoLast | provision/internal/operator/terraform/operator.go:72-75 | The cluster details are read only after every earlier step succeeded, and then the whole plan ran. |
| Lifecycle.CreateFailure | provision/internal/operator/terraform/operator.go:53-75 | A Create in which a call fails returns no details, and returns that call's error as `ErrorFor` gives it. |
| Lifecycle.DeleteStateCall | provision/internal/operator/terraform/operator.go:139-150 | Without a supplied state Delete never stores one, and with a supplied state it never loads one. |
| Lifecycle.DeleteDestroysLast | provision/internal/operator/terraform/operator.go:139-156 | Destroy runs only after every earlier step succeeded, including the state load or store. The workspace calls are then the whole Delete plan, with the state call right before destroy. |
| Lifecycle.DeleteSucceeds | provision/internal/operator/terraform/operator.go:152-156 | Delete returns nil if and only if destroy ran and succeeded. |
| Lifecycle.DeleteFailure | provision/internal/operator/terraform/operator.go:140-156 | A destroy failure is returned unwrapped. A failed load or store returns its wrapped message, and destroy never runs after it. |
| Operator.Terraform.New | provision/internal/operator/terraform/operator.go:20-30 | The options are stored unchanged. Log output is discarded if and only if not verbose. Stderr is untouched. |
| Operator.Terraform.SilenceStderr | provision/internal/operator/terraform/operator.go:106-113 | Opens the null device and returns the previous stderr. Stderr becomes the null device on success and is unchanged on failure (corrected; see Findings). |
| Operator.Terraform.SilenceStderrAsWritten | provision/internal/operator/terraform/operator.go:107-112 | The swap as written: the open's result is stored in stderr before the error is checked, so stderr is the null device on success and nil on failure. The previous stderr is returned. |
| Operator.Terraform.Open | provision/internal/operator/terraform/operator.go:34-43 | Applies the timeouts, then opens the null device only when silencing. It succeeds exactly when that open does not fail. Stderr becomes the null device only after a successful swap and is otherwise unchanged (corrected; see Findings). |
| Operator.Terraform.OpenAsWritten | provision/internal/operator/terraform/operator.go:34-43 | As `Open`, except that a failed open when silencing leaves stderr nil. |
| Operator.Terraform.RunDeferred | provision/internal/operator/terraform/operator.go:44-51 | The deferred calls run in Go's last-in-first-out order: cleanup when not persistent, then the stderr restore when it was swapped. |
| Operator.Terraform.Create | provision/internal/operator/terraform/operator.go:33-76 | The calls made and the result returned are exactly `CreateRun`'s. Stderr and the logger are as they were before the call (corrected; see Findings). |
| Operator.Terraform.CreateAsWritten | provision/internal/operator/terraform/operator.go:33-76 | The calls made and the result returned are exactly `CreateRun`'s. When silencing and the null device cannot be opened, Create returns with stderr nil, so a stderr that was an open file is lost. Otherwise stderr is as before. |
| Operator.Terraform.CreateSteps | provision/internal/operator/terraform/operator.go:53-75 | Makes exactly the calls of the Create plan up to its first failure, and returns the details or that failure's error. |
| Operator.Terraform.SetupSteps | provision/internal/operator/terraform/operator.go:121-137 | Makes exactly the calls of the setup plan shared with Create up to its first failure, and returns that failure's error. |
| Operator.Terraform.Status | provision/internal/operator/terraform/operator.go:79-100 | The calls made and the status and error returned are exactly `StatusRun`'s. |
| Operator.Terraform.Delete | provision/internal/operator/terraform/operator.go:103-157 | The calls made and the error returned are exactly `DeleteRun`'s. Stderr and the logger are as they were before the call (corrected; see Findings). |
| Operator.Terraform.DeleteAsWritten | provision/internal/operator/terraform/operator.go:103-157 | The calls made and the error returned are exactly `DeleteRun`'s. When the null device cannot be opened, Delete returns with stderr nil, so a stderr that was an open file is lost. Otherwise stderr is as before. The logger is unchanged. |
| Operator.Terraform.DeleteSteps | provision/internal/operator/terraform/operator.go:139-156 | Makes exactly the calls of the Delete plan up to its first failure: setup, then the state load or store, then destroy. Returns that failure's error. |

## Notes on the source

- **Wrapping messages.** `operator.go` wraps a failed Gardener bootstrap as "could not initialize the gardener provider" and failed cluster files as "Could not initialize cluster data", capitalised (lines 60 and 68, 129 and 136).
- **Pass-through errors.** The `clusterDir`, `tfInit`, `tfApply`, `tfDestroy`, `clusterInfoFromFile` and null-device errors are returned unwrapped.
- **When cleanup is deferred.** The cleanup is deferred before `clusterDir` runs (lines 48-51 and 116-119). So it also runs when `clusterDir` fails.

## Left out

- The Terraform engine, the Gardener plugin setup, the workspace manager and the state store are not modelled. Their calls are events whose success an `Env` oracle decides. Their bodies are not part of this model.
- The state file is reduced to whether it has resources. `statefile` parsing and `HasResources` are not modelled.
- Path construction and the work `cleanup`, `stateToFile` and `clusterInfoFromFile` do on disk are not modelled.
- `applyTimeouts` and the timeout values are reduced to the first event of each operation.
- The functional options (`options(ops...)`) are not modelled: `New` takes the resolved `Options`.
- `Options` keeps only `Verbose` and `Persistent`. The data directory and the timeouts only feed path construction and `applyTimeouts`, which are not modelled.
- The `cfg["project"].(string)` assertions are not modelled as panics. Create and Delete require both keys to hold strings. Status requires this only when it has to load the state.
- `os.Open`, `os.Stderr` and `log.SetOutput` are modelled as a `Process` object with two fields. No real I/O happens.
- Concurrency is not modelled: the operator takes no locks, and serialising calls is the caller's concern.
- Provider types other than Gardener are not distinguished, since the operator only tests for Gardener.
- Operator.Terraform.CreateSteps: when `clusterInfoFromFile` fails, its possibly partial cluster info is not modelled. Create returns only the error.

## Findings

| source | as written | input that shows it | evidently intended | confidence | as-written member | corrected member |
|---|---|---|---|---|---|---|
| provision/internal/operator/terraform/operator.go:40-42, 109-111 | `os.Stderr, err = os.Open(os.DevNull)` assigns the open's result to `os.Stderr` before checking `err`. On failure that result is nil, and the call returns before the restore is deferred. | Create when not verbose, or any Delete, in a process where `/dev/null` cannot be opened. Afterwards `os.Stderr` is nil. | Leave `os.Stderr` unchanged when the open fails, and swap only on success. | not executed | Operator.Terraform.DeleteAsWritten | Operator.Terraform.Delete |
