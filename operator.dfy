/** The Terraform operator as an object. `New` builds it and silences the
    standard logger; `Create` and `Delete` run their steps one by one with
    early returns and, once the null device is open (or was never asked
    for), run the deferred cleanup and stderr restore before every return;
    a failed open returns at once, before anything is deferred. `Status`
    reads a state. Each is proved to make exactly the calls, and return
    exactly the result, that the specification in module Lifecycle gives.
    `Create` and `Delete` swap stderr only after a successful open and so
    leave it as they found it; `CreateAsWritten` and `DeleteAsWritten` store
    the open's result as the operator does, and are proved to leave stderr
    nil after a failed open. */
module Operator {
  import opened Types
  import opened Calls
  import opened Lifecycle

  /** A value of type *os.File: an open file, or nil. */
  datatype Stream = File(path: string) | NilFile

  const DEV_NULL := "/dev/null"

  /** Where the standard logger writes. */
  datatype LogSink = Discard | WriteTo(stream: Stream)

  /** The process-wide state the operator changes: os.Stderr and the output
      of the standard logger. */
  class Process {
    var stderr: Stream
    var logOutput: LogSink
  }

  class Terraform {
    const ops: Options
    /** The collaborator calls this operator has made, oldest first. */
    ghost var trace: seq<Event>

    /** Build an operator with the given options; unless verbose, the
        standard logger's output is discarded. */
    constructor New(ops: Options, proc: Process)
      modifies proc
      ensures this.ops == ops && trace == []
      ensures proc.logOutput == if ops.verbose then old(proc.logOutput) else Discard
      ensures proc.stderr == old(proc.stderr)
    {
      this.ops := ops;
      trace := [];
      new;
      if !ops.verbose {
        proc.logOutput := Discard;
      }
    }

    /** One call on a collaborator; `env` says whether it fails. */
    method Call(e: Event, env: Env) returns (ok: bool)
      modifies this
      ensures ok == (e !in env.failing)
      ensures trace == old(trace) + [e]
    {
      trace := trace + [e];
      ok := e !in env.failing;
    }

    /** Swap stderr for the null device, returning the stream it replaced.
        When the null device cannot be opened, stderr is left as it was. */
    method SilenceStderr(proc: Process, env: Env) returns (ok: bool, saved: Stream)
      modifies this, proc
      ensures trace == old(trace) + [OpenDevNull]
      ensures ok == (OpenDevNull !in env.failing)
      ensures saved == old(proc.stderr)
      ensures proc.stderr == if ok then File(DEV_NULL) else old(proc.stderr)
      ensures proc.logOutput == old(proc.logOutput)
    {
      saved := proc.stderr;
      ok := Call(OpenDevNull, env);
      if ok {
        proc.stderr := File(DEV_NULL);
      }
    }

    /** The swap as the operator writes it: `os.Stderr, err =
        os.Open(os.DevNull)` stores whatever file the open returns, which is
        nil when the open fails. */
    method SilenceStderrAsWritten(proc: Process, env: Env) returns (ok: bool, saved: Stream)
      modifies this, proc
      ensures trace == old(trace) + [OpenDevNull]
      ensures ok == (OpenDevNull !in env.failing)
      ensures saved == old(proc.stderr)
      ensures proc.stderr == if ok then File(DEV_NULL) else NilFile
      ensures proc.logOutput == old(proc.logOutput)
    {
      saved := proc.stderr;
      ok := Call(OpenDevNull, env);
      proc.stderr := if ok then File(DEV_NULL) else NilFile;
    }

    /** The start of Create and Delete: apply the timeouts and, when
        silencing, swap stderr for the null device. `ok` is false when that
        open fails, and the operation then returns its error at once. */
    method Open(proc: Process, env: Env, silence: bool) returns (ok: bool, saved: Stream)
      modifies this, proc
      ensures ok == !OpenFails(silence, env.failing)
      ensures trace == old(trace) + if ok then Opening(silence) else [ApplyTimeouts, OpenDevNull]
      ensures saved == old(proc.stderr)
      ensures proc.stderr == if silence && ok then File(DEV_NULL) else old(proc.stderr)
      ensures proc.logOutput == old(proc.logOutput)
    {
      trace := trace + [ApplyTimeouts];
      ok, saved := true, proc.stderr;
      if silence {
        ok, saved := SilenceStderr(proc, env);
      }
    }

    /** The start of Create and Delete as the operator writes it: a failed
        open of the null device leaves stderr nil. */
    method OpenAsWritten(proc: Process, env: Env, silence: bool) returns (ok: bool, saved: Stream)
      modifies this, proc
      ensures ok == !OpenFails(silence, env.failing)
      ensures trace == old(trace) + if ok then Opening(silence) else [ApplyTimeouts, OpenDevNull]
      ensures saved == old(proc.stderr)
      ensures proc.stderr == if !silence then old(proc.stderr) else if ok then File(DEV_NULL) else NilFile
      ensures proc.logOutput == old(proc.logOutput)
    {
      trace := trace + [ApplyTimeouts];
      ok, saved := true, proc.stderr;
      if silence {
        ok, saved := SilenceStderrAsWritten(proc, env);
      }
    }

    /** The deferred calls of Create and Delete, in the order Go runs them:
        the workspace cleanup, deferred only when not persistent, and then the
        restore of the saved stderr, deferred only when it was swapped. */
    method RunDeferred(proc: Process, swapped: bool, saved: Stream)
      modifies this, proc
      ensures trace == old(trace) + Deferred(ops.persistent, swapped)
      ensures proc.stderr == if swapped then saved else old(proc.stderr)
      ensures proc.logOutput == old(proc.logOutput)
    {
      if !ops.persistent {
        trace := trace + [Cleanup];
      }
      if swapped {
        proc.stderr := saved;
        trace := trace + [RestoreStderr];
      }
    }

    /** Provision the cluster named by `cfg` on provider `p`. */
    method Create(proc: Process, p: ProviderType, cfg: Config, env: Env) returns (r: Result<ClusterInfo>)
      requires HasIdentity(cfg)
      modifies this, proc
      ensures trace == old(trace) + CreateRun(ops, p, env).events
      ensures r == CreateRun(ops, p, env).result
      ensures proc.stderr == old(proc.stderr) && proc.logOutput == old(proc.logOutput)
    {
      var silence := !ops.verbose;
      var ok, saved := Open(proc, env, silence);
      if !ok {
        return Err(CallFailed(OpenDevNull));
      }
      TraceAfter(old(trace), silence, ops.persistent, CreatePlan(p), env.failing);
      // The cleanup is deferred here when not persistent; the deferred calls
      // run after the steps return, whichever return they take.
      r := CreateSteps(p, env);
      RunDeferred(proc, silence, saved);
    }

    /** Create as the operator writes it: the same calls and result, but a
        failed open of the null device returns with stderr nil, because the
        restore is deferred only after the open succeeded. */
    method CreateAsWritten(proc: Process, p: ProviderType, cfg: Config, env: Env) returns (r: Result<ClusterInfo>)
      requires HasIdentity(cfg)
      modifies this, proc
      ensures trace == old(trace) + CreateRun(ops, p, env).events
      ensures r == CreateRun(ops, p, env).result
      ensures proc.stderr == if OpenFails(!ops.verbose, env.failing) then NilFile else old(proc.stderr)
      ensures OpenFails(!ops.verbose, env.failing) && old(proc.stderr).File? ==> proc.stderr != old(proc.stderr)
      ensures proc.logOutput == old(proc.logOutput)
    {
      var silence := !ops.verbose;
      var ok, saved := OpenAsWritten(proc, env, silence);
      if !ok {
        return Err(CallFailed(OpenDevNull));
      }
      TraceAfter(old(trace), silence, ops.persistent, CreatePlan(p), env.failing);
      r := CreateSteps(p, env);
      RunDeferred(proc, silence, saved);
    }

    /** The steps of Create between the deferrals and the return: prepare the
        workspace, apply, and read the cluster details back, returning at the
        first failure. */
    method CreateSteps(p: ProviderType, env: Env) returns (r: Result<ClusterInfo>)
      modifies this
      ensures trace == old(trace) + Execute(CreatePlan(p), env.failing)
      ensures r == CreateResult(PlanError(CreatePlan(p), env.failing), env.info)
    {
      var tail := [TfApply, ClusterInfoFromFile];
      ExecuteSteps(SetupPlan(p), env.failing);
      ExecuteAppend(SetupPlan(p), tail, env.failing);
      PlanErrorAppend(SetupPlan(p), tail, env.failing);
      assert CreatePlan(p) == SetupPlan(p) + tail;
      var err := SetupSteps(p, env);
      if err.Some? {
        assert Halted(Execute(SetupPlan(p), env.failing), env.failing);
        return Err(err.value);
      }
      var ok := Call(TfApply, env);
      Advance(tail, TfApply, env.failing);
      if !ok {
        return Err(CallFailed(TfApply));
      }
      ok := Call(ClusterInfoFromFile, env);
      Advance(tail[1..], ClusterInfoFromFile, env.failing);
      r := if ok then Ok(env.info) else Err(CallFailed(ClusterInfoFromFile));
    }

    /** The steps Create and Delete share: resolve the workspace directory,
        bootstrap the Gardener provider, init, and write the cluster files,
        returning at the first failure. */
    method SetupSteps(p: ProviderType, env: Env) returns (err: Option<Error>)
      modifies this
      ensures trace == old(trace) + Execute(SetupPlan(p), env.failing)
      ensures err == PlanError(SetupPlan(p), env.failing)
    {
      ghost var todo := SetupPlan(p);
      var ok := Call(ClusterDir, env);
      Advance(todo, ClusterDir, env.failing);
      if !ok {
        return Some(CallFailed(ClusterDir));
      }
      todo := todo[1..];
      if p == Gardener {
        ok := Call(InitGardenerProvider, env);
        Advance(todo, InitGardenerProvider, env.failing);
        if !ok {
          return Some(Wrapped(GARDENER_INIT_FAILED, CallFailed(InitGardenerProvider)));
        }
        todo := todo[1..];
      }
      ok := Call(TfInit, env);
      Advance(todo, TfInit, env.failing);
      if !ok {
        return Some(CallFailed(TfInit));
      }
      ok := Call(InitClusterFiles, env);
      err := if ok then None else Some(Wrapped(CLUSTER_DATA_FAILED, CallFailed(InitClusterFiles)));
    }

    /** Report the phase of the cluster from the supplied state, or from the
        state in its workspace when none is supplied. */
    method Status(sf: Option<StateFile>, p: ProviderType, cfg: Config, env: Env)
      returns (cs: ClusterStatus, err: Option<Error>)
      requires sf.None? ==> HasIdentity(cfg)
      modifies this
      ensures trace == old(trace) + StatusRun(sf, env).events
      ensures (cs, err) == StatusRun(sf, env).result
    {
      trace := trace + [ApplyTimeouts];
      cs := ClusterStatus(Unknown);
      var state: StateFile;
      if sf.None? {
        var ok := Call(StateFromFile, env);
        if !ok {
          return cs, Some(Wrapped(NO_STATE_FAILED, CallFailed(StateFromFile)));
        }
        state := env.disk;
      } else {
        state := sf.value;
      }
      if state.hasResources {
        cs := cs.(phase := Provisioned);
      }
      err := None;
    }

    /** Destroy the cluster named by `cfg` on provider `p`, using the
        supplied state or, when none is supplied, the one in its workspace. */
    method Delete(proc: Process, sf: Option<StateFile>, p: ProviderType, cfg: Config, env: Env)
      returns (err: Option<Error>)
      requires HasIdentity(cfg)
      modifies this, proc
      ensures trace == old(trace) + DeleteRun(ops, sf, p, env).events
      ensures err == DeleteRun(ops, sf, p, env).result
      ensures proc.stderr == old(proc.stderr) && proc.logOutput == old(proc.logOutput)
    {
      var openOk, saved := Open(proc, env, true);
      if !openOk {
        return Some(CallFailed(OpenDevNull));
      }
      TraceAfter(old(trace), true, ops.persistent, DeletePlan(p, sf.Some?), env.failing);
      // The cleanup is deferred here when not persistent; the deferred calls
      // run after the steps return, whichever return they take.
      err := DeleteSteps(sf, p, env);
      RunDeferred(proc, true, saved);
    }

    /** Delete as the operator writes it: the same calls and result, but a
        failed open of the null device returns with stderr nil. */
    method DeleteAsWritten(proc: Process, sf: Option<StateFile>, p: ProviderType, cfg: Config, env: Env)
      returns (err: Option<Error>)
      requires HasIdentity(cfg)
      modifies this, proc
      ensures trace == old(trace) + DeleteRun(ops, sf, p, env).events
      ensures err == DeleteRun(ops, sf, p, env).result
      ensures proc.stderr == if OpenDevNull in env.failing then NilFile else old(proc.stderr)
      ensures OpenDevNull in env.failing && old(proc.stderr).File? ==> proc.stderr != old(proc.stderr)
      ensures proc.logOutput == old(proc.logOutput)
    {
      var openOk, saved := OpenAsWritten(proc, env, true);
      if !openOk {
        return Some(CallFailed(OpenDevNull));
      }
      TraceAfter(old(trace), true, ops.persistent, DeletePlan(p, sf.Some?), env.failing);
      err := DeleteSteps(sf, p, env);
      RunDeferred(proc, true, saved);
    }

    /** The steps of Delete between the deferrals and the return: prepare the
        workspace, load or store the state, and destroy, returning at the
        first failure. */
    method DeleteSteps(sf: Option<StateFile>, p: ProviderType, env: Env) returns (err: Option<Error>)
      modifies this
      ensures trace == old(trace) + Execute(DeletePlan(p, sf.Some?), env.failing)
      ensures err == PlanError(DeletePlan(p, sf.Some?), env.failing)
    {
      var tail := [if sf.Some? then StateToFile else StateFromFile, TfDestroy];
      ExecuteSteps(SetupPlan(p), env.failing);
      ExecuteAppend(SetupPlan(p), tail, env.failing);
      PlanErrorAppend(SetupPlan(p), tail, env.failing);
      assert DeletePlan(p, sf.Some?) == SetupPlan(p) + tail;
      err := SetupSteps(p, env);
      if err.Some? {
        assert Halted(Execute(SetupPlan(p), env.failing), env.failing);
        return;
      }
      if sf.None? {
        var ok := Call(StateFromFile, env);
        Advance(tail, StateFromFile, env.failing);
        if !ok {
          return Some(Wrapped(NO_STATE_FAILED, CallFailed(StateFromFile)));
        }
      } else {
        var ok := Call(StateToFile, env);
        Advance(tail, StateToFile, env.failing);
        if !ok {
          return Some(Wrapped(STORE_STATE_FAILED, CallFailed(StateToFile)));
        }
      }
      var ok := Call(TfDestroy, env);
      Advance(tail[1..], TfDestroy, env.failing);
      err := if ok then None else Some(CallFailed(TfDestroy));
    }
  }
}
