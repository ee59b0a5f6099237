/** The specification of the Terraform operator's three operations, Create,
    Status and Delete, as values: the trace of collaborator calls one
    operation makes and the result it returns (`CreateRun`, `StatusRun`,
    `DeleteRun`), with the properties the operator promises proved about them.

    The collaborators (workspace manager, state store, provider bootstrap and
    the Terraform engine) are not modelled; each call on one is an `Event`,
    and whether it succeeds is read from an `Env`. */
module Lifecycle {
  import opened Types
  import opened Calls

  /** A value of the loosely typed provider configuration map. */
  datatype Value = Str(s: string) | NonString

  type Config = map<string, Value>

  /** The configuration names the cluster: both keys the operator reads with a
      forced string assertion are present and hold strings. */
  predicate HasIdentity(cfg: Config) {
    && "project" in cfg && cfg["project"].Str?
    && "cluster_name" in cfg && cfg["cluster_name"].Str?
  }

  /** The operator's options, fixed when it is built. */
  datatype Options = Options(verbose: bool, persistent: bool)

  /** What the collaborators do on one call of an operation: which calls fail,
      the state found in the workspace, and the cluster details read back. */
  datatype Env = Env(failing: set<Event>, disk: StateFile, info: ClusterInfo)

  /** An error: a collaborator's own error, possibly wrapped with a message. */
  datatype Error = CallFailed(call: Event) | Wrapped(message: string, cause: Error)

  datatype Result<T> = Ok(value: T) | Err(error: Error)

  /** The trace of calls one operation makes and the result it returns. */
  datatype Run<T> = Run(events: seq<Event>, result: T)

  const GARDENER_INIT_FAILED := "could not initialize the gardener provider"
  const CLUSTER_DATA_FAILED := "Could not initialize cluster data"
  const NO_STATE_FAILED := "no state provided, attempted to load from file"
  const STORE_STATE_FAILED := "could not store state into file"

  /** The collaborator call an error originates from. */
  function Root(err: Error): Event {
    match err
    case CallFailed(c) => c
    case Wrapped(_, cause) => Root(cause)
  }

  /** The error an operation returns when `call` fails: the call's own error,
      wrapped with a step message for the provider bootstrap, the cluster
      files and the two state-file calls, passed through unchanged for the
      workspace directory, the null device and the engine. */
  function ErrorFor(call: Event): (err: Error)
    ensures Root(err) == call
    ensures err.Wrapped? <==> call in {InitGardenerProvider, InitClusterFiles, StateFromFile, StateToFile}
    ensures err.Wrapped? ==> err.cause == CallFailed(call)
    ensures call == InitGardenerProvider ==> err.message == GARDENER_INIT_FAILED
    ensures call == InitClusterFiles ==> err.message == CLUSTER_DATA_FAILED
    ensures call == StateFromFile ==> err.message == NO_STATE_FAILED
    ensures call == StateToFile ==> err.message == STORE_STATE_FAILED
  {
    match call
    case InitGardenerProvider => Wrapped(GARDENER_INIT_FAILED, CallFailed(call))
    case InitClusterFiles => Wrapped(CLUSTER_DATA_FAILED, CallFailed(call))
    case StateFromFile => Wrapped(NO_STATE_FAILED, CallFailed(call))
    case StateToFile => Wrapped(STORE_STATE_FAILED, CallFailed(call))
    case _ => CallFailed(call)
  }

  // ---------------------------------------------------------------------
  // The lifecycle shared by Create and Delete

  /** Every call of `plan` works on the workspace. */
  predicate WorkspacePlan(plan: seq<Event>) {
    forall c :: c in plan ==> IsWorkspaceCall(c)
  }

  /** Opening the null device was attempted and failed. */
  predicate OpenFails(silence: bool, failing: set<Event>) {
    silence && OpenDevNull in failing
  }

  /** The calls before the plan: apply the timeouts, then, when `silence`,
      open the null device in place of stderr. */
  function Opening(silence: bool): seq<Event> {
    [ApplyTimeouts] + (if silence then [OpenDevNull] else [])
  }

  /** The deferred calls, in the order they run: the cleanup, registered
      last, runs first; the stderr restore, registered first, runs last. */
  function Deferred(persistent: bool, swapped: bool): seq<Event> {
    (if !persistent then [Cleanup] else []) + (if swapped then [RestoreStderr] else [])
  }

  /** The trace of Create or Delete: a failed open of the null device ends
      the call at once; otherwise the plan runs up to its first failure and
      the deferred calls finish the call. */
  function Trace(silence: bool, persistent: bool, plan: seq<Event>, failing: set<Event>): seq<Event> {
    if OpenFails(silence, failing) then [ApplyTimeouts, OpenDevNull]
    else Opening(silence) + Execute(plan, failing) + Deferred(persistent, silence)
  }

  /** The error of running a plan, if any: that of its first failing call. */
  function PlanError(plan: seq<Event>, failing: set<Event>): Option<Error> {
    var done := Execute(plan, failing);
    if Halted(done, failing) then Some(ErrorFor(Last(done))) else None
  }

  /** The error of Create or Delete, if any: that of the first failing call. */
  function LifecycleError(silence: bool, plan: seq<Event>, failing: set<Event>): Option<Error> {
    if OpenFails(silence, failing) then Some(ErrorFor(OpenDevNull)) else PlanError(plan, failing)
  }

  /** Once the null device is open (or was never asked for), a run is the
      opening calls, the plan up to its first failure, and the deferred
      calls, and its error is the plan's. */
  lemma LifecycleOpened(silence: bool, persistent: bool, plan: seq<Event>, failing: set<Event>)
    requires !OpenFails(silence, failing)
    ensures Trace(silence, persistent, plan, failing)
            == Opening(silence) + Execute(plan, failing) + Deferred(persistent, silence)
    ensures LifecycleError(silence, plan, failing) == PlanError(plan, failing)
  {
  }

  /** `LifecycleOpened` with the calls made before the operation in front,
      in the order an operator appends its calls to its trace. */
  lemma TraceAfter(before: seq<Event>, silence: bool, persistent: bool, plan: seq<Event>, failing: set<Event>)
    requires !OpenFails(silence, failing)
    ensures before + Trace(silence, persistent, plan, failing)
            == before + Opening(silence) + Execute(plan, failing) + Deferred(persistent, silence)
    ensures LifecycleError(silence, plan, failing) == PlanError(plan, failing)
  {
    LifecycleOpened(silence, persistent, plan, failing);
    var o, x, d := Opening(silence), Execute(plan, failing), Deferred(persistent, silence);
    assert before + (o + x + d) == before + o + x + d;
  }

  /** The error of running `a + b` is that of `a` when `a` fails, and
      otherwise that of `b`. */
  lemma PlanErrorAppend(a: seq<Event>, b: seq<Event>, failing: set<Event>)
    ensures PlanError(a + b, failing)
            == if PlanError(a, failing).Some? then PlanError(a, failing) else PlanError(b, failing)
  {
    ExecuteAppend(a, b, failing);
    ExecuteSteps(a, failing);
    var done := Execute(b, failing);
    if !Halted(Execute(a, failing), failing) && done != [] {
      assert Last(a + done) == Last(done);
    }
  }

  /** The calls that prepare the workspace, common to Create and Delete. */
  function SetupPlan(p: ProviderType): seq<Event> {
    [ClusterDir] + (if p == Gardener then [InitGardenerProvider] else []) + [TfInit, InitClusterFiles]
  }

  function CreatePlan(p: ProviderType): seq<Event> {
    SetupPlan(p) + [TfApply, ClusterInfoFromFile]
  }

  /** Delete loads the state from the workspace when none is supplied and
      stores the supplied one otherwise, then destroys. */
  function DeletePlan(p: ProviderType, supplied: bool): seq<Event> {
    SetupPlan(p) + [if supplied then StateToFile else StateFromFile, TfDestroy]
  }

  /** Create's result: the cluster details when nothing failed. */
  function CreateResult(err: Option<Error>, info: ClusterInfo): Result<ClusterInfo> {
    match err
    case Some(e) => Err(e)
    case None => Ok(info)
  }

  /** Create silences stderr only when not verbose. */
  function CreateRun(ops: Options, p: ProviderType, env: Env): Run<Result<ClusterInfo>> {
    var silence := !ops.verbose;
    Run(Trace(silence, ops.persistent, CreatePlan(p), env.failing),
        CreateResult(LifecycleError(silence, CreatePlan(p), env.failing), env.info))
  }

  /** Delete always silences stderr. */
  function DeleteRun(ops: Options, sf: Option<StateFile>, p: ProviderType, env: Env): Run<Option<Error>> {
    Run(Trace(true, ops.persistent, DeletePlan(p, sf.Some?), env.failing),
        LifecycleError(true, DeletePlan(p, sf.Some?), env.failing))
  }

  /** The state Status judges: the supplied one, or the one on disk. */
  function StateInUse(sf: Option<StateFile>, env: Env): StateFile {
    if sf.Some? then sf.value else env.disk
  }

  /** Status: the only workspace access is loading the state when none is
      supplied; a failed load gives phase Unknown with a wrapped error;
      otherwise the phase is Provisioned exactly when the state in use has
      resources. */
  function StatusRun(sf: Option<StateFile>, env: Env): (r: Run<(ClusterStatus, Option<Error>)>)
    ensures forall e :: e in r.events ==> e == ApplyTimeouts || e == StateFromFile
    ensures StateFromFile in r.events <==> sf.None?
    ensures r.result.1.Some? <==> sf.None? && StateFromFile in env.failing
    ensures r.result.1.Some? ==>
              r.result.1.value == Wrapped(NO_STATE_FAILED, CallFailed(StateFromFile)) && r.result.0.phase == Unknown
    ensures r.result.0.phase == Provisioned <==> r.result.1.None? && StateInUse(sf, env).hasResources
  {
    if sf.None? && StateFromFile in env.failing then
      Run([ApplyTimeouts, StateFromFile], (ClusterStatus(Unknown), Some(ErrorFor(StateFromFile))))
    else
      var state := StateInUse(sf, env);
      Run([ApplyTimeouts] + (if sf.None? then [StateFromFile] else []),
          (ClusterStatus(if state.hasResources then Provisioned else Unknown), None))
  }

  // ---------------------------------------------------------------------
  // Properties of the lifecycle

  /** Which of the calls outside the plan a run makes. */
  lemma LifecycleFrame(silence: bool, persistent: bool, plan: seq<Event>, failing: set<Event>)
    requires WorkspacePlan(plan)
    ensures var e := Trace(silence, persistent, plan, failing);
            && (OpenDevNull in e <==> silence)
            && (Cleanup in e <==> !persistent && !OpenFails(silence, failing))
            && (RestoreStderr in e <==> silence && !OpenFails(silence, failing))
  {
    if !OpenFails(silence, failing) {
      var done := Execute(plan, failing);
      ExecuteSteps(plan, failing);
      assert OpenDevNull !in done && Cleanup !in done && RestoreStderr !in done;
    }
  }

  /** The workspace calls of a run are the plan's steps in order, up to and
      including the first that fails, and none at all when the null device
      cannot be opened. */
  lemma WorkspaceCallsFollowPlan(silence: bool, persistent: bool, plan: seq<Event>, failing: set<Event>)
    requires WorkspacePlan(plan)
    ensures WorkspaceCalls(Trace(silence, persistent, plan, failing))
            == if OpenFails(silence, failing) then [] else Execute(plan, failing)
  {
    if OpenFails(silence, failing) {
      WorkspaceCallsAppend([ApplyTimeouts], [OpenDevNull]);
      assert [ApplyTimeouts, OpenDevNull] == [ApplyTimeouts] + [OpenDevNull];
    } else {
      var opening := Opening(silence);
      var done := Execute(plan, failing);
      ExecuteSteps(plan, failing);
      var deferred := Deferred(persistent, silence);
      WorkspaceCallsAppend(opening + done, deferred);
      WorkspaceCallsAppend(opening, done);
      WorkspaceCallsOnly(done);
      WorkspaceCallsAppend([ApplyTimeouts], if silence then [OpenDevNull] else []);
      WorkspaceCallsAppend(if !persistent then [Cleanup] else [], if silence then [RestoreStderr] else []);
    }
  }

  /** A run fails exactly when the null device cannot be opened or some step
      of the plan fails, and then it returns the error of the one failing call
      it made. */
  lemma FirstFailureDecides(silence: bool, persistent: bool, plan: seq<Event>, failing: set<Event>)
    requires WorkspacePlan(plan)
    ensures LifecycleError(silence, plan, failing).None?
            <==> !OpenFails(silence, failing) && forall c :: c in plan ==> c !in failing
    ensures forall c :: c in Trace(silence, persistent, plan, failing) && c in failing
                        && (IsWorkspaceCall(c) || c == OpenDevNull)
                   ==> LifecycleError(silence, plan, failing) == Some(ErrorFor(c))
  {
    ExecuteSucceeds(plan, failing);
    LifecycleFrame(silence, persistent, plan, failing);
    if !OpenFails(silence, failing) {
      var e := Trace(silence, persistent, plan, failing);
      var done := Execute(plan, failing);
      ExecuteSteps(plan, failing);
      WorkspaceCallsFollowPlan(silence, persistent, plan, failing);
      forall c | c in e && c in failing && IsWorkspaceCall(c)
        ensures Halted(done, failing) && Last(done) == c
      {
        WorkspaceCallsMember(e, c);
        var k :| 0 <= k < |done| && done[k] == c;
        assert k == |done| - 1;
      }
    }
  }

  /** Unless persistent, the workspace is cleaned up exactly once on every
      exit after the stderr swap, including a failure to resolve the
      workspace directory; when persistent it never is. A failed open of the
      null device returns before the cleanup is registered. */
  lemma CleanupOnEveryExit(silence: bool, persistent: bool, plan: seq<Event>, failing: set<Event>)
    requires WorkspacePlan(plan)
    ensures Count(Trace(silence, persistent, plan, failing), Cleanup)
            == if !persistent && !OpenFails(silence, failing) then 1 else 0
  {
    var e := Trace(silence, persistent, plan, failing);
    if OpenFails(silence, failing) {
      CountZero(e, Cleanup);
    } else {
      LifecycleOpened(silence, persistent, plan, failing);
      var done := Execute(plan, failing);
      ExecuteSteps(plan, failing);
      var before := Opening(silence) + done;
      var cleanup := if !persistent then [Cleanup] else [];
      var restore := if silence then [RestoreStderr] else [];
      assert e == before + cleanup + restore;
      assert Cleanup !in done;
      CountAppend(before + cleanup, restore, Cleanup);
      CountAppend(before, cleanup, Cleanup);
      CountZero(before, Cleanup);
      CountZero(restore, Cleanup);
    }
  }

  /** No workspace call follows the cleanup. */
  lemma NoWorkAfterCleanup(silence: bool, persistent: bool, plan: seq<Event>, failing: set<Event>)
    requires WorkspacePlan(plan)
    ensures var e := Trace(silence, persistent, plan, failing);
            forall i, j :: 0 <= i < j < |e| && e[i] == Cleanup ==> !IsWorkspaceCall(e[j])
  {
    var e := Trace(silence, persistent, plan, failing);
    if !OpenFails(silence, failing) {
      LifecycleOpened(silence, persistent, plan, failing);
      ExecuteSteps(plan, failing);
      var before := Opening(silence) + Execute(plan, failing);
      var deferred := Deferred(persistent, silence);
      assert e == before + deferred;
      assert Cleanup !in before;
      assert forall k :: 0 <= k < |before| ==> e[k] == before[k];
      forall i, j | 0 <= i < j < |e| && e[i] == Cleanup
        ensures !IsWorkspaceCall(e[j])
      {
        assert e[j] == deferred[j - |before|];
      }
    }
  }

  /** Stderr is swapped exactly when asked to; after a successful swap it is
      restored exactly once, as the very last call, on every exit; a failed
      open of the null device ends the run at once with its own error. */
  lemma StderrRestoredOnEveryExit(silence: bool, persistent: bool, plan: seq<Event>, failing: set<Event>)
    requires WorkspacePlan(plan)
    ensures var e := Trace(silence, persistent, plan, failing);
            && (OpenDevNull in e <==> silence)
            && Count(e, RestoreStderr) == (if silence && !OpenFails(silence, failing) then 1 else 0)
            && (RestoreStderr in e ==> Last(e) == RestoreStderr)
    ensures OpenFails(silence, failing) ==>
              && Trace(silence, persistent, plan, failing) == [ApplyTimeouts, OpenDevNull]
              && LifecycleError(silence, plan, failing) == Some(CallFailed(OpenDevNull))
  {
    var e := Trace(silence, persistent, plan, failing);
    LifecycleFrame(silence, persistent, plan, failing);
    if OpenFails(silence, failing) {
      CountZero(e, RestoreStderr);
    } else {
      LifecycleOpened(silence, persistent, plan, failing);
      var done := Execute(plan, failing);
      ExecuteSteps(plan, failing);
      var cleanup := if !persistent then [Cleanup] else [];
      var restore := if silence then [RestoreStderr] else [];
      var before := Opening(silence) + done + cleanup;
      assert e == before + restore;
      assert RestoreStderr !in done;
      CountAppend(before, restore, RestoreStderr);
      CountZero(before, RestoreStderr);
    }
  }

  /** The provider bootstrap runs exactly when the provider is Gardener and
      the workspace directory was resolved; when it fails, neither Create nor
      Delete reaches `terraform init`, and the error is wrapped. */
  lemma ProviderBootstrap(silence: bool, persistent: bool, p: ProviderType, rest: seq<Event>, failing: set<Event>)
    requires WorkspacePlan(rest) && InitGardenerProvider !in rest
    ensures var e := Trace(silence, persistent, SetupPlan(p) + rest, failing);
            InitGardenerProvider in WorkspaceCalls(e)
            <==> p == Gardener && !OpenFails(silence, failing) && ClusterDir !in failing
    ensures var e := Trace(silence, persistent, SetupPlan(p) + rest, failing);
            InitGardenerProvider in WorkspaceCalls(e) && InitGardenerProvider in failing ==>
              && WorkspaceCalls(e) == [ClusterDir, InitGardenerProvider]
              && LifecycleError(silence, SetupPlan(p) + rest, failing)
                 == Some(Wrapped(GARDENER_INIT_FAILED, CallFailed(InitGardenerProvider)))
  {
    var plan := SetupPlan(p) + rest;
    var done := Execute(plan, failing);
    ExecuteSteps(plan, failing);
    WorkspaceCallsFollowPlan(silence, persistent, plan, failing);
    if !OpenFails(silence, failing) {
      assert plan[0] == ClusterDir;
      if ClusterDir in failing {
        assert done == [ClusterDir];
      } else if p == Gardener {
        assert plan[1] == InitGardenerProvider;
        assert |done| >= 2 && done[1] == InitGardenerProvider;
        if InitGardenerProvider in failing {
          assert |done| == 2;
          assert done == plan[..2] == [ClusterDir, InitGardenerProvider];
        }
      } else {
        assert plan == [ClusterDir, TfInit, InitClusterFiles] + rest;
        assert InitGardenerProvider !in plan;
      }
    }
  }

  /** Writing the cluster files is the last setup step: when it is reached
      and fails, the whole setup ran, nothing of the rest of the plan runs,
      and the error is wrapped as "Could not initialize cluster data". */
  lemma ClusterFilesFailure(silence: bool, persistent: bool, p: ProviderType, rest: seq<Event>, failing: set<Event>)
    requires WorkspacePlan(rest) && InitClusterFiles !in rest
    ensures var e := Trace(silence, persistent, SetupPlan(p) + rest, failing);
            InitClusterFiles in WorkspaceCalls(e) && InitClusterFiles in failing ==>
              && WorkspaceCalls(e) == SetupPlan(p)
              && LifecycleError(silence, SetupPlan(p) + rest, failing)
                 == Some(Wrapped(CLUSTER_DATA_FAILED, CallFailed(InitClusterFiles)))
  {
    var setup, plan := SetupPlan(p), SetupPlan(p) + rest;
    var front := [ClusterDir] + (if p == Gardener then [InitGardenerProvider] else []) + [TfInit];
    assert setup == front + [InitClusterFiles];
    WorkspaceCallsFollowPlan(silence, persistent, plan, failing);
    ExecuteAppend(setup, rest, failing);
    ExecuteSteps(setup, failing);
    ExecuteSteps(rest, failing);
    ReachesLast(front, InitClusterFiles, failing);
    PlanErrorAppend(setup, rest, failing);
  }

  // ---------------------------------------------------------------------
  // Properties of Create and Delete

  /** Both plans consist of workspace calls, and each ends in a call that
      occurs nowhere earlier in it. */
  lemma PlansOnWorkspace(p: ProviderType, supplied: bool)
    ensures WorkspacePlan(CreatePlan(p)) && WorkspacePlan(DeletePlan(p, supplied))
    ensures CreatePlan(p) == SetupPlan(p) + [TfApply] + [ClusterInfoFromFile]
    ensures DeletePlan(p, supplied) == SetupPlan(p) + [if supplied then StateToFile else StateFromFile] + [TfDestroy]
    ensures ClusterInfoFromFile !in SetupPlan(p) + [TfApply]
    ensures TfDestroy !in SetupPlan(p) + [if supplied then StateToFile else StateFromFile]
  {
  }

  /** Create returns the cluster details exactly when every step succeeds,
      and then it ran them all. */
  lemma CreateSucceeds(ops: Options, p: ProviderType, env: Env)
    ensures var r := CreateRun(ops, p, env);
            r.result.Ok? <==> !OpenFails(!ops.verbose, env.failing) && forall c :: c in CreatePlan(p) ==> c !in env.failing
    ensures var r := CreateRun(ops, p, env);
            r.result.Ok? ==> r.result.value == env.info && WorkspaceCalls(r.events) == CreatePlan(p)
  {
    var silence, plan, failing := !ops.verbose, CreatePlan(p), env.failing;
    PlansOnWorkspace(p, false);
    FirstFailureDecides(silence, ops.persistent, plan, failing);
    WorkspaceCallsFollowPlan(silence, ops.persistent, plan, failing);
    ExecuteSucceeds(plan, failing);
  }

  /** Create reads the cluster details back only after every earlier step
      succeeded. */
  lemma CreateReadsInfoLast(ops: Options, p: ProviderType, env: Env)
    ensures var r := CreateRun(ops, p, env);
            ClusterInfoFromFile in r.events ==>
              && WorkspaceCalls(r.events) == CreatePlan(p)
              && forall c :: c in SetupPlan(p) + [TfApply] ==> c !in env.failing
  {
    var silence, plan, failing := !ops.verbose, CreatePlan(p), env.failing;
    var e := Trace(silence, ops.persistent, plan, failing);
    PlansOnWorkspace(p, false);
    WorkspaceCallsFollowPlan(silence, ops.persistent, plan, failing);
    WorkspaceCallsMember(e, ClusterInfoFromFile);
    ReachesLast(SetupPlan(p) + [TfApply], ClusterInfoFromFile, failing);
  }

  /** A Create whose cluster files cannot be written returns the wrapped
      error and never applies. */
  lemma CreateClusterFilesFailure(ops: Options, p: ProviderType, env: Env)
    ensures var r := CreateRun(ops, p, env);
            InitClusterFiles in r.events && InitClusterFiles in env.failing ==>
              && r.result == Err(Wrapped(CLUSTER_DATA_FAILED, CallFailed(InitClusterFiles)))
              && TfApply !in r.events && ClusterInfoFromFile !in r.events
  {
    var silence, plan := !ops.verbose, CreatePlan(p);
    var e := Trace(silence, ops.persistent, plan, env.failing);
    PlansOnWorkspace(p, false);
    ClusterFilesFailure(silence, ops.persistent, p, [TfApply, ClusterInfoFromFile], env.failing);
    WorkspaceCallsMember(e, InitClusterFiles);
    WorkspaceCallsMember(e, TfApply);
    WorkspaceCallsMember(e, ClusterInfoFromFile);
  }

  /** A Create that fails returns no details and the error of the one call
      that failed. */
  lemma CreateFailure(ops: Options, p: ProviderType, env: Env)
    ensures var r := CreateRun(ops, p, env);
            forall c :: c in r.events && c in env.failing && (IsWorkspaceCall(c) || c == OpenDevNull)
                   ==> r.result == Err(ErrorFor(c))
  {
    PlansOnWorkspace(p, false);
    FirstFailureDecides(!ops.verbose, ops.persistent, CreatePlan(p), env.failing);
  }

  /** Delete without a supplied state only loads one, and with a supplied
      state only stores it. */
  lemma DeleteStateCall(ops: Options, sf: Option<StateFile>, p: ProviderType, env: Env)
    ensures var r := DeleteRun(ops, sf, p, env);
            && (sf.None? ==> StateToFile !in r.events)
            && (sf.Some? ==> StateFromFile !in r.events)
  {
    var plan := DeletePlan(p, sf.Some?);
    PlansOnWorkspace(p, sf.Some?);
    ExecuteSteps(plan, env.failing);
    assert sf.None? ==> StateToFile !in plan;
    assert sf.Some? ==> StateFromFile !in plan;
  }

  /** Destroy runs only after the state was loaded or stored and every
      earlier step succeeded; a supplied state is stored right before it. */
  lemma DeleteDestroysLast(ops: Options, sf: Option<StateFile>, p: ProviderType, env: Env)
    ensures var r := DeleteRun(ops, sf, p, env);
            TfDestroy in r.events ==>
              && WorkspaceCalls(r.events) == DeletePlan(p, sf.Some?)
              && forall c :: c in SetupPlan(p) + [if sf.Some? then StateToFile else StateFromFile] ==> c !in env.failing
  {
    var plan, failing := DeletePlan(p, sf.Some?), env.failing;
    var e := Trace(true, ops.persistent, plan, failing);
    PlansOnWorkspace(p, sf.Some?);
    WorkspaceCallsFollowPlan(true, ops.persistent, plan, failing);
    WorkspaceCallsMember(e, TfDestroy);
    ReachesLast(SetupPlan(p) + [if sf.Some? then StateToFile else StateFromFile], TfDestroy, failing);
  }

  /** Delete succeeds exactly when destroy ran and succeeded. */
  lemma DeleteSucceeds(ops: Options, sf: Option<StateFile>, p: ProviderType, env: Env)
    ensures var r := DeleteRun(ops, sf, p, env);
            r.result.None? <==> TfDestroy in r.events && TfDestroy !in env.failing
  {
    var plan, failing := DeletePlan(p, sf.Some?), env.failing;
    var e := Trace(true, ops.persistent, plan, failing);
    PlansOnWorkspace(p, sf.Some?);
    FirstFailureDecides(true, ops.persistent, plan, failing);
    DeleteDestroysLast(ops, sf, p, env);
    ExecuteSucceeds(plan, failing);
    WorkspaceCallsFollowPlan(true, ops.persistent, plan, failing);
    WorkspaceCallsMember(e, TfDestroy);
    if TfDestroy in e && TfDestroy !in failing {
      assert forall c :: c in plan ==> c in SetupPlan(p) + [if sf.Some? then StateToFile else StateFromFile] || c == TfDestroy;
    }
  }

  /** The destroy's error is returned unwrapped, and a failed load or store
      of the state returns its wrapped error without destroying anything. */
  lemma DeleteFailure(ops: Options, sf: Option<StateFile>, p: ProviderType, env: Env)
    ensures var r := DeleteRun(ops, sf, p, env);
            TfDestroy in r.events && TfDestroy in env.failing ==> r.result == Some(CallFailed(TfDestroy))
    ensures var r := DeleteRun(ops, sf, p, env);
            StateFromFile in r.events && StateFromFile in env.failing ==>
              TfDestroy !in r.events && r.result == Some(Wrapped(NO_STATE_FAILED, CallFailed(StateFromFile)))
    ensures var r := DeleteRun(ops, sf, p, env);
            StateToFile in r.events && StateToFile in env.failing ==>
              TfDestroy !in r.events && r.result == Some(Wrapped(STORE_STATE_FAILED, CallFailed(StateToFile)))
  {
    var state := if sf.Some? then StateToFile else StateFromFile;
    PlansOnWorkspace(p, sf.Some?);
    FirstFailureDecides(true, ops.persistent, DeletePlan(p, sf.Some?), env.failing);
    DeleteStateCall(ops, sf, p, env);
    DeleteDestroysLast(ops, sf, p, env);
    assert state in SetupPlan(p) + [state];
  }
}
