/** The calls the Terraform operator makes on its collaborators, and the rule
    by which it sequences them: run the calls of a plan in order and stop at
    the first one that fails. */
module Calls {

  /** One call on a collaborator, or one of the two deferred actions. */
  datatype Event =
    | ApplyTimeouts         // copy the configured timeouts into the config
    | OpenDevNull           // open the null device to silence stderr
    | ClusterDir            // resolve and create the workspace directory
    | InitGardenerProvider  // one-time Gardener provider bootstrap
    | TfInit                // terraform init in the workspace
    | InitClusterFiles      // write the provider config into the workspace
    | TfApply               // terraform apply
    | ClusterInfoFromFile   // read the cluster details back
    | StateFromFile         // load the state file from the workspace
    | StateToFile           // store a supplied state into the workspace
    | TfDestroy             // terraform destroy
    | Cleanup               // deferred: remove the workspace
    | RestoreStderr         // deferred: put the saved stderr back

  /** Calls that work on the cluster's workspace or run the engine in it. */
  predicate IsWorkspaceCall(e: Event) {
    !(e.ApplyTimeouts? || e.OpenDevNull? || e.Cleanup? || e.RestoreStderr?)
  }

  function Last(s: seq<Event>): Event
    requires s != []
  {
    s[|s| - 1]
  }

  /** The calls done so far stopped on a failure. */
  predicate Halted(done: seq<Event>, failing: set<Event>) {
    done != [] && Last(done) in failing
  }

  /** The calls made when the steps of `plan` are run in order, each one only
      if every earlier one succeeded: the shortest prefix of `plan` that ends
      in a failing call, or all of `plan` when none fails. */
  function Execute(plan: seq<Event>, failing: set<Event>): seq<Event> {
    if plan == [] then []
    else if plan[0] in failing then [plan[0]]
    else [plan[0]] + Execute(plan[1..], failing)
  }

  /** The calls made are a prefix of the plan, every one of them but the
      last succeeded, and the plan stops short only at a failing call. */
  lemma {:induction false} ExecuteSteps(plan: seq<Event>, failing: set<Event>)
    ensures var done := Execute(plan, failing);
            |done| <= |plan| && done == plan[..|done|] && (|done| < |plan| ==> Halted(done, failing))
    ensures forall c :: c in Execute(plan, failing) ==> c in plan
    ensures forall i :: 0 <= i < |Execute(plan, failing)| - 1 ==> Execute(plan, failing)[i] !in failing
  {
    if plan != [] && plan[0] !in failing {
      ExecuteSteps(plan[1..], failing);
      var rest := Execute(plan[1..], failing);
      assert Execute(plan, failing) == [plan[0]] + rest;
      assert plan == [plan[0]] + plan[1..];
      if rest != [] {
        assert Last([plan[0]] + rest) == Last(rest);
      }
    }
  }

  /** The whole plan runs and ends without a failure exactly when no step of
      the plan fails. */
  lemma {:induction false} ExecuteSucceeds(plan: seq<Event>, failing: set<Event>)
    ensures !Halted(Execute(plan, failing), failing) <==> forall c :: c in plan ==> c !in failing
    ensures !Halted(Execute(plan, failing), failing) ==> Execute(plan, failing) == plan
  {
    var done := Execute(plan, failing);
    ExecuteSteps(plan, failing);
    if !Halted(done, failing) {
      assert done == plan;
      forall c | c in plan ensures c !in failing {
        var k :| 0 <= k < |plan| && plan[k] == c;
        assert done[k] == c;
      }
    } else {
      assert Last(done) in plan;
    }
  }

  /** Running a plan whose first step is `e` makes the call `e`, and runs
      the rest of the plan only if that call succeeds. */
  lemma Advance(plan: seq<Event>, e: Event, failing: set<Event>)
    requires plan != [] && plan[0] == e
    ensures Execute(plan, failing) == if e in failing then [e] else [e] + Execute(plan[1..], failing)
  {
  }

  /** Running `a + b` runs `a`, and then `b` only when `a` ran through
      without a failure. */
  lemma {:induction false} ExecuteAppend(a: seq<Event>, b: seq<Event>, failing: set<Event>)
    ensures Halted(Execute(a, failing), failing) ==> Execute(a + b, failing) == Execute(a, failing)
    ensures !Halted(Execute(a, failing), failing) ==> Execute(a + b, failing) == a + Execute(b, failing)
  {
    if a == [] {
      assert a + b == b;
    } else {
      var ab := a + b;
      assert ab[0] == a[0] && ab[1..] == a[1..] + b;
      Advance(ab, a[0], failing);
      Advance(a, a[0], failing);
      if a[0] !in failing {
        ExecuteAppend(a[1..], b, failing);
        var rest := Execute(a[1..], failing);
        if rest != [] {
          assert Last([a[0]] + rest) == Last(rest);
        }
        assert a == [a[0]] + a[1..];
      }
    }
  }

  /** The last step of a plan, when it occurs nowhere earlier, is reached
      only when every earlier step succeeded, and then the whole plan ran. */
  lemma ReachesLast(front: seq<Event>, last: Event, failing: set<Event>)
    requires last !in front
    ensures last in Execute(front + [last], failing) ==>
              && Execute(front + [last], failing) == front + [last]
              && forall c :: c in front ==> c !in failing
  {
    ExecuteAppend(front, [last], failing);
    ExecuteSucceeds(front, failing);
    ExecuteSteps(front, failing);
  }

  /** The workspace calls of a trace, in order. */
  function WorkspaceCalls(s: seq<Event>): seq<Event> {
    if s == [] then []
    else (if IsWorkspaceCall(s[0]) then [s[0]] else []) + WorkspaceCalls(s[1..])
  }

  lemma {:induction false} WorkspaceCallsAppend(a: seq<Event>, b: seq<Event>)
    ensures WorkspaceCalls(a + b) == WorkspaceCalls(a) + WorkspaceCalls(b)
  {
    if a == [] {
      assert a + b == b;
    } else {
      var ab := a + b;
      assert ab[0] == a[0] && ab[1..] == a[1..] + b;
      WorkspaceCallsAppend(a[1..], b);
      var head := if IsWorkspaceCall(a[0]) then [a[0]] else [];
      assert WorkspaceCalls(ab) == head + WorkspaceCalls(a[1..] + b);
      assert WorkspaceCalls(a) == head + WorkspaceCalls(a[1..]);
    }
  }

  lemma {:induction false} WorkspaceCallsMember(s: seq<Event>, c: Event)
    ensures c in WorkspaceCalls(s) <==> c in s && IsWorkspaceCall(c)
  {
    if s != [] {
      assert s == [s[0]] + s[1..];
      WorkspaceCallsMember(s[1..], c);
    }
  }

  /** A trace made only of workspace calls is its own workspace part. */
  lemma {:induction false} WorkspaceCallsOnly(s: seq<Event>)
    requires forall c :: c in s ==> IsWorkspaceCall(c)
    ensures WorkspaceCalls(s) == s
  {
    if s != [] {
      assert s == [s[0]] + s[1..];
      WorkspaceCallsOnly(s[1..]);
    }
  }

  /** How many times `e` occurs in a trace. */
  function Count(s: seq<Event>, e: Event): nat {
    if s == [] then 0 else (if s[0] == e then 1 else 0) + Count(s[1..], e)
  }

  lemma {:induction false} CountAppend(a: seq<Event>, b: seq<Event>, e: Event)
    ensures Count(a + b, e) == Count(a, e) + Count(b, e)
  {
    if a == [] {
      assert a + b == b;
    } else {
      assert (a + b)[1..] == a[1..] + b;
      CountAppend(a[1..], b, e);
    }
  }

  lemma {:induction false} CountZero(s: seq<Event>, e: Event)
    ensures Count(s, e) == 0 <==> e !in s
  {
    if s != [] {
      assert s == [s[0]] + s[1..];
      CountZero(s[1..], e);
    }
  }
}
