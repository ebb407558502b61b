/**
 * The fail-fast discipline of node provisioning: the calls of a plan are made
 * in order, and the first one that returns an error is the last one made and
 * its error is the result.
 */
module Pipeline {
  import opened Errors
  import opened ClusterTypes

  /** The calls one provisioning run made and the error it returned (None for nil). */
  datatype Run = Run(trace: seq<Call>, err: Option<Error>)

  /** Every call in `calls` returned nil. */
  predicate AllSucceed(calls: seq<Call>, o: Collaborators)
  {
    forall k :: 0 <= k < |calls| ==> Outcome(calls[k], o).None?
  }

  /** Make the calls of `plan` in order, stopping at the first one that fails. */
  function FailFast(plan: seq<Call>, o: Collaborators): (r: Run)
    ensures r.err.None? ==> r.trace == plan
    ensures r.err.None? <==> AllSucceed(plan, o)
  {
    if plan == [] then Run([], None)
    else if Outcome(plan[0], o).Some? then Run([plan[0]], Outcome(plan[0], o))
    else
      var rest := FailFast(plan[1..], o);
      Run([plan[0]] + rest.trace, rest.err)
  }

  /**
   * The calls made are a prefix of the plan, all of them but the last
   * returned nil, and a run that failed failed on its last call, with the
   * error that call returned.
   */
  lemma {:induction false} StopsAtFirstError(plan: seq<Call>, o: Collaborators)
    ensures var r := FailFast(plan, o);
      && |r.trace| <= |plan| && r.trace == plan[..|r.trace|]
      && (forall k :: 0 <= k < |r.trace| - 1 ==> Outcome(r.trace[k], o).None?)
      && (r.err.Some? ==> r.trace != [] && Outcome(r.trace[|r.trace| - 1], o) == r.err)
  {
    if plan != [] && Outcome(plan[0], o).None? {
      var rest := FailFast(plan[1..], o);
      StopsAtFirstError(plan[1..], o);
      var r := FailFast(plan, o);
      assert r.trace == [plan[0]] + rest.trace;
      assert plan[..|r.trace|] == [plan[0]] + plan[1..][..|rest.trace|];
      forall k | 0 <= k < |r.trace| - 1 ensures Outcome(r.trace[k], o).None? {
        if k > 0 { assert r.trace[k] == rest.trace[k - 1]; }
      }
    }
  }

  /** A planned call is made exactly when every call planned before it succeeded. */
  lemma Reached(plan: seq<Call>, o: Collaborators, k: nat)
    requires k < |plan|
    ensures k < |FailFast(plan, o).trace| <==> AllSucceed(plan[..k], o)
    ensures k < |FailFast(plan, o).trace| ==> FailFast(plan, o).trace[k] == plan[k]
  {
    StopsAtFirstError(plan, o);
    var r := FailFast(plan, o);
    if k < |r.trace| {
      forall j | 0 <= j < k ensures Outcome(plan[..k][j], o).None? {
        assert plan[..k][j] == r.trace[j];
      }
    }
  }

  /** All of `a` succeeded, and dropping its first call keeps that so. */
  lemma AllSucceedTail(a: seq<Call>, o: Collaborators)
    requires a != []
    ensures AllSucceed(a, o) <==> Outcome(a[0], o).None? && AllSucceed(a[1..], o)
  {
    if Outcome(a[0], o).None? && AllSucceed(a[1..], o) {
      forall k | 0 <= k < |a| ensures Outcome(a[k], o).None? {
        if k > 0 { assert a[k] == a[1..][k - 1]; }
      }
    }
  }

  /** Once all of `a` succeeded, running `a + b` is `a` followed by running `b`. */
  lemma {:induction false} ConcatSucceeded(a: seq<Call>, b: seq<Call>, o: Collaborators)
    requires AllSucceed(a, o)
    ensures FailFast(a + b, o) == Run(a + FailFast(b, o).trace, FailFast(b, o).err)
  {
    if a == [] {
      assert a + b == b;
    } else {
      AllSucceedTail(a, o);
      var ab := a + b;
      assert ab[0] == a[0] && ab[1..] == a[1..] + b;
      var tail := FailFast(a[1..] + b, o);
      assert FailFast(ab, o) == Run([a[0]] + tail.trace, tail.err);
      ConcatSucceeded(a[1..], b, o);
      assert [a[0]] + (a[1..] + FailFast(b, o).trace) == a + FailFast(b, o).trace;
    }
  }

  /** When a call of `a` fails, whatever follows `a` is never reached. */
  lemma {:induction false} ConcatFailed(a: seq<Call>, b: seq<Call>, o: Collaborators)
    requires !AllSucceed(a, o)
    ensures FailFast(a + b, o) == FailFast(a, o)
  {
    AllSucceedTail(a, o);
    assert (a + b)[0] == a[0];
    if Outcome(a[0], o).None? {
      assert (a + b)[1..] == a[1..] + b;
      ConcatFailed(a[1..], b, o);
    }
  }

  /** A run that had already made the calls `done` before going on as `r`. */
  function After(done: seq<Call>, r: Run): (run: Run)
  {
    Run(done + r.trace, r.err)
  }

  /** A call that returns nil is made and the run goes on with the rest of the plan. */
  lemma Continue(done: seq<Call>, c: Call, rest: seq<Call>, o: Collaborators)
    requires Outcome(c, o).None?
    ensures After(done, FailFast([c] + rest, o)) == After(done + [c], FailFast(rest, o))
  {
    assert ([c] + rest)[0] == c && ([c] + rest)[1..] == rest;
    assert done + ([c] + FailFast(rest, o).trace) == (done + [c]) + FailFast(rest, o).trace;
  }

  /** A call that returns an error is the last call of the run, and its error is the result. */
  lemma Stop(done: seq<Call>, c: Call, rest: seq<Call>, o: Collaborators)
    requires Outcome(c, o).Some?
    ensures After(done, FailFast([c] + rest, o)) == Run(done + [c], Outcome(c, o))
  {
    assert ([c] + rest)[0] == c;
  }

  /** Running `a + b` is running `a`, then, unless `a` failed, running `b` after it. */
  lemma Sequence(a: seq<Call>, b: seq<Call>, o: Collaborators)
    ensures FailFast(a + b, o) ==
      if FailFast(a, o).err.Some? then FailFast(a, o)
      else Run(a + FailFast(b, o).trace, FailFast(b, o).err)
  {
    if AllSucceed(a, o) {
      ConcatSucceeded(a, b, o);
    } else {
      ConcatFailed(a, b, o);
    }
  }

  /** The same law for a run that had already made the calls `done`. */
  lemma SequenceAfter(done: seq<Call>, a: seq<Call>, b: seq<Call>, o: Collaborators)
    ensures After(done, FailFast(a + b, o)) ==
      if FailFast(a, o).err.Some? then After(done, FailFast(a, o))
      else After(done + FailFast(a, o).trace, FailFast(b, o))
  {
    Sequence(a, b, o);
    if FailFast(a, o).err.None? {
      var rb := FailFast(b, o);
      assert FailFast(a, o).trace == a;
      assert FailFast(a + b, o) == Run(a + rb.trace, rb.err);
      assert done + (a + rb.trace) == (done + a) + rb.trace;
    }
  }

  /** A call made while running `a + b` was made while running `a`, or, once all of `a` succeeded, while running `b`. */
  lemma MadeInSequence(a: seq<Call>, b: seq<Call>, o: Collaborators, c: Call)
    ensures c in FailFast(a + b, o).trace <==>
              c in FailFast(a, o).trace || (AllSucceed(a, o) && c in FailFast(b, o).trace)
  {
    Sequence(a, b, o);
  }

  /** Only planned calls are made. */
  lemma MadeOnlyPlanned(plan: seq<Call>, o: Collaborators, c: Call)
    ensures c in FailFast(plan, o).trace ==> c in plan
  {
    StopsAtFirstError(plan, o);
    var r := FailFast(plan, o);
    if c in r.trace {
      var i :| 0 <= i < |r.trace| && r.trace[i] == c;
      assert plan[i] == c;
    }
  }

  /**
   * Starting Zookeeper storage and asking whether the Swarm mode cluster is
   * initialized have no error result, so no run ever stops on either.
   */
  lemma {:induction false} IgnoredCallsNeverStop(plan: seq<Call>, o: Collaborators)
    ensures var r := FailFast(plan, o);
      r.err.Some? ==>
        !r.trace[|r.trace| - 1].StartClusterStorage? &&
        !r.trace[|r.trace| - 1].IsSwarmModeClusterInitialized?
  {
    StopsAtFirstError(plan, o);
  }
}
