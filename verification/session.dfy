/** The body of `main` in main.go: authenticate, join, then call
    `HandleGame` until its result is classified as something other than
    "log and continue" (main.go lines 35-93). */
module Session {
  import opened Wrappers
  import opened ErrorChain
  import opened Classifier

  /** Where the loop stands after a finite run of `HandleGame` results:
      stopped at result number `at` with a final outcome, or still looping
      after logging one handler error per result. */
  datatype LoopState =
    | Stopped(outcome: Outcome, at: nat)
    | Running(logged: seq<Error>)

  /** The `for` loop of main.go as a fold over the results `HandleGame`
      returns, in order, on one and the same client. It stops at the first
      result that does not classify as `Continue`. */
  function RunLoop(results: seq<Option<Error>>): (s: LoopState)
    ensures s.Stopped? ==>
      && s.at < |results|
      && Classify(results[s.at]) == s.outcome
      && !s.outcome.Continue?
      && forall i :: 0 <= i < s.at ==> Classify(results[i]).Continue?
    ensures s.Running? ==>
      && |s.logged| == |results|
      && forall i :: 0 <= i < |results| ==> Classify(results[i]) == Continue(s.logged[i])
  {
    if |results| == 0 then Running([])
    else
      match Classify(results[0])
      case Continue(h) =>
        (match RunLoop(results[1..])
         case Stopped(o, n) => Stopped(o, n + 1)
         case Running(hs) => Running([h] + hs))
      case o => Stopped(o, 0)
  }

  /** The same loop written as the source writes it: one `HandleGame` call
      per iteration, on the same client, until a non-continue outcome. */
  method MainLoop(results: seq<Option<Error>>) returns (s: LoopState)
    ensures s == RunLoop(results)
    ensures s.Stopped? ==> s.at < |results| && !s.outcome.Continue?
    ensures s.Running? ==> |s.logged| == |results|
  {
    var logged: seq<Error> := [];
    var n := 0;
    while n < |results|
      invariant n <= |results|
      invariant |logged| == n
      invariant Resumes(results, n, logged)
    {
      var o := Classify(results[n]);
      if !o.Continue? {
        StopStep(results, n, logged);
        return Stopped(o, n);
      }
      ContinueStep(results, n, logged);
      logged := logged + [o.logged];
      n := n + 1;
    }
    assert results[n..] == [];
    s := Running(logged);
  }

  /** The loop state after `n` continued results is the state of the rest,
      shifted past what was logged so far. */
  ghost predicate Resumes(results: seq<Option<Error>>, n: nat, logged: seq<Error>)
    requires n <= |results|
  {
    RunLoop(results) == ShiftBy(RunLoop(results[n..]), logged)
  }

  lemma ContinueStep(results: seq<Option<Error>>, n: nat, logged: seq<Error>)
    requires n < |results| && Resumes(results, n, logged)
    requires Classify(results[n]).Continue?
    ensures Resumes(results, n + 1, logged + [Classify(results[n]).logged])
  {
    assert results[n..][1..] == results[n + 1..];
    RunLoopUnfold(results[n..]);
    ShiftByAppend(RunLoop(results[n + 1..]), logged, [Classify(results[n]).logged]);
  }

  lemma StopStep(results: seq<Option<Error>>, n: nat, logged: seq<Error>)
    requires n < |results| && Resumes(results, n, logged) && |logged| == n
    requires !Classify(results[n]).Continue?
    ensures RunLoop(results) == Stopped(Classify(results[n]), n)
  {
    RunLoopUnfold(results[n..]);
  }

  /** One step of the fold, with the classification named once. */
  lemma RunLoopUnfold(results: seq<Option<Error>>)
    requires |results| > 0
    ensures var o := Classify(results[0]);
      RunLoop(results) ==
        if o.Continue? then ShiftBy(RunLoop(results[1..]), [o.logged]) else Stopped(o, 0)
  {
  }

  /** Shifting twice is shifting by the concatenated prefixes. */
  lemma ShiftByAppend(s: LoopState, a: seq<Error>, b: seq<Error>)
    ensures ShiftBy(ShiftBy(s, b), a) == ShiftBy(s, a + b)
  {
    if s.Running? {
      assert a + (b + s.logged) == (a + b) + s.logged;
    }
  }

  /** The loop state after first working through results that all
      continued, logging `prefix`. */
  function ShiftBy(s: LoopState, prefix: seq<Error>): LoopState {
    match s
    case Stopped(o, n) => Stopped(o, n + |prefix|)
    case Running(hs) => Running(prefix + hs)
  }

  /** Once the loop has stopped, later results are never looked at: the
      process has already returned, exited or panicked. */
  lemma {:induction false} StopIsFinal(xs: seq<Option<Error>>, ys: seq<Option<Error>>)
    requires RunLoop(xs).Stopped?
    ensures RunLoop(xs + ys) == RunLoop(xs)
  {
    assert (xs + ys)[0] == xs[0];
    assert (xs + ys)[1..] == xs[1..] + ys;
    if Classify(xs[0]).Continue? {
      StopIsFinal(xs[1..], ys);
    }
  }

  /** Handler errors that were logged and ignored do not end the session:
      the loop goes on to the next result on the same client, and what it
      does there is what it would do from a fresh start, shifted past what
      was already logged. */
  lemma {:induction false} HandlerErrorsKeepLooping(xs: seq<Option<Error>>, ys: seq<Option<Error>>)
    requires RunLoop(xs).Running?
    ensures RunLoop(xs + ys) == ShiftBy(RunLoop(ys), RunLoop(xs).logged)
  {
    if |xs| == 0 {
      assert xs + ys == ys;
      if RunLoop(ys).Running? {
        assert [] + RunLoop(ys).logged == RunLoop(ys).logged;
      }
    } else {
      assert (xs + ys)[0] == xs[0];
      assert (xs + ys)[1..] == xs[1..] + ys;
      HandlerErrorsKeepLooping(xs[1..], ys);
      ShiftByAppend(RunLoop(ys), [Classify(xs[0]).logged], RunLoop(xs[1..]).logged);
    }
  }

  /** After any run of logged handler errors, the next result is still
      handled: a nil one panics, a wrapped disconnect exits, and so on. */
  lemma {:induction false} NextResultHandled(xs: seq<Option<Error>>, next: Option<Error>)
    requires RunLoop(xs).Running?
    ensures var s := RunLoop(xs + [next]);
      if Classify(next).Continue? then s == Running(RunLoop(xs).logged + [Classify(next).logged])
      else s == Stopped(Classify(next), |xs|)
  {
    var o := Classify(next);
    HandlerErrorsKeepLooping(xs, [next]);
    RunLoopUnfold([next]);
    assert [next][1..] == [];
    if o.Continue? {
      assert RunLoop([next]) == Running([o.logged]);
    } else {
      assert RunLoop([next]) == Stopped(o, 0);
    }
  }

  /** The credential bundle the authentication step yields. */
  datatype Credential = Credential(name: string, uuid: string, token: string)

  /** How a run of `main` ends, or that it is still in the loop:
      - `AuthFailed`: obtaining credentials failed; the error is logged and
        `main` returns;
      - `JoinFailed`: `JoinServer` failed; `log.Fatal` prints `logged`
        (nil is printed as `<nil>`) and exits;
      - `Looped`: the session loop ran over the results. */
  datatype SessionEnd =
    | AuthFailed(authErr: Error)
    | JoinFailed(logged: Option<Error>)
    | Looped(state: LoopState)

  /** `main` as written: after a successful authentication the variable
      `err` holds nil, and a failed join logs that stale `err` rather than
      the join error. */
  function RunAsWritten(auth: Result<Credential, Error>, join: Option<Error>,
                        results: seq<Option<Error>>): (s: SessionEnd)
    ensures auth.Success? && join.Some? ==> s == JoinFailed(None)
  {
    match auth
    case Failure(e) => AuthFailed(e)
    case Success(_) =>
      var err: Option<Error> := None;
      if join.Some? then JoinFailed(err) else Looped(RunLoop(results))
  }

  /** `main` with the join failure logging the join error. */
  function Run(auth: Result<Credential, Error>, join: Option<Error>,
               results: seq<Option<Error>>): (s: SessionEnd)
    ensures s.AuthFailed? <==> auth.Failure?
    ensures s.AuthFailed? ==> s.authErr == auth.error
    ensures s.JoinFailed? <==> auth.Success? && join.Some?
    ensures s.JoinFailed? ==> s.logged == join
    ensures s.Looped? <==> auth.Success? && join.None?
  {
    match auth
    case Failure(e) => AuthFailed(e)
    case Success(_) =>
      match join
      case Some(e) => JoinFailed(Some(e))
      case None => Looped(RunLoop(results))
  }

  /** A failed join logs nil as written, while the join error is what the
      log line evidently means to show. */
  lemma StaleJoinErrorLogged(c: Credential, e: Error, results: seq<Option<Error>>)
    ensures RunAsWritten(Success(c), Some(e), results) == JoinFailed(None)
    ensures Run(Success(c), Some(e), results) == JoinFailed(Some(e))
  {
  }

  /** Only the log line differs: both versions end every run the same way. */
  lemma RunAgreesOnExit(auth: Result<Credential, Error>, join: Option<Error>,
                        results: seq<Option<Error>>)
    ensures ExitStatus(RunAsWritten(auth, join, results)) == ExitStatus(Run(auth, join, results))
    ensures join.None? ==> RunAsWritten(auth, join, results) == Run(auth, join, results)
  {
  }

  /** The process exit status of a finished run: 0 when `main` returns, 1
      after `log.Fatal`, 2 after a panic; `None` while still looping. */
  function ExitStatus(s: SessionEnd): (code: Option<int>)
    ensures code.Some? ==> 0 <= code.value <= 2
  {
    match s
    case AuthFailed(_) => Some(0)
    case JoinFailed(_) => Some(1)
    case Looped(Running(_)) => None
    case Looped(Stopped(o, _)) =>
      match o
      case Exit(_) => Some(0)
      case Fatal(_) => Some(1)
      case Panic => Some(2)
      case Continue(_) => None
  }

  /** How a whole run ends: status 0 for a failed authentication or a clean
      disconnect, 1 for a failed join or a fatal loop error, 2 for a nil
      loop result, and no status while the loop still runs. */
  lemma SessionExitStatus(auth: Result<Credential, Error>, join: Option<Error>,
                          results: seq<Option<Error>>)
    ensures var code := ExitStatus(Run(auth, join, results)); var st := RunLoop(results);
      && (code == Some(0) <==> auth.Failure? || (join.None? && st.Stopped? && st.outcome.Exit?))
      && (code == Some(1) <==> auth.Success? && (join.Some? || (st.Stopped? && st.outcome.Fatal?)))
      && (code == Some(2) <==> auth.Success? && join.None? && st.Stopped? && st.outcome.Panic?)
      && (code.None? <==> auth.Success? && join.None? && st.Running?)
  {
  }

  /** Within the loop, only a disconnect wrapped in a handler error ends the
      process with status 0; a nil result panics with status 2 and every
      other stop is fatal with status 1. */
  lemma LoopExitStatus(results: seq<Option<Error>>, c: Credential)
    requires RunLoop(results).Stopped?
    ensures var st := RunLoop(results); var code := ExitStatus(Run(Success(c), None, results));
      && (code == Some(0) <==> results[st.at].Some? && st.outcome.Exit? && DisconnectBeneathHandler(results[st.at].value, st.outcome.reason))
      && (code == Some(2) <==> results[st.at].None?)
      && (code == Some(1) <==> results[st.at].Some? && !HasHandler(results[st.at].value))
  {
    var st := RunLoop(results);
    if results[st.at].Some? {
      var e := results[st.at].value;
      ClassifyFatalIff(e);
      if st.outcome.Exit? {
        ClassifyExitIff(e, st.outcome.reason);
      }
    }
  }
}
