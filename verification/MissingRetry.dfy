/**
 process_completed_requests calls on_complete without looking whether there is one, and a negative
 answer asks for a retry, for which it calls on_retry in the same way. This module says exactly when
 it calls a null pointer. The transition system takes on_complete as set.
*/
module MissingRetry {
  import opened Sequences
  import opened LoopState
  import opened LoopSteps
  import opened LoopRuns
  import opened Teardown
  import opened OwnerRelease

  /** The call of on_retry; None is a call through NULL. */
  function AskRetry(q: Request, c: Completion): Option<bool> {
    if q.policy == NoPolicy then None else Some(RetryAllowed(q, c))
  }

  /** The branches of process_completed_requests, in the order the code takes them. */
  function Judge(q: Request, onComplete: bool, c: Completion): Option<Outcome> {
    var done := if q.refresh then Again else Finished;
    var retryIn := if c.ok || q.onFailure then c.answer else -1;
    if c.ok && !onComplete then None
    else if c.tooMany && q.rateLimited then Some(TooMany)
    else if retryIn > 0 then Some(Later)
    else if retryIn == 0 then Some(done)
    else match AskRetry(q, c)
      case None => None
      case Some(granted) => Some(if granted then Retry else done)
  }

  /**
   The code faults exactly when the transfer succeeded and on_complete is missing, or a retry is asked
   for, no 429 is handled first and on_retry is missing.
  */
  lemma MissingRetryFaultsIff(q: Request, onComplete: bool, c: Completion)
    ensures Judge(q, onComplete, c) == None <==> (c.ok && !onComplete) || CallsMissingRetry(q, c)
    ensures Judge(q, onComplete, c) != None ==> Judge(q, onComplete, c) == Some(OutcomeOf(q, c))
  {}

  /** As curl_event_request_init and curl_event_request_submit leave it: an on_failure, and no retries. */
  const DEFAULT_REQUEST :=
    Request([], false, false, true, NoPolicy, 0, 0, false, false, false, false, 0, 0, 0)

  /** What curl_sink_defaults sets answers 0, so an untouched default request never faults. */
  lemma DefaultRequestSafeIff(c: Completion)
    ensures Judge(DEFAULT_REQUEST, true, c) != None <==> c.answer >= 0
  {}

  /** Without an on_failure, any transfer that fails faults. */
  lemma NoFailureCallbackFaults(c: Completion)
    requires !c.ok
    ensures Judge(DEFAULT_REQUEST.(onFailure := false), true, c) == None
  {}

  /** The request is in the multi handle and its transfer may end this way. */
  ghost predicate MayFault(s: State, r: Rid, c: Completion) {
    && Reachable(s) && s.mode == Running && r in s.reqs && r in ListOf(s.f, Queued) && !s.reqs[r].isCancelled
    && !(c.ok && c.tooMany) && Judge(s.reqs[r], true, c) == None
  }

  /**
   It happens: a default request whose on_failure has been replaced by one that asks for a retry at
   once, and whose transfer fails.
  */
  lemma MissingRetryCalled()
    ensures exists s: State, r: Rid, c: Completion :: MayFault(s, r, c)
  {
    var s := QueuedDefault();
    MissingRetryFaultsIff(s.reqs[1], true, Completion(false, false, -1, 0, false, 0, 0, 0));
    assert MayFault(s, 1, Completion(false, false, -1, 0, false, 0, 0, 0));
  }

  lemma QueuedDefault() returns (s: State)
    ensures Reachable(s) && s.mode == Running && ListOf(s.f, Queued) == [1] && 1 in s.reqs
    ensures s.reqs[1].policy == NoPolicy && s.reqs[1].onFailure && !s.reqs[1].rateLimited && !s.reqs[1].isCancelled
    ensures !s.reqs[1].refresh && s.reqs.Keys == {1}
  {
    var s0 := Initial(1);
    assert Run(s0, [], s0);
    var u := Submitted(s0, 1, DEFAULT_REQUEST, 0);
    var v := Detached(u, 1, 0);
    s := Launched(v);
  }

  lemma Launched(s: State) returns (t: State)
    requires Reachable(s) && WaitingAlone(s, 1) && s.reqs[1] == FreshRequest(DEFAULT_REQUEST)
    requires ListOf(s.f, Queued) == [] && s.maxConcurrent == 1
    ensures Reachable(t) && t.mode == Running && ListOf(t.f, Queued) == [1] && 1 in t.reqs
    ensures t.reqs[1].policy == NoPolicy && t.reqs[1].onFailure && !t.reqs[1].rateLimited && !t.reqs[1].isCancelled
    ensures !t.reqs[1].refresh && t.reqs.Keys == s.reqs.Keys
  {
    var e := TakeOne(1, 0, 0, Launch(0, true, 0, 0));
    LaunchedOne(s);
    ReachableStep(s, e);
    var u := Apply(s, e);
    ReachableStep(u, DrainEnd);
    t := Apply(u, DrainEnd);
  }

  lemma LaunchedOne(s: State)
    requires WaitingAlone(s, 1) && s.reqs[1] == FreshRequest(DEFAULT_REQUEST)
    requires ListOf(s.f, Queued) == [] && s.maxConcurrent == 1
    ensures var e := TakeOne(1, 0, 0, Launch(0, true, 0, 0));
      && Enabled(s, e)
      && var t := Apply(s, e);
      && t.mode == Draining && t.cancelWork == [] && ListOf(t.f, Work) == [] && ListOf(t.f, Queued) == [1]
      && 1 in t.reqs && t.reqs[1] == s.reqs[1].(isPending := false, attached := true) && t.reqs.Keys == s.reqs.Keys
  {
    var u := Taken(s, 1);
    assert u.reqs[1].deps == [] && FirstUnmet(u.g, []) == None;
    assert ListOf(u.f, Work) == [] && ListOf(u.f, Queued) == [];
    assert Retain(u, 1) == u;
  }
}
