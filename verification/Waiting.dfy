// The two polling loops (pkg/helper/openstack.go) and what decides their outcome.
module Waiting {
  import opened Text
  import opened CloudModel
  import opened Program
  import opened Backoff
  import opened Service

  /** What a wait is for, and how it can end; a goal is reached by the answer that shows it. */
  datatype Goal = BecomeActive | BeGone
  datatype Outcome = Reached(poll: Reply<Lb>) | WentIntoError | CallFailed | TimedOut

  function Limit(goal: Goal): nat {
    if goal.BecomeActive? then ACTIVE_STEPS else DELETE_STEPS
  }

  /** What one poll says; nothing while the load balancer is on its way. */
  function Verdict(goal: Goal, poll: Reply<Lb>): Option<Outcome> {
    match goal
    case BecomeActive =>
      if !poll.Answer? then Some(CallFailed)
      else if poll.value.status.Active? then Some(Reached(poll))
      else if poll.value.status.Error? then Some(WentIntoError)
      else None
    case BeGone =>
      match poll
      case Answer(_) => None
      case NotFound => Some(Reached(poll))
      case Failed => Some(CallFailed)
  }

  ghost predicate Undecided(polls: seq<Reply<Lb>>, goal: Goal) {
    forall k :: 0 <= k < |polls| ==> Verdict(goal, polls[k]) == None
  }

  /** The last poll decides; all earlier ones were undecided; undecided to the limit is a timeout. */
  ghost predicate Decided(polls: seq<Reply<Lb>>, goal: Goal, r: Outcome) {
    && 1 <= |polls| <= Limit(goal)
    && Undecided(polls[..|polls| - 1], goal)
    && match Verdict(goal, polls[|polls| - 1])
       case Some(v) => r == v
       case None => |polls| == Limit(goal) && r == TimedOut
  }

  /** The calls that these answers were given to. */
  ghost function Gets(id: nat, polls: seq<Reply<Lb>>): seq<Event> {
    if polls == [] then [] else Gets(id, polls[..|polls| - 1]) + [GetLb(id, polls[|polls| - 1])]
  }

  lemma GetsExtend(id: nat, polls: seq<Reply<Lb>>, got: Reply<Lb>)
    ensures Gets(id, polls + [got]) == Gets(id, polls) + [GetLb(id, got)]
  {
    assert (polls + [got])[..|polls|] == polls;
  }

  /** The calls tell the answers. */
  lemma {:induction false} GetsAt(id: nat, polls: seq<Reply<Lb>>, k: nat)
    requires k < |polls|
    ensures |Gets(id, polls)| == |polls| && Gets(id, polls)[k] == GetLb(id, polls[k])
  {
    if |polls| > 1 {
      GetsAt(id, polls[..|polls| - 1], if k < |polls| - 1 then k else 0);
    }
  }

  lemma OneMorePoll(polls: seq<Reply<Lb>>, got: Reply<Lb>, goal: Goal)
    requires Undecided(polls, goal) && |polls| < Limit(goal)
    ensures match Verdict(goal, got)
            case Some(v) => Decided(polls + [got], goal, v)
            case None =>
              && Undecided(polls + [got], goal)
              && (|polls| + 1 == Limit(goal) ==> Decided(polls + [got], goal, TimedOut))
  {
    assert (polls + [got])[..|polls|] == polls;
  }

  /**
    The outcome of waiting for ACTIVE in terms of the statuses answered: the wait goes on as long as calls
    succeed and show neither ACTIVE nor ERROR, for 25 polls at most.
   */
  ghost predicate EndsActive(polls: seq<Reply<Lb>>, r: Outcome) {
    && 1 <= |polls| <= 25
    && (forall k :: 0 <= k < |polls| - 1 ==>
          polls[k].Answer? && polls[k].value.status != Active && polls[k].value.status != Error)
    && var last := polls[|polls| - 1];
       && (r.Reached? <==> last.Answer? && last.value.status == Active)
       && (r.Reached? ==> r.poll == last)
       && (r == WentIntoError <==> last.Answer? && last.value.status == Error)
       && (r == CallFailed <==> !last.Answer?)
       && (r == TimedOut <==> last.Answer? && last.value.status != Active && last.value.status != Error)
       && (r == TimedOut ==> |polls| == 25)
  }

  /** Likewise for a deletion: the wait goes on as long as the load balancer is still answered, for 12 polls at most. */
  ghost predicate EndsGone(polls: seq<Reply<Lb>>, r: Outcome) {
    && 1 <= |polls| <= 12
    && (forall k :: 0 <= k < |polls| - 1 ==> polls[k].Answer?)
    && var last := polls[|polls| - 1];
       && (r.Reached? <==> last.NotFound?)
       && (r == CallFailed <==> last.Failed?)
       && (r == TimedOut <==> last.Answer?)
       && (r == TimedOut ==> |polls| == 12)
       && r != WentIntoError
  }

  /** What is decisive, in terms of statuses. */
  lemma DecidedEnds(polls: seq<Reply<Lb>>, r: Outcome)
    ensures Decided(polls, BecomeActive, r) <==> EndsActive(polls, r)
    ensures Decided(polls, BeGone, r) <==> EndsGone(polls, r) && (r.Reached? ==> r.poll == polls[|polls| - 1])
  {
    if |polls| >= 1 {
      assert forall k :: 0 <= k < |polls| - 1 ==> polls[..|polls| - 1][k] == polls[k];
    }
  }

  ghost predicate UndecidedBefore(trace: nat -> Reply<Lb>, goal: Goal, n: nat) {
    forall k: nat :: k < n ==> Verdict(goal, trace(k)) == None
  }

  /** The outcome an infinite trace of poll answers prescribes: its first decisive answer within the limit. */
  ghost predicate FirstDecisive(trace: nat -> Reply<Lb>, goal: Goal, r: Outcome) {
    || (exists n: nat :: n < Limit(goal) && UndecidedBefore(trace, goal, n) && Verdict(goal, trace(n)) == Some(r))
    || (UndecidedBefore(trace, goal, Limit(goal)) && r == TimedOut)
  }

  /**
    Whatever the cloud would go on to answer after the calls made, a decided loop has found the
    prescribed outcome, and it is unique.
   */
  lemma DecidedIsFirstDecisive(id: nat, es: seq<Event>, polls: seq<Reply<Lb>>, trace: nat -> Reply<Lb>, goal: Goal,
                               r: Outcome, q: Outcome)
    requires es == Gets(id, polls) && Decided(polls, goal, r)
    requires forall k: nat :: k < |es| ==> es[k] == GetLb(id, trace(k))
    ensures FirstDecisive(trace, goal, q) <==> q == r
    ensures r == TimedOut <==> UndecidedBefore(trace, goal, Limit(goal))
  {
    var last := |polls| - 1;
    forall k: nat | k < |polls|
      ensures polls[k] == trace(k)
    {
      GetsAt(id, polls, k);
    }
    assert forall k: nat :: k < last ==> polls[..last][k] == trace(k);
    assert UndecidedBefore(trace, goal, last);
    if Verdict(goal, trace(last)).Some? {
      assert !UndecidedBefore(trace, goal, Limit(goal));
      if FirstDecisive(trace, goal, q) {
        var n: nat :| n < Limit(goal) && UndecidedBefore(trace, goal, n) && Verdict(goal, trace(n)) == Some(q);
        assert n == last;
      }
    } else {
      assert UndecidedBefore(trace, goal, Limit(goal));
    }
  }

  predicate CanBecomeActive(s: Status) {
    s.PendingCreate? || s.PendingUpdate? || s.Active?
  }

  lemma DriftTransitive(a: State, b: State, c: State)
    ensures Drift(a, b) && Drift(b, c) ==> Drift(a, c)
  {
  }

  /** One poll. A cooperative cloud completes a pending transition once its lag is used up. */
  method Poll(cloud: Cloud, id: nat, ghost start: State) returns (got: Reply<Lb>)
    requires cloud.Valid() && (cloud.alone ==> Drift(start, cloud.st))
    requires Permits(cloud.job, cloud.pc, GetLb(id, Failed))
    modifies cloud
    ensures cloud.Valid() && cloud.job == old(cloud.job)
    ensures Permits(cloud.job, old(cloud.pc), GetLb(id, got))
    ensures cloud.pc == Next(cloud.job, old(cloud.pc), GetLb(id, got))
    ensures cloud.log == old(cloud.log) + [GetLb(id, got)]
    ensures got.Answer? ==> id < |cloud.st.lbs| && cloud.st.lbs[id] == got.value
    ensures got.NotFound? ==> id < |cloud.st.lbs| ==> !Live(cloud.st.lbs[id].status)
    ensures cloud.alone ==> Drift(start, cloud.st)
    ensures cloud.cooperative && old(cloud.lag) > 0 ==> cloud.st == old(cloud.st) && cloud.lag == old(cloud.lag) - 1
    ensures cloud.cooperative && old(cloud.lag) == 0 ==> cloud.st == Completed(old(cloud.st), id) && cloud.lag == 0
    ensures cloud.cooperative && id < |cloud.st.lbs| ==>
              if cloud.st.lbs[id].status.Purged? then got.NotFound? else got.Answer?
  {
    got := cloud.GetLb(id);
    DriftTransitive(start, old(cloud.st), cloud.st);
  }

  /** One more poll for ACTIVE; `polls` are the answers so far, to the calls made since `asked`. */
  method PollActive(cloud: Cloud, id: nat, ghost after: Option<seq<Listener>>, ghost polls: seq<Reply<Lb>>,
                    ghost asked: seq<Event>,
                    ghost start: State, ghost helped: bool)
    returns (got: Reply<Lb>)
    requires cloud.Valid() && (cloud.alone ==> Drift(start, cloud.st)) && cloud.pc == Await(id, after, |polls|)
    requires cloud.log == asked + Gets(id, polls) && Undecided(polls, BecomeActive) && |polls| < ACTIVE_STEPS
    requires helped ==> cloud.cooperative && id < |start.lbs| && CanBecomeActive(start.lbs[id].status)
    requires helped ==> cloud.st == start && cloud.lag + |polls| <= MAX_LAG
    modifies cloud
    ensures cloud.Valid() && cloud.job == old(cloud.job)
    ensures cloud.log == asked + Gets(id, polls + [got])
    ensures match Verdict(BecomeActive, got)
            case Some(v) =>
              && cloud.pc == (if v.Reached? then AfterActive(got.value, after) else Done(false))
              && Decided(polls + [got], BecomeActive, v)
            case None =>
              if |polls| + 1 < ACTIVE_STEPS then
                cloud.pc == Await(id, after, |polls| + 1) && Undecided(polls + [got], BecomeActive)
              else
                cloud.pc == Done(false) && Decided(polls + [got], BecomeActive, TimedOut)
    ensures got.Answer? ==> id < |cloud.st.lbs| && cloud.st.lbs[id] == got.value
    ensures cloud.alone ==> Drift(start, cloud.st)
    ensures helped ==>
              match Verdict(BecomeActive, got)
              case None => cloud.st == start && cloud.lag + |polls| < MAX_LAG
              case Some(v) => v.Reached? && cloud.st == WithStatus(start, id, Active)
  {
    got := Poll(cloud, id, start);
    OneMorePoll(polls, got, BecomeActive);
    GetsExtend(id, polls, got);
  }

  method PollGone(cloud: Cloud, id: nat, ghost polls: seq<Reply<Lb>>, ghost asked: seq<Event>, ghost start: State,
                  ghost helped: bool)
    returns (got: Reply<Lb>)
    requires cloud.Valid() && (cloud.alone ==> Drift(start, cloud.st)) && cloud.pc == AwaitGone(id, |polls|)
    requires cloud.log == asked + Gets(id, polls) && Undecided(polls, BeGone) && |polls| < DELETE_STEPS
    requires helped ==> cloud.cooperative && id < |start.lbs| && start.lbs[id].status == PendingDelete
    requires helped ==> cloud.st == start && cloud.lag + |polls| <= MAX_LAG
    modifies cloud
    ensures cloud.Valid() && cloud.job == old(cloud.job)
    ensures cloud.log == asked + Gets(id, polls + [got])
    ensures match Verdict(BeGone, got)
            case Some(v) =>
              cloud.pc == Done(v.Reached? && cloud.job.op.Delete?) && Decided(polls + [got], BeGone, v)
            case None =>
              if |polls| + 1 < DELETE_STEPS then
                cloud.pc == AwaitGone(id, |polls| + 1) && Undecided(polls + [got], BeGone)
              else
                cloud.pc == Done(false) && Decided(polls + [got], BeGone, TimedOut)
    ensures cloud.alone ==> Drift(start, cloud.st)
    ensures helped ==>
              match Verdict(BeGone, got)
              case None => cloud.st == start && cloud.lag + |polls| < MAX_LAG
              case Some(v) => v.Reached? && cloud.st == WithStatus(start, id, Purged)
  {
    got := Poll(cloud, id, start);
    OneMorePoll(polls, got, BeGone);
    GetsExtend(id, polls, got);
  }

  method WaitActiveAndGetLoadBalancer(cloud: Cloud, id: nat, ghost after: Option<seq<Listener>>)
    returns (r: Outcome, ghost polls: seq<Reply<Lb>>, slept: real)
    requires cloud.Valid() && cloud.pc == Await(id, after, 0)
    modifies cloud
    ensures cloud.Valid() && cloud.job == old(cloud.job)
    ensures cloud.log == old(cloud.log) + Gets(id, polls) && Decided(polls, BecomeActive, r) && EndsActive(polls, r)
    ensures slept == Slept(|polls|)
    ensures r.Reached? ==>
              r.poll.Answer? && id < |cloud.st.lbs| && cloud.st.lbs[id] == r.poll.value && r.poll.value.status == Active
    ensures cloud.pc == if r.Reached? then AfterActive(r.poll.value, after) else Done(false)
    ensures cloud.alone ==> Drift(old(cloud.st), cloud.st)
    ensures cloud.cooperative && id < |old(cloud.st).lbs| && CanBecomeActive(old(cloud.st).lbs[id].status) ==>
              r.Reached? && cloud.st == WithStatus(old(cloud.st), id, Active)
  {
    var timer := NewTimer(ACTIVE_STEPS);
    ghost var start, asked := cloud.st, cloud.log;
    polls := [];
    ghost var willSettle := cloud.cooperative && id < |cloud.st.lbs| && CanBecomeActive(cloud.st.lbs[id].status);
    while true
      invariant cloud.Valid() && cloud.job == old(cloud.job)
      invariant timer.At(|polls|)
      invariant 1 <= timer.steps && |polls| + timer.steps == ACTIVE_STEPS
      invariant cloud.pc == Await(id, after, |polls|)
      invariant cloud.log == asked + Gets(id, polls) && Undecided(polls, BecomeActive)
      invariant cloud.alone ==> Drift(start, cloud.st)
      invariant willSettle ==> cloud.st == start && cloud.lag + |polls| <= MAX_LAG
      decreases timer.steps
    {
      var got := PollActive(cloud, id, after, polls, asked, start, willSettle);
      polls := polls + [got];
      var verdict := Verdict(BecomeActive, got);
      if verdict.Some? {
        DecidedEnds(polls, verdict.value);
        return verdict.value, polls, timer.slept;
      }
      if timer.steps == 1 {
        DecidedEnds(polls, TimedOut);
        return TimedOut, polls, timer.slept;
      }
      timer := timer.Pause(|polls| - 1);
    }
  }

  method WaitLoadbalancerDeleted(cloud: Cloud, id: nat) returns (r: Outcome, ghost polls: seq<Reply<Lb>>, slept: real)
    requires cloud.Valid() && cloud.pc == AwaitGone(id, 0)
    modifies cloud
    ensures cloud.Valid() && cloud.job == old(cloud.job)
    ensures cloud.log == old(cloud.log) + Gets(id, polls) && Decided(polls, BeGone, r) && EndsGone(polls, r)
    ensures slept == Slept(|polls|)
    ensures cloud.pc == Done(r.Reached? && cloud.job.op.Delete?)
    ensures cloud.alone ==> Drift(old(cloud.st), cloud.st)
    ensures cloud.cooperative && id < |old(cloud.st).lbs| && old(cloud.st).lbs[id].status == PendingDelete ==>
              r.Reached? && cloud.st == WithStatus(old(cloud.st), id, Purged)
  {
    var timer := NewTimer(DELETE_STEPS);
    ghost var start, asked := cloud.st, cloud.log;
    polls := [];
    ghost var willVanish := cloud.cooperative && id < |cloud.st.lbs| && cloud.st.lbs[id].status == PendingDelete;
    while true
      invariant cloud.Valid() && cloud.job == old(cloud.job)
      invariant timer.At(|polls|)
      invariant 1 <= timer.steps && |polls| + timer.steps == DELETE_STEPS
      invariant cloud.pc == AwaitGone(id, |polls|)
      invariant cloud.log == asked + Gets(id, polls) && Undecided(polls, BeGone)
      invariant cloud.alone ==> Drift(start, cloud.st)
      invariant willVanish ==> cloud.st == start && cloud.lag + |polls| <= MAX_LAG
      decreases timer.steps
    {
      var got := PollGone(cloud, id, polls, asked, start, willVanish);
      polls := polls + [got];
      var verdict := Verdict(BeGone, got);
      if verdict.Some? {
        DecidedEnds(polls, verdict.value);
        return verdict.value, polls, timer.slept;
      }
      if timer.steps == 1 {
        DecidedEnds(polls, TimedOut);
        return TimedOut, polls, timer.slept;
      }
      timer := timer.Pause(|polls| - 1);
    }
  }
}
