/** The two loops that end a supervised task: joining its stream workers, then waiting for its process group.

    Time is in milliseconds, with one clock reading an iteration. What the kernel, the canceller and the stream
    workers answer is given, iteration by iteration, by an arbitrary function; only the sleep between two
    iterations is known to last at least the poll interval and at most some `period`. */
module Drain {
  import opened Results

  const TASK_TERM_GRACE: nat := 5000
  const LEADER_EXITED_GRACE: nat := 5000
  const STREAM_DRAIN_HARD_GRACE: nat := 1000
  const POLL_INTERVAL: nat := 100

  datatype Poll = Busy | Ended(result: Result<nat, string>)

  /** `alive` and `stillAlive` are the two liveness readings of one iteration, `errorTermSent` and `cancelTermSent`
      whether a SIGTERM sent after a stream error or a cancel was delivered. */
  datatype Reading = Reading(
    now: nat, alive: bool, stillAlive: bool, cancelRequested: bool, errorTermSent: bool, cancelTermSent: bool,
    stdout: Poll, stderr: Poll)

  type World = nat -> Reading

  predicate Sleeps(env: World, period: nat, i: nat) {
    env(i).now + POLL_INTERVAL <= env(i + 1).now <= env(i).now + period
  }

  ghost predicate Ticking(env: World, period: nat) {
    forall i: nat {:trigger Sleeps(env, period, i)} :: Sleeps(env, period, i)
  }

  datatype What = Term | Kill | AbortStreams

  /** What was done, in which iteration. */
  datatype Act = Act(i: nat, what: What)

  /** Iteration `last` comes at least `grace` after the marked one. */
  predicate Reached(env: World, mark: Option<nat>, grace: nat, last: nat) {
    mark.Some? && env(last).now >= env(mark.value).now + grace
  }

  ghost predicate WellTimed(env: World, acts: set<Act>, a: Act) {
    && (a.what.Term? ==> env(a.i).alive)
    && (a.what.Kill? ==> exists j :: Act(j, Term) in acts && env(j).now + TASK_TERM_GRACE <= env(a.i).now)
  }

  /** SIGTERM goes to a live group only, and SIGKILL at least the grace after a SIGTERM attempt. */
  ghost predicate Measured(env: World, acts: set<Act>) {
    forall a {:trigger WellTimed(env, acts, a)} :: a in acts ==> WellTimed(env, acts, a)
  }

  lemma MeasuredOneMore(env: World, acts: set<Act>, a: Act, term: nat)
    requires Measured(env, acts)
    requires a.what.Term? ==> env(a.i).alive
    requires a.what.Kill? ==> Act(term, Term) in acts && env(term).now + TASK_TERM_GRACE <= env(a.i).now
    ensures Measured(env, acts + {a})
  {
    forall b {:trigger WellTimed(env, acts + {a}, b)} | b in acts + {a}
      ensures WellTimed(env, acts + {a}, b)
    {
      if b in acts {
        assert WellTimed(env, acts, b);
        if j :| Act(j, Term) in acts && env(j).now + TASK_TERM_GRACE <= env(b.i).now {
          assert Act(j, Term) in acts + {a};
        }
      } else if a.what.Kill? {
        assert Act(term, Term) in acts + {a};
      }
    }
  }

  lemma {:induction false} TimePasses(env: World, period: nat, i: nat, j: nat)
    requires Ticking(env, period) && i <= j
    ensures env(i).now + POLL_INTERVAL * (j - i) <= env(j).now
    decreases j
  {
    if i < j {
      TimePasses(env, period, i, j - 1);
      assert Sleeps(env, period, j - 1);
    }
  }

  // ---------------------------------------------------------------- starting the countdown

  predicate ByCancel(r: Reading, timedOut: bool) {
    !timedOut && r.cancelRequested && r.cancelTermSent
  }

  predicate CountdownDue(r: Reading, start: nat, childExitedAt: nat, timeout: Option<nat>, timedOut: bool) {
    ByCancel(r, timedOut) || Elapsed(start, timeout, r.now) || r.now >= childExitedAt + LEADER_EXITED_GRACE
  }

  predicate Elapsed(since: nat, limit: Option<nat>, now: nat) {
    limit.Some? && now >= since + limit.value
  }

  /** For a live group without a countdown: SIGTERM for a cancel, else for the task's timeout, else once the leader
      has been gone for five seconds. Only the first must be delivered to start the countdown. */
  method StartCountdown(env: World, i: nat, start: nat, childExitedAt: nat, timeout: Option<nat>,
                        wasCancelled: bool, wasTimedOut: bool, before: set<Act>)
    returns (started: bool, cancelled: bool, timedOut: bool, acts: set<Act>)
    requires env(i).alive && Measured(env, before)
    ensures started <==>
              || (!wasTimedOut && env(i).cancelRequested && env(i).cancelTermSent)
              || (timeout.Some? && env(i).now >= start + timeout.value)
              || env(i).now >= childExitedAt + 5000
    ensures started <==> CountdownDue(env(i), start, childExitedAt, timeout, wasTimedOut)
    ensures cancelled == (wasCancelled || (!wasTimedOut && env(i).cancelRequested && env(i).cancelTermSent))
    ensures cancelled == (wasCancelled || ByCancel(env(i), wasTimedOut))
    ensures timedOut == (wasTimedOut || (timeout.Some? && env(i).now >= start + timeout.value
                                         && !(env(i).cancelRequested && env(i).cancelTermSent)))
    ensures timedOut == (wasTimedOut || (!ByCancel(env(i), wasTimedOut) && Elapsed(start, timeout, env(i).now)))
    ensures before <= acts <= before + {Act(i, Term)} && Measured(env, acts)
    ensures started ==> Act(i, Term) in acts
  {
    var r := env(i);
    started, cancelled, timedOut, acts := false, wasCancelled, wasTimedOut, before;
    if !timedOut && r.cancelRequested {
      MeasuredOneMore(env, acts, Act(i, Term), 0);
      acts := acts + {Act(i, Term)};
      if r.cancelTermSent {
        started, cancelled := true, true;
      }
    }
    if !started && timeout.Some? && r.now >= start + timeout.value {
      MeasuredOneMore(env, acts, Act(i, Term), 0);
      acts := acts + {Act(i, Term)};
      started, timedOut := true, true;
    }
    if !started && r.now >= childExitedAt + LEADER_EXITED_GRACE {
      MeasuredOneMore(env, acts, Act(i, Term), 0);
      acts := acts + {Act(i, Term)};
      started := true;
    }
  }

  /** SIGKILL once five seconds have passed since the SIGTERM of iteration `term`. */
  method EscalateWhenDue(env: World, i: nat, term: Option<nat>, wasSent: bool, before: set<Act>)
    returns (sent: bool, acts: set<Act>)
    requires Measured(env, before) && (term.Some? ==> Act(term.value, Term) in before)
    ensures sent == (wasSent || (term.Some? && env(i).now >= env(term.value).now + TASK_TERM_GRACE))
    ensures acts == (if sent && !wasSent then before + {Act(i, Kill)} else before) && Measured(env, acts)
  {
    sent, acts := wasSent, before;
    if !sent && term.Some? && env(i).now >= env(term.value).now + TASK_TERM_GRACE {
      MeasuredOneMore(env, acts, Act(i, Kill), term.value);
      acts := acts + {Act(i, Kill)};
      sent := true;
    }
  }

  // ---------------------------------------------------------------- waiting for the process group

  datatype WaitEnd = Gone | WontStop | StillWaiting

  /** Iteration `i` comes at least six seconds after the SIGTERM of iteration `term`. */
  ghost predicate Expired(env: World, term: Option<nat>, i: nat) {
    term.Some? && term.value <= i && env(i).now >= env(term.value).now + TASK_TERM_GRACE + STREAM_DRAIN_HARD_GRACE
  }

  /** The loop goes on past iteration `i`. */
  ghost predicate GoesOn(env: World, term: Option<nat>, i: nat) {
    env(i).alive && !(Expired(env, term, i) && env(i).stillAlive)
  }

  /** Past iterations stay past when the countdown starts now. */
  lemma GoingOn(env: World, before: Option<nat>, term: Option<nat>, last: nat)
    requires before == term || (before.None? && term == Some(last))
    requires forall i {:trigger GoesOn(env, before, i)} :: 0 <= i < last ==> GoesOn(env, before, i)
    requires GoesOn(env, term, last)
    ensures forall i {:trigger GoesOn(env, term, i)} :: 0 <= i <= last ==> GoesOn(env, term, i)
  {
    forall i {:trigger GoesOn(env, term, i)} | 0 <= i < last ensures GoesOn(env, term, i) {
      assert GoesOn(env, before, i);
    }
  }

  /** The first iteration whose reading starts the countdown is `term`. */
  ghost predicate FirstDue(env: World, start: nat, childExitedAt: nat, timeout: Option<nat>, wasTimedOut: bool,
                           term: Option<nat>, last: nat) {
    && (forall i {:trigger CountdownDue(env(i), start, childExitedAt, timeout, wasTimedOut)} ::
          0 <= i < last && (term.Some? ==> i < term.value) ==>
          !CountdownDue(env(i), start, childExitedAt, timeout, wasTimedOut))
    && (term.Some? ==> CountdownDue(env(term.value), start, childExitedAt, timeout, wasTimedOut))
  }

  ghost predicate KillSent(acts: set<Act>) { exists i :: Act(i, Kill) in acts }

  /** Both readings of an iteration say the same. */
  predicate Agree(env: World, i: nat) {
    env(i).alive ==> env(i).stillAlive
  }

  ghost predicate Reliable(env: World, limit: nat) {
    forall i: nat {:trigger Agree(env, i)} :: i < limit ==> Agree(env, i)
  }

  /** How late iteration `last` can be. */
  lemma OnTime(env: World, period: nat, due: nat, limit: nat, term: Option<nat>, last: nat)
    requires Ticking(env, period) && last <= limit && env(0).now <= due
    requires term.None? ==> forall i :: 0 <= i < last ==> env(i).now < due
    requires term.Some? ==> term.value < last && env(term.value).now <= due + period
    requires last > 0 ==> GoesOn(env, term, last - 1)
    ensures term.None? ==> env(last).now <= due + period
    ensures Reliable(env, limit) ==> env(last).now <= due + TASK_TERM_GRACE + STREAM_DRAIN_HARD_GRACE + 2 * period
  {
    if last > 0 {
      assert Sleeps(env, period, last - 1);
      if Reliable(env, limit) { assert Agree(env, last - 1); }
    }
  }

  /** Runs at most `limit` iterations; `StillWaiting` means that all of them went by. `term` is the iteration of the
      SIGTERM that started the countdown, `last` the one that ended the wait. The wait ends exactly when the group
      reads as gone, or as alive twice after the countdown; if the readings agree that is within six seconds and two
      polls of the fifth second after the leader's exit. */
  method WaitProcessGroupExit(env: World, ghost period: nat, limit: nat, start: nat, childExitedAt: nat,
                              timeout: Option<nat>, wasCancelled: bool, wasTimedOut: bool)
    returns (end: WaitEnd, last: nat, term: Option<nat>, cancelled: bool, timedOut: bool, acts: set<Act>)
    requires Ticking(env, period)
    requires start <= childExitedAt <= env(0).now
    ensures end.StillWaiting? <==> last == limit
    ensures forall i {:trigger GoesOn(env, term, i)} :: 0 <= i < last ==> GoesOn(env, term, i)
    ensures end.Gone? ==> last < limit && !env(last).alive
    ensures end.WontStop? ==> last < limit && !GoesOn(env, term, last) && env(last).alive && KillSent(acts)
    ensures end.WontStop? ==>
              env(last).stillAlive && term.Some? && env(last).now >= env(term.value).now + 6000
    ensures var due := Max(childExitedAt + LEADER_EXITED_GRACE, env(0).now);
            && (term.Some? ==> term.value <= last && env(term.value).now <= due + period)
            && (Reliable(env, limit) && !end.StillWaiting? ==>
                  env(last).now <= due + TASK_TERM_GRACE + STREAM_DRAIN_HARD_GRACE + 2 * period)
            && (Reliable(env, limit) && end.StillWaiting? ==>
                  POLL_INTERVAL * limit <= due - env(0).now + TASK_TERM_GRACE + STREAM_DRAIN_HARD_GRACE + 2 * period)
    ensures Measured(env, acts)
    ensures FirstDue(env, start, childExitedAt, timeout, wasTimedOut, term, last)
    ensures term.Some? && last > 0 && env(last - 1).now >= env(term.value).now + TASK_TERM_GRACE ==> KillSent(acts)
    ensures cancelled == (wasCancelled || (term.Some? && ByCancel(env(term.value), wasTimedOut)))
    ensures timedOut == (wasTimedOut || (term.Some? && !ByCancel(env(term.value), wasTimedOut)
                                         && Elapsed(start, timeout, env(term.value).now)))
  {
    hide ByCancel, Elapsed, CountdownDue;
    cancelled, timedOut, acts, last, term := wasCancelled, wasTimedOut, {}, 0, None;
    var sentKill := false;
    ghost var due := Max(childExitedAt + LEADER_EXITED_GRACE, env(0).now);
    while last < limit
      invariant last <= limit
      invariant forall i {:trigger GoesOn(env, term, i)} :: 0 <= i < last ==> GoesOn(env, term, i)
      invariant term.None? ==> forall i :: 0 <= i < last ==> env(i).now < due
      invariant term.Some? ==> term.value < last && env(term.value).now <= due + period && Act(term.value, Term) in acts
      invariant sentKill ==> KillSent(acts)
      invariant term.Some? && env(last - 1).now >= env(term.value).now + TASK_TERM_GRACE ==> sentKill
      invariant FirstDue(env, start, childExitedAt, timeout, wasTimedOut, term, last)
      invariant Measured(env, acts)
      invariant cancelled == (wasCancelled || (term.Some? && ByCancel(env(term.value), wasTimedOut)))
      invariant timedOut == (wasTimedOut || (term.Some? && !ByCancel(env(term.value), wasTimedOut)
                                             && Elapsed(start, timeout, env(term.value).now)))
    {
      OnTime(env, period, due, limit, term, last);
      var r := env(last);
      if !r.alive {
        return Gone, last, term, cancelled, timedOut, acts;
      }
      ghost var before := term;
      if term.None? {
        var started;
        started, cancelled, timedOut, acts := StartCountdown(env, last, start, childExitedAt, timeout, cancelled,
                                                             timedOut, acts);
        term := if started then Some(last) else None;
      }
      sentKill, acts := EscalateWhenDue(env, last, term, sentKill, acts);
      if sentKill && term.Some? && r.now >= env(term.value).now + TASK_TERM_GRACE + STREAM_DRAIN_HARD_GRACE
         && r.stillAlive {
        return WontStop, last, term, cancelled, timedOut, acts;
      }
      GoingOn(env, before, term, last);
      last := last + 1;
    }
    end := StillWaiting;
    OnTime(env, period, due, limit, term, limit);
    TimePasses(env, period, 0, limit);
  }

  /** If the second reading keeps contradicting the first, the wait never ends. */
  method ContradictoryReadingsWaitForever(limit: nat) returns (env: World, end: WaitEnd)
    ensures Ticking(env, POLL_INTERVAL) && (forall i: nat :: env(i).alive && !env(i).stillAlive)
    ensures end.StillWaiting?
  {
    env := (i: nat) => Reading(POLL_INTERVAL * i, true, false, false, false, false, Busy, Busy);
    var last, term, cancelled, timedOut, acts;
    end, last, term, cancelled, timedOut, acts := WaitProcessGroupExit(env, POLL_INTERVAL, limit, 0, 0, None, false,
                                                                       false);
  }
}
