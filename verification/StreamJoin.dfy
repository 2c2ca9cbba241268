/** Joining the two stream workers of a supervised task, against workers, processes and signals that need not
    cooperate. Clock, readings and countdown are those of module Drain. */
module StreamJoin {
  import opened Results
  import opened Drain

  datatype Streams = Streams(
    stdoutBusy: bool, stderrBusy: bool, stdout: Option<nat>, stderr: Option<nat>, error: Option<string>)

  function Recorded(busy: bool, p: Poll, capture: Option<nat>): Option<nat> {
    if busy && p.Ended? && p.result.Success? then Some(p.result.value) else capture
  }

  function FirstError(busy: bool, p: Poll, error: Option<string>): Option<string> {
    if busy && p.Ended? && p.result.Failure? && error.None? then Some(p.result.error) else error
  }

  /** The streams after a poll: a worker that has ended is taken, and the first error is kept. */
  function Polled(s: Streams, r: Reading): Streams {
    Streams(
      s.stdoutBusy && r.stdout.Busy?, s.stderrBusy && r.stderr.Busy?,
      Recorded(s.stdoutBusy, r.stdout, s.stdout), Recorded(s.stderrBusy, r.stderr, s.stderr),
      FirstError(s.stderrBusy, r.stderr, FirstError(s.stdoutBusy, r.stdout, s.error)))
  }

  function StreamsAfter(env: World, n: nat): Streams {
    if n == 0 then Streams(true, true, None, None, None) else Polled(StreamsAfter(env, n - 1), env(n - 1))
  }

  /** A worker is busy until its first end; a stream has a capture once its worker ended well, and there is an error
      once some worker ended badly. */
  lemma {:induction false} StreamsFollowTheirWorkers(env: World, n: nat)
    ensures var s := StreamsAfter(env, n);
            && (s.stdoutBusy <==> forall i :: 0 <= i < n ==> env(i).stdout.Busy?)
            && (s.stderrBusy <==> forall i :: 0 <= i < n ==> env(i).stderr.Busy?)
            && (s.error.None? ==> (s.stdout.Some? <==> !s.stdoutBusy) && (s.stderr.Some? <==> !s.stderrBusy))
            && (s.stdoutBusy ==> s.stdout.None?) && (s.stderrBusy ==> s.stderr.None?)
            && (s.stdoutBusy && s.stderrBusy ==> s.error.None?)
  {
    if n > 0 { StreamsFollowTheirWorkers(env, n - 1); }
  }

  /** The worker of the stream ends in iteration `i`, and has not before. */
  ghost predicate StdoutEnds(env: World, i: nat, result: Result<nat, string>) {
    env(i).stdout == Ended(result) && forall j :: 0 <= j < i ==> env(j).stdout.Busy?
  }

  ghost predicate StderrEnds(env: World, i: nat, result: Result<nat, string>) {
    env(i).stderr == Ended(result) && forall j :: 0 <= j < i ==> env(j).stderr.Busy?
  }

  /** In iteration `i` a worker ends with that error; when both end badly, the error is that of the standard output. */
  ghost predicate FailsWith(env: World, i: nat, error: string) {
    || StdoutEnds(env, i, Failure(error))
    || (StderrEnds(env, i, Failure(error)) && forall e :: !StdoutEnds(env, i, Failure(e)))
  }

  /** A capture is what its own worker ended with; the error is the earliest of those that the workers ended with. */
  lemma {:induction false} StreamsTellTheFirst(env: World, n: nat)
    ensures var s := StreamsAfter(env, n);
            && (s.stdout.Some? ==> exists i :: 0 <= i < n && StdoutEnds(env, i, Success(s.stdout.value)))
            && (s.stderr.Some? ==> exists i :: 0 <= i < n && StderrEnds(env, i, Success(s.stderr.value)))
            && (s.error.Some? ==>
                  exists i :: 0 <= i < n && FailsWith(env, i, s.error.value)
                              && forall j: nat, e :: j < i ==> !FailsWith(env, j, e))
            && (s.error.None? ==> forall j: nat, e :: j < n ==> !FailsWith(env, j, e))
  {
    if n > 0 {
      StreamsTellTheFirst(env, n - 1);
      StreamsFollowTheirWorkers(env, n - 1);
      var s, r := StreamsAfter(env, n - 1), env(n - 1);
      if s.stdoutBusy && r.stdout.Ended? { assert StdoutEnds(env, n - 1, r.stdout.result); }
      if s.stderrBusy && r.stderr.Ended? { assert StderrEnds(env, n - 1, r.stderr.result); }
      if s.error.None? && StreamsAfter(env, n).error.Some? {
        assert FailsWith(env, n - 1, StreamsAfter(env, n).error.value);
      }
    }
  }

  lemma CapturesPresent(env: World, n: nat)
    ensures var s := StreamsAfter(env, n);
            s.error.None? ==> (s.stdout.Some? <==> !s.stdoutBusy) && (s.stderr.Some? <==> !s.stderrBusy)
  {
    StreamsFollowTheirWorkers(env, n);
  }

  datatype JoinEnd =
    | Joined(stdout: nat, stderr: nat)
    | StreamFailed(error: string)
    | WorkersStuck(cause: Option<string>)

  /** Iterations at which the group was first found gone, the countdown started, the workers were told to stop, and
      SIGKILL was sent. */
  datatype Marks = Marks(gone: Option<nat>, term: Option<nat>, abort: Option<nat>, kill: Option<nat>)

  const UNMARKED: Marks := Marks(None, None, None, None)

  /** What holds of an iteration `i` that did not end the loop, `due` being five seconds after the leader's exit. */
  ghost predicate Pending(env: World, due: nat, m: Marks, i: nat) {
    && (m.abort.None? && m.term.None? ==>
          env(i).now < due || (m.gone.Some? && env(i).now < env(m.gone.value).now + STREAM_DRAIN_HARD_GRACE))
    && (m.abort.None? && m.term.Some? ==>
          env(i).now < env(m.term.value).now + TASK_TERM_GRACE + STREAM_DRAIN_HARD_GRACE)
    && (m.abort.Some? ==> env(i).now < env(m.abort.value).now + STREAM_DRAIN_HARD_GRACE)
  }

  /** How late the marks can be. */
  ghost predicate InTime(env: World, period: nat, due: nat, m: Marks) {
    && (m.gone.Some? && m.term.None? && m.abort.None? ==> env(m.gone.value).now <= due + period)
    && (m.term.Some? && m.abort.None? ==> env(m.term.value).now <= due + STREAM_DRAIN_HARD_GRACE + 2 * period)
    && (m.abort.Some? ==> env(m.abort.value).now <= due + TASK_TERM_GRACE + 2 * STREAM_DRAIN_HARD_GRACE + 3 * period)
  }

  /** Before iteration `last`. */
  ghost predicate OnSchedule(env: World, period: nat, due: nat, m: Marks, last: nat) {
    && InTime(env, period, due, m)
    && (if last == 0 then m == UNMARKED else Pending(env, due, m, last - 1))
  }

  lemma NextIterationInTime(env: World, period: nat, due: nat, m: Marks, last: nat)
    requires Ticking(env, period) && env(0).now <= due
    requires OnSchedule(env, period, due, m, last)
    ensures m.abort.None? && m.term.None? && m.gone.None? ==> env(last).now <= due + period
    ensures m.abort.None? && m.term.None? ==> env(last).now <= due + STREAM_DRAIN_HARD_GRACE + 2 * period
    ensures m.abort.None? ==> env(last).now <= due + TASK_TERM_GRACE + 2 * STREAM_DRAIN_HARD_GRACE + 3 * period
    ensures env(last).now <= due + TASK_TERM_GRACE + 3 * STREAM_DRAIN_HARD_GRACE + 4 * period
  {
    if last > 0 { assert Sleeps(env, period, last - 1); }
  }

  /** SIGTERM is due on a live group: a stream failed and the signal can be sent, or the countdown starts. */
  predicate TermDue(r: Reading, failed: bool, start: nat, childExitedAt: nat, timeout: Option<nat>, wasTimedOut: bool) {
    r.alive && ((failed && r.errorTermSent) || CountdownDue(r, start, childExitedAt, timeout, wasTimedOut))
  }

  /** What is recorded as the cause of SIGTERM: a cancel, or else the timeout, unless a stream failed. */
  predicate CauseFits(r: Reading, failed: bool, start: nat, timeout: Option<nat>, wasCancelled: bool,
                      wasTimedOut: bool, cancelled: bool, timedOut: bool) {
    var open := r.alive && !(failed && r.errorTermSent);
    && cancelled == (wasCancelled || (open && ByCancel(r, wasTimedOut)))
    && timedOut == (wasTimedOut || (open && !ByCancel(r, wasTimedOut) && Elapsed(start, timeout, r.now)))
  }

  /** One iteration's signals: the countdown starts for a stream error, or as in the wait loop, on a live group. */
  method SignalGroup(env: World, i: nat, failed: bool, start: nat, childExitedAt: nat, timeout: Option<nat>,
                     before: Option<nat>, wasCancelled: bool, wasTimedOut: bool, actsBefore: set<Act>)
    returns (term: Option<nat>, cancelled: bool, timedOut: bool, acts: set<Act>)
    requires Measured(env, actsBefore) && (before.Some? ==> Act(before.value, Term) in actsBefore)
    ensures before.Some? ==>
            term == before && cancelled == wasCancelled && timedOut == wasTimedOut && acts == actsBefore
    ensures before.None? ==>
            term == (if TermDue(env(i), failed, start, childExitedAt, timeout, wasTimedOut) then Some(i) else None)
            && CauseFits(env(i), failed, start, timeout, wasCancelled, wasTimedOut, cancelled, timedOut)
    ensures Measured(env, acts) && (term.Some? ==> Act(term.value, Term) in acts)
    ensures actsBefore <= acts <= actsBefore + {Act(i, Term)}
  {
    term, cancelled, timedOut, acts := before, wasCancelled, wasTimedOut, actsBefore;
    if failed && term.None? && env(i).alive {
      MeasuredOneMore(env, acts, Act(i, Term), 0);
      acts := acts + {Act(i, Term)};
      if env(i).errorTermSent { term := Some(i); }
    }
    if term.None? && env(i).alive {
      var started;
      started, cancelled, timedOut, acts := StartCountdown(env, i, start, childExitedAt, timeout, cancelled,
                                                           timedOut, acts);
      if started { term := Some(i); }
    }
  }

  method AbortWorkers(env: World, i: nat, before: set<Act>) returns (acts: set<Act>)
    requires Measured(env, before)
    ensures Measured(env, acts) && acts == before + {Act(i, AbortStreams)}
  {
    MeasuredOneMore(env, before, Act(i, AbortStreams), 0);
    acts := before + {Act(i, AbortStreams)};
  }

  /** Whether the workers are told to stop though no stream failed: the group is gone, and there is a cancel, a
      timeout or a second of silence; or a second has passed since SIGKILL was due. */
  ghost predicate AbortDue(env: World, i: nat, gone: Option<nat>, term: Option<nat>, start: nat, timeout: Option<nat>) {
    if term.None? then
      !env(i).alive && (env(i).cancelRequested || Elapsed(start, timeout, env(i).now)
                        || (gone.Some? && env(i).now >= env(gone.value).now + STREAM_DRAIN_HARD_GRACE))
    else env(i).now >= env(term.value).now + TASK_TERM_GRACE + STREAM_DRAIN_HARD_GRACE
  }

  /** One iteration's escalation: SIGKILL when due, and the end of the workers when due. */
  method Escalate(env: World, i: nat, gone: Option<nat>, term: Option<nat>, start: nat, timeout: Option<nat>,
                  before: Option<nat>, wasSent: bool, actsBefore: set<Act>)
    returns (abort: Option<nat>, sent: bool, acts: set<Act>)
    requires Measured(env, actsBefore) && (term.Some? ==> Act(term.value, Term) in actsBefore)
    ensures abort == if before.None? && AbortDue(env, i, gone, term, start, timeout) then Some(i) else before
    ensures sent == (wasSent || Reached(env, term, TASK_TERM_GRACE, i))
    ensures Measured(env, acts) && actsBefore <= acts
    ensures abort != before ==> Act(i, AbortStreams) in acts
    ensures forall k: nat {:trigger Act(k, Kill)} ::
              Act(k, Kill) in acts <==> Act(k, Kill) in actsBefore || (k == i && sent && !wasSent)
  {
    abort, acts := before, actsBefore;
    if term.None? && !env(i).alive && abort.None?
       && (env(i).cancelRequested || (timeout.Some? && env(i).now >= start + timeout.value)
           || (gone.Some? && env(i).now >= env(gone.value).now + STREAM_DRAIN_HARD_GRACE)) {
      acts := AbortWorkers(env, i, acts);
      abort := Some(i);
    }
    sent, acts := EscalateWhenDue(env, i, term, wasSent, acts);
    if sent && abort.None? && term.Some?
       && env(i).now >= env(term.value).now + TASK_TERM_GRACE + STREAM_DRAIN_HARD_GRACE {
      acts := AbortWorkers(env, i, acts);
      abort := Some(i);
    }
  }

  /** What has been done so far. */
  datatype Progress = Progress(marks: Marks, cancelled: bool, timedOut: bool, acts: set<Act>)

  /** The acts match the marks: in particular SIGKILL was sent in the iteration marked for it and in no other. */
  ghost predicate ActsFit(env: World, m: Marks, acts: set<Act>) {
    && Measured(env, acts)
    && (m.abort.Some? ==> Act(m.abort.value, AbortStreams) in acts)
    && (m.term.Some? ==> Act(m.term.value, Term) in acts && env(m.term.value).alive)
    && forall k: nat {:trigger Act(k, Kill)} :: Act(k, Kill) in acts <==> m.kill == Some(k)
  }

  /** The acts match the marks, and a cancel or a timeout is recorded only for the SIGTERM that it caused. */
  ghost predicate WellRecorded(env: World, start: nat, timeout: Option<nat>, wasCancelled: bool, wasTimedOut: bool,
                               p: Progress) {
    && ActsFit(env, p.marks, p.acts)
    && (p.marks.term.None? ==> p.cancelled == wasCancelled && p.timedOut == wasTimedOut)
    && (p.cancelled && !wasCancelled ==>
          p.marks.term.Some? && ByCancel(env(p.marks.term.value), wasTimedOut) && p.timedOut == wasTimedOut)
    && (p.timedOut && !wasTimedOut ==> p.marks.term.Some? && Elapsed(start, timeout, env(p.marks.term.value).now))
  }

  /** How one iteration moves the marks. */
  ghost function Moved(env: World, start: nat, childExitedAt: nat, timeout: Option<nat>, failed: bool,
                       wasTimedOut: bool, before: Marks, i: nat): Marks {
    var gone := if env(i).alive then None else if before.gone.None? then Some(i) else before.gone;
    var term := if before.term.Some? then before.term
                else if TermDue(env(i), failed, start, childExitedAt, timeout, wasTimedOut) then Some(i) else None;
    Marks(gone, term,
          if before.abort.Some? then before.abort
          else if failed || AbortDue(env, i, gone, term, start, timeout) then Some(i) else None,
          if before.kill.Some? then before.kill
          else if Reached(env, term, TASK_TERM_GRACE, i) then Some(i) else None)
  }

  /** The marks after `n` iterations. */
  ghost function MarksAt(env: World, start: nat, childExitedAt: nat, timeout: Option<nat>, wasTimedOut: bool, n: nat)
    : Marks
  {
    if n == 0 then UNMARKED
    else Moved(env, start, childExitedAt, timeout, StreamsAfter(env, n).error.Some?, wasTimedOut,
               MarksAt(env, start, childExitedAt, timeout, wasTimedOut, n - 1), n - 1)
  }

  /** At iteration `i`, SIGTERM is due. */
  predicate TermDueAt(env: World, start: nat, childExitedAt: nat, timeout: Option<nat>, wasTimedOut: bool, i: nat) {
    && env(i).alive
    && (|| (StreamsAfter(env, i + 1).error.Some? && env(i).errorTermSent)
        || (!wasTimedOut && env(i).cancelRequested && env(i).cancelTermSent)
        || (timeout.Some? && env(i).now >= start + timeout.value)
        || env(i).now >= childExitedAt + 5000)
  }

  /** At iteration `i`, the workers are to be told to stop. */
  ghost predicate AbortDueAt(env: World, start: nat, childExitedAt: nat, timeout: Option<nat>, wasTimedOut: bool,
                             i: nat) {
    var m := MarksAt(env, start, childExitedAt, timeout, wasTimedOut, i + 1);
    || StreamsAfter(env, i + 1).error.Some?
    || (m.term.None? && !env(i).alive
        && (|| env(i).cancelRequested || (timeout.Some? && env(i).now >= start + timeout.value)
            || (m.gone.Some? && env(i).now >= env(m.gone.value).now + 1000)))
    || (m.term.Some? && env(i).now >= env(m.term.value).now + 6000)
  }

  /** At iteration `i`, SIGKILL is due. */
  ghost predicate KillDueAt(env: World, start: nat, childExitedAt: nat, timeout: Option<nat>, wasTimedOut: bool,
                            i: nat) {
    var term := MarksAt(env, start, childExitedAt, timeout, wasTimedOut, i + 1).term;
    term.Some? && env(i).now >= env(term.value).now + 5000
  }

  predicate Gone(env: World, i: nat) { !env(i).alive }

  /** SIGTERM is sent at the first iteration at which it is due. */
  lemma {:induction false} TermIsFirst(env: World, start: nat, childExitedAt: nat, timeout: Option<nat>,
                                       wasTimedOut: bool, n: nat)
    ensures var term := MarksAt(env, start, childExitedAt, timeout, wasTimedOut, n).term;
            && (term.Some? ==> term.value < n && TermDueAt(env, start, childExitedAt, timeout, wasTimedOut, term.value))
            && (forall i {:trigger TermDueAt(env, start, childExitedAt, timeout, wasTimedOut, i)} ::
                  0 <= i < (if term.Some? then term.value else n) ==>
                  !TermDueAt(env, start, childExitedAt, timeout, wasTimedOut, i))
  {
    if n > 0 {
      TermIsFirst(env, start, childExitedAt, timeout, wasTimedOut, n - 1);
      assert TermDueAt(env, start, childExitedAt, timeout, wasTimedOut, n - 1)
        <==> TermDue(env(n - 1), StreamsAfter(env, n).error.Some?, start, childExitedAt, timeout, wasTimedOut);
    }
  }

  /** The workers are told to stop at the first iteration at which that is due. */
  lemma {:induction false} AbortIsFirst(env: World, start: nat, childExitedAt: nat, timeout: Option<nat>,
                                        wasTimedOut: bool, n: nat)
    ensures var abort := MarksAt(env, start, childExitedAt, timeout, wasTimedOut, n).abort;
            && (abort.Some? ==>
                  abort.value < n && AbortDueAt(env, start, childExitedAt, timeout, wasTimedOut, abort.value))
            && (forall i {:trigger AbortDueAt(env, start, childExitedAt, timeout, wasTimedOut, i)} ::
                  0 <= i < (if abort.Some? then abort.value else n) ==>
                  !AbortDueAt(env, start, childExitedAt, timeout, wasTimedOut, i))
  {
    if n > 0 { AbortIsFirst(env, start, childExitedAt, timeout, wasTimedOut, n - 1); }
  }

  /** SIGKILL is sent at the first iteration at which it is due, and only there. */
  lemma {:induction false} KillIsFirst(env: World, start: nat, childExitedAt: nat, timeout: Option<nat>,
                                       wasTimedOut: bool, n: nat)
    ensures var kill := MarksAt(env, start, childExitedAt, timeout, wasTimedOut, n).kill;
            && (kill.Some? ==>
                  kill.value < n && KillDueAt(env, start, childExitedAt, timeout, wasTimedOut, kill.value))
            && (forall i {:trigger KillDueAt(env, start, childExitedAt, timeout, wasTimedOut, i)} ::
                  0 <= i < (if kill.Some? then kill.value else n) ==>
                  !KillDueAt(env, start, childExitedAt, timeout, wasTimedOut, i))
  {
    if n > 0 { KillIsFirst(env, start, childExitedAt, timeout, wasTimedOut, n - 1); }
  }

  /** The group counts as gone from the first of the latest iterations that all found it gone. */
  lemma {:induction false} GoneIsLatest(env: World, start: nat, childExitedAt: nat, timeout: Option<nat>,
                                        wasTimedOut: bool, n: nat)
    ensures var gone := MarksAt(env, start, childExitedAt, timeout, wasTimedOut, n).gone;
            && (gone.None? <==> n == 0 || !Gone(env, n - 1))
            && (gone.Some? ==>
                  && gone.value < n && (gone.value > 0 ==> !Gone(env, gone.value - 1))
                  && forall i {:trigger Gone(env, i)} :: gone.value <= i < n ==> Gone(env, i))
  {
    if n > 0 { GoneIsLatest(env, start, childExitedAt, timeout, wasTimedOut, n - 1); }
  }

  /** An iteration whose acts match the moves of its marks stays well recorded. */
  lemma IterationRecorded(env: World, i: nat, failed: bool, start: nat, childExitedAt: nat, timeout: Option<nat>,
                          wasCancelled: bool, wasTimedOut: bool, before: Progress, p: Progress)
    requires WellRecorded(env, start, timeout, wasCancelled, wasTimedOut, before)
    requires p.marks == Moved(env, start, childExitedAt, timeout, failed, wasTimedOut, before.marks, i)
    requires Measured(env, p.acts) && before.acts <= p.acts
    requires p.marks.abort != before.marks.abort ==> Act(i, AbortStreams) in p.acts
    requires p.marks.term.Some? ==> Act(p.marks.term.value, Term) in p.acts
    requires forall k: nat {:trigger Act(k, Kill)} ::
               Act(k, Kill) in p.acts <==> Act(k, Kill) in before.acts || (k == i && p.marks.kill != before.marks.kill)
    requires if before.marks.term.Some? then p.cancelled == before.cancelled && p.timedOut == before.timedOut
             else CauseFits(env(i), failed, start, timeout, wasCancelled, wasTimedOut, p.cancelled, p.timedOut)
    ensures WellRecorded(env, start, timeout, wasCancelled, wasTimedOut, p)
  {
    hide AbortDue, Measured;
    assert forall k: nat {:trigger Act(k, Kill)} :: Act(k, Kill) in p.acts <==> p.marks.kill == Some(k);
  }

  /** What the next iteration needs of the record. */
  lemma RecordGives(env: World, start: nat, timeout: Option<nat>, wasCancelled: bool, wasTimedOut: bool, p: Progress)
    requires WellRecorded(env, start, timeout, wasCancelled, wasTimedOut, p)
    ensures Measured(env, p.acts) && (p.marks.term.Some? ==> Act(p.marks.term.value, Term) in p.acts)
    ensures p.marks.term.None? ==> p.cancelled == wasCancelled && p.timedOut == wasTimedOut
  {
  }

  /** One iteration that follows a poll with a worker still busy; `failed` says that a stream has failed. */
  method Iterate(env: World, i: nat, failed: bool, start: nat, childExitedAt: nat, timeout: Option<nat>,
                 ghost wasCancelled: bool, ghost wasTimedOut: bool, before: Progress)
    returns (p: Progress)
    requires WellRecorded(env, start, timeout, wasCancelled, wasTimedOut, before)
    ensures WellRecorded(env, start, timeout, wasCancelled, wasTimedOut, p)
    ensures p.marks == Moved(env, start, childExitedAt, timeout, failed, wasTimedOut, before.marks, i)
    ensures before.acts <= p.acts
  {
    hide AbortDue, Measured, WellRecorded, TermDue, CauseFits, Reached;
    RecordGives(env, start, timeout, wasCancelled, wasTimedOut, before);
    var Progress(Marks(gone, term, abort, kill), cancelled, timedOut, acts) := before;
    gone := if env(i).alive then None else if gone.None? then Some(i) else gone;
    if failed {
      acts := AbortWorkers(env, i, acts);
      if abort.None? { abort := Some(i); }
    }
    term, cancelled, timedOut, acts := SignalGroup(env, i, failed, start, childExitedAt, timeout, term, cancelled,
                                                   timedOut, acts);
    var sent;
    abort, sent, acts := Escalate(env, i, gone, term, start, timeout, abort, kill.Some?, acts);
    if sent && kill.None? { kill := Some(i); }
    p := Progress(Marks(gone, term, abort, kill), cancelled, timedOut, acts);
    IterationRecorded(env, i, failed, start, childExitedAt, timeout, wasCancelled, wasTimedOut, before, p);
  }

  /** An iteration that does not end the loop keeps the marks in time. */
  lemma IterationInTime(env: World, period: nat, start: nat, childExitedAt: nat, timeout: Option<nat>, failed: bool,
                        wasTimedOut: bool, before: Marks, m: Marks, i: nat)
    requires Ticking(env, period)
    requires OnSchedule(env, period, Max(childExitedAt + LEADER_EXITED_GRACE, env(0).now), before, i)
    requires m == Moved(env, start, childExitedAt, timeout, failed, wasTimedOut, before, i)
    requires m.abort.Some? ==> env(i).now < env(m.abort.value).now + STREAM_DRAIN_HARD_GRACE
    ensures OnSchedule(env, period, Max(childExitedAt + LEADER_EXITED_GRACE, env(0).now), m, i + 1)
  {
    NextIterationInTime(env, period, Max(childExitedAt + LEADER_EXITED_GRACE, env(0).now), before, i);
  }

  lemma OneMorePoll(env: World, n: nat)
    ensures StreamsAfter(env, n + 1) == Polled(StreamsAfter(env, n), env(n))
  {
  }

  lemma OneMoreMark(env: World, start: nat, childExitedAt: nat, timeout: Option<nat>, wasTimedOut: bool, n: nat)
    ensures MarksAt(env, start, childExitedAt, timeout, wasTimedOut, n + 1)
            == Moved(env, start, childExitedAt, timeout, StreamsAfter(env, n + 1).error.Some?, wasTimedOut,
                     MarksAt(env, start, childExitedAt, timeout, wasTimedOut, n), n)
  {
  }

  /** The join ends with both captures, or with the first stream error, or with a worker that is still busy. */
  predicate EndFits(s: Streams, end: JoinEnd) {
    match end
    case Joined(o, e) => !s.stdoutBusy && !s.stderrBusy && s.error.None? && s.stdout == Some(o) && s.stderr == Some(e)
    case StreamFailed(x) => !s.stdoutBusy && !s.stderrBusy && s.error == Some(x)
    case WorkersStuck(x) => (s.stdoutBusy || s.stderrBusy) && s.error == x
  }

  /** Before iteration `last`, with a worker still busy. */
  ghost predicate Joining(env: World, period: nat, start: nat, childExitedAt: nat, timeout: Option<nat>,
                          wasCancelled: bool, wasTimedOut: bool, last: nat, streams: Streams, p: Progress) {
    && streams == StreamsAfter(env, last) && (streams.stdoutBusy || streams.stderrBusy)
    && OnSchedule(env, period, Max(childExitedAt + LEADER_EXITED_GRACE, env(0).now), p.marks, last)
    && WellRecorded(env, start, timeout, wasCancelled, wasTimedOut, p)
    && p.marks == MarksAt(env, start, childExitedAt, timeout, wasTimedOut, last)
  }

  /** The join ended in iteration `last`. */
  ghost predicate JoinedAt(env: World, start: nat, childExitedAt: nat, timeout: Option<nat>, wasCancelled: bool,
                           wasTimedOut: bool, last: nat, end: JoinEnd, p: Progress) {
    && (StreamsAfter(env, last).stdoutBusy || StreamsAfter(env, last).stderrBusy)
    && EndFits(StreamsAfter(env, last + 1), end)
    && (end.WorkersStuck? ==> Reached(env, p.marks.abort, STREAM_DRAIN_HARD_GRACE, last))
    && WellRecorded(env, start, timeout, wasCancelled, wasTimedOut, p)
    && p.marks == MarksAt(env, start, childExitedAt, timeout, wasTimedOut, if end.WorkersStuck? then last + 1 else last)
  }

  /** One turn of the join: polls the workers, and signals while one is busy. */
  method JoinTurn(env: World, ghost period: nat, last: nat, streams: Streams, start: nat, childExitedAt: nat,
                  timeout: Option<nat>, ghost wasCancelled: bool, ghost wasTimedOut: bool, before: Progress)
    returns (end: Option<JoinEnd>, now: Streams, p: Progress)
    requires Ticking(env, period)
    requires Joining(env, period, start, childExitedAt, timeout, wasCancelled, wasTimedOut, last, streams, before)
    ensures if end.None?
            then Joining(env, period, start, childExitedAt, timeout, wasCancelled, wasTimedOut, last + 1, now, p)
            else JoinedAt(env, start, childExitedAt, timeout, wasCancelled, wasTimedOut, last, end.value, p)
  {
    hide MarksAt, Moved, WellRecorded, StreamsAfter, Polled, OnSchedule, Ticking;
    now, p := Polled(streams, env(last)), before;
    OneMorePoll(env, last);
    CapturesPresent(env, last + 1);
    if !now.stdoutBusy && !now.stderrBusy {
      end := Some(if now.error.Some? then StreamFailed(now.error.value)
                  else Joined(now.stdout.value, now.stderr.value));
      return;
    }
    OneMoreMark(env, start, childExitedAt, timeout, wasTimedOut, last);
    p := Iterate(env, last, now.error.Some?, start, childExitedAt, timeout, wasCancelled, wasTimedOut, before);
    if p.marks.abort.Some? && env(last).now >= env(p.marks.abort.value).now + STREAM_DRAIN_HARD_GRACE {
      end := Some(WorkersStuck(now.error));
      return;
    }
    IterationInTime(env, period, start, childExitedAt, timeout, now.error.Some?, wasTimedOut, before.marks, p.marks,
                    last);
    end := None;
  }

  lemma JoinBegins(env: World, period: nat, start: nat, childExitedAt: nat, timeout: Option<nat>, wasCancelled: bool,
                   wasTimedOut: bool)
    ensures Joining(env, period, start, childExitedAt, timeout, wasCancelled, wasTimedOut, 0,
                    Streams(true, true, None, None, None),
                    Progress(UNMARKED, wasCancelled, wasTimedOut, {}))
  {
  }

  /** When an iteration of the join begins at the latest, and that time passes. */
  lemma JoinInTime(env: World, period: nat, start: nat, childExitedAt: nat, timeout: Option<nat>, wasCancelled: bool,
                   wasTimedOut: bool, last: nat, streams: Streams, p: Progress)
    requires Ticking(env, period)
    requires Joining(env, period, start, childExitedAt, timeout, wasCancelled, wasTimedOut, last, streams, p)
    ensures env(last).now <= Max(childExitedAt + LEADER_EXITED_GRACE, env(0).now)
                             + TASK_TERM_GRACE + 3 * STREAM_DRAIN_HARD_GRACE + 4 * period
    ensures env(last).now < env(last + 1).now
  {
    NextIterationInTime(env, period, Max(childExitedAt + LEADER_EXITED_GRACE, env(0).now), p.marks, last);
    assert Sleeps(env, period, last);
  }

  /** Returns at the latest eight seconds and four polls after the fifth second following the leader's exit, that is
      thirteen seconds after the exit when the loop starts in time. */
  method JoinStreams(env: World, ghost period: nat, start: nat, childExitedAt: nat, timeout: Option<nat>,
                     wasCancelled: bool, wasTimedOut: bool)
    returns (end: JoinEnd, last: nat, p: Progress)
    requires Ticking(env, period) && start <= childExitedAt <= env(0).now
    ensures env(last).now <= Max(childExitedAt + LEADER_EXITED_GRACE, env(0).now)
                             + TASK_TERM_GRACE + 3 * STREAM_DRAIN_HARD_GRACE + 4 * period
    ensures StreamsAfter(env, last).stdoutBusy || StreamsAfter(env, last).stderrBusy
    ensures EndFits(StreamsAfter(env, last + 1), end)
    ensures end.WorkersStuck? ==> Reached(env, p.marks.abort, STREAM_DRAIN_HARD_GRACE, last)
    ensures WellRecorded(env, start, timeout, wasCancelled, wasTimedOut, p)
    ensures p.marks == MarksAt(env, start, childExitedAt, timeout, wasTimedOut,
                               if end.WorkersStuck? then last + 1 else last)
  {
    hide WellRecorded, MarksAt, Joining, StreamsAfter, EndFits, Ticking, Reached;
    last, p := 0, Progress(UNMARKED, wasCancelled, wasTimedOut, {});
    var streams := Streams(true, true, None, None, None);
    JoinBegins(env, period, start, childExitedAt, timeout, wasCancelled, wasTimedOut);
    while true
      invariant Joining(env, period, start, childExitedAt, timeout, wasCancelled, wasTimedOut, last, streams, p)
      decreases Max(childExitedAt + LEADER_EXITED_GRACE, env(0).now)
                + TASK_TERM_GRACE + 3 * STREAM_DRAIN_HARD_GRACE + 4 * period - env(last).now
    {
      JoinInTime(env, period, start, childExitedAt, timeout, wasCancelled, wasTimedOut, last, streams, p);
      var ended;
      ended, streams, p := JoinTurn(env, period, last, streams, start, childExitedAt, timeout, wasCancelled,
                                    wasTimedOut, p);
      if ended.Some? {
        return ended.value, last, p;
      }
      last := last + 1;
    }
  }
}
