/** What one handler leaves when it is refused: by a daemon that is closed, by the request's own check, or by the
    kernel. Nothing is registered, and a process that it holds is stopped. */
module Refusals {
  import opened Results
  import opened Registration
  import opened Undisturbed

  /** A step that changes the lock and the handler's position at most, wherever it stands. */
  lemma RefusedStep(sh: Shared, i: nat, th: Thread, n: Input)
    requires Enabled(sh, th, n) && Idle(sh, th, n)
    requires FlagAfter(sh, th, n) == sh.quiescing && TasksAfter(sh, th, n) == sh.tasks
    ensures var after := ThreadAfter(sh, th, n);
            && Moves(sh, i, th, n, sh.(lock := LockAfter(sh, i, th, n)), after)
            && after.kind == th.kind && after.pc == PcAfter(sh, th, n) && after.cand == th.cand
            && after.victims == th.victims
  {
    IdleStep(sh, i, th, n);
  }

  /** What is shared after `k` steps of handler `i`, which is done then. */
  predicate DoneAfter(s: State, i: nat, env: Answers, k: nat, sh: Shared) {
    && i < |s.threads| && Alone(s, i, env, k).sh == sh
    && i < |Alone(s, i, env, k).threads| && Alone(s, i, env, k).threads[i].pc.Done?
  }

  lemma AtIsDone(s: State, i: nat, env: Answers, k: nat, sh: Shared, th: Thread)
    requires At(s, i, env, k, sh, th) && th.pc.Done?
    ensures DoneAfter(s, i, env, k, sh)
  {
  }

  /** The third step, under the lock, refuses. */
  lemma RefusedUnderLock(s: State, i: nat, env: Answers, wait: Pc, pc: Pc)
    requires AtStart(s, i) && PcAfter(s.sh, s.threads[i], env(0)) == wait && WantsLock(wait)
    requires PcAfter(s.sh, s.threads[i].(pc := wait), env(1)) == pc && HoldsLock(pc)
    requires var sh, th := s.sh.(lock := Some(i)), s.threads[i].(pc := pc);
             && Enabled(sh, th, env(2)) && Idle(sh, th, env(2)) && PcAfter(sh, th, env(2)).Done?
             && FlagAfter(sh, th, env(2)) == sh.quiescing && TasksAfter(sh, th, env(2)) == sh.tasks
    ensures DoneAfter(s, i, env, 3, s.sh)
  {
    hide At, Moves, PcAfter, Idle, FlagAfter, TasksAfter, Enabled;
    var sh, th := s.sh.(lock := Some(i)), s.threads[i].(pc := pc);
    Locked(s, i, env, wait);
    RefusedStep(sh, i, th, env(2));
    Move(s, i, env, 2, sh, th, s.sh, ThreadAfter(sh, th, env(2)));
    AtIsDone(s, i, env, 3, s.sh, ThreadAfter(sh, th, env(2)));
  }

  /** An ensure on a closed daemon, or one that conflicts with the entry there, starts nothing. */
  lemma EnsureRefused(s: State, i: nat, env: Answers)
    requires AtStart(s, i) && s.threads[i].kind.Ensure? && (!Accepts(s.sh) || env(2).answer.Refused?)
    ensures DoneAfter(s, i, env, 3, s.sh)
  {
    RefusedUnderLock(s, i, env, FirstLock, First);
  }

  /** A promotion on a closed daemon, of a bootstrap that is not there, or of another's, moves nothing. */
  lemma PromoteRefused(s: State, i: nat, env: Answers)
    requires AtStart(s, i) && s.threads[i].kind.Promote?
    requires !Accepts(s.sh) || env(2).answer.Refused? || s.threads[i].kind.boot !in s.sh.boots
    ensures DoneAfter(s, i, env, 3, s.sh)
  {
    RefusedUnderLock(s, i, env, Pc.TakeLock, Take);
  }

  /** A task that is refused is not registered. */
  lemma TaskRefused(s: State, i: nat, env: Answers)
    requires AtStart(s, i) && s.threads[i].kind.RunTask? && (!Accepts(s.sh) || !env(2).answer.Fine?)
    ensures DoneAfter(s, i, env, 3, s.sh)
  {
    RefusedUnderLock(s, i, env, TaskLock, TaskInsert);
  }

  /** A daemon that is stopping, or is not the one that is meant, neither closes nor opens. */
  lemma QuiesceRefused(s: State, i: nat, env: Answers)
    requires AtStart(s, i) && (s.threads[i].kind.Quiesce? || s.threads[i].kind.Unquiesce?)
    requires s.sh.stopping || env(2).answer.Refused?
    ensures DoneAfter(s, i, env, 3, s.sh)
  {
    if s.threads[i].kind.Quiesce? {
      RefusedUnderLock(s, i, env, FlagLock, SetFlag);
    } else {
      RefusedUnderLock(s, i, env, ClearLock, Clear);
    }
  }

  /** The second step refuses. */
  lemma RefusedAtOnce(s: State, i: nat, env: Answers, pc: Pc)
    requires AtStart(s, i) && PcAfter(s.sh, s.threads[i], env(0)) == pc && !WantsLock(pc) && !HoldsLock(pc)
    requires var th := s.threads[i].(pc := pc);
             && Enabled(s.sh, th, env(1)) && Idle(s.sh, th, env(1)) && PcAfter(s.sh, th, env(1)).Done?
             && FlagAfter(s.sh, th, env(1)) == s.sh.quiescing && TasksAfter(s.sh, th, env(1)) == s.sh.tasks
    ensures DoneAfter(s, i, env, 2, s.sh)
  {
    hide At, Moves, PcAfter, Idle, FlagAfter, TasksAfter, Enabled;
    var th := s.threads[i].(pc := pc);
    Starting(s, i, env);
    RefusedStep(s.sh, i, th, env(1));
    Move(s, i, env, 1, s.sh, th, s.sh, ThreadAfter(s.sh, th, env(1)));
    AtIsDone(s, i, env, 2, s.sh, ThreadAfter(s.sh, th, env(1)));
  }

  /** An abort or a stop request that does not match what is registered, or finds nothing, stops nothing. */
  lemma StopRefused(s: State, i: nat, env: Answers)
    requires AtStart(s, i) && (s.threads[i].kind.Abort? || s.threads[i].kind.StopServer?)
    requires || !env(1).answer.Fine? || (s.threads[i].kind.Abort? && s.threads[i].kind.boot !in s.sh.boots)
             || (s.threads[i].kind.StopServer? && s.threads[i].kind.session !in s.sh.servers)
    ensures DoneAfter(s, i, env, 2, s.sh)
  {
    RefusedAtOnce(s, i, env, Remove);
  }

  /** A start whose spawn fails leaves nothing. */
  lemma StartFails(s: State, i: nat, env: Answers)
    requires AtStart(s, i) && Starts(s.threads[i].kind) && !env(1).answer.Fine?
    ensures DoneAfter(s, i, env, 2, s.sh)
  {
    RefusedAtOnce(s, i, env, Spawn);
  }

  /** An ensure that finds the daemon closed, or a conflict, when it comes to register its new process stops it. */
  lemma EnsureGivesUp(s: State, i: nat, env: Answers)
    requires AtSecond(s, i) && (!Accepts(s.sh) || env(1).answer.Refused?)
    ensures DoneAfter(s, i, env, 3, s.sh.(stopped := s.sh.stopped + {s.threads[i].cand.value}))
  {
    hide At, Moves;
    var sh, th := s.sh.(lock := Some(i)), s.threads[i].(pc := Second);
    SecondLocked(s, i, env);
    RefusedStep(sh, i, th, env(1));
    var th2 := ThreadAfter(sh, th, env(1));
    assert th2.pc.GiveUp?;
    Move(s, i, env, 1, sh, th, s.sh, th2);
    GiveUpStep(s.sh, i, th2, env(2));
    var sh3 := s.sh.(stopped := s.sh.stopped + {th.cand.value});
    Move(s, i, env, 2, s.sh, th2, sh3, th2.(pc := Done, cand := None));
    AtIsDone(s, i, env, 3, sh3, th2.(pc := Done, cand := None));
  }

  /** A promotion whose process has exited, or is not as the request says, stops it. */
  lemma PromoteGivesUp(s: State, i: nat, env: Answers)
    requires AtStart(s, i) && s.threads[i].kind.Promote? && Accepts(s.sh) && s.threads[i].kind.boot in s.sh.boots
    requires !env(2).answer.Refused? && !env(3).answer.Fine?
    ensures var b := s.threads[i].kind.boot;
            DoneAfter(s, i, env, 6, s.sh.(boots := s.sh.boots - {b}, stopped := s.sh.stopped + {s.sh.boots[b]}))
  {
    hide At, Moves;
    var b := s.threads[i].kind.boot;
    Locked(s, i, env, Pc.TakeLock);
    var sh, th := s.sh.(lock := Some(i)), s.threads[i].(pc := Take);
    TakeStep(sh, i, th, env(2));
    var sh3, th3 := sh.(boots := sh.boots - {b}), th.(pc := Check, cand := Some(s.sh.boots[b]));
    Move(s, i, env, 2, sh, th, sh3, th3);
    QuietStep(sh3, i, th3, env(3));
    var th4 := th3.(pc := PlaceGiveUp);
    Move(s, i, env, 3, sh3, th3, sh3, th4);
    GiveUpStep(sh3, i, th4, env(4));
    var sh5, th5 := sh3.(stopped := sh3.stopped + {s.sh.boots[b]}), th4.(pc := PlaceUnlock, cand := None);
    Move(s, i, env, 4, sh3, th4, sh5, th5);
    QuietStep(sh5, i, th5, env(5));
    Move(s, i, env, 5, sh5, th5, sh5.(lock := None), th5.(pc := Done));
    AtIsDone(s, i, env, 6, sh5.(lock := None), th5.(pc := Done));
  }
}
