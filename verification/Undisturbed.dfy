/** What one handler does from its first step to its last when no other handler steps in between, and what an ensure
    achieves whoever steps in between. */
module Undisturbed {
  import opened Results
  import opened Registration

  /** The answers to the steps of a handler, by the number of the step. */
  type Answers = nat -> Input

  /** Handler `i` takes its first `k` steps. */
  function Alone(s: State, i: nat, env: Answers, k: nat): State {
    if k == 0 then s else Next(Alone(s, i, env, k - 1), Step(i, env(k - 1)))
  }

  lemma {:induction false} AloneIsRun(s: State, i: nat, env: Answers, k: nat)
    ensures Alone(s, i, env, k) == Run(s, seq(k, j requires 0 <= j < k => Step(i, env(j))))
  {
    if k > 0 {
      hide Next;
      AloneIsRun(s, i, env, k - 1);
      var evs := seq(k, j requires 0 <= j < k => Step(i, env(j)));
      assert evs[..k - 1] == seq(k - 1, j requires 0 <= j < k - 1 => Step(i, env(j)));
    }
  }

  /** Nothing has happened to the handler yet, and nobody holds the lock. */
  predicate AtStart(s: State, i: nat) {
    && i < |s.threads| && s.threads[i].pc.Begin? && s.threads[i].cand.None? && s.threads[i].victims == {}
    && s.sh.lock.None?
  }

  predicate AllFine(env: Answers, k: nat) { forall j: nat :: j < k ==> env(j).answer.Fine? }

  /** After `k` steps of its own the handler is at `th`, and what is shared is `sh`; the others have not moved. */
  predicate At(s: State, i: nat, env: Answers, k: nat, sh: Shared, th: Thread) {
    i < |s.threads| && Alone(s, i, env, k) == State(sh, s.threads[i := th])
  }

  /** The step from there to there. */
  predicate Moves(sh: Shared, i: nat, th: Thread, n: Input, shAfter: Shared, thAfter: Thread) {
    Enabled(sh, th, n) && SharedAfter(sh, i, th, n) == shAfter && ThreadAfter(sh, th, n) == thAfter
  }

  lemma Move(s: State, i: nat, env: Answers, k: nat, sh: Shared, th: Thread, shAfter: Shared, thAfter: Thread)
    requires At(s, i, env, k, sh, th) && Moves(sh, i, th, env(k), shAfter, thAfter)
    ensures At(s, i, env, k + 1, shAfter, thAfter)
  {
  }

  /** A step that files nothing, takes nothing out, starts nothing and stops nothing. */
  predicate Idle(sh: Shared, th: Thread, n: Input) {
    && !FilesServer(sh, th, n) && !FilesBoot(sh, th, n) && !TakesBoot(sh, th, n) && !Spawns(sh, th, n)
    && SessionsOut(sh, th, n) == {} && BootsOut(sh, th, n) == {} && !StopsCand(th) && !StopsVictims(th.pc)
  }

  /** What it changes at most: the lock, the flag and the tasks. */
  lemma IdleStep(sh: Shared, i: nat, th: Thread, n: Input)
    requires Enabled(sh, th, n) && Idle(sh, th, n)
    ensures SharedAfter(sh, i, th, n)
         == sh.(lock := LockAfter(sh, i, th, n), quiescing := FlagAfter(sh, th, n), tasks := TasksAfter(sh, th, n))
    ensures ThreadAfter(sh, th, n).cand == th.cand && ThreadAfter(sh, th, n).victims == th.victims
  {
    hide PcAfter, LockAfter, FlagAfter, TasksAfter, FilesServer, FilesBoot, TakesBoot, Spawns, SessionsOut, BootsOut;
    assert sh.servers - {} == sh.servers && sh.boots - {} == sh.boots;
  }

  /** The steps that change nothing but the lock and the handler's position. */
  predicate Quiet(pc: Pc) {
    || pc.Begin? || WantsLock(pc) || pc.Check? || pc.PlaceUnlock? || pc.Serve? || pc.Bind? || pc.CheckBoots?
    || pc.Export?
  }

  lemma QuietStep(sh: Shared, i: nat, th: Thread, n: Input)
    requires Enabled(sh, th, n) && Quiet(th.pc)
    ensures Moves(sh, i, th, n, sh.(lock := LockAfter(sh, i, th, n)), th.(pc := PcAfter(sh, th, n)))
  {
    hide PcAfter, LockAfter;
    IdleStep(sh, i, th, n);
  }

  lemma Starting(s: State, i: nat, env: Answers)
    requires AtStart(s, i)
    ensures At(s, i, env, 1, s.sh, s.threads[i].(pc := PcAfter(s.sh, s.threads[i], env(0))))
  {
    var th := s.threads[i];
    assert s.threads[i := th] == s.threads;
    QuietStep(s.sh, i, th, env(0));
    Move(s, i, env, 0, s.sh, th, s.sh, th.(pc := PcAfter(s.sh, th, env(0))));
  }

  lemma LockStep(sh: Shared, i: nat, th: Thread, n: Input)
    requires WantsLock(th.pc) && sh.lock.None?
    ensures Moves(sh, i, th, n, sh.(lock := Some(i)), th.(pc := PcAfter(sh, th, n)))
  {
    QuietStep(sh, i, th, n);
  }

  /** Up to the first step under the lock. */
  lemma Locked(s: State, i: nat, env: Answers, wait: Pc)
    requires AtStart(s, i) && PcAfter(s.sh, s.threads[i], env(0)) == wait && WantsLock(wait)
    ensures At(s, i, env, 2, s.sh.(lock := Some(i)),
               s.threads[i].(pc := PcAfter(s.sh, s.threads[i].(pc := wait), env(1))))
  {
    hide At, Moves, PcAfter;
    var th := s.threads[i];
    Starting(s, i, env);
    LockStep(s.sh, i, th.(pc := wait), env(1));
    Move(s, i, env, 1, s.sh, th.(pc := wait), s.sh.(lock := Some(i)),
         th.(pc := PcAfter(s.sh, th.(pc := wait), env(1))));
  }

  // ---------------------------------------------------------------- the steps that do something

  lemma FirstStep(sh: Shared, i: nat, th: Thread, n: Input)
    requires th.pc.First? && th.kind.Ensure? && sh.lock == Some(i)
    ensures Accepts(sh) && !n.answer.Refused? && th.kind.session !in sh.servers ==>
              Moves(sh, i, th, n, sh.(lock := None), th.(pc := Spawn))
    ensures Accepts(sh) && n.answer.Fine? && th.kind.session in sh.servers ==>
              Moves(sh, i, th, n, sh.(lock := None), th.(pc := Done, proof := Some(sh.servers[th.kind.session])))
    ensures Accepts(sh) && n.answer.Dead? && th.kind.session in sh.servers ==>
              Moves(sh, i, th, n, sh.(lock := None), th.(pc := FirstRemove, proof := Some(sh.servers[th.kind.session])))
  {
    IdleStep(sh, i, th, n);
  }

  /** Takes out the entry that was found dead; the handler keeps its candidate, if it has one. */
  lemma RemoveDeadStep(sh: Shared, i: nat, th: Thread, n: Input)
    requires || (th.kind.Ensure? && (th.pc.FirstRemove? || th.pc.SecondRemove?))
             || (th.kind.Promote? && th.pc.PlaceRemove?)
    requires !n.answer.Refused? && th.victims == {}
    requires SessionOf(th.kind) in sh.servers && th.proof == Some(sh.servers[SessionOf(th.kind)])
    ensures Moves(sh, i, th, n, sh.(servers := sh.servers - {SessionOf(th.kind)}),
                  th.(pc := if th.pc.FirstRemove? then FirstStop
                            else if th.pc.SecondRemove? then SecondStop else PlaceStop,
                      victims := {sh.servers[SessionOf(th.kind)]}))
  {
    assert sh.boots - {} == sh.boots && sh.stopped + {} + {} == sh.stopped;
    assert ProcsAt(sh.servers, {SessionOf(th.kind)}) == {sh.servers[SessionOf(th.kind)]};
  }

  lemma VictimsStep(sh: Shared, i: nat, th: Thread, n: Input)
    requires StopsVictims(th.pc)
    ensures Moves(sh, i, th, n, sh.(lock := LockAfter(sh, i, th, n), stopped := sh.stopped + th.victims),
                  th.(pc := PcAfter(sh, th, n), victims := {}))
  {
    hide PcAfter, LockAfter;
    assert sh.servers - {} == sh.servers && sh.boots - {} == sh.boots;
  }

  lemma SpawnStep(sh: Shared, i: nat, th: Thread, n: Input)
    requires th.pc.Spawn? && th.victims == {} && n.answer.Fine? && n.newProc !in sh.spawned
    ensures Moves(sh, i, th, n, sh.(spawned := sh.spawned + {n.newProc}),
                  th.(pc := if th.kind.Ensure? then SecondLock else InsertLock, cand := Some(n.newProc)))
  {
    assert sh.servers - {} == sh.servers && sh.boots - {} == sh.boots;
  }

  lemma SecondStep(sh: Shared, i: nat, th: Thread, n: Input)
    requires th.pc.Second? && th.kind.Ensure? && th.cand.Some? && th.victims == {} && sh.lock == Some(i)
    requires Accepts(sh) && !n.answer.Refused? && th.kind.session !in sh.servers
    ensures Moves(sh, i, th, n, sh.(servers := sh.servers[th.kind.session := th.cand.value], lock := None),
                  th.(pc := Done, cand := None))
  {
    assert sh.boots - {} == sh.boots;
  }

  lemma InsertStep(sh: Shared, i: nat, th: Thread, n: Input)
    requires th.pc.Insert? && Starts(th.kind) && th.cand.Some? && th.victims == {} && sh.lock == Some(i)
    ensures Accepts(sh) ==>
              Moves(sh, i, th, n, sh.(boots := sh.boots[BootOf(th.kind) := th.cand.value], lock := None),
                    th.(pc := if th.kind.ThreadStart? then Serve else Done, cand := None))
    ensures !Accepts(sh) ==> Moves(sh, i, th, n, sh.(lock := None), th.(pc := GiveUp))
  {
    assert sh.servers - {} == sh.servers && sh.boots - {} == sh.boots;
  }

  lemma GiveUpStep(sh: Shared, i: nat, th: Thread, n: Input)
    requires StopsCand(th) && th.cand.Some? && th.victims == {}
    ensures Moves(sh, i, th, n, sh.(lock := LockAfter(sh, i, th, n), stopped := sh.stopped + {th.cand.value}),
                  th.(pc := PcAfter(sh, th, n), cand := None))
  {
    hide PcAfter, LockAfter;
    assert sh.servers - {} == sh.servers && sh.boots - {} == sh.boots;
  }

  lemma TakeBackStep(sh: Shared, i: nat, th: Thread, n: Input)
    requires th.pc.TakeBack? && Starts(th.kind) && th.cand.None? && th.victims == {} && BootOf(th.kind) in sh.boots
    ensures Moves(sh, i, th, n, sh.(boots := sh.boots - {BootOf(th.kind)}),
                  th.(pc := Stop, victims := {sh.boots[BootOf(th.kind)]}))
  {
    assert sh.servers - {} == sh.servers;
    assert ProcsAt(sh.boots, {BootOf(th.kind)}) == {sh.boots[BootOf(th.kind)]};
  }

  lemma TakeStep(sh: Shared, i: nat, th: Thread, n: Input)
    requires th.pc.Take? && th.kind.Promote? && th.victims == {} && sh.lock == Some(i)
    requires Accepts(sh) && !n.answer.Refused? && th.kind.boot in sh.boots
    ensures Moves(sh, i, th, n, sh.(boots := sh.boots - {th.kind.boot}),
                  th.(pc := Check, cand := Some(sh.boots[th.kind.boot])))
  {
    assert sh.servers - {} == sh.servers;
  }

  lemma PlaceStep(sh: Shared, i: nat, th: Thread, n: Input)
    requires th.pc.Place? && th.kind.Promote? && th.cand.Some? && th.victims == {} && sh.lock == Some(i) && !sh.stopping
    ensures th.kind.session !in sh.servers ==>
              Moves(sh, i, th, n, sh.(servers := sh.servers[th.kind.session := th.cand.value]),
                    th.(pc := PlaceUnlock, cand := None))
    ensures th.kind.session in sh.servers && !n.answer.Dead? ==>
              Moves(sh, i, th, n, sh, th.(pc := PlaceGiveUp, proof := Some(sh.servers[th.kind.session])))
  {
    assert sh.servers - {} == sh.servers && sh.boots - {} == sh.boots;
  }

  lemma RemoveServerStep(sh: Shared, i: nat, th: Thread, n: Input)
    requires th.pc.Remove? && th.kind.StopServer? && th.victims == {} && n.answer.Fine? && th.kind.session in sh.servers
    ensures Moves(sh, i, th, n, sh.(servers := sh.servers - {th.kind.session}),
                  th.(pc := Stop, victims := {sh.servers[th.kind.session]}))
  {
    assert sh.boots - {} == sh.boots;
    assert ProcsAt(sh.servers, {th.kind.session}) == {sh.servers[th.kind.session]};
  }

  lemma RemoveAllServersStep(sh: Shared, i: nat, th: Thread, n: Input)
    requires th.pc.Remove? && th.kind.StopAllServers? && th.victims == {}
    ensures Moves(sh, i, th, n, sh.(servers := map[]), th.(pc := Stop, victims := sh.servers.Values))
  {
    assert sh.boots - {} == sh.boots && sh.servers - sh.servers.Keys == map[];
    assert ProcsAt(sh.servers, sh.servers.Keys) == sh.servers.Values;
  }

  lemma RemoveBootStep(sh: Shared, i: nat, th: Thread, n: Input)
    requires th.pc.Remove? && th.kind.Abort? && th.victims == {} && n.answer.Fine? && th.kind.boot in sh.boots
    ensures Moves(sh, i, th, n, sh.(boots := sh.boots - {th.kind.boot}),
                  th.(pc := Stop, victims := {sh.boots[th.kind.boot]}))
  {
    assert sh.servers - {} == sh.servers;
    assert ProcsAt(sh.boots, {th.kind.boot}) == {sh.boots[th.kind.boot]};
  }

  lemma RemoveBootsStep(sh: Shared, i: nat, th: Thread, n: Input)
    requires th.pc.Remove? && th.kind.StopBoots? && th.victims == {}
    ensures Moves(sh, i, th, n, sh.(boots := sh.boots - n.expired),
                  th.(pc := Stop, victims := set b | b in n.expired && b in sh.boots :: sh.boots[b]))
  {
    assert sh.servers - {} == sh.servers && sh.boots - n.expired * sh.boots.Keys == sh.boots - n.expired;
    assert ProcsAt(sh.boots, n.expired * sh.boots.Keys) == set b | b in n.expired && b in sh.boots :: sh.boots[b];
  }

  lemma TaskStep(sh: Shared, i: nat, th: Thread, n: Input)
    requires th.pc.TaskInsert? && th.kind.RunTask? && n.answer.Fine? && sh.lock == Some(i)
    ensures Accepts(sh) ==> Moves(sh, i, th, n, sh.(tasks := sh.tasks + {th.kind.task}, lock := None), th.(pc := Done))
    ensures !Accepts(sh) ==> Moves(sh, i, th, n, sh.(lock := None), th.(pc := Done))
  {
    IdleStep(sh, i, th, n);
  }

  lemma FlagSteps(sh: Shared, i: nat, th: Thread, n: Input)
    requires sh.lock == Some(i)
    ensures th.pc.SetFlag? && !sh.stopping && !n.answer.Refused? ==>
              Moves(sh, i, th, n, sh.(quiescing := true), th.(pc := CheckBoots, was := sh.quiescing))
    ensures th.pc.Restore? ==>
              Moves(sh, i, th, n, sh.(quiescing := sh.quiescing && th.was, lock := None), th.(pc := Done))
    ensures th.pc.Clear? && !sh.stopping && !n.answer.Refused? ==>
              Moves(sh, i, th, n, sh.(quiescing := false, lock := None), th.(pc := Done))
  {
    if th.pc.SetFlag? || th.pc.Restore? || th.pc.Clear? { IdleStep(sh, i, th, n); }
  }

  // ---------------------------------------------------------------- ensure

  lemma EnsureAtFirst(s: State, i: nat, env: Answers)
    requires AtStart(s, i) && s.threads[i].kind.Ensure?
    ensures At(s, i, env, 2, s.sh.(lock := Some(i)), s.threads[i].(pc := First))
  {
    hide At;
    Locked(s, i, env, FirstLock);
  }

  /** A handler that is about to spawn, alone with a daemon that accepts work and lacks the session. */
  lemma SpawnAndFile(s: State, i: nat, env: Answers, k: nat, sh: Shared, th: Thread)
    requires At(s, i, env, k, sh, th) && th.pc.Spawn? && th.kind.Ensure? && th.victims == {}
    requires Accepts(sh) && sh.lock.None? && th.kind.session !in sh.servers
    requires env(k).answer.Fine? && env(k).newProc !in sh.spawned && env(k + 2).answer.Fine?
    ensures At(s, i, env, k + 3,
               sh.(servers := sh.servers[th.kind.session := env(k).newProc], spawned := sh.spawned + {env(k).newProc}),
               th.(pc := Done, cand := None))
  {
    hide At, Moves;
    SpawnStep(sh, i, th, env(k));
    var sh1, th1 := sh.(spawned := sh.spawned + {env(k).newProc}), th.(pc := SecondLock, cand := Some(env(k).newProc));
    Move(s, i, env, k, sh, th, sh1, th1);
    LockStep(sh1, i, th1, env(k + 1));
    var sh2, th2 := sh1.(lock := Some(i)), th1.(pc := Second);
    Move(s, i, env, k + 1, sh1, th1, sh2, th2);
    SecondStep(sh2, i, th2, env(k + 2));
    Move(s, i, env, k + 2, sh2, th2, sh2.(servers := sh2.servers[th.kind.session := env(k).newProc], lock := None),
         th2.(pc := Done, cand := None));
  }

  /** An ensure on a daemon that accepts work and lacks the session starts a process and registers it. */
  lemma EnsureRegisters(s: State, i: nat, env: Answers)
    requires AtStart(s, i) && s.threads[i].kind.Ensure? && Accepts(s.sh) && AllFine(env, 6)
    requires s.threads[i].kind.session !in s.sh.servers && env(3).newProc !in s.sh.spawned
    ensures At(s, i, env, 6,
               s.sh.(servers := s.sh.servers[s.threads[i].kind.session := env(3).newProc],
                     spawned := s.sh.spawned + {env(3).newProc}),
               s.threads[i].(pc := Done))
  {
    hide At, Moves;
    var sh, th := s.sh.(lock := Some(i)), s.threads[i].(pc := First);
    EnsureAtFirst(s, i, env);
    FirstStep(sh, i, th, env(2));
    Move(s, i, env, 2, sh, th, s.sh, th.(pc := Spawn));
    SpawnAndFile(s, i, env, 3, s.sh, th.(pc := Spawn));
  }

  /** An ensure that finds the session with its process running leaves everything as it is. */
  lemma EnsureKeeps(s: State, i: nat, env: Answers)
    requires AtStart(s, i) && s.threads[i].kind.Ensure? && Accepts(s.sh) && AllFine(env, 3)
    requires s.threads[i].kind.session in s.sh.servers
    ensures At(s, i, env, 3, s.sh,
               s.threads[i].(pc := Done, proof := Some(s.sh.servers[s.threads[i].kind.session])))
  {
    hide At, Moves;
    var sh, th := s.sh.(lock := Some(i)), s.threads[i].(pc := First);
    EnsureAtFirst(s, i, env);
    FirstStep(sh, i, th, env(2));
    Move(s, i, env, 2, sh, th, s.sh, th.(pc := Done, proof := Some(s.sh.servers[s.threads[i].kind.session])));
  }

  /** An ensure that finds the session's process exited stops it and registers a new one in its place. */
  lemma EnsureReplaces(s: State, i: nat, env: Answers)
    requires AtStart(s, i) && s.threads[i].kind.Ensure? && Accepts(s.sh) && s.threads[i].kind.session in s.sh.servers
    requires env(2).answer.Dead? && forall j: nat :: j < 8 && j != 2 ==> env(j).answer.Fine?
    requires env(5).newProc !in s.sh.spawned
    ensures var x := s.threads[i].kind.session;
            At(s, i, env, 8,
               s.sh.(servers := s.sh.servers[x := env(5).newProc], spawned := s.sh.spawned + {env(5).newProc},
                     stopped := s.sh.stopped + {s.sh.servers[x]}),
               s.threads[i].(pc := Done, proof := Some(s.sh.servers[x])))
  {
    hide At, Moves;
    var x := s.threads[i].kind.session;
    var sh, th := s.sh.(lock := Some(i)), s.threads[i].(pc := First);
    EnsureAtFirst(s, i, env);
    FirstStep(sh, i, th, env(2));
    var th3 := th.(pc := FirstRemove, proof := Some(s.sh.servers[x]));
    Move(s, i, env, 2, sh, th, s.sh, th3);
    RemoveDeadStep(s.sh, i, th3, env(3));
    var sh4, th4 := s.sh.(servers := s.sh.servers - {x}), th3.(pc := FirstStop, victims := {s.sh.servers[x]});
    Move(s, i, env, 3, s.sh, th3, sh4, th4);
    VictimsStep(sh4, i, th4, env(4));
    var sh5, th5 := sh4.(stopped := sh4.stopped + {s.sh.servers[x]}), th4.(pc := Spawn, victims := {});
    Move(s, i, env, 4, sh4, th4, sh5, th5);
    SpawnAndFile(s, i, env, 5, sh5, th5);
    assert (s.sh.servers - {x})[x := env(5).newProc] == s.sh.servers[x := env(5).newProc];
  }

  lemma SecondFinds(sh: Shared, i: nat, th: Thread, n: Input)
    requires th.pc.Second? && th.kind.Ensure? && sh.lock == Some(i) && Accepts(sh) && th.kind.session in sh.servers
    ensures n.answer.Fine? ==>
              Moves(sh, i, th, n, sh.(lock := None), th.(pc := GiveUp, proof := Some(sh.servers[th.kind.session])))
    ensures n.answer.Dead? ==>
              Moves(sh, i, th, n, sh.(lock := None),
                    th.(pc := SecondRemove, proof := Some(sh.servers[th.kind.session])))
  {
    IdleStep(sh, i, th, n);
  }

  lemma PlaceFindsDead(sh: Shared, i: nat, th: Thread, n: Input)
    requires th.pc.Place? && th.kind.Promote? && sh.lock == Some(i) && !sh.stopping && n.answer.Dead?
    requires th.kind.session in sh.servers
    ensures Moves(sh, i, th, n, sh, th.(pc := PlaceRemove, proof := Some(sh.servers[th.kind.session])))
  {
    IdleStep(sh, i, th, n);
  }

  /** From where it is about to take the lock again, with its new process. */
  predicate AtSecond(s: State, i: nat) {
    && i < |s.threads| && s.threads[i].pc.SecondLock? && s.threads[i].kind.Ensure? && s.threads[i].cand.Some?
    && s.threads[i].victims == {} && s.sh.lock.None?
  }

  lemma SecondLocked(s: State, i: nat, env: Answers)
    requires AtSecond(s, i)
    ensures At(s, i, env, 1, s.sh.(lock := Some(i)), s.threads[i].(pc := Second))
  {
    hide Moves;
    var th := s.threads[i];
    assert s.threads[i := th] == s.threads;
    LockStep(s.sh, i, th, env(0));
    Move(s, i, env, 0, s.sh, th, s.sh.(lock := Some(i)), th.(pc := Second));
  }

  /** An ensure that finds somebody else's running process under its session stops its own. */
  lemma EnsureYields(s: State, i: nat, env: Answers)
    requires AtSecond(s, i) && Accepts(s.sh) && AllFine(env, 3) && s.threads[i].kind.session in s.sh.servers
    ensures At(s, i, env, 3, s.sh.(stopped := s.sh.stopped + {s.threads[i].cand.value}),
               s.threads[i].(pc := Done, cand := None, proof := Some(s.sh.servers[s.threads[i].kind.session])))
  {
    hide At, Moves;
    var x := s.threads[i].kind.session;
    var sh, th := s.sh.(lock := Some(i)), s.threads[i].(pc := Second);
    SecondLocked(s, i, env);
    SecondFinds(sh, i, th, env(1));
    var th2 := th.(pc := GiveUp, proof := Some(sh.servers[x]));
    Move(s, i, env, 1, sh, th, s.sh, th2);
    GiveUpStep(s.sh, i, th2, env(2));
    Move(s, i, env, 2, s.sh, th2, s.sh.(stopped := s.sh.stopped + {th.cand.value}), th2.(pc := Done, cand := None));
  }

  /** If that process is found exited, it is stopped and replaced after all. */
  lemma EnsureReplacesLate(s: State, i: nat, env: Answers)
    requires AtSecond(s, i) && Accepts(s.sh) && s.threads[i].kind.session in s.sh.servers
    requires env(1).answer.Dead? && forall j: nat :: j < 6 && j != 1 ==> env(j).answer.Fine?
    ensures var x := s.threads[i].kind.session;
            At(s, i, env, 6,
               s.sh.(servers := s.sh.servers[x := s.threads[i].cand.value],
                     stopped := s.sh.stopped + {s.sh.servers[x]}),
               s.threads[i].(pc := Done, cand := None, proof := Some(s.sh.servers[x])))
  {
    hide At, Moves;
    var x := s.threads[i].kind.session;
    var sh, th := s.sh.(lock := Some(i)), s.threads[i].(pc := Second);
    SecondLocked(s, i, env);
    SecondFinds(sh, i, th, env(1));
    var th2 := th.(pc := SecondRemove, proof := Some(sh.servers[x]));
    Move(s, i, env, 1, sh, th, s.sh, th2);
    RemoveDeadStep(s.sh, i, th2, env(2));
    var sh3, th3 := s.sh.(servers := s.sh.servers - {x}), th2.(pc := SecondStop, victims := {s.sh.servers[x]});
    Move(s, i, env, 2, s.sh, th2, sh3, th3);
    VictimsStep(sh3, i, th3, env(3));
    var sh4, th4 := sh3.(stopped := sh3.stopped + {s.sh.servers[x]}), th3.(pc := SecondLock, victims := {});
    Move(s, i, env, 3, sh3, th3, sh4, th4);
    LockStep(sh4, i, th4, env(4));
    var sh5, th5 := sh4.(lock := Some(i)), th4.(pc := Second);
    Move(s, i, env, 4, sh4, th4, sh5, th5);
    SecondStep(sh5, i, th5, env(5));
    Move(s, i, env, 5, sh5, th5, sh5.(servers := sh5.servers[x := th.cand.value], lock := None),
         th5.(pc := Done, cand := None));
    assert (s.sh.servers - {x})[x := th.cand.value] == s.sh.servers[x := th.cand.value];
  }

  // ---------------------------------------------------------------- starts and promotion

  lemma StartAtInsert(s: State, i: nat, env: Answers)
    requires AtStart(s, i) && Starts(s.threads[i].kind) && env(1).answer.Fine? && env(1).newProc !in s.sh.spawned
    ensures At(s, i, env, 3, s.sh.(spawned := s.sh.spawned + {env(1).newProc}, lock := Some(i)),
               s.threads[i].(pc := Insert, cand := Some(env(1).newProc)))
  {
    hide At, Moves;
    var th := s.threads[i].(pc := Spawn);
    Starting(s, i, env);
    SpawnStep(s.sh, i, th, env(1));
    var p := env(1).newProc;
    var sh2, th2 := s.sh.(spawned := s.sh.spawned + {p}), th.(pc := InsertLock, cand := Some(p));
    Move(s, i, env, 1, s.sh, th, sh2, th2);
    LockStep(sh2, i, th2, env(2));
    Move(s, i, env, 2, sh2, th2, sh2.(lock := Some(i)), th2.(pc := Insert));
  }

  lemma StartFiles(s: State, i: nat, env: Answers)
    requires AtStart(s, i) && Starts(s.threads[i].kind) && Accepts(s.sh)
    requires env(1).answer.Fine? && env(1).newProc !in s.sh.spawned
    ensures At(s, i, env, 4,
               s.sh.(spawned := s.sh.spawned + {env(1).newProc},
                     boots := s.sh.boots[BootOf(s.threads[i].kind) := env(1).newProc]),
               s.threads[i].(pc := if s.threads[i].kind.ThreadStart? then Serve else Done))
  {
    hide At, Moves;
    StartAtInsert(s, i, env);
    var sh := s.sh.(spawned := s.sh.spawned + {env(1).newProc}, lock := Some(i));
    var th := s.threads[i].(pc := Insert, cand := Some(env(1).newProc));
    InsertStep(sh, i, th, env(3));
    Move(s, i, env, 3, sh, th,
         sh.(boots := sh.boots[BootOf(th.kind) := env(1).newProc], lock := None),
         th.(pc := if th.kind.ThreadStart? then Serve else Done, cand := None));
  }

  /** A foreground start files its process among the bootstraps. */
  lemma ForegroundStartFiles(s: State, i: nat, env: Answers)
    requires AtStart(s, i) && s.threads[i].kind.ForegroundStart? && Accepts(s.sh) && AllFine(env, 4)
    requires env(1).newProc !in s.sh.spawned
    ensures At(s, i, env, 4,
               s.sh.(spawned := s.sh.spawned + {env(1).newProc},
                     boots := s.sh.boots[s.threads[i].kind.boot := env(1).newProc]),
               s.threads[i].(pc := Done))
  {
    StartFiles(s, i, env);
  }

  /** A thread start does so too, and the bootstrap stays when the thread has been started. */
  lemma ThreadStartFiles(s: State, i: nat, env: Answers)
    requires AtStart(s, i) && s.threads[i].kind.ThreadStart? && Accepts(s.sh) && AllFine(env, 6)
    requires env(1).newProc !in s.sh.spawned
    ensures At(s, i, env, 6,
               s.sh.(spawned := s.sh.spawned + {env(1).newProc},
                     boots := s.sh.boots[s.threads[i].kind.boot := env(1).newProc]),
               s.threads[i].(pc := Done))
  {
    hide At, Moves;
    StartFiles(s, i, env);
    var b := s.threads[i].kind.boot;
    var sh := s.sh.(spawned := s.sh.spawned + {env(1).newProc}, boots := s.sh.boots[b := env(1).newProc]);
    var th := s.threads[i].(pc := Serve);
    QuietStep(sh, i, th, env(4));
    Move(s, i, env, 4, sh, th, sh, th.(pc := Bind));
    QuietStep(sh, i, th.(pc := Bind), env(5));
    Move(s, i, env, 5, sh, th.(pc := Bind), sh, th.(pc := Done));
  }

  /** If the thread cannot be started, the process is taken out again and stopped. */
  lemma ThreadStartTakesBack(s: State, i: nat, env: Answers)
    requires AtStart(s, i) && s.threads[i].kind.ThreadStart? && Accepts(s.sh) && AllFine(env, 4)
    requires env(1).newProc !in s.sh.spawned && !env(4).answer.Fine? && s.threads[i].kind.boot !in s.sh.boots
    ensures At(s, i, env, 7,
               s.sh.(spawned := s.sh.spawned + {env(1).newProc}, stopped := s.sh.stopped + {env(1).newProc}),
               s.threads[i].(pc := Done))
  {
    hide At, Moves;
    StartFiles(s, i, env);
    var b, p := s.threads[i].kind.boot, env(1).newProc;
    var sh, th := s.sh.(spawned := s.sh.spawned + {p}, boots := s.sh.boots[b := p]), s.threads[i].(pc := Serve);
    QuietStep(sh, i, th, env(4));
    Move(s, i, env, 4, sh, th, sh, th.(pc := TakeBack));
    TakeBackStep(sh, i, th.(pc := TakeBack), env(5));
    var sh6, th6 := sh.(boots := sh.boots - {b}), th.(pc := Stop, victims := {p});
    Move(s, i, env, 5, sh, th.(pc := TakeBack), sh6, th6);
    VictimsStep(sh6, i, th6, env(6));
    Move(s, i, env, 6, sh6, th6, sh6.(stopped := sh6.stopped + {p}), th6.(pc := Done, victims := {}));
    assert sh.boots - {b} == s.sh.boots;
  }

  /** On a daemon that has closed meanwhile, a start stops the process that it spawned. */
  lemma StartBehindTheFence(s: State, i: nat, env: Answers)
    requires AtStart(s, i) && Starts(s.threads[i].kind) && !Accepts(s.sh) && AllFine(env, 5)
    requires env(1).newProc !in s.sh.spawned
    ensures At(s, i, env, 5,
               s.sh.(spawned := s.sh.spawned + {env(1).newProc}, stopped := s.sh.stopped + {env(1).newProc}),
               s.threads[i].(pc := Done))
  {
    hide At, Moves;
    StartAtInsert(s, i, env);
    var p := env(1).newProc;
    var sh, th := s.sh.(spawned := s.sh.spawned + {p}, lock := Some(i)), s.threads[i].(pc := Insert, cand := Some(p));
    InsertStep(sh, i, th, env(3));
    var sh4, th4 := sh.(lock := None), th.(pc := GiveUp);
    Move(s, i, env, 3, sh, th, sh4, th4);
    GiveUpStep(sh4, i, th4, env(4));
    Move(s, i, env, 4, sh4, th4, sh4.(stopped := sh4.stopped + {p}), th4.(pc := Done, cand := None));
  }

  lemma PromoteAtPlace(s: State, i: nat, env: Answers)
    requires AtStart(s, i) && s.threads[i].kind.Promote? && Accepts(s.sh) && AllFine(env, 4)
    requires s.threads[i].kind.boot in s.sh.boots
    ensures var b := s.threads[i].kind.boot;
            At(s, i, env, 4, s.sh.(boots := s.sh.boots - {b}, lock := Some(i)),
               s.threads[i].(pc := Place, cand := Some(s.sh.boots[b])))
  {
    hide At, Moves;
    var b := s.threads[i].kind.boot;
    Locked(s, i, env, Pc.TakeLock);
    var sh, th := s.sh.(lock := Some(i)), s.threads[i].(pc := Take);
    TakeStep(sh, i, th, env(2));
    var sh3, th3 := sh.(boots := sh.boots - {b}), th.(pc := Check, cand := Some(s.sh.boots[b]));
    Move(s, i, env, 2, sh, th, sh3, th3);
    QuietStep(sh3, i, th3, env(3));
    Move(s, i, env, 3, sh3, th3, sh3, th3.(pc := Place));
  }

  /** A promotion moves the process from the bootstraps to its session. */
  lemma PromoteMoves(s: State, i: nat, env: Answers)
    requires AtStart(s, i) && s.threads[i].kind.Promote? && Accepts(s.sh) && AllFine(env, 6)
    requires s.threads[i].kind.boot in s.sh.boots && s.threads[i].kind.session !in s.sh.servers
    ensures var b, x := s.threads[i].kind.boot, s.threads[i].kind.session;
            At(s, i, env, 6, s.sh.(boots := s.sh.boots - {b}, servers := s.sh.servers[x := s.sh.boots[b]]),
               s.threads[i].(pc := Done))
  {
    hide At, Moves;
    PromoteAtPlace(s, i, env);
    var b, x := s.threads[i].kind.boot, s.threads[i].kind.session;
    var sh := s.sh.(boots := s.sh.boots - {b}, lock := Some(i));
    var th := s.threads[i].(pc := Place, cand := Some(s.sh.boots[b]));
    PlaceStep(sh, i, th, env(4));
    var sh5, th5 := sh.(servers := sh.servers[x := s.sh.boots[b]]), th.(pc := PlaceUnlock, cand := None);
    Move(s, i, env, 4, sh, th, sh5, th5);
    QuietStep(sh5, i, th5, env(5));
    Move(s, i, env, 5, sh5, th5, sh5.(lock := None), th5.(pc := Done));
  }

  /** A promotion to a session whose process runs stops the bootstrap's process instead. */
  lemma PromoteYields(s: State, i: nat, env: Answers)
    requires AtStart(s, i) && s.threads[i].kind.Promote? && Accepts(s.sh) && AllFine(env, 7)
    requires s.threads[i].kind.boot in s.sh.boots && s.threads[i].kind.session in s.sh.servers
    ensures var b := s.threads[i].kind.boot;
            At(s, i, env, 7, s.sh.(boots := s.sh.boots - {b}, stopped := s.sh.stopped + {s.sh.boots[b]}),
               s.threads[i].(pc := Done, proof := Some(s.sh.servers[s.threads[i].kind.session])))
  {
    hide At, Moves;
    PromoteAtPlace(s, i, env);
    var b, x := s.threads[i].kind.boot, s.threads[i].kind.session;
    var sh := s.sh.(boots := s.sh.boots - {b}, lock := Some(i));
    var th := s.threads[i].(pc := Place, cand := Some(s.sh.boots[b]));
    PlaceStep(sh, i, th, env(4));
    var th5 := th.(pc := PlaceGiveUp, proof := Some(s.sh.servers[x]));
    Move(s, i, env, 4, sh, th, sh, th5);
    GiveUpStep(sh, i, th5, env(5));
    var sh6, th6 := sh.(stopped := sh.stopped + {s.sh.boots[b]}), th5.(pc := PlaceUnlock, cand := None);
    Move(s, i, env, 5, sh, th5, sh6, th6);
    QuietStep(sh6, i, th6, env(6));
    Move(s, i, env, 6, sh6, th6, sh6.(lock := None), th6.(pc := Done));
  }

  lemma PromoteClears(s: State, i: nat, env: Answers)
    requires AtStart(s, i) && s.threads[i].kind.Promote? && Accepts(s.sh)
    requires env(4).answer.Dead? && forall j: nat :: j < 6 && j != 4 ==> env(j).answer.Fine?
    requires s.threads[i].kind.boot in s.sh.boots && s.threads[i].kind.session in s.sh.servers
    ensures var b, x := s.threads[i].kind.boot, s.threads[i].kind.session;
            At(s, i, env, 7,
               s.sh.(boots := s.sh.boots - {b}, lock := Some(i), servers := s.sh.servers - {x},
                     stopped := s.sh.stopped + {s.sh.servers[x]}),
               s.threads[i].(pc := Place, cand := Some(s.sh.boots[b]), proof := Some(s.sh.servers[x])))
  {
    hide At, Moves;
    PromoteAtPlace(s, i, env);
    var b, x := s.threads[i].kind.boot, s.threads[i].kind.session;
    var sh := s.sh.(boots := s.sh.boots - {b}, lock := Some(i));
    var th := s.threads[i].(pc := Place, cand := Some(s.sh.boots[b]));
    PlaceFindsDead(sh, i, th, env(4));
    var th5 := th.(pc := PlaceRemove, proof := Some(sh.servers[x]));
    Move(s, i, env, 4, sh, th, sh, th5);
    RemoveDeadStep(sh, i, th5, env(5));
    var sh6, th6 := sh.(servers := sh.servers - {x}), th5.(pc := PlaceStop, victims := {sh.servers[x]});
    Move(s, i, env, 5, sh, th5, sh6, th6);
    VictimsStep(sh6, i, th6, env(6));
    var sh7, th7 := sh6.(stopped := sh6.stopped + {sh.servers[x]}), th6.(pc := Place, victims := {});
    Move(s, i, env, 6, sh6, th6, sh7, th7);
  }

  /** If that process is found exited, it is stopped and replaced after all. */
  lemma PromoteReplaces(s: State, i: nat, env: Answers)
    requires AtStart(s, i) && s.threads[i].kind.Promote? && Accepts(s.sh)
    requires env(4).answer.Dead? && forall j: nat :: j < 6 && j != 4 ==> env(j).answer.Fine?
    requires s.threads[i].kind.boot in s.sh.boots && s.threads[i].kind.session in s.sh.servers
    ensures var b, x := s.threads[i].kind.boot, s.threads[i].kind.session;
            At(s, i, env, 9,
               s.sh.(boots := s.sh.boots - {b}, servers := s.sh.servers[x := s.sh.boots[b]],
                     stopped := s.sh.stopped + {s.sh.servers[x]}),
               s.threads[i].(pc := Done, proof := Some(s.sh.servers[x])))
  {
    hide At, Moves;
    PromoteClears(s, i, env);
    var b, x := s.threads[i].kind.boot, s.threads[i].kind.session;
    var p, dead := s.sh.boots[b], s.sh.servers[x];
    var sh := s.sh.(boots := s.sh.boots - {b}, lock := Some(i), servers := s.sh.servers - {x},
                    stopped := s.sh.stopped + {dead});
    var th := s.threads[i].(pc := Place, cand := Some(p), proof := Some(dead));
    PlaceStep(sh, i, th, env(7));
    assert (s.sh.servers - {x})[x := p] == s.sh.servers[x := p];
    var sh8, th8 := sh.(servers := s.sh.servers[x := p]), th.(pc := PlaceUnlock, cand := None);
    Move(s, i, env, 7, sh, th, sh8, th8);
    QuietStep(sh8, i, th8, env(8));
    Move(s, i, env, 8, sh8, th8, sh8.(lock := None), th8.(pc := Done));
  }

  // ---------------------------------------------------------------- stops

  lemma StopRemoved(s: State, i: nat, env: Answers, sh: Shared, victims: set<Proc>)
    requires AtStart(s, i) && Moves(s.sh, i, s.threads[i].(pc := Remove), env(1), sh,
                                    s.threads[i].(pc := Stop, victims := victims))
    requires PcAfter(s.sh, s.threads[i], env(0)).Remove? && sh.lock.None?
    ensures At(s, i, env, 3, sh.(stopped := sh.stopped + victims), s.threads[i].(pc := Done))
  {
    hide At, Moves;
    var th, th2 := s.threads[i].(pc := Remove), s.threads[i].(pc := Stop, victims := victims);
    Starting(s, i, env);
    Move(s, i, env, 1, s.sh, th, sh, th2);
    VictimsStep(sh, i, th2, env(2));
    Move(s, i, env, 2, sh, th2, sh.(stopped := sh.stopped + victims), th2.(pc := Done, victims := {}));
  }

  /** A stop request takes the session out and stops its process. */
  lemma StopServerStops(s: State, i: nat, env: Answers)
    requires AtStart(s, i) && s.threads[i].kind.StopServer? && AllFine(env, 3)
    requires s.threads[i].kind.session in s.sh.servers
    ensures var x := s.threads[i].kind.session;
            At(s, i, env, 3, s.sh.(servers := s.sh.servers - {x}, stopped := s.sh.stopped + {s.sh.servers[x]}),
               s.threads[i].(pc := Done))
  {
    hide At, Moves;
    var x := s.threads[i].kind.session;
    RemoveServerStep(s.sh, i, s.threads[i].(pc := Remove), env(1));
    StopRemoved(s, i, env, s.sh.(servers := s.sh.servers - {x}), {s.sh.servers[x]});
  }

  /** The stop of all servers leaves none, and stops every process that was registered. */
  lemma StopAllServersStops(s: State, i: nat, env: Answers)
    requires AtStart(s, i) && s.threads[i].kind.StopAllServers?
    ensures At(s, i, env, 3, s.sh.(servers := map[], stopped := s.sh.stopped + s.sh.servers.Values),
               s.threads[i].(pc := Done))
  {
    hide At, Moves;
    RemoveAllServersStep(s.sh, i, s.threads[i].(pc := Remove), env(1));
    StopRemoved(s, i, env, s.sh.(servers := map[]), s.sh.servers.Values);
  }

  /** An abort takes the bootstrap out and stops its process. */
  lemma AbortStops(s: State, i: nat, env: Answers)
    requires AtStart(s, i) && s.threads[i].kind.Abort? && AllFine(env, 3) && s.threads[i].kind.boot in s.sh.boots
    ensures var b := s.threads[i].kind.boot;
            At(s, i, env, 3, s.sh.(boots := s.sh.boots - {b}, stopped := s.sh.stopped + {s.sh.boots[b]}),
               s.threads[i].(pc := Done))
  {
    hide At, Moves;
    var b := s.threads[i].kind.boot;
    RemoveBootStep(s.sh, i, s.threads[i].(pc := Remove), env(1));
    StopRemoved(s, i, env, s.sh.(boots := s.sh.boots - {b}), {s.sh.boots[b]});
  }

  /** The reaper of bootstraps takes out the expired ones and stops their processes. */
  lemma StopBootsStops(s: State, i: nat, env: Answers)
    requires AtStart(s, i) && s.threads[i].kind.StopBoots?
    ensures At(s, i, env, 3,
               s.sh.(boots := s.sh.boots - env(1).expired,
                     stopped := s.sh.stopped + set b | b in env(1).expired && b in s.sh.boots :: s.sh.boots[b]),
               s.threads[i].(pc := Done))
  {
    hide At, Moves;
    RemoveBootsStep(s.sh, i, s.threads[i].(pc := Remove), env(1));
    StopRemoved(s, i, env, s.sh.(boots := s.sh.boots - env(1).expired),
                set b | b in env(1).expired && b in s.sh.boots :: s.sh.boots[b]);
  }

  // ---------------------------------------------------------------- tasks and the quiesce flag

  /** A task that is run on a daemon that accepts work is registered; on one that does not, nothing changes. */
  lemma TaskEnters(s: State, i: nat, env: Answers)
    requires AtStart(s, i) && s.threads[i].kind.RunTask? && AllFine(env, 3)
    ensures At(s, i, env, 3,
               if Accepts(s.sh) then s.sh.(tasks := s.sh.tasks + {s.threads[i].kind.task}) else s.sh,
               s.threads[i].(pc := Done))
  {
    hide At, Moves;
    var sh, th := s.sh.(lock := Some(i)), s.threads[i].(pc := TaskInsert);
    Locked(s, i, env, TaskLock);
    TaskStep(sh, i, th, env(2));
    Move(s, i, env, 2, sh, th,
         if Accepts(s.sh) then s.sh.(tasks := s.sh.tasks + {th.kind.task}) else s.sh, th.(pc := Done));
  }

  /** A quiesce sets the flag exactly if there is no bootstrap; otherwise it leaves it as it was. */
  lemma QuiesceSetsTheFlag(s: State, i: nat, env: Answers)
    requires AtStart(s, i) && s.threads[i].kind.Quiesce? && AllFine(env, 5) && !s.sh.stopping
    ensures At(s, i, env, 5, s.sh.(quiescing := s.sh.quiescing || s.sh.boots == map[]),
               s.threads[i].(pc := Done, was := s.sh.quiescing))
  {
    hide At, Moves;
    var sh, th := s.sh.(lock := Some(i)), s.threads[i].(pc := SetFlag);
    Locked(s, i, env, FlagLock);
    FlagSteps(sh, i, th, env(2));
    var sh3, th3 := sh.(quiescing := true), th.(pc := CheckBoots, was := s.sh.quiescing);
    Move(s, i, env, 2, sh, th, sh3, th3);
    QuietStep(sh3, i, th3, env(3));
    var th4 := th3.(pc := if s.sh.boots == map[] then Export else Restore);
    Move(s, i, env, 3, sh3, th3, sh3, th4);
    if s.sh.boots == map[] {
      QuietStep(sh3, i, th4, env(4));
      Move(s, i, env, 4, sh3, th4, sh3.(lock := None), th4.(pc := Done));
    } else {
      FlagSteps(sh3, i, th4, env(4));
      Move(s, i, env, 4, sh3, th4, sh3.(quiescing := s.sh.quiescing, lock := None), th4.(pc := Done));
    }
  }

  /** A quiesce whose export fails leaves it as it was. */
  lemma FailedExportLeavesTheFlag(s: State, i: nat, env: Answers)
    requires AtStart(s, i) && s.threads[i].kind.Quiesce? && AllFine(env, 4) && !env(4).answer.Fine? && !s.sh.stopping
    requires s.sh.boots == map[]
    ensures At(s, i, env, 6, s.sh, s.threads[i].(pc := Done, was := s.sh.quiescing))
  {
    hide At, Moves;
    var sh, th := s.sh.(lock := Some(i)), s.threads[i].(pc := SetFlag);
    Locked(s, i, env, FlagLock);
    FlagSteps(sh, i, th, env(2));
    var sh3, th3 := sh.(quiescing := true), th.(pc := CheckBoots, was := s.sh.quiescing);
    Move(s, i, env, 2, sh, th, sh3, th3);
    QuietStep(sh3, i, th3, env(3));
    Move(s, i, env, 3, sh3, th3, sh3, th3.(pc := Export));
    QuietStep(sh3, i, th3.(pc := Export), env(4));
    Move(s, i, env, 4, sh3, th3.(pc := Export), sh3, th3.(pc := Restore));
    FlagSteps(sh3, i, th3.(pc := Restore), env(5));
    Move(s, i, env, 5, sh3, th3.(pc := Restore), s.sh, th3.(pc := Done));
  }

  /** An unquiesce clears it. */
  lemma UnquiesceClearsTheFlag(s: State, i: nat, env: Answers)
    requires AtStart(s, i) && s.threads[i].kind.Unquiesce? && AllFine(env, 3) && !s.sh.stopping
    ensures At(s, i, env, 3, s.sh.(quiescing := false), s.threads[i].(pc := Done))
  {
    hide At, Moves;
    var sh, th := s.sh.(lock := Some(i)), s.threads[i].(pc := Clear);
    Locked(s, i, env, ClearLock);
    FlagSteps(sh, i, th, env(2));
    Move(s, i, env, 2, sh, th, s.sh.(quiescing := false), th.(pc := Done));
  }

  // ---------------------------------------------------------------- an ensure among others

  /** The steps of handler `i` find the daemon accepting work and are answered: nothing is refused, no spawn fails. */
  predicate Served(s: State, i: nat, ev: Event) {
    ev.Step? && ev.i == i && i < |s.threads| ==>
      Accepts(s.sh) && !ev.n.answer.Refused? && (s.threads[i].pc.Spawn? ==> ev.n.answer.Fine?)
  }

  ghost predicate ServedThroughout(s: State, i: nat, evs: seq<Event>) {
    forall k {:trigger evs[k]} :: 0 <= k < |evs| ==> Served(Run(s, evs[..k]), i, evs[k])
  }

  predicate Over(pc: Pc) { pc.GiveUp? || pc.Done? }

  predicate Listed(s: State, x: string) { x in s.sh.servers }

  /** Handler `i` is an ensure of that session, at a step of an ensure. */
  predicate Ensures(s: State, i: nat, x: string) {
    && i < |s.threads| && s.threads[i].kind == Ensure(x)
    && var pc := s.threads[i].pc;
       || pc.Begin? || pc.FirstLock? || pc.First? || pc.FirstRemove? || pc.FirstStop? || pc.Spawn? || pc.SecondLock?
       || pc.Second? || pc.SecondRemove? || pc.SecondStop? || Over(pc)
  }

  lemma StillEnsures(s: State, i: nat, x: string, ev: Event)
    requires Ensures(s, i, x)
    ensures Ensures(Next(s, ev), i, x)
  {
  }

  lemma OverWhenListed(s: State, i: nat, x: string, ev: Event)
    requires Inv(s) && Ensures(s, i, x) && Served(s, i, ev)
    requires !Over(s.threads[i].pc) && StillOver(Next(s, ev), i)
    ensures Listed(s, x) || Listed(Next(s, ev), x)
  {
    assert ThreadOk(s.sh, i, s.threads[i]);
  }

  predicate StillOver(s: State, i: nat) { i < |s.threads| && Over(s.threads[i].pc) }

  /** Whoever steps in between, and whatever they do to the session: once an ensure whose steps are all served is over,
      its session has been registered at some moment of the run. */
  lemma {:induction false} ServedEnsureRegisters(s: State, i: nat, x: string, evs: seq<Event>)
    requires Inv(s) && Ensures(s, i, x) && s.threads[i].pc.Begin? && ServedThroughout(s, i, evs)
    ensures Ensures(Run(s, evs), i, x)
    ensures Over(Run(s, evs).threads[i].pc) ==> exists k :: 0 <= k <= |evs| && Listed(Run(s, evs[..k]), x)
  {
    assert evs[..|evs|] == evs;
    if evs != [] {
      hide Inv, Next, Listed, Served, Over;
      var n := |evs| - 1;
      var before := evs[..n];
      forall k {:trigger before[k]} | 0 <= k < n ensures Served(Run(s, before[..k]), i, before[k]) {
        assert before[..k] == evs[..k] && before[k] == evs[k];
      }
      ServedEnsureRegisters(s, i, x, before);
      StillEnsures(Run(s, before), i, x, evs[n]);
      RunKeepsInv(s, before);
      if Over(Run(s, before).threads[i].pc) {
        var k :| 0 <= k <= n && Listed(Run(s, before[..k]), x);
        assert before[..k] == evs[..k];
      } else if Over(Run(s, evs).threads[i].pc) {
        assert Served(Run(s, before), i, evs[n]);
        OverWhenListed(Run(s, before), i, x, evs[n]);
        assert Listed(Run(s, evs[..n]), x) || Listed(Run(s, evs[..|evs|]), x);
      }
    }
  }
}
