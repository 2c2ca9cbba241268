/** When the worker and the cancels of a task can all come to an end, and when the worker is left waiting. */
module ExecGateProgress {
  import opened ExecGate

  predicate Done(s: State) {
    s.sh.worker.Ended? && forall c :: c in s.cancellers ==> c.pc.Left?
  }

  /** The worker meets no failing spawn or store; cancels may meet anything. */
  predicate Faultless(ev: Event) { ev.WorkerStep? ==> ev.ok }

  predicate AllFaultless(evs: seq<Event>) { forall ev :: ev in evs ==> Faultless(ev) }

  /** The worker has not yet found the way clear under the decision lock. */
  predicate BeforeClear(w: WorkerPc) {
    || w.WantGate? || w.CheckCancelled? || w.Spawn? || w.Record? || w.MarkStarted? || w.DropGate? || w.LoadIntents?
    || w.LoadBlocked? || w.LoadRequestedInLoop? || w.LoadRequested? || w.LockDecision? || w.RecheckIntents?
    || w.RecheckBlocked?
  }

  /** A cancel that will not store the request flag any more. */
  predicate Silent(c: Canceller) {
    c.pc.Left? || (c.pc.Leave? && c.kind.Client?)
  }

  /** The exec gate is blocked, nobody asked for the cancel, and nobody is left who will. */
  predicate Doomed(s: State) {
    && s.sh.blocked && !s.sh.requested && BeforeClear(s.sh.worker)
    && forall c :: c in s.cancellers ==> Silent(c)
  }

  // ---------------------------------------------------------------- a doomed state stays doomed

  lemma DoomedWorkerStep(s: Shared)
    requires WorkerFacts(s) && s.blocked && !s.requested && BeforeClear(s.worker)
    ensures var t := WorkerNext(s, true); t.blocked && !t.requested && BeforeClear(t.worker)
  {
  }

  lemma SilentStep(s: Shared, i: nat, c: Canceller, ok: bool, force: bool)
    requires Silent(c)
    ensures var l := CancelNext(s, i, c, ok, force);
            Silent(l.c) && l.sh.blocked == s.blocked && l.sh.requested == s.requested && l.sh.worker == s.worker
  {
  }

  lemma DoomedStaysDoomed(s: State, ev: Event)
    requires Inv(s) && Doomed(s) && Faultless(ev)
    ensures Doomed(Next(s, ev))
  {
    match ev {
      case WorkerStep(ok) => DoomedWorkerStep(s.sh);
      case CancelStep(i, ok, force) =>
        if i < |s.cancellers| { SilentStep(s.sh, i, s.cancellers[i], ok, force); }
    }
  }

  lemma {:induction false} DoomedNeverDone(s: State, evs: seq<Event>)
    requires Inv(s) && Doomed(s) && AllFaultless(evs)
    ensures Doomed(Run(s, evs)) && !Done(Run(s, evs))
  {
    if evs != [] {
      var n := |evs| - 1;
      assert evs == evs[..n] + [evs[n]];
      DoomedNeverDone(s, evs[..n]);
      EveryRunKeepsInv(s, evs[..n]);
      DoomedStaysDoomed(Run(s, evs[..n]), evs[n]);
    }
  }

  // ---------------------------------------------------------------- every other state can finish

  function CancelRank(c: Canceller, completing: bool): nat {
    match c.pc
    case ShutdownCheck(last) => if completing || last.Cancelled? then 1 else 30
    case WantDecision => 24
    case Count => 23
    case Unlock => 22
    case ReadProcess => 21
    case ShutdownRecheck => if completing then 4 else 21
    case WantSpawnGate => 20
    case CheckExit => 20
    case ShutdownBlock => 20
    case ShutdownPersist => 19
    case Persist(_) => 18
    case Block(_) => 17
    case Request(_) => 16
    case Signal(_) => 15
    case DropSpawnGate => 14
    case Leave(v) => if c.kind.Client? || completing || v.Cancelled? then 2 else 31
    case Left(_) => 0
  }

  function WorkerRank(w: WorkerPc, raised: bool): nat {
    match w
    case WantGate => 41
    case CheckCancelled => 40
    case Spawn => 39
    case Record => 38
    case MarkStarted => 37
    case DropGate => 36
    case LoadIntents => if raised then 31 else 29
    case LoadBlocked => if raised then 30 else 28
    case LoadRequestedInLoop => if raised then 29 else 30
    case LoadRequested => if raised then 35 else 27
    case LockDecision => if raised then 34 else 26
    case RecheckIntents => if raised then 33 else 25
    case RecheckBlocked => if raised then 32 else 24
    case RecheckRequested => 23
    case FinalCheck => 22
    case WriteGo => 21
    case UnlockAfterGo => 20
    case UnlockCancelled => 12
    case TerminateHeld => 11
    case TerminateGated => 6
    case UnlockEnd => 5
    case DropGateEnd => 4
    case Terminate => 3
    case Supervise => 2
    case Ended => 0
  }

  function CancelRanks(cs: seq<Canceller>, completing: bool): nat {
    if cs == [] then 0 else CancelRanks(cs[..|cs| - 1], completing) + CancelRank(cs[|cs| - 1], completing)
  }

  function Rank(s: State): nat {
    50 * CancelRanks(s.cancellers, s.sh.process.Completing?) + WorkerRank(s.sh.worker, s.sh.blocked || s.sh.requested)
  }

  lemma {:induction false} RanksUpdate(cs: seq<Canceller>, i: nat, c: Canceller, completing: bool)
    requires i < |cs|
    ensures CancelRanks(cs[i := c], completing) + CancelRank(cs[i], completing)
         == CancelRanks(cs, completing) + CancelRank(c, completing)
  {
    var n := |cs| - 1;
    if i == n {
      assert cs[i := c][..n] == cs[..n];
    } else {
      assert cs[i := c][..n] == cs[..n][i := c];
      RanksUpdate(cs[..n], i, c, completing);
    }
  }

  lemma {:induction false} RanksFall(cs: seq<Canceller>)
    ensures CancelRanks(cs, true) <= CancelRanks(cs, false)
  {
    if cs != [] { RanksFall(cs[..|cs| - 1]); }
  }

  predicate Waits(s: Shared, c: Canceller) {
    (c.pc.WantDecision? && !s.decision.Free?) || (c.pc.WantSpawnGate? && !s.gate.Free?)
  }

  /** The favourable step of a cancel: the store answers, and the shutdown loop ends once it may. */
  function Favour(c: Canceller): bool { c.pc == ShutdownCheck(Cancelled) }

  lemma CancelStepFalls(s: Shared, i: nat, c: Canceller)
    requires !c.pc.Left? && !Waits(s, c)
    ensures CancelRank(CancelNext(s, i, c, true, Favour(c)).c, s.process.Completing?)
            < CancelRank(c, s.process.Completing?)
    ensures CancelNext(s, i, c, true, Favour(c)).sh.process == s.process
    ensures CancelNext(s, i, c, true, Favour(c)).sh.worker == s.worker
  {
  }

  lemma FavourableStepIsNotTheLast(s: Shared, i: nat, c: Canceller)
    requires WorkerFacts(s) && CancellerOk(s, i, c) && BeforeClear(s.worker) && !Silent(c)
    requires Silent(CancelNext(s, i, c, true, Favour(c)).c)
    ensures s.requested && CancelNext(s, i, c, true, Favour(c)).sh.requested
  {
  }

  lemma CancelProgress(s: State, i: nat)
    requires Inv(s) && !Doomed(s) && i < |s.cancellers| && !s.cancellers[i].pc.Left? && !Waits(s.sh, s.cancellers[i])
    ensures var t := Next(s, CancelStep(i, true, Favour(s.cancellers[i]))); Rank(t) < Rank(s) && !Doomed(t)
  {
    var c := s.cancellers[i];
    var l := CancelNext(s.sh, i, c, true, Favour(c));
    var t := Next(s, CancelStep(i, true, Favour(c)));
    CancelStepFalls(s.sh, i, c);
    RanksUpdate(s.cancellers, i, l.c, s.sh.process.Completing?);
    if Doomed(t) {
      assert t.cancellers[i] in t.cancellers;
      if Silent(c) {
        SilentStep(s.sh, i, c, true, Favour(c));
        forall d | d in s.cancellers ensures Silent(d) {
          var j :| 0 <= j < |s.cancellers| && s.cancellers[j] == d;
          assert j == i || t.cancellers[j] == d;
        }
      } else {
        FavourableStepIsNotTheLast(s.sh, i, c);
      }
    }
  }

  lemma WorkerRankFalls(s: Shared)
    requires SharedOk(s) && !s.worker.Ended?
    requires s.worker.WantGate? ==> s.gate.Free?
    requires s.worker.LockDecision? ==> s.decision.Free?
    requires s.worker.LoadIntents? || s.worker.RecheckIntents? ==> s.intents == 0
    requires s.worker.LoadRequestedInLoop? ==> s.requested || !s.blocked
    ensures WorkerRank(WorkerAfter(s, true), s.blocked || s.requested) < WorkerRank(s.worker, s.blocked || s.requested)
    ensures BeforeClear(WorkerAfter(s, true)) ==> BeforeClear(s.worker)
  {
  }

  lemma WorkerKeepsFlags(s: Shared)
    ensures var t := WorkerNext(s, true);
            t.blocked == s.blocked && t.requested == s.requested
            && (s.process.Completing? ==> t.process.Completing? || s.worker.Record?)
  {
  }

  lemma WorkerStepFalls(s: Shared)
    requires SharedOk(s) && !s.worker.Ended?
    requires s.worker.WantGate? ==> s.gate.Free?
    requires s.worker.LockDecision? ==> s.decision.Free?
    requires s.worker.LoadIntents? || s.worker.RecheckIntents? ==> s.intents == 0
    requires s.worker.LoadRequestedInLoop? ==> s.requested || !s.blocked
    ensures var t := WorkerNext(s, true);
            && WorkerRank(t.worker, t.blocked || t.requested) < WorkerRank(s.worker, s.blocked || s.requested)
            && (BeforeClear(t.worker) ==> BeforeClear(s.worker))
            && t.blocked == s.blocked && t.requested == s.requested
            && (t.process.Completing? || !s.process.Completing?)
  {
    WorkerRankFalls(s);
    WorkerKeepsFlags(s);
  }

  lemma LockHoldersDoNotWait(s: State)
    requires Inv(s)
    ensures s.sh.decision.ByCanceller? ==>
              exists i :: 0 <= i < |s.cancellers| && !s.cancellers[i].pc.Left? && !Waits(s.sh, s.cancellers[i])
    ensures s.sh.gate.ByCanceller? ==>
              exists i :: 0 <= i < |s.cancellers| && !s.cancellers[i].pc.Left? && !Waits(s.sh, s.cancellers[i])
  {
    if s.sh.decision.ByCanceller? { assert CancellerLocks(s.sh, s.sh.decision.i, s.cancellers[s.sh.decision.i]); }
    if s.sh.gate.ByCanceller? { assert CancellerLocks(s.sh, s.sh.gate.i, s.cancellers[s.sh.gate.i]); }
  }

  /** If every cancel has left or waits for a lock, the worker is the one to move, and its step is no detour. */
  lemma OnlyTheWorkerCanMove(s: State)
    requires Inv(s) && !Done(s) && !Doomed(s)
    requires forall i :: 0 <= i < |s.cancellers| ==> s.cancellers[i].pc.Left? || Waits(s.sh, s.cancellers[i])
    ensures !s.sh.worker.Ended?
    ensures s.sh.worker.WantGate? ==> s.sh.gate.Free?
    ensures s.sh.worker.LockDecision? ==> s.sh.decision.Free?
    ensures s.sh.worker.LoadIntents? || s.sh.worker.RecheckIntents? ==> s.sh.intents == 0
    ensures s.sh.worker.LoadRequestedInLoop? ==> s.sh.requested || !s.sh.blocked
  {
    LockHoldersDoNotWait(s);
    assert !s.sh.decision.ByCanceller? && !s.sh.gate.ByCanceller?;
    if s.sh.intents > 0 {
      IntentsZero(s.cancellers);
      var c :| c in s.cancellers && InFlight(c.pc);
      assert HoldsGate(s.sh.worker);
    }
    if !HoldsGate(s.sh.worker) && !HoldsDecision(s.sh.worker) {
      forall c | c in s.cancellers ensures c.pc.Left? {
        var i :| 0 <= i < |s.cancellers| && s.cancellers[i] == c;
      }
    }
  }

  lemma WorkerProgress(s: State)
    requires Inv(s) && !Done(s) && !Doomed(s)
    requires forall i :: 0 <= i < |s.cancellers| ==> s.cancellers[i].pc.Left? || Waits(s.sh, s.cancellers[i])
    ensures Rank(Next(s, WorkerStep(true))) < Rank(s) && !Doomed(Next(s, WorkerStep(true)))
  {
    OnlyTheWorkerCanMove(s);
    WorkerStepFalls(s.sh);
    RanksFall(s.cancellers);
  }

  lemma Progress(s: State) returns (ev: Event)
    requires Inv(s) && !Done(s) && !Doomed(s)
    ensures Faultless(ev) && Rank(Next(s, ev)) < Rank(s) && !Doomed(Next(s, ev)) && Inv(Next(s, ev))
  {
    if i :| 0 <= i < |s.cancellers| && !s.cancellers[i].pc.Left? && !Waits(s.sh, s.cancellers[i]) {
      ev := CancelStep(i, true, Favour(s.cancellers[i]));
      CancelProgress(s, i);
    } else {
      ev := WorkerStep(true);
      WorkerProgress(s);
    }
    NextKeepsInv(s, ev);
  }

  lemma {:induction false} CanFinish(s: State) returns (evs: seq<Event>)
    requires Inv(s) && !Doomed(s)
    ensures AllFaultless(evs) && Done(Run(s, evs))
    decreases Rank(s)
  {
    if Done(s) {
      evs := [];
    } else {
      var ev := Progress(s);
      var rest := CanFinish(Next(s, ev));
      evs := [ev] + rest;
      assert [ev][..0] == [];
      RunSplits(s, [ev], rest);
    }
  }

  // ---------------------------------------------------------------- theorems

  /** From a reachable state, everything can still come to an end without any fault of the worker, except from the
      doomed states, where the worker polls for ever. So no set of lock holders waits for one another. */
  lemma FinishesUnlessDoomed(s: State, evs: seq<Event>)
    requires Initial(s)
    ensures var r := Run(s, evs);
      (exists more :: AllFaultless(more) && Done(Run(r, more))) <==> !Doomed(r)
  {
    InitialInv(s);
    EveryRunKeepsInv(s, evs);
    var r := Run(s, evs);
    if Doomed(r) {
      forall more | AllFaultless(more) ensures !Done(Run(r, more)) { DoomedNeverDone(r, more); }
    } else {
      var more := CanFinish(r);
    }
  }

  lemma {:induction false} KindsStay(s: State, evs: seq<Event>)
    ensures |Run(s, evs).cancellers| == |s.cancellers|
    ensures forall i :: 0 <= i < |s.cancellers| ==> Run(s, evs).cancellers[i].kind == s.cancellers[i].kind
  {
    if evs != [] { KindsStay(s, evs[..|evs| - 1]); }
  }

  /** Cancel requests alone, in any number, never strand the worker. */
  lemma RequestsAloneNeverStrand(s: State, evs: seq<Event>)
    requires Initial(s) && forall c :: c in s.cancellers ==> c.kind.Client?
    ensures !Doomed(Run(s, evs))
  {
    InitialInv(s);
    EveryRunKeepsInv(s, evs);
    KindsStay(s, evs);
    var r := Run(s, evs);
    if r.sh.blocked && !r.sh.requested {
      var i :| 0 <= i < |r.cancellers| && Blocker(r.cancellers[i]);
      assert s.cancellers[i] in s.cancellers && r.cancellers[i] in r.cancellers;
    }
  }

  lemma Extend(s: State, evs: seq<Event>, ev: Event) returns (more: seq<Event>)
    ensures Run(s, more) == Next(Run(s, evs), ev)
  {
    more := evs + [ev];
    assert more[..|evs|] == evs;
  }

  lemma WorkerMoves(s: State, evs: seq<Event>, sh: Shared, next: Shared) returns (more: seq<Event>)
    requires Run(s, evs) == s.(sh := sh) && WorkerNext(sh, true) == next
    ensures Run(s, more) == s.(sh := next)
  {
    hide Run;
    more := Extend(s, evs, WorkerStep(true));
  }

  const AT_START: Shared := Shared(WantGate, Free, Free, 0, false, false, Pending, false)

  lemma WorkerSpawned(s: State) returns (evs: seq<Event>)
    requires s.sh == AT_START
    ensures Run(s, evs) == s.(sh := AT_START.(worker := Record, gate := ByWorker))
  {
    assert Run(s, []) == s;
    hide Run, Next;
    var sh := AT_START.(gate := ByWorker);
    evs := WorkerMoves(s, [], AT_START, sh.(worker := CheckCancelled));
    evs := WorkerMoves(s, evs, sh.(worker := CheckCancelled), sh.(worker := Spawn));
    evs := WorkerMoves(s, evs, sh.(worker := Spawn), sh.(worker := Record));
  }

  lemma WorkerWaiting(s: State) returns (evs: seq<Event>)
    requires s.sh == AT_START
    ensures Run(s, evs) == s.(sh := AT_START.(worker := LoadIntents, process := Running))
  {
    hide Run, Next;
    evs := WorkerSpawned(s);
    var sh := AT_START.(gate := ByWorker);
    evs := WorkerMoves(s, evs, sh.(worker := Record), sh.(worker := MarkStarted, process := Running));
    sh := sh.(process := Running);
    evs := WorkerMoves(s, evs, sh.(worker := MarkStarted), sh.(worker := DropGate));
    evs := WorkerMoves(s, evs, sh.(worker := DropGate), sh.(worker := LoadIntents, gate := Free));
  }

  function Stopping(sh: Shared, pc: CancelPc, early: bool): State {
    State(sh, [Canceller(Shutdown, pc, early)])
  }

  const WAITING: Shared := Shared(LoadIntents, Free, Free, 0, false, false, Running, false)

  lemma ShutdownCounted() returns (s: State, evs: seq<Event>)
    ensures Initial(s) && Run(s, evs) == Stopping(WAITING.(intents := 1), ShutdownRecheck, true)
  {
    hide Run;
    s := Stopping(Shared(WantGate, Free, Free, 0, false, false, Pending, false), ShutdownCheck(Inspected), false);
    evs := WorkerWaiting(s);
    evs := Extend(s, evs, CancelStep(0, true, false));
    evs := Extend(s, evs, CancelStep(0, true, false));
    assert Run(s, evs) == Stopping(WAITING.(decision := ByCanceller(0)), Count, false);
    evs := Extend(s, evs, CancelStep(0, true, false));
    evs := Extend(s, evs, CancelStep(0, true, false));
  }

  lemma ShutdownUnstored() returns (s: State, evs: seq<Event>)
    ensures Initial(s) && Run(s, evs) == Stopping(WAITING.(intents := 1, blocked := true), ShutdownPersist, true)
  {
    hide Run;
    s, evs := ShutdownCounted();
    evs := Extend(s, evs, CancelStep(0, true, false));
    evs := Extend(s, evs, CancelStep(0, true, false));
  }

  /** A shutdown pass that blocks the gate, cannot store the cancel and then finds the gated child gone leaves the
      worker polling for ever. */
  lemma AbandonedShutdownStrands() returns (s: State, evs: seq<Event>)
    ensures Initial(s) && Doomed(Run(s, evs))
  {
    hide Run;
    s, evs := ShutdownUnstored();
    evs := Extend(s, evs, CancelStep(0, false, false));
    evs := Extend(s, evs, CancelStep(0, true, false));
    assert Run(s, evs) == Stopping(WAITING.(blocked := true), ShutdownCheck(Retry), true);
    evs := Extend(s, evs, CancelStep(0, false, false));
  }
}
