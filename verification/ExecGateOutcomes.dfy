/** What the end of a worker or of a cancel says about the run before it. */
module ExecGateOutcomes {
  import opened ExecGate
  import opened ExecGateProgress

  // ---------------------------------------------------------------- the child

  /** The worker has created its child and has neither stopped it nor seen it through. */
  function ChildLeft(s: State, evs: seq<Event>): bool {
    if evs == [] then false
    else
      var n := |evs| - 1;
      match evs[n]
      case WorkerStep(ok) => ChildAfter(Run(s, evs[..n]).sh.worker, ok, ChildLeft(s, evs[..n]))
      case CancelStep(_, _, _) => ChildLeft(s, evs[..n])
  }

  function ChildAfter(w: WorkerPc, ok: bool, before: bool): bool {
    match w
    case Spawn => ok
    case TerminateHeld => false
    case TerminateGated => false
    case Terminate => false
    case Supervise => false
    case _ => before
  }

  predicate HasChild(w: WorkerPc) {
    && !w.WantGate? && !w.CheckCancelled? && !w.Spawn? && !w.UnlockEnd? && !w.DropGateEnd? && !w.Ended?
  }

  lemma WorkerKeepsHold(s: Shared, ok: bool)
    requires s.process.Running? ==> HasChild(s.worker)
    ensures HasChild(WorkerAfter(s, ok)) == ChildAfter(s.worker, ok, HasChild(s.worker))
    ensures WorkerEffect(s, ok).process.Running? ==> HasChild(WorkerAfter(s, ok))
  {
  }

  lemma CancelSparesWorker(s: Shared, i: nat, c: Canceller, ok: bool, force: bool)
    ensures var t := CancelNext(s, i, c, ok, force).sh; t.worker == s.worker && t.process == s.process && t.go == s.go
  {
  }

  /** From the creation of the child to its stop or its end, the worker is at a step that deals with it. */
  lemma {:induction false} ChildIsHeld(s: State, evs: seq<Event>)
    requires Initial(s)
    ensures var w := Run(s, evs).sh;
            (ChildLeft(s, evs) <==> HasChild(w.worker)) && (w.process.Running? ==> HasChild(w.worker))
  {
    if evs != [] {
      var n := |evs| - 1;
      ChildIsHeld(s, evs[..n]);
      var r := Run(s, evs[..n]);
      match evs[n] {
        case WorkerStep(ok) => WorkerKeepsHold(r.sh, ok);
        case CancelStep(i, ok, force) =>
          if i < |r.cancellers| { CancelSparesWorker(r.sh, i, r.cancellers[i], ok, force); }
      }
    }
  }

  /** A worker that has ended, however it came to that, has left no child behind. */
  lemma EndedLeavesNoChild(s: State, evs: seq<Event>)
    requires Initial(s) && Run(s, evs).sh.worker.Ended?
    ensures !ChildLeft(s, evs) && !Run(s, evs).sh.process.Running?
  {
    ChildIsHeld(s, evs);
  }

  // ---------------------------------------------------------------- the command

  /** The worker is on a way to its end on which the command does not run. */
  predicate Leaves(w: WorkerPc) {
    || w.UnlockCancelled? || w.TerminateHeld? || w.UnlockEnd? || w.TerminateGated? || w.DropGateEnd? || w.Terminate?
    || w.Ended?
  }

  lemma WorkerLeavesForAReason(s: Shared)
    requires Leaves(s.worker) ==> s.go || s.requested
    requires s.worker.UnlockAfterGo? || s.worker.Supervise? ==> s.go
    ensures var t := WorkerNext(s, true); Leaves(t.worker) ==> t.go || t.requested
  {
  }

  lemma RequestsStay(s: Shared, i: nat, c: Canceller, ok: bool, force: bool)
    requires s.requested
    ensures CancelNext(s, i, c, ok, force).sh.requested
  {
  }

  /** The worker has stored the start of the task, with its recorded child. */
  function StartStored(s: State, evs: seq<Event>): bool {
    if evs == [] then false
    else
      var n := |evs| - 1;
      StartStored(s, evs[..n])
      || (evs[n].WorkerStep? && evs[n].ok && Run(s, evs[..n]).sh.worker.MarkStarted?)
  }

  /** The worker is past the place where it stores the start. */
  predicate PastStart(w: WorkerPc) {
    || w.DropGate? || w.LoadIntents? || w.LoadBlocked? || w.LoadRequestedInLoop? || w.LoadRequested? || HoldsDecision(w)
    || w.LockDecision? || w.Terminate? || w.Supervise?
  }

  lemma OnlyTheStartLeadsPast(s: Shared, ok: bool)
    requires !PastStart(s.worker) && PastStart(WorkerAfter(s, ok))
    ensures s.worker.MarkStarted? && ok
  {
  }

  lemma GoComesPastStart(s: Shared, ok: bool)
    requires !s.go && WorkerEffect(s, ok).go
    ensures PastStart(s.worker)
  {
  }

  /** The command runs only once the store has the task as started. */
  lemma {:induction false} GoOnlyWhenStarted(s: State, evs: seq<Event>)
    requires Initial(s)
    ensures PastStart(Run(s, evs).sh.worker) || Run(s, evs).sh.go ==> StartStored(s, evs)
  {
    if evs != [] {
      var n := |evs| - 1;
      GoOnlyWhenStarted(s, evs[..n]);
      var r := Run(s, evs[..n]);
      match evs[n] {
        case WorkerStep(ok) =>
          if !PastStart(r.sh.worker) && PastStart(WorkerAfter(r.sh, ok)) { OnlyTheStartLeadsPast(r.sh, ok); }
          if !r.sh.go && WorkerEffect(r.sh, ok).go { GoComesPastStart(r.sh, ok); }
        case CancelStep(i, ok, force) =>
          if i < |r.cancellers| { CancelSparesWorker(r.sh, i, r.cancellers[i], ok, force); }
      }
    }
  }

  predicate LeavesForAReason(s: Shared) { Leaves(s.worker) ==> s.go || s.requested }

  lemma NextLeavesForAReason(s: State, ev: Event)
    requires Inv(s) && Faultless(ev) && LeavesForAReason(s.sh)
    ensures LeavesForAReason(Next(s, ev).sh)
  {
    match ev {
      case WorkerStep(ok) => WorkerLeavesForAReason(s.sh);
      case CancelStep(i, ok, force) =>
        if i < |s.cancellers| {
          CancelSparesWorker(s.sh, i, s.cancellers[i], ok, force);
          if s.sh.requested { RequestsStay(s.sh, i, s.cancellers[i], ok, force); }
        }
    }
  }

  lemma {:induction false} RunLeavesForAReason(s: State, evs: seq<Event>)
    requires Inv(s) && LeavesForAReason(s.sh) && AllFaultless(evs)
    ensures LeavesForAReason(Run(s, evs).sh)
  {
    if evs != [] {
      var n := |evs| - 1;
      assert evs == evs[..n] + [evs[n]];
      hide LeavesForAReason, Inv, Next;
      RunLeavesForAReason(s, evs[..n]);
      EveryRunKeepsInv(s, evs[..n]);
      NextLeavesForAReason(Run(s, evs[..n]), evs[n]);
    }
  }

  /** A worker whose own calls succeed, and that has ended, has run its command unless a cancel asked it not to. */
  lemma UncancelledTasksRun(s: State, evs: seq<Event>)
    requires Initial(s) && AllFaultless(evs) && Run(s, evs).sh.worker.Ended?
    ensures Run(s, evs).sh.go || Run(s, evs).sh.requested
  {
    InitialInv(s);
    RunLeavesForAReason(s, evs);
  }

  /** The request is stored, and the worker has not come to the creation of its child and will not any more. */
  predicate Unspawned(s: Shared) {
    s.requested && (s.worker.WantGate? || s.worker.CheckCancelled? || s.worker.DropGateEnd? || s.worker.Ended?)
  }

  lemma NextStaysUnspawned(s: State, ev: Event)
    requires Unspawned(s.sh)
    ensures Unspawned(Next(s, ev).sh)
  {
    if ev.CancelStep? && ev.i < |s.cancellers| {
      CancelSparesWorker(s.sh, ev.i, s.cancellers[ev.i], ev.ok, ev.force);
      RequestsStay(s.sh, ev.i, s.cancellers[ev.i], ev.ok, ev.force);
    }
  }

  lemma {:induction false} RunStaysUnspawned(s: State, evs: seq<Event>)
    requires Unspawned(s.sh)
    ensures Unspawned(Run(s, evs).sh)
  {
    if evs != [] {
      hide Unspawned, Next;
      RunStaysUnspawned(s, evs[..|evs| - 1]);
      NextStaysUnspawned(Run(s, evs[..|evs| - 1]), evs[|evs| - 1]);
    }
  }

  /** A task whose cancel is requested before its worker has looked never gets a child. */
  lemma CancelledTasksAreNotSpawned(s: State, evs: seq<Event>, more: seq<Event>)
    requires Initial(s)
    requires var w := Run(s, evs).sh; w.requested && (w.worker.WantGate? || w.worker.CheckCancelled?)
    ensures !ChildLeft(s, evs + more) && !Run(s, evs + more).sh.process.Running?
  {
    RunStaysUnspawned(Run(s, evs), more);
    RunSplits(s, evs, more);
    hide Run, ChildLeft;
    ChildIsHeld(s, evs + more);
  }

  // ---------------------------------------------------------------- a cancel

  /** What the latest cancel of one canceller did since it counted its intent: the store took the cancel, or a deadline
      made it go on without, and it came to signal. */
  datatype Trail = Trail(backed: bool, signalled: bool)

  function TrailOf(s: State, evs: seq<Event>, i: nat): Trail {
    if evs == [] then Trail(false, false)
    else
      var n := |evs| - 1;
      var r := Run(s, evs[..n]);
      var before := TrailOf(s, evs[..n], i);
      if evs[n].CancelStep? && evs[n].i == i && i < |r.cancellers|
      then TrailAfter(r.cancellers[i].pc, evs[n].ok, evs[n].force, before)
      else before
  }

  function TrailAfter(pc: CancelPc, ok: bool, force: bool, before: Trail): Trail {
    match pc
    case Count => Trail(false, false)
    case ShutdownPersist => before.(backed := ok || force)
    case Persist(_) => before.(backed := ok)
    case Signal(_) => before.(signalled := true)
    case _ => before
  }

  predicate TrailFits(pc: CancelPc, t: Trail) {
    && (pc.Block? || pc.Request? || HasRequested(pc) ==> t.backed)
    && (pc.DropSpawnGate? || pc == Leave(Cancelled) || pc == Left(Cancelled) || pc == ShutdownCheck(Cancelled) ==>
          t.signalled)
  }

  lemma TrailStep(s: Shared, c: Canceller, ok: bool, force: bool, t: Trail)
    requires TrailFits(c.pc, t)
    ensures TrailFits(PcAfter(s, c, ok, force), TrailAfter(c.pc, ok, force, t))
  {
  }

  lemma {:induction false} TrailsFit(s: State, evs: seq<Event>, i: nat)
    requires Initial(s) && i < |Run(s, evs).cancellers|
    ensures TrailFits(Run(s, evs).cancellers[i].pc, TrailOf(s, evs, i))
  {
    KindsStay(s, evs);
    if evs == [] {
      assert Fresh(s.cancellers[i]);
    } else {
      var n := |evs| - 1;
      KindsStay(s, evs[..n]);
      TrailsFit(s, evs[..n], i);
      var r := Run(s, evs[..n]);
      if evs[n].CancelStep? && evs[n].i == i {
        TrailStep(r.sh, r.cancellers[i], evs[n].ok, evs[n].force, TrailOf(s, evs[..n], i));
      }
    }
  }

  /** A cancel that has ended in success has its request stored, with both flags raised for the worker, and has
      signalled. */
  lemma SuccessfulCancelsAreBacked(s: State, evs: seq<Event>, i: nat)
    requires Initial(s) && i < |Run(s, evs).cancellers| && Run(s, evs).cancellers[i].pc == Left(Cancelled)
    ensures TrailOf(s, evs, i) == Trail(true, true)
    ensures Run(s, evs).sh.requested && Run(s, evs).sh.blocked
  {
    TrailsFit(s, evs, i);
    InitialInv(s);
    EveryRunKeepsInv(s, evs);
    assert CancellerFacts(Run(s, evs).sh, Run(s, evs).cancellers[i]);
  }

  /** A step of canceller `i` is answered as a cancel would have it: the store takes it, or a deadline has passed for a
      shutdown, and a running process is still there; of a pending one nothing is asked. */
  predicate Answered(s: State, ev: Event, i: nat) {
    ev.CancelStep? && ev.i == i && i < |s.cancellers| ==>
      var pc := s.cancellers[i].pc;
      || ev.ok || (pc.ShutdownPersist? && ev.force)
      || ((pc.ShutdownCheck? || pc.ShutdownRecheck?) && s.sh.process.Pending?)
  }

  ghost predicate AnsweredThroughout(s: State, evs: seq<Event>, i: nat) {
    forall k {:trigger evs[k]} :: 0 <= k < |evs| ==> Answered(Run(s, evs[..k]), evs[k], i)
  }

  /** A cancel that is over has succeeded, or the task was completing. */
  predicate SucceedsIfItMatters(s: Shared, pc: CancelPc) {
    (pc.Leave? || pc.Left?) && pc.verdict != Cancelled ==> s.process.Completing?
  }

  lemma AnsweredStep(s: Shared, i: nat, c: Canceller, ok: bool, force: bool)
    requires SucceedsIfItMatters(s, c.pc) && (c.kind.Client? ==> ClientPc(c.pc))
    requires || ok || (c.pc.ShutdownPersist? && force)
             || ((c.pc.ShutdownCheck? || c.pc.ShutdownRecheck?) && s.process.Pending?)
    ensures SucceedsIfItMatters(CancelNext(s, i, c, ok, force).sh, CancelNext(s, i, c, ok, force).c.pc)
  {
  }

  lemma CompletingStays(s: Shared, ok: bool)
    requires WorkerFacts(s) && s.process.Completing?
    ensures WorkerNext(s, ok).process.Completing?
  {
  }

  lemma AnsweredNext(s: State, ev: Event, i: nat)
    requires Inv(s) && i < |s.cancellers| && Answered(s, ev, i) && SucceedsIfItMatters(s.sh, s.cancellers[i].pc)
    ensures SucceedsIfItMatters(Next(s, ev).sh, Next(s, ev).cancellers[i].pc)
  {
    assert CancellerFacts(s.sh, s.cancellers[i]);
    match ev {
      case WorkerStep(ok) => if s.sh.process.Completing? { CompletingStays(s.sh, ok); }
      case CancelStep(j, ok, force) =>
        if j < |s.cancellers| {
          CancelSparesWorker(s.sh, j, s.cancellers[j], ok, force);
          if j == i { AnsweredStep(s.sh, i, s.cancellers[i], ok, force); }
        }
    }
  }

  /** A cancel all of whose calls are answered, and that has ended, has succeeded unless the task was already
      completing. */
  lemma {:induction false} AnsweredCancelsSucceed(s: State, evs: seq<Event>, i: nat)
    requires Initial(s) && i < |Run(s, evs).cancellers|
    requires AnsweredThroughout(s, evs, i)
    ensures SucceedsIfItMatters(Run(s, evs).sh, Run(s, evs).cancellers[i].pc)
  {
    KindsStay(s, evs);
    if evs == [] {
      assert Fresh(s.cancellers[i]);
    } else {
      var n := |evs| - 1;
      var before := evs[..n];
      forall k {:trigger before[k]} | 0 <= k < n ensures Answered(Run(s, before[..k]), before[k], i) {
        assert before[..k] == evs[..k] && before[k] == evs[k];
      }
      KindsStay(s, before);
      AnsweredCancelsSucceed(s, before, i);
      InitialInv(s);
      EveryRunKeepsInv(s, before);
      assert Answered(Run(s, before), evs[n], i);
      AnsweredNext(Run(s, before), evs[n], i);
    }
  }
}
