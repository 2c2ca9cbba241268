/** Cancelling a supervised task against releasing its exec gate, one step per lock, atomic or store operation.

    One worker, any number of cancel requests and of passes of the shutdown loop share two mutexes, an intent
    counter and two flags. A step may be taken by any thread at any time; a step that waits for a lock that is
    taken changes nothing. Store results and kernel answers come with the event. */
module ExecGate {

  datatype Holder = Free | ByWorker | ByCanceller(i: nat)

  datatype ProcessState = Pending | Running | Completing

  datatype WorkerPc =
    | WantGate            // lock the spawn gate
    | CheckCancelled      // load cancel_requested
    | Spawn               // create the gated child
    | Record              // record its identity, state becomes running
    | MarkStarted         // durable "started"
    | DropGate            // unlock the spawn gate
    | LoadIntents         // head of the acquire loop
    | LoadBlocked
    | LoadRequestedInLoop // body of the inner loop; then sleep
    | LoadRequested
    | LockDecision
    | RecheckIntents      // under the decision lock from here on
    | RecheckBlocked
    | RecheckRequested
    | FinalCheck
    | WriteGo
    | UnlockAfterGo
    | UnlockCancelled     // acquire returned nothing: the guard goes first
    | TerminateHeld       // stop the child with the decision lock still held
    | UnlockEnd
    | TerminateGated      // stop the child with the spawn gate still held
    | DropGateEnd
    | Terminate           // stop the child, no lock held
    | Supervise           // the command runs
    | Ended

  datatype Verdict = Cancelled | Inspected | Refused | Retry

  datatype CancelPc =
    | ShutdownCheck(last: Verdict)
    | WantDecision
    | Count
    | Unlock
    | ReadProcess
    | ShutdownRecheck
    | WantSpawnGate
    | CheckExit
    | ShutdownBlock
    | ShutdownPersist
    | Persist(gated: bool)     // the durable cancel, with or without the spawn gate held
    | Block(gated: bool)
    | Request(gated: bool)
    | Signal(gated: bool)
    | DropSpawnGate
    | Leave(verdict: Verdict)
    | Left(verdict: Verdict)

  datatype Kind = Client | Shutdown

  /** `early` records that the latest intent was counted before "go" was written. */
  datatype Canceller = Canceller(kind: Kind, pc: CancelPc, early: bool)

  datatype Shared = Shared(
    worker: WorkerPc,
    gate: Holder,
    decision: Holder,
    intents: nat,
    blocked: bool,
    requested: bool,
    process: ProcessState,
    go: bool)

  datatype State = State(sh: Shared, cancellers: seq<Canceller>)

  /** `ok` is the answer of the store or the kernel to the step, `force` whether a deadline passed. */
  datatype Event = WorkerStep(ok: bool) | CancelStep(i: nat, ok: bool, force: bool)

  // ---------------------------------------------------------------- steps

  /** The effect of the worker's step on everything but its own position. */
  function WorkerEffect(s: Shared, ok: bool): Shared {
    match s.worker
    case WantGate => if s.gate.Free? then s.(gate := ByWorker) else s
    case Record => if ok then s.(process := Running) else s
    case DropGate => s.(gate := Free)
    case LockDecision => if s.decision.Free? then s.(decision := ByWorker) else s
    case RecheckIntents => if s.intents > 0 then s.(decision := Free) else s
    case RecheckBlocked => if s.blocked then s.(decision := Free) else s
    case WriteGo => if ok then s.(go := true) else s
    case UnlockAfterGo => s.(decision := Free)
    case UnlockCancelled => s.(decision := Free)
    case TerminateHeld => s.(process := Completing)
    case UnlockEnd => s.(decision := Free)
    case TerminateGated => s.(process := Completing)
    case DropGateEnd => s.(gate := Free)
    case Terminate => s.(process := Completing)
    case Supervise => s.(process := Completing)
    case _ => s
  }

  /** Where the worker is afterwards. */
  function WorkerAfter(s: Shared, ok: bool): WorkerPc {
    match s.worker
    case WantGate => if s.gate.Free? then CheckCancelled else WantGate
    case CheckCancelled => if s.requested then DropGateEnd else Spawn
    case Spawn => if ok then Record else DropGateEnd
    case Record => if ok then MarkStarted else TerminateGated
    case MarkStarted => if ok then DropGate else TerminateGated
    case DropGate => LoadIntents
    case LoadIntents => if s.intents > 0 then LoadRequestedInLoop else LoadBlocked
    case LoadBlocked => if s.blocked then LoadRequestedInLoop else LoadRequested
    case LoadRequestedInLoop => if s.requested then Terminate else LoadIntents
    case LoadRequested => if s.requested then Terminate else LockDecision
    case LockDecision => if s.decision.Free? then RecheckIntents else LockDecision
    case RecheckIntents => if s.intents > 0 then LoadIntents else RecheckBlocked
    case RecheckBlocked => if s.blocked then LoadIntents else RecheckRequested
    case RecheckRequested => if s.requested then UnlockCancelled else FinalCheck
    case FinalCheck => if s.requested then TerminateHeld else WriteGo
    case WriteGo => if ok then UnlockAfterGo else TerminateHeld
    case UnlockAfterGo => Supervise
    case UnlockCancelled => Terminate
    case TerminateHeld => UnlockEnd
    case UnlockEnd => Ended
    case TerminateGated => DropGateEnd
    case DropGateEnd => Ended
    case Terminate => Ended
    case Supervise => Ended
    case Ended => Ended
  }

  function WorkerNext(s: Shared, ok: bool): Shared {
    WorkerEffect(s, ok).(worker := WorkerAfter(s, ok))
  }

  /** Whether the task still needs stopping: always while pending, never when completing, else as the kernel says. */
  function ShouldStop(s: Shared, ok: bool): bool {
    match s.process
    case Pending => true
    case Completing => false
    case Running => ok
  }

  /** The effect of canceller `i` on the shared part; a lock that is taken is waited for. */
  function Effect(s: Shared, i: nat, pc: CancelPc, ok: bool): Shared {
    match pc
    case WantDecision => if s.decision.Free? then s.(decision := ByCanceller(i)) else s
    case Count => s.(intents := s.intents + 1)
    case Unlock => s.(decision := Free)
    case WantSpawnGate => if s.gate.Free? then s.(gate := ByCanceller(i)) else s
    case ShutdownBlock => s.(blocked := true)
    case Persist(gated) => if gated && !ok then s.(gate := Free) else s
    case Block(_) => s.(blocked := true)
    case Request(_) => s.(requested := true)
    case DropSpawnGate => s.(gate := Free)
    case Leave(_) => s.(intents := if s.intents > 0 then s.intents - 1 else 0)
    case _ => s
  }

  /** Where the canceller is afterwards. */
  function PcAfter(s: Shared, c: Canceller, ok: bool, force: bool): CancelPc {
    match c.pc
    case ShutdownCheck(last) =>
      // The loop ends when nothing needs stopping, or at the kill deadline after a pass that left nothing unpersisted.
      if !ShouldStop(s, ok) || (force && last.Cancelled?) then Left(last) else WantDecision
    case WantDecision => if s.decision.Free? then Count else WantDecision
    case Count => Unlock
    case Unlock => if c.kind.Shutdown? then ShutdownRecheck else ReadProcess
    case ReadProcess =>
      if s.process.Pending? then WantSpawnGate else if s.process.Running? then CheckExit else Leave(Inspected)
    case ShutdownRecheck => if ShouldStop(s, ok) then ShutdownBlock else Leave(Inspected)
    case WantSpawnGate => if s.gate.Free? then Persist(true) else WantSpawnGate
    case CheckExit => if ok then Persist(false) else Leave(Inspected)
    case ShutdownBlock => ShutdownPersist
    case ShutdownPersist => if ok || force then Block(false) else Leave(Retry)
    case Persist(gated) => if ok then Block(gated) else Leave(Refused)
    case Block(gated) => Request(gated)
    case Request(gated) => Signal(gated)
    case Signal(gated) => if gated then DropSpawnGate else Leave(Cancelled)
    case DropSpawnGate => Leave(Cancelled)
    case Leave(v) => if c.kind.Shutdown? then ShutdownCheck(v) else Left(v)
    case Left(v) => Left(v)
  }

  datatype Local = Local(sh: Shared, c: Canceller)

  /** The step of canceller `i`, on the shared part and its own. */
  function CancelNext(s: Shared, i: nat, c: Canceller, ok: bool, force: bool): Local {
    Local(Effect(s, i, c.pc, ok),
          Canceller(c.kind, PcAfter(s, c, ok, force), if c.pc.Count? then !s.go else c.early))
  }

  function Next(s: State, ev: Event): State {
    match ev
    case WorkerStep(ok) => s.(sh := WorkerNext(s.sh, ok))
    case CancelStep(i, ok, force) =>
      if i < |s.cancellers| then
        var l := CancelNext(s.sh, i, s.cancellers[i], ok, force);
        State(l.sh, s.cancellers[i := l.c])
      else s
  }

  function Run(s: State, evs: seq<Event>): State {
    if evs == [] then s else Next(Run(s, evs[..|evs| - 1]), evs[|evs| - 1])
  }

  predicate Fresh(c: Canceller) {
    c.pc == (if c.kind.Shutdown? then ShutdownCheck(Inspected) else WantDecision) && !c.early
  }

  predicate Initial(s: State) {
    && s.sh == Shared(WantGate, Free, Free, 0, false, false, Pending, false)
    && forall c :: c in s.cancellers ==> Fresh(c)
  }

  // ---------------------------------------------------------------- the invariant

  predicate HoldsDecision(w: WorkerPc) {
    || w.RecheckIntents? || w.RecheckBlocked? || w.RecheckRequested? || w.FinalCheck? || w.WriteGo? || w.UnlockAfterGo?
    || w.UnlockCancelled? || w.TerminateHeld? || w.UnlockEnd?
  }

  predicate HoldsGate(w: WorkerPc) {
    || w.CheckCancelled? || w.Spawn? || w.Record? || w.MarkStarted? || w.DropGate? || w.TerminateGated?
    || w.DropGateEnd?
  }

  predicate CountsNow(pc: CancelPc) { pc.Count? || pc.Unlock? }

  predicate GateNow(pc: CancelPc) {
    ((pc.Persist? || pc.Block? || pc.Request? || pc.Signal?) && pc.gated) || pc.DropSpawnGate?
  }

  /** Between counting the intent and taking it back. */
  predicate InFlight(pc: CancelPc) {
    !pc.ShutdownCheck? && !pc.WantDecision? && !pc.Count? && !pc.Left?
  }

  /** The request flag has been stored by this cancel. */
  predicate HasRequested(pc: CancelPc) {
    || pc.Signal? || pc.DropSpawnGate?
    || pc == Leave(Cancelled) || pc == Left(Cancelled) || pc == ShutdownCheck(Cancelled)
  }

  function Weight(c: Canceller): nat { if InFlight(c.pc) then 1 else 0 }

  function Intents(cs: seq<Canceller>): nat {
    if cs == [] then 0 else Intents(cs[..|cs| - 1]) + Weight(cs[|cs| - 1])
  }

  lemma {:induction false} IntentsUpdate(cs: seq<Canceller>, i: nat, c: Canceller)
    requires i < |cs|
    ensures Intents(cs[i := c]) + Weight(cs[i]) == Intents(cs) + Weight(c)
  {
    var n := |cs| - 1;
    if i == n {
      assert cs[i := c][..n] == cs[..n];
    } else {
      assert cs[i := c][..n] == cs[..n][i := c];
      IntentsUpdate(cs[..n], i, c);
    }
  }

  lemma {:induction false} IntentsZero(cs: seq<Canceller>)
    ensures Intents(cs) == 0 <==> forall c :: c in cs ==> !InFlight(c.pc)
  {
    if cs != [] {
      var n := |cs| - 1;
      IntentsZero(cs[..n]);
      assert cs == cs[..n] + [cs[n]];
    }
  }

  predicate WorkerLocks(s: Shared) {
    && (s.decision.ByWorker? <==> HoldsDecision(s.worker))
    && (s.gate.ByWorker? <==> HoldsGate(s.worker))
  }

  /** What the worker's position says about counter, flags and process. */
  predicate WorkerFacts(s: Shared) {
    && (s.worker.RecheckBlocked? || s.worker.RecheckRequested? || s.worker.FinalCheck? || s.worker.WriteGo? ==>
          s.intents == 0)
    && (s.worker.RecheckRequested? || s.worker.FinalCheck? || s.worker.WriteGo? ==> !s.blocked)
    && (s.requested ==> s.blocked)
    && (s.go ==> s.worker.UnlockAfterGo? || s.worker.Supervise? || s.worker.Ended?)
    && (s.worker.UnlockAfterGo? || s.worker.Supervise? ==> s.go)
    && (s.process.Completing? ==> s.worker.UnlockEnd? || s.worker.DropGateEnd? || s.worker.Ended?)
    && (s.process.Pending? ==> s.worker.WantGate? || s.worker.CheckCancelled? || s.worker.Spawn? || s.worker.Record?
                               || s.worker.TerminateGated? || s.worker.DropGateEnd? || s.worker.Ended?)
  }

  predicate SharedOk(s: Shared) {
    WorkerLocks(s) && WorkerFacts(s)
  }

  /** What the position of canceller `i` says about the shared part. */
  predicate CancellerOk(s: Shared, i: nat, c: Canceller) {
    CancellerLocks(s, i, c) && CancellerFacts(s, c)
  }

  predicate CancellerLocks(s: Shared, i: nat, c: Canceller) {
    && (CountsNow(c.pc) <==> s.decision == ByCanceller(i))
    && (GateNow(c.pc) <==> s.gate == ByCanceller(i))
  }

  predicate CancellerFacts(s: Shared, c: Canceller) {
    && (InFlight(c.pc) && c.early ==> !s.go)
    && (HasRequested(c.pc) ==> s.requested && (c.early ==> !s.go))
    && (c.kind.Client? ==> ClientPc(c.pc))
    && (c.pc.Request? || c.pc.ShutdownPersist? ==> s.blocked)
  }

  predicate ClientPc(pc: CancelPc) {
    && !pc.ShutdownCheck? && !pc.ShutdownRecheck? && !pc.ShutdownBlock? && !pc.ShutdownPersist?
    && pc != Leave(Retry) && pc != Left(Retry)
  }

  /** May be the reason for a raised block that no request follows yet. */
  predicate Blocker(c: Canceller) {
    c.kind.Shutdown? || c.pc.Request?
  }

  ghost predicate BlockExplained(s: State) {
    s.sh.blocked && !s.sh.requested ==> exists i :: 0 <= i < |s.cancellers| && Blocker(s.cancellers[i])
  }

  predicate LocksNamed(s: State) {
    && (s.sh.decision.ByCanceller? ==> s.sh.decision.i < |s.cancellers|)
    && (s.sh.gate.ByCanceller? ==> s.sh.gate.i < |s.cancellers|)
  }

  ghost predicate Inv(s: State) {
    && SharedOk(s.sh) && LocksNamed(s)
    && s.sh.intents == Intents(s.cancellers)
    && BlockExplained(s)
    && forall i {:trigger s.cancellers[i]} :: 0 <= i < |s.cancellers| ==> CancellerOk(s.sh, i, s.cancellers[i])
  }

  lemma InitialInv(s: State)
    requires Initial(s)
    ensures Inv(s)
  {
    IntentsZero(s.cancellers);
    forall i | 0 <= i < |s.cancellers| ensures CancellerOk(s.sh, i, s.cancellers[i]) {
      assert Fresh(s.cancellers[i]);
    }
  }

  lemma NobodyInFlight(s: State, i: nat)
    requires Inv(s) && s.sh.intents == 0 && i < |s.cancellers|
    ensures !InFlight(s.cancellers[i].pc)
  {
    IntentsZero(s.cancellers);
  }

  lemma WorkerStepLocks(s: Shared, ok: bool)
    requires WorkerLocks(s)
    ensures WorkerLocks(WorkerNext(s, ok))
  {
  }

  lemma WorkerStepFacts(s: Shared, ok: bool)
    requires WorkerFacts(s)
    ensures WorkerFacts(WorkerNext(s, ok))
  {
  }

  lemma WorkerFrame(s: Shared, ok: bool)
    requires WorkerLocks(s)
    ensures var t := WorkerNext(s, ok);
            && t.intents == s.intents && t.blocked == s.blocked && t.requested == s.requested
            && (s.decision.ByCanceller? || t.decision.ByCanceller? ==> t.decision == s.decision)
            && (s.gate.ByCanceller? || t.gate.ByCanceller? ==> t.gate == s.gate)
  {
  }

  /** What a worker step leaves alone for a canceller. */
  lemma WorkerSparesCanceller(s: Shared, ok: bool, i: nat, c: Canceller)
    requires SharedOk(s) && CancellerOk(s, i, c) && (s.intents == 0 ==> !InFlight(c.pc))
    ensures CancellerOk(WorkerNext(s, ok), i, c)
  {
    WorkerFrame(s, ok);
    if s.worker.WriteGo? { assert !s.requested; }
  }

  lemma CancelStepCounts(s: Shared, i: nat, c: Canceller, ok: bool, force: bool)
    requires s.intents == 0 ==> !InFlight(c.pc)
    ensures var l := CancelNext(s, i, c, ok, force); l.sh.intents + Weight(c) == s.intents + Weight(l.c)
  {
  }

  lemma CancelStepLocks(s: Shared, i: nat, c: Canceller, ok: bool, force: bool)
    requires CancellerLocks(s, i, c)
    ensures var l := CancelNext(s, i, c, ok, force); CancellerLocks(l.sh, i, l.c)
  {
  }

  lemma CancelStepFacts(s: Shared, i: nat, c: Canceller, ok: bool, force: bool)
    requires CancellerFacts(s, c)
    ensures var l := CancelNext(s, i, c, ok, force); CancellerFacts(l.sh, l.c)
  {
  }

  /** What others may rely on while canceller `i` steps. */
  predicate Spares(s: Shared, t: Shared, i: nat) {
    && t.worker == s.worker && t.process == s.process && t.go == s.go
    && (s.blocked ==> t.blocked) && (s.requested ==> t.requested)
    && (t.decision == s.decision || (s.decision == ByCanceller(i) && t.decision.Free?)
        || (s.decision.Free? && t.decision == ByCanceller(i)))
    && (t.gate == s.gate || (s.gate == ByCanceller(i) && t.gate.Free?) || (s.gate.Free? && t.gate == ByCanceller(i)))
  }

  lemma CancelStepSpares(s: Shared, i: nat, c: Canceller, ok: bool, force: bool)
    requires CancellerOk(s, i, c)
    ensures var l := CancelNext(s, i, c, ok, force);
            && Spares(s, l.sh, i) && l.c.kind == c.kind
            && (l.sh.blocked && !l.sh.requested ==> Blocker(l.c) || (s.blocked && !s.requested && !Blocker(c)))
  {
  }

  lemma EffectsNeedIntent(s: Shared, i: nat, c: Canceller, ok: bool)
    requires CancellerOk(s, i, c)
    ensures var t := Effect(s, i, c.pc, ok);
            && (t.blocked != s.blocked || t.requested != s.requested || t.intents < s.intents ==> InFlight(c.pc))
            && (t.intents > s.intents ==> s.decision == ByCanceller(i))
            && (t.requested ==> t.blocked || (s.requested && !s.blocked))
  {
  }

  lemma CancelStepShared(s: Shared, i: nat, c: Canceller, ok: bool, force: bool)
    requires SharedOk(s) && CancellerOk(s, i, c) && (s.intents == 0 ==> !InFlight(c.pc))
    ensures SharedOk(CancelNext(s, i, c, ok, force).sh)
  {
    CancelStepSpares(s, i, c, ok, force);
    EffectsNeedIntent(s, i, c, ok);
  }

  lemma SparedStaysOk(s: Shared, t: Shared, i: nat, j: nat, c: Canceller)
    requires Spares(s, t, i) && i != j && CancellerOk(s, j, c)
    ensures CancellerOk(t, j, c)
  {
  }

  lemma WorkerKeepsInv(s: State, ok: bool)
    requires Inv(s)
    ensures Inv(Next(s, WorkerStep(ok)))
  {
    var t := Next(s, WorkerStep(ok));
    WorkerStepLocks(s.sh, ok);
    WorkerStepFacts(s.sh, ok);
    WorkerFrame(s.sh, ok);
    forall i | 0 <= i < |t.cancellers| ensures CancellerOk(t.sh, i, t.cancellers[i]) {
      if s.sh.intents == 0 { NobodyInFlight(s, i); }
      WorkerSparesCanceller(s.sh, ok, i, s.cancellers[i]);
    }
  }

  lemma CancelKeepsInv(s: State, i: nat, ok: bool, force: bool)
    requires Inv(s) && i < |s.cancellers|
    ensures Inv(Next(s, CancelStep(i, ok, force)))
  {
    var c := s.cancellers[i];
    var l := CancelNext(s.sh, i, c, ok, force);
    var t := Next(s, CancelStep(i, ok, force));
    if s.sh.intents == 0 { NobodyInFlight(s, i); }
    CancelStepShared(s.sh, i, c, ok, force);
    CancelStepCounts(s.sh, i, c, ok, force);
    CancelStepLocks(s.sh, i, c, ok, force);
    CancelStepFacts(s.sh, i, c, ok, force);
    CancelStepSpares(s.sh, i, c, ok, force);
    IntentsUpdate(s.cancellers, i, l.c);
    forall j | 0 <= j < |t.cancellers| ensures CancellerOk(t.sh, j, t.cancellers[j]) {
      if j != i { SparedStaysOk(s.sh, l.sh, i, j, s.cancellers[j]); }
    }
    ExplainedAfterCancel(s, i, ok, force);
  }

  lemma ExplainedAfterCancel(s: State, i: nat, ok: bool, force: bool)
    requires BlockExplained(s) && i < |s.cancellers| && CancellerOk(s.sh, i, s.cancellers[i])
    ensures BlockExplained(Next(s, CancelStep(i, ok, force)))
  {
    var l := CancelNext(s.sh, i, s.cancellers[i], ok, force);
    var t := Next(s, CancelStep(i, ok, force));
    CancelStepSpares(s.sh, i, s.cancellers[i], ok, force);
    if l.sh.blocked && !l.sh.requested {
      if Blocker(l.c) {
        assert t.cancellers[i] == l.c;
      } else {
        var j :| 0 <= j < |s.cancellers| && Blocker(s.cancellers[j]);
        assert t.cancellers[j] == s.cancellers[j];
      }
    }
  }

  lemma NextKeepsInv(s: State, ev: Event)
    requires Inv(s)
    ensures Inv(Next(s, ev))
  {
    match ev {
      case WorkerStep(ok) => WorkerKeepsInv(s, ok);
      case CancelStep(i, ok, force) => if i < |s.cancellers| { CancelKeepsInv(s, i, ok, force); }
    }
  }

  lemma {:induction false} EveryRunKeepsInv(s: State, evs: seq<Event>)
    requires Inv(s)
    ensures Inv(Run(s, evs))
  {
    if evs != [] {
      EveryRunKeepsInv(s, evs[..|evs| - 1]);
      NextKeepsInv(Run(s, evs[..|evs| - 1]), evs[|evs| - 1]);
    }
  }

  // ---------------------------------------------------------------- cancel and release linearize

  lemma GoIsWritten(s: State, ev: Event)
    requires SharedOk(s.sh) && !s.sh.go && Next(s, ev).sh.go
    ensures s.sh.worker.WriteGo?
  {
  }

  /** "go" is written only with no intent in flight, by count and in fact, and with both flags down. */
  lemma GoOnlyWhenClear(s: State, evs: seq<Event>, ev: Event)
    requires Initial(s) && !Run(s, evs).sh.go && Next(Run(s, evs), ev).sh.go
    ensures var r := Run(s, evs);
      && r.sh.intents == 0 && !r.sh.blocked && !r.sh.requested
      && forall c :: c in r.cancellers ==> !InFlight(c.pc)
  {
    InitialInv(s);
    EveryRunKeepsInv(s, evs);
    GoIsWritten(Run(s, evs), ev);
    IntentsZero(Run(s, evs).cancellers);
  }

  lemma RequestedStaysStopped(s: State, ev: Event)
    requires SharedOk(s.sh) && s.sh.requested && !s.sh.go
    ensures Next(s, ev).sh.requested && !Next(s, ev).sh.go
  {
  }

  lemma {:induction false} RequestedNeverRuns(s: State, evs: seq<Event>)
    requires Inv(s) && s.sh.requested && !s.sh.go
    ensures !Run(s, evs).sh.go && Run(s, evs).sh.requested
  {
    if evs != [] {
      RequestedNeverRuns(s, evs[..|evs| - 1]);
      EveryRunKeepsInv(s, evs[..|evs| - 1]);
      RequestedStaysStopped(Run(s, evs[..|evs| - 1]), evs[|evs| - 1]);
    }
  }

  lemma {:induction false} RunSplits(s: State, evs: seq<Event>, more: seq<Event>)
    ensures Run(s, evs + more) == Run(Run(s, evs), more)
  {
    if more == [] {
      assert evs + more == evs;
    } else {
      assert (evs + more)[..|evs + more| - 1] == evs + more[..|more| - 1];
      RunSplits(s, evs, more[..|more| - 1]);
    }
  }

  /** A cancel that ended in success and whose intent was counted before "go" was written means that the command
      has not run and never will, whatever happens next. */
  lemma SuccessfulEarlyCancelStopsTheTask(s: State, evs: seq<Event>, i: nat, more: seq<Event>)
    requires Initial(s) && i < |Run(s, evs).cancellers|
    requires Run(s, evs).cancellers[i].pc == Left(Cancelled) && Run(s, evs).cancellers[i].early
    ensures !Run(s, evs + more).sh.go
  {
    InitialInv(s);
    EveryRunKeepsInv(s, evs);
    RequestedNeverRuns(Run(s, evs), more);
    RunSplits(s, evs, more);
  }
}
