/** Handlers that spawn, register, promote, abort and stop app-servers, and the quiesce fence around them.

    Any number of handler threads interleave; a step is one critical section, one spawn or one stop. The handoff
    lock spans several steps. Kernel and store answers, and the identity of a new process, come with the step. */
module Registration {
  import opened Results

  type Proc = nat

  datatype Kind =
    | Ensure(session: string)
    | ThreadStart(boot: string)
    | ForegroundStart(boot: string)
    | Promote(boot: string, session: string)
    | Abort(boot: string)
    | StopServer(session: string)     // stop requests, lease reaping, refresh of an exited server
    | StopAllServers
    | StopBoots                       // the expired ones when reaping, all of them at shutdown
    | RunTask(task: string)
    | Quiesce
    | Unquiesce

  datatype Pc =
    | Begin
    // ensure
    | FirstLock | First | FirstRemove | FirstStop | Spawn | SecondLock | Second | SecondRemove | SecondStop
    // starts
    | InsertLock | Insert | Serve | Bind | TakeBack
    // promote
    | TakeLock | Take | Check | Place | PlaceRemove | PlaceStop | PlaceGiveUp | PlaceUnlock
    // stops
    | Remove
    // tasks, quiesce, unquiesce
    | TaskLock | TaskInsert | FlagLock | SetFlag | CheckBoots | Export | Restore | ClearLock | Clear
    // shared ends
    | GiveUp | Stop | Done

  /** `cand` is the process the handler holds, `proof` the one it decided to stop, `victims` those it took out. */
  datatype Thread = Thread(kind: Kind, pc: Pc, cand: Option<Proc>, proof: Option<Proc>, victims: set<Proc>, was: bool)

  datatype Shared = Shared(
    servers: map<string, Proc>,
    boots: map<string, Proc>,
    tasks: set<string>,
    quiescing: bool,
    stopping: bool,
    lock: Option<nat>,
    spawned: set<Proc>,
    stopped: set<Proc>)

  /** What the world answers: `Fine`; `Refused` for an error, a conflict or an exited candidate; `Dead` for a
      registered process that is found exited. */
  datatype Answer = Fine | Refused | Dead

  datatype Input = Input(answer: Answer, newProc: Proc, expired: set<string>)

  predicate Accepts(s: Shared) { !s.quiescing && !s.stopping }

  // ---------------------------------------------------------------- one step of one handler

  /** A lock that is taken is waited for, and a new process is really new. */
  predicate Enabled(s: Shared, th: Thread, n: Input) {
    && (WantsLock(th.pc) ==> s.lock.None?)
    && (th.pc.Spawn? && n.answer.Fine? ==> n.newProc !in s.spawned)
    && !th.pc.Done?
  }

  predicate WantsLock(pc: Pc) {
    pc.FirstLock? || pc.SecondLock? || pc.InsertLock? || pc.TakeLock? || pc.TaskLock? || pc.FlagLock? || pc.ClearLock?
  }

  predicate HoldsLock(pc: Pc) {
    || pc.First? || pc.Second? || pc.Insert? || pc.Take? || pc.Check? || pc.Place? || pc.PlaceRemove? || pc.PlaceStop?
    || pc.PlaceGiveUp? || pc.PlaceUnlock? || pc.TaskInsert? || pc.SetFlag? || pc.CheckBoots? || pc.Export?
    || pc.Restore? || pc.Clear?
  }

  function SessionOf(k: Kind): string {
    match k
    case Ensure(x) => x
    case Promote(_, x) => x
    case StopServer(x) => x
    case _ => ""
  }

  function BootOf(k: Kind): string {
    match k
    case ThreadStart(b) => b
    case ForegroundStart(b) => b
    case Promote(b, _) => b
    case Abort(b) => b
    case _ => ""
  }

  function PcAfter(s: Shared, th: Thread, n: Input): Pc {
    var x := SessionOf(th.kind);
    var b := BootOf(th.kind);
    match th.pc
    case Begin => (match th.kind
      case Ensure(_) => FirstLock
      case ThreadStart(_) => Spawn
      case ForegroundStart(_) => Spawn
      case Promote(_, _) => TakeLock
      case RunTask(_) => TaskLock
      case Quiesce => FlagLock
      case Unquiesce => ClearLock
      case _ => Remove)
    case FirstLock => First
    case First =>
      if !Accepts(s) || n.answer.Refused? then Done
      else if x !in s.servers then Spawn
      else if n.answer.Dead? then FirstRemove else Done
    case FirstRemove => if n.answer.Refused? then Done else if ProofMatches(s, th) then FirstStop else Spawn
    case FirstStop => Spawn
    case Spawn => if !n.answer.Fine? then Done else if th.kind.Ensure? then SecondLock else InsertLock
    case SecondLock => Second
    case Second =>
      if !Accepts(s) || n.answer.Refused? then GiveUp
      else if x !in s.servers then Done
      else if n.answer.Dead? then SecondRemove else GiveUp
    case SecondRemove => if n.answer.Refused? then GiveUp else if ProofMatches(s, th) then SecondStop else SecondLock
    case SecondStop => SecondLock
    case InsertLock => Insert
    case Insert => if !Accepts(s) then GiveUp else if th.kind.ThreadStart? then Serve else Done
    case Serve => if n.answer.Fine? then Bind else TakeBack
    case Bind => if s.stopping || b !in s.boots then TakeBack else Done
    case TakeBack => if b in s.boots then Stop else Done
    case TakeLock => Take
    case Take => if !Accepts(s) || n.answer.Refused? || b !in s.boots then Done else Check
    case Check => if s.stopping || !n.answer.Fine? then PlaceGiveUp else Place
    case Place =>
      if s.stopping then PlaceGiveUp
      else if x !in s.servers then PlaceUnlock
      else if n.answer.Dead? then PlaceRemove else PlaceGiveUp
    case PlaceRemove => if n.answer.Refused? then PlaceGiveUp else if ProofMatches(s, th) then PlaceStop else Place
    case PlaceStop => Place
    case PlaceGiveUp => PlaceUnlock
    case PlaceUnlock => Done
    case Remove => (match th.kind
      case Abort(_) => if n.answer.Fine? && b in s.boots then Stop else Done
      case StopServer(_) => if n.answer.Fine? && x in s.servers then Stop else Done
      case StopAllServers => Stop
      case StopBoots => Stop
      case _ => Done)
    case TaskLock => TaskInsert
    case TaskInsert => Done
    case FlagLock => SetFlag
    case SetFlag => if s.stopping || n.answer.Refused? then Done else CheckBoots
    case CheckBoots => if s.boots == map[] then Export else Restore
    case Export => if n.answer.Fine? then Done else Restore
    case Restore => Done
    case ClearLock => Clear
    case Clear => Done
    case GiveUp => Done
    case Stop => Done
    case Done => Done
  }

  /** The entry is still the process the handler found dead. */
  predicate ProofMatches(s: Shared, th: Thread) {
    SessionOf(th.kind) in s.servers && th.proof == Some(s.servers[SessionOf(th.kind)])
  }

  /** Whether this step files the candidate under its session, or among the bootstraps, or takes one from there. */
  predicate FilesServer(s: Shared, th: Thread, n: Input) {
    && SessionOf(th.kind) !in s.servers && th.cand.Some?
    && ((th.pc.Second? && Accepts(s) && !n.answer.Refused?) || (th.pc.Place? && !s.stopping))
  }

  predicate FilesBoot(s: Shared, th: Thread, n: Input) {
    th.pc.Insert? && Accepts(s) && th.cand.Some?
  }

  predicate TakesBoot(s: Shared, th: Thread, n: Input) {
    th.pc.Take? && Accepts(s) && !n.answer.Refused? && BootOf(th.kind) in s.boots
  }

  predicate Spawns(s: Shared, th: Thread, n: Input) { th.pc.Spawn? && n.answer.Fine? }

  predicate StopsCand(th: Thread) { th.pc.GiveUp? || th.pc.PlaceGiveUp? }

  predicate StopsVictims(pc: Pc) { pc.FirstStop? || pc.SecondStop? || pc.PlaceStop? || pc.Stop? }

  /** The sessions, and the bootstraps, whose processes this step takes out in order to stop them. */
  function SessionsOut(s: Shared, th: Thread, n: Input): set<string> {
    if (th.pc.FirstRemove? || th.pc.SecondRemove? || th.pc.PlaceRemove?) && !n.answer.Refused?
        && ProofMatches(s, th) then
      {SessionOf(th.kind)}
    else if th.pc.Remove? && th.kind.StopServer? && n.answer.Fine? && th.kind.session in s.servers
        then {th.kind.session}
    else if th.pc.Remove? && th.kind.StopAllServers? then s.servers.Keys
    else {}
  }

  function BootsOut(s: Shared, th: Thread, n: Input): set<string> {
    var b := BootOf(th.kind);
    if th.pc.TakeBack? && b in s.boots then {b}
    else if th.pc.Remove? && th.kind.Abort? && n.answer.Fine? && b in s.boots then {b}
    else if th.pc.Remove? && th.kind.StopBoots? then n.expired * s.boots.Keys
    else {}
  }

  function ProcsAt(m: map<string, Proc>, xs: set<string>): set<Proc> {
    set x | x in xs && x in m :: m[x]
  }

  function ServersAfter(s: Shared, th: Thread, n: Input): map<string, Proc> {
    if FilesServer(s, th, n) then s.servers[SessionOf(th.kind) := th.cand.value] else s.servers - SessionsOut(s, th, n)
  }

  function BootsAfter(s: Shared, th: Thread, n: Input): map<string, Proc> {
    if FilesBoot(s, th, n) then s.boots[BootOf(th.kind) := th.cand.value]
    else if TakesBoot(s, th, n) then s.boots - {BootOf(th.kind)}
    else s.boots - BootsOut(s, th, n)
  }

  function TasksAfter(s: Shared, th: Thread, n: Input): set<string> {
    if th.pc.TaskInsert? && th.kind.RunTask? && Accepts(s) && n.answer.Fine? then s.tasks + {th.kind.task} else s.tasks
  }

  function FlagAfter(s: Shared, th: Thread, n: Input): bool {
    match th.pc
    case SetFlag => s.quiescing || !(s.stopping || n.answer.Refused?)
    case Restore => s.quiescing && th.was
    case Clear => s.quiescing && (s.stopping || n.answer.Refused?)
    case _ => s.quiescing
  }

  function LockAfter(s: Shared, i: nat, th: Thread, n: Input): Option<nat> {
    if WantsLock(th.pc) then Some(i)
    else if HoldsLock(th.pc) && !HoldsLock(PcAfter(s, th, n)) then None
    else s.lock
  }

  function SharedAfter(s: Shared, i: nat, th: Thread, n: Input): Shared {
    Shared(
      ServersAfter(s, th, n), BootsAfter(s, th, n), TasksAfter(s, th, n), FlagAfter(s, th, n), s.stopping,
      LockAfter(s, i, th, n),
      if Spawns(s, th, n) then s.spawned + {n.newProc} else s.spawned,
      s.stopped + (if StopsVictims(th.pc) then th.victims else {})
                + (if StopsCand(th) && th.cand.Some? then {th.cand.value} else {}))
  }

  function CandAfter(s: Shared, th: Thread, n: Input): Option<Proc> {
    if Spawns(s, th, n) then Some(n.newProc)
    else if TakesBoot(s, th, n) then Some(s.boots[BootOf(th.kind)])
    else if FilesServer(s, th, n) || FilesBoot(s, th, n) || StopsCand(th) then None
    else th.cand
  }

  function VictimsAfter(s: Shared, th: Thread, n: Input): set<Proc> {
    if StopsVictims(th.pc) then {}
    else th.victims + ProcsAt(s.servers, SessionsOut(s, th, n)) + ProcsAt(s.boots, BootsOut(s, th, n))
  }

  function ThreadAfter(s: Shared, th: Thread, n: Input): Thread {
    Thread(th.kind, PcAfter(s, th, n), CandAfter(s, th, n),
           if (th.pc.First? || th.pc.Second? || th.pc.Place?) && SessionOf(th.kind) in s.servers
           then Some(s.servers[SessionOf(th.kind)]) else th.proof,
           VictimsAfter(s, th, n),
           if th.pc.SetFlag? then s.quiescing else th.was)
  }

  // ---------------------------------------------------------------- the system

  datatype State = State(sh: Shared, threads: seq<Thread>)

  /** A handler steps, a task worker unregisters itself, or the daemon is asked to stop. */
  datatype Event = Step(i: nat, n: Input) | TaskEnds(task: string) | StopRequested

  function Next(s: State, ev: Event): State {
    match ev
    case Step(i, n) =>
      if i < |s.threads| && Enabled(s.sh, s.threads[i], n) then
        State(SharedAfter(s.sh, i, s.threads[i], n), s.threads[i := ThreadAfter(s.sh, s.threads[i], n)])
      else s
    case TaskEnds(task) => s.(sh := s.sh.(tasks := s.sh.tasks - {task}))
    case StopRequested => s.(sh := s.sh.(stopping := true))
  }

  function Run(s: State, evs: seq<Event>): State {
    if evs == [] then s else Next(Run(s, evs[..|evs| - 1]), evs[|evs| - 1])
  }

  predicate Starts(k: Kind) { k.ThreadStart? || k.ForegroundStart? }

  /** Bootstrap identifiers are never used twice. */
  predicate Initial(s: State) {
    && s.sh == Shared(map[], map[], {}, false, false, None, {}, {})
    && (forall th :: th in s.threads ==> th.pc.Begin? && th.cand.None? && th.victims == {})
    && (forall i, j :: 0 <= i < j < |s.threads| && Starts(s.threads[i].kind) && Starts(s.threads[j].kind) ==>
          BootOf(s.threads[i].kind) != BootOf(s.threads[j].kind))
  }

  // ---------------------------------------------------------------- invariants

  predicate HasCand(pc: Pc) {
    || pc.SecondLock? || pc.Second? || pc.SecondRemove? || pc.SecondStop? || pc.GiveUp?
    || pc.InsertLock? || pc.Insert?
    || pc.Check? || pc.Place? || pc.PlaceRemove? || pc.PlaceStop? || pc.PlaceGiveUp?
  }

  /** Which handler can be where. */
  predicate PcFits(pc: Pc, k: Kind) {
    && (pc.InsertLock? || pc.Insert? || pc.Serve? || pc.Bind? || pc.TakeBack? ==> Starts(k))
    && ((|| pc.TakeLock? || pc.Take? || pc.Check? || pc.Place?
         || pc.PlaceRemove? || pc.PlaceStop? || pc.PlaceGiveUp? || pc.PlaceUnlock?) ==> k.Promote?)
    && ((|| pc.FirstLock? || pc.First? || pc.FirstRemove? || pc.FirstStop?
         || pc.SecondLock? || pc.Second? || pc.SecondRemove? || pc.SecondStop?) ==> k.Ensure?)
    && (pc.Spawn? || pc.GiveUp? ==> Starts(k) || k.Ensure?)
    && (pc.Remove? ==> k.Abort? || k.StopServer? || k.StopAllServers? || k.StopBoots?)
  }

  /** A start that has filed its bootstrap. */
  predicate HasFiled(th: Thread) {
    Starts(th.kind) && (th.pc.Serve? || th.pc.Bind? || th.pc.TakeBack? || th.pc.Stop? || th.pc.Done?)
  }

  /** A handler holds a candidate, or processes to stop, exactly where its code has one to deal with. */
  predicate HandsOk(th: Thread) {
    && (th.cand.Some? <==> HasCand(th.pc))
    && (th.victims != {} ==> StopsVictims(th.pc))
  }

  /** What the lock protects. */
  predicate LockOk(s: Shared, i: nat, th: Thread) {
    && (HoldsLock(th.pc) <==> s.lock == Some(i))
    && (Promoting(th.pc) ==> !s.quiescing)
    && (th.pc.CheckBoots? || th.pc.Export? || th.pc.Restore? ==> s.quiescing)
    && (th.pc.Export? ==> s.boots == map[])
  }

  predicate Promoting(pc: Pc) { pc.Check? || pc.Place? || pc.PlaceRemove? || pc.PlaceStop? }

  predicate ThreadOk(s: Shared, i: nat, th: Thread) {
    PcFits(th.pc, th.kind) && HandsOk(th) && LockOk(s, i, th)
  }

  ghost predicate BootsOwned(s: State) {
    forall b :: b in s.sh.boots ==>
        exists i :: 0 <= i < |s.threads| && HasFiled(s.threads[i]) && BootOf(s.threads[i].kind) == b
  }

  predicate DistinctBoots(ts: seq<Thread>) {
    forall i, j :: 0 <= i < j < |ts| && Starts(ts[i].kind) && Starts(ts[j].kind) ==>
        BootOf(ts[i].kind) != BootOf(ts[j].kind)
  }

  ghost predicate Inv(s: State) {
    && (forall i {:trigger s.threads[i]} :: 0 <= i < |s.threads| ==> ThreadOk(s.sh, i, s.threads[i]))
    && BootsOwned(s) && DistinctBoots(s.threads)
  }

  lemma StepFits(s: Shared, th: Thread, n: Input)
    requires PcFits(th.pc, th.kind)
    ensures PcFits(PcAfter(s, th, n), th.kind)
  {
  }

  lemma StepCand(s: Shared, th: Thread, n: Input)
    requires PcFits(th.pc, th.kind) && (th.cand.Some? <==> HasCand(th.pc))
    ensures CandAfter(s, th, n).Some? <==> HasCand(PcAfter(s, th, n))
  {
  }

  lemma StepVictims(s: Shared, th: Thread, n: Input)
    requires PcFits(th.pc, th.kind) && (th.victims != {} ==> StopsVictims(th.pc))
    ensures VictimsAfter(s, th, n) != {} ==> StopsVictims(PcAfter(s, th, n))
  {
  }

  lemma StepLock(s: Shared, i: nat, th: Thread, n: Input)
    requires PcFits(th.pc, th.kind) && LockOk(s, i, th) && Enabled(s, th, n)
    ensures LockOk(SharedAfter(s, i, th, n), i, ThreadAfter(s, th, n))
  {
  }

  /** A handler that steps leaves the others as they were: the lock keeps the flag and the bootstraps still. */
  lemma StepOthers(s: Shared, i: nat, th: Thread, n: Input, j: nat, other: Thread)
    requires i != j && LockOk(s, i, th) && LockOk(s, j, other) && Enabled(s, th, n)
    ensures LockOk(SharedAfter(s, i, th, n), j, other)
  {
  }

  lemma FiledForGood(s: Shared, th: Thread, n: Input)
    requires PcFits(th.pc, th.kind)
    requires HasFiled(th) || FilesBoot(s, th, n)
    ensures HasFiled(ThreadAfter(s, th, n))
  {
  }

  lemma StepBootsOwned(s: State, i: nat, n: Input)
    requires i < |s.threads| && Inv(s)
    requires Enabled(s.sh, s.threads[i], n)
    ensures BootsOwned(Next(s, Step(i, n)))
  {
    var t := Next(s, Step(i, n));
    var th := s.threads[i];
    forall b | b in t.sh.boots
      ensures exists k :: 0 <= k < |t.threads| && HasFiled(t.threads[k]) && BootOf(t.threads[k].kind) == b
    {
      if FilesBoot(s.sh, th, n) && b == BootOf(th.kind) {
        FiledForGood(s.sh, th, n);
        assert HasFiled(t.threads[i]);
      } else {
        var k :| 0 <= k < |s.threads| && HasFiled(s.threads[k]) && BootOf(s.threads[k].kind) == b;
        if k == i { FiledForGood(s.sh, th, n); }
        assert HasFiled(t.threads[k]);
      }
    }
  }

  lemma StepThread(s: State, i: nat, n: Input, j: nat)
    requires i < |s.threads| && j < |s.threads| && Enabled(s.sh, s.threads[i], n)
    requires ThreadOk(s.sh, i, s.threads[i]) && ThreadOk(s.sh, j, s.threads[j])
    ensures ThreadOk(Next(s, Step(i, n)).sh, j, Next(s, Step(i, n)).threads[j])
  {
    var th := s.threads[i];
    if j == i {
      StepFits(s.sh, th, n);
      StepCand(s.sh, th, n);
      StepVictims(s.sh, th, n);
      StepLock(s.sh, i, th, n);
    } else {
      StepOthers(s.sh, i, th, n, j, s.threads[j]);
    }
  }

  lemma NextKeepsInv(s: State, ev: Event)
    requires Inv(s)
    ensures Inv(Next(s, ev))
  {
    var t := Next(s, ev);
    if ev.Step? && ev.i < |s.threads| && Enabled(s.sh, s.threads[ev.i], ev.n) {
      StepBootsOwned(s, ev.i, ev.n);
    }
    forall j {:trigger t.threads[j]} | 0 <= j < |t.threads|
      ensures ThreadOk(t.sh, j, t.threads[j])
    {
      assert ThreadOk(s.sh, j, s.threads[j]);
      if ev.Step? && ev.i < |s.threads| && Enabled(s.sh, s.threads[ev.i], ev.n) {
        StepThread(s, ev.i, ev.n, j);
      }
    }
  }

  lemma {:induction false} RunKeepsInv(s: State, evs: seq<Event>)
    requires Inv(s)
    ensures Inv(Run(s, evs))
  {
    if evs != [] {
      RunKeepsInv(s, evs[..|evs| - 1]);
      NextKeepsInv(Run(s, evs[..|evs| - 1]), evs[|evs| - 1]);
    }
  }

  lemma InitialIsSound(s: State)
    requires Initial(s)
    ensures Inv(s)
  {
  }

  // ---------------------------------------------------------------- the quiesce fence

  /** No entry of the second map is new. */
  predicate Within(later: map<string, Proc>, earlier: map<string, Proc>) {
    forall x :: x in later ==> x in earlier && later[x] == earlier[x]
  }

  /** Only a step taken while the daemon accepts work adds a server, a bootstrap or a task. */
  lemma NothingNewBehindTheFence(s: State, ev: Event)
    requires Inv(s) && s.sh.quiescing
    ensures var t := Next(s, ev).sh;
            Within(t.servers, s.sh.servers) && Within(t.boots, s.sh.boots) && t.tasks <= s.sh.tasks
  {
    if ev.Step? && ev.i < |s.threads| {
      assert ThreadOk(s.sh, ev.i, s.threads[ev.i]);
    }
  }

  /** However long the flag stays set, and whoever runs meanwhile, the registries only shrink. */
  lemma {:induction false} FenceHolds(s: State, evs: seq<Event>)
    requires Inv(s)
    requires forall k :: 0 <= k < |evs| ==> Run(s, evs[..k]).sh.quiescing
    ensures var t := Run(s, evs).sh;
            Within(t.servers, s.sh.servers) && Within(t.boots, s.sh.boots) && t.tasks <= s.sh.tasks
  {
    if evs != [] {
      var before := evs[..|evs| - 1];
      forall k | 0 <= k < |before| ensures Run(s, before[..k]).sh.quiescing {
        assert before[..k] == evs[..k];
      }
      FenceHolds(s, before);
      RunKeepsInv(s, before);
      NothingNewBehindTheFence(Run(s, before), evs[|evs| - 1]);
    }
  }

  /** Where a quiesce stands, and what the flag is there, when it found `was` in the flag. */
  predicate QuiesceStands(s: State, i: nat, was: bool) {
    && i < |s.threads|
    && (match s.threads[i].pc
        case SetFlag => s.sh.quiescing == was
        case CheckBoots => s.threads[i].was == was
        case Export => s.threads[i].was == was
        case Restore => s.threads[i].was == was
        case _ => s.threads[i].pc.Done?)
  }

  lemma QuiesceStandsOn(s: State, i: nat, was: bool, ev: Event)
    requires Inv(s) && QuiesceStands(s, i, was)
    ensures QuiesceStands(Next(s, ev), i, was)
  {
    assert ThreadOk(s.sh, i, s.threads[i]);
    assert ev.Step? && ev.i < |s.threads| ==> ThreadOk(s.sh, ev.i, s.threads[ev.i]);
    hide Inv;
  }

  lemma {:induction false} QuiesceStandsThroughout(s: State, i: nat, was: bool, evs: seq<Event>)
    requires Inv(s) && QuiesceStands(s, i, was)
    ensures QuiesceStands(Run(s, evs), i, was)
  {
    if evs != [] {
      QuiesceStandsThroughout(s, i, was, evs[..|evs| - 1]);
      RunKeepsInv(s, evs[..|evs| - 1]);
      QuiesceStandsOn(Run(s, evs[..|evs| - 1]), i, was, evs[|evs| - 1]);
    }
  }

  /** A quiesce whose export fails puts back the flag it found, whatever ran between its two writes. */
  lemma FailedQuiesceRestoresTheFlag(s: State, i: nat, evs: seq<Event>, n: Input)
    requires Inv(s) && i < |s.threads| && s.threads[i].pc.SetFlag?
    requires Run(s, evs).threads != [] && i < |Run(s, evs).threads| && Run(s, evs).threads[i].pc.Restore?
    ensures var t := Next(Run(s, evs), Step(i, n)); t.threads[i].pc.Done? && t.sh.quiescing == s.sh.quiescing
  {
    QuiesceStandsThroughout(s, i, s.sh.quiescing, evs);
    RunKeepsInv(s, evs);
    assert ThreadOk(Run(s, evs).sh, i, Run(s, evs).threads[i]);
  }
}
