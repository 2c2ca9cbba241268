/** A daemon that may leave does leave: its main thread comes to the end of each of the three ways out. */
module AcceptLoopExits {
  import opened Results
  import opened Registry
  import opened AcceptLoop

  /** Nothing is held that has to be waited for, and nobody uses the daemon. */
  predicate Deserted(s: State) {
    s.clients == map[] && !s.reg.stop && s.reg.boots == {} && s.reg.tasks == {}
  }

  /** The daemon is closed for a handoff and all its servers are handed over. */
  predicate Drained(s: State) {
    Deserted(s) && s.reg.quiescing && AllHandedOff(s.reg.servers)
  }

  /** The daemon holds no server at all, and a full timeout has passed since the last activity it knows of. */
  predicate Stale(s: State) {
    Deserted(s) && !s.reg.quiescing && s.reg.servers == map[] && s.generation == s.observed
    && s.now >= s.last + s.timeout
  }

  /** How many steps of the main thread are left to the end `why`, from a place on the way there. */
  function StepsLeft(pc: Pc, why: Reason): Option<nat> {
    match pc
    case LoadGeneration => Some(19)
    case Stamp => if why.IdleTimeout? then None else Some(18)
    case LoadStop => Some(17)
    case Accept => if why.StopRequested? then None else Some(16)
    case ReapServers => if why.StopRequested? then None else Some(15)
    case ReapBoots => if why.StopRequested? then None else Some(14)
    case LoadClients => if why.StopRequested? then None else Some(13)
    case ReloadGeneration => if why.StopRequested? then None else Some(12)
    case Restamp => if why.HandoffDrained? then Some(11) else None
    case Choose => if why.StopRequested? then None else Some(10)
    case DrainServers => if why.HandoffDrained? then Some(9) else None
    case DrainReservations => if why.HandoffDrained? then Some(8) else None
    case DrainBoots => if why.HandoffDrained? then Some(7) else None
    case DrainTasks => if why.HandoffDrained? then Some(6) else None
    case IdleStore => if why.IdleTimeout? then Some(9) else None
    case IdleServers => if why.IdleTimeout? then Some(8) else None
    case IdleReservations => if why.IdleTimeout? then Some(7) else None
    case IdleBoots => if why.IdleTimeout? then Some(6) else None
    case IdleTasks => if why.IdleTimeout? then Some(5) else None
    case Leaving(w) => if w == why then Some(3) else None
    case TeardownServers(w) => if w == why then Some(2) else None
    case TeardownBoots(w) => if w == why then Some(1) else None
    case Gone(w) => if w == why then Some(0) else None
    case _ => None
  }

  /** The answers on the way: no connection, nothing to reap; the store and the maintenance worker are quiet. */
  function Undisturbed(pc: Pc): Answer {
    Answer(!pc.Accept? && !pc.ReapServers? && !pc.ReapBoots?, "", 0)
  }

  predicate Emptied(r: Registries) {
    r.servers == map[] && r.reservations == {} && r.boots == {} && r.tasks == {}
  }

  /** The daemon is on the way to the end `why`, and nothing stands in the way. */
  predicate OnTheWay(s: State, why: Reason) {
    && StepsLeft(s.pc, why).Some?
    && (match why
        case StopRequested => s.reg.stop
        case HandoffDrained => Drained(s)
        case IdleTimeout => Stale(s) && (s.pc.IdleStore? ==> s.idle))
    && (BeyondReaping(s.pc) ==> s.reg.reservations == {})
    && (match s.pc
        case TeardownServers(_) => s.reg.tasks == {}
        case TeardownBoots(_) => s.reg.tasks == {} && s.reg.servers == map[]
        case Gone(_) => Emptied(s.reg)
        case _ => true)
  }

  predicate BeyondReaping(pc: Pc) {
    || pc.LoadClients? || pc.ReloadGeneration? || pc.Restamp? || pc.Choose? || pc.DrainServers? || pc.DrainReservations?
    || pc.IdleStore? || pc.IdleServers? || pc.IdleReservations?
  }

  lemma OneStepCloser(s: State, why: Reason)
    requires OnTheWay(s, why) && s.pc != Gone(why)
    ensures var t := ThreadStep(s, Undisturbed(s.pc));
            OnTheWay(t, why) && StepsLeft(t.pc, why).value < StepsLeft(s.pc, why).value
  {
  }

  lemma {:induction false} RunFromNext(s: State, ev: Event, evs: seq<Event>)
    ensures Run(s, [ev] + evs) == Run(Next(s, ev), evs)
  {
    hide Next;
    if evs == [] {
      assert [ev] + evs == [ev] && [ev][..0] == [];
      assert Run(s, []) == s;
    } else {
      assert ([ev] + evs)[..|evs|] == [ev] + evs[..|evs| - 1];
      RunFromNext(s, ev, evs[..|evs| - 1]);
    }
  }

  lemma {:induction false} Leaves(s: State, why: Reason) returns (evs: seq<Event>)
    requires OnTheWay(s, why)
    ensures (forall ev :: ev in evs ==> ev.Step?) && Run(s, evs).pc == Gone(why) && Emptied(Run(s, evs).reg)
    decreases StepsLeft(s.pc, why).value
  {
    if s.pc == Gone(why) {
      evs := [];
    } else {
      OneStepCloser(s, why);
      var ev := Step(Undisturbed(s.pc));
      var rest := Leaves(Next(s, ev), why);
      evs := [ev] + rest;
      RunFromNext(s, ev, rest);
    }
  }

  /** From the head of the loop, left alone, the main thread of a daemon that is asked to stop comes to that end, that
      of a drained one leaves as drained, and that of a stale one as idle. Then nothing is registered any more. */
  lemma DaemonsLeave(s: State, why: Reason) returns (evs: seq<Event>)
    requires s.pc.LoadGeneration?
    requires match why
             case StopRequested => s.reg.stop
             case HandoffDrained => Drained(s)
             case IdleTimeout => Stale(s)
    ensures (forall ev :: ev in evs ==> ev.Step?) && Run(s, evs).pc == Gone(why) && Emptied(Run(s, evs).reg)
  {
    evs := Leaves(s, why);
  }
}
