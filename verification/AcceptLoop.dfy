/** The accept loop of the daemon and its two quiet ways out, among client workers that may do anything.

    The main thread reads flags, counters and registries one at a time; client workers and task workers run between
    any two of its steps. A client worker may rewrite every registry while it serves, and announces its end in two
    steps: it raises the activity generation, then it leaves the count of active clients. */
module AcceptLoop {
  import opened Registry

  datatype Reason = StopRequested | HandoffDrained | IdleTimeout

  datatype Pc =
    | LoadGeneration | Stamp | LoadStop
    | Accept | CountAccepted
    | ReapServers | ReapBoots
    | LoadClients | ReloadGeneration | Restamp | Choose
    | DrainServers | DrainReservations | DrainBoots | DrainTasks
    | IdleStore | IdleServers | IdleReservations | IdleBoots | IdleTasks
    | Leaving(why: Reason) | TeardownServers(why: Reason) | TeardownBoots(why: Reason) | Gone(why: Reason)

  datatype Registries = Registries(
    servers: map<string, Holding>,
    reservations: set<string>,
    boots: set<string>,
    tasks: set<string>,
    quiescing: bool,
    stop: bool)

  datatype Worker = Serving | Announced

  /** `last` is the last activity the main thread knows of and `idle` whether it found it long ago. `latestEnd`,
      `lost` and `absorbed` record history: when a client last announced its end, the owned or adopted servers,
      bootstraps and tasks that the teardown took away, and whether, since `last` was set, a connection that was
      refused at the limit absorbed such an announcement. */
  datatype State = State(
    pc: Pc,
    reg: Registries,
    clients: map<nat, Worker>,
    now: nat, timeout: nat,
    generation: nat, observed: nat, last: nat, idle: bool,
    latestEnd: nat, lost: set<string>, absorbed: bool)

  /** An answer to the main thread: a connection waits, the limit is reached, a lease has run out, the store and
      the maintenance worker are quiet; and the entry or the client that it is about. */
  datatype Answer = Answer(yes: bool, name: string, client: nat)

  datatype Event =
    | Step(n: Answer)
    | ClientActs(c: nat, reg: Registries)
    | ClientAnnounces(c: nat)
    | ClientEnds(c: nat)
    | TaskEnds(task: string)
    | Tick(millis: nat)

  // ---------------------------------------------------------------- the main thread

  predicate AllHandedOff(servers: map<string, Holding>) {
    forall x :: x in servers ==> servers[x].HandedOff?
  }

  function PcAfter(s: State, n: Answer): Pc {
    match s.pc
    case LoadGeneration => if s.generation != s.observed then Stamp else LoadStop
    case Stamp => LoadStop
    case LoadStop => if s.reg.stop then Leaving(StopRequested) else Accept
    case Accept => if n.yes then CountAccepted else ReapServers
    case CountAccepted => LoadGeneration
    case ReapServers => if n.yes then ReapServers else ReapBoots
    case ReapBoots => if n.yes then ReapBoots else LoadClients
    case LoadClients => if s.clients == map[] then ReloadGeneration else LoadGeneration
    case ReloadGeneration => if s.generation != s.observed then Restamp else Choose
    case Restamp => Choose
    case Choose => if s.reg.quiescing && n.yes then DrainServers else IdleStore
    case DrainServers => if AllHandedOff(s.reg.servers) then DrainReservations else IdleStore
    case DrainReservations => if s.reg.reservations == {} then DrainBoots else IdleStore
    case DrainBoots => if s.reg.boots == {} then DrainTasks else IdleStore
    case DrainTasks => if s.reg.tasks == {} then Leaving(HandoffDrained) else IdleStore
    case IdleStore => if s.idle && n.yes then IdleServers else LoadGeneration
    case IdleServers => if s.reg.servers == map[] then IdleReservations else LoadGeneration
    case IdleReservations => if s.reg.reservations == {} then IdleBoots else LoadGeneration
    case IdleBoots => if s.reg.boots == {} then IdleTasks else LoadGeneration
    case IdleTasks => if s.reg.tasks == {} then Leaving(IdleTimeout) else LoadGeneration
    case Leaving(why) => if why.StopRequested? || s.clients == map[] then TeardownServers(why) else s.pc
    case TeardownServers(why) => TeardownBoots(why)
    case TeardownBoots(why) => Gone(why)
    case Gone(_) => s.pc
  }

  /** Reaping takes out an expired server or bootstrap; the teardown empties the registries. */
  function RegAfter(s: State, n: Answer): Registries {
    match s.pc
    case ReapServers => if n.yes then s.reg.(servers := s.reg.servers - {n.name}) else s.reg
    case ReapBoots => if n.yes then s.reg.(boots := s.reg.boots - {n.name}) else s.reg.(reservations := {})
    case Leaving(_) => s.reg.(tasks := {})
    case TeardownServers(_) => s.reg.(servers := map[])
    case TeardownBoots(_) => s.reg.(boots := {}, reservations := {})
    case _ => s.reg
  }

  function LostAt(s: State): set<string> {
    match s.pc
    case Leaving(why) => if why.StopRequested? || s.clients == map[] then s.reg.tasks else {}
    case TeardownServers(_) => set x | x in s.reg.servers && !s.reg.servers[x].HandedOff?
    case TeardownBoots(_) => s.reg.boots
    case _ => {}
  }

  function ThreadStep(s: State, n: Answer): State {
    var accepted := s.pc.CountAccepted? && !n.yes && n.client !in s.clients;
    State(
      PcAfter(s, n), RegAfter(s, n),
      if accepted then s.clients[n.client := Serving] else s.clients,
      s.now, s.timeout,
      if s.pc.CountAccepted? then s.generation + 1 else s.generation,
      if s.pc.LoadGeneration? || s.pc.ReloadGeneration? then s.generation
      else if s.pc.CountAccepted? then s.generation + 1 else s.observed,
      if s.pc.Stamp? || s.pc.Restamp? || (s.pc.Accept? && n.yes) then s.now else s.last,
      if s.pc.Choose? then s.now >= s.last + s.timeout else s.idle,
      s.latestEnd, s.lost + LostAt(s),
      if s.pc.Stamp? || s.pc.Restamp? || (s.pc.Accept? && n.yes) then false
      else s.absorbed || (s.pc.CountAccepted? && !accepted && s.latestEnd > s.last))
  }

  // ---------------------------------------------------------------- the system

  function Next(s: State, ev: Event): State {
    match ev
    case Step(n) => ThreadStep(s, n)
    case ClientActs(c, reg) => if c in s.clients && s.clients[c].Serving? then s.(reg := reg) else s
    case ClientAnnounces(c) =>
      if c in s.clients && s.clients[c].Serving?
      then s.(clients := s.clients[c := Announced], generation := s.generation + 1, latestEnd := s.now) else s
    case ClientEnds(c) => if c in s.clients && s.clients[c].Announced? then s.(clients := s.clients - {c}) else s
    case TaskEnds(task) => s.(reg := s.reg.(tasks := s.reg.tasks - {task}))
    case Tick(millis) => s.(now := s.now + millis)
  }

  function Run(s: State, evs: seq<Event>): State {
    if evs == [] then s else Next(Run(s, evs[..|evs| - 1]), evs[|evs| - 1])
  }

  predicate Initial(s: State) {
    && s.pc.LoadGeneration? && s.clients == map[] && s.generation == 0 && s.observed == 0
    && s.last == s.now && s.latestEnd == 0 && s.lost == {} && !s.absorbed
  }

  // ---------------------------------------------------------------- what the exit checks guarantee

  predicate Quiet(why: Reason) { !why.StopRequested? }

  /** From the moment the main thread found no active client until it accepts again, there is none. */
  predicate Alone(pc: Pc) {
    match pc
    case ReloadGeneration => true
    case Restamp => true
    case Choose => true
    case DrainServers => true
    case DrainReservations => true
    case DrainBoots => true
    case DrainTasks => true
    case IdleStore => true
    case IdleServers => true
    case IdleReservations => true
    case IdleBoots => true
    case IdleTasks => true
    case Leaving(why) => Quiet(why)
    case TeardownServers(why) => Quiet(why)
    case TeardownBoots(why) => Quiet(why)
    case _ => false
  }

  /** What the checks passed so far say about the registries. */
  predicate Checked(pc: Pc, r: Registries) {
    match pc
    case DrainReservations => AllHandedOff(r.servers)
    case DrainBoots => AllHandedOff(r.servers) && r.reservations == {}
    case DrainTasks => AllHandedOff(r.servers) && r.reservations == {} && r.boots == {}
    case IdleReservations => r.servers == map[]
    case IdleBoots => r.servers == map[] && r.reservations == {}
    case IdleTasks => r.servers == map[] && r.reservations == {} && r.boots == {}
    case Leaving(why) => Quiet(why) ==>
      && AllHandedOff(r.servers) && (why.IdleTimeout? ==> r.servers == map[])
      && r.reservations == {} && r.boots == {} && r.tasks == {}
    case TeardownServers(why) => Quiet(why) ==> AllHandedOff(r.servers) && r.boots == {}
    case TeardownBoots(why) => Quiet(why) ==> r.boots == {}
    case _ => true
  }

  predicate Harmless(pc: Pc, lost: set<string>) {
    match pc
    case TeardownServers(why) => Quiet(why) ==> lost == {}
    case TeardownBoots(why) => Quiet(why) ==> lost == {}
    case Gone(why) => Quiet(why) ==> lost == {}
    case _ => lost == {}
  }

  predicate ExitInv(s: State) {
    && (Alone(s.pc) ==> s.clients == map[])
    && Checked(s.pc, s.reg)
    && Harmless(s.pc, s.lost)
  }

  lemma NextKeepsExitInv(s: State, ev: Event)
    requires ExitInv(s)
    ensures ExitInv(Next(s, ev))
  {
  }

  /** A daemon that leaves because it is idle, or because its handoff has drained, takes away no owned or adopted
      app-server, no bootstrap and no task, whatever its clients did on the way. */
  lemma {:induction false} QuietExitLosesNothing(s: State, evs: seq<Event>)
    requires Initial(s)
    ensures ExitInv(Run(s, evs))
    ensures var t := Run(s, evs);
            t.pc.Leaving? && !t.pc.why.StopRequested? ==>
              && t.clients == map[] && t.reg.reservations == {} && t.reg.boots == {} && t.reg.tasks == {}
              && (forall x :: x in t.reg.servers ==> t.pc.why.HandoffDrained? && t.reg.servers[x].HandedOff?)
    ensures Run(s, evs).pc.Gone? && Quiet(Run(s, evs).pc.why) ==> Run(s, evs).lost == {}
  {
    if evs != [] {
      QuietExitLosesNothing(s, evs[..|evs| - 1]);
      NextKeepsExitInv(Run(s, evs[..|evs| - 1]), evs[|evs| - 1]);
    }
  }

  // ---------------------------------------------------------------- when an idle daemon leaves

  /** Some client is still serving, or an announcement is still unseen, or the last one is accounted for. */
  predicate Accounted(s: State) {
    || s.latestEnd <= s.last
    || s.generation != s.observed
    || s.pc.Stamp? || s.pc.Restamp?
    || s.absorbed
    || exists c :: c in s.clients && s.clients[c].Serving?
  }

  predicate IdleInv(s: State) {
    && s.observed <= s.generation && s.latestEnd <= s.now && s.last <= s.now
    && Accounted(s) && (s.absorbed ==> s.latestEnd > s.last)
    && (Alone(s.pc) ==> s.clients == map[])
    && (SeenAll(s.pc) ==> s.latestEnd <= s.last || s.absorbed)
    && (IdleFound(s.pc) ==> s.now >= s.last + s.timeout)
    && (IdleKnown(s.pc) && s.idle ==> s.now >= s.last + s.timeout)
  }

  /** No client, and its generation read since. */
  predicate SeenAll(pc: Pc) { Alone(pc) && !pc.ReloadGeneration? && !pc.Restamp? }

  /** Between the comparison of the times and the use of its outcome. */
  predicate IdleKnown(pc: Pc) {
    pc.IdleStore? || pc.DrainServers? || pc.DrainReservations? || pc.DrainBoots? || pc.DrainTasks?
  }

  predicate IdleFound(pc: Pc) {
    || pc.IdleServers? || pc.IdleReservations? || pc.IdleBoots? || pc.IdleTasks?
    || pc == Leaving(IdleTimeout) || pc == TeardownServers(IdleTimeout) || pc == TeardownBoots(IdleTimeout)
  }

  lemma ThreadKeepsAccounted(s: State, n: Answer)
    requires IdleInv(s)
    ensures Accounted(ThreadStep(s, n))
  {
    var t := ThreadStep(s, n);
    if s.pc.CountAccepted? && !n.yes && n.client !in s.clients {
      assert n.client in t.clients && t.clients[n.client].Serving?;
    } else if c :| c in s.clients && s.clients[c].Serving? {
      assert c in t.clients;
    }
  }

  lemma OthersKeepAccounted(s: State, ev: Event)
    requires !ev.Step? && s.observed <= s.generation && Accounted(s)
    ensures Accounted(Next(s, ev))
  {
    if c :| c in s.clients && s.clients[c].Serving? && !(ev.ClientAnnounces? && ev.c == c) {
      assert c in Next(s, ev).clients;
    }
  }

  lemma NextKeepsIdleInv(s: State, ev: Event)
    requires IdleInv(s)
    ensures IdleInv(Next(s, ev))
  {
    if ev.Step? {
      ThreadKeepsAccounted(s, ev.n);
      ThreadKeepsBounds(s, ev.n);
    } else {
      OthersKeepAccounted(s, ev);
    }
  }

  lemma ThreadKeepsBounds(s: State, n: Answer)
    requires IdleInv(s) && Accounted(ThreadStep(s, n))
    ensures IdleInv(ThreadStep(s, n))
  {
  }

  lemma {:induction false} IdleInvOnAnyRun(s: State, evs: seq<Event>)
    requires Initial(s)
    ensures IdleInv(Run(s, evs))
  {
    if evs != [] {
      IdleInvOnAnyRun(s, evs[..|evs| - 1]);
      NextKeepsIdleInv(Run(s, evs[..|evs| - 1]), evs[|evs| - 1]);
    }
  }

  /** A daemon that leaves as idle has counted its timeout from the end of its last client or later exactly if no
      refused connection absorbed the announcement of that end after the last stamp; then a full timeout has passed
      since the client ended. */
  lemma IdleExitWaitsForTheLastClient(s: State, evs: seq<Event>)
    requires Initial(s) && Run(s, evs).pc == Leaving(IdleTimeout)
    ensures var t := Run(s, evs); t.now >= t.last + t.timeout
    ensures var t := Run(s, evs); t.latestEnd <= t.last <==> !t.absorbed
    ensures var t := Run(s, evs); !t.absorbed ==> t.now >= t.latestEnd + t.timeout
  {
    IdleInvOnAnyRun(s, evs);
  }

  // ---------------------------------------------------------------- a run in which an announcement is absorbed

  const NOTHING: Registries := Registries(map[], {}, {}, {}, false, false)

  /** A daemon with an idle timeout of 10, without any entry. */
  function StartAt(pc: Pc): State {
    State(pc, NOTHING, map[], 0, 10, 0, 0, 0, false, 0, {}, false)
  }

  /** After the only client announced its end at 5 and a refused connection absorbed it; it is 10 now. */
  function AbsorbedAt(pc: Pc, idle: bool): State {
    State(pc, NOTHING, map[], 10, 10, 3, 3, 0, idle, 5, {}, true)
  }

  ghost predicate Reached(evs: seq<Event>, t: State) {
    Run(StartAt(LoadGeneration), evs) == t
  }

  lemma Extend(evs: seq<Event>, here: State, ev: Event, there: State) returns (more: seq<Event>)
    requires Reached(evs, here) && Next(here, ev) == there
    ensures Reached(more, there)
  {
    more := evs + [ev];
    assert more[..|evs|] == evs;
  }

  /** A step of the main thread that changes nothing but its place. */
  predicate OnlyMoves(s: State, pc: Pc, yes: bool) {
    ThreadStep(s, Answer(yes, "", 0)) == s.(pc := pc)
  }

  lemma Move(evs: seq<Event>, here: State, yes: bool, pc: Pc) returns (more: seq<Event>)
    requires Reached(evs, here) && OnlyMoves(here, pc, yes)
    ensures Reached(more, here.(pc := pc))
  {
    more := Extend(evs, here, Step(Answer(yes, "", 0)), here.(pc := pc));
  }

  lemma OneClientServed() returns (evs: seq<Event>)
    ensures Reached(evs, StartAt(CountAccepted).(clients := map[0 := Serving], generation := 1, observed := 1))
  {
    evs := [];
    evs := Move(evs, StartAt(LoadGeneration), true, LoadStop);
    evs := Move(evs, StartAt(LoadStop), true, Accept);
    evs := Move(evs, StartAt(Accept), true, CountAccepted);
    var served := StartAt(LoadGeneration).(clients := map[0 := Serving], generation := 1, observed := 1);
    evs := Extend(evs, StartAt(CountAccepted), Step(Answer(false, "", 0)), served);
    evs := Move(evs, served, true, LoadStop);
    evs := Move(evs, served.(pc := LoadStop), true, Accept);
    evs := Move(evs, served.(pc := Accept), true, CountAccepted);
  }

  lemma EndAbsorbed() returns (evs: seq<Event>)
    ensures Reached(evs, AbsorbedAt(LoadGeneration, false))
  {
    evs := OneClientServed();
    var here := StartAt(CountAccepted).(clients := map[0 := Serving], generation := 1, observed := 1);
    evs := Extend(evs, here, Tick(5), here.(now := 5));
    here := here.(now := 5);
    var said := here.(clients := map[0 := Announced], generation := 2, latestEnd := 5);
    evs := Extend(evs, here, ClientAnnounces(0), said);
    var refused := said.(pc := LoadGeneration, generation := 3, observed := 3, absorbed := true);
    evs := Extend(evs, said, Step(Answer(true, "", 0)), refused);
    evs := Extend(evs, refused, ClientEnds(0), refused.(clients := map[]));
    evs := Extend(evs, refused.(clients := map[]), Tick(5), AbsorbedAt(LoadGeneration, false));
  }

  lemma NoClientLeft() returns (evs: seq<Event>)
    ensures Reached(evs, AbsorbedAt(ReloadGeneration, false))
  {
    evs := EndAbsorbed();
    evs := Move(evs, AbsorbedAt(LoadGeneration, false), true, LoadStop);
    evs := Move(evs, AbsorbedAt(LoadStop, false), true, Accept);
    evs := Move(evs, AbsorbedAt(Accept, false), false, ReapServers);
    evs := Move(evs, AbsorbedAt(ReapServers, false), false, ReapBoots);
    evs := Move(evs, AbsorbedAt(ReapBoots, false), false, LoadClients);
    evs := Move(evs, AbsorbedAt(LoadClients, false), true, ReloadGeneration);
  }

  lemma FoundIdle() returns (evs: seq<Event>)
    ensures Reached(evs, AbsorbedAt(IdleServers, true))
  {
    evs := NoClientLeft();
    evs := Move(evs, AbsorbedAt(ReloadGeneration, false), true, Choose);
    evs := Extend(evs, AbsorbedAt(Choose, false), Step(Answer(true, "", 0)), AbsorbedAt(IdleStore, true));
    evs := Move(evs, AbsorbedAt(IdleStore, true), true, IdleServers);
  }

  lemma NothingHeld() returns (evs: seq<Event>)
    ensures Reached(evs, AbsorbedAt(IdleTasks, true))
  {
    evs := FoundIdle();
    evs := Move(evs, AbsorbedAt(IdleServers, true), true, IdleReservations);
    evs := Move(evs, AbsorbedAt(IdleReservations, true), true, IdleBoots);
    evs := Move(evs, AbsorbedAt(IdleBoots, true), true, IdleTasks);
  }

  /** The exception is real: a client that announces its end between the stamp and the count of a connection that
      is then refused is forgotten, and the daemon leaves half a timeout after it. */
  lemma AbsorbedAnnouncementIsForgotten() returns (s: State, evs: seq<Event>)
    ensures Initial(s)
    ensures Run(s, evs).pc == Leaving(IdleTimeout) && Run(s, evs).now < Run(s, evs).latestEnd + s.timeout
  {
    evs := NothingHeld();
    s := StartAt(LoadGeneration);
    evs := Move(evs, AbsorbedAt(IdleTasks, true), true, Leaving(IdleTimeout));
  }
}
