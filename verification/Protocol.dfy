/** The handoff of CLI app-servers from the legacy daemon to generation daemons, as a transition system.

    A run is a list of events. Coordinator events are the calls of one handoff attempt, each with its fate on
    the wire; the other events are what the world does meanwhile: processes exit, leases run out, reapers and
    stop requests remove entries, daemons stop or leave quietly, new servers are registered. An event that is
    not possible in a state leaves the state as it is. Attempts follow one another in any number, each towards
    any generation daemon, one at a time. */
module Protocol {
  import opened Results
  import opened Registry

  const LEGACY: string := "default.sock"

  // ---------------------------------------------------------------- state

  datatype Proc = Proc(key: Key, identity: string)

  datatype Reason = AdoptFailed | ReleaseFailed | Elsewhere

  datatype Outcome = Committed | Skipped(reason: Reason) | NothingExported | NotQuiesced | Failed

  datatype Phase =
    | Finished(outcome: Outcome)
    | Starting
    | Adopting
    | Releasing
    | AskingStatus
    | Unadopting(why: Reason)
    | Unquiescing(why: Reason)

  /** `released` and `disturbed` record history: whether the release call took effect, and whether the world
      touched the exported servers or stopped one of the two daemons while the attempt was under way. */
  datatype Coordinator = Coordinator(phase: Phase, g: string, exports: seq<Export>, released: bool, disturbed: bool)

  /** `splitReaps` says whether reapers and stop requests may act on a proof collected earlier; `proofs` are those
      collected. */
  datatype Sys = Sys(
    daemons: map<string, View>,
    procs: map<nat, Proc>,
    alive: set<nat>,
    signalled: set<nat>,
    now: nat,
    co: Coordinator,
    splitReaps: bool,
    proofs: set<(string, Key)>)

  datatype Fate = Answered | ReplyLost | NeverArrived

  /** What the world does. */
  datatype Happening =
    | Tick(millis: nat)
    | NewDaemon(a: string)
    | Register(a: string, key: Key, identity: string, startedAt: int, ttl: nat)
    | Exit(pid: nat)
    | RemoveDead(a: string, x: string)
    | Reap(a: string, x: string)
    | CollectProof(a: string, x: string)
    | ActOnProof(a: string, key: Key)
    | StopServer(a: string, x: string)
    | Refresh(a: string, x: string, ttl: nat)
    | BootstrapsBecome(a: string, ids: set<string>)
    | StopDaemon(a: string)
    | QuietExit(a: string)

  /** What the coordinator of the current attempt does. */
  datatype Move =
    | Begin(g: string)
    | CallQuiesce(fate: Fate, listed: seq<Export>)
    | QuiesceOsError(bumped: set<string>)
    | GiveUp
    | CallAdopt(fate: Fate)
    | CallRelease(fate: Fate)
    | CallStatus(fate: Fate)
    | CallUnadopt(fate: Fate)
    | CallUnquiesce(fate: Fate)

  datatype Event = Outside(w: Happening) | Attempt(c: Move)

  predicate Answers(s: Sys, a: string) {
    a in s.daemons && !s.daemons[a].stopping
  }

  function LeaderOf(s: Sys): Probe {
    (pid: nat, identity: string) =>
      if pid in s.alive && pid in s.procs && s.procs[pid].identity == identity then Running else OtherProcess
  }

  function ChildOf(s: Sys): nat -> Child {
    (pid: nat) => if pid in s.alive && pid in s.procs then ChildRunning(Some(s.procs[pid].identity)) else ChildGone
  }

  function SetDaemon(s: Sys, a: string, d: View): Sys {
    s.(daemons := s.daemons[a := d])
  }

  function SetServers(s: Sys, a: string, servers: Servers): Sys
    requires a in s.daemons
  {
    SetDaemon(s, a, s.daemons[a].(servers := servers))
  }

  // ---------------------------------------------------------------- the world

  predicate HasEntry(s: Sys, a: string, x: string) {
    Answers(s, a) && x in s.daemons[a].servers
  }

  function EntryAt(s: Sys, a: string, x: string): Server
    requires HasEntry(s, a, x)
  {
    s.daemons[a].servers[x]
  }

  /** Takes an entry out of a registry and stops its process: an owned or adopted process is signalled, a
      handed-off one is only let go. */
  function Drop(s: Sys, a: string, x: string): Sys
    requires HasEntry(s, a, x)
  {
    var entry := EntryAt(s, a, x);
    var out := SetServers(s, a, s.daemons[a].servers - {x});
    if entry.holding.HandedOff? then out else out.(signalled := out.signalled + {entry.key.pid})
  }

  function LivePids(servers: Servers): set<nat> {
    set x | x in servers && !servers[x].holding.HandedOff? :: servers[x].key.pid
  }

  function Register1(s: Sys, a: string, key: Key, identity: string, startedAt: int, ttl: nat): Sys
    requires a in s.daemons
  {
    SetServers(s, a, s.daemons[a].servers[key.session := Server(key, startedAt, s.now + ttl, Owned)])
      .(procs := s.procs[key.pid := Proc(key, identity)], alive := s.alive + {key.pid})
  }

  predicate MayLeaveQuietly(d: View) {
    && d.bootstraps == {}
    && (d.quiescing || d.servers == map[])
    && forall x :: x in d.servers ==> d.servers[x].holding.HandedOff?
  }

  predicate Possible(s: Sys, w: Happening) {
    match w
    case NewDaemon(a) => a !in s.daemons && a != ""
    case Register(a, key, identity, _, ttl) =>
      && Answers(s, a) && !s.daemons[a].quiescing && ttl > 0
      && key.session !in s.daemons[a].servers && key.pid !in s.procs && key.pid !in s.alive && key.pid !in s.signalled
      && ValidKey(key) && identity != ""
    case RemoveDead(a, x) => HasEntry(s, a, x) && EntryAt(s, a, x).key.pid !in s.alive
    case Reap(a, x) => HasEntry(s, a, x) && EntryAt(s, a, x).expires <= s.now && !EntryAt(s, a, x).holding.HandedOff?
    case CollectProof(a, x) => s.splitReaps && HasEntry(s, a, x) && !EntryAt(s, a, x).holding.HandedOff?
    case ActOnProof(a, key) =>
      (a, key) in s.proofs && HasEntry(s, a, key.session) && EntryAt(s, a, key.session).key == key
    case StopServer(a, x) => HasEntry(s, a, x) && !EntryAt(s, a, x).holding.HandedOff?
    case Refresh(a, x, ttl) =>
      ttl > 0 && HasEntry(s, a, x) && !EntryAt(s, a, x).holding.HandedOff? && EntryAt(s, a, x).key.pid in s.alive
    case BootstrapsBecome(a, ids) => Answers(s, a) && (s.daemons[a].quiescing ==> ids <= s.daemons[a].bootstraps)
    case StopDaemon(a) => Answers(s, a)
    case QuietExit(a) => Answers(s, a) && MayLeaveQuietly(s.daemons[a])
    case _ => true
  }

  function World(s: Sys, w: Happening): Sys
    requires Possible(s, w)
  {
    match w
    case Tick(millis) => s.(now := s.now + millis)
    case NewDaemon(a) => SetDaemon(s, a, View(map[], false, false, {}))
    case Register(a, key, identity, startedAt, ttl) => Register1(s, a, key, identity, startedAt, ttl)
    case Exit(pid) => s.(alive := s.alive - {pid})
    case RemoveDead(a, x) => Drop(s, a, x)
    case Reap(a, x) => Drop(s, a, x)
    case CollectProof(a, x) => s.(proofs := s.proofs + {(a, EntryAt(s, a, x).key)})
    case ActOnProof(a, key) => Drop(s, a, key.session)
    case StopServer(a, x) => Drop(s, a, x)
    case Refresh(a, x, ttl) =>
      SetServers(s, a, s.daemons[a].servers[x := EntryAt(s, a, x).(expires := s.now + ttl)])
    case BootstrapsBecome(a, ids) => SetDaemon(s, a, s.daemons[a].(bootstraps := ids))
    case StopDaemon(a) =>
      SetDaemon(s, a, View(map[], s.daemons[a].quiescing, true, {}))
        .(signalled := s.signalled + LivePids(s.daemons[a].servers))
    case QuietExit(a) => SetDaemon(s, a, View(map[], s.daemons[a].quiescing, true, {}))
  }

  // ---------------------------------------------------------------- the coordinator

  datatype Decision = CommittedHere | RollbackUnreleased | RollbackElsewhere | Ambiguous

  /** Reads a release-status answer, for the daemon that was to take the servers over. */
  function Decide(rows: seq<Ownership>, target: string): Decision {
    if rows != [] && forall r :: r in rows ==> r == IsHandedOff(target) then CommittedHere
    else if rows != [] && forall r :: r in rows ==> r == IsOwned || r == IsMissing then RollbackUnreleased
    else if rows != [] && forall r :: r in rows ==> r.IsHandedOff? then RollbackElsewhere
    else Ambiguous
  }

  function StatusRows(servers: Servers, es: seq<Export>): seq<Ownership> {
    seq(|es|, i requires 0 <= i < |es| => StatusOf(servers, es[i]))
  }

  function Active(p: Phase): bool { !p.Finished? }

  function End(s: Sys, o: Outcome): Sys { s.(co := s.co.(phase := Finished(o))) }

  function Go(s: Sys, p: Phase): Sys { s.(co := s.co.(phase := p)) }

  ghost function ExtendLeases(servers: Servers, bumped: set<string>, now: nat): Servers {
    map x | x in servers ::
      if x in bumped && servers[x].expires > now
      then servers[x].(expires := now + Max(servers[x].expires - now, LEASE_FLOOR))
      else servers[x]
  }

  ghost function QuiesceStep(s: Sys, fate: Fate, listed: seq<Export>): Sys {
    if fate.NeverArrived? || !Answers(s, LEGACY) then End(s, Failed)
    else
      var d := s.daemons[LEGACY];
      if d.bootstraps != {} then End(s, if fate.Answered? then NotQuiesced else Failed)
      else if !ExportsExactly(listed, d.servers, d.servers.Keys, ChildOf(s), s.now) then s
      else
        var out := SetDaemon(s, LEGACY,
                     d.(quiescing := true, servers := ExtendLeases(d.servers, SessionsOf(listed), s.now)));
        if fate.ReplyLost? then End(out, Failed)
        else if listed == [] then End(out, NothingExported)
        else out.(co := Coordinator(Adopting, s.co.g, listed, false, false))
  }

  ghost predicate AdoptWorks(s: Sys) {
    Answers(s, s.co.g) && AdoptAllowed(s.daemons[s.co.g], LEGACY, s.co.exports, LeaderOf(s))
  }

  ghost function AdoptStep(s: Sys, fate: Fate): Sys {
    if fate.NeverArrived? || !AdoptWorks(s) then Go(s, Unadopting(AdoptFailed))
    else
      var out := SetServers(s, s.co.g, AdoptedServers(s.daemons[s.co.g].servers, LEGACY, s.co.exports, s.now));
      Go(out, if fate.Answered? then Releasing else Unadopting(AdoptFailed))
  }

  ghost predicate ReleaseWorks(s: Sys) {
    Answers(s, LEGACY) && ReleaseAllowed(s.daemons[LEGACY], s.co.g, s.co.exports)
  }

  ghost function ReleaseStep(s: Sys, fate: Fate): Sys {
    if fate.NeverArrived? || !ReleaseWorks(s) then Go(s, AskingStatus)
    else
      var out := SetServers(s, LEGACY, ReleasedServers(s.daemons[LEGACY].servers, s.co.g, s.co.exports, s.now))
                   .(co := s.co.(released := true));
      if fate.Answered? then End(out, Committed) else Go(out, AskingStatus)
  }

  ghost function StatusStep(s: Sys, fate: Fate): Sys {
    if !fate.Answered? || !Answers(s, LEGACY) || !StatusAllowed(s.daemons[LEGACY], s.co.g, s.co.exports) then
      End(s, Failed)
    else
      match Decide(StatusRows(s.daemons[LEGACY].servers, s.co.exports), s.co.g)
      case CommittedHere => End(s, Committed)
      case RollbackUnreleased => Go(s, Unadopting(ReleaseFailed))
      case RollbackElsewhere => Go(s, Unadopting(Elsewhere))
      case Ambiguous => End(s, Failed)
  }

  ghost predicate UnadoptWorks(s: Sys) {
    Answers(s, s.co.g) && UnadoptAllowed(s.daemons[s.co.g], LEGACY, s.co.exports)
  }

  ghost function UnadoptStep(s: Sys, fate: Fate): Sys
    requires s.co.phase.Unadopting?
  {
    if fate.NeverArrived? || !UnadoptWorks(s) then End(s, Failed)
    else
      var out := SetServers(s, s.co.g, s.daemons[s.co.g].servers - SessionsOf(s.co.exports));
      if !fate.Answered? || s.co.phase.why.Elsewhere? then End(out, Failed)
      else Go(out, Unquiescing(s.co.phase.why))
  }

  function UnquiesceStep(s: Sys, fate: Fate): Sys
    requires s.co.phase.Unquiescing?
  {
    if fate.NeverArrived? || !Answers(s, LEGACY) then End(s, Failed)
    else
      var out := SetDaemon(s, LEGACY, s.daemons[LEGACY].(quiescing := false));
      End(out, if fate.Answered? then Skipped(s.co.phase.why) else Failed)
  }

  /** A kernel query that fails during export: some leases are extended and the flag is put back. */
  ghost function QuiesceErrorStep(s: Sys, bumped: set<string>): Sys {
    if !Answers(s, LEGACY) then End(s, Failed)
    else
      var d := s.daemons[LEGACY];
      if d.bootstraps == {} && forall x :: x in bumped ==> x in d.servers && Exportable(d.servers[x], ChildOf(s), s.now)
      then End(SetServers(s, LEGACY, ExtendLeases(d.servers, bumped, s.now)), Failed)
      else s
  }

  /** The quiesce call does to the legacy daemon what its handler does, whether the reply arrives or not. */
  lemma QuiesceDoesAsTheHandler(s: Sys, fate: Fate, listed: seq<Export>)
    requires Answers(s, LEGACY) && s.daemons[LEGACY].bootstraps == {} && !fate.NeverArrived?
    requires ExportsExactly(listed, s.daemons[LEGACY].servers, s.daemons[LEGACY].servers.Keys, ChildOf(s), s.now)
    ensures var d, e := s.daemons[LEGACY], QuiesceStep(s, fate, listed).daemons[LEGACY];
            && OnlyLeasesExtended(d.servers, e.servers, SessionsOf(listed), s.now)
            && e == d.(servers := e.servers, quiescing := true)
  {
    var servers := s.daemons[LEGACY].servers;
    forall x | x in SessionsOf(listed) ensures x in servers && servers[x].expires > s.now {
      var e :| e in listed && e.key.session == x;
      assert ExportedFrom(e, servers, ChildOf(s), s.now);
    }
    hide ExportsExactly, SessionsOf, ChildOf;
  }

  /** And so does one whose export fails. */
  lemma FailedQuiesceDoesAsTheHandler(s: Sys, bumped: set<string>)
    requires Answers(s, LEGACY) && s.daemons[LEGACY].bootstraps == {}
    requires forall x :: x in bumped ==>
               x in s.daemons[LEGACY].servers && Exportable(s.daemons[LEGACY].servers[x], ChildOf(s), s.now)
    ensures var d, e := s.daemons[LEGACY], QuiesceErrorStep(s, bumped).daemons[LEGACY];
            && OnlyLeasesExtended(d.servers, e.servers, bumped, s.now)
            && e == d.(servers := e.servers)
  {
  }

  // ---------------------------------------------------------------- runs

  /** What the world leaves alone: the exported processes, their entries at both daemons, and the daemons. */
  ghost predicate Spares(s: Sys, t: Sys) {
    && (Answers(s, LEGACY) ==> Answers(t, LEGACY))
    && (Answers(s, s.co.g) ==> Answers(t, s.co.g))
    && (forall e :: e in s.co.exports && e.key.pid in s.alive ==> e.key.pid in t.alive)
    && (forall e ::
          e in s.co.exports && HasEntry(s, LEGACY, e.key.session) && EntryAt(s, LEGACY, e.key.session).key == e.key ==>
          SameEntry(s, t, LEGACY, e.key.session))
    && (forall e ::
          e in s.co.exports && HasEntry(s, s.co.g, e.key.session) && EntryAt(s, s.co.g, e.key.session).key == e.key ==>
          SameEntry(s, t, s.co.g, e.key.session))
  }

  ghost predicate SameEntry(s: Sys, t: Sys, a: string, x: string)
    requires HasEntry(s, a, x)
  {
    && HasEntry(t, a, x)
    && EntryAt(t, a, x).key == EntryAt(s, a, x).key
    && EntryAt(t, a, x).holding == EntryAt(s, a, x).holding
  }

  ghost function MoveNext(s: Sys, c: Move): Sys {
    match c
    case Begin(g) =>
      if Active(s.co.phase) || g == LEGACY || g == "" then s
      else s.(co := Coordinator(Starting, g, [], false, false))
    case CallQuiesce(fate, listed) => if s.co.phase.Starting? then QuiesceStep(s, fate, listed) else s
    case QuiesceOsError(bumped) => if s.co.phase.Starting? then QuiesceErrorStep(s, bumped) else s
    case GiveUp => if s.co.phase.Adopting? then End(s, Failed) else s
    case CallAdopt(fate) => if s.co.phase.Adopting? then AdoptStep(s, fate) else s
    case CallRelease(fate) => if s.co.phase.Releasing? then ReleaseStep(s, fate) else s
    case CallStatus(fate) => if s.co.phase.AskingStatus? then StatusStep(s, fate) else s
    case CallUnadopt(fate) => if s.co.phase.Unadopting? then UnadoptStep(s, fate) else s
    case CallUnquiesce(fate) => if s.co.phase.Unquiescing? then UnquiesceStep(s, fate) else s
  }

  ghost function WorldNext(s: Sys, w: Happening): Sys {
    if Possible(s, w) then
      var t := World(s, w);
      t.(co := s.co.(disturbed := s.co.disturbed || !Spares(s, t)))
    else s
  }

  ghost function Next(s: Sys, ev: Event): Sys {
    match ev
    case Outside(w) => WorldNext(s, w)
    case Attempt(c) => MoveNext(s, c)
  }

  ghost function Run(s: Sys, evs: seq<Event>): Sys {
    if evs == [] then s else Next(Run(s, evs[..|evs| - 1]), evs[|evs| - 1])
  }

  function Init(splitReaps: bool): Sys {
    Sys(map[], map[], {}, {}, 0, Coordinator(Finished(Failed), "none", [], false, false), splitReaps, {})
  }
}
