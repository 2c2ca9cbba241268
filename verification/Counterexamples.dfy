/** Two concrete runs: why the safety theorem needs its assumption on reapers, and how a later attempt can be
    stuck behind the leftovers of an earlier one. */
module Counterexamples {
  import opened Results
  import opened Registry
  import opened Protocol
  import opened Safety
  import opened Recovery

  const G: string := "generation.sock"

  function KeyOf(session: string, pid: nat): Key {
    Key(session, "thread", 1, Url("ws://127.0.0.1:1", true), pid, "lease")
  }

  function ProcOf(session: string, pid: nat): Proc { Proc(KeyOf(session, pid), "identity") }

  function ExportAt(session: string, pid: nat, leaseMillis: nat): Export {
    Export(KeyOf(session, pid), "identity", 0, leaseMillis)
  }

  function OwnedEntry(session: string, pid: nat, expires: nat): Server {
    Server(KeyOf(session, pid), 0, expires, Owned)
  }

  function AdoptedEntry(session: string, pid: nat, expires: nat): Server {
    Server(KeyOf(session, pid), 0, expires, Adopted("identity", LEGACY))
  }

  /** A system with the legacy daemon and one generation daemon, whose live processes were never signalled. */
  datatype Picture = Picture(split: bool, proofs: set<(string, Key)>, procs: map<nat, Proc>, alive: set<nat>, now: nat,
                             legacy: Servers, closed: bool, other: Servers, phase: Phase, es: seq<Export>)

  ghost predicate Shows(s: Sys, p: Picture) {
    && s.daemons == map[LEGACY := View(p.legacy, p.closed, false, {}), G := View(p.other, false, false, {})]
    && s.procs == p.procs && s.alive == p.alive && s.signalled <= p.procs.Keys - p.alive && s.now == p.now
    && s.co.phase == p.phase && (Active(p.phase) ==> s.co.g == G && s.co.exports == p.es)
    && s.splitReaps == p.split && s.proofs == p.proofs
  }

  /** Some run from the empty system shows the picture. */
  ghost predicate Reached(evs: seq<Event>, p: Picture) {
    Shows(Run(Init(p.split), evs), p)
  }

  lemma Extend(evs: seq<Event>, p: Picture, ev: Event, q: Picture) returns (more: seq<Event>)
    requires Reached(evs, p) && q.split == p.split
    requires Shows(Next(Run(Init(p.split), evs), ev), q)
    ensures Reached(more, q)
  {
    more := evs + [ev];
    assert more[..|evs|] == evs;
  }

  // ---------------------------------------------------------------- single steps between pictures

  lemma TwoDaemons(split: bool)
    ensures Shows(Next(Next(Init(split), Outside(NewDaemon(LEGACY))), Outside(NewDaemon(G))),
                  Picture(split, {}, map[], {}, 0, map[], false, map[], Finished(Failed), []))
  {
    var s := Next(Init(split), Outside(NewDaemon(LEGACY)));
    assert s.daemons == map[LEGACY := View(map[], false, false, {})];
  }

  lemma RunOfTwo(s: Sys, first: Event, second: Event)
    ensures Run(s, [first, second]) == Next(Next(s, first), second)
  {
    hide Next;
    assert [first, second][..1] == [first] && [first][..0] == [];
    assert Run(s, [first]) == Next(Run(s, []), first);
  }

  lemma Boot(split: bool) returns (evs: seq<Event>)
    ensures Reached(evs, Picture(split, {}, map[], {}, 0, map[], false, map[], Finished(Failed), []))
  {
    hide Run, Next;
    evs := [Outside(NewDaemon(LEGACY)), Outside(NewDaemon(G))];
    RunOfTwo(Init(split), evs[0], evs[1]);
    TwoDaemons(split);
  }

  lemma LaunchShows(s: Sys, p: Picture, session: string, pid: nat, ttl: nat)
    requires Shows(s, p) && !p.closed && session != "" && session !in p.legacy && pid > 0 && ttl > 0
    requires pid !in p.procs && pid !in p.alive
    ensures Shows(WorldNext(s, Register(LEGACY, KeyOf(session, pid), "identity", 0, ttl)),
                  p.(procs := p.procs[pid := ProcOf(session, pid)], alive := p.alive + {pid},
                     legacy := p.legacy[session := OwnedEntry(session, pid, p.now + ttl)]))
  {
  }

  lemma Launch(evs: seq<Event>, p: Picture, session: string, pid: nat, ttl: nat) returns (more: seq<Event>)
    requires Reached(evs, p) && !p.closed && session != "" && session !in p.legacy && pid > 0 && ttl > 0
    requires pid !in p.procs && pid !in p.alive
    ensures Reached(more, p.(procs := p.procs[pid := ProcOf(session, pid)], alive := p.alive + {pid},
                             legacy := p.legacy[session := OwnedEntry(session, pid, p.now + ttl)]))
  {
    hide Run;
    LaunchShows(Run(Init(p.split), evs), p, session, pid, ttl);
    more := Extend(evs, p, Outside(Register(LEGACY, KeyOf(session, pid), "identity", 0, ttl)),
                   p.(procs := p.procs[pid := ProcOf(session, pid)], alive := p.alive + {pid},
                      legacy := p.legacy[session := OwnedEntry(session, pid, p.now + ttl)]));
  }

  lemma Start(evs: seq<Event>, p: Picture) returns (more: seq<Event>)
    requires Reached(evs, p) && p.phase.Finished?
    ensures Reached(more, p.(phase := Starting, es := []))
  {
    hide Run;
    more := Extend(evs, p, Attempt(Begin(G)), p.(phase := Starting, es := []));
  }

  function ChildIn(p: Picture): nat -> Child {
    (pid: nat) => if pid in p.alive && pid in p.procs then ChildRunning(Some(p.procs[pid].identity)) else ChildGone
  }

  lemma QuiesceShows(s: Sys, p: Picture, es: seq<Export>)
    requires Shows(s, p) && p.phase.Starting? && es != []
    requires ExportsExactly(es, p.legacy, p.legacy.Keys, ChildIn(p), p.now)
    ensures Shows(QuiesceStep(s, Answered, es),
                  p.(phase := Adopting, es := es, closed := true,
                     legacy := ExtendLeases(p.legacy, SessionsOf(es), p.now)))
  {
    hide ExtendLeases, SessionsOf;
    assert ChildOf(s) == ChildIn(p);
  }

  lemma Close(evs: seq<Event>, p: Picture, es: seq<Export>) returns (more: seq<Event>)
    requires Reached(evs, p) && p.phase.Starting? && es != []
    requires ExportsExactly(es, p.legacy, p.legacy.Keys, ChildIn(p), p.now)
    ensures Reached(more, p.(phase := Adopting, es := es, closed := true,
                             legacy := ExtendLeases(p.legacy, SessionsOf(es), p.now)))
  {
    hide Run;
    QuiesceShows(Run(Init(p.split), evs), p, es);
    more := Extend(evs, p, Attempt(CallQuiesce(Answered, es)),
      p.(phase := Adopting, es := es, closed := true, legacy := ExtendLeases(p.legacy, SessionsOf(es), p.now)));
  }

  /** Every export is well formed, and its process runs. */
  ghost predicate Adoptable(p: Picture) {
    && ValidExports(p.es)
    && (forall e :: e in p.es ==>
          e.key.pid in p.alive && e.key.pid in p.procs && p.procs[e.key.pid].identity == e.pidIdentity)
    && (forall e :: e in p.es ==> e.key.session !in p.other)
  }

  lemma AdoptShows(s: Sys, p: Picture, fate: Fate)
    requires Shows(s, p) && p.phase.Adopting? && !fate.NeverArrived? && Adoptable(p)
    ensures Shows(AdoptStep(s, fate), p.(phase := if fate.Answered? then Releasing else Unadopting(AdoptFailed),
                                         other := AdoptedServers(p.other, LEGACY, p.es, p.now)))
  {
    assert AdoptWorks(s);
  }

  lemma Take(evs: seq<Event>, p: Picture, fate: Fate) returns (more: seq<Event>)
    requires Reached(evs, p) && p.phase.Adopting? && !fate.NeverArrived? && Adoptable(p)
    ensures Reached(more, p.(phase := if fate.Answered? then Releasing else Unadopting(AdoptFailed),
                             other := AdoptedServers(p.other, LEGACY, p.es, p.now)))
  {
    hide Run;
    AdoptShows(Run(Init(p.split), evs), p, fate);
    more := Extend(evs, p, Attempt(CallAdopt(fate)),
                   p.(phase := if fate.Answered? then Releasing else Unadopting(AdoptFailed),
                                         other := AdoptedServers(p.other, LEGACY, p.es, p.now)));
  }

  /** Unadoption of whatever the generation daemon holds of the exports. */
  lemma GiveBack(evs: seq<Event>, p: Picture) returns (more: seq<Event>)
    requires Reached(evs, p) && p.phase.Unadopting? && !p.phase.why.Elsewhere? && ValidExports(p.es)
    requires forall e :: e in p.es && e.key.session in p.other ==> Unadoptable(p.other[e.key.session], LEGACY, e)
    ensures Reached(more, p.(phase := Unquiescing(p.phase.why), other := p.other - SessionsOf(p.es)))
  {
    hide Run;
    assert UnadoptWorks(Run(Init(p.split), evs));
    more := Extend(evs, p, Attempt(CallUnadopt(Answered)),
                   p.(phase := Unquiescing(p.phase.why), other := p.other - SessionsOf(p.es)));
  }

  lemma Wait(evs: seq<Event>, p: Picture, millis: nat) returns (more: seq<Event>)
    requires Reached(evs, p)
    ensures Reached(more, p.(now := p.now + millis))
  {
    hide Run;
    more := Extend(evs, p, Outside(Tick(millis)), p.(now := p.now + millis));
  }

  lemma Note(evs: seq<Event>, p: Picture, x: string) returns (more: seq<Event>)
    requires Reached(evs, p) && p.split && x in p.legacy && p.legacy[x].expires <= p.now && p.legacy[x].holding.Owned?
    ensures Reached(more, p.(proofs := p.proofs + {(LEGACY, p.legacy[x].key)}))
  {
    hide Run;
    more := Extend(evs, p, Outside(CollectProof(LEGACY, x)), p.(proofs := p.proofs + {(LEGACY, p.legacy[x].key)}));
  }

  lemma LoseRelease(evs: seq<Event>, p: Picture) returns (more: seq<Event>)
    requires Reached(evs, p) && p.phase.Releasing? && p.closed && ValidExports(p.es)
    requires forall e :: e in p.es ==> e.key.session in p.legacy && Releasable(p.legacy[e.key.session], G, e)
    ensures Reached(more, p.(phase := AskingStatus, legacy := ReleasedServers(p.legacy, G, p.es, p.now)))
  {
    hide Run;
    assert ReleaseWorks(Run(Init(p.split), evs));
    more := Extend(evs, p, Attempt(CallRelease(ReplyLost)),
                   p.(phase := AskingStatus, legacy := ReleasedServers(p.legacy, G, p.es, p.now)));
  }

  lemma LetGoShows(s: Sys, p: Picture, key: Key)
    requires Shows(s, p) && (LEGACY, key) in p.proofs && key.session in p.legacy
    requires p.legacy[key.session].key == key && p.legacy[key.session].holding.HandedOff?
    ensures Shows(WorldNext(s, ActOnProof(LEGACY, key)), p.(legacy := p.legacy - {key.session}))
  {
    assert HasEntry(s, LEGACY, key.session);
  }

  lemma LetGo(evs: seq<Event>, p: Picture, key: Key) returns (more: seq<Event>)
    requires Reached(evs, p) && (LEGACY, key) in p.proofs && key.session in p.legacy
    requires p.legacy[key.session].key == key && p.legacy[key.session].holding.HandedOff?
    ensures Reached(more, p.(legacy := p.legacy - {key.session}))
  {
    hide Run;
    LetGoShows(Run(Init(p.split), evs), p, key);
    more := Extend(evs, p, Outside(ActOnProof(LEGACY, key)), p.(legacy := p.legacy - {key.session}));
  }

  lemma HearMissing(evs: seq<Event>, p: Picture, e: Export) returns (more: seq<Event>)
    requires Reached(evs, p) && p.phase.AskingStatus? && p.es == [e] && ValidExport(e) && e.key.session !in p.legacy
    ensures Reached(more, p.(phase := Unadopting(ReleaseFailed)))
  {
    hide Run;
    OneExport(e);
    var rows := StatusRows(p.legacy, p.es);
    assert rows == [IsMissing] && rows[0] in rows;
    assert StatusAllowed(View(p.legacy, p.closed, false, {}), G, p.es);
    more := Extend(evs, p, Attempt(CallStatus(Answered)), p.(phase := Unadopting(ReleaseFailed)));
  }

  lemma Die(evs: seq<Event>, p: Picture, pid: nat) returns (more: seq<Event>)
    requires Reached(evs, p) && pid in p.procs
    ensures Reached(more, p.(alive := p.alive - {pid}))
  {
    hide Run;
    more := Extend(evs, p, Outside(Exit(pid)), p.(alive := p.alive - {pid}));
  }

  lemma SweepShows(s: Sys, p: Picture, x: string)
    requires Shows(s, p) && x in p.legacy && p.legacy[x].key.pid !in p.alive && p.legacy[x].key.pid in p.procs
    ensures Shows(WorldNext(s, RemoveDead(LEGACY, x)), p.(legacy := p.legacy - {x}))
  {
    assert HasEntry(s, LEGACY, x);
  }

  lemma Sweep(evs: seq<Event>, p: Picture, x: string) returns (more: seq<Event>)
    requires Reached(evs, p) && x in p.legacy && p.legacy[x].key.pid !in p.alive && p.legacy[x].key.pid in p.procs
    ensures Reached(more, p.(legacy := p.legacy - {x}))
  {
    hide Run;
    SweepShows(Run(Init(p.split), evs), p, x);
    more := Extend(evs, p, Outside(RemoveDead(LEGACY, x)), p.(legacy := p.legacy - {x}));
  }

  lemma MissAdopt(evs: seq<Event>, p: Picture) returns (more: seq<Event>)
    requires Reached(evs, p) && p.phase.Adopting?
    ensures Reached(more, p.(phase := Unadopting(AdoptFailed)))
  {
    hide Run;
    more := Extend(evs, p, Attempt(CallAdopt(NeverArrived)), p.(phase := Unadopting(AdoptFailed)));
  }

  lemma MissUnadopt(evs: seq<Event>, p: Picture) returns (more: seq<Event>)
    requires Reached(evs, p) && p.phase.Unadopting?
    ensures Reached(more, p.(phase := Finished(Failed)))
  {
    hide Run;
    more := Extend(evs, p, Attempt(CallUnadopt(NeverArrived)), p.(phase := Finished(Failed)));
  }

  lemma Reopen(evs: seq<Event>, p: Picture) returns (more: seq<Event>)
    requires Reached(evs, p) && p.phase.Unquiescing?
    ensures Reached(more, p.(phase := Finished(Skipped(p.phase.why)), closed := false))
  {
    hide Run;
    more := Extend(evs, p, Attempt(CallUnquiesce(Answered)),
                   p.(phase := Finished(Skipped(p.phase.why)), closed := false));
  }

  // ---------------------------------------------------------------- a reaper that acts late

  const S1: map<nat, Proc> := map[1 := ProcOf("s", 1)]

  lemma OneExport(e: Export)
    ensures SessionsOf([e]) == {e.key.session} && ExportFor([e], e.key.session) == e && DistinctSessions([e])
    ensures forall f :: f in [e] <==> f == e
  {
    assert e in [e];
  }

  function Leased(session: string, pid: nat): Servers { map[session := OwnedEntry(session, pid, 60_000)] }

  function Taken(session: string, pid: nat): Servers { map[session := AdoptedEntry(session, pid, 60_000)] }

  lemma ClosedOnce() returns (evs: seq<Event>)
    ensures Reached(evs, Picture(true, {}, S1, {1}, 0, Leased("s", 1), true, map[], Adopting, [ExportAt("s", 1, 1000)]))
  {
    hide Reached;
    var e := ExportAt("s", 1, 1000);
    OneExport(e);
    evs := Boot(true);
    var p := Picture(true, {}, map[], {}, 0, map[], false, map[], Finished(Failed), []);
    evs := Launch(evs, p, "s", 1, 1000);
    p := p.(procs := p.procs[1 := ProcOf("s", 1)], alive := p.alive + {1},
            legacy := p.legacy["s" := OwnedEntry("s", 1, 1000)]);
    assert p.procs == S1 && p.alive == {1} && p.legacy == map["s" := OwnedEntry("s", 1, 1000)];
    evs := Start(evs, p);
    p := p.(phase := Starting, es := []);
    assert ExportsExactly([e], p.legacy, p.legacy.Keys, ChildIn(p), 0);
    evs := Close(evs, p, [e]);
    assert ExtendLeases(p.legacy, {"s"}, 0) == Leased("s", 1);
  }

  lemma AdoptedOnce() returns (evs: seq<Event>)
    ensures Reached(evs, Picture(true, {}, S1, {1}, 0, Leased("s", 1), true, Taken("s", 1), Releasing,
                                 [ExportAt("s", 1, 1000)]))
  {
    hide Reached;
    OneExport(ExportAt("s", 1, 1000));
    evs := ClosedOnce();
    var p := Picture(true, {}, S1, {1}, 0, Leased("s", 1), true, map[], Adopting, [ExportAt("s", 1, 1000)]);
    evs := Take(evs, p, Answered);
    assert AdoptedServers(p.other, LEGACY, p.es, p.now) == Taken("s", 1);
  }

  function Passed(): Servers { map["s" := Server(KeyOf("s", 1), 0, 120_000, HandedOff("identity", G))] }

  /** The legacy lease runs out, a reaper notes the server down, and then the release takes effect. */
  lemma ReleasedBehindTheReaper() returns (evs: seq<Event>)
    ensures Reached(evs, Picture(true, {(LEGACY, KeyOf("s", 1))}, S1, {1}, 60_000, Passed(), true,
                                 Taken("s", 1), AskingStatus, [ExportAt("s", 1, 1000)]))
  {
    hide Reached;
    var e := ExportAt("s", 1, 1000);
    OneExport(e);
    evs := AdoptedOnce();
    var p := Picture(true, {}, S1, {1}, 0, Leased("s", 1), true, Taken("s", 1), Releasing, [e]);
    evs := Wait(evs, p, 60_000);
    p := p.(now := 60_000);
    evs := Note(evs, p, "s");
    p := p.(proofs := {} + {(LEGACY, KeyOf("s", 1))});
    assert p.proofs == {(LEGACY, KeyOf("s", 1))};
    evs := LoseRelease(evs, p);
    assert ReleasedServers(p.legacy, G, [e], 60_000) == Passed();
  }

  /** The late reaper lets the handed-off entry go, the status query reports the server missing, the coordinator
      rolls back, and a live process is left that nobody holds. Without split reaps no run does this. */
  lemma SplitReapsCanOrphan() returns (evs: seq<Event>)
    ensures !NoOrphan(Run(Init(true), evs))
  {
    var e := ExportAt("s", 1, 1000);
    OneExport(e);
    evs := ReleasedBehindTheReaper();
    var p := Picture(true, {(LEGACY, KeyOf("s", 1))}, S1, {1}, 60_000, Passed(), true, Taken("s", 1), AskingStatus,
                     [e]);
    evs := LetGo(evs, p, KeyOf("s", 1));
    p := p.(legacy := p.legacy - {"s"});
    evs := HearMissing(evs, p, e);
    p := p.(phase := Unadopting(ReleaseFailed));
    evs := GiveBack(evs, p);
    NobodyHolds(evs, p.(phase := Unquiescing(ReleaseFailed), other := p.other - {"s"}), 1);
  }

  lemma NobodyHolds(evs: seq<Event>, p: Picture, pid: nat)
    requires Reached(evs, p) && pid in p.procs && pid in p.alive
    requires p.procs[pid].key.session !in p.legacy && p.procs[pid].key.session !in p.other
    ensures !NoOrphan(Run(Init(p.split), evs))
  {
    var s := Run(Init(p.split), evs);
    assert pid in s.procs && !Held(s, s.procs[pid].key);
  }

  // ---------------------------------------------------------------- leftovers of an earlier attempt

  const S12: map<nat, Proc> := map[1 := ProcOf("s", 1), 2 := ProcOf("t", 2)]

  lemma TwoExports(e: Export, f: Export)
    requires e.key.session != f.key.session
    ensures SessionsOf([e, f]) == {e.key.session, f.key.session} && DistinctSessions([e, f])
    ensures ExportFor([e, f], e.key.session) == e && ExportFor([e, f], f.key.session) == f
    ensures forall x :: x in [e, f] <==> x == e || x == f
  {
    assert e in [e, f] && f in [e, f];
    ExportForIs([e, f], e);
    ExportForIs([e, f], f);
  }

  lemma TwoListed(servers: Servers, e: Export, f: Export, child: nat -> Child, now: nat)
    requires e.key.session != f.key.session && servers.Keys == {e.key.session, f.key.session}
    requires ExportedFrom(e, servers, child, now) && ExportedFrom(f, servers, child, now)
    ensures ExportsExactly([e, f], servers, servers.Keys, child, now)
  {
    TwoExports(e, f);
  }

  function Both(s: Servers, t: Servers): Servers { s + t }

  lemma LaunchedTwo() returns (evs: seq<Event>)
    ensures Reached(evs, Picture(false, {}, S12, {1, 2}, 0,
                                 map["s" := OwnedEntry("s", 1, 1000), "t" := OwnedEntry("t", 2, 1000)],
                                 false, map[], Starting, []))
  {
    hide Reached;
    evs := Boot(false);
    var p := Picture(false, {}, map[], {}, 0, map[], false, map[], Finished(Failed), []);
    evs := Launch(evs, p, "s", 1, 1000);
    p := p.(procs := p.procs[1 := ProcOf("s", 1)], alive := p.alive + {1},
            legacy := p.legacy["s" := OwnedEntry("s", 1, 1000)]);
    evs := Launch(evs, p, "t", 2, 1000);
    p := p.(procs := p.procs[2 := ProcOf("t", 2)], alive := p.alive + {2},
            legacy := p.legacy["t" := OwnedEntry("t", 2, 1000)]);
    evs := Start(evs, p);
    assert p.procs == S12 && p.alive == {1, 2};
  }

  lemma ClosedTwo() returns (evs: seq<Event>)
    ensures Reached(evs, Picture(false, {}, S12, {1, 2}, 0, Both(Leased("s", 1), Leased("t", 2)), true, map[],
                                 Adopting, [ExportAt("s", 1, 1000), ExportAt("t", 2, 1000)]))
  {
    hide Reached;
    var e, f := ExportAt("s", 1, 1000), ExportAt("t", 2, 1000);
    TwoExports(e, f);
    evs := LaunchedTwo();
    var p := Picture(false, {}, S12, {1, 2}, 0, map["s" := OwnedEntry("s", 1, 1000), "t" := OwnedEntry("t", 2, 1000)],
                     false, map[], Starting, []);
    TwoListed(p.legacy, e, f, ChildIn(p), 0);
    evs := Close(evs, p, [e, f]);
    assert ExtendLeases(p.legacy, {"s", "t"}, 0) == Both(Leased("s", 1), Leased("t", 2));
  }

  lemma TakenUnseen() returns (evs: seq<Event>)
    ensures Reached(evs, Picture(false, {}, S12, {1, 2}, 0, Both(Leased("s", 1), Leased("t", 2)), true,
                                 Both(Taken("s", 1), Taken("t", 2)), Unadopting(AdoptFailed),
                                 [ExportAt("s", 1, 1000), ExportAt("t", 2, 1000)]))
  {
    hide Reached;
    var e, f := ExportAt("s", 1, 1000), ExportAt("t", 2, 1000);
    TwoExports(e, f);
    evs := ClosedTwo();
    evs := Take(evs, Picture(false, {}, S12, {1, 2}, 0, Both(Leased("s", 1), Leased("t", 2)), true, map[], Adopting,
                             [e, f]), ReplyLost);
    assert AdoptedServers(map[], LEGACY, [e, f], 0) == Both(Taken("s", 1), Taken("t", 2));
  }

  /** The adopt call takes effect unseen and the unadopt call never arrives: the attempt fails. Then the first
      process exits and its legacy entry is removed; the generation daemon still lists it. */
  lemma LeftBehind() returns (evs: seq<Event>)
    ensures Reached(evs, Picture(false, {}, S12, {2}, 0, Leased("t", 2), true, Both(Taken("s", 1), Taken("t", 2)),
                                 Finished(Failed), [ExportAt("s", 1, 1000), ExportAt("t", 2, 1000)]))
  {
    hide Reached;
    evs := TakenUnseen();
    var p := Picture(false, {}, S12, {1, 2}, 0, Both(Leased("s", 1), Leased("t", 2)), true,
                     Both(Taken("s", 1), Taken("t", 2)),
                     Unadopting(AdoptFailed), [ExportAt("s", 1, 1000), ExportAt("t", 2, 1000)]);
    evs := MissUnadopt(evs, p);
    p := p.(phase := Finished(Failed));
    evs := Die(evs, p, 1);
    p := p.(alive := p.alive - {1});
    evs := Sweep(evs, p, "s");
    assert p.legacy - {"s"} == Leased("t", 2) && p.alive == {2};
  }

  lemma SecondAttemptCloses() returns (evs: seq<Event>)
    ensures Reached(evs, Picture(false, {}, S12, {2}, 0, Leased("t", 2), true, Both(Taken("s", 1), Taken("t", 2)),
                                 Adopting, [ExportAt("t", 2, 60_000)]))
  {
    hide Reached;
    var f := ExportAt("t", 2, 60_000);
    OneExport(f);
    evs := LeftBehind();
    var p := Picture(false, {}, S12, {2}, 0, Leased("t", 2), true, Both(Taken("s", 1), Taken("t", 2)), Finished(Failed),
                     [ExportAt("s", 1, 1000), ExportAt("t", 2, 1000)]);
    evs := Start(evs, p);
    p := p.(phase := Starting, es := []);
    assert ExportsExactly([f], p.legacy, p.legacy.Keys, ChildIn(p), 0);
    evs := Close(evs, p, [f]);
    assert ExtendLeases(p.legacy, {"t"}, 0) == Leased("t", 2);
  }

  /** A second attempt, for the other server only, fails at adoption and rolls back properly: the legacy daemon
      takes new work again, and the stale entry stays. */
  lemma SecondAttemptSkips() returns (evs: seq<Event>)
    ensures Reached(evs, Picture(false, {}, S12, {2}, 0, Leased("t", 2), false, Taken("s", 1),
                                 Finished(Skipped(AdoptFailed)), [ExportAt("t", 2, 60_000)]))
  {
    hide Reached;
    var f := ExportAt("t", 2, 60_000);
    OneExport(f);
    evs := SecondAttemptCloses();
    var p := Picture(false, {}, S12, {2}, 0, Leased("t", 2), true, Both(Taken("s", 1), Taken("t", 2)), Adopting, [f]);
    evs := MissAdopt(evs, p);
    p := p.(phase := Unadopting(AdoptFailed));
    evs := GiveBack(evs, p);
    assert p.other - {"t"} == Taken("s", 1);
    evs := Reopen(evs, p.(phase := Unquiescing(AdoptFailed), other := Taken("s", 1)));
  }

  function Back(): Servers { map["t" := OwnedEntry("t", 2, 60_000), "s" := OwnedEntry("s", 3, 60_000)] }

  lemma Relaunched() returns (evs: seq<Event>)
    ensures Reached(evs, Picture(false, {}, S12[3 := ProcOf("s", 3)], {2, 3}, 0, Back(), false, Taken("s", 1),
                                 Finished(Skipped(AdoptFailed)), [ExportAt("t", 2, 60_000)]))
  {
    hide Reached;
    evs := SecondAttemptSkips();
    var p := Picture(false, {}, S12, {2}, 0, Leased("t", 2), false, Taken("s", 1), Finished(Skipped(AdoptFailed)),
                     [ExportAt("t", 2, 60_000)]);
    evs := Launch(evs, p, "s", 3, 60_000);
    assert p.legacy["s" := OwnedEntry("s", 3, 60_000)] == Back() && p.alive + {3} == {2, 3};
  }

  /** The first session comes back with a new process; now no attempt can succeed, although nothing fails any
      more and the generation daemon never owned a session of its own. */
  lemma StaleAdoptionBlocksRecovery() returns (evs: seq<Event>, listed: seq<Export>)
    ensures var s := Run(Init(false), evs);
      && Inv(s) && Ready(s, G, listed) && !Compatible(s, G)
      && Moves(s, CleanAttempt(G, listed)).co.phase !in {Finished(Committed), Finished(NothingExported)}
  {
    evs := Relaunched();
    var s := Run(Init(false), evs);
    listed := [ExportAt("s", 3, 60_000), ExportAt("t", 2, 60_000)];
    TwoListed(Back(), listed[0], listed[1], ChildOf(s), 0);
    assert !Agrees(s, G, "s");
    AtomicReapsAreTimely(evs);
    EveryRunIsSafe(false, evs);
    CleanAttemptSucceedsIff(s, G, listed);
  }
}
