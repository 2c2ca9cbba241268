/** No app-server is orphaned by a handoff: the inductive invariant and the safety theorems over all runs. */
module Safety {
  import opened Registry
  import opened Protocol

  // ---------------------------------------------------------------- the property

  /** A daemon that answers holds the process behind `key` and is responsible for stopping it. */
  predicate Holds(d: View, key: Key) {
    && !d.stopping
    && key.session in d.servers
    && d.servers[key.session].key == key
    && !d.servers[key.session].holding.HandedOff?
  }

  ghost predicate Held(s: Sys, key: Key) {
    exists a :: a in s.daemons && Holds(s.daemons[a], key)
  }

  /** Every registered process that is alive and was never signalled is owned or adopted somewhere. */
  ghost predicate NoOrphan(s: Sys) {
    forall p :: p in s.procs && p in s.alive && p !in s.signalled ==> Held(s, s.procs[p].key)
  }

  // ---------------------------------------------------------------- the invariant

  ghost predicate GoodEntry(s: Sys, a: string, x: string)
    requires a in s.daemons && x in s.daemons[a].servers
  {
    var sv := s.daemons[a].servers[x];
    && sv.key.session == x && ValidKey(sv.key)
    && sv.key.pid in s.procs && s.procs[sv.key.pid].key == sv.key
    && (if a == LEGACY then !sv.holding.Adopted? else !sv.holding.HandedOff?)
  }

  ghost predicate Sane(s: Sys) {
    && (forall a, x {:trigger GoodEntry(s, a, x)} :: a in s.daemons && x in s.daemons[a].servers ==> GoodEntry(s, a, x))
    && (forall a :: a in s.daemons && s.daemons[a].stopping ==> s.daemons[a].servers == map[])
    && (forall p :: p in s.procs ==> s.procs[p].key.pid == p && s.procs[p].identity != "")
  }

  predicate Needs(s: Sys, e: Export) {
    e.key.pid in s.alive && e.key.pid !in s.signalled
  }

  predicate OwnedAtLegacy(s: Sys, e: Export) {
    && HasEntry(s, LEGACY, e.key.session)
    && EntryAt(s, LEGACY, e.key.session).key == e.key
    && EntryAt(s, LEGACY, e.key.session).holding.Owned?
  }

  predicate HandedOffTo(s: Sys, e: Export, g: string) {
    && HasEntry(s, LEGACY, e.key.session)
    && EntryAt(s, LEGACY, e.key.session).key == e.key
    && EntryAt(s, LEGACY, e.key.session).holding.HandedOff?
    && EntryAt(s, LEGACY, e.key.session).holding.target == g
  }

  predicate AdoptedAt(s: Sys, e: Export, g: string) {
    && HasEntry(s, g, e.key.session)
    && EntryAt(s, g, e.key.session).key == e.key
    && EntryAt(s, g, e.key.session).holding.Adopted?
  }

  /** What the current attempt knows about one of its exports. */
  ghost predicate Covered(s: Sys, e: Export) {
    match s.co.phase
    case Adopting => Needs(s, e) ==> OwnedAtLegacy(s, e)
    case Releasing => Needs(s, e) ==> OwnedAtLegacy(s, e) && AdoptedAt(s, e, s.co.g)
    case AskingStatus => Needs(s, e) ==>
      && AdoptedAt(s, e, s.co.g)
      && (Answers(s, LEGACY) ==> OwnedAtLegacy(s, e) || HandedOffTo(s, e, s.co.g))
    case Unadopting(why) => !why.Elsewhere? && (Needs(s, e) ==> OwnedAtLegacy(s, e))
    case Unquiescing(why) => !why.Elsewhere?
    case _ => true
  }

  /** An export names a known process, and the legacy daemon released it to nobody but this attempt's daemon. */
  ghost predicate GoodExport(s: Sys, e: Export) {
    && e.key.pid in s.procs && s.procs[e.key.pid] == Proc(e.key, e.pidIdentity)
    && (HasEntry(s, LEGACY, e.key.session) && EntryAt(s, LEGACY, e.key.session).key == e.key ==>
          OwnedAtLegacy(s, e) || HandedOffTo(s, e, s.co.g))
  }

  ghost predicate GoodAttempt(s: Sys) {
    Active(s.co.phase) ==>
      && s.co.g != LEGACY && s.co.g != ""
      && ValidExports(s.co.exports)
      && (if s.co.phase.Starting? then s.co.exports == [] else s.co.exports != [] && LEGACY in s.daemons)
      && forall e {:trigger GoodExport(s, e)} {:trigger Covered(s, e)} :: e in s.co.exports ==>
           GoodExport(s, e) && Covered(s, e)
  }

  ghost predicate Inv(s: Sys) {
    Sane(s) && GoodAttempt(s) && NoOrphan(s)
  }

  // ---------------------------------------------------------------- the world keeps it

  /** The attempt waits to hear from the legacy daemon whether this server was released. */
  ghost predicate Awaited(s: Sys, a: string, key: Key) {
    a == LEGACY && s.co.phase.AskingStatus? && exists e :: e in s.co.exports && e.key == key
  }

  /** An entry goes away only with its process signalled or dead, or it was handed off and its daemon left or the
      attempt does not ask about it. */
  ghost predicate EntrySurvives(s: Sys, t: Sys, a: string, x: string)
    requires HasEntry(s, a, x)
  {
    || SameEntry(s, t, a, x)
    || EntryAt(s, a, x).key.pid !in t.alive
    || EntryAt(s, a, x).key.pid in t.signalled
    || (EntryAt(s, a, x).holding.HandedOff? && (!Answers(t, a) || !Awaited(s, a, EntryAt(s, a, x).key)))
  }

  /** An entry is either an old one or a freshly registered owned process. */
  ghost predicate EntryExplained(s: Sys, t: Sys, a: string, x: string)
    requires HasEntry(t, a, x)
  {
    || (HasEntry(s, a, x) && SameEntry(s, t, a, x))
    || (var sv := EntryAt(t, a, x); sv.key.pid !in s.procs && sv.holding.Owned?)
  }

  ghost predicate Evolves(s: Sys, t: Sys) {
    && s.daemons.Keys <= t.daemons.Keys
    && (forall a :: a in s.daemons && s.daemons[a].stopping ==> t.daemons[a].stopping)
    && (forall p :: p in s.procs ==> p in t.procs && t.procs[p] == s.procs[p])
    && (forall p :: p in s.procs && p in t.alive ==> p in s.alive)
    && s.signalled <= t.signalled
    && (forall a, x {:trigger EntrySurvives(s, t, a, x)} :: HasEntry(s, a, x) ==> EntrySurvives(s, t, a, x))
    && (forall a, x {:trigger EntryExplained(s, t, a, x)} :: HasEntry(t, a, x) ==> EntryExplained(s, t, a, x))
    && (forall p :: p in t.procs && p !in s.procs ==> Held(t, t.procs[p].key))
    && t.co == s.co
  }

  lemma DropStaysSane(s: Sys, a: string, x: string)
    requires Sane(s) && HasEntry(s, a, x)
    ensures Sane(Drop(s, a, x))
  {
    var t := Drop(s, a, x);
    forall b, y | b in t.daemons && y in t.daemons[b].servers ensures GoodEntry(t, b, y) { assert GoodEntry(s, b, y); }
  }

  lemma DropEvolves(s: Sys, a: string, x: string)
    requires HasEntry(s, a, x)
    requires EntryAt(s, a, x).holding.HandedOff? && EntryAt(s, a, x).key.pid in s.alive ==>
             !Awaited(s, a, EntryAt(s, a, x).key)
    ensures Evolves(s, Drop(s, a, x))
  {
  }

  lemma RegisterStaysSane(s: Sys, w: Happening)
    requires Sane(s) && w.Register? && Possible(s, w)
    ensures Sane(World(s, w))
  {
    var t := World(s, w);
    forall b, y | b in t.daemons && y in t.daemons[b].servers ensures GoodEntry(t, b, y) {
      if b != w.a || y != w.key.session { assert GoodEntry(s, b, y); }
    }
  }

  lemma RegisterEvolves(s: Sys, w: Happening)
    requires w.Register? && Possible(s, w)
    ensures Evolves(s, World(s, w))
  {
    assert Holds(World(s, w).daemons[w.a], w.key);
  }

  lemma DepartureStaysSane(s: Sys, w: Happening)
    requires Sane(s) && (w.StopDaemon? || w.QuietExit?) && Possible(s, w)
    ensures Sane(World(s, w))
  {
    var t := World(s, w);
    forall b, y | b in t.daemons && y in t.daemons[b].servers ensures GoodEntry(t, b, y) { assert GoodEntry(s, b, y); }
  }

  /** Stopping and leaving quietly both empty the registry; leaving finds only handed-off entries there. */
  lemma DepartureEvolves(s: Sys, w: Happening)
    requires (w.StopDaemon? || w.QuietExit?) && Possible(s, w)
    ensures Evolves(s, World(s, w))
  {
    var t := World(s, w);
    forall b, y | HasEntry(s, b, y) ensures EntrySurvives(s, t, b, y) {
      if b == w.a && w.StopDaemon? && !EntryAt(s, b, y).holding.HandedOff? {
        assert EntryAt(s, b, y).key.pid in LivePids(s.daemons[b].servers);
      }
    }
  }

  /** No late action lets go of a live server that was just released and that the attempt asks about. */
  ghost predicate Timely(s: Sys, w: Happening) {
    w.ActOnProof? && Possible(s, w) && EntryAt(s, w.a, w.key.session).holding.HandedOff? && Awaited(s, w.a, w.key) ==>
      w.key.pid !in s.alive
  }

  lemma WorldEvolves(s: Sys, w: Happening)
    requires Sane(s) && Possible(s, w) && Timely(s, w)
    ensures Sane(World(s, w)) && Evolves(s, World(s, w))
  {
    match w {
      case RemoveDead(a, x) => DropStaysSane(s, a, x); DropEvolves(s, a, x);
      case Reap(a, x) => DropStaysSane(s, a, x); DropEvolves(s, a, x);
      case StopServer(a, x) => DropStaysSane(s, a, x); DropEvolves(s, a, x);
      case ActOnProof(a, key) => DropStaysSane(s, a, key.session); DropEvolves(s, a, key.session);
      case Register(_, _, _, _, _) => RegisterStaysSane(s, w); RegisterEvolves(s, w);
      case StopDaemon(_) => DepartureStaysSane(s, w); DepartureEvolves(s, w);
      case QuietExit(_) => DepartureStaysSane(s, w); DepartureEvolves(s, w);
      case _ => SmallChangeEvolves(s, w);
    }
  }

  /** Entries keep their key and their holder; leases, flags and bootstraps may change. */
  ghost predicate SameHoldings(before: Servers, after: Servers) {
    && after.Keys == before.Keys
    && forall x :: x in before ==> after[x].key == before[x].key && after[x].holding == before[x].holding
  }

  lemma SetDaemonEvolves(s: Sys, a: string, d: View)
    requires Sane(s)
    requires if a in s.daemons then !s.daemons[a].stopping && SameHoldings(s.daemons[a].servers, d.servers)
             else d.servers == map[]
    requires !d.stopping
    ensures Sane(SetDaemon(s, a, d)) && Evolves(s, SetDaemon(s, a, d))
  {
    var t := SetDaemon(s, a, d);
    forall b, y | b in t.daemons && y in t.daemons[b].servers ensures GoodEntry(t, b, y) {
      assert GoodEntry(s, b, y);
    }
  }

  lemma SameEntriesEvolve(s: Sys, t: Sys)
    requires Sane(s) && t.daemons == s.daemons && t.procs == s.procs
    requires t.alive <= s.alive && s.signalled <= t.signalled && t.co == s.co
    ensures Sane(t) && Evolves(s, t)
  {
    forall b, y | b in t.daemons && y in t.daemons[b].servers ensures GoodEntry(t, b, y) {
      assert GoodEntry(s, b, y);
    }
  }

  lemma SmallChangeEvolves(s: Sys, w: Happening)
    requires Sane(s) && Possible(s, w)
    requires !w.RemoveDead? && !w.Reap? && !w.StopServer? && !w.Register? && !w.StopDaemon? && !w.QuietExit?
             && !w.ActOnProof?
    ensures Sane(World(s, w)) && Evolves(s, World(s, w))
  {
    hide Sane, Evolves;
    var t := World(s, w);
    if w.NewDaemon? {
      SetDaemonEvolves(s, w.a, View(map[], false, false, {}));
    } else if w.Refresh? {
      SetDaemonEvolves(s, w.a, t.daemons[w.a]);
    } else if w.BootstrapsBecome? {
      SetDaemonEvolves(s, w.a, t.daemons[w.a]);
    } else {
      SameEntriesEvolve(s, t);
    }
  }

  lemma EvolutionKeepsInv(s: Sys, t: Sys)
    requires Inv(s) && Sane(t) && Evolves(s, t)
    ensures Inv(t)
  {
    forall p | p in t.procs && p in t.alive && p !in t.signalled ensures Held(t, t.procs[p].key) {
      if p in s.procs {
        var key := s.procs[p].key;
        var a :| a in s.daemons && Holds(s.daemons[a], key);
        assert HasEntry(s, a, key.session) && EntrySurvives(s, t, a, key.session);
        assert Holds(t.daemons[a], key);
      }
    }
    if Active(s.co.phase) {
      forall e | e in s.co.exports ensures GoodExport(t, e) && Covered(t, e) {
        assert GoodExport(s, e) && Covered(s, e);
        var x := e.key.session;
        assert HasEntry(s, LEGACY, x) ==> EntrySurvives(s, t, LEGACY, x);
        assert HasEntry(s, s.co.g, x) ==> EntrySurvives(s, t, s.co.g, x);
        assert HasEntry(t, LEGACY, x) ==> EntryExplained(s, t, LEGACY, x);
      }
    }
  }

  // ---------------------------------------------------------------- the coordinator keeps it

  /** Replacing one registry keeps the system part of the invariant if the new entries are good and every
      process the old registry held is still held by someone. */
  lemma SwapKeepsSystem(s: Sys, a: string, after: Servers)
    requires Sane(s) && NoOrphan(s) && Answers(s, a)
    requires forall x :: x in after ==> GoodEntry(SetServers(s, a, after), a, x)
    requires forall x :: x in s.daemons[a].servers && !s.daemons[a].servers[x].holding.HandedOff? ==>
               (s.daemons[a].servers[x].key.pid in s.alive && s.daemons[a].servers[x].key.pid !in s.signalled ==>
                  Held(SetServers(s, a, after), s.daemons[a].servers[x].key))
    ensures Sane(SetServers(s, a, after)) && NoOrphan(SetServers(s, a, after))
  {
    SwapKeepsSane(s, a, after);
    var t := SetServers(s, a, after);
    forall p | p in t.procs && p in t.alive && p !in t.signalled ensures Held(t, t.procs[p].key) {
      var key := s.procs[p].key;
      assert Held(s, key) && key.pid == p;
      var b :| b in s.daemons && Holds(s.daemons[b], key);
      if b != a { assert Holds(t.daemons[b], key); }
    }
  }

  lemma SwapKeepsSane(s: Sys, a: string, after: Servers)
    requires Sane(s) && Answers(s, a)
    requires forall x :: x in after ==> GoodEntry(SetServers(s, a, after), a, x)
    ensures Sane(SetServers(s, a, after))
  {
    var t := SetServers(s, a, after);
    forall b, y | b in t.daemons && y in t.daemons[b].servers ensures GoodEntry(t, b, y) {
      if b != a { assert GoodEntry(s, b, y); }
    }
  }

  lemma LeaseExtensionEvolves(s: Sys, bumped: set<string>, quiescing: bool)
    requires Sane(s) && Answers(s, LEGACY)
    ensures var d := s.daemons[LEGACY];
            var t := SetDaemon(s, LEGACY,
                               d.(quiescing := quiescing, servers := ExtendLeases(d.servers, bumped, s.now)));
            Sane(t) && Evolves(s, t)
  {
    var d := s.daemons[LEGACY];
    SetDaemonEvolves(s, LEGACY, d.(quiescing := quiescing, servers := ExtendLeases(d.servers, bumped, s.now)));
  }

  lemma ListedExport(s: Sys, listed: seq<Export>, e: Export)
    requires Sane(s) && Answers(s, LEGACY) && e in listed
    requires ExportsExactly(listed, s.daemons[LEGACY].servers, s.daemons[LEGACY].servers.Keys, ChildOf(s), s.now)
    ensures OwnedAtLegacy(s, e) && ValidExport(e) && e.key.pid in s.alive
    ensures e.key.pid in s.procs && s.procs[e.key.pid] == Proc(e.key, e.pidIdentity)
  {
    assert ExportedFrom(e, s.daemons[LEGACY].servers, ChildOf(s), s.now);
    assert GoodEntry(s, LEGACY, e.key.session);
  }

  /** Only registries and processes matter to the system part of the invariant. */
  lemma SystemIgnoresCoordinator(u: Sys, t: Sys)
    requires Sane(u) && NoOrphan(u) && t == u.(co := t.co)
    ensures Sane(t) && NoOrphan(t)
  {
    forall b, y | b in t.daemons && y in t.daemons[b].servers ensures GoodEntry(t, b, y) {
      assert GoodEntry(u, b, y);
    }
    forall p | p in t.procs && p in t.alive && p !in t.signalled ensures Held(t, t.procs[p].key) {
      assert Held(u, u.procs[p].key);
    }
  }

  lemma QuiescedSystem(s: Sys, listed: seq<Export>)
    requires Inv(s) && Answers(s, LEGACY)
    ensures var d := s.daemons[LEGACY];
            var u := SetDaemon(s, LEGACY,
                               d.(quiescing := true, servers := ExtendLeases(d.servers, SessionsOf(listed), s.now)));
            Sane(u) && NoOrphan(u)
  {
    var d := s.daemons[LEGACY];
    LeaseExtensionEvolves(s, SessionsOf(listed), true);
    var after := ExtendLeases(d.servers, SessionsOf(listed), s.now);
    EvolutionKeepsInv(s, SetDaemon(s, LEGACY, d.(quiescing := true, servers := after)));
  }

  lemma QuiescedExport(s: Sys, fate: Fate, listed: seq<Export>, e: Export)
    requires Sane(s) && Answers(s, LEGACY) && e in listed && !fate.NeverArrived? && s.daemons[LEGACY].bootstraps == {}
    requires ExportsExactly(listed, s.daemons[LEGACY].servers, s.daemons[LEGACY].servers.Keys, ChildOf(s), s.now)
    ensures var t := QuiesceStep(s, fate, listed); GoodExport(t, e) && ValidExport(e) && OwnedAtLegacy(t, e)
  {
    ListedExport(s, listed, e);
  }

  lemma QuiesceKeepsInv(s: Sys, fate: Fate, listed: seq<Export>)
    requires Inv(s) && s.co.phase.Starting?
    ensures Inv(QuiesceStep(s, fate, listed))
  {
    hide Sane, NoOrphan, GoodExport, OwnedAtLegacy, ExtendLeases;
    var t := QuiesceStep(s, fate, listed);
    if Answers(s, LEGACY) && s.daemons[LEGACY].bootstraps == {} && !fate.NeverArrived? &&
       ExportsExactly(listed, s.daemons[LEGACY].servers, s.daemons[LEGACY].servers.Keys, ChildOf(s), s.now) {
      QuiescedSystem(s, listed);
      SystemIgnoresCoordinator(t.(co := s.co), t);
      forall e | e in listed ensures GoodExport(t, e) && ValidExport(e) && OwnedAtLegacy(t, e) {
        QuiescedExport(s, fate, listed, e);
      }
    } else {
      SystemIgnoresCoordinator(s, t);
    }
  }

  lemma QuiesceErrorKeepsInv(s: Sys, bumped: set<string>)
    requires Inv(s) && s.co.phase.Starting?
    ensures Inv(QuiesceErrorStep(s, bumped))
  {
    if Answers(s, LEGACY) {
      LeaseExtensionEvolves(s, bumped, s.daemons[LEGACY].quiescing);
      var d := s.daemons[LEGACY];
      var u := SetDaemon(s, LEGACY, d.(servers := ExtendLeases(d.servers, bumped, s.now)));
      assert u == SetDaemon(s, LEGACY, d.(quiescing := d.quiescing, servers := ExtendLeases(d.servers, bumped, s.now)));
      EvolutionKeepsInv(s, u);
      SystemIgnoresCoordinator(u, End(u, Failed));
    }
    SystemIgnoresCoordinator(s, End(s, Failed));
  }

  lemma AdoptedEntries(s: Sys, e: Export)
    requires AdoptWorks(s) && e in s.co.exports
    ensures var after := AdoptedServers(s.daemons[s.co.g].servers, LEGACY, s.co.exports, s.now);
            && e.key.session in after && after[e.key.session].key == e.key && after[e.key.session].holding.Adopted?
  {
    ExportForIs(s.co.exports, e);
  }

  lemma AdoptKeepsSystem(s: Sys)
    requires Inv(s) && s.co.phase.Adopting? && AdoptWorks(s)
    ensures var u := SetServers(s, s.co.g, AdoptedServers(s.daemons[s.co.g].servers, LEGACY, s.co.exports, s.now));
            Sane(u) && NoOrphan(u)
  {
    var es, g := s.co.exports, s.co.g;
    var after := AdoptedServers(s.daemons[g].servers, LEGACY, es, s.now);
    var u := SetServers(s, g, after);
    forall x | x in after ensures GoodEntry(u, g, x) {
      if x in SessionsOf(es) {
        var e :| e in es && e.key.session == x;
        ExportForIs(es, e);
        assert GoodExport(s, e);
      }
      if x in s.daemons[g].servers { assert GoodEntry(s, g, x); }
    }
    forall x | x in s.daemons[g].servers && !s.daemons[g].servers[x].holding.HandedOff?
      ensures Held(u, s.daemons[g].servers[x].key)
    {
      assert GoodEntry(s, g, x);
      if x in SessionsOf(es) {
        var e :| e in es && e.key.session == x;
        AdoptedEntries(s, e);
      }
      assert Holds(u.daemons[g], s.daemons[g].servers[x].key);
    }
    SwapKeepsSystem(s, g, after);
  }

  lemma AdoptKeepsExport(s: Sys, fate: Fate, e: Export)
    requires s.co.phase.Adopting? && e in s.co.exports && s.co.g != LEGACY && GoodExport(s, e) && Covered(s, e)
    ensures GoodExport(AdoptStep(s, fate), e) && Covered(AdoptStep(s, fate), e)
  {
    hide AdoptedServers, AdoptAllowed;
    if AdoptWorks(s) { AdoptedEntries(s, e); }
  }

  lemma AdoptKeepsInv(s: Sys, fate: Fate)
    requires Inv(s) && s.co.phase.Adopting?
    ensures Inv(AdoptStep(s, fate))
  {
    var t := AdoptStep(s, fate);
    if fate.NeverArrived? || !AdoptWorks(s) {
      SystemIgnoresCoordinator(s, t);
    } else {
      AdoptKeepsSystem(s);
      SystemIgnoresCoordinator(t.(co := s.co), t);
    }
    forall e | e in t.co.exports ensures GoodExport(t, e) && Covered(t, e) { AdoptKeepsExport(s, fate, e); }
  }

  lemma ReleasedEntries(s: Sys, e: Export)
    requires ReleaseWorks(s) && e in s.co.exports
    ensures var after := ReleasedServers(s.daemons[LEGACY].servers, s.co.g, s.co.exports, s.now);
            && e.key.session in after && after[e.key.session].key == e.key
            && after[e.key.session].holding.HandedOff? && after[e.key.session].holding.target == s.co.g
  {
    ExportForIs(s.co.exports, e);
  }

  lemma ReleaseKeepsSystem(s: Sys)
    requires Inv(s) && s.co.phase.Releasing? && ReleaseWorks(s)
    ensures var u := SetServers(s, LEGACY, ReleasedServers(s.daemons[LEGACY].servers, s.co.g, s.co.exports, s.now));
            Sane(u) && NoOrphan(u)
  {
    var es, g := s.co.exports, s.co.g;
    var after := ReleasedServers(s.daemons[LEGACY].servers, g, es, s.now);
    var u := SetServers(s, LEGACY, after);
    forall x | x in after ensures GoodEntry(u, LEGACY, x) { assert GoodEntry(s, LEGACY, x); }
    forall x | x in s.daemons[LEGACY].servers && !s.daemons[LEGACY].servers[x].holding.HandedOff? &&
               s.daemons[LEGACY].servers[x].key.pid in s.alive && s.daemons[LEGACY].servers[x].key.pid !in s.signalled
      ensures Held(u, s.daemons[LEGACY].servers[x].key)
    {
      var key := s.daemons[LEGACY].servers[x].key;
      assert GoodEntry(s, LEGACY, x);
      if x in SessionsOf(es) {
        var e :| e in es && e.key.session == x;
        assert GoodExport(s, e) && Covered(s, e) && e.key == key;
        assert Holds(u.daemons[g], key);
      } else {
        assert Holds(u.daemons[LEGACY], key);
      }
    }
    SwapKeepsSystem(s, LEGACY, after);
  }

  lemma ReleaseKeepsExport(s: Sys, fate: Fate, e: Export)
    requires s.co.phase.Releasing? && e in s.co.exports && s.co.g != LEGACY && GoodExport(s, e) && Covered(s, e)
    ensures GoodExport(ReleaseStep(s, fate), e) && Covered(ReleaseStep(s, fate), e)
  {
    if ReleaseWorks(s) { ReleasedEntries(s, e); }
  }

  lemma ReleaseKeepsInv(s: Sys, fate: Fate)
    requires Inv(s) && s.co.phase.Releasing?
    ensures Inv(ReleaseStep(s, fate))
  {
    var t := ReleaseStep(s, fate);
    if fate.NeverArrived? || !ReleaseWorks(s) {
      SystemIgnoresCoordinator(s, t);
    } else {
      ReleaseKeepsSystem(s);
      SystemIgnoresCoordinator(t.(co := s.co), t);
    }
    forall e | e in t.co.exports ensures GoodExport(t, e) && Covered(t, e) { ReleaseKeepsExport(s, fate, e); }
  }

  /** An answer that shows every server unreleased proves that each live one is still owned there;
      an answer that shows them all handed off names this attempt's daemon. */
  lemma DecisionIsSound(s: Sys)
    requires Inv(s) && s.co.phase.AskingStatus? && Answers(s, LEGACY)
    requires StatusAllowed(s.daemons[LEGACY], s.co.g, s.co.exports)
    ensures var decision := Decide(StatusRows(s.daemons[LEGACY].servers, s.co.exports), s.co.g);
            && !decision.RollbackElsewhere?
            && (decision.RollbackUnreleased? ==> forall e :: e in s.co.exports && Needs(s, e) ==> OwnedAtLegacy(s, e))
            && (decision.CommittedHere? ==> forall e :: e in s.co.exports ==> HandedOffTo(s, e, s.co.g))
  {
    var es := s.co.exports;
    var rows := StatusRows(s.daemons[LEGACY].servers, es);
    assert |rows| == |es|;
    forall i | 0 <= i < |es|
      ensures rows[i] in rows && es[i] in es && rows[i] == StatusOf(s.daemons[LEGACY].servers, es[i])
      ensures rows[i].IsHandedOff? ==> rows[i].to == s.co.g && HandedOffTo(s, es[i], s.co.g)
      ensures rows[i].IsOwned? ==> OwnedAtLegacy(s, es[i])
      ensures rows[i].IsMissing? ==> !Needs(s, es[i])
    {
      assert GoodExport(s, es[i]) && Covered(s, es[i]);
    }
    forall e | e in es ensures exists i :: 0 <= i < |es| && es[i] == e {}
  }

  lemma StatusKeepsInv(s: Sys, fate: Fate)
    requires Inv(s) && s.co.phase.AskingStatus?
    ensures Inv(StatusStep(s, fate))
  {
    var t := StatusStep(s, fate);
    SystemIgnoresCoordinator(s, t);
    if fate.Answered? && Answers(s, LEGACY) && StatusAllowed(s.daemons[LEGACY], s.co.g, s.co.exports) {
      DecisionIsSound(s);
      forall e | e in s.co.exports ensures GoodExport(t, e) && Covered(t, e) {
        assert GoodExport(s, e) && Covered(s, e);
      }
    }
  }

  lemma UnadoptKeepsSystem(s: Sys)
    requires Inv(s) && s.co.phase.Unadopting? && UnadoptWorks(s)
    ensures var u := SetServers(s, s.co.g, s.daemons[s.co.g].servers - SessionsOf(s.co.exports)); Sane(u) && NoOrphan(u)
  {
    var es, g := s.co.exports, s.co.g;
    var after := s.daemons[g].servers - SessionsOf(es);
    var u := SetServers(s, g, after);
    forall x | x in after ensures GoodEntry(u, g, x) { assert GoodEntry(s, g, x); }
    forall x | x in s.daemons[g].servers && !s.daemons[g].servers[x].holding.HandedOff? &&
               s.daemons[g].servers[x].key.pid in s.alive && s.daemons[g].servers[x].key.pid !in s.signalled
      ensures Held(u, s.daemons[g].servers[x].key)
    {
      var key := s.daemons[g].servers[x].key;
      assert GoodEntry(s, g, x);
      if x in SessionsOf(es) {
        var e :| e in es && e.key.session == x;
        assert GoodExport(s, e) && Covered(s, e) && e.key == key;
        assert Holds(u.daemons[LEGACY], key);
      } else {
        assert Holds(u.daemons[g], key);
      }
    }
    SwapKeepsSystem(s, g, after);
  }

  lemma UnadoptKeepsExport(s: Sys, fate: Fate, e: Export)
    requires Inv(s) && s.co.phase.Unadopting? && !fate.NeverArrived? && UnadoptWorks(s) && e in s.co.exports
    ensures GoodExport(UnadoptStep(s, fate), e) && Covered(UnadoptStep(s, fate), e)
  {
    assert GoodExport(s, e) && Covered(s, e);
  }

  lemma UnadoptKeepsInv(s: Sys, fate: Fate)
    requires Inv(s) && s.co.phase.Unadopting?
    ensures Inv(UnadoptStep(s, fate))
  {
    var t := UnadoptStep(s, fate);
    if fate.NeverArrived? || !UnadoptWorks(s) {
      SystemIgnoresCoordinator(s, t);
    } else {
      UnadoptKeepsSystem(s);
      SystemIgnoresCoordinator(t.(co := s.co), t);
      forall e | e in t.co.exports ensures GoodExport(t, e) && Covered(t, e) { UnadoptKeepsExport(s, fate, e); }
    }
  }

  lemma UnquiesceKeepsInv(s: Sys, fate: Fate)
    requires Inv(s) && s.co.phase.Unquiescing?
    ensures Inv(UnquiesceStep(s, fate))
  {
    var t := UnquiesceStep(s, fate);
    if !fate.NeverArrived? && Answers(s, LEGACY) {
      var d := s.daemons[LEGACY].(quiescing := false);
      SetDaemonEvolves(s, LEGACY, d);
      EvolutionKeepsInv(s, SetDaemon(s, LEGACY, d));
      SystemIgnoresCoordinator(SetDaemon(s, LEGACY, d), t);
    } else {
      SystemIgnoresCoordinator(s, t);
    }
  }

  // ---------------------------------------------------------------- theorems

  lemma MoveKeepsInv(s: Sys, c: Move)
    requires Inv(s)
    ensures Inv(MoveNext(s, c))
  {
    match c {
      case Begin(g) => SystemIgnoresCoordinator(s, MoveNext(s, c));
      case CallQuiesce(fate, listed) => if s.co.phase.Starting? { QuiesceKeepsInv(s, fate, listed); }
      case QuiesceOsError(bumped) => if s.co.phase.Starting? { QuiesceErrorKeepsInv(s, bumped); }
      case GiveUp => SystemIgnoresCoordinator(s, MoveNext(s, c));
      case CallAdopt(fate) => if s.co.phase.Adopting? { AdoptKeepsInv(s, fate); }
      case CallRelease(fate) => if s.co.phase.Releasing? { ReleaseKeepsInv(s, fate); }
      case CallStatus(fate) => if s.co.phase.AskingStatus? { StatusKeepsInv(s, fate); }
      case CallUnadopt(fate) => if s.co.phase.Unadopting? { UnadoptKeepsInv(s, fate); }
      case CallUnquiesce(fate) => if s.co.phase.Unquiescing? { UnquiesceKeepsInv(s, fate); }
    }
  }

  ghost predicate TimelyEvent(s: Sys, ev: Event) { ev.Outside? ==> Timely(s, ev.w) }

  ghost predicate TimelyRun(s: Sys, evs: seq<Event>) {
    evs == [] || (TimelyRun(s, evs[..|evs| - 1]) && TimelyEvent(Run(s, evs[..|evs| - 1]), evs[|evs| - 1]))
  }

  lemma NextKeepsInv(s: Sys, ev: Event)
    requires Inv(s) && TimelyEvent(s, ev)
    ensures Inv(Next(s, ev))
  {
    match ev {
      case Outside(w) => WorldKeepsInv(s, w);
      case Attempt(c) => MoveKeepsInv(s, c);
    }
  }

  lemma WorldKeepsInv(s: Sys, w: Happening)
    requires Inv(s) && Timely(s, w)
    ensures Inv(WorldNext(s, w))
  {
    if Possible(s, w) {
      WorldEvolves(s, w);
      EvolutionKeepsInv(s, World(s, w));
      MarkKeepsInv(World(s, w), WorldNext(s, w));
    }
  }

  lemma MarkKeepsInv(u: Sys, t: Sys)
    requires Inv(u) && t == u.(co := u.co.(disturbed := t.co.disturbed))
    ensures Inv(t)
  {
    SystemIgnoresCoordinator(u, t);
    if Active(t.co.phase) {
      forall e | e in t.co.exports ensures GoodExport(t, e) && Covered(t, e) {
        assert GoodExport(u, e) && Covered(u, e);
      }
    }
  }

  lemma {:induction false} EveryRunIsSafe(split: bool, evs: seq<Event>)
    requires TimelyRun(Init(split), evs)
    ensures Inv(Run(Init(split), evs))
  {
    if evs != [] {
      EveryRunIsSafe(split, evs[..|evs| - 1]);
      NextKeepsInv(Run(Init(split), evs[..|evs| - 1]), evs[|evs| - 1]);
    }
  }

  lemma {:induction false} NoProofsCollected(evs: seq<Event>)
    ensures var s := Run(Init(false), evs); !s.splitReaps && s.proofs == {}
  {
    if evs != [] {
      NoProofsCollected(evs[..|evs| - 1]);
      NextCollectsNothing(Run(Init(false), evs[..|evs| - 1]), evs[|evs| - 1]);
    }
  }

  lemma NextCollectsNothing(s: Sys, ev: Event)
    requires !s.splitReaps && s.proofs == {}
    ensures !Next(s, ev).splitReaps && Next(s, ev).proofs == {}
  {
    match ev {
      case Outside(w) => WorldCollectsNothing(s, w);
      case Attempt(c) => MovesCollectNothing(s, c);
    }
  }

  lemma WorldCollectsNothing(s: Sys, w: Happening)
    requires !s.splitReaps && s.proofs == {}
    ensures !WorldNext(s, w).splitReaps && WorldNext(s, w).proofs == {}
  {
  }

  lemma MovesCollectNothing(s: Sys, c: Move)
    ensures MoveNext(s, c).splitReaps == s.splitReaps && MoveNext(s, c).proofs == s.proofs
  {
  }

  /** If reapers act in one step, every run is timely. */
  lemma {:induction false} AtomicReapsAreTimely(evs: seq<Event>)
    ensures TimelyRun(Init(false), evs)
  {
    if evs != [] {
      AtomicReapsAreTimely(evs[..|evs| - 1]);
      NoProofsCollected(evs[..|evs| - 1]);
    }
  }

  /** In every state of every timely run, with any pattern of failed calls, expiries, stops and late reapers, a process
      that is alive and was not signalled has an entry at the legacy daemon that owns it or at another daemon that
      adopted or owns it. */
  lemma NoOrphanOnAnyRun(split: bool, evs: seq<Event>, p: nat)
    requires TimelyRun(Init(split), evs)
    ensures var s := Run(Init(split), evs);
      p in s.procs && p in s.alive && p !in s.signalled ==>
        exists a :: HasEntry(s, a, s.procs[p].key.session)
          && EntryAt(s, a, s.procs[p].key.session).key == s.procs[p].key
          && (if a == LEGACY then EntryAt(s, a, s.procs[p].key.session).holding.Owned?
              else !EntryAt(s, a, s.procs[p].key.session).holding.HandedOff?)
  {
    EveryRunIsSafe(split, evs);
    var s := Run(Init(split), evs);
    if p in s.procs && p in s.alive && p !in s.signalled {
      assert Held(s, s.procs[p].key);
      var a :| a in s.daemons && Holds(s.daemons[a], s.procs[p].key);
      assert GoodEntry(s, a, s.procs[p].key.session);
      assert HasEntry(s, a, s.procs[p].key.session);
    }
  }

  /** The branch for servers that were already handed to some other daemon is never taken. */
  lemma NeverElsewhere(split: bool, evs: seq<Event>)
    requires TimelyRun(Init(split), evs)
    ensures var s := Run(Init(split), evs); s.co.phase != Unadopting(Elsewhere)
  {
    EveryRunIsSafe(split, evs);
    var s := Run(Init(split), evs);
    if s.co.phase.Unadopting? {
      assert s.co.exports[0] in s.co.exports;
      assert Covered(s, s.co.exports[0]);
    }
  }

  ghost predicate HolderAt(s: Sys, a: string, x: string, p: nat) {
    HasEntry(s, a, x) && EntryAt(s, a, x).key.pid == p && !EntryAt(s, a, x).holding.HandedOff?
  }

  lemma MovesNeverSignal(s: Sys, c: Move)
    ensures MoveNext(s, c).signalled == s.signalled
  {
  }

  /** A process is signalled only through an entry that owns or adopted it, reapers' late actions included. */
  lemma SignalsOnlyThroughHolders(s: Sys, ev: Event, p: nat)
    requires p in Next(s, ev).signalled && p !in s.signalled
    ensures exists a, x :: HolderAt(s, a, x, p)
  {
    match ev {
      case Attempt(c) => MovesNeverSignal(s, c);
      case Outside(RemoveDead(a, x)) => assert HolderAt(s, a, x, p);
      case Outside(Reap(a, x)) => assert HolderAt(s, a, x, p);
      case Outside(StopServer(a, x)) => assert HolderAt(s, a, x, p);
      case Outside(ActOnProof(a, key)) => assert HolderAt(s, a, key.session, p);
      case Outside(StopDaemon(a)) =>
        var x :| x in s.daemons[a].servers && !s.daemons[a].servers[x].holding.HandedOff?
                  && s.daemons[a].servers[x].key.pid == p;
        assert HolderAt(s, a, x, p);
      case Outside(_) =>
    }
  }

  /** A process that the legacy daemon has handed over is never signalled through the legacy daemon. */
  lemma HandedOffIsNotSignalledByLegacy(split: bool, evs: seq<Event>, ev: Event, e: Export, target: string)
    requires TimelyRun(Init(split), evs) && HandedOffTo(Run(Init(split), evs), e, target)
    requires e.key.pid in Next(Run(Init(split), evs), ev).signalled && e.key.pid !in Run(Init(split), evs).signalled
    ensures var s := Run(Init(split), evs);
            exists a :: a != LEGACY && HolderAt(s, a, e.key.session, e.key.pid)
                && EntryAt(s, a, e.key.session).key == e.key
  {
    EveryRunIsSafe(split, evs);
    var s := Run(Init(split), evs);
    SignalsOnlyThroughHolders(s, ev, e.key.pid);
    var a, x :| HolderAt(s, a, x, e.key.pid);
    assert GoodEntry(s, a, x) && GoodEntry(s, LEGACY, e.key.session);
  }

  lemma WorldKeepsTarget(s: Sys, w: Happening, e: Export, target: string)
    requires Inv(s) && HandedOffTo(s, e, target) && Timely(s, w)
    requires HasEntry(WorldNext(s, w), LEGACY, e.key.session)
    requires EntryAt(WorldNext(s, w), LEGACY, e.key.session).key == e.key
    ensures HandedOffTo(WorldNext(s, w), e, target)
  {
    assert GoodEntry(s, LEGACY, e.key.session);
    if Possible(s, w) {
      WorldEvolves(s, w);
      assert EntryExplained(s, World(s, w), LEGACY, e.key.session);
    }
  }

  lemma ReleaseKeepsTarget(s: Sys, fate: Fate, e: Export, target: string)
    requires s.co.phase.Releasing? && HandedOffTo(s, e, target)
    ensures HandedOffTo(ReleaseStep(s, fate), e, target)
  {
    if ReleaseWorks(s) && e.key.session in SessionsOf(s.co.exports) {
      var f :| f in s.co.exports && f.key.session == e.key.session;
      ExportForIs(s.co.exports, f);
    }
  }

  /** Once handed off, an entry names the same daemon for as long as it is registered. */
  lemma HandedOffTargetIsFinal(s: Sys, ev: Event, e: Export, target: string)
    requires Inv(s) && HandedOffTo(s, e, target) && TimelyEvent(s, ev)
    requires HasEntry(Next(s, ev), LEGACY, e.key.session) && EntryAt(Next(s, ev), LEGACY, e.key.session).key == e.key
    ensures HandedOffTo(Next(s, ev), e, target)
  {
    hide Inv;
    match ev {
      case Outside(w) => WorldKeepsTarget(s, w, e, target);
      case Attempt(CallRelease(fate)) => if s.co.phase.Releasing? { ReleaseKeepsTarget(s, fate, e, target); }
      case Attempt(_) =>
    }
  }
}
