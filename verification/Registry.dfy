/** The CLI app-server registry of one daemon and the handoff handlers that update it.

    A handler is a method of class `Daemon`; the predicates and functions before the class say
    when a handler succeeds and what the registry holds afterwards, entry by entry. */
module Registry {
  import opened Results

  /** Leases and clock readings are in milliseconds. */
  const LEASE_FLOOR: nat := 60_000

  /** A listener URL; `loopback` is the verdict of the listener-URL parser on it. */
  datatype Url = Url(text: string, loopback: bool)

  /** The fields that decide whether a registered server is the one an export describes. */
  datatype Key = Key(session: string, thread: string, epoch: int, url: Url, pid: nat, leaseId: string)

  datatype Export = Export(key: Key, pidIdentity: string, startedAt: int, leaseMillis: nat)

  datatype Holding =
    | Owned
    | Adopted(adoptedIdentity: string, source: string)
    | HandedOff(handedIdentity: string, target: string)

  datatype Server = Server(key: Key, startedAt: int, expires: nat, holding: Holding)

  type Servers = map<string, Server>

  /** What the kernel says about a process leader with a recorded start identity. */
  datatype Leader = Running | NotRunning | OtherProcess | Unknown

  type Probe = (nat, string) -> Leader

  /** What a non-reaping wait says about a child of this daemon. */
  datatype Child = ChildRunning(identity: Option<string>) | ChildGone | ChildUnknown

  datatype Fault =
    | EmptyField | DaemonStopping | DaemonQuiescing | DaemonNotQuiescing | WrongTarget | ActiveBootstrap
    | InvalidExport | DuplicateExport | ProcessChanged | ProcessNotRunning | SessionTaken | ServerMissing
    | ServerChanged | WrongHolding | WrongPeer | OsError

  /** One row of a release-status answer. */
  datatype Ownership = IsOwned | IsMissing | IsHandedOff(to: string)

  datatype View = View(servers: Servers, quiescing: bool, stopping: bool, bootstraps: set<string>)

  // ---------------------------------------------------------------- specification

  function LeaseFor(e: Export): nat {
    Max(Max(e.leaseMillis, 1), LEASE_FLOOR)
  }

  predicate ValidKey(k: Key) {
    && k.session != "" && k.thread != "" && k.epoch > 0
    && k.url.text != "" && k.url.loopback && k.pid > 0 && k.leaseId != ""
  }

  predicate ValidExport(e: Export) {
    ValidKey(e.key) && e.pidIdentity != "" && e.leaseMillis > 0
  }

  ghost predicate DistinctSessions(es: seq<Export>) {
    forall i, j :: 0 <= i < j < |es| ==> es[i].key.session != es[j].key.session
  }

  ghost predicate ValidExports(es: seq<Export>) {
    (forall e :: e in es ==> ValidExport(e)) && DistinctSessions(es)
  }

  ghost function SessionsOf(es: seq<Export>): set<string> {
    set e | e in es :: e.key.session
  }

  /** The last export of a list for a session. */
  ghost function ExportFor(es: seq<Export>, s: string): Export
    requires s in SessionsOf(es)
  {
    if es[|es| - 1].key.session == s then es[|es| - 1]
    else
      assert forall e :: e in es ==> e in es[..|es| - 1] || e == es[|es| - 1];
      ExportFor(es[..|es| - 1], s)
  }

  lemma {:induction false} ExportForIs(es: seq<Export>, e: Export)
    requires e in es && DistinctSessions(es)
    ensures e.key.session in SessionsOf(es) && ExportFor(es, e.key.session) == e
  {
    var last := |es| - 1;
    if es[last] != e {
      var i :| 0 <= i < |es| && es[i] == e;
      assert es[i].key.session != es[last].key.session;
      assert es[..last][i] == e;
      ExportForIs(es[..last], e);
    }
  }

  ghost predicate AdoptAllowed(d: View, source: string, es: seq<Export>, probe: Probe) {
    && source != "" && !d.stopping && !d.quiescing && ValidExports(es)
    && (forall e :: e in es ==> probe(e.key.pid, e.pidIdentity) == Running)
    && (forall e :: e in es && e.key.session in d.servers ==> Readoptable(d.servers[e.key.session], e))
  }

  predicate Readoptable(server: Server, e: Export) {
    server.key == e.key && server.holding.Adopted?
  }

  function AdoptEntry(servers: Servers, source: string, e: Export, now: nat): Server {
    if e.key.session in servers then servers[e.key.session].(expires := now + LeaseFor(e))
    else Server(e.key, e.startedAt, now + LeaseFor(e), Adopted(e.pidIdentity, source))
  }

  ghost function AdoptedServers(servers: Servers, source: string, es: seq<Export>, now: nat): Servers {
    map s | s in servers.Keys + SessionsOf(es) ::
      if s in SessionsOf(es) then AdoptEntry(servers, source, ExportFor(es, s), now) else servers[s]
  }

  /** What an adoption leaves for one of its exports: the exported server, adopted, and leased for the time that it had
      left or for a minute, whichever is longer. An entry that was there keeps its record; a new one takes the
      export's. */
  lemma AdoptedAre(servers: Servers, source: string, es: seq<Export>, e: Export, now: nat)
    requires ValidExports(es) && e in es
    requires e.key.session in servers ==> Readoptable(servers[e.key.session], e)
    ensures var x, after := e.key.session, AdoptedServers(servers, source, es, now);
            && x in after && after[x].key == e.key && after[x].holding.Adopted?
            && after[x].expires == Max(now + e.leaseMillis, now + 60_000)
            && (if x in servers then
                  after[x].startedAt == servers[x].startedAt && after[x].holding == servers[x].holding
                else
                  after[x].startedAt == e.startedAt && after[x].holding == Adopted(e.pidIdentity, source))
  {
    ExportForIs(es, e);
  }

  ghost predicate UnadoptAllowed(d: View, source: string, es: seq<Export>) {
    && source != "" && ValidExports(es)
    && (forall e :: e in es && e.key.session in d.servers ==> Unadoptable(d.servers[e.key.session], source, e))
  }

  predicate Unadoptable(server: Server, source: string, e: Export) {
    server.key == e.key && server.holding.Adopted? && server.holding.source == source
  }

  /** The entries found for the exports, in list order. */
  function Present(servers: Servers, es: seq<Export>): seq<Server> {
    if es == [] then []
    else
      var last := es[|es| - 1].key.session;
      Present(servers, es[..|es| - 1]) + if last in servers then [servers[last]] else []
  }

  lemma {:induction false} PresentAre(servers: Servers, es: seq<Export>, server: Server)
    ensures server in Present(servers, es) <==>
            exists e :: e in es && e.key.session in servers && servers[e.key.session] == server
  {
    if es != [] {
      var n := |es| - 1;
      PresentAre(servers, es[..n], server);
      assert es == es[..n] + [es[n]];
    }
  }

  ghost predicate ReleaseAllowed(d: View, target: string, es: seq<Export>) {
    && target != "" && !d.stopping && d.quiescing && ValidExports(es)
    && (forall e :: e in es ==> e.key.session in d.servers && Releasable(d.servers[e.key.session], target, e))
  }

  predicate Releasable(server: Server, target: string, e: Export) {
    && server.key == e.key
    && match server.holding
       case Owned => true
       case HandedOff(_, t) => t == target
       case Adopted(_, _) => false
  }

  function ReleaseEntry(server: Server, target: string, e: Export, now: nat): Server {
    server.(expires := now + LeaseFor(e),
            holding := if server.holding.Owned? then HandedOff(e.pidIdentity, target) else server.holding)
  }

  ghost function ReleasedServers(servers: Servers, target: string, es: seq<Export>, now: nat): Servers {
    map s | s in servers.Keys ::
      if s in SessionsOf(es) then ReleaseEntry(servers[s], target, ExportFor(es, s), now) else servers[s]
  }

  /** What a release leaves for one of its exports: the entry with its record, handed off to `target`, and leased for
      the time that the export had left or for a minute, whichever is longer. */
  lemma ReleasedAre(servers: Servers, target: string, es: seq<Export>, e: Export, now: nat)
    requires ValidExports(es) && e in es
    requires e.key.session in servers && Releasable(servers[e.key.session], target, e)
    ensures var x, after := e.key.session, ReleasedServers(servers, target, es, now);
            && x in after && after[x].key == e.key && after[x].startedAt == servers[x].startedAt
            && after[x].expires == Max(now + e.leaseMillis, now + 60_000)
            && after[x].holding == (if servers[x].holding.Owned? then HandedOff(e.pidIdentity, target)
                                    else servers[x].holding)
            && after[x].holding.HandedOff? && after[x].holding.target == target
  {
    ExportForIs(es, e);
  }

  ghost predicate StatusAllowed(d: View, target: string, es: seq<Export>) {
    && target != "" && ValidExports(es)
    && (forall e :: e in es && e.key.session in d.servers ==>
          d.servers[e.key.session].key == e.key && !d.servers[e.key.session].holding.Adopted?)
  }

  function StatusOf(servers: Servers, e: Export): Ownership {
    if e.key.session !in servers then IsMissing
    else match servers[e.key.session].holding
      case HandedOff(_, t) => IsHandedOff(t)
      case _ => IsOwned
  }

  /** What export requires of an entry, with `now` the clock reading of the pass. */
  predicate Exportable(server: Server, child: nat -> Child, now: nat) {
    && server.holding.Owned?
    && child(server.key.pid).ChildRunning?
    && server.expires > now
  }

  function ExportOf(server: Server, child: nat -> Child, now: nat): Export
    requires Exportable(server, child, now) && child(server.key.pid).identity.Some?
  {
    Export(server.key, child(server.key.pid).identity.value, server.startedAt, server.expires - now)
  }

  ghost predicate ExportsEntry(es: seq<Export>, server: Server, child: nat -> Child, now: nat) {
    Exportable(server, child, now) ==>
      child(server.key.pid).identity.Some? && ExportOf(server, child, now) in es
  }

  ghost predicate ExportedFrom(e: Export, servers: Servers, child: nat -> Child, now: nat) {
    && e.key.session in servers
    && Exportable(servers[e.key.session], child, now)
    && child(servers[e.key.session].key.pid).identity.Some?
    && e == ExportOf(servers[e.key.session], child, now)
  }

  /** `es` lists every exportable entry of the sessions `among` once, with its own fields and remaining lease. */
  ghost predicate ExportsExactly(es: seq<Export>, servers: Servers, among: set<string>, child: nat -> Child, now: nat)
    requires among <= servers.Keys
  {
    && DistinctSessions(es)
    && (forall s :: s in among ==> ExportsEntry(es, servers[s], child, now))
    && (forall e :: e in es ==> e.key.session in among && ExportedFrom(e, servers, child, now))
  }

  lemma ExportOneMore(es: seq<Export>, servers: Servers, among: set<string>, s: string, e: Export,
                      child: nat -> Child, now: nat)
    requires among <= servers.Keys && s in servers && s !in among
    requires ExportsExactly(es, servers, among, child, now)
    requires e.key.session == s && ExportedFrom(e, servers, child, now)
    ensures ExportsExactly(es + [e], servers, among + {s}, child, now)
    ensures SessionsOf(es + [e]) == SessionsOf(es) + {s}
  {
    var grown := es + [e];
    assert forall f :: f in grown <==> f in es || f == e;
    forall i, j | 0 <= i < j < |grown| ensures grown[i].key.session != grown[j].key.session {
      assert grown[i] in es;
    }
    assert e in grown;
  }

  /** The kernel cannot tell about this owned process, or not its start identity. */
  predicate Unreadable(server: Server, child: nat -> Child) {
    && server.holding.Owned?
    && (child(server.key.pid).ChildUnknown? || child(server.key.pid) == ChildRunning(None))
  }

  /** `after` is `before` with the leases of the sessions in `bumped` extended, and nothing else changed. */
  ghost predicate OnlyLeasesExtended(before: Servers, after: Servers, bumped: set<string>, now: nat) {
    && after.Keys == before.Keys
    && (forall s :: s in before ==>
          if s in bumped then
            before[s].expires > now
            && after[s] == before[s].(expires := now + Max(before[s].expires - now, LEASE_FLOOR))
          else after[s] == before[s])
  }

  /** A registry whose entries are filed under their own session. */
  ghost predicate Filed(servers: Servers) {
    forall s :: s in servers ==> servers[s].key.session == s
  }

  // ---------------------------------------------------------------- handlers

  lemma AdoptOneMore(servers: Servers, source: string, es: seq<Export>, i: nat, now: nat)
    requires i < |es| && DistinctSessions(es)
    ensures AdoptEntry(AdoptedServers(servers, source, es[..i], now), source, es[i], now)
         == AdoptEntry(servers, source, es[i], now)
    ensures AdoptedServers(servers, source, es[..i + 1], now)
         == AdoptedServers(servers, source, es[..i], now)[es[i].key.session := AdoptEntry(servers, source, es[i], now)]
  {
    SessionsGrow(es, i);
  }

  lemma NoneAdopted(servers: Servers, source: string, es: seq<Export>, now: nat)
    ensures AdoptedServers(servers, source, es[..0], now) == servers
  {
  }

  lemma WholeList(es: seq<Export>)
    ensures es[..|es|] == es
  {
  }

  lemma ReleaseOneMore(servers: Servers, target: string, es: seq<Export>, i: nat, now: nat)
    requires i < |es| && DistinctSessions(es) && es[i].key.session in servers
    ensures es[i].key.session !in SessionsOf(es[..i])
    ensures ReleasedServers(servers, target, es[..i + 1], now)
         == ReleasedServers(servers, target, es[..i], now)
              [es[i].key.session := ReleaseEntry(servers[es[i].key.session], target, es[i], now)]
  {
    SessionsGrow(es, i);
  }

  lemma SessionsGrow(es: seq<Export>, i: nat)
    requires i < |es| && DistinctSessions(es)
    ensures es[i].key.session !in SessionsOf(es[..i])
    ensures SessionsOf(es[..i + 1]) == SessionsOf(es[..i]) + {es[i].key.session}
    ensures ExportFor(es[..i + 1], es[i].key.session) == es[i]
    ensures forall s :: s in SessionsOf(es[..i]) ==> ExportFor(es[..i + 1], s) == ExportFor(es[..i], s)
  {
    assert es[..i + 1][..i] == es[..i];
    assert es[..i + 1] == es[..i] + [es[i]];
  }

  method ValidateExports(es: seq<Export>) returns (fault: Option<Fault>)
    ensures fault.None? <==> ValidExports(es)
    ensures fault.None? <==>
      && (forall e :: e in es ==>
            && e.key.session != "" && e.key.thread != "" && e.key.epoch >= 1 && e.key.url.text != ""
            && e.key.url.loopback && e.key.pid != 0 && e.key.leaseId != "" && e.pidIdentity != ""
            && e.leaseMillis >= 1)
      && forall i, j :: 0 <= i < j < |es| ==> es[i].key.session != es[j].key.session
  {
    var seen: set<string> := {};
    for i := 0 to |es|
      invariant seen == SessionsOf(es[..i])
      invariant ValidExports(es[..i])
    {
      assert es[..i + 1] == es[..i] + [es[i]];
      if !ValidExport(es[i]) {
        assert es[i] in es;
        return Some(InvalidExport);
      }
      if es[i].key.session in seen {
        return Some(DuplicateExport);
      }
      seen := seen + {es[i].key.session};
    }
    assert es[..|es|] == es;
    return None;
  }

  class Daemon {
    var servers: Servers
    var quiescing: bool
    var stopping: bool
    var bootstraps: set<string>

    ghost function Seen(): View
      reads this
    {
      View(servers, quiescing, stopping, bootstraps)
    }

    method PreflightAdopt(es: seq<Export>, probe: Probe) returns (fault: Option<Fault>)
      ensures fault.None? <==>
        && (forall e :: e in es ==> probe(e.key.pid, e.pidIdentity) == Running)
        && (forall e :: e in es && e.key.session in servers ==> Readoptable(servers[e.key.session], e))
    {
      for i := 0 to |es|
        invariant forall k :: 0 <= k < i ==> probe(es[k].key.pid, es[k].pidIdentity) == Running
      {
        assert es[i] in es;
        match probe(es[i].key.pid, es[i].pidIdentity) {
          case Running =>
          case NotRunning => return Some(ProcessNotRunning);
          case OtherProcess => return Some(ProcessChanged);
          case Unknown => return Some(OsError);
        }
      }
      for i := 0 to |es|
        invariant forall k :: 0 <= k < i && es[k].key.session in servers ==>
                    Readoptable(servers[es[k].key.session], es[k])
      {
        var s := es[i].key.session;
        assert es[i] in es;
        if s in servers && (servers[s].key != es[i].key || !servers[s].holding.Adopted?) {
          return Some(SessionTaken);
        }
      }
      return None;
    }

    method PreflightUnadopt(source: string, es: seq<Export>) returns (fault: Option<Fault>)
      ensures fault.None? <==>
        forall e :: e in es && e.key.session in servers ==> Unadoptable(servers[e.key.session], source, e)
    {
      for i := 0 to |es|
        invariant forall k :: 0 <= k < i && es[k].key.session in servers ==>
                    Unadoptable(servers[es[k].key.session], source, es[k])
      {
        var s := es[i].key.session;
        assert es[i] in es;
        if s in servers {
          if servers[s].key != es[i].key { return Some(ServerChanged); }
          if !servers[s].holding.Adopted? { return Some(WrongHolding); }
          if servers[s].holding.source != source { return Some(WrongPeer); }
        }
      }
      return None;
    }

    /** Takes over the exported servers: checks the whole batch, then inserts or re-leases each entry. */
    method Adopt(source: string, es: seq<Export>, probe: Probe, now: nat)
      returns (r: Result<seq<Server>, Fault>)
      modifies this`servers
      ensures r.Success? <==> AdoptAllowed(old(Seen()), source, es, probe)
      ensures stopping || quiescing || source == "" ==> r.Failure?
      ensures r.Success? ==> forall e :: e in es ==> probe(e.key.pid, e.pidIdentity) == Running
      ensures servers == if r.Success? then AdoptedServers(old(servers), source, es, now) else old(servers)
      ensures servers.Keys == old(servers).Keys + (if r.Success? then SessionsOf(es) else {})
      ensures forall s :: s in old(servers) && s !in SessionsOf(es) ==> servers[s] == old(servers)[s]
      ensures r.Success? ==> forall e :: e in es ==>
                && servers[e.key.session].key == e.key && servers[e.key.session].holding.Adopted?
                && servers[e.key.session].expires == Max(now + e.leaseMillis, now + 60_000)
      ensures r.Success? ==> forall e :: e in es && e.key.session in old(servers) ==>
                && servers[e.key.session].startedAt == old(servers)[e.key.session].startedAt
                && servers[e.key.session].holding == old(servers)[e.key.session].holding
      ensures r.Success? ==> forall e :: e in es && e.key.session !in old(servers) ==>
                && servers[e.key.session].startedAt == e.startedAt
                && servers[e.key.session].holding == Adopted(e.pidIdentity, source)
      ensures r.Success? ==> |r.value| == |es| && forall i :: 0 <= i < |es| ==>
                r.value[i] == servers[es[i].key.session]
    {
      if stopping { return Failure(DaemonStopping); }
      if quiescing { return Failure(DaemonQuiescing); }
      if source == "" { return Failure(EmptyField); }
      var invalid := ValidateExports(es);
      if invalid.Some? { return Failure(invalid.value); }
      var refused := PreflightAdopt(es, probe);
      if refused.Some? { return Failure(refused.value); }
      assert AdoptAllowed(Seen(), source, es, probe);
      var adopted := InsertAll(source, es, now);
      forall e | e in es { AdoptedAre(old(servers), source, es, e, now); }
      forall i | 0 <= i < |es| ensures adopted[i] == servers[es[i].key.session] { ExportForIs(es, es[i]); }
      return Success(adopted);
    }

    method InsertAll(source: string, es: seq<Export>, now: nat) returns (adopted: seq<Server>)
      requires DistinctSessions(es)
      modifies this`servers
      ensures servers == AdoptedServers(old(servers), source, es, now)
      ensures |adopted| == |es|
      ensures forall i :: 0 <= i < |es| ==> adopted[i] == AdoptEntry(old(servers), source, es[i], now)
    {
      hide *;
      ghost var before := servers;
      adopted := [];
      NoneAdopted(before, source, es, now);
      for i := 0 to |es|
        invariant servers == AdoptedServers(before, source, es[..i], now)
        invariant |adopted| == i
        invariant forall k :: 0 <= k < i ==> adopted[k] == AdoptEntry(before, source, es[k], now)
      {
        AdoptOneMore(before, source, es, i, now);
        // An entry that is already there keeps its record and gets the new lease.
        var entry := AdoptEntry(servers, source, es[i], now);
        assert entry == AdoptEntry(before, source, es[i], now);
        servers := servers[es[i].key.session := entry];
        adopted := adopted + [entry];
      }
      WholeList(es);
    }

    /** Gives adopted servers back: checks the whole batch, then removes each entry it still has. */
    method Unadopt(source: string, es: seq<Export>) returns (r: Result<seq<Server>, Fault>)
      modifies this`servers
      ensures r.Success? <==> UnadoptAllowed(old(Seen()), source, es)
      ensures source == "" ==> r.Failure?
      ensures servers == if r.Success? then old(servers) - SessionsOf(es) else old(servers)
      ensures r.Success? ==> forall e :: e in es && e.key.session in old(servers) ==>
                && old(servers)[e.key.session].key == e.key && old(servers)[e.key.session].holding.Adopted?
                && old(servers)[e.key.session].holding.source == source
      ensures r.Success? ==> r.value == Present(old(servers), es)
      ensures r.Success? ==> forall server :: server in r.value <==>
                exists e :: e in es && e.key.session in old(servers) && old(servers)[e.key.session] == server
    {
      if source == "" { return Failure(EmptyField); }
      var invalid := ValidateExports(es);
      if invalid.Some? { return Failure(invalid.value); }
      var refused := PreflightUnadopt(source, es);
      if refused.Some? { return Failure(refused.value); }
      assert UnadoptAllowed(Seen(), source, es);
      ghost var before := servers;
      var infos := RemoveAll(es);
      forall server { PresentAre(before, es, server); }
      return Success(infos);
    }

    method RemoveAll(es: seq<Export>) returns (infos: seq<Server>)
      requires DistinctSessions(es)
      modifies this`servers
      ensures servers == old(servers) - SessionsOf(es)
      ensures infos == Present(old(servers), es)
    {
      ghost var before := servers;
      infos := [];
      for i := 0 to |es|
        invariant servers == before - SessionsOf(es[..i])
        invariant infos == Present(before, es[..i])
      {
        SessionsGrow(es, i);
        assert es[..i + 1][..i] == es[..i];
        var s := es[i].key.session;
        if s in servers {
          infos := infos + [servers[s]];
          servers := servers - {s};
        }
      }
      assert es[..|es|] == es;
    }

    method PreflightRelease(target: string, es: seq<Export>) returns (fault: Option<Fault>)
      ensures fault.None? <==> forall e :: e in es ==>
                e.key.session in servers && Releasable(servers[e.key.session], target, e)
    {
      for i := 0 to |es|
        invariant forall k :: 0 <= k < i ==>
                    es[k].key.session in servers && Releasable(servers[es[k].key.session], target, es[k])
      {
        var s := es[i].key.session;
        assert es[i] in es;
        if s !in servers { return Some(ServerMissing); }
        if servers[s].key != es[i].key { return Some(ServerChanged); }
        match servers[s].holding {
          case Owned =>
          case HandedOff(_, t) => if t != target { return Some(WrongPeer); }
          case Adopted(_, _) => return Some(WrongHolding);
        }
      }
      return None;
    }

    /** Marks the exported servers as handed off to `target`, again all or none. */
    method Release(target: string, es: seq<Export>, now: nat) returns (r: Result<seq<Server>, Fault>)
      modifies this`servers
      ensures r.Success? <==> ReleaseAllowed(old(Seen()), target, es)
      ensures stopping || !quiescing || target == "" ==> r.Failure?
      ensures servers == if r.Success? then ReleasedServers(old(servers), target, es, now) else old(servers)
      ensures servers.Keys == old(servers).Keys
      ensures forall s :: s in servers && s !in SessionsOf(es) ==> servers[s] == old(servers)[s]
      ensures r.Success? ==> forall e :: e in es ==>
                && e.key.session in servers && servers[e.key.session].key == e.key
                && servers[e.key.session].startedAt == old(servers)[e.key.session].startedAt
                && servers[e.key.session].expires == Max(now + e.leaseMillis, now + 60_000)
                && servers[e.key.session].holding == if old(servers)[e.key.session].holding.Owned?
                                                     then HandedOff(e.pidIdentity, target)
                                                     else old(servers)[e.key.session].holding
      ensures r.Success? ==> |r.value| == |es| && forall i :: 0 <= i < |es| ==>
                es[i].key.session in servers && r.value[i] == servers[es[i].key.session]
    {
      if target == "" { return Failure(EmptyField); }
      if stopping { return Failure(DaemonStopping); }
      if !quiescing { return Failure(DaemonNotQuiescing); }
      var invalid := ValidateExports(es);
      if invalid.Some? { return Failure(invalid.value); }
      var refused := PreflightRelease(target, es);
      if refused.Some? { return Failure(refused.value); }
      assert ReleaseAllowed(Seen(), target, es);
      ghost var before := servers;
      var released := MarkAll(target, es, now);
      forall e | e in es { ReleasedAre(before, target, es, e, now); }
      return Success(released);
    }

    method MarkAll(target: string, es: seq<Export>, now: nat) returns (released: seq<Server>)
      requires DistinctSessions(es)
      requires forall e :: e in es ==> e.key.session in servers && Releasable(servers[e.key.session], target, e)
      modifies this`servers
      ensures servers == ReleasedServers(old(servers), target, es, now)
      ensures |released| == |es| && forall i :: 0 <= i < |es| ==>
                es[i].key.session in servers && released[i] == servers[es[i].key.session]
    {
      ghost var before := servers;
      released := [];
      assert servers == ReleasedServers(before, target, es[..0], now);
      for i := 0 to |es|
        invariant servers == ReleasedServers(before, target, es[..i], now)
        invariant |released| == i
        invariant forall k :: 0 <= k < i ==> es[k].key.session in servers && released[k] == servers[es[k].key.session]
      {
        ReleaseOneMore(before, target, es, i, now);
        var e := es[i];
        // The entry is still there and is not adopted: neither panic of the release loop can fire.
        assert e in es && e.key.session in servers && !servers[e.key.session].holding.Adopted?;
        var server := servers[e.key.session];
        servers := servers - {e.key.session};
        var holding := if server.holding.Owned? then HandedOff(e.pidIdentity, target) else server.holding;
        server := server.(holding := holding, expires := now + LeaseFor(e));
        servers := servers[e.key.session := server];
        released := released + [server];
      }
      assert es[..|es|] == es;
    }

    /** Reports who holds each exported server, without changing anything. */
    method ReleaseStatus(target: string, es: seq<Export>) returns (r: Result<seq<Ownership>, Fault>)
      ensures r.Success? <==> StatusAllowed(Seen(), target, es)
      ensures r.Success? ==> |r.value| == |es| && forall i :: 0 <= i < |es| ==> r.value[i] == StatusOf(servers, es[i])
    {
      if target == "" { return Failure(EmptyField); }
      var invalid := ValidateExports(es);
      if invalid.Some? { return Failure(invalid.value); }
      var rows: seq<Ownership> := [];
      for i := 0 to |es|
        invariant |rows| == i
        invariant forall k :: 0 <= k < i ==> rows[k] == StatusOf(servers, es[k])
        invariant forall k :: 0 <= k < i && es[k].key.session in servers ==>
                    servers[es[k].key.session].key == es[k].key && !servers[es[k].key.session].holding.Adopted?
      {
        var s := es[i].key.session;
        assert es[i] in es;
        if s !in servers {
          rows := rows + [IsMissing];
        } else {
          if servers[s].key != es[i].key { return Failure(ServerChanged); }
          match servers[s].holding {
            case Owned => rows := rows + [IsOwned];
            case HandedOff(_, t) => rows := rows + [IsHandedOff(t)];
            case Adopted(_, _) => return Failure(WrongHolding);
          }
        }
      }
      return Success(rows);
    }

    /** Lists the owned, running, unexpired servers in the order the map yields them and extends their leases.
        A kernel query that fails ends the pass, with the leases of the entries already listed extended. */
    method ExportOwned(child: nat -> Child, now: nat) returns (r: Result<seq<Export>, Fault>, ghost bumped: set<string>)
      requires Filed(servers)
      modifies this`servers
      ensures OnlyLeasesExtended(old(servers), servers, bumped, now)
      ensures forall s :: s in bumped ==> s in old(servers) && Exportable(old(servers)[s], child, now)
      ensures r.Success? ==> bootstraps == {} && ExportsExactly(r.value, old(servers), old(servers).Keys, child, now)
      ensures r.Success? ==> bumped == SessionsOf(r.value)
      ensures r == Failure(ActiveBootstrap) <==> bootstraps != {}
      ensures r == Failure(OsError) <==>
                bootstraps == {} && exists s :: s in old(servers) && Unreadable(old(servers)[s], child)
      ensures r.Failure? ==> r.error in {ActiveBootstrap, OsError}
    {
      bumped := {};
      if bootstraps != {} { return Failure(ActiveBootstrap), bumped; }
      var es: seq<Export> := [];
      var todo := servers.Keys;
      ghost var before := servers;
      while todo != {}
        invariant todo <= before.Keys && todo !! bumped
        invariant OnlyLeasesExtended(before, servers, bumped, now)
        invariant bumped == SessionsOf(es) && bumped <= before.Keys
        invariant ExportsExactly(es, before, before.Keys - todo, child, now)
        invariant forall s :: s in before.Keys - todo ==> !Unreadable(before[s], child)
        decreases todo
      {
        var s :| s in todo;
        assert before.Keys - (todo - {s}) == (before.Keys - todo) + {s};
        var server := servers[s];
        assert server == before[s];
        ghost var done := before.Keys - todo;
        todo := todo - {s};
        if !server.holding.Owned? { continue; }
        var status := child(server.key.pid);
        if status.ChildUnknown? { return Failure(OsError), bumped; }
        if status.ChildGone? { continue; }
        if status.identity.None? { return Failure(OsError), bumped; }
        if server.expires <= now { continue; }
        var e := Export(server.key, status.identity.value, server.startedAt, server.expires - now);
        servers := servers[s := server.(expires := now + LeaseFor(e))];
        ExportOneMore(es, before, done, s, e, child, now);
        bumped := bumped + {s};
        es := es + [e];
      }
      assert before.Keys - todo == before.Keys;
      return Success(es), bumped;
    }

    /** Closes the daemon to new work and exports its servers; a failure puts the flag back as it was. */
    method Quiesce(targetMatches: bool, child: nat -> Child, now: nat)
      returns (r: Result<seq<Export>, Fault>, ghost bumped: set<string>)
      requires Filed(servers)
      modifies this`servers, this`quiescing
      ensures quiescing == (r.Success? || old(quiescing))
      ensures OnlyLeasesExtended(old(servers), servers, bumped, now)
      ensures r.Success? ==> !stopping && targetMatches && bootstraps == {}
      ensures r.Failure? <==> stopping || !targetMatches || bootstraps != {}
                              || exists s :: s in old(servers) && Unreadable(old(servers)[s], child)
      ensures r.Failure? ==> r.error == if stopping then DaemonStopping else if !targetMatches then WrongTarget
                                        else if bootstraps != {} then ActiveBootstrap else OsError
      ensures r.Success? ==> ExportsExactly(r.value, old(servers), old(servers).Keys, child, now)
      ensures r.Success? ==> bumped == SessionsOf(r.value)
    {
      bumped := {};
      var wasQuiescing := quiescing;
      if stopping { return Failure(DaemonStopping), bumped; }
      if !targetMatches { return Failure(WrongTarget), bumped; }
      quiescing := true;
      r, bumped := ExportOwned(child, now);
      if r.Failure? && !wasQuiescing { quiescing := false; }
    }

    method Unquiesce(targetMatches: bool) returns (r: Result<(), Fault>)
      modifies this`quiescing
      ensures r.Success? <==> !stopping && targetMatches
      ensures quiescing == (old(quiescing) && r.Failure?)
    {
      if stopping { return Failure(DaemonStopping); }
      if !targetMatches { return Failure(WrongTarget); }
      quiescing := false;
      return Success(());
    }
  }
}
