/** An open clash does not block recovery for good: the stale server's lease runs out and it is reaped, while the
    running servers of the legacy daemon stay. */
module Clearing {
  import opened Results
  import opened Registry
  import opened Protocol
  import opened Safety
  import opened Recovery

  /** From `u` to `t` only registries, signals and the mark of an undisturbed attempt have changed. */
  predicate OnlyRegistries(u: Sys, t: Sys) {
    && t == u.(daemons := t.daemons, signalled := t.signalled, co := u.co.(disturbed := t.co.disturbed))
    && t.daemons.Keys == u.daemons.Keys && u.signalled <= t.signalled
  }

  /** Time passes, a live server's lease at the legacy daemon is refreshed, or a stale server at `g` is reaped. */
  predicate Waits(ev: Event, live: set<string>, g: string, stale: set<string>) {
    && ev.Outside?
    && (ev.w.Tick? || (ev.w.Refresh? && ev.w.a == LEGACY && ev.w.x in live)
        || (ev.w.Reap? && ev.w.a == g && ev.w.x in stale))
  }

  predicate OnlyWaits(evs: seq<Event>, live: set<string>, g: string, stale: set<string>) {
    forall ev {:trigger Waits(ev, live, g, stale)} :: ev in evs ==> Waits(ev, live, g, stale)
  }

  lemma OneMore(s: Sys, evs: seq<Event>, w: Happening, live: set<string>, g: string, stale: set<string>)
    returns (more: seq<Event>)
    requires TimelyRun(s, evs) && OnlyWaits(evs, live, g, stale) && Waits(Outside(w), live, g, stale)
    ensures TimelyRun(s, more) && OnlyWaits(more, live, g, stale) && Run(s, more) == WorldNext(Run(s, evs), w)
  {
    more := evs + [Outside(w)];
    assert more[..|evs|] == evs;
  }

  // ---------------------------------------------------------------- refreshing the running servers

  function Refreshed(servers: Servers, these: set<string>, until: nat): Servers {
    map x | x in servers :: if x in these then servers[x].(expires := until) else servers[x]
  }

  predicate CanRefresh(s: Sys, x: string) {
    HasEntry(s, LEGACY, x) && !EntryAt(s, LEGACY, x).holding.HandedOff? && EntryAt(s, LEGACY, x).key.pid in s.alive
  }

  /** The legacy daemon's servers in `these` have leases until `until`. */
  predicate RefreshedTo(u: Sys, t: Sys, these: set<string>, until: nat) {
    && OnlyRegistries(u, t) && t.signalled == u.signalled
    && t.daemons == if LEGACY in u.daemons
                    then u.daemons[LEGACY := u.daemons[LEGACY].(servers :=
                           Refreshed(u.daemons[LEGACY].servers, these, until))]
                    else u.daemons
  }

  lemma RefreshOne(u: Sys, x: string, ttl: nat)
    requires CanRefresh(u, x) && ttl > 0
    ensures RefreshedTo(u, WorldNext(u, Refresh(LEGACY, x, ttl)), {x}, u.now + ttl)
  {
    var d := u.daemons[LEGACY];
    assert Refreshed(d.servers, {x}, u.now + ttl) == d.servers[x := d.servers[x].(expires := u.now + ttl)];
  }

  lemma RefreshedTwice(u: Sys, v: Sys, t: Sys, these: set<string>, those: set<string>, until: nat)
    requires RefreshedTo(u, v, these, until) && RefreshedTo(v, t, those, until)
    ensures RefreshedTo(u, t, these + those, until)
  {
    if LEGACY in u.daemons {
      var d := u.daemons[LEGACY].servers;
      assert Refreshed(Refreshed(d, these, until), those, until) == Refreshed(d, these + those, until);
    }
  }

  lemma RefreshedNone(u: Sys, until: nat)
    ensures RefreshedTo(u, u, {}, until)
  {
    if LEGACY in u.daemons { assert Refreshed(u.daemons[LEGACY].servers, {}, until) == u.daemons[LEGACY].servers; }
  }

  lemma RefreshAll(s: Sys, evs: seq<Event>, these: set<string>, ttl: nat, live: set<string>, g: string,
                   stale: set<string>)
    returns (more: seq<Event>)
    requires TimelyRun(s, evs) && OnlyWaits(evs, live, g, stale) && these <= live
    requires ttl > 0 && forall x :: x in these ==> CanRefresh(Run(s, evs), x)
    ensures TimelyRun(s, more) && OnlyWaits(more, live, g, stale)
    ensures RefreshedTo(Run(s, evs), Run(s, more), these, Run(s, evs).now + ttl)
    decreases these
  {
    hide Run, TimelyRun;
    var u := Run(s, evs);
    if these == {} {
      more := evs;
      RefreshedNone(u, u.now + ttl);
    } else {
      var x :| x in these;
      more := OneMore(s, evs, Refresh(LEGACY, x, ttl), live, g, stale);
      RefreshOne(u, x, ttl);
      var v := Run(s, more);
      more := RefreshAll(s, more, these - {x}, ttl, live, g, stale);
      RefreshedTwice(u, v, Run(s, more), {x}, these - {x}, u.now + ttl);
      assert {x} + (these - {x}) == these;
    }
  }

  // ---------------------------------------------------------------- reaping the stale servers

  predicate CanReap(s: Sys, g: string, x: string) {
    HasEntry(s, g, x) && EntryAt(s, g, x).expires <= s.now && !EntryAt(s, g, x).holding.HandedOff?
  }

  /** The servers in `these` are gone from `g`, and only their processes were signalled. */
  predicate ReapedAt(u: Sys, t: Sys, g: string, these: set<string>) {
    && OnlyRegistries(u, t)
    && t.daemons == (if g in u.daemons
                     then u.daemons[g := u.daemons[g].(servers := u.daemons[g].servers - these)] else u.daemons)
    && forall p :: p in t.signalled && p !in u.signalled ==> PidOf(u, g, these, p)
  }

  predicate PidOf(u: Sys, g: string, these: set<string>, p: nat) {
    exists x :: x in these && HasEntry(u, g, x) && EntryAt(u, g, x).key.pid == p
  }

  lemma ReapOne(u: Sys, g: string, x: string)
    requires CanReap(u, g, x)
    ensures ReapedAt(u, WorldNext(u, Reap(g, x)), g, {x})
  {
  }

  lemma ReapedTwice(u: Sys, v: Sys, t: Sys, g: string, these: set<string>, those: set<string>)
    requires ReapedAt(u, v, g, these) && ReapedAt(v, t, g, those)
    ensures ReapedAt(u, t, g, these + those)
  {
    if g in u.daemons {
      var d := u.daemons[g].servers;
      assert d - these - those == d - (these + those);
    }
    forall p | p in t.signalled && p !in u.signalled ensures PidOf(u, g, these + those, p) {
      if p in v.signalled {
        assert PidOf(u, g, these, p);
      } else {
        var x :| x in those && HasEntry(v, g, x) && EntryAt(v, g, x).key.pid == p;
        assert HasEntry(u, g, x) && EntryAt(u, g, x).key.pid == p;
      }
    }
  }

  lemma ReapAll(s: Sys, evs: seq<Event>, g: string, these: set<string>, live: set<string>, stale: set<string>)
    returns (more: seq<Event>)
    requires TimelyRun(s, evs) && OnlyWaits(evs, live, g, stale) && these <= stale
    requires forall x :: x in these ==> CanReap(Run(s, evs), g, x)
    ensures TimelyRun(s, more) && OnlyWaits(more, live, g, stale)
    ensures ReapedAt(Run(s, evs), Run(s, more), g, these)
    decreases these
  {
    hide Run, TimelyRun;
    var u := Run(s, evs);
    if these == {} {
      more := evs;
      assert g in u.daemons ==> u.daemons[g].servers - {} == u.daemons[g].servers;
    } else {
      var x :| x in these;
      more := OneMore(s, evs, Reap(g, x), live, g, stale);
      ReapOne(u, g, x);
      var v := Run(s, more);
      more := ReapAll(s, more, g, these - {x}, live, stale);
      ReapedTwice(u, v, Run(s, more), g, {x}, these - {x});
      assert {x} + (these - {x}) == these;
    }
  }

  // ---------------------------------------------------------------- waiting

  function LiveSessions(s: Sys): set<string> {
    if Answers(s, LEGACY) then set x | x in s.daemons[LEGACY].servers && Live(s, x) else {}
  }

  /** The live sessions for which the other daemon lists another server. */
  function Blocked(s: Sys, g: string): set<string> {
    set x | x in LiveSessions(s) && !Agrees(s, g, x)
  }

  /** A time by which every lease has run out. */
  ghost function LastLease(servers: Servers): (b: nat)
    ensures forall x :: x in servers ==> servers[x].expires <= b
    decreases servers.Keys
  {
    if servers == map[] then 0
    else
      var x :| x in servers;
      var rest := servers - {x};
      assert forall y :: y in servers ==> y == x || (y in rest && rest[y] == servers[y]);
      Max(servers[x].expires, LastLease(rest))
  }

  /** What waiting has changed: only the servers that were in the way are gone, and only they were signalled; every
      live server still is. */
  ghost predicate Cleared(s: Sys, t: Sys, g: string) {
    && t.alive == s.alive && t.procs == s.procs && t.co.phase == s.co.phase
    && (forall x :: x in LiveSessions(s) ==>
          HasEntry(t, LEGACY, x) && Live(t, x) && EntryAt(t, LEGACY, x).key == EntryAt(s, LEGACY, x).key)
    && (forall x :: HasEntry(s, g, x) && x !in Blocked(s, g) ==>
          HasEntry(t, g, x) && EntryAt(t, g, x) == EntryAt(s, g, x))
    && (forall p :: p in t.signalled && p !in s.signalled ==> PidOf(s, g, Blocked(s, g), p))
  }

  /** Between the refreshes and the reaps, time passes. */
  predicate Passed(s: Sys, v: Sys, ttl: nat)
    requires ttl > 0
  {
    && v == s.(daemons := v.daemons, now := s.now + ttl - 1, co := s.co.(disturbed := v.co.disturbed))
    && v.daemons == if LEGACY in s.daemons
                    then s.daemons[LEGACY := s.daemons[LEGACY].(servers :=
                           Refreshed(s.daemons[LEGACY].servers, LiveSessions(s), s.now + ttl))]
                    else s.daemons
  }

  lemma TickPasses(s: Sys, u: Sys, ttl: nat)
    requires RefreshedTo(s, u, LiveSessions(s), s.now + ttl) && ttl > 0
    ensures Passed(s, WorldNext(u, Tick(ttl - 1)), ttl)
  {
  }

  /** Exactly the servers that were live still are. */
  lemma LiveStays(s: Sys, v: Sys, ttl: nat, x: string)
    requires ttl > 0 && Passed(s, v, ttl)
    ensures HasEntry(v, LEGACY, x) <==> HasEntry(s, LEGACY, x)
    ensures HasEntry(s, LEGACY, x) ==>
            (Live(v, x) <==> Live(s, x)) && EntryAt(v, LEGACY, x).key == EntryAt(s, LEGACY, x).key
  {
    assert ChildOf(v) == ChildOf(s);
  }

  lemma BlockedCanBeReaped(s: Sys, v: Sys, g: string, ttl: nat, x: string)
    requires Inv(s) && g != LEGACY && ttl > 0 && Passed(s, v, ttl) && x in Blocked(s, g)
    requires s.now + ttl > LastLease(s.daemons[g].servers)
    ensures CanReap(v, g, x)
  {
    assert GoodEntry(s, g, x);
  }

  lemma ReapingClears(s: Sys, v: Sys, t: Sys, g: string, ttl: nat)
    requires g != LEGACY && ttl > 0 && Passed(s, v, ttl) && ReapedAt(v, t, g, Blocked(s, g))
    ensures Compatible(t, g) && Cleared(s, t, g)
  {
    assert ChildOf(t) == ChildOf(v);
    forall x ensures HasEntry(t, LEGACY, x) <==> HasEntry(s, LEGACY, x) { LiveStays(s, v, ttl, x); }
    forall x | HasEntry(s, LEGACY, x)
      ensures (Live(t, x) <==> Live(s, x)) && EntryAt(t, LEGACY, x).key == EntryAt(s, LEGACY, x).key
    {
      LiveStays(s, v, ttl, x);
    }
    forall x | HasEntry(t, LEGACY, x) && Live(t, x) ensures Agrees(t, g, x) {
      assert x in LiveSessions(s);
    }
    forall p | p in t.signalled && p !in s.signalled ensures PidOf(s, g, Blocked(s, g), p) {
      assert PidOf(v, g, Blocked(s, g), p);
    }
  }

  /** From any state, some waiting, in which the legacy daemon's users refresh their leases and the stale servers are
      reaped once theirs have run out, leads to a state from which a fault-free attempt hands over every session that
      was live at the outset. */
  lemma WaitingClearsTheWay(s: Sys, g: string) returns (evs: seq<Event>)
    requires Inv(s) && g != LEGACY
    ensures OnlyWaits(evs, LiveSessions(s), g, Blocked(s, g)) && TimelyRun(s, evs) && Inv(Run(s, evs))
    ensures Compatible(Run(s, evs), g) && Cleared(s, Run(s, evs), g)
  {
    var last := if g in s.daemons then LastLease(s.daemons[g].servers) else 0;
    var ttl: nat := if last >= s.now then last - s.now + 1 else 1;
    var live, stale := LiveSessions(s), Blocked(s, g);
    evs := RefreshAll(s, [], live, ttl, live, g, stale);
    var u := Run(s, evs);
    TickPasses(s, u, ttl);
    evs := OneMore(s, evs, Tick(ttl - 1), live, g, stale);
    var v := Run(s, evs);
    forall x | x in stale ensures CanReap(v, g, x) { BlockedCanBeReaped(s, v, g, ttl, x); }
    evs := ReapAll(s, evs, g, stale, live, stale);
    ReapingClears(s, v, Run(s, evs), g, ttl);
    TimelyRunKeepsInv(s, evs);
  }

  lemma {:induction false} TimelyRunKeepsInv(s: Sys, evs: seq<Event>)
    requires Inv(s) && TimelyRun(s, evs)
    ensures Inv(Run(s, evs))
  {
    if evs != [] {
      TimelyRunKeepsInv(s, evs[..|evs| - 1]);
      NextKeepsInv(Run(s, evs[..|evs| - 1]), evs[|evs| - 1]);
    }
  }

  /** After that, one fault-free attempt hands over every session that was live before the waiting. */
  lemma WaitedAttemptSucceeds(s: Sys, t: Sys, g: string, listed: seq<Export>)
    requires Inv(t) && Compatible(t, g) && Cleared(s, t, g) && Ready(t, g, listed)
    ensures var r := Moves(t, CleanAttempt(g, listed));
            && r.co.phase in {Finished(Committed), Finished(NothingExported)}
            && forall x :: x in LiveSessions(s) ==> HasEntry(t, LEGACY, x) && HandedOver(t, r, g, x)
  {
    CleanAttemptSucceedsIff(t, g, listed);
  }
}
