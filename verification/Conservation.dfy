/** Where every spawned app-server is, on every run of the registration handlers. */
module Conservation {
  import opened Results
  import opened Registration

  datatype Place =
    | InServers(session: string)
    | InBoots(boot: string)
    | Candidate(i: nat)     // held by handler `i`, not registered
    | Victim(i: nat)        // taken out by handler `i`, about to be stopped
    | Stopped

  predicate At(s: State, p: Proc, place: Place) {
    match place
    case InServers(x) => x in s.sh.servers && s.sh.servers[x] == p
    case InBoots(b) => b in s.sh.boots && s.sh.boots[b] == p
    case Candidate(i) => i < |s.threads| && s.threads[i].cand == Some(p)
    case Victim(i) => i < |s.threads| && p in s.threads[i].victims
    case Stopped => p in s.sh.stopped
  }

  /** `loc` gives each spawned process the one place where it is. */
  ghost predicate Located(s: State, loc: map<Proc, Place>) {
    && loc.Keys == s.sh.spawned
    && forall p, place {:trigger At(s, p, place)} :: At(s, p, place) <==> p in loc && loc[p] == place
  }

  /** Where a step of handler `i` leaves a process that was at `place`. */
  function Moved(s: Shared, i: nat, th: Thread, n: Input, place: Place): Place {
    match place
    case InServers(x) => if x in SessionsOut(s, th, n) then Victim(i) else place
    case InBoots(b) =>
      if TakesBoot(s, th, n) && b == BootOf(th.kind) then Candidate(i)
      else if b in BootsOut(s, th, n) then Victim(i) else place
    case Candidate(j) =>
      if j != i then place
      else if FilesServer(s, th, n) then InServers(SessionOf(th.kind))
      else if FilesBoot(s, th, n) then InBoots(BootOf(th.kind))
      else if StopsCand(th) then Stopped else place
    case Victim(j) => if j == i && StopsVictims(th.pc) then Stopped else place
    case Stopped => place
  }

  function LocAfter(s: State, ev: Event, loc: map<Proc, Place>): map<Proc, Place>
  {
    if ev.Step? && ev.i < |s.threads| && Enabled(s.sh, s.threads[ev.i], ev.n) then
      var th := s.threads[ev.i];
      var moved := map p | p in loc :: Moved(s.sh, ev.i, th, ev.n, loc[p]);
      if Spawns(s.sh, th, ev.n) then moved[ev.n.newProc := Candidate(ev.i)] else moved
    else loc
  }

  function LocRun(s: State, evs: seq<Event>): map<Proc, Place>
  {
    if evs == [] then map[] else LocAfter(Run(s, evs[..|evs| - 1]), evs[|evs| - 1], LocRun(s, evs[..|evs| - 1]))
  }

  /** A new bootstrap never overwrites another. */
  lemma NoBootOverwritten(s: State, i: nat, n: Input)
    requires Inv(s) && i < |s.threads| && FilesBoot(s.sh, s.threads[i], n)
    ensures BootOf(s.threads[i].kind) !in s.sh.boots
  {
    assert ThreadOk(s.sh, i, s.threads[i]);
    forall k | 0 <= k < |s.threads| && HasFiled(s.threads[k])
      ensures BootOf(s.threads[k].kind) != BootOf(s.threads[i].kind)
    {
    }
  }

  ghost predicate ThreadsOk(s: State) {
    forall i {:trigger s.threads[i]} :: 0 <= i < |s.threads| ==> ThreadOk(s.sh, i, s.threads[i])
  }

  predicate Steps(s: State, i: nat, n: Input) {
    i < |s.threads| && Enabled(s.sh, s.threads[i], n)
  }

  lemma ServersLocated(s: State, i: nat, n: Input, loc: map<Proc, Place>, p: Proc, x: string)
    requires ThreadsOk(s) && Steps(s, i, n) && Located(s, loc)
    ensures var loc2 := LocAfter(s, Step(i, n), loc);
            At(Next(s, Step(i, n)), p, InServers(x)) <==> p in loc2 && loc2[p] == InServers(x)
  {
    assert ThreadOk(s.sh, i, s.threads[i]);
    assert At(s, p, InServers(x)) <==> p in loc && loc[p] == InServers(x);
    assert At(s, p, Candidate(i)) <==> p in loc && loc[p] == Candidate(i);
  }

  lemma BootsLocated(s: State, i: nat, n: Input, loc: map<Proc, Place>, p: Proc, b: string)
    requires ThreadsOk(s) && Steps(s, i, n) && Located(s, loc)
    requires FilesBoot(s.sh, s.threads[i], n) ==> BootOf(s.threads[i].kind) !in s.sh.boots
    ensures var loc2 := LocAfter(s, Step(i, n), loc);
            At(Next(s, Step(i, n)), p, InBoots(b)) <==> p in loc2 && loc2[p] == InBoots(b)
  {
    assert ThreadOk(s.sh, i, s.threads[i]);
    assert At(s, p, InBoots(b)) <==> p in loc && loc[p] == InBoots(b);
    assert At(s, p, Candidate(i)) <==> p in loc && loc[p] == Candidate(i);
  }

  lemma CandidatesLocated(s: State, i: nat, n: Input, loc: map<Proc, Place>, p: Proc, j: nat)
    requires ThreadsOk(s) && Steps(s, i, n) && Located(s, loc)
    ensures var loc2 := LocAfter(s, Step(i, n), loc);
            At(Next(s, Step(i, n)), p, Candidate(j)) <==> p in loc2 && loc2[p] == Candidate(j)
  {
    assert ThreadOk(s.sh, i, s.threads[i]);
    assert At(s, p, InBoots(BootOf(s.threads[i].kind))) <==> p in loc && loc[p] == InBoots(BootOf(s.threads[i].kind));
    assert At(s, p, Candidate(j)) <==> p in loc && loc[p] == Candidate(j);
  }

  lemma SessionsTaken(s: State, xs: set<string>, loc: map<Proc, Place>, p: Proc)
    requires Located(s, loc) && xs <= s.sh.servers.Keys
    ensures p in ProcsAt(s.sh.servers, xs) <==> p in loc && loc[p].InServers? && loc[p].session in xs
  {
    forall x | x in xs && s.sh.servers[x] == p ensures p in loc && loc[p] == InServers(x) {
      assert At(s, p, InServers(x));
    }
    if p in loc && loc[p].InServers? && loc[p].session in xs { assert At(s, p, loc[p]); }
  }

  lemma BootsTaken(s: State, bs: set<string>, loc: map<Proc, Place>, p: Proc)
    requires Located(s, loc) && bs <= s.sh.boots.Keys
    ensures p in ProcsAt(s.sh.boots, bs) <==> p in loc && loc[p].InBoots? && loc[p].boot in bs
  {
    forall b | b in bs && s.sh.boots[b] == p ensures p in loc && loc[p] == InBoots(b) {
      assert At(s, p, InBoots(b));
    }
    if p in loc && loc[p].InBoots? && loc[p].boot in bs { assert At(s, p, loc[p]); }
  }

  lemma VictimsLocated(s: State, i: nat, n: Input, loc: map<Proc, Place>, p: Proc, j: nat)
    requires ThreadsOk(s) && Steps(s, i, n) && Located(s, loc)
    ensures var loc2 := LocAfter(s, Step(i, n), loc);
            At(Next(s, Step(i, n)), p, Victim(j)) <==> p in loc2 && loc2[p] == Victim(j)
  {
    var out, bootsOut := SessionsOut(s.sh, s.threads[i], n), BootsOut(s.sh, s.threads[i], n);
    OnlyRegisteredGoOut(s.sh, s.threads[i], n);
    SessionsTaken(s, out, loc, p);
    BootsTaken(s, bootsOut, loc, p);
    assert ThreadOk(s.sh, i, s.threads[i]);
    assert At(s, p, Victim(j)) <==> p in loc && loc[p] == Victim(j);
  }

  lemma OnlyRegisteredGoOut(s: Shared, th: Thread, n: Input)
    ensures SessionsOut(s, th, n) <= s.servers.Keys && BootsOut(s, th, n) <= s.boots.Keys
    ensures StopsVictims(th.pc) ==> SessionsOut(s, th, n) == {} && BootsOut(s, th, n) == {}
    ensures TakesBoot(s, th, n) ==> BootsOut(s, th, n) == {}
  {
  }

  lemma StoppedLocated(s: State, i: nat, n: Input, loc: map<Proc, Place>, p: Proc)
    requires ThreadsOk(s) && Steps(s, i, n) && Located(s, loc)
    ensures var loc2 := LocAfter(s, Step(i, n), loc);
            At(Next(s, Step(i, n)), p, Stopped) <==> p in loc2 && loc2[p] == Stopped
  {
    assert ThreadOk(s.sh, i, s.threads[i]);
    assert At(s, p, Stopped) <==> p in loc && loc[p] == Stopped;
    assert At(s, p, Candidate(i)) <==> p in loc && loc[p] == Candidate(i);
    assert At(s, p, Victim(i)) <==> p in loc && loc[p] == Victim(i);
  }

  lemma NextKeepsLocated(s: State, ev: Event, loc: map<Proc, Place>)
    requires Inv(s) && Located(s, loc)
    ensures Located(Next(s, ev), LocAfter(s, ev, loc))
  {
    var t, loc2 := Next(s, ev), LocAfter(s, ev, loc);
    if ev.Step? && Steps(s, ev.i, ev.n) {
      if FilesBoot(s.sh, s.threads[ev.i], ev.n) { NoBootOverwritten(s, ev.i, ev.n); }
      forall p, place {:trigger At(t, p, place)}
        ensures At(t, p, place) <==> p in loc2 && loc2[p] == place
      {
        match place
        case InServers(x) => ServersLocated(s, ev.i, ev.n, loc, p, x);
        case InBoots(b) => BootsLocated(s, ev.i, ev.n, loc, p, b);
        case Candidate(j) => CandidatesLocated(s, ev.i, ev.n, loc, p, j);
        case Victim(j) => VictimsLocated(s, ev.i, ev.n, loc, p, j);
        case Stopped => StoppedLocated(s, ev.i, ev.n, loc, p);
      }
    } else {
      forall p, place {:trigger At(t, p, place)}
        ensures At(t, p, place) <==> p in loc2 && loc2[p] == place
      {
        assert At(t, p, place) == At(s, p, place);
      }
    }
  }

  /** On every run, from an empty daemon, each process that was ever spawned is in exactly one place: under one
      session, in one bootstrap, in the hands of one handler, or stopped. */
  lemma {:induction false} EveryProcessIsInOnePlace(s: State, evs: seq<Event>)
    requires Initial(s)
    ensures Inv(Run(s, evs)) && Located(Run(s, evs), LocRun(s, evs))
  {
    InitialIsSound(s);
    RunKeepsInv(s, evs);
    if evs == [] {
    } else {
      var before := evs[..|evs| - 1];
      EveryProcessIsInOnePlace(s, before);
      NextKeepsLocated(Run(s, before), evs[|evs| - 1], LocRun(s, before));
    }
  }

  /** No handler returns with a process in its hands. */
  lemma ReturnsEmptyHanded(s: State, evs: seq<Event>, i: nat, p: Proc)
    requires Initial(s) && i < |Run(s, evs).threads| && Run(s, evs).threads[i].pc.Done?
    ensures !At(Run(s, evs), p, Candidate(i)) && !At(Run(s, evs), p, Victim(i))
  {
    EveryProcessIsInOnePlace(s, evs);
    assert ThreadOk(Run(s, evs).sh, i, Run(s, evs).threads[i]);
  }

  // ---------------------------------------------------------------- what an export sees

  /** A handler that has spawned and not registered yet. */
  predicate StillUnregistered(th: Thread) {
    && (th.kind.Ensure? || Starts(th.kind))
    && (th.pc.SecondLock? || th.pc.SecondRemove? || th.pc.SecondStop? || th.pc.InsertLock? || th.pc.GiveUp?)
  }

  /** When a quiesce exports, no process hides in a bootstrap or in a promotion: each one is registered under a
      session, stopped or about to be, or the candidate of a handler that has not reached its registration. */
  lemma ExportHidesNothing(s: State, evs: seq<Event>, i: nat, p: Proc)
    requires Initial(s) && i < |Run(s, evs).threads| && Run(s, evs).threads[i].pc.Export?
    requires p in Run(s, evs).sh.spawned
    ensures var t, loc := Run(s, evs), LocRun(s, evs);
            && t.sh.quiescing
            && p in loc && At(t, p, loc[p]) && !loc[p].InBoots?
            && (loc[p].Candidate? ==> StillUnregistered(t.threads[loc[p].i]))
  {
    EveryProcessIsInOnePlace(s, evs);
    var t, loc := Run(s, evs), LocRun(s, evs);
    assert At(t, p, loc[p]);
    assert ThreadOk(t.sh, i, t.threads[i]);
    if loc[p].Candidate? {
      assert ThreadOk(t.sh, loc[p].i, t.threads[loc[p].i]);
      UnregisteredUnderTheLock(t.sh, i, t.threads[i], loc[p].i, t.threads[loc[p].i]);
    }
  }

  lemma UnregisteredUnderTheLock(s: Shared, i: nat, exporter: Thread, j: nat, th: Thread)
    requires ThreadOk(s, i, exporter) && exporter.pc.Export? && ThreadOk(s, j, th) && th.cand.Some?
    requires i == j ==> exporter == th
    ensures StillUnregistered(th)
  {
  }

  /** After a successful export, and for as long as the flag stays set, every registered app-server is one that the
      export walked over under the same session, and there is no bootstrap. */
  lemma ExportCoversWhatFollows(s: State, evs: seq<Event>, i: nat, n: Input, later: seq<Event>)
    requires Initial(s) && i < |Run(s, evs).threads| && Run(s, evs).threads[i].pc.Export? && n.answer.Fine?
    requires var t := Next(Run(s, evs), Step(i, n)); forall k :: 0 <= k < |later| ==> Run(t, later[..k]).sh.quiescing
    ensures var end := Run(Next(Run(s, evs), Step(i, n)), later).sh;
            Within(end.servers, Run(s, evs).sh.servers) && end.boots == map[]
  {
    InitialIsSound(s);
    RunKeepsInv(s, evs);
    assert ThreadOk(Run(s, evs).sh, i, Run(s, evs).threads[i]);
    NothingNewBehindTheFence(Run(s, evs), Step(i, n));
    NextKeepsInv(Run(s, evs), Step(i, n));
    FenceHolds(Next(Run(s, evs), Step(i, n)), later);
    assert Run(Next(Run(s, evs), Step(i, n)), later).sh.boots.Keys == {};
  }
}
