/** What a later, fault-free handoff attempt achieves, and from which states. */
module Recovery {
  import opened Results
  import opened Registry
  import opened Protocol
  import opened Safety

  /** One attempt in which every call is answered and nothing else happens. */
  function CleanAttempt(g: string, listed: seq<Export>): seq<Move> {
    [Begin(g), CallQuiesce(Answered, listed), CallAdopt(Answered), CallRelease(Answered)]
  }

  ghost function Moves(s: Sys, cs: seq<Move>): Sys {
    if cs == [] then s else MoveNext(Moves(s, cs[..|cs| - 1]), cs[|cs| - 1])
  }

  /** Both daemons are up and can take part, and `listed` is what the legacy daemon would export now. */
  ghost predicate Ready(s: Sys, g: string, listed: seq<Export>) {
    && !Active(s.co.phase) && g != LEGACY && g != ""
    && Answers(s, LEGACY) && s.daemons[LEGACY].bootstraps == {}
    && Answers(s, g) && !s.daemons[g].quiescing
    && ExportsExactly(listed, s.daemons[LEGACY].servers, s.daemons[LEGACY].servers.Keys, ChildOf(s), s.now)
  }

  predicate Live(s: Sys, x: string)
    requires HasEntry(s, LEGACY, x)
  {
    Exportable(EntryAt(s, LEGACY, x), ChildOf(s), s.now)
  }

  predicate Agrees(s: Sys, g: string, x: string)
    requires HasEntry(s, LEGACY, x)
  {
    HasEntry(s, g, x) ==> EntryAt(s, g, x).key == EntryAt(s, LEGACY, x).key && EntryAt(s, g, x).holding.Adopted?
  }

  /** The new daemon knows nothing of a session the legacy daemon would export, or adopted that very server. */
  ghost predicate Compatible(s: Sys, g: string) {
    forall x :: HasEntry(s, LEGACY, x) && Live(s, x) ==> Agrees(s, g, x)
  }

  /** The session is handed to `g`: the legacy entry says so and `g` has adopted the same process. Both hold it for as
      long as the legacy daemon did before, and at least a minute. */
  ghost predicate HandedOver(s: Sys, t: Sys, g: string, x: string)
    requires HasEntry(s, LEGACY, x)
  {
    && HasEntry(t, LEGACY, x) && EntryAt(t, LEGACY, x).key == EntryAt(s, LEGACY, x).key
    && EntryAt(t, LEGACY, x).holding.HandedOff? && EntryAt(t, LEGACY, x).holding.target == g
    && HasEntry(t, g, x) && EntryAt(t, g, x).key == EntryAt(s, LEGACY, x).key && EntryAt(t, g, x).holding.Adopted?
    && EntryAt(t, LEGACY, x).expires == Max(EntryAt(s, LEGACY, x).expires, s.now + 60_000)
    && EntryAt(t, g, x).expires == Max(EntryAt(s, LEGACY, x).expires, s.now + 60_000)
    && EntryAt(t, LEGACY, x).startedAt == EntryAt(s, LEGACY, x).startedAt
    && (!HasEntry(s, g, x) ==> EntryAt(t, g, x).startedAt == EntryAt(s, LEGACY, x).startedAt
                               && EntryAt(t, g, x).holding.source == LEGACY)
  }

  // ---------------------------------------------------------------- the clean attempt, call by call

  ghost function Quiesced(s: Sys, g: string, listed: seq<Export>): Sys {
    QuiesceStep(s.(co := Coordinator(Starting, g, [], false, false)), Answered, listed)
  }

  lemma QuiescedIs(s: Sys, g: string, listed: seq<Export>)
    requires Ready(s, g, listed)
    ensures var d := s.daemons[LEGACY]; var q := Quiesced(s, g, listed);
            && q.daemons == s.daemons[LEGACY :=
                              d.(quiescing := true, servers := ExtendLeases(d.servers, SessionsOf(listed), s.now))]
            && q.procs == s.procs && q.alive == s.alive && q.signalled == s.signalled && q.now == s.now
            && q.co == Coordinator(if listed == [] then Finished(NothingExported) else Adopting, g,
                                   if listed == [] then [] else listed, false, false)
  {
    assert ChildOf(s.(co := Coordinator(Starting, g, [], false, false))) == ChildOf(s);
  }

  lemma ListedAre(s: Sys, g: string, listed: seq<Export>, e: Export)
    requires Sane(s) && Ready(s, g, listed) && e in listed
    ensures HasEntry(s, LEGACY, e.key.session) && Live(s, e.key.session)
    ensures EntryAt(s, LEGACY, e.key.session).key == e.key && EntryAt(s, LEGACY, e.key.session).holding.Owned?
    ensures ValidExport(e) && LeaderOf(s)(e.key.pid, e.pidIdentity) == Running
  {
    assert ExportedFrom(e, s.daemons[LEGACY].servers, ChildOf(s), s.now);
    assert GoodEntry(s, LEGACY, e.key.session);
  }

  lemma LiveIsListed(s: Sys, g: string, listed: seq<Export>, x: string) returns (e: Export)
    requires Sane(s) && Ready(s, g, listed) && HasEntry(s, LEGACY, x) && Live(s, x)
    ensures e in listed && e.key == EntryAt(s, LEGACY, x).key && e.key.session == x
    ensures e.startedAt == EntryAt(s, LEGACY, x).startedAt && s.now + e.leaseMillis == EntryAt(s, LEGACY, x).expires
  {
    assert ExportsEntry(listed, s.daemons[LEGACY].servers[x], ChildOf(s), s.now);
    assert GoodEntry(s, LEGACY, x);
    e := ExportOf(EntryAt(s, LEGACY, x), ChildOf(s), s.now);
  }

  /** Adoption is idempotent, so it works after any earlier attempt, except where another server of the same
      session is in the way. */
  lemma AdoptWorksIffCompatible(s: Sys, g: string, listed: seq<Export>)
    requires Sane(s) && Ready(s, g, listed) && listed != []
    ensures AdoptWorks(Quiesced(s, g, listed)) <==> Compatible(s, g)
  {
    var q := Quiesced(s, g, listed);
    QuiescedIs(s, g, listed);
    assert q.daemons[g] == s.daemons[g];
    forall e | e in listed
      ensures ValidExport(e) && LeaderOf(q)(e.key.pid, e.pidIdentity) == Running
      ensures HasEntry(s, LEGACY, e.key.session) && Live(s, e.key.session)
              && EntryAt(s, LEGACY, e.key.session).key == e.key
    {
      ListedAre(s, g, listed, e);
    }
    if Compatible(s, g) {
      forall e | e in listed && e.key.session in q.daemons[g].servers
        ensures Readoptable(q.daemons[g].servers[e.key.session], e)
      {
        assert Agrees(s, g, e.key.session);
      }
    } else {
      var x :| HasEntry(s, LEGACY, x) && Live(s, x) && !Agrees(s, g, x);
      var e := LiveIsListed(s, g, listed, x);
      assert !Readoptable(q.daemons[g].servers[e.key.session], e);
    }
  }

  lemma ReleaseWorksAfterAdopt(s: Sys, g: string, listed: seq<Export>)
    requires Sane(s) && Ready(s, g, listed) && listed != [] && AdoptWorks(Quiesced(s, g, listed))
    ensures ReleaseWorks(AdoptStep(Quiesced(s, g, listed), Answered))
  {
    var a := AdoptStep(Quiesced(s, g, listed), Answered);
    QuiescedIs(s, g, listed);
    forall e | e in listed
      ensures e.key.session in a.daemons[LEGACY].servers && Releasable(a.daemons[LEGACY].servers[e.key.session], g, e)
    {
      ListedAre(s, g, listed, e);
    }
  }

  lemma CleanAttemptUnfolds(s: Sys, g: string, listed: seq<Export>)
    requires Ready(s, g, listed)
    ensures Moves(s, CleanAttempt(g, listed))
         == MoveNext(MoveNext(Quiesced(s, g, listed), CallAdopt(Answered)), CallRelease(Answered))
  {
    var cs := CleanAttempt(g, listed);
    assert cs[..0] == [] && cs[..1] == cs[..0] + [cs[0]] && cs[..2] == cs[..1] + [cs[1]];
    assert cs[..3] == cs[..2] + [cs[2]] && cs == cs[..3] + [cs[3]];
    MovesUnfold(s, cs[..0], cs[0]);
    MovesUnfold(s, cs[..1], cs[1]);
    MovesUnfold(s, cs[..2], cs[2]);
    MovesUnfold(s, cs[..3], cs[3]);
  }

  lemma MovesUnfold(s: Sys, cs: seq<Move>, c: Move)
    ensures Moves(s, cs + [c]) == MoveNext(Moves(s, cs), c)
  {
    assert (cs + [c])[..|cs|] == cs;
  }

  lemma AdoptionAt(s: Sys, e: Export)
    requires AdoptWorks(s) && e in s.co.exports
    ensures var x, t := e.key.session, AdoptStep(s, Answered);
            && AdoptedAt(t, e, s.co.g) && EntryAt(t, s.co.g, x).expires == Max(s.now + e.leaseMillis, s.now + 60_000)
            && (!HasEntry(s, s.co.g, x) ==>
                  EntryAt(t, s.co.g, x).startedAt == e.startedAt && EntryAt(t, s.co.g, x).holding.source == LEGACY)
  {
    AdoptedAre(s.daemons[s.co.g].servers, LEGACY, s.co.exports, e, s.now);
  }

  lemma ReleaseAt(s: Sys, e: Export)
    requires ReleaseWorks(s) && e in s.co.exports
    ensures var x, t := e.key.session, ReleaseStep(s, Answered);
            && HandedOffTo(t, e, s.co.g) && EntryAt(t, LEGACY, x).expires == Max(s.now + e.leaseMillis, s.now + 60_000)
            && HasEntry(s, LEGACY, x) && EntryAt(t, LEGACY, x).startedAt == EntryAt(s, LEGACY, x).startedAt
  {
    ReleasedAre(s.daemons[LEGACY].servers, s.co.g, s.co.exports, e, s.now);
  }

  lemma HandedOverAt(q: Sys, e: Export)
    requires q.co.phase.Adopting? && q.co.g != LEGACY && e in q.co.exports
    requires AdoptWorks(q) && ReleaseWorks(AdoptStep(q, Answered))
    ensures var t, x := ReleaseStep(AdoptStep(q, Answered), Answered), e.key.session;
            && HandedOffTo(t, e, q.co.g) && AdoptedAt(t, e, q.co.g)
            && EntryAt(t, LEGACY, x).expires == Max(q.now + e.leaseMillis, q.now + 60_000)
            && EntryAt(t, q.co.g, x).expires == Max(q.now + e.leaseMillis, q.now + 60_000)
            && HasEntry(q, LEGACY, x) && EntryAt(t, LEGACY, x).startedAt == EntryAt(q, LEGACY, x).startedAt
            && (!HasEntry(q, q.co.g, x) ==>
                  EntryAt(t, q.co.g, x).startedAt == e.startedAt && EntryAt(t, q.co.g, x).holding.source == LEGACY)
  {
    AdoptionAt(q, e);
    ReleaseAt(AdoptStep(q, Answered), e);
  }

  lemma CleanAttemptHandsOver(s: Sys, g: string, listed: seq<Export>, x: string)
    requires Inv(s) && Ready(s, g, listed) && listed != [] && Compatible(s, g)
    requires HasEntry(s, LEGACY, x) && Live(s, x)
    ensures HandedOver(s, ReleaseStep(AdoptStep(Quiesced(s, g, listed), Answered), Answered), g, x)
  {
    hide Quiesced, AdoptStep, ReleaseStep, AdoptWorks, ReleaseWorks, Compatible, ExportsExactly;
    AdoptWorksIffCompatible(s, g, listed);
    ReleaseWorksAfterAdopt(s, g, listed);
    QuiescedIs(s, g, listed);
    var e := LiveIsListed(s, g, listed, x);
    hide Inv, Ready;
    HandedOverAt(Quiesced(s, g, listed), e);
  }

  /** A fault-free attempt succeeds exactly from the compatible states, and then every live, unexpired session
      the legacy daemon owned is handed to the new daemon. */
  lemma CleanAttemptSucceedsIff(s: Sys, g: string, listed: seq<Export>)
    requires Inv(s) && Ready(s, g, listed)
    ensures var t := Moves(s, CleanAttempt(g, listed));
      && (t.co.phase in {Finished(Committed), Finished(NothingExported)} <==> Compatible(s, g))
      && (Compatible(s, g) ==> forall x :: HasEntry(s, LEGACY, x) && Live(s, x) ==> HandedOver(s, t, g, x))
  {
    CleanAttemptUnfolds(s, g, listed);
    QuiescedIs(s, g, listed);
    if listed == [] {
      forall x | HasEntry(s, LEGACY, x) && Live(s, x) ensures false {
        var e := LiveIsListed(s, g, listed, x);
      }
    } else {
      AdoptWorksIffCompatible(s, g, listed);
      if Compatible(s, g) {
        ReleaseWorksAfterAdopt(s, g, listed);
        forall x | HasEntry(s, LEGACY, x) && Live(s, x) { CleanAttemptHandsOver(s, g, listed, x); }
      }
    }
  }

  // ---------------------------------------------------------------- what earlier attempts leave behind

  /** The legacy daemon owns a running server for the session: it may have to be handed over. */
  predicate Pressing(s: Sys, x: string) {
    HasEntry(s, LEGACY, x) && EntryAt(s, LEGACY, x).holding.Owned? && EntryAt(s, LEGACY, x).key.pid in s.alive
  }

  predicate Matches(s: Sys, g: string, x: string) {
    Pressing(s, x) ==> Agrees(s, g, x)
  }

  predicate Closed(s: Sys) {
    LEGACY in s.daemons && s.daemons[LEGACY].quiescing
  }

  ghost predicate Unreplaced(s: Sys, e: Export) {
    HasEntry(s, LEGACY, e.key.session) ==> EntryAt(s, LEGACY, e.key.session).key == e.key
  }

  predicate UnderWay(p: Phase) { Active(p) && !p.Starting? }

  /** While an attempt is under way, towards whatever daemon, its exports still name the servers they were taken
      from. */
  ghost predicate Steady(s: Sys) {
    UnderWay(s.co.phase) ==>
      Closed(s) && forall e {:trigger Unreplaced(s, e)} :: e in s.co.exports ==> Unreplaced(s, e)
  }

  /** A server is started for the session at one of the two daemons: at the legacy daemon while the other lists the
      session, or at the other while the legacy daemon owns a running server for it. */
  predicate Clashes(s: Sys, g: string, ev: Event, x: string) {
    ev.Outside? && ev.w.Register? && Possible(s, ev.w) && ev.w.key.session == x
    && ((ev.w.a == LEGACY && HasEntry(s, g, x)) || (ev.w.a == g && Pressing(s, x)))
  }

  /** Since the last clash on the session, both daemons have kept their entries and the process has run. */
  ghost predicate ClashOpen(s: Sys, g: string, evs: seq<Event>, x: string) {
    evs != []
    && (|| Clashes(Run(s, evs[..|evs| - 1]), g, evs[|evs| - 1], x)
        || (ClashOpen(s, g, evs[..|evs| - 1], x) && Pressing(Run(s, evs), x) && HasEntry(Run(s, evs), g, x)))
  }

  // ---------------------------------------------------------------- how entries change

  /** An entry of `t` was one of `s`, up to its lease and, at the legacy daemon, up to its holder, and is not owned
      again. */
  predicate KeepsEntry(s: Sys, t: Sys, a: string, x: string) {
    HasEntry(t, a, x) ==>
      && HasEntry(s, a, x) && EntryAt(t, a, x).key == EntryAt(s, a, x).key
      && (EntryAt(t, a, x).holding.Owned? ==> EntryAt(s, a, x).holding.Owned?)
      && (a != LEGACY ==> EntryAt(t, a, x).holding == EntryAt(s, a, x).holding)
  }

  ghost predicate Shrinks(s: Sys, t: Sys, a: string) {
    forall x {:trigger HasEntry(t, a, x)} :: HasEntry(t, a, x) ==> KeepsEntry(s, t, a, x)
  }

  lemma OnlyRegisterAdds(s: Sys, w: Happening, a: string, x: string)
    requires Possible(s, w) && !w.Register? && HasEntry(World(s, w), a, x)
    ensures HasEntry(s, a, x) && SameEntry(s, World(s, w), a, x)
  {
  }

  lemma WorldKeepsClosed(s: Sys, w: Happening)
    requires Possible(s, w) && Closed(s)
    ensures Closed(World(s, w))
  {
  }

  lemma QuietWorldShrinks(s: Sys, w: Happening, a: string)
    requires Possible(s, w) && !w.Register?
    ensures Shrinks(s, WorldNext(s, w), a) && WorldNext(s, w).alive <= s.alive
  {
    forall x | HasEntry(WorldNext(s, w), a, x) ensures HasEntry(s, a, x) && SameEntry(s, World(s, w), a, x) {
      OnlyRegisterAdds(s, w, a, x);
    }
  }

  lemma StatusPhase(s: Sys, fate: Fate) returns (p: Phase)
    ensures StatusStep(s, fate) == Go(s, p) && (p.Finished? || p.Unadopting?)
  {
    p := StatusStep(s, fate).co.phase;
  }

  lemma ReleaseShrinks(s: Sys, fate: Fate, a: string)
    ensures Shrinks(s, ReleaseStep(s, fate), a) && ReleaseStep(s, fate).alive == s.alive
  {
  }

  lemma QuiesceShrinks(s: Sys, fate: Fate, listed: seq<Export>, a: string)
    ensures Shrinks(s, QuiesceStep(s, fate, listed), a) && QuiesceStep(s, fate, listed).alive == s.alive
  {
  }

  lemma StatusShrinks(s: Sys, fate: Fate, a: string)
    ensures Shrinks(s, StatusStep(s, fate), a) && StatusStep(s, fate).alive == s.alive
  {
    var p := StatusPhase(s, fate);
  }

  lemma EdgesShrink(s: Sys, c: Move, a: string)
    requires c.Begin? || c.QuiesceOsError? || c.GiveUp? || c.CallUnadopt? || c.CallUnquiesce?
    ensures Shrinks(s, MoveNext(s, c), a) && MoveNext(s, c).alive == s.alive
  {
  }

  /** No call of an attempt but the adoption adds an entry, and none starts a process. */
  lemma CallsShrink(s: Sys, c: Move, a: string)
    requires !c.CallAdopt?
    ensures Shrinks(s, MoveNext(s, c), a) && MoveNext(s, c).alive == s.alive
  {
    match c {
      case CallQuiesce(fate, listed) => QuiesceShrinks(s, fate, listed, a);
      case CallRelease(fate) => ReleaseShrinks(s, fate, a);
      case CallStatus(fate) => StatusShrinks(s, fate, a);
      case _ => EdgesShrink(s, c, a);
    }
  }

  // ---------------------------------------------------------------- an attempt under way

  lemma ShrinkKeepsSteady(s: Sys, t: Sys)
    requires Steady(s) && Shrinks(s, t, LEGACY)
    requires UnderWay(t.co.phase) ==> UnderWay(s.co.phase) && Closed(t) && t.co.exports == s.co.exports
    ensures Steady(t)
  {
    forall e | UnderWay(t.co.phase) && e in t.co.exports ensures Unreplaced(t, e) { assert Unreplaced(s, e); }
  }

  /** A closed daemon starts no server. */
  lemma RegisterElsewhereShrinks(s: Sys, w: Happening)
    requires Possible(s, w) && w.Register? && Closed(s)
    ensures Shrinks(s, WorldNext(s, w), LEGACY)
  {
  }

  lemma WorldKeepsSteady(s: Sys, w: Happening)
    requires Steady(s) && Possible(s, w)
    ensures Steady(WorldNext(s, w))
  {
    if Closed(s) {
      WorldKeepsClosed(s, w);
      if w.Register? { RegisterElsewhereShrinks(s, w); } else { QuietWorldShrinks(s, w, LEGACY); }
      ShrinkKeepsSteady(s, WorldNext(s, w));
    }
  }

  lemma QuiesceKeepsSteady(s: Sys, fate: Fate, listed: seq<Export>)
    requires Inv(s) && s.co.phase.Starting?
    ensures Steady(QuiesceStep(s, fate, listed))
  {
    var t := QuiesceStep(s, fate, listed);
    if t.co.phase.Adopting? {
      forall e | e in listed ensures Unreplaced(t, e) { QuiescedExport(s, fate, listed, e); }
    }
  }

  lemma AdoptKeepsSteady(s: Sys, fate: Fate)
    requires Inv(s) && Steady(s) && s.co.phase.Adopting?
    ensures Steady(AdoptStep(s, fate))
  {
    ShrinkKeepsSteady(s, AdoptStep(s, fate));
  }

  lemma LaterCallsStayClosed(s: Sys, c: Move)
    requires !c.CallQuiesce? && !c.CallAdopt?
    requires UnderWay(s.co.phase) ==> Closed(s)
    ensures var t := MoveNext(s, c);
            UnderWay(t.co.phase) ==> UnderWay(s.co.phase) && Closed(t) && t.co.exports == s.co.exports
  {
    if c.CallStatus? && s.co.phase.AskingStatus? { var p := StatusPhase(s, c.fate); }
  }

  lemma NextKeepsSteady(s: Sys, ev: Event)
    requires Inv(s) && Steady(s)
    ensures Steady(Next(s, ev))
  {
    match ev {
      case Outside(w) => if Possible(s, w) { WorldKeepsSteady(s, w); }
      case Attempt(CallQuiesce(fate, listed)) => if s.co.phase.Starting? { QuiesceKeepsSteady(s, fate, listed); }
      case Attempt(CallAdopt(fate)) => if s.co.phase.Adopting? { AdoptKeepsSteady(s, fate); }
      case Attempt(c) =>
        if !c.CallQuiesce? && !c.CallAdopt? {
          CallsShrink(s, c, LEGACY);
          LaterCallsStayClosed(s, c);
          ShrinkKeepsSteady(s, MoveNext(s, c));
        }
    }
  }

  // ---------------------------------------------------------------- agreement, session by session

  lemma ShrinkKeepsMatch(s: Sys, t: Sys, g: string, x: string)
    requires Matches(s, g, x) && KeepsEntry(s, t, LEGACY, x) && KeepsEntry(s, t, g, x) && t.alive <= s.alive
    requires g != LEGACY
    ensures Matches(t, g, x)
  {
  }

  /** A new process is nobody else's, so a server that has died stays dead. */
  lemma RegisterPresses(s: Sys, w: Happening, x: string)
    requires Inv(s) && Possible(s, w) && w.Register? && Pressing(WorldNext(s, w), x)
    ensures Pressing(s, x) || (w.a == LEGACY && w.key.session == x)
  {
    if w.a != LEGACY || w.key.session != x { assert GoodEntry(s, LEGACY, x); }
  }

  lemma RegisterKeepsMatch(s: Sys, g: string, w: Happening, x: string)
    requires Inv(s) && g != LEGACY && Matches(s, g, x) && Possible(s, w) && w.Register?
    requires !Clashes(s, g, Outside(w), x)
    ensures Matches(WorldNext(s, w), g, x)
  {
    if Pressing(WorldNext(s, w), x) { RegisterPresses(s, w, x); }
  }

  lemma AdoptKeepsMatch(s: Sys, g: string, fate: Fate, x: string)
    requires Inv(s) && Steady(s) && s.co.phase.Adopting? && g != LEGACY && Matches(s, g, x)
    ensures Matches(AdoptStep(s, fate), g, x)
  {
    if AdoptWorks(s) && x in SessionsOf(s.co.exports) {
      var e :| e in s.co.exports && e.key.session == x;
      AdoptedEntries(s, e);
      assert Unreplaced(s, e);
    }
  }

  lemma NextKeepsMatch(s: Sys, g: string, ev: Event, x: string)
    requires Inv(s) && Steady(s) && g != LEGACY && Matches(s, g, x) && !Clashes(s, g, ev, x)
    ensures Matches(Next(s, ev), g, x)
  {
    match ev {
      case Outside(w) =>
        if Possible(s, w) {
          if w.Register? {
            RegisterKeepsMatch(s, g, w, x);
          } else {
            QuietWorldShrinks(s, w, LEGACY);
            QuietWorldShrinks(s, w, g);
            ShrinkKeepsMatch(s, WorldNext(s, w), g, x);
          }
        }
      case Attempt(CallAdopt(fate)) => if s.co.phase.Adopting? { AdoptKeepsMatch(s, g, fate, x); }
      case Attempt(c) =>
        if !c.CallAdopt? {
          CallsShrink(s, c, LEGACY);
          CallsShrink(s, c, g);
          ShrinkKeepsMatch(s, MoveNext(s, c), g, x);
        }
    }
  }

  lemma ClashSpoilsMatch(s: Sys, g: string, ev: Event, x: string)
    requires Inv(s) && g != LEGACY && Clashes(s, g, ev, x)
    ensures !Matches(Next(s, ev), g, x)
  {
    if ev.w.a == LEGACY { assert GoodEntry(s, g, x); } else { assert GoodEntry(s, LEGACY, x); }
  }

  /** One event makes the daemons disagree on a session exactly if it is a clash. */
  lemma AgreementIsLostByClashes(s: Sys, g: string, ev: Event, x: string)
    requires Inv(s) && Steady(s) && g != LEGACY && Matches(s, g, x)
    ensures Matches(Next(s, ev), g, x) <==> !Clashes(s, g, ev, x)
  {
    if Clashes(s, g, ev, x) { ClashSpoilsMatch(s, g, ev, x); } else { NextKeepsMatch(s, g, ev, x); }
  }

  /** An entry that stays keeps its key and, at a generation daemon, its holder. */
  lemma EntryStaysItself(s: Sys, ev: Event, a: string, x: string)
    requires Inv(s) && HasEntry(s, a, x) && HasEntry(Next(s, ev), a, x)
    ensures EntryAt(Next(s, ev), a, x).key == EntryAt(s, a, x).key
    ensures a != LEGACY ==> EntryAt(Next(s, ev), a, x).holding == EntryAt(s, a, x).holding
  {
    match ev {
      case Outside(w) => if Possible(s, w) && !w.Register? { QuietWorldShrinks(s, w, a); }
      case Attempt(CallAdopt(fate)) =>
        if s.co.phase.Adopting? && AdoptWorks(s) && x in SessionsOf(s.co.exports) {
          var e :| e in s.co.exports && e.key.session == x;
          ExportForIs(s.co.exports, e);
        }
      case Attempt(c) => if !c.CallAdopt? { CallsShrink(s, c, a); }
    }
  }

  /** A disagreement ends only with one of the two entries, with the hand-over or with the process. */
  lemma DisagreementStays(s: Sys, g: string, ev: Event, x: string)
    requires Inv(s) && g != LEGACY && !Matches(s, g, x)
    requires Pressing(Next(s, ev), x) && HasEntry(Next(s, ev), g, x)
    ensures !Matches(Next(s, ev), g, x)
  {
    EntryStaysItself(s, ev, LEGACY, x);
    EntryStaysItself(s, ev, g, x);
  }

  /** After any number of attempts towards any daemons with any failures, the daemons disagree on a session exactly if
      a clash on it is open. */
  lemma {:induction false} DisagreementIsAnOpenClash(s: Sys, g: string, evs: seq<Event>, x: string)
    requires Inv(s) && Steady(s) && g != LEGACY && Matches(s, g, x) && TimelyRun(s, evs)
    ensures Inv(Run(s, evs)) && Steady(Run(s, evs))
    ensures Matches(Run(s, evs), g, x) <==> !ClashOpen(s, g, evs, x)
  {
    if evs != [] {
      var before, ev := evs[..|evs| - 1], evs[|evs| - 1];
      DisagreementIsAnOpenClash(s, g, before, x);
      NextKeepsInv(Run(s, before), ev);
      NextKeepsSteady(Run(s, before), ev);
      OneMoreEvent(s, g, before, ev, evs, x);
    }
  }

  lemma OneMoreEvent(s: Sys, g: string, before: seq<Event>, ev: Event, evs: seq<Event>, x: string)
    requires evs != [] && before == evs[..|evs| - 1] && ev == evs[|evs| - 1]
    requires Inv(Run(s, before)) && Steady(Run(s, before)) && g != LEGACY
    requires Matches(Run(s, before), g, x) <==> !ClashOpen(s, g, before, x)
    ensures Matches(Run(s, evs), g, x) <==> !ClashOpen(s, g, evs, x)
  {
    var u := Run(s, before);
    assert Run(s, evs) == Next(u, ev);
    if Clashes(u, g, ev, x) {
      ClashSpoilsMatch(u, g, ev, x);
    } else if Matches(u, g, x) {
      NextKeepsMatch(u, g, ev, x);
    } else if Pressing(Next(u, ev), x) && HasEntry(Next(u, ev), g, x) {
      DisagreementStays(u, g, ev, x);
    }
  }

  // ---------------------------------------------------------------- recovery

  lemma LivePresses(s: Sys, x: string)
    requires HasEntry(s, LEGACY, x) && Live(s, x)
    ensures Pressing(s, x)
  {
  }

  /** From any state in which the two daemons agree, and after any number of attempts towards any daemons with any
      failures, one fault-free attempt succeeds exactly if no clash on a live, unexpired session is open; then every
      such session is handed over. */
  lemma AgreeingDaemonsRecoverIff(s: Sys, g: string, evs: seq<Event>, listed: seq<Export>)
    requires Inv(s) && Steady(s) && TimelyRun(s, evs) && Ready(Run(s, evs), g, listed)
    requires forall x :: Matches(s, g, x)
    ensures var mid := Run(s, evs); var t := Moves(mid, CleanAttempt(g, listed));
            && (t.co.phase in {Finished(Committed), Finished(NothingExported)} <==>
                  forall x :: HasEntry(mid, LEGACY, x) && Live(mid, x) ==> !ClashOpen(s, g, evs, x))
            && (t.co.phase in {Finished(Committed), Finished(NothingExported)} ==>
                  forall x :: HasEntry(mid, LEGACY, x) && Live(mid, x) ==> HandedOver(mid, t, g, x))
  {
    var mid := Run(s, evs);
    forall x ensures Inv(mid) && (Matches(mid, g, x) <==> !ClashOpen(s, g, evs, x)) {
      DisagreementIsAnOpenClash(s, g, evs, x);
    }
    forall x | HasEntry(mid, LEGACY, x) && Live(mid, x)
      ensures Agrees(mid, g, x) <==> !ClashOpen(s, g, evs, x)
    {
      LivePresses(mid, x);
      assert Matches(mid, g, x) <==> !ClashOpen(s, g, evs, x);
    }
    assert Inv(mid) by { DisagreementIsAnOpenClash(s, g, evs, ""); }
    CleanAttemptSucceedsIff(mid, g, listed);
  }

  /** In particular from the start, whatever earlier attempts left at a generation daemon. */
  lemma FailedAttemptsAreRecoverable(split: bool, g: string, evs: seq<Event>, listed: seq<Export>)
    requires TimelyRun(Init(split), evs) && Ready(Run(Init(split), evs), g, listed)
    ensures var mid := Run(Init(split), evs); var t := Moves(mid, CleanAttempt(g, listed));
            && (t.co.phase in {Finished(Committed), Finished(NothingExported)} <==>
                  forall x :: HasEntry(mid, LEGACY, x) && Live(mid, x) ==> !ClashOpen(Init(split), g, evs, x))
            && (t.co.phase in {Finished(Committed), Finished(NothingExported)} ==>
                  forall x :: HasEntry(mid, LEGACY, x) && Live(mid, x) ==> HandedOver(mid, t, g, x))
  {
    EveryRunIsSafe(split, []);
    AgreeingDaemonsRecoverIff(Init(split), g, evs, listed);
  }

  /** A disagreement on a running server matters even while its lease is out: a refresh makes it block adoption. */
  lemma DisagreementMayBlock(s: Sys, g: string, x: string)
    requires Inv(s) && g != LEGACY && !Matches(s, g, x)
    ensures !Compatible(WorldNext(s, Refresh(LEGACY, x, 1)), g)
  {
    var t := WorldNext(s, Refresh(LEGACY, x, 1));
    assert GoodEntry(s, LEGACY, x);
    assert HasEntry(t, LEGACY, x) && Live(t, x) && !Agrees(t, g, x);
  }

  // ---------------------------------------------------------------- a first attempt

  ghost predicate NoneAdopted(s: Sys, g: string) {
    forall x {:trigger HasEntry(s, g, x)} :: HasEntry(s, g, x) ==> !EntryAt(s, g, x).holding.Adopted?
  }

  predicate MayHoldAdopted(s: Sys) {
    Closed(s) && !s.co.phase.Starting? && !s.co.phase.Adopting? && !s.co.phase.Unquiescing?
  }

  ghost predicate AdoptedFromExports(s: Sys, g: string) {
    forall x {:trigger HasEntry(s, g, x)} ::
      HasEntry(s, g, x) && EntryAt(s, g, x).holding.Adopted? ==> x in SessionsOf(s.co.exports)
  }

  /** What adoption leaves at the new daemon stays explained by the exports of the attempt, and the legacy daemon
      stays closed, until the adopted entries are gone again. */
  ghost predicate Explained(s: Sys, g: string) {
    s.co.g == g && (NoneAdopted(s, g) || (MayHoldAdopted(s) && AdoptedFromExports(s, g)))
  }

  /** The new daemon starts no server of its own for a session that is running at the legacy daemon, nor the legacy
      daemon for one that the new daemon owns, and no further attempt begins. */
  predicate Apart(s: Sys, g: string, ev: Event) {
    match ev
    case Outside(Register(a, key, _, _, _)) =>
      && (a == g ==> !Pressing(s, key.session))
      && (a == LEGACY ==> !(HasEntry(s, g, key.session) && EntryAt(s, g, key.session).holding.Owned?))
    case Attempt(Begin(_)) => false
    case _ => true
  }

  ghost predicate ApartRun(s: Sys, g: string, evs: seq<Event>) {
    evs == []
    || (ApartRun(s, g, evs[..|evs| - 1]) && Apart(Run(s, evs[..|evs| - 1]), g, evs[|evs| - 1]))
  }

  /** While the new daemon holds adopted servers the legacy daemon starts none, so a first attempt cannot clash. */
  lemma FirstAttemptNeverClashes(s: Sys, g: string, ev: Event, x: string)
    requires Inv(s) && Explained(s, g) && g != LEGACY && Apart(s, g, ev)
    ensures !Clashes(s, g, ev, x)
  {
    if ev.Outside? && ev.w.Register? && HasEntry(s, g, ev.w.key.session) { assert GoodEntry(s, g, ev.w.key.session); }
  }

  lemma ShrinkKeepsExplained(s: Sys, t: Sys, g: string)
    requires Explained(s, g) && Shrinks(s, t, g) && g != LEGACY
    requires t.co.g == g && t.co.exports == s.co.exports && (MayHoldAdopted(s) ==> MayHoldAdopted(t))
    ensures Explained(t, g)
  {
  }

  lemma WorldKeepsExplained(s: Sys, g: string, w: Happening)
    requires Explained(s, g) && g != LEGACY
    ensures Explained(WorldNext(s, w), g)
  {
    if Possible(s, w) {
      if Closed(s) { WorldKeepsClosed(s, w); }
      if w.Register? {
        RegisterAdoptsNothing(s, g, w);
      } else {
        QuietWorldShrinks(s, w, g);
        ShrinkKeepsExplained(s, WorldNext(s, w), g);
      }
    }
  }

  lemma RegisterAdoptsNothing(s: Sys, g: string, w: Happening)
    requires Explained(s, g) && g != LEGACY && Possible(s, w) && w.Register?
    ensures Explained(WorldNext(s, w), g)
  {
    var t := WorldNext(s, w);
    forall x | HasEntry(t, g, x) && EntryAt(t, g, x).holding.Adopted?
      ensures HasEntry(s, g, x) && EntryAt(s, g, x).holding.Adopted?
    {
    }
  }

  lemma EarlyCallsKeepExplained(s: Sys, g: string, c: Move)
    requires Explained(s, g) && g != LEGACY && (c.CallQuiesce? || c.QuiesceOsError? || c.GiveUp?)
    ensures Explained(MoveNext(s, c), g)
  {
    var t := MoveNext(s, c);
    assert forall x :: HasEntry(t, g, x) ==> HasEntry(s, g, x) && EntryAt(t, g, x) == EntryAt(s, g, x);
  }

  lemma AdoptKeepsExplained(s: Sys, g: string, fate: Fate)
    requires Explained(s, g) && Closed(s) && s.co.phase.Adopting? && g != LEGACY
    ensures Explained(AdoptStep(s, fate), g)
  {
    var t := AdoptStep(s, fate);
    if fate.NeverArrived? || !AdoptWorks(s) {
      ShrinkKeepsExplained(s, t, g);
    } else {
      forall x {:trigger HasEntry(t, g, x)} | HasEntry(t, g, x) && EntryAt(t, g, x).holding.Adopted?
        ensures x in SessionsOf(s.co.exports)
      {
        assert HasEntry(s, g, x) ==> !EntryAt(s, g, x).holding.Adopted?;
      }
    }
  }

  lemma ReleaseKeepsExplained(s: Sys, g: string, fate: Fate)
    requires Explained(s, g) && s.co.phase.Releasing? && g != LEGACY
    ensures Explained(ReleaseStep(s, fate), g)
  {
    ShrinkKeepsExplained(s, ReleaseStep(s, fate), g);
  }

  lemma StatusKeepsExplained(s: Sys, g: string, fate: Fate)
    requires Explained(s, g) && s.co.phase.AskingStatus? && g != LEGACY
    ensures Explained(StatusStep(s, fate), g)
  {
    var p := StatusPhase(s, fate);
    ShrinkKeepsExplained(s, Go(s, p), g);
  }

  lemma UnadoptKeepsExplained(s: Sys, g: string, fate: Fate)
    requires Explained(s, g) && s.co.phase.Unadopting? && g != LEGACY
    ensures Explained(UnadoptStep(s, fate), g)
  {
    var t := UnadoptStep(s, fate);
    if fate.NeverArrived? || !UnadoptWorks(s) {
      ShrinkKeepsExplained(s, t, g);
    } else {
      forall x {:trigger HasEntry(t, g, x)} | HasEntry(t, g, x) ensures !EntryAt(t, g, x).holding.Adopted? {
        assert HasEntry(s, g, x);
      }
    }
  }

  lemma UnquiesceKeepsExplained(s: Sys, g: string, fate: Fate)
    requires Explained(s, g) && s.co.phase.Unquiescing? && g != LEGACY
    ensures Explained(UnquiesceStep(s, fate), g)
  {
    ShrinkKeepsExplained(s, UnquiesceStep(s, fate), g);
  }

  lemma NextKeepsExplained(s: Sys, g: string, ev: Event)
    requires Steady(s) && g != LEGACY && Explained(s, g) && Apart(s, g, ev)
    ensures Explained(Next(s, ev), g)
  {
    match ev {
      case Outside(w) => WorldKeepsExplained(s, g, w);
      case Attempt(CallAdopt(fate)) => if s.co.phase.Adopting? { AdoptKeepsExplained(s, g, fate); }
      case Attempt(CallRelease(fate)) => if s.co.phase.Releasing? { ReleaseKeepsExplained(s, g, fate); }
      case Attempt(CallStatus(fate)) => if s.co.phase.AskingStatus? { StatusKeepsExplained(s, g, fate); }
      case Attempt(CallUnadopt(fate)) => if s.co.phase.Unadopting? { UnadoptKeepsExplained(s, g, fate); }
      case Attempt(CallUnquiesce(fate)) => if s.co.phase.Unquiescing? { UnquiesceKeepsExplained(s, g, fate); }
      case Attempt(c) => EarlyCallsKeepExplained(s, g, c);
    }
  }

  lemma {:induction false} AttemptStaysExplained(s: Sys, g: string, evs: seq<Event>)
    requires Inv(s) && Steady(s) && Explained(s, g) && g != LEGACY && TimelyRun(s, evs) && ApartRun(s, g, evs)
    ensures Inv(Run(s, evs)) && Steady(Run(s, evs)) && Explained(Run(s, evs), g)
    ensures forall x :: !ClashOpen(s, g, evs, x)
  {
    if evs != [] {
      var before, ev := evs[..|evs| - 1], evs[|evs| - 1];
      AttemptStaysExplained(s, g, before);
      NextKeepsInv(Run(s, before), ev);
      NextKeepsSteady(Run(s, before), ev);
      NextKeepsExplained(Run(s, before), g, ev);
      forall x ensures !ClashOpen(s, g, evs, x) { FirstAttemptNeverClashes(Run(s, before), g, ev, x); }
    }
  }

  /** From every state that a failed first attempt towards a daemon leaves behind, one fault-free attempt hands over
      every live, unexpired session, even if servers were started again at either daemon. "First" means that the new
      daemon held none of the sessions that were running before. */
  lemma FailedFirstAttemptIsRecoverable(s: Sys, g: string, evs: seq<Event>, listed: seq<Export>)
    requires Inv(s) && s.co.phase.Starting? && s.co.g == g && NoneAdopted(s, g)
    requires forall x :: Pressing(s, x) ==> !HasEntry(s, g, x)
    requires TimelyRun(s, evs) && ApartRun(s, g, evs) && Ready(Run(s, evs), g, listed)
    ensures var mid := Run(s, evs); var t := Moves(mid, CleanAttempt(g, listed));
            && t.co.phase in {Finished(Committed), Finished(NothingExported)}
            && forall x :: HasEntry(mid, LEGACY, x) && Live(mid, x) ==> HandedOver(mid, t, g, x)
  {
    AttemptStaysExplained(s, g, evs);
    AgreeingDaemonsRecoverIff(s, g, evs, listed);
  }
}
