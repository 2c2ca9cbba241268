/** How a handoff attempt may end when the world leaves its servers and daemons alone. */
module Outcomes {
  import opened Registry
  import opened Protocol
  import opened Safety

  predicate KeyAt(s: Sys, a: string, key: Key) {
    HasEntry(s, a, key.session) && EntryAt(s, a, key.session).key == key
  }

  /** Where an undisturbed attempt has its exports, phase by phase. */
  predicate Placed(s: Sys, e: Export) {
    match s.co.phase
    case Adopting => OwnedAtLegacy(s, e)
    case Releasing => OwnedAtLegacy(s, e) && AdoptedAt(s, e, s.co.g)
    case AskingStatus =>
      AdoptedAt(s, e, s.co.g) && if s.co.released then HandedOffTo(s, e, s.co.g) else OwnedAtLegacy(s, e)
    case Unadopting(_) => OwnedAtLegacy(s, e)
    case Unquiescing(_) => OwnedAtLegacy(s, e) && !KeyAt(s, s.co.g, e.key)
    case _ => true
  }

  ghost predicate Steady(s: Sys) {
    Active(s.co.phase) && !s.co.phase.Starting? && !s.co.disturbed ==>
      && Answers(s, LEGACY) && s.daemons[LEGACY].quiescing
      && (s.co.released ==> s.co.phase.AskingStatus?)
      && forall e {:trigger Placed(s, e)} :: e in s.co.exports ==> Placed(s, e)
  }

  lemma SparedKeepsPlace(s: Sys, t: Sys, e: Export)
    requires Spares(s, t) && t.co == s.co && Evolves(s, t) && e in s.co.exports && GoodExport(s, e) && Placed(s, e)
    ensures Placed(t, e)
  {
    if s.co.phase.Unquiescing? && KeyAt(t, s.co.g, e.key) {
      assert EntryExplained(s, t, s.co.g, e.key.session);
      assert KeyAt(s, s.co.g, e.key);
    }
  }

  lemma WorldKeepsPlace(s: Sys, w: Happening, e: Export)
    requires Sane(s) && Possible(s, w) && Timely(s, w) && Spares(s, World(s, w))
    requires e in s.co.exports && GoodExport(s, e) && Placed(s, e)
    ensures Placed(WorldNext(s, w), e)
  {
    WorldEvolves(s, w);
    SparedKeepsPlace(s, World(s, w), e);
  }

  lemma WorldKeepsFlag(s: Sys, w: Happening)
    requires Possible(s, w) && Answers(s, LEGACY) && Answers(World(s, w), LEGACY)
    ensures World(s, w).daemons[LEGACY].quiescing == s.daemons[LEGACY].quiescing
  {
  }

  lemma WorldKeepsSteady(s: Sys, w: Happening)
    requires Inv(s) && Steady(s) && Timely(s, w)
    ensures Steady(WorldNext(s, w))
  {
    var t := WorldNext(s, w);
    if Possible(s, w) && Active(s.co.phase) && !s.co.phase.Starting? && !t.co.disturbed {
      WorldKeepsFlag(s, w);
      forall e | e in t.co.exports ensures Placed(t, e) {
        assert GoodExport(s, e) && Placed(s, e);
        WorldKeepsPlace(s, w, e);
      }
    }
  }

  lemma QuiesceMakesSteady(s: Sys, fate: Fate, listed: seq<Export>)
    requires Inv(s) && s.co.phase.Starting?
    ensures Steady(QuiesceStep(s, fate, listed))
  {
    var t := QuiesceStep(s, fate, listed);
    if t.co.phase.Adopting? {
      forall e | e in listed ensures Placed(t, e) { QuiescedExport(s, fate, listed, e); }
    }
  }

  lemma AdoptKeepsPlace(s: Sys, fate: Fate, e: Export)
    requires s.co.phase.Adopting? && s.co.g != LEGACY && e in s.co.exports && OwnedAtLegacy(s, e)
    ensures Placed(AdoptStep(s, fate), e)
  {
    if AdoptWorks(s) { AdoptedEntries(s, e); }
  }

  lemma AdoptKeepsSteady(s: Sys, fate: Fate)
    requires Inv(s) && Steady(s) && s.co.phase.Adopting?
    ensures Steady(AdoptStep(s, fate))
  {
    var t := AdoptStep(s, fate);
    if !t.co.disturbed {
      forall e | e in t.co.exports ensures Placed(t, e) {
        assert Placed(s, e);
        AdoptKeepsPlace(s, fate, e);
      }
    }
  }

  lemma ReleaseKeepsSteady(s: Sys, fate: Fate)
    requires Inv(s) && Steady(s) && s.co.phase.Releasing?
    ensures Steady(ReleaseStep(s, fate))
  {
    var t := ReleaseStep(s, fate);
    if !t.co.disturbed {
      forall e | e in t.co.exports ensures Placed(t, e) {
        assert Placed(s, e);
        if ReleaseWorks(s) { ReleasedEntries(s, e); }
      }
    }
  }

  /** With nothing disturbed, the status query gets an answer whenever it is delivered, and the decision is
      "committed" exactly when the release took effect; it is never ambiguous. */
  lemma DecisionIsExact(s: Sys)
    requires Inv(s) && Steady(s) && s.co.phase.AskingStatus? && !s.co.disturbed
    ensures Answers(s, LEGACY) && StatusAllowed(s.daemons[LEGACY], s.co.g, s.co.exports)
    ensures Decide(StatusRows(s.daemons[LEGACY].servers, s.co.exports), s.co.g)
         == if s.co.released then CommittedHere else RollbackUnreleased
  {
    var es := s.co.exports;
    var rows := StatusRows(s.daemons[LEGACY].servers, es);
    forall e | e in es
      ensures Placed(s, e)
      ensures StatusOf(s.daemons[LEGACY].servers, e) == if s.co.released then IsHandedOff(s.co.g) else IsOwned
    {
      assert Placed(s, e);
    }
    forall r | r in rows ensures r == if s.co.released then IsHandedOff(s.co.g) else IsOwned {
      var i :| 0 <= i < |rows| && rows[i] == r;
      assert es[i] in es;
    }
    assert rows[0] in rows;
  }

  lemma StatusKeepsSteady(s: Sys, fate: Fate)
    requires Inv(s) && Steady(s) && s.co.phase.AskingStatus?
    ensures Steady(StatusStep(s, fate))
  {
    var t := StatusStep(s, fate);
    if !s.co.disturbed {
      DecisionIsExact(s);
      forall e | e in t.co.exports ensures Placed(t, e) { assert Placed(s, e); }
    }
  }

  lemma UnadoptKeepsSteady(s: Sys, fate: Fate)
    requires Inv(s) && Steady(s) && s.co.phase.Unadopting?
    ensures Steady(UnadoptStep(s, fate))
  {
    var t := UnadoptStep(s, fate);
    if !s.co.disturbed {
      forall e | e in t.co.exports ensures Placed(t, e) { assert Placed(s, e); }
    }
  }

  lemma NextKeepsSteady(s: Sys, ev: Event)
    requires Inv(s) && Steady(s) && TimelyEvent(s, ev)
    ensures Steady(Next(s, ev))
  {
    match ev {
      case Outside(w) => WorldKeepsSteady(s, w);
      case Attempt(CallQuiesce(fate, listed)) => if s.co.phase.Starting? { QuiesceMakesSteady(s, fate, listed); }
      case Attempt(CallAdopt(fate)) => if s.co.phase.Adopting? { AdoptKeepsSteady(s, fate); }
      case Attempt(CallRelease(fate)) => if s.co.phase.Releasing? { ReleaseKeepsSteady(s, fate); }
      case Attempt(CallStatus(fate)) => if s.co.phase.AskingStatus? { StatusKeepsSteady(s, fate); }
      case Attempt(CallUnadopt(fate)) => if s.co.phase.Unadopting? { UnadoptKeepsSteady(s, fate); }
      case Attempt(_) =>
    }
  }

  lemma {:induction false} EveryRunIsSteady(split: bool, evs: seq<Event>)
    requires TimelyRun(Init(split), evs)
    ensures Inv(Run(Init(split), evs)) && Steady(Run(Init(split), evs))
  {
    EveryRunIsSafe(split, evs);
    if evs != [] {
      EveryRunIsSteady(split, evs[..|evs| - 1]);
      NextKeepsSteady(Run(Init(split), evs[..|evs| - 1]), evs[|evs| - 1]);
    }
  }

  // ---------------------------------------------------------------- how attempts end

  /** Everything is with the new daemon, and the legacy daemon takes no new work. */
  ghost predicate CommittedEverywhere(t: Sys) {
    && Answers(t, LEGACY) && t.daemons[LEGACY].quiescing
    && forall e :: e in t.co.exports ==> HandedOffTo(t, e, t.co.g) && AdoptedAt(t, e, t.co.g)
  }

  /** Everything is back with the legacy daemon, which takes new work, and nothing is left at the new one. */
  ghost predicate RolledBack(t: Sys) {
    && Answers(t, LEGACY) && !t.daemons[LEGACY].quiescing
    && forall e :: e in t.co.exports ==> OwnedAtLegacy(t, e) && !KeyAt(t, t.co.g, e.key)
  }

  lemma CommitByRelease(s: Sys)
    requires Inv(s) && Steady(s) && s.co.phase.Releasing? && !s.co.disturbed && ReleaseWorks(s)
    ensures CommittedEverywhere(ReleaseStep(s, Answered))
  {
    var t := ReleaseStep(s, Answered);
    forall e | e in t.co.exports ensures HandedOffTo(t, e, t.co.g) && AdoptedAt(t, e, t.co.g) {
      assert Placed(s, e);
      ReleasedEntries(s, e);
    }
  }

  lemma CommitByStatus(s: Sys)
    requires Inv(s) && Steady(s) && s.co.phase.AskingStatus? && !s.co.disturbed && s.co.released
    ensures CommittedEverywhere(StatusStep(s, Answered))
  {
    DecisionIsExact(s);
    var t := StatusStep(s, Answered);
    forall e | e in t.co.exports ensures HandedOffTo(t, e, t.co.g) && AdoptedAt(t, e, t.co.g) { assert Placed(s, e); }
  }

  lemma RollbackByUnquiesce(s: Sys)
    requires Inv(s) && Steady(s) && s.co.phase.Unquiescing? && !s.co.disturbed
    ensures RolledBack(UnquiesceStep(s, Answered))
  {
    var t := UnquiesceStep(s, Answered);
    forall e | e in t.co.exports ensures OwnedAtLegacy(t, e) && !KeyAt(t, t.co.g, e.key) { assert Placed(s, e); }
  }

  ghost predicate EndsWell(t: Sys) {
    t.co.phase.Finished? ==>
      && (t.co.phase.outcome.Committed? ==> CommittedEverywhere(t))
      && (t.co.phase.outcome.Skipped? ==> RolledBack(t))
      && (t.co.phase.outcome.NothingExported? ==>
            t.co.exports == [] && Answers(t, LEGACY) && t.daemons[LEGACY].quiescing)
  }

  lemma AttemptEndsWell(s: Sys, c: Move)
    requires Inv(s) && Steady(s) && Active(s.co.phase) && !s.co.disturbed
    ensures EndsWell(MoveNext(s, c))
  {
    match c {
      case CallRelease(fate) => if s.co.phase.Releasing? && fate.Answered? && ReleaseWorks(s) { CommitByRelease(s); }
      case CallStatus(fate) =>
        if s.co.phase.AskingStatus? {
          DecisionIsExact(s);
          if fate.Answered? && s.co.released { CommitByStatus(s); }
        }
      case CallUnquiesce(fate) => if s.co.phase.Unquiescing? && fate.Answered? { RollbackByUnquiesce(s); }
      case _ =>
    }
  }

  /** On any timely run, an undisturbed attempt that ends in success has either moved every exported server or none. */
  lemma SuccessIsAllOrNothing(split: bool, evs: seq<Event>, c: Move)
    requires TimelyRun(Init(split), evs)
    ensures var s := Run(Init(split), evs);
            Active(s.co.phase) && !s.co.disturbed ==> EndsWell(Next(s, Attempt(c)))
  {
    EveryRunIsSteady(split, evs);
    var s := Run(Init(split), evs);
    if Active(s.co.phase) && !s.co.disturbed { AttemptEndsWell(s, c); }
  }
}
