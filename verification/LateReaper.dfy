/** What an untimely action of a reaper leads to: the counterpart of the assumption that actions are timely. */
module LateReaper {
  import opened Registry
  import opened Protocol
  import opened Safety

  /** Only the legacy daemon and the attempt's daemon list the process. */
  ghost predicate NoThirdHolder(s: Sys, key: Key) {
    forall a {:trigger a in s.daemons} :: a in s.daemons && a != LEGACY && a != s.co.g ==> !Holds(s.daemons[a], key)
  }

  /** Of the exports, the legacy daemon has handed off none but the one with this key. */
  ghost predicate OthersNotHandedOff(s: Sys, key: Key) {
    forall e :: e in s.co.exports && e.key != key && HasEntry(s, LEGACY, e.key.session) ==>
      EntryAt(s, LEGACY, e.key.session).holding.Owned?
  }

  function Late(key: Key): Event { Outside(ActOnProof(LEGACY, key)) }

  ghost function AfterStatus(s: Sys, key: Key): Sys {
    Next(Next(s, Late(key)), Attempt(CallStatus(Answered)))
  }

  lemma LetGo(s: Sys, key: Key)
    requires Possible(s, ActOnProof(LEGACY, key)) && EntryAt(s, LEGACY, key.session).holding.HandedOff?
    ensures var t := Next(s, Late(key)); var d := s.daemons[LEGACY];
            t.daemons == s.daemons[LEGACY := d.(servers := d.servers - {key.session})] && t.procs == s.procs
            && t.alive == s.alive && t.signalled == s.signalled
            && t.co.phase == s.co.phase && t.co.g == s.co.g && t.co.exports == s.co.exports
  {
  }

  /** With the entry gone, the status query reports nothing handed off, and the attempt rolls back. */
  lemma RollsBack(servers: Servers, key: Key, es: seq<Export>, g: string)
    requires es != [] && forall e :: e in es && e.key.session in servers ==> servers[e.key.session].holding.Owned?
    ensures Decide(StatusRows(servers, es), g) == RollbackUnreleased
  {
    var rows := StatusRows(servers, es);
    forall r | r in rows ensures r == IsOwned || r == IsMissing {
      var i :| 0 <= i < |rows| && rows[i] == r;
      assert es[i] in es;
    }
    assert rows[0] in rows;
  }

  lemma HeardMissing(s: Sys, key: Key)
    requires Inv(s) && Possible(s, ActOnProof(LEGACY, key)) && !Timely(s, ActOnProof(LEGACY, key))
    requires OthersNotHandedOff(s, key) && StatusAllowed(s.daemons[LEGACY], s.co.g, s.co.exports)
    requires Answers(s, LEGACY)
    ensures AfterStatus(s, key) == Go(Next(s, Late(key)), Unadopting(ReleaseFailed))
  {
    hide NoOrphan;
    LetGo(s, key);
    var t := Next(s, Late(key));
    var rest := t.daemons[LEGACY].servers;
    forall e | e in s.co.exports && e.key.session in rest ensures rest[e.key.session].holding.Owned? {
      assert e.key.session != key.session;
    }
    RollsBack(rest, key, s.co.exports, s.co.g);
  }

  /** A reaper that lets go of a live server that was just released, while the attempt asks about it, leads to an orphan
      by two calls that work as they should: the status query, and the roll-back that follows from its answer. */
  lemma LateActionOrphans(s: Sys, key: Key)
    requires Inv(s) && Possible(s, ActOnProof(LEGACY, key)) && !Timely(s, ActOnProof(LEGACY, key))
    requires key.pid !in s.signalled && NoThirdHolder(s, key) && OthersNotHandedOff(s, key)
    requires Answers(s, LEGACY) && StatusAllowed(s.daemons[LEGACY], s.co.g, s.co.exports) && UnadoptWorks(s)
    ensures !NoOrphan(Next(AfterStatus(s, key), Attempt(CallUnadopt(Answered))))
  {
    hide NoOrphan;
    LetGo(s, key);
    HeardMissing(s, key);
    var e :| e in s.co.exports && e.key == key;
    var u := AfterStatus(s, key);
    assert UnadoptWorks(u);
    var t := Next(u, Attempt(CallUnadopt(Answered)));
    assert key.session in SessionsOf(s.co.exports);
    assert GoodEntry(s, LEGACY, key.session);
    NobodyHolds(s, t, key);
    Unheld(t, key);
  }

  lemma NobodyHolds(s: Sys, t: Sys, key: Key)
    requires NoThirdHolder(s, key) && t.daemons.Keys == s.daemons.Keys
    requires forall a :: a in t.daemons && a != LEGACY && a != s.co.g ==> t.daemons[a] == s.daemons[a]
    requires LEGACY in t.daemons ==> key.session !in t.daemons[LEGACY].servers
    requires s.co.g in t.daemons ==> key.session !in t.daemons[s.co.g].servers
    ensures !Held(t, key)
  {
  }

  lemma Unheld(t: Sys, key: Key)
    requires key.pid in t.procs && t.procs[key.pid].key == key && key.pid in t.alive && key.pid !in t.signalled
    requires !Held(t, key)
    ensures !NoOrphan(t)
  {
  }
}
