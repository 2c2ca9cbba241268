/** How the handoff handlers act one after the other: repeating a call, undoing it, and asking about it. */
module Laws {
  import opened Registry

  /** A repeated adoption is allowed and leaves what the last one alone would have left. */
  lemma AdoptTwice(d: View, source: string, es: seq<Export>, probe: Probe, first: nat, second: nat)
    requires AdoptAllowed(d, source, es, probe)
    ensures var once := d.(servers := AdoptedServers(d.servers, source, es, first));
            && AdoptAllowed(once, source, es, probe)
            && AdoptedServers(once.servers, source, es, second) == AdoptedServers(d.servers, source, es, second)
  {
    var once := AdoptedServers(d.servers, source, es, first);
    forall e | e in es ensures e.key.session in once && Readoptable(once[e.key.session], e) {
      ExportForIs(es, e);
    }
    forall s | s in SessionsOf(es)
      ensures AdoptEntry(once, source, ExportFor(es, s), second)
              == AdoptEntry(d.servers, source, ExportFor(es, s), second)
    {
      var e :| e in es && e.key.session == s;
      ExportForIs(es, e);
    }
  }

  /** An adoption can be taken back exactly if no entry that was there before came from another daemon; then the
      registry is as before, less the entries that the adoption found. */
  lemma UnadoptUndoesAdopt(d: View, source: string, es: seq<Export>, probe: Probe, now: nat)
    requires AdoptAllowed(d, source, es, probe)
    ensures var once := d.(servers := AdoptedServers(d.servers, source, es, now));
            && (UnadoptAllowed(once, source, es) <==>
                  forall e :: e in es && e.key.session in d.servers ==>
                    d.servers[e.key.session].holding.source == source)
            && once.servers - SessionsOf(es) == d.servers - SessionsOf(es)
            && (SessionsOf(es) !! d.servers.Keys ==>
                  UnadoptAllowed(once, source, es) && once.servers - SessionsOf(es) == d.servers)
  {
    var once := AdoptedServers(d.servers, source, es, now);
    forall e | e in es
      ensures e.key.session in once && once[e.key.session].key == e.key && once[e.key.session].holding.Adopted?
      ensures once[e.key.session].holding.source
              == if e.key.session in d.servers then d.servers[e.key.session].holding.source else source
    {
      ExportForIs(es, e);
    }
  }

  /** A repeated release to the same daemon is allowed and leaves what the last one alone would have left; a release
      to another daemon is refused. */
  lemma ReleaseTwice(d: View, target: string, es: seq<Export>, first: nat, second: nat, other: string)
    requires ReleaseAllowed(d, target, es)
    ensures var once := d.(servers := ReleasedServers(d.servers, target, es, first));
            && ReleaseAllowed(once, target, es)
            && ReleasedServers(once.servers, target, es, second) == ReleasedServers(d.servers, target, es, second)
            && (es != [] && other != target ==> !ReleaseAllowed(once, other, es))
  {
    var once := ReleasedServers(d.servers, target, es, first);
    forall e | e in es
      ensures e.key.session in once && Releasable(once[e.key.session], target, e)
              && once[e.key.session].holding.HandedOff?
    {
      ExportForIs(es, e);
      assert Releasable(d.servers[e.key.session], target, e);
    }
    if es != [] && other != target {
      assert es[0] in es && !Releasable(once[es[0].key.session], other, es[0]);
    }
  }

  /** After a release the status answer names the target for every export; before it, it says "owned" for each one
      that is not handed over yet. */
  lemma StatusTellsRelease(d: View, target: string, es: seq<Export>, now: nat, e: Export)
    requires ReleaseAllowed(d, target, es) && e in es
    ensures var once := d.(servers := ReleasedServers(d.servers, target, es, now));
            && StatusAllowed(d, target, es) && StatusAllowed(once, target, es)
            && StatusOf(once.servers, e) == IsHandedOff(target)
            && StatusOf(d.servers, e)
               == if d.servers[e.key.session].holding.Owned? then IsOwned else IsHandedOff(target)
  {
    var once := ReleasedServers(d.servers, target, es, now);
    forall f | f in es
      ensures f.key.session in once && once[f.key.session].key == f.key
              && once[f.key.session].holding == ReleaseEntry(d.servers[f.key.session], target, f, now).holding
    {
      ExportForIs(es, f);
      assert Releasable(d.servers[f.key.session], target, f);
    }
  }
}
