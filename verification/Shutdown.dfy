/** The loop that stops every supervised task when the daemon is told to stop.

    Each pass takes a snapshot of the registry and visits its tasks in some order; whether a task still needs
    stopping, whether its cancel could be stored and whether a signal was delivered come with the visit. */
module Shutdown {
  import opened Results

  const DURABLE_CANCEL_GRACE: nat := 1000
  const UNPERSISTED_CANCEL_GRACE: nat := 3000
  const TASK_TERM_GRACE: nat := 5000
  const POLL_INTERVAL: nat := 100

  datatype Visit = Visit(task: string, needsStop: bool, stillNeedsStop: bool, stored: bool, delivered: bool)

  datatype Pass = Pass(now: nat, visits: seq<Visit>)

  datatype Signal = Signal(pass: nat, task: string, kill: bool)

  /** What a pass does with a task: it is a target; its cancel is stored; it is cancelled and signalled; the signal is
      delivered. */
  datatype Fate = Targeted | Stored | Stopped | Delivered

  /** A task is stopped only with its cancel stored, unless the pass comes after the deadline for that. */
  predicate Meets(v: Visit, force: bool, fate: Fate) {
    && v.needsStop && v.stillNeedsStop
    && (match fate
        case Targeted => true
        case Stored => v.stored
        case Stopped => v.stored || force
        case Delivered => (v.stored || force) && v.delivered)
  }

  /** `before`, and the tasks with that fate among the first `n` visits. */
  function Added(before: set<string>, visits: seq<Visit>, n: nat, force: bool, fate: Fate): set<string>
    requires n <= |visits|
  {
    if n == 0 then before
    else
      Added(before, visits, n - 1, force, fate)
      + (if Meets(visits[n - 1], force, fate) then {visits[n - 1].task} else {})
  }

  lemma {:induction false} AddedAre(before: set<string>, visits: seq<Visit>, n: nat, force: bool, fate: Fate,
                                    task: string)
    requires n <= |visits|
    ensures task in Added(before, visits, n, force, fate) <==>
            task in before || exists i :: 0 <= i < n && Meets(visits[i], force, fate) && visits[i].task == task
  {
    if n > 0 { AddedAre(before, visits, n - 1, force, fate, task); }
  }

  /** The control flags of all tasks, by task, and the cancels that are in the store. */
  datatype Flags = Flags(blocked: set<string>, requested: set<string>, signalSent: set<string>, durable: set<string>,
                         signals: set<Signal>)

  /** `before`, and the signals of pass `k` to the tasks stopped among the first `n` visits. */
  function Sent(before: set<Signal>, visits: seq<Visit>, n: nat, force: bool, k: nat, kill: bool): set<Signal>
    requires n <= |visits|
  {
    if n == 0 then before
    else Sent(before, visits, n - 1, force, k, kill)
         + (if Meets(visits[n - 1], force, Stopped) then {Signal(k, visits[n - 1].task, kill)} else {})
  }

  lemma {:induction false} SentAre(before: set<Signal>, visits: seq<Visit>, n: nat, force: bool, k: nat, kill: bool,
                                   g: Signal)
    requires n <= |visits| && g in Sent(before, visits, n, force, k, kill) && g !in before
    ensures g.pass == k && g.kill == kill
    ensures exists i :: 0 <= i < n && visits[i].task == g.task && Meets(visits[i], force, Stopped)
  {
    if n > 0 && g in Sent(before, visits, n - 1, force, k, kill) {
      SentAre(before, visits, n - 1, force, k, kill, g);
    }
  }

  function AfterVisits(f: Flags, visits: seq<Visit>, n: nat, force: bool, k: nat, kill: bool): Flags
    requires n <= |visits|
  {
    Flags(
      Added(f.blocked, visits, n, force, Targeted), Added(f.requested, visits, n, force, Stopped),
      Added(f.signalSent, visits, n, force, Delivered), Added(f.durable, visits, n, force, Stored),
      Sent(f.signals, visits, n, force, k, kill))
  }

  datatype End = RegistryEmpty | NothingToStop | KillPassDone

  /** The controls of the tasks, shared with their workers. */
  class Controls {
    var blocked: set<string>
    var requested: set<string>
    var signalSent: set<string>
    var durable: set<string>
    ghost var signals: set<Signal>

    constructor ()
      ensures View() == Flags({}, {}, {}, {}, {})
    {
      blocked, requested, signalSent, durable, signals := {}, {}, {}, {}, {};
    }

    ghost function View(): Flags
      reads this
    {
      Flags(blocked, requested, signalSent, durable, signals)
    }

    /** One visit. */
    method VisitTask(v: Visit, force: bool, ghost k: nat, kill: bool) returns (target: bool, unstored: bool)
      modifies this
      ensures target == (v.needsStop && v.stillNeedsStop) && unstored == (target && !v.stored && !force)
      ensures blocked == old(blocked) + (if target then {v.task} else {})
      ensures requested == old(requested) + (if target && (v.stored || force) then {v.task} else {})
      ensures signalSent == old(signalSent) + (if target && (v.stored || force) && v.delivered then {v.task} else {})
      ensures durable == old(durable) + (if target && v.stored then {v.task} else {})
      ensures signals == old(signals) + (if target && (v.stored || force) then {Signal(k, v.task, kill)} else {})
    {
      if !v.needsStop { return false, false; }
      if !v.stillNeedsStop { return false, false; }
      target, unstored := true, false;
      blocked := blocked + {v.task};
      if v.stored {
        durable, requested := durable + {v.task}, requested + {v.task};
      } else if !force {
        return true, true;
      } else {
        requested := requested + {v.task};
      }
      signals := signals + {Signal(k, v.task, kill)};
      if v.delivered { signalSent := signalSent + {v.task}; }
    }

    /** One pass over a snapshot. */
    method RunPass(p: Pass, force: bool, ghost k: nat, kill: bool) returns (sawTarget: bool, sawUnstored: bool)
      modifies this
      ensures sawTarget <==> exists v :: v in p.visits && v.needsStop && v.stillNeedsStop
      ensures sawUnstored <==> exists v :: v in p.visits && v.needsStop && v.stillNeedsStop && !v.stored && !force
      ensures View() == AfterVisits(old(View()), p.visits, |p.visits|, force, k, kill)
    {
      sawTarget, sawUnstored := false, false;
      var n := 0;
      while n < |p.visits|
        invariant n <= |p.visits|
        invariant sawTarget <==> exists i :: 0 <= i < n && p.visits[i].needsStop && p.visits[i].stillNeedsStop
        invariant sawUnstored <==> exists i ::
                    0 <= i < n && p.visits[i].needsStop && p.visits[i].stillNeedsStop && !p.visits[i].stored && !force
        invariant View() == AfterVisits(old(View()), p.visits, n, force, k, kill)
      {
        var target, unstored := VisitTask(p.visits[n], force, k, kill);
        sawTarget, sawUnstored := sawTarget || target, sawUnstored || unstored;
        n := n + 1;
      }
    }
  }

  // ---------------------------------------------------------------- the loop

  function TermDeadline(start: nat): nat { start + DURABLE_CANCEL_GRACE }

  function UnstoredDeadline(start: nat): nat { TermDeadline(start) + UNPERSISTED_CANCEL_GRACE }

  function KillDeadline(start: nat): nat { TermDeadline(start) + TASK_TERM_GRACE }

  type World = nat -> Pass

  function PassAt(env: World, k: nat): Pass { env(k) }

  predicate Sleeps(env: World, period: nat, k: nat) {
    PassAt(env, k).now + POLL_INTERVAL <= PassAt(env, k + 1).now <= PassAt(env, k).now + period
  }

  /** The flags after pass `k`: it cancels unstored tasks from the deadline on, and kills from the kill deadline on. */
  function AfterPass(f: Flags, env: World, start: nat, k: nat): Flags {
    var p := PassAt(env, k);
    AfterVisits(f, p.visits, |p.visits|, p.now >= UnstoredDeadline(start), k, p.now >= KillDeadline(start))
  }

  /** The flags after the first `n` passes. */
  function UpTo(f: Flags, env: World, start: nat, n: nat): Flags {
    if n == 0 then f else AfterPass(UpTo(f, env, start, n - 1), env, start, n - 1)
  }

  /** `before`, and the tasks with that fate in the first `n` passes. */
  function Gathered(before: set<string>, env: World, start: nat, n: nat, fate: Fate): set<string> {
    if n == 0 then before
    else
      var p := PassAt(env, n - 1);
      Added(Gathered(before, env, start, n - 1, fate), p.visits, |p.visits|, p.now >= UnstoredDeadline(start), fate)
  }

  lemma {:induction false} UpToGathers(f: Flags, env: World, start: nat, n: nat)
    ensures UpTo(f, env, start, n).blocked == Gathered(f.blocked, env, start, n, Targeted)
    ensures UpTo(f, env, start, n).requested == Gathered(f.requested, env, start, n, Stopped)
    ensures UpTo(f, env, start, n).signalSent == Gathered(f.signalSent, env, start, n, Delivered)
    ensures UpTo(f, env, start, n).durable == Gathered(f.durable, env, start, n, Stored)
  {
    if n > 0 { UpToGathers(f, env, start, n - 1); }
  }

  predicate FateAt(env: World, start: nat, k: nat, v: Visit, fate: Fate) {
    v in PassAt(env, k).visits && Meets(v, PassAt(env, k).now >= UnstoredDeadline(start), fate)
  }

  lemma {:induction false} GatheredAre(before: set<string>, env: World, start: nat, n: nat, fate: Fate, task: string)
    ensures task in Gathered(before, env, start, n, fate) <==>
            task in before || exists k, v :: 0 <= k < n && FateAt(env, start, k, v, fate) && v.task == task
  {
    if n > 0 {
      var p := PassAt(env, n - 1);
      var force := p.now >= UnstoredDeadline(start);
      AddedAre(Gathered(before, env, start, n - 1, fate), p.visits, |p.visits|, force, fate, task);
      GatheredAre(before, env, start, n - 1, fate, task);
      if i :| 0 <= i < |p.visits| && Meets(p.visits[i], force, fate) && p.visits[i].task == task {
        assert FateAt(env, start, n - 1, p.visits[i], fate);
      }
    }
  }

  /** The task needs stopping in pass `k`, as visit `v` of it finds. */
  predicate NeedsStopAt(env: World, k: nat, v: Visit) {
    v in PassAt(env, k).visits && v.needsStop && v.stillNeedsStop
  }

  /** After `n` passes the exec gate of a task is blocked exactly if it needed stopping in one of them; its cancel flag
      is set exactly if, moreover, its cancel was stored in that pass or the pass came four seconds after the start;
      its cancel is durable, and the signal marked as sent, exactly if the store and the kernel said so. */
  lemma WhatPassesDo(f: Flags, env: World, start: nat, n: nat, task: string)
    ensures var t := UpTo(f, env, start, n);
      && (task in t.blocked <==>
            task in f.blocked || exists k, v :: 0 <= k < n && NeedsStopAt(env, k, v) && v.task == task)
      && (task in t.requested <==>
            task in f.requested || exists k, v :: 0 <= k < n && NeedsStopAt(env, k, v) && v.task == task
                                     && (v.stored || PassAt(env, k).now >= start + 4000))
      && (task in t.durable <==>
            task in f.durable || exists k, v :: 0 <= k < n && NeedsStopAt(env, k, v) && v.task == task && v.stored)
      && (task in t.signalSent <==>
            task in f.signalSent || exists k, v :: 0 <= k < n && NeedsStopAt(env, k, v) && v.task == task
                                      && (v.stored || PassAt(env, k).now >= start + 4000) && v.delivered)
  {
    UpToGathers(f, env, start, n);
    GatheredAre(f.blocked, env, start, n, Targeted, task);
    GatheredAre(f.requested, env, start, n, Stopped, task);
    GatheredAre(f.durable, env, start, n, Stored, task);
    GatheredAre(f.signalSent, env, start, n, Delivered, task);
    forall k: nat, v
      ensures FateAt(env, start, k, v, Targeted) == NeedsStopAt(env, k, v)
      ensures FateAt(env, start, k, v, Stored) == (NeedsStopAt(env, k, v) && v.stored)
      ensures FateAt(env, start, k, v, Stopped)
           == (NeedsStopAt(env, k, v) && (v.stored || PassAt(env, k).now >= start + 4000))
      ensures FateAt(env, start, k, v, Delivered)
           == (NeedsStopAt(env, k, v) && (v.stored || PassAt(env, k).now >= start + 4000) && v.delivered)
    {
    }
  }

  /** Each visit of a task that needs stopping and is not put off signals it, with SIGKILL from six seconds after the
      start. */
  lemma {:induction false} VisitsSignal(f: Flags, env: World, start: nat, n: nat, k: nat, v: Visit)
    requires k < n && NeedsStopAt(env, k, v) && (v.stored || PassAt(env, k).now >= start + 4000)
    ensures Signal(k, v.task, PassAt(env, k).now >= start + 6000) in UpTo(f, env, start, n).signals
  {
    var p := PassAt(env, n - 1);
    var force, kill := p.now >= UnstoredDeadline(start), p.now >= KillDeadline(start);
    if k == n - 1 {
      var i :| 0 <= i < |p.visits| && p.visits[i] == v;
      SentHas(UpTo(f, env, start, k).signals, p.visits, |p.visits|, force, k, kill, i);
    } else {
      VisitsSignal(f, env, start, n - 1, k, v);
      SentKeeps(UpTo(f, env, start, n - 1).signals, p.visits, |p.visits|, force, n - 1, kill);
    }
  }

  lemma {:induction false} SentKeeps(before: set<Signal>, visits: seq<Visit>, n: nat, force: bool, k: nat, kill: bool)
    requires n <= |visits|
    ensures before <= Sent(before, visits, n, force, k, kill)
  {
    if n > 0 { SentKeeps(before, visits, n - 1, force, k, kill); }
  }

  lemma {:induction false} SentHas(before: set<Signal>, visits: seq<Visit>, n: nat, force: bool, k: nat, kill: bool,
                                   i: nat)
    requires i < n <= |visits| && Meets(visits[i], force, Stopped)
    ensures Signal(k, visits[i].task, kill) in Sent(before, visits, n, force, k, kill)
  {
    if i < n - 1 { SentHas(before, visits, n - 1, force, k, kill, i); }
  }

  /** A task is signalled in a pass only if its cancel was stored in that pass or the pass came after the deadline,
      and it gets SIGKILL exactly from the kill deadline on. */
  lemma {:induction false} SignalsAreBacked(f: Flags, env: World, start: nat, n: nat, g: Signal)
    requires g in UpTo(f, env, start, n).signals && g !in f.signals
    ensures g.pass < n && exists v :: NeedsStopAt(env, g.pass, v) && v.task == g.task
                                        && (v.stored || PassAt(env, g.pass).now >= start + 4000)
    ensures g.kill <==> PassAt(env, g.pass).now >= start + 6000
  {
    if g in UpTo(f, env, start, n - 1).signals {
      SignalsAreBacked(f, env, start, n - 1, g);
    } else {
      var p := PassAt(env, n - 1);
      var force := p.now >= UnstoredDeadline(start);
      SentAre(UpTo(f, env, start, n - 1).signals, p.visits, |p.visits|, force, n - 1, p.now >= KillDeadline(start), g);
      var i :| 0 <= i < |p.visits| && p.visits[i].task == g.task && Meets(p.visits[i], force, Stopped);
      assert NeedsStopAt(env, n - 1, p.visits[i]);
    }
  }

  /** Every signalled task is requested, so that its worker reads the signal as a cancel. */
  lemma {:induction false} SignalledAreRequested(f: Flags, env: World, start: nat, n: nat, g: Signal)
    requires g in UpTo(f, env, start, n).signals && (g in f.signals ==> g.task in f.requested)
    ensures g.task in UpTo(f, env, start, n).requested
  {
    if n > 0 {
      var before, p := UpTo(f, env, start, n - 1), PassAt(env, n - 1);
      var force := p.now >= UnstoredDeadline(start);
      AddedAre(before.requested, p.visits, |p.visits|, force, Stopped, g.task);
      if g in before.signals {
        SignalledAreRequested(f, env, start, n - 1, g);
      } else {
        SentAre(before.signals, p.visits, |p.visits|, force, n - 1, p.now >= KillDeadline(start), g);
      }
    }
  }

  /** From the deadline on, nothing is put off: every task that needs stopping is cancelled and signalled. */
  lemma NothingPutOff(f: Flags, env: World, start: nat, n: nat, k: nat, v: Visit)
    requires k < n && NeedsStopAt(env, k, v) && PassAt(env, k).now >= start + 4000
    ensures v.task in UpTo(f, env, start, n).requested
    ensures Signal(k, v.task, PassAt(env, k).now >= start + 6000) in UpTo(f, env, start, n).signals
  {
    WhatPassesDo(f, env, start, n, v.task);
    VisitsSignal(f, env, start, n, k, v);
  }

  /** A task of the pass needs stopping when it is found and still does once the intent is counted. */
  ghost predicate HasTarget(p: Pass) {
    exists v :: v in p.visits && v.needsStop && v.stillNeedsStop
  }

  /** Why pass `last` is the last one: no task is registered, or none needs stopping, or it is a kill pass, and then
      all its targets are requested. */
  ghost predicate Ends(env: World, start: nat, last: nat, end: End, requested: set<string>) {
    match end
    case RegistryEmpty => PassAt(env, last).visits == []
    case NothingToStop => PassAt(env, last).visits != [] && !HasTarget(PassAt(env, last))
    case KillPassDone =>
      && PassAt(env, last).now >= KillDeadline(start) && HasTarget(PassAt(env, last))
      && forall v :: v in PassAt(env, last).visits && v.needsStop && v.stillNeedsStop ==> v.task in requested
  }

  /** One round of the loop; no end means that there is another. */
  method Round(env: World, start: nat, k: nat, controls: Controls) returns (end: Option<End>)
    modifies controls
    ensures controls.View() == AfterPass(old(controls.View()), env, start, k)
    ensures end.Some? ==> Ends(env, start, k, end.value, controls.requested)
    ensures end.None? ==> PassAt(env, k).now < KillDeadline(start) && HasTarget(PassAt(env, k))
  {
    var p := PassAt(env, k);
    if p.visits == [] {
      return Some(RegistryEmpty);
    }
    ghost var before := controls.requested;
    var sawTarget, sawUnstored := controls.RunPass(p, p.now >= UnstoredDeadline(start), k,
                                                   p.now >= KillDeadline(start));
    if !sawTarget {
      return Some(NothingToStop);
    }
    if p.now >= KillDeadline(start) && !sawUnstored {
      forall v | v in p.visits && v.needsStop && v.stillNeedsStop ensures v.task in controls.requested {
        AddedAre(before, p.visits, |p.visits|, true, Stopped, v.task);
      }
      return Some(KillPassDone);
    }
    end := None;
  }

  /** Stops all tasks, whatever the store answers. The last pass is at the latest the first one at or after the kill
      deadline, and leaves none of its targets without a cancel. */
  method StopAll(env: World, ghost period: nat, start: nat, controls: Controls) returns (end: End, last: nat)
    requires PassAt(env, 0).now >= start
    requires forall k: nat {:trigger Sleeps(env, period, k)} :: Sleeps(env, period, k)
    modifies controls
    ensures last == 0 || PassAt(env, last - 1).now < KillDeadline(start)
    ensures last == 0 || PassAt(env, last).now < KillDeadline(start) + period
    ensures Ends(env, start, last, end, controls.requested)
    ensures forall k :: 0 <= k < last ==> HasTarget(PassAt(env, k))
    ensures controls.View() == UpTo(old(controls.View()), env, start, last + 1)
  {
    last := 0;
    var over := Round(env, start, 0, controls);
    while over.None?
      invariant over.Some? ==> Ends(env, start, last, over.value, controls.requested)
      invariant over.None? ==> PassAt(env, last).now < KillDeadline(start) && HasTarget(PassAt(env, last))
      invariant forall k :: 0 <= k < last ==> HasTarget(PassAt(env, k))
      invariant last > 0 ==>
                PassAt(env, last - 1).now < KillDeadline(start) && PassAt(env, last).now < KillDeadline(start) + period
      invariant controls.View() == UpTo(old(controls.View()), env, start, last + 1)
      decreases KillDeadline(start) + period - PassAt(env, last).now, over.None?
    {
      assert Sleeps(env, period, last);
      last := last + 1;
      over := Round(env, start, last, controls);
    }
    end := over.value;
  }
}
