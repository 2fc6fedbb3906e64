/** Turns among fibers of equal priority.
 */
module SchedulerTurns {
  import opened Wrappers
  import opened Scheduler
  import opened SchedulerRuns

  /** `g` is in `q`, and no `h` comes before it. */
  ghost predicate Ahead(q: seq<Slot>, g: Slot, h: Slot) {
    q != [] && (q[0] == g || (q[0] != h && Ahead(q[1..], g, h)))
  }

  lemma {:induction false} AheadIfAbsent(q: seq<Slot>, g: Slot, h: Slot)
    requires g in q && h !in q
    ensures Ahead(q, g, h)
  {
    if q[0] != g { AheadIfAbsent(q[1..], g, h); }
  }

  lemma {:induction false} AheadAfterPush(q: seq<Slot>, f: Slot, g: Slot, h: Slot)
    requires Ahead(q, g, h)
    ensures Ahead(q + [f], g, h)
  {
    assert (q + [f])[1..] == q[1..] + [f];
    if q[0] != g { AheadAfterPush(q[1..], f, g, h); }
  }

  lemma {:induction false} AheadAfterRemove(q: seq<Slot>, f: Slot, g: Slot, h: Slot)
    requires Ahead(q, g, h) && f != g
    ensures Ahead(Without(q, f), g, h)
  {
    var rest := Without(q[1..], f);
    assert q[0] != f ==> Without(q, f)[1..] == rest;
    assert q[0] == f ==> Without(q, f) == rest;
    if q[0] != g { AheadAfterRemove(q[1..], f, g, h); }
  }

  lemma {:induction false} AheadBlocks(s: Sched, q: seq<Slot>, core: nat, g: Slot, h: Slot)
    requires Ahead(q, g, h) && g != h && g in s.fibers && FirstSchedulable(s, q, core) == Some(h)
    ensures !IsSchedulable(s, g, core)
  {
    if q[0] != g { AheadBlocks(s, q[1..], core, g, h); }
  }

  /** What one step can do to a list, as far as a fiber other than `f` is concerned. */
  ghost predicate Shuffled(q: seq<Slot>, q': seq<Slot>, f: Slot) {
    q' == q || q' == Without(q, f) || q' == Without(q, f) + [f] || q' == q + [f]
  }

  lemma ShuffledKeepsAhead(q: seq<Slot>, q': seq<Slot>, f: Slot, g: Slot, h: Slot)
    requires Shuffled(q, q', f) && f != g && Ahead(q, g, h)
    ensures Ahead(q', g, h)
  {
    AheadAfterRemove(q, f, g, h);
    AheadAfterPush(q, f, g, h);
    AheadAfterPush(Without(q, f), f, g, h);
  }

  /** The fiber whose place in the lists the step changes, if it changes any. */
  ghost function Mover(s: Sched, l: Label): Slot
    requires Inv(s) && Enabled(s, l)
  {
    InvDefined(s, l);
    match l
    case ChangeMask(f, _) => f
    case ChangeActivity(f, _) => f
    case Run(core) => if Pick(s, core).Some? then Pick(s, core).value else MAIN
    case Pause(core, _) => s.current[core]
    case Quit(core) => s.current[core]
    case Lock(core, _, _, _) => s.current[core]
    case Unlock(core, a) =>
      var f := s.current[core];
      if UnlockCheck(s, f, a) == Success then s.fibers[f].waitList[0] else MAIN
    case _ => MAIN
  }

  lemma AddShuffles(s: Sched, f: Slot, p: nat)
    requires f in s.fibers && p < |s.queues|
    ensures p < |AddToScheduler(s, f).queues| == |s.queues|
    ensures AddToScheduler(s, f).queues[p] == s.queues[p] || AddToScheduler(s, f).queues[p] == s.queues[p] + [f]
  {
  }

  lemma UnlockShuffles(s: Sched, f: Slot, p: nat)
    requires CanRelease(s, f) && |s.queues| == PRIORITIES && p < PRIORITIES
    ensures p < |ReleaseLock(s, f).queues|
            && Shuffled(s.queues[p], ReleaseLock(s, f).queues[p], s.fibers[f].waitList[0])
  {
    var g, u := ReleaseShape(s, f);
    hide ReleaseLock, AddToScheduler;
    AddShuffles(Unlink(SetFiber(u, g, Owner(s.fibers[g], s.fibers[f].waitList[1..])), g), g, p);
  }

  lemma LockShuffles(s: Sched, l: Label, p: nat)
    requires Inv(s) && l.Lock? && l.core in s.current && !BootsWaiting(s, l) && p < PRIORITIES
    ensures s.current[l.core] in s.fibers
    ensures var t := ArbitrateLock(s, l.core, l.handle, l.a, l.tag);
            p < |t.queues| && Shuffled(s.queues[p], t.queues[p], s.current[l.core])
  {
    assert CoreOk(s, l.core);
    if LockCheck(s, s.current[l.core], l.handle, l.a) == Success {
      var g, o := WaitShape(s, l);
      hide ArbitrateLock;
    }
  }

  lemma PauseShuffles(s: Sched, core: nat, timeout: nat, p: nat)
    requires core in s.current && s.current[core] in s.fibers && s.fibers[s.current[core]].state == Running
             && p < |s.queues|
    ensures p < |Sleep(s, core, timeout).queues|
            && Shuffled(s.queues[p], Sleep(s, core, timeout).queues[p], s.current[core])
  {
    var b, u := PauseShape(s, core, timeout);
    hide Sleep, AddToScheduler;
    AddShuffles(u, s.current[core], p);
  }

  lemma StepShuffles(s: Sched, l: Label, p: nat)
    requires Inv(s) && Enabled(s, l) && Defined(s, l) && !BootsWaiting(s, l) && p < PRIORITIES
    ensures p < |Next(s, l).queues| && Shuffled(s.queues[p], Next(s, l).queues[p], Mover(s, l))
  {
    hide Sleep, ArbitrateLock, ReleaseLock, WaitsOk, Shuffled;
    match l
    case Pause(core, timeout) =>
      assert CoreOk(s, core);
      PauseShuffles(s, core, timeout, p);
    case Lock(core, handle, a, tag) => LockShuffles(s, l, p);
    case Unlock(core, a) =>
      CanReleaseFromCheck(s, core, a);
      if UnlockCheck(s, s.current[core], a) == Success {
        UnlockShuffles(s, s.current[core], p);
      } else {
        Same(s.queues[p], MAIN);
      }
    case ChangeMask(f, mask) => ChangeShuffles(s, f, s.fibers[f].(coreMask := mask), p);
    case ChangeActivity(f, level) => ChangeShuffles(s, f, s.fibers[f].(activity := level), p);
    case Run(core) => RunShuffles(s, core, p);
    case _ => Same(s.queues[p], Mover(s, l));
  }

  lemma Same(q: seq<Slot>, f: Slot)
    ensures Shuffled(q, q, f)
  {
  }

  lemma ChangeShuffles(s: Sched, f: Slot, b: Fiber, p: nat)
    requires f in s.fibers && p < |s.queues|
    ensures var t := AddToScheduler(Unlink(SetFiber(s, f, b), f), f);
            p < |t.queues| && Shuffled(s.queues[p], t.queues[p], f) && Shuffled(s.queues[p], s.queues[p], f)
  {
    AddShuffles(Unlink(SetFiber(s, f, b), f), f, p);
  }

  lemma RunShuffles(s: Sched, core: nat, p: nat)
    requires Inv(s) && p < PRIORITIES
    ensures match Pick(s, core)
            case None => Shuffled(s.queues[p], s.queues[p], MAIN)
            case Some(f) =>
                f in s.fibers && p < |Dispatch(s, f, core).queues|
                    && Shuffled(s.queues[p], Dispatch(s, f, core).queues[p], f)
  {
    PickedFiber(s, core);
  }

  /** A scheduled fiber that a step leaves alone keeps its place ahead of `h`. */
  lemma AheadStep(s: Sched, l: Label, g: Slot, h: Slot, p: nat)
    requires Inv(s) && Enabled(s, l) && Defined(s, l) && !BootsWaiting(s, l) && Untouched(s, l, g) && p < PRIORITIES
    requires Queued(s, g, p) && Ahead(s.queues[p], g, h)
    ensures Queued(Next(s, l), g, p) && p < |Next(s, l).queues| && Ahead(Next(s, l).queues[p], g, h)
  {
    Bystander(s, l, g);
    StepShuffles(s, l, p);
    assert Mover(s, l) != g || Next(s, l).queues[p] == s.queues[p] by { MoverIsOther(s, l, g); }
    hide Next, Mover, Inv, Enabled, Defined;
    if Mover(s, l) != g { ShuffledKeepsAhead(s.queues[p], Next(s, l).queues[p], Mover(s, l), g, h); }
  }

  lemma MoverIsOther(s: Sched, l: Label, g: Slot)
    requires Inv(s) && Enabled(s, l) && Defined(s, l) && Untouched(s, l, g) && g in s.fibers
             && s.fibers[g].state == Scheduled
    ensures Mover(s, l) != g || Next(s, l).queues == s.queues
  {
    hide Lists, WaitsOk, Sleep, ArbitrateLock, ReleaseLock;
    match l
    case Pause(core, _) => assert CoreOk(s, core);
    case Quit(core) => assert CoreOk(s, core);
    case Lock(core, _, _, _) => assert CoreOk(s, core);
    case Unlock(core, a) => CanReleaseFromCheck(s, core, a);
    case _ =>
  }

  lemma DispatchPutsAhead(s: Sched, l: Label, g: Slot, h: Slot, p: nat)
    requires Inv(s) && Enabled(s, l) && Defined(s, l) && Dispatches(s, l, h) && g != h && p < PRIORITIES
             && Queued(s, g, p)
    ensures var t := Next(s, l); Queued(t, g, p) && p < |t.queues| && Ahead(t.queues[p], g, h)
  {
    PickedFiber(s, l.core);
    var t := Next(s, l);
    assert QueueOk(s, None, p);
    assert t.queues[p] == Without(s.queues[p], h);
    AheadIfAbsent(t.queues[p], g, h);
  }

  lemma {:induction false} StaysAhead(states: seq<Sched>, labels: seq<Label>, g: Slot, h: Slot, p: nat, i: nat, j: nat)
    requires IsRun(states, labels) && BootsFirst(states, labels) && i <= j < |states| && p < PRIORITIES
    requires Queued(states[i], g, p) && p < |states[i].queues| && Ahead(states[i].queues[p], g, h)
    requires forall k | i <= k < j :: Untouched(states[k], labels[k], g)
    ensures Queued(states[j], g, p) && p < |states[j].queues| && Ahead(states[j].queues[p], g, h)
    decreases j
  {
    hide Init, Inv, Enabled, Defined, Next, BootsWaiting, Untouched, Queued, Ahead;
    if i < j {
      StaysAhead(states, labels, g, h, p, i, j - 1);
      RunKeepsInv(states, labels, j - 1);
      assert Step(states[j - 1], labels[j - 1], states[j]);
      AheadStep(states[j - 1], labels[j - 1], g, h, p);
    }
  }

  lemma PickedAtPriority(s: Sched, core: nat, h: Slot)
    requires Inv(s) && Pick(s, core) == Some(h)
    ensures h in s.fibers && 0 <= s.fibers[h].priority < |s.queues|
            && FirstSchedulable(s, s.queues[s.fibers[h].priority], core) == Some(h)
  {
    PickFromSearches(s, core, |s.queues|);
    var p :| 0 <= p < |s.queues| && FirstSchedulable(s, s.queues[p], core) == Some(h);
    FirstIsFirst(s, s.queues[p], core);
    assert QueueOk(s, None, p);
  }

  /** Turns: suppose `h` is dispatched at step `i` and again at step `j`, and all the while `g`, of the
      same priority, has stood in its list undisturbed.  Then `g` could not have run at step `j` on the
      core in question.  So among fibers schedulable on one core none runs twice before another. */
  lemma NoSecondTurn(states: seq<Sched>, labels: seq<Label>, g: Slot, h: Slot, p: nat, i: nat, j: nat)
    requires IsRun(states, labels) && BootsFirst(states, labels) && i < j < |labels| && g != h && p < PRIORITIES
    requires Queued(states[i], g, p) && forall k | i <= k < j :: Untouched(states[k], labels[k], g)
    requires Dispatches(states[i], labels[i], h) && Dispatches(states[j], labels[j], h)
    requires Queued(states[j], h, p)
    ensures Queued(states[j], g, p)
            && (labels[j].core !in states[j].fibers[g].coreMask || states[j].now <= states[j].fibers[g].timeout)
  {
    hide Init, Lists, WaitsOk, FibersOk, BootsWaiting, Enabled, Defined, Next, Ahead;
    RunKeepsInv(states, labels, i);
    RunKeepsInv(states, labels, j);
    assert Step(states[i], labels[i], states[i + 1]);
    DispatchPutsAhead(states[i], labels[i], g, h, p);
    StaysAhead(states, labels, g, h, p, i + 1, j);
    PickedAtPriority(states[j], labels[j].core, h);
    AheadBlocks(states[j], states[j].queues[p], labels[j].core, g, h);
  }
}
