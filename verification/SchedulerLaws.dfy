/** What each call of the scheduler does, field by field: which records change and how, where the fiber
    goes, and that everything else stays.
 */
module SchedulerLaws {
  import opened Wrappers
  import opened Sequences
  import opened Scheduler
  import opened SchedulerRuns
  import TimeSpan

  // Lists.

  /** Taking a fiber out of a list keeps the others in order. */
  lemma {:induction false} WithoutSplits(a: seq<Slot>, f: Slot, b: seq<Slot>)
    requires f !in a && f !in b
    ensures Without(a + [f] + b, f) == a + b
  {
    var q := a + [f] + b;
    if a == [] {
      assert q[1..] == b;
      WithoutAbsent(b, f);
    } else {
      WithoutSplits(a[1..], f, b);
      assert q[1..] == a[1..] + [f] + b && q[0] == a[0];
      assert a + b == [a[0]] + (a[1..] + b);
    }
  }

  lemma {:induction false} WithoutAbsent(q: seq<Slot>, f: Slot)
    requires f !in q
    ensures Without(q, f) == q
  {
    if q != [] {
      WithoutAbsent(q[1..], f);
    }
  }

  ghost predicate Listed(s: Sched, f: Slot) {
    f in s.suspended || exists p :: 0 <= p < |s.queues| && f in s.queues[p]
  }

  lemma QueuesOf(s: Sched, f: Slot, p: nat)
    requires Inv(s) && p < PRIORITIES
    ensures |s.queues| == PRIORITIES
    ensures f in s.queues[p] <==> f in s.fibers && s.fibers[f].state == Scheduled && s.fibers[f].priority == p
    ensures f in s.suspended <==> f in s.fibers && (s.fibers[f].state == Suspended || s.fibers[f].state == Waiting)
  {
    assert QueueOk(s, None, p);
  }

  /** Unlinking a queued fiber takes it out of the queue of its priority; unlinking a parked one takes it
      out of the suspended list; unlinking any other does nothing. */
  lemma UnlinkOnce(s: Sched, f: Slot)
    requires Inv(s) && f in s.fibers
    ensures |s.queues| == PRIORITIES && 0 <= s.fibers[f].priority < PRIORITIES
    ensures var u, b := Unlink(s, f), s.fibers[f];
            && u == s.(queues := u.queues, suspended := u.suspended)
            && u.queues ==
               (if b.state == Scheduled then s.queues[b.priority := Without(s.queues[b.priority], f)] else s.queues)
            && u.suspended ==
               (if b.state == Suspended || b.state == Waiting then Without(s.suspended, f) else s.suspended)
  {
    assert FiberOk(s, f);
    var u, p := Unlink(s, f), s.fibers[f].priority;
    forall q | 0 <= q < PRIORITIES ensures q != p || s.fibers[f].state != Scheduled ==> u.queues[q] == s.queues[q] {
      QueuesOf(s, f, q);
      if f !in s.queues[q] { WithoutAbsent(s.queues[q], f); }
    }
    QueuesOf(s, f, 0);
    if f !in s.suspended { WithoutAbsent(s.suspended, f); }
  }

  // Calls.

  ghost predicate RestSame(s: Sched, t: Sched) {
    t.handles == s.handles && t.words == s.words && t.cores == s.cores && t.now == s.now
  }

  ghost predicate ListsSame(s: Sched, t: Sched) {
    t.queues == s.queues && t.suspended == s.suspended
  }

  /** The fiber goes to the back of the queue of priority `p`. */
  ghost predicate Joins(s: Sched, t: Sched, f: Slot, p: int) {
    0 <= p < |s.queues| && t.queues == s.queues[p := s.queues[p] + [f]]
  }

  ghost predicate Leaves(s: Sched, t: Sched, f: Slot, p: int) {
    0 <= p < |s.queues| && t.queues == s.queues[p := Without(s.queues[p], f)]
  }

  /** A running fiber gives up core `core`, which is then in its scheduler. */
  ghost predicate CoreFreed(s: Sched, t: Sched, core: nat) {
    t.current == s.current - {core} && (t.booted <==> s.booted || core == 0)
  }

  /** A yield or sleep: the deadline is noted unless it is 0, and the fiber goes to the back of its
      queue, or is suspended if it has been made dormant. */
  lemma PauseLaw(s: Sched, core: nat, timeout: nat)
    requires Inv(s) && core in s.current
    ensures Enabled(s, Pause(core, timeout)) && Defined(s, Pause(core, timeout)) && s.current[core] in s.fibers
    ensures var f, t := s.current[core], Next(s, Pause(core, timeout));
            var b := s.fibers[f];
            var dormant := b.activity == Dormant;
            && t.fibers == s.fibers[f := b.(timeout := if timeout != 0 then timeout else b.timeout,
                                            state := if dormant then Suspended else Scheduled)]
            && (dormant ==> t.queues == s.queues && t.suspended == s.suspended + [f])
            && (!dormant ==> Joins(s, t, f, b.priority) && t.suspended == s.suspended)
            && CoreFreed(s, t, core) && RestSame(s, t)
  {
    InvDefined(s, Pause(core, timeout));
    assert CoreOk(s, core) && FiberOk(s, s.current[core]);
    var b, u := PauseShape(s, core, timeout);
  }

  /** An exit: the fiber is exiting, in no list, on no core, and nothing else changes. */
  lemma QuitLaw(s: Sched, core: nat)
    requires Inv(s) && core in s.current && s.current[core] != MAIN
    ensures Enabled(s, Quit(core)) && Defined(s, Quit(core)) && s.current[core] in s.fibers
    ensures var f, t := s.current[core], Next(s, Quit(core));
            && t.fibers == s.fibers[f := s.fibers[f].(state := Exiting)]
            && ListsSame(s, t) && !Listed(t, f)
            && CoreFreed(s, t, core) && RestSame(s, t)
            && (forall c | c in t.current :: t.current[c] != f)
  {
    InvDefined(s, Quit(core));
    var f := s.current[core];
    assert CoreOk(s, core);
    forall c | c in s.current && s.current[c] == f ensures c == core { assert CoreOk(s, c); }
    forall p | 0 <= p < |s.queues| ensures f !in s.queues[p] {
      QueuesOf(s, f, 0);
      QueuesOf(s, f, p);
    }
    QueuesOf(s, f, 0);
  }

  /** A new fiber: suspended and dormant, bound to one core, named by its handle. */
  lemma CreateLaw(s: Sched, slot: Slot, handle: nat, priority: int, core: nat)
    requires Enabled(s, CreateThread(slot, handle, priority, core))
    ensures Defined(s, CreateThread(slot, handle, priority, core))
    ensures var t := Next(s, CreateThread(slot, handle, priority, core));
            && slot in t.fibers && t.fibers == s.fibers[slot := t.fibers[slot]]
            && (var b := t.fibers[slot];
               && b.priority == priority + 2 && b.coreMask == {core} && b.handle == handle && b.activity == Dormant
               && b.state == Suspended && b.timeout == 0 && !b.waitable && b.lockAddress == None && b.waitList == [])
            && t.suspended == s.suspended + [slot] && t.queues == s.queues && t.handles == s.handles[handle := slot]
            && t.current == s.current && t.words == s.words && t.cores == s.cores && t.now == s.now
            && t.booted == s.booted
  {
  }

  /** A new mask: the mask is the one asked for, and a queued fiber goes to the back of its queue. */
  lemma MaskLaw(s: Sched, f: Slot, mask: set<nat>)
    requires Inv(s) && f in s.fibers
    ensures Enabled(s, ChangeMask(f, mask)) && Defined(s, ChangeMask(f, mask))
    ensures var t, b := Next(s, ChangeMask(f, mask)), s.fibers[f];
            && t.fibers == s.fibers[f := b.(coreMask := mask)] && t.suspended == s.suspended
            && (if b.state == Scheduled && b.coreMask != mask
                then
                  && 0 <= b.priority < |s.queues|
                  && t.queues == s.queues[b.priority := Without(s.queues[b.priority], f) + [f]]
                else t.queues == s.queues)
            && t.current == s.current && t.booted == s.booted && RestSame(s, t)
  {
    assert FiberOk(s, f);
    var b := s.fibers[f];
    if b.coreMask != mask {
      UnlinkOnce(s, f);
      UnlinkSet(s, f, b.(coreMask := mask));
      hide Unlink;
    } else {
      assert s.fibers[f := b.(coreMask := mask)] == s.fibers;
    }
  }

  lemma UnlinkSet(s: Sched, f: Slot, b: Fiber)
    ensures Unlink(SetFiber(s, f, b), f) == SetFiber(Unlink(s, f), f, b)
  {
    assert Unlink(SetFiber(s, f, b), f).queues == Unlink(s, f).queues;
  }

  /** Start and suspend: a suspended fiber that is started goes to the back of the queue of its priority;
      a queued fiber that is suspended leaves its queue for the suspended list; a fiber that is running,
      waiting or exiting only has the level noted. */
  lemma ActivityLaw(s: Sched, f: Slot, level: Activity)
    requires Inv(s) && f in s.fibers
    ensures Enabled(s, ChangeActivity(f, level)) && Defined(s, ChangeActivity(f, level))
    ensures LevelSet(s, Next(s, ChangeActivity(f, level)), f, level)
  {
    hide LevelSet, Inv;
    LevelLaw(s, f, level);
  }

  ghost predicate LevelSet(s: Sched, t: Sched, f: Slot, level: Activity)
    requires f in s.fibers
  {
    var b := s.fibers[f];
    && (b.activity == level ==> t == s)
    && (b.activity != level && b.state == Suspended ==>
          && level == Schedulable && t.fibers == s.fibers[f := b.(activity := Schedulable, state := Scheduled)]
          && t.suspended == Without(s.suspended, f) && Joins(s, t, f, b.priority))
    && (b.activity != level && b.state == Scheduled ==>
          && level == Dormant && t.fibers == s.fibers[f := b.(activity := Dormant, state := Suspended)]
          && t.suspended == s.suspended + [f] && Leaves(s, t, f, b.priority))
    && (b.activity != level && b.state != Suspended && b.state != Scheduled ==>
          t.fibers == s.fibers[f := b.(activity := level)] && ListsSame(s, t))
    && t.current == s.current && t.booted == s.booted && RestSame(s, t)
  }

  lemma LevelLaw(s: Sched, f: Slot, level: Activity)
    requires Inv(s) && f in s.fibers
    ensures LevelSet(s, SetActivity(s, f, level), f, level)
  {
    assert FiberOk(s, f);
    if s.fibers[f].activity != level && (s.fibers[f].state == Suspended || s.fibers[f].state == Scheduled) {
      Requeued(s, f, level);
    }
    hide Unlink, AddToScheduler, Inv;
  }

  /** A suspended fiber made schedulable, or a queued one made dormant. */
  lemma Requeued(s: Sched, f: Slot, level: Activity)
    requires Inv(s) && f in s.fibers && s.fibers[f].activity != level
    requires s.fibers[f].state == Suspended || s.fibers[f].state == Scheduled
    ensures var b := s.fibers[f];
            var t := AddToScheduler(Unlink(SetFiber(s, f, b.(activity := level)), f), f);
            && (b.state == Suspended ==>
                  && t == s.(fibers := t.fibers, queues := t.queues, suspended := Without(s.suspended, f))
                  && level == Schedulable && t.fibers == s.fibers[f := b.(activity := Schedulable, state := Scheduled)]
                  && Joins(s, t, f, b.priority))
            && (b.state == Scheduled ==>
                  && t == s.(fibers := t.fibers, queues := t.queues, suspended := s.suspended + [f])
                  && level == Dormant && t.fibers == s.fibers[f := b.(activity := Dormant, state := Suspended)]
                  && Leaves(s, t, f, b.priority))
  {
    assert FiberOk(s, f);
    UnlinkOnce(s, f);
    UnlinkSet(s, f, s.fibers[f].(activity := level));
    var u := SetFiber(Unlink(s, f), f, s.fibers[f].(activity := level));
    hide Unlink, Inv, AddToScheduler, Without;
    assert u.fibers[f].priority == s.fibers[f].priority && |u.queues| == |s.queues|;
    AddEffect(u, f);
  }

  lemma AddEffect(u: Sched, f: Slot)
    requires f in u.fibers && 0 <= u.fibers[f].priority < |u.queues|
    ensures var b := u.fibers[f];
            AddToScheduler(u, f) ==
            if b.activity == Dormant then
              u.(fibers := u.fibers[f := b.(state := Suspended)], suspended := u.suspended + [f])
            else
              u.(fibers := u.fibers[f := b.(state := Scheduled)],
                 queues := u.queues[b.priority := u.queues[b.priority] + [f]])
  {
  }

  /** A new fiber that is started enters the queue that its priority names. */
  lemma StartedQueue(s: Sched, slot: Slot, handle: nat, priority: int, core: nat)
    requires Inv(s) && Enabled(s, CreateThread(slot, handle, priority, core))
    ensures var t := Next(s, CreateThread(slot, handle, priority, core));
            && Inv(t) && Enabled(t, ChangeActivity(slot, Schedulable)) && Defined(t, ChangeActivity(slot, Schedulable))
            && var u := Next(t, ChangeActivity(slot, Schedulable));
               && Joins(s, u, slot, priority + 2) && u.suspended == s.suspended
  {
    var l := CreateThread(slot, handle, priority, core);
    CreateLaw(s, slot, handle, priority, core);
    CreateInv(s, l);
    var t := Next(s, l);
    ActivityLaw(t, slot, Schedulable);
    QueuesOf(s, slot, 0);
    hide Inv, Next;
    WithoutSplits(s.suspended, slot, []);
    assert s.suspended + [slot] + [] == s.suspended + [slot] && s.suspended + [] == s.suspended;
  }

  /** What a core can run, in the fiber's own fields: it is queued, its mask has the core, and its
      deadline has passed.  One of these of the highest priority, and the first such of its queue, is
      dispatched, if there is any. */
  lemma RunLaw(s: Sched, core: nat)
    requires Inv(s) && Enabled(s, Run(core))
    ensures Defined(s, Run(core))
    ensures var t := Next(s, Run(core));
            match Pick(s, core)
            case None =>
              && t == s
              && (forall g | g in s.fibers ::
                    !(s.fibers[g].state == Scheduled && core in s.fibers[g].coreMask && s.fibers[g].timeout < s.now))
            case Some(f) =>
              && f in s.fibers && s.fibers[f].state == Scheduled && core in s.fibers[f].coreMask
              && s.fibers[f].timeout < s.now
              && (forall g | g in s.fibers && s.fibers[g].state == Scheduled && core in s.fibers[g].coreMask
                             && s.fibers[g].timeout < s.now :: s.fibers[g].priority <= s.fibers[f].priority)
              && t.fibers == s.fibers[f := s.fibers[f].(state := Running, currentCore := core)]
              && t.current == s.current[core := f] && t.booted == s.booted
              && Leaves(s, t, f, s.fibers[f].priority) && t.suspended == s.suspended && RestSame(s, t)
              && FirstAble(s, s.queues[s.fibers[f].priority], f, core)
  {
    InvDefined(s, Run(core));
    PickedFiber(s, core);
    if Pick(s, core).Some? {
      var f := Pick(s, core).value;
      UnlinkOnce(s, f);
      UnlinkSet(s, f, s.fibers[f].(state := Running, currentCore := core));
      hide Unlink, Pick;
    }
  }

  /** `f` is the first of the queue that is allowed on the core and past its deadline. */
  ghost predicate FirstAble(s: Sched, q: seq<Slot>, f: Slot, core: nat) {
    exists i :: 0 <= i < |q| && q[i] == f
      && forall j | 0 <= j < i && q[j] in s.fibers ::
           !(s.fibers[q[j]].state == Scheduled && core in s.fibers[q[j]].coreMask && s.fibers[q[j]].timeout < s.now)
  }

  /** When a wait for a lock is refused, and with which error. */
  lemma LockCheckLaw(s: Sched, f: Slot, handle: nat, a: Address)
    ensures var r := LockCheck(s, f, handle, a);
            && (r == InvalidHandle <==> handle !in s.handles || s.handles[handle] == f)
            && (r == InvalidLockAddressValue <==>
                  && handle in s.handles && s.handles[handle] != f
                  && Word(s, a) != handle + if HasBit(handle) then 0 else WAITERS_BIT)
            && (r == Success || r == InvalidHandle || r == InvalidLockAddressValue)
  {
  }

  /** A wait for a lock: refused with nothing changed, or the caller is last among the waiters of the
      fiber named, notes what it waits for, is parked and gives up its core. */
  lemma LockLaw(s: Sched, l: Label)
    requires Inv(s) && l.Lock? && Enabled(s, l) && !BootsWaiting(s, l)
    ensures Defined(s, l) && s.current[l.core] in s.fibers
    ensures var f, t := s.current[l.core], Next(s, l);
            if LockCheck(s, f, l.handle, l.a) != Success then t == s
            else
              && l.handle in s.handles && s.handles[l.handle] in s.fibers
              && var o := s.handles[l.handle];
                 && t.fibers == s.fibers[f := s.fibers[f].(waitable := true, lockAddress := Some(l.a),
                                                           waitTag := l.tag, state := Waiting)]
                                        [o := s.fibers[o].(waitList := s.fibers[o].waitList + [f])]
                 && t.queues == s.queues && t.suspended == s.suspended + [f]
                 && CoreFreed(s, t, l.core) && RestSame(s, t)
  {
    InvDefined(s, l);
    var f := s.current[l.core];
    assert CoreOk(s, l.core);
    if LockCheck(s, f, l.handle, l.a) == Success {
      var g, o := WaitShape(s, l);
      UnlinkOnce(s, f);
      hide ArbitrateLock, Unlink, Lists, WaitsOk;
    }
  }

  /** When a hand-over is refused, and with which error: a caller without waiters, then a lock word that
      without its bit is not the caller's handle. */
  lemma UnlockCheckLaw(s: Sched, f: Slot, a: Address)
    requires f in s.fibers
    ensures var r, w, h := UnlockCheck(s, f, a), Word(s, a), s.fibers[f].handle;
            var own := w == h || w == h + WAITERS_BIT;
            && (r == RequiresLock <==> s.fibers[f].waitList == [])
            && (!HasBit(s.fibers[f].handle) ==> (r == InvalidLockAddressValue <==> s.fibers[f].waitList != [] && !own))
            && (r == Success || r == RequiresLock || r == InvalidLockAddressValue)
  {
  }

  /** A hand-over: refused with nothing changed, or the first waiter has the lock word and the other
      waiters, has been told success, and is queued, or suspended if it has been made dormant. */
  lemma UnlockLaw(s: Sched, core: nat, a: Address)
    requires Inv(s) && Enabled(s, Unlock(core, a))
    ensures Defined(s, Unlock(core, a)) && s.current[core] in s.fibers
    ensures var f, t := s.current[core], Next(s, Unlock(core, a));
            if UnlockCheck(s, f, a) != Success then t == s
            else CanRelease(s, f) && HandedTo(s, t, f, s.fibers[f].waitList[0], s.fibers[f].waitList[1..])
  {
    InvDefined(s, Unlock(core, a));
    CanReleaseFromCheck(s, core, a);
    if UnlockCheck(s, s.current[core], a) == Success { HandOverLaw(s, s.current[core]); }
    hide ReleaseLock, UnlockCheck, HandedTo, Inv;
  }

  lemma HandOverLaw(s: Sched, f: Slot)
    requires Inv(s) && CanRelease(s, f)
    ensures HandedTo(s, ReleaseLock(s, f), f, s.fibers[f].waitList[0], s.fibers[f].waitList[1..])
  {
    var g, u := ReleaseShape(s, f);
    UnlinkOnce(s, g);
    var o := Owner(s.fibers[g], s.fibers[f].waitList[1..]);
    assert Unlink(SetFiber(u, g, o), g).queues == Unlink(s, g).queues;
    hide ReleaseLock, Unlink, Inv;
  }

  ghost predicate HandedTo(s: Sched, t: Sched, f: Slot, g: Slot, rest: seq<Slot>)
    requires f in s.fibers && g in s.fibers && s.fibers[g].lockAddress.Some?
  {
    var b := s.fibers[g];
    && t.fibers == s.fibers[f := s.fibers[f].(waitList := [])]
                           [g := b.(waitable := false, lockAddress := None, waitTag := 0, lastResult := Success,
                                    waitList := b.waitList + rest,
                                    state := if b.activity == Dormant then Suspended else Scheduled)]
    && t.words == s.words[b.lockAddress.value := if rest == [] then b.waitTag else WithBit(b.waitTag)]
    && (if b.activity == Dormant then t.queues == s.queues && t.suspended == Without(s.suspended, g) + [g]
        else Joins(s, t, g, b.priority) && t.suspended == Without(s.suspended, g))
    && t.current == s.current && t.booted == s.booted && t.handles == s.handles && t.cores == s.cores && t.now == s.now
  }

  /** The clock and a store to a lock word change nothing else. */
  lemma PlainLaw(s: Sched, now: nat, a: Address, value: nat)
    requires Enabled(s, Tick(now))
    ensures Defined(s, Tick(now)) && Next(s, Tick(now)) == s.(now := now)
    ensures Defined(s, Store(a, value)) && Next(s, Store(a, value)) == s.(words := s.words[a := value])
  {
  }

  // Exits over whole runs.

  /** An exiting fiber stays as it is until its storage is reused. */
  lemma ExitingStays(s: Sched, l: Label, f: Slot)
    requires Inv(s) && Enabled(s, l) && !BootsWaiting(s, l) && f in s.fibers && s.fibers[f].state == Exiting
    requires !(l.CreateThread? && l.slot == f)
    ensures Defined(s, l) && f in Next(s, l).fibers && Next(s, l).fibers[f].state == Exiting
  {
    InvDefined(s, l);
    hide Next, Inv, Joins, Leaves, ListsSame, CoreFreed, RestSame, FirstAble, Pick, BootsWaiting;
    match l
    case Tick(now) => PlainLaw(s, now, 0, 0);
    case CreateThread(slot, handle, priority, core) => CreateLaw(s, slot, handle, priority, core);
    case ChangeMask(g, mask) => MaskLaw(s, g, mask);
    case ChangeActivity(g, level) => ActivityLaw(s, g, level);
    case Run(core) => RunLaw(s, core);
    case Pause(_, _) => CallerKeepsExiting(s, l, f);
    case Quit(_) => CallerKeepsExiting(s, l, f);
    case Lock(_, _, _, _) => CallerKeepsExiting(s, l, f);
    case Unlock(core, a) => UnlockKeepsExiting(s, core, a, f);
    case Store(a, value) => PlainLaw(s, s.now, a, value);
  }

  lemma CallerKeepsExiting(s: Sched, l: Label, f: Slot)
    requires Inv(s) && Enabled(s, l) && !BootsWaiting(s, l) && f in s.fibers && s.fibers[f].state == Exiting
    requires l.Pause? || l.Quit? || l.Lock?
    ensures Defined(s, l) && f in Next(s, l).fibers && Next(s, l).fibers[f].state == Exiting
  {
    InvDefined(s, l);
    assert CoreOk(s, l.core);
    hide Next, Inv, Joins, Leaves, ListsSame, CoreFreed, RestSame, LockCheck, BootsWaiting;
    match l
    case Pause(core, timeout) => PauseLaw(s, core, timeout);
    case Quit(core) => QuitLaw(s, core);
    case Lock(_, _, _, _) => LockLaw(s, l);
  }

  lemma UnlockKeepsExiting(s: Sched, core: nat, a: Address, f: Slot)
    requires Inv(s) && Enabled(s, Unlock(core, a)) && f in s.fibers && s.fibers[f].state == Exiting
    ensures Defined(s, Unlock(core, a))
    ensures var t := Next(s, Unlock(core, a)); f in t.fibers && t.fibers[f].state == Exiting
  {
    UnlockLaw(s, core, a);
    hide Next, UnlockCheck, Inv, Joins;
  }

  lemma {:induction false} RunStaysExiting(states: seq<Sched>, labels: seq<Label>, f: Slot, i: nat, j: nat)
    requires IsRun(states, labels) && BootsFirst(states, labels) && i <= j < |states|
    requires f in states[i].fibers && states[i].fibers[f].state == Exiting
    requires forall k | i <= k < j :: !(labels[k].CreateThread? && labels[k].slot == f)
    ensures f in states[j].fibers && states[j].fibers[f].state == Exiting
    decreases j
  {
    hide Init, Inv, Enabled, Defined, Next, BootsWaiting;
    if i < j {
      RunStaysExiting(states, labels, f, i, j - 1);
      RunKeepsInv(states, labels, j - 1);
      assert Step(states[j - 1], labels[j - 1], states[j]);
      ExitingStays(states[j - 1], labels[j - 1], f);
    }
  }

  /** Once a fiber has exited, no later step dispatches it until a new fiber has reused its storage. */
  lemma ExitedNeverRuns(states: seq<Sched>, labels: seq<Label>, f: Slot, i: nat, j: nat)
    requires IsRun(states, labels) && BootsFirst(states, labels) && i < j < |labels|
    requires labels[i].Quit? && labels[i].core in states[i].current && states[i].current[labels[i].core] == f
    requires forall k | i < k < j :: !(labels[k].CreateThread? && labels[k].slot == f)
    ensures f in states[j].fibers && states[j].fibers[f].state == Exiting && !Dispatches(states[j], labels[j], f)
  {
    hide Init, Lists, WaitsOk, FibersOk, BootsWaiting, Next;
    RunKeepsInv(states, labels, i);
    RunKeepsInv(states, labels, j);
    assert Step(states[i], labels[i], states[i + 1]);
    QuitLaw(states[i], labels[i].core);
    RunStaysExiting(states, labels, f, i + 1, j);
    assert Step(states[j], labels[j], states[j + 1]);
    if labels[j].Run? { RunLaw(states[j], labels[j].core); }
  }
}
