/** What every run of the scheduler keeps. */
module SchedulerRuns {
  import opened Wrappers
  import opened Scheduler
  import opened Sequences
  import TimeSpan

  ghost predicate Queued(s: Sched, g: Slot, p: int) {
    g in s.fibers && s.fibers[g].state == Scheduled && s.fibers[g].priority == p
  }

  ghost predicate Parked(s: Sched, g: Slot) {
    g in s.fibers && (s.fibers[g].state == Suspended || s.fibers[g].state == Waiting)
  }

  ghost predicate QueueOk(s: Sched, x: Option<Slot>, p: nat)
    requires p < |s.queues|
  {
    NoDup(s.queues[p]) && forall g: Slot :: g in s.queues[p] <==> Some(g) != x && Queued(s, g, p)
  }

  ghost predicate SuspendedOk(s: Sched, x: Option<Slot>) {
    NoDup(s.suspended) && forall g: Slot :: g in s.suspended <==> Some(g) != x && Parked(s, g)
  }

  /** Every list holds exactly the fibers whose state and priority name it, each once; the fiber `x`,
      if any, is in no list whatever its state. */
  ghost predicate Lists(s: Sched, x: Option<Slot>) {
    && |s.queues| == PRIORITIES
    && (forall p {:trigger QueueOk(s, x, p)} | 0 <= p < PRIORITIES :: QueueOk(s, x, p))
    && SuspendedOk(s, x)
  }

  lemma {:induction false} WithoutNoDup(q: seq<Slot>, f: Slot)
    requires NoDup(q)
    ensures NoDup(Without(q, f)) && (f !in q ==> Without(q, f) == q)
  {
    if q != [] {
      WithoutNoDup(q[1..], f);
      assert q[0] !in q[1..];
    }
  }

  /** Unlinking takes the fiber out of its list and disturbs nobody else. */
  lemma UnlinkLists(s: Sched, f: Slot)
    requires Lists(s, None) || Lists(s, Some(f))
    ensures Lists(Unlink(s, f), Some(f))
  {
    var t := Unlink(s, f);
    forall p | 0 <= p < PRIORITIES ensures QueueOk(t, Some(f), p) {
      assert QueueOk(s, None, p) || QueueOk(s, Some(f), p);
      WithoutNoDup(s.queues[p], f);
    }
    WithoutNoDup(s.suspended, f);
  }

  /** The record of the unlisted fiber may change freely. */
  lemma SetUnlisted(s: Sched, f: Slot, b: Fiber)
    requires Lists(s, Some(f))
    ensures Lists(SetFiber(s, f, b), Some(f))
  {
    forall p | 0 <= p < PRIORITIES ensures QueueOk(SetFiber(s, f, b), Some(f), p) {
      assert QueueOk(s, Some(f), p);
    }
  }

  lemma PushedNoDup(q: seq<Slot>, f: Slot)
    requires NoDup(q) && f !in q
    ensures NoDup(q + [f])
  {
  }

  lemma PushSuspendedLists(s: Sched, f: Slot)
    requires Lists(s, Some(f)) && Parked(s, f)
    ensures Lists(PushSuspended(s, f), None)
  {
    PushedNoDup(s.suspended, f);
    forall p | 0 <= p < PRIORITIES ensures QueueOk(PushSuspended(s, f), None, p) {
      assert QueueOk(s, Some(f), p);
    }
  }

  /** Adding an unlisted fiber puts it into the list its activity and priority call for. */
  lemma AddLists(s: Sched, f: Slot)
    requires Lists(s, Some(f)) && f in s.fibers && 0 <= s.fibers[f].priority < PRIORITIES
    ensures Lists(AddToScheduler(s, f), None)
  {
    var b := s.fibers[f];
    if b.activity == Dormant {
      SetUnlisted(s, f, b.(state := Suspended));
      PushSuspendedLists(SetFiber(s, f, b.(state := Suspended)), f);
    } else {
      var t := AddToScheduler(s, f);
      assert QueueOk(s, Some(f), b.priority);
      PushedNoDup(s.queues[b.priority], f);
      forall p | 0 <= p < PRIORITIES ensures QueueOk(t, None, p) {
        assert QueueOk(s, Some(f), p);
      }
    }
  }

  /** A running or exited fiber is in no list. */
  lemma RunningUnlisted(s: Sched, f: Slot)
    requires f in s.fibers && (s.fibers[f].state == Running || s.fibers[f].state == Exiting)
    ensures Lists(s, None) <==> Lists(s, Some(f))
  {
    if Lists(s, None) {
      forall p | 0 <= p < PRIORITIES ensures QueueOk(s, Some(f), p) { assert QueueOk(s, None, p); }
    }
    if Lists(s, Some(f)) {
      forall p | 0 <= p < PRIORITIES ensures QueueOk(s, None, p) { assert QueueOk(s, Some(f), p); }
    }
  }

  ghost predicate FiberOk(s: Sched, f: Slot)
    requires f in s.fibers
  {
    var b := s.fibers[f];
    && 0 <= b.priority < PRIORITIES
    && (b.state == Scheduled ==> b.activity == Schedulable)
    && (b.state == Suspended ==> b.activity == Dormant)
    && (b.waitable <==> b.state == Waiting)
    && (b.state == Waiting ==> b.lockAddress.Some?)
    && (b.state == Running ==> b.currentCore in s.current && s.current[b.currentCore] == f)
    && (b.state != Exiting ==> b.handle in s.handles && s.handles[b.handle] == f && 0 < b.handle < WAITERS_BIT)
  }

  ghost predicate CoreOk(s: Sched, c: nat)
    requires c in s.current
  {
    && c in s.cores && s.current[c] in s.fibers
    && s.fibers[s.current[c]].state == Running && s.fibers[s.current[c]].currentCore == c
  }

  ghost predicate WaitListOk(s: Sched, f: Slot)
    requires f in s.fibers
  {
    && NoDup(s.fibers[f].waitList)
    && forall g | g in s.fibers[f].waitList :: g in s.fibers && s.fibers[g].state == Waiting
  }

  ghost predicate SeparateWaits(s: Sched, f: Slot, f': Slot)
    requires f in s.fibers && f' in s.fibers
  {
    f != f' ==> forall g | g in s.fibers[f].waitList :: g !in s.fibers[f'].waitList
  }

  /** The wait lists are disjoint lists of waiting fibers. */
  ghost predicate WaitsOk(s: Sched) {
    && (forall f {:trigger WaitListOk(s, f)} | f in s.fibers :: WaitListOk(s, f))
    && (forall f, f' {:trigger SeparateWaits(s, f, f')} | f in s.fibers && f' in s.fibers :: SeparateWaits(s, f, f'))
  }

  /** Fibers, cores and handles agree with one another. */
  ghost predicate FibersOk(s: Sched) {
    && (forall f {:trigger FiberOk(s, f)} | f in s.fibers :: FiberOk(s, f))
    && (forall c {:trigger CoreOk(s, c)} | c in s.current :: CoreOk(s, c))
    && (forall h | h in s.handles :: s.handles[h] in s.fibers)
    && MAIN in s.fibers && s.fibers[MAIN].state != Exiting
    && (!s.booted ==> 0 in s.current && s.current[0] == MAIN)
    && s.now <= TimeSpan.MAX_TIME
  }

  /** Each live fiber is in at most one list and its state says which: scheduled fibers in the list of
      their priority, suspended and waiting fibers in the suspended list, running fibers in none and on
      exactly one core.  Only schedulable fibers are scheduled. */
  ghost predicate Inv(s: Sched) {
    Lists(s, None) && FibersOk(s) && WaitsOk(s)
  }

  datatype Label =
    | Tick(now: nat)
    | CreateThread(slot: Slot, handle: nat, priority: int, core: nat)
    | ChangeMask(f: Slot, mask: set<nat>)
    | ChangeActivity(f: Slot, level: Activity)
    | Run(core: nat)
    | Pause(core: nat, timeout: nat)
    | Quit(core: nat)
    | Lock(core: nat, handle: nat, a: Address, tag: nat)
    | Unlock(core: nat, a: Address)
    | Store(a: Address, value: nat)

  /** When a call can be made, or a core's scheduler fiber can run.  A new fiber gets storage that is
      not in use and a handle that the handle table has just issued; the main fiber does not exit, since
      only fibers started by the scheduler do. */
  ghost predicate Enabled(s: Sched, l: Label) {
    match l
    case Tick(now) => s.now <= now <= TimeSpan.MAX_TIME
    case CreateThread(slot, handle, priority, core) =>
      && slot < MAX_FIBERS && (slot in s.fibers ==> s.fibers[slot].state == Exiting)
      && handle !in s.handles && 0 < handle < WAITERS_BIT && |s.handles| < 256
      && -2 <= priority <= 2 && core in s.cores
    case ChangeMask(f, _) => f in s.fibers
    case ChangeActivity(f, _) => f in s.fibers
    case Run(core) => core in s.cores && core !in s.current && (core == 0 ==> s.booted)
    case Pause(core, _) => core in s.current
    case Quit(core) => core in s.current && s.current[core] != MAIN
    case Lock(core, _, _, _) => core in s.current
    case Unlock(core, _) => core in s.current
    case Store(_, _) => true
  }

  // Dispatch order.

  lemma {:induction false} FirstIsFirst(s: Sched, q: seq<Slot>, core: nat)
    ensures match FirstSchedulable(s, q, core)
            case None => forall g | g in q && g in s.fibers :: !IsSchedulable(s, g, core)
            case Some(f) =>
              exists i :: 0 <= i < |q| && q[i] == f && f in s.fibers && IsSchedulable(s, f, core)
                          && forall j | 0 <= j < i && q[j] in s.fibers :: !IsSchedulable(s, q[j], core)
  {
    if q != [] && !(q[0] in s.fibers && IsSchedulable(s, q[0], core)) {
      FirstIsFirst(s, q[1..], core);
      match FirstSchedulable(s, q[1..], core)
      case None =>
      case Some(f) =>
        var i :| 0 <= i < |q[1..]| && q[1..][i] == f && forall j | 0 <= j < i && q[1..][j] in s.fibers ::
            !IsSchedulable(s, q[1..][j], core);
        assert q[i + 1] == f;
        forall j | 0 <= j < i + 1 && q[j] in s.fibers ensures !IsSchedulable(s, q[j], core) {
          if 0 < j { assert q[1..][j - 1] == q[j]; }
        }
    }
  }

  /** What the search of the lists below `n` returns. */
  ghost predicate PickedFrom(s: Sched, core: nat, n: nat, r: Option<Slot>)
    requires n <= |s.queues|
  {
    match r
    case None => forall p, g | 0 <= p < n && g in s.queues[p] && g in s.fibers :: !IsSchedulable(s, g, core)
    case Some(f) =>
      exists p :: && 0 <= p < n && FirstSchedulable(s, s.queues[p], core) == r
                  && forall q, g | p < q < n && g in s.queues[q] && g in s.fibers :: !IsSchedulable(s, g, core)
  }

  lemma {:induction false} PickFromSearches(s: Sched, core: nat, n: nat)
    requires n <= |s.queues|
    ensures PickedFrom(s, core, n, PickFrom(s, core, n))
  {
    if n != 0 {
      FirstIsFirst(s, s.queues[n - 1], core);
      PickFromSearches(s, core, n - 1);
    }
  }

  lemma PickedSchedulable(s: Sched, core: nat)
    requires Inv(s)
    ensures match Pick(s, core)
            case None => forall g | g in s.fibers :: !IsSchedulable(s, g, core)
            case Some(f) =>
              && f in s.fibers && IsSchedulable(s, f, core)
              && (forall g | g in s.fibers && IsSchedulable(s, g, core) :: s.fibers[g].priority <= s.fibers[f].priority)
              && 0 <= s.fibers[f].priority < |s.queues|
              && var q := s.queues[s.fibers[f].priority];
                 exists i :: 0 <= i < |q| && q[i] == f && forall j | 0 <= j < i && q[j] in s.fibers ::
                     !IsSchedulable(s, q[j], core)
  {
    PickFromSearches(s, core, |s.queues|);
    forall g | g in s.fibers && IsSchedulable(s, g, core)
      ensures 0 <= s.fibers[g].priority < PRIORITIES && g in s.queues[s.fibers[g].priority]
    {
      assert FiberOk(s, g) && QueueOk(s, None, s.fibers[g].priority);
    }
    match Pick(s, core)
    case None =>
    case Some(f) =>
      var p :| 0 <= p < |s.queues| && FirstSchedulable(s, s.queues[p], core) == Some(f)
               && forall q, g | p < q < |s.queues| && g in s.queues[q] && g in s.fibers :: !IsSchedulable(s, g, core);
      FirstIsFirst(s, s.queues[p], core);
      assert QueueOk(s, None, p);
  }

  /** The dispatched fiber is queued, allowed on the core and past its deadline, has the highest priority
      among all fibers that are, and none of equal priority ahead of it in its list is; nothing is
      dispatched only when no fiber is. */
  lemma PickedFiber(s: Sched, core: nat)
    requires Inv(s)
    ensures match Pick(s, core)
            case None =>
              forall g | g in s.fibers ::
                !(s.fibers[g].state == Scheduled && core in s.fibers[g].coreMask && s.fibers[g].timeout < s.now)
            case Some(f) =>
              && f in s.fibers && s.fibers[f].state == Scheduled && core in s.fibers[f].coreMask
              && s.fibers[f].timeout < s.now
              && (forall g | g in s.fibers && s.fibers[g].state == Scheduled && core in s.fibers[g].coreMask
                             && s.fibers[g].timeout < s.now :: s.fibers[g].priority <= s.fibers[f].priority)
              && 0 <= s.fibers[f].priority < |s.queues|
              && var q := s.queues[s.fibers[f].priority];
                 exists i :: 0 <= i < |q| && q[i] == f && forall j | 0 <= j < i && q[j] in s.fibers ::
                     !IsSchedulable(s, q[j], core)
  {
    PickedSchedulable(s, core);
    hide Inv, Pick;
  }

  /** The memory a call touches is there: fibers, and the lock address of the next owner. */
  ghost predicate Defined(s: Sched, l: Label)
    requires Enabled(s, l)
  {
    match l
    case Run(core) => Pick(s, core).Some? ==> Pick(s, core).value in s.fibers
    case Pause(core, _) => s.current[core] in s.fibers
    case Quit(core) => s.current[core] in s.fibers
    case Lock(core, _, _, _) => s.current[core] in s.fibers && forall h | h in s.handles :: s.handles[h] in s.fibers
    case Unlock(core, a) =>
      && s.current[core] in s.fibers
      && (UnlockCheck(s, s.current[core], a) == Success ==>
            var g := s.fibers[s.current[core]].waitList[0]; g in s.fibers && s.fibers[g].lockAddress.Some?)
    case _ => true
  }

  ghost function Next(s: Sched, l: Label): Sched
    requires Enabled(s, l) && Defined(s, l)
  {
    match l
    case Tick(now) => s.(now := now)
    case CreateThread(slot, handle, priority, core) => Create(s, slot, handle, priority, core)
    case ChangeMask(f, mask) => SetCoreMask(s, f, mask)
    case ChangeActivity(f, level) => SetActivity(s, f, level)
    case Run(core) => (match Pick(s, core) case None => s case Some(f) => Dispatch(s, f, core))
    case Pause(core, timeout) => Sleep(s, core, timeout)
    case Quit(core) => Exit(s, core)
    case Lock(core, handle, a, tag) => ArbitrateLock(s, core, handle, a, tag)
    case Unlock(core, a) => if UnlockCheck(s, s.current[core], a) != Success then s else ReleaseLock(s, s.current[core])
    case Store(a, value) => s.(words := s.words[a := value])
  }

  /** In a good state no call touches memory that is not there. */
  lemma InvDefined(s: Sched, l: Label)
    requires Inv(s) && Enabled(s, l)
    ensures Defined(s, l)
  {
    match l
    case Run(core) => PickedFiber(s, core);
    case Pause(core, _) => assert CoreOk(s, core);
    case Quit(core) => assert CoreOk(s, core);
    case Lock(core, _, _, _) => assert CoreOk(s, core);
    case Unlock(core, a) => CanReleaseFromCheck(s, core, a);
    case _ =>
  }

  // Every step keeps the invariant.

  /** Wait lists are unchanged, or emptied, and whoever was waiting still is. */
  lemma WaitsKept(s: Sched, t: Sched)
    requires WaitsOk(s)
    requires forall f | f in t.fibers ::
               t.fibers[f].waitList == [] || (f in s.fibers && t.fibers[f].waitList == s.fibers[f].waitList)
    requires forall f | f in s.fibers && s.fibers[f].state == Waiting :: f in t.fibers && t.fibers[f].state == Waiting
    ensures WaitsOk(t)
  {
    forall f | f in t.fibers ensures WaitListOk(t, f) { assert f in s.fibers ==> WaitListOk(s, f); }
    forall f, f' | f in t.fibers && f' in t.fibers ensures SeparateWaits(t, f, f') {
      assert f in s.fibers && f' in s.fibers ==> SeparateWaits(s, f, f');
    }
  }

  lemma AbsentUnlisted(s: Sched, f: Slot)
    requires Lists(s, None) && (f in s.fibers ==> s.fibers[f].state == Exiting)
    ensures Lists(s, Some(f))
  {
    forall p | 0 <= p < PRIORITIES ensures QueueOk(s, Some(f), p) { assert QueueOk(s, None, p); }
  }

  lemma CreateInv(s: Sched, l: Label)
    requires Inv(s) && l.CreateThread? && Enabled(s, l)
    ensures Inv(Create(s, l.slot, l.handle, l.priority, l.core))
  {
    hide Lists, WaitsOk, FibersOk;
    var t, f := Create(s, l.slot, l.handle, l.priority, l.core), l.slot;
    var b := NewFiber(l.priority, l.core, l.handle);
    assert Lists(t, None) by {
      AbsentUnlisted(s, f);
      SetUnlisted(s, f, b);
      PushSuspendedLists(SetFiber(s, f, b), f);
      SameLists(PushSuspended(SetFiber(s, f, b), f), t);
    }
    CreateFibers(s, l);
    WaitsKept(s, t);
  }

  lemma CreateFibers(s: Sched, l: Label)
    requires FibersOk(s) && l.CreateThread? && Enabled(s, l)
    ensures FibersOk(Create(s, l.slot, l.handle, l.priority, l.core))
  {
    var t := Create(s, l.slot, l.handle, l.priority, l.core);
    forall g | g in t.fibers ensures FiberOk(t, g) { if g != l.slot { assert FiberOk(s, g); } }
    forall c | c in t.current ensures CoreOk(t, c) { assert CoreOk(s, c); }
  }

  lemma SameLists(s: Sched, t: Sched)
    requires Lists(s, None) && t.fibers == s.fibers && t.queues == s.queues && t.suspended == s.suspended
    ensures Lists(t, None)
  {
    forall p | 0 <= p < PRIORITIES ensures QueueOk(t, None, p) { assert QueueOk(s, None, p); }
  }

  /** The record of one fiber has changed in ways that concern neither cores, handles nor waits. */
  ghost predicate Tweaked(s: Sched, t: Sched, f: Slot) {
    && f in s.fibers && f in t.fibers && t.fibers == s.fibers[f := t.fibers[f]]
    && t.current == s.current && t.handles == s.handles && t.cores == s.cores && t.booted == s.booted && t.now == s.now
    && var b, b' := s.fibers[f], t.fibers[f];
       && b'.priority == b.priority && b'.handle == b.handle && b'.waitList == b.waitList
       && b'.waitable == b.waitable && b'.lockAddress == b.lockAddress && b'.currentCore == b.currentCore
       && (b'.state == b.state || (b.state in {Scheduled, Suspended} && b'.state in {Scheduled, Suspended}))
       && (b'.state == Scheduled ==> b'.activity == Schedulable) && (b'.state == Suspended ==> b'.activity == Dormant)
  }

  lemma TweakedRest(s: Sched, t: Sched, f: Slot)
    requires FibersOk(s) && WaitsOk(s) && Tweaked(s, t, f)
    ensures FibersOk(t) && WaitsOk(t)
  {
    hide Lists, WaitsOk;
    forall g | g in t.fibers ensures FiberOk(t, g) { assert FiberOk(s, g); }
    forall c | c in t.current ensures CoreOk(t, c) { assert CoreOk(s, c); }
    WaitsKept(s, t);
  }

  /** Changing a listed fiber's record and queueing it again keeps the lists. */
  lemma RequeueLists(s: Sched, f: Slot, b: Fiber)
    requires Lists(s, None) && f in s.fibers && 0 <= b.priority < PRIORITIES
    ensures Lists(AddToScheduler(Unlink(SetFiber(s, f, b), f), f), None)
  {
    UnlinkLists(s, f);
    SetUnlisted(Unlink(s, f), f, b);
    assert Unlink(SetFiber(s, f, b), f) == SetFiber(Unlink(s, f), f, b);
    AddLists(SetFiber(Unlink(s, f), f, b), f);
  }

  /** A record change that leaves state and priority alone leaves the lists right. */
  lemma QuietChange(s: Sched, f: Slot, b: Fiber)
    requires Lists(s, None) && f in s.fibers && b.state == s.fibers[f].state && b.priority == s.fibers[f].priority
    ensures Lists(SetFiber(s, f, b), None)
  {
    forall p | 0 <= p < PRIORITIES ensures QueueOk(SetFiber(s, f, b), None, p) { assert QueueOk(s, None, p); }
  }

  lemma MaskInv(s: Sched, f: Slot, mask: set<nat>)
    requires Inv(s) && f in s.fibers
    ensures Inv(SetCoreMask(s, f, mask))
  {
    hide Lists, WaitsOk;
    assert FiberOk(s, f);
    var b := s.fibers[f].(coreMask := mask);
    if s.fibers[f].coreMask != mask {
      if b.state == Scheduled { RequeueLists(s, f, b); } else { QuietChange(s, f, b); }
      TweakedRest(s, SetCoreMask(s, f, mask), f);
    }
  }

  lemma ActivityInv(s: Sched, f: Slot, level: Activity)
    requires Inv(s) && f in s.fibers
    ensures Inv(SetActivity(s, f, level))
  {
    hide Lists, WaitsOk;
    assert FiberOk(s, f);
    var b := s.fibers[f].(activity := level);
    if s.fibers[f].activity != level {
      if b.state == Scheduled || b.state == Suspended { RequeueLists(s, f, b); } else { QuietChange(s, f, b); }
      TweakedRest(s, SetActivity(s, f, level), f);
    }
  }

  lemma DispatchInv(s: Sched, f: Slot, core: nat)
    requires Inv(s) && f in s.fibers && s.fibers[f].state == Scheduled && core in s.cores && core !in s.current
             && (core == 0 ==> s.booted)
    ensures Inv(Dispatch(s, f, core))
  {
    hide Lists, WaitsOk, FibersOk;
    var t := Dispatch(s, f, core);
    var b := s.fibers[f].(state := Running, currentCore := core);
    assert Lists(t, None) by {
      UnlinkLists(s, f);
      SetUnlisted(Unlink(s, f), f, b);
      assert Unlink(SetFiber(s, f, b), f) == SetFiber(Unlink(s, f), f, b);
      RunningUnlisted(SetFiber(Unlink(s, f), f, b), f);
      SameLists(SetFiber(Unlink(s, f), f, b), t);
    }
    DispatchFibers(s, f, core);
    WaitsKept(s, t);
  }

  lemma DispatchFibers(s: Sched, f: Slot, core: nat)
    requires FibersOk(s) && f in s.fibers && s.fibers[f].state == Scheduled && core in s.cores && core !in s.current
             && (core == 0 ==> s.booted)
    ensures FibersOk(Dispatch(s, f, core))
  {
    var t := Dispatch(s, f, core);
    forall g | g in t.fibers ensures FiberOk(t, g) { assert FiberOk(s, g); }
    forall c | c in t.current ensures CoreOk(t, c) { if c != core { assert CoreOk(s, c); } }
  }

  lemma PauseShape(s: Sched, core: nat, timeout: nat) returns (b: Fiber, u: Sched)
    requires core in s.current && s.current[core] in s.fibers && s.fibers[s.current[core]].state == Running
    ensures var f, t := s.current[core], Sleep(s, core, timeout);
            && b == (if timeout != 0 then s.fibers[f].(timeout := timeout) else s.fibers[f])
            && u == SetFiber(s, f, b) && f in u.fibers
            && t.fibers == s.fibers[f := Ready(b)] && t.fibers == AddToScheduler(u, f).fibers
            && t.queues == AddToScheduler(u, f).queues && t.suspended == AddToScheduler(u, f).suspended
            && t.current == s.current - {core} && t.handles == s.handles && t.words == s.words && t.cores == s.cores
            && t.now == s.now && (t.booted <==> s.booted || core == 0)
  {
    var f := s.current[core];
    b := if timeout != 0 then s.fibers[f].(timeout := timeout) else s.fibers[f];
    u := SetFiber(s, f, b);
    assert timeout == 0 ==> u == s;
  }

  /** A fiber that switches to the scheduler of its own accord is queued again. */
  lemma PauseInv(s: Sched, core: nat, timeout: nat)
    requires Inv(s) && core in s.current
    ensures s.current[core] in s.fibers && Inv(Sleep(s, core, timeout))
  {
    hide Lists, WaitsOk, Sleep, AddToScheduler;
    assert CoreOk(s, core);
    var f, t := s.current[core], Sleep(s, core, timeout);
    assert FiberOk(s, f);
    var b, u := PauseShape(s, core, timeout);
    assert Lists(t, None) by {
      RunningUnlisted(s, f);
      SetUnlisted(s, f, b);
      AddLists(u, f);
      SameLists(AddToScheduler(u, f), t);
    }
    forall g | g in t.fibers ensures FiberOk(t, g) { assert FiberOk(s, g); }
    forall c | c in t.current ensures CoreOk(t, c) { assert CoreOk(s, c); }
    WaitsKept(s, t);
  }

  lemma QuitInv(s: Sched, core: nat)
    requires Inv(s) && core in s.current && s.current[core] != MAIN
    ensures s.current[core] in s.fibers && Inv(Exit(s, core))
  {
    hide Lists, WaitsOk;
    assert CoreOk(s, core);
    var f, t := s.current[core], Exit(s, core);
    assert FiberOk(s, f);
    var b := s.fibers[f].(state := Exiting);
    assert Lists(t, None) by {
      RunningUnlisted(s, f);
      SetUnlisted(s, f, b);
      RunningUnlisted(SetFiber(s, f, b), f);
      SameLists(SetFiber(s, f, b), t);
    }
    forall g | g in t.fibers ensures FiberOk(t, g) { assert FiberOk(s, g); }
    forall c | c in t.current ensures CoreOk(t, c) { assert CoreOk(s, c); }
    WaitsKept(s, t);
  }

  // Waiting for a lock and handing it over.

  /** The records after the caller `f` has joined the wait list of `o`. */
  ghost function WithWaiter(s: Sched, f: Slot, o: Slot, a: Address, tag: nat): map<Slot, Fiber>
    requires f in s.fibers && o in s.fibers && f != o
  {
    s.fibers[f := s.fibers[f].(waitable := true, lockAddress := Some(a), waitTag := tag, state := Waiting)]
            [o := s.fibers[o].(waitList := s.fibers[o].waitList + [f])]
  }

  /** The call that breaks the lists: the main fiber waits for a lock before it has ever switched to
      core 0's scheduler fiber, whose first act is to queue the main fiber whatever its state. */
  ghost predicate BootsWaiting(s: Sched, l: Label) {
    && l.Lock? && l.core == 0 && !s.booted && 0 in s.current
    && LockCheck(s, s.current[0], l.handle, l.a) == Success
  }

  lemma WaitShape(s: Sched, l: Label) returns (f: Slot, o: Slot)
    requires Inv(s) && l.Lock? && l.core in s.current && s.current[l.core] in s.fibers && !BootsWaiting(s, l)
    requires LockCheck(s, s.current[l.core], l.handle, l.a) == Success
    ensures f == s.current[l.core] && l.handle in s.handles && o == s.handles[l.handle] && f in s.fibers
            && o in s.fibers && f != o
    ensures var t := ArbitrateLock(s, l.core, l.handle, l.a, l.tag);
            && t.fibers == WithWaiter(s, f, o, l.a, l.tag)
            && t.queues == Unlink(s, f).queues && t.suspended == Unlink(s, f).suspended + [f]
            && t.current == s.current - {l.core} && t.handles == s.handles && t.words == s.words && t.cores == s.cores
            && t.now == s.now && t.booted == s.booted
  {
    f, o := s.current[l.core], s.handles[l.handle];
    assert s.booted || l.core != 0;
  }

  lemma WaiterLists(s: Sched, t: Sched, f: Slot, o: Slot, a: Address, tag: nat)
    requires Lists(s, None) && f in s.fibers && o in s.fibers && f != o
    requires t.fibers == WithWaiter(s, f, o, a, tag) && t.queues == Unlink(s, f).queues
             && t.suspended == Unlink(s, f).suspended + [f]
    ensures Lists(t, None)
  {
    hide Lists;
    var b := t.fibers[f];
    UnlinkLists(s, f);
    var u := SetFiber(Unlink(s, f), f, b);
    SetUnlisted(Unlink(s, f), f, b);
    PushSuspendedLists(u, f);
    QuietChange(PushSuspended(u, f), o, t.fibers[o]);
    SameLists(SetFiber(PushSuspended(u, f), o, t.fibers[o]), t);
  }

  lemma WaiterWaits(s: Sched, t: Sched, f: Slot, o: Slot, a: Address, tag: nat)
    requires WaitsOk(s) && f in s.fibers && o in s.fibers && f != o && s.fibers[f].state != Waiting
    requires t.fibers == WithWaiter(s, f, o, a, tag)
    ensures WaitsOk(t)
  {
    forall g | g in t.fibers ensures WaitListOk(t, g) {
      assert WaitListOk(s, g);
      if g == o { PushedNoDup(s.fibers[o].waitList, f); }
    }
    forall g, h | g in t.fibers && h in t.fibers ensures SeparateWaits(t, g, h) {
      assert SeparateWaits(s, g, h) && WaitListOk(s, g) && WaitListOk(s, h);
    }
  }

  lemma LockInv(s: Sched, l: Label)
    requires Inv(s) && l.Lock? && l.core in s.current && !BootsWaiting(s, l)
    ensures s.current[l.core] in s.fibers && Inv(ArbitrateLock(s, l.core, l.handle, l.a, l.tag))
  {
    assert CoreOk(s, l.core);
    var t := ArbitrateLock(s, l.core, l.handle, l.a, l.tag);
    if LockCheck(s, s.current[l.core], l.handle, l.a) == Success {
      var f, o := WaitShape(s, l);
      hide ArbitrateLock, Lists, WaitsOk;
      WaiterLists(s, t, f, o, l.a, l.tag);
      WaiterWaits(s, t, f, o, l.a, l.tag);
      hide FibersOk;
      WaiterFibers(s, t, l.core, f, o, l.a, l.tag);
    }
  }

  lemma WaiterFibers(s: Sched, t: Sched, core: nat, f: Slot, o: Slot, a: Address, tag: nat)
    requires FibersOk(s) && f in s.fibers && o in s.fibers && f != o && core in s.current && s.current[core] == f
    requires t.fibers == WithWaiter(s, f, o, a, tag) && t.current == s.current - {core} && (t.booted || core != 0)
    requires t.handles == s.handles && t.cores == s.cores && t.now == s.now && t.booted == s.booted
    ensures FibersOk(t)
  {
    assert CoreOk(s, core);
    forall g | g in t.fibers ensures FiberOk(t, g) { assert FiberOk(s, g); }
    forall c | c in t.current ensures CoreOk(t, c) { assert CoreOk(s, c); }
  }

  /** The record of the next owner once its wait has ended and it has taken over the waiters `rest`. */
  ghost function Owner(b: Fiber, rest: seq<Slot>): Fiber {
    Ready(b).(waitable := false, lockAddress := None, waitTag := 0, lastResult := Success,
        waitList := b.waitList + rest)
  }

  ghost function HandedOver(s: Sched, f: Slot): map<Slot, Fiber>
    requires f in s.fibers && s.fibers[f].waitList != [] && s.fibers[f].waitList[0] in s.fibers
  {
    var g, rest := s.fibers[f].waitList[0], s.fibers[f].waitList[1..];
    s.fibers[f := s.fibers[f].(waitList := [])][g := Owner(s.fibers[g], rest)]
  }

  ghost predicate CanRelease(s: Sched, f: Slot) {
    && f in s.fibers && s.fibers[f].waitList != []
    && var g := s.fibers[f].waitList[0];
       g in s.fibers && g != f && s.fibers[g].state == Waiting && s.fibers[g].lockAddress.Some?
           && 0 <= s.fibers[g].priority < PRIORITIES
  }

  lemma ReleaseShape(s: Sched, f: Slot) returns (g: Slot, u: Sched)
    requires CanRelease(s, f)
    ensures g == s.fibers[f].waitList[0] && g in s.fibers && g != f
    ensures u == SetFiber(s, f, s.fibers[f].(waitList := []))
    ensures var t, b := ReleaseLock(s, f), Owner(s.fibers[g], s.fibers[f].waitList[1..]);
            var v := AddToScheduler(Unlink(SetFiber(u, g, b), g), g);
            && t.fibers == HandedOver(s, f) && v.fibers == t.fibers && t.queues == v.queues
            && t.suspended == v.suspended
            && t.current == s.current && t.handles == s.handles && t.cores == s.cores && t.now == s.now
            && t.booted == s.booted
            && t.words == s.words[s.fibers[g].lockAddress.value :=
                 if |s.fibers[f].waitList| == 1 then s.fibers[g].waitTag else WithBit(s.fibers[g].waitTag)]
  {
    g, u := s.fibers[f].waitList[0], SetFiber(s, f, s.fibers[f].(waitList := []));
  }

  lemma ReleaseWaits(s: Sched, t: Sched, f: Slot)
    requires WaitsOk(s) && CanRelease(s, f) && t.fibers == HandedOver(s, f)
    ensures WaitsOk(t)
  {
    var g, rest := s.fibers[f].waitList[0], s.fibers[f].waitList[1..];
    assert WaitListOk(s, f) && WaitListOk(s, g) && SeparateWaits(s, f, g);
    assert g !in rest && forall h | h in rest :: h in s.fibers[f].waitList;
    forall h | h in t.fibers ensures WaitListOk(t, h) {
      assert WaitListOk(s, h) && SeparateWaits(s, f, h);
      if h == g { DisjointNoDup(s.fibers[g].waitList, rest); }
    }
    forall h, i | h in t.fibers && i in t.fibers ensures SeparateWaits(t, h, i) {
      assert SeparateWaits(s, h, i) && SeparateWaits(s, f, h) && SeparateWaits(s, f, i) && SeparateWaits(s, h, f)
             && SeparateWaits(s, i, f);
    }
  }

  lemma DisjointNoDup(q: seq<Slot>, r: seq<Slot>)
    requires NoDup(q) && NoDup(r) && forall h | h in r :: h !in q
    ensures NoDup(q + r)
  {
    forall i, j | 0 <= i < j < |q + r| ensures (q + r)[i] != (q + r)[j] {
      assert i < |q| <= j ==> r[j - |q|] in r && q[i] in q;
    }
  }

  lemma ReleaseInv(s: Sched, f: Slot)
    requires Inv(s) && CanRelease(s, f)
    ensures Inv(ReleaseLock(s, f))
  {
    var t := ReleaseLock(s, f);
    var g, u := ReleaseShape(s, f);
    hide ReleaseLock, Lists, WaitsOk, AddToScheduler;
    assert Lists(t, None) by {
      QuietChange(s, f, s.fibers[f].(waitList := []));
      var b := Owner(s.fibers[g], s.fibers[f].waitList[1..]);
      RequeueLists(u, g, b);
      SameLists(AddToScheduler(Unlink(SetFiber(u, g, b), g), g), t);
    }
    ReleaseWaits(s, t, f);
    hide FibersOk;
    ReleaseFibers(s, t, f);
  }

  lemma ReleaseFibers(s: Sched, t: Sched, f: Slot)
    requires FibersOk(s) && CanRelease(s, f) && t.fibers == HandedOver(s, f)
    requires t.current == s.current && t.handles == s.handles && t.cores == s.cores && t.now == s.now
             && t.booted == s.booted
    ensures FibersOk(t)
  {
    forall h | h in t.fibers ensures FiberOk(t, h) { assert FiberOk(s, h); }
    forall c | c in t.current ensures CoreOk(t, c) { assert CoreOk(s, c); }
  }

  lemma CanReleaseFromCheck(s: Sched, core: nat, a: Address)
    requires Inv(s) && core in s.current
    ensures s.current[core] in s.fibers
    ensures UnlockCheck(s, s.current[core], a) == Success ==> CanRelease(s, s.current[core])
  {
    assert CoreOk(s, core);
    var f := s.current[core];
    if s.fibers[f].waitList != [] {
      assert WaitListOk(s, f) && FiberOk(s, s.fibers[f].waitList[0]);
    }
  }

  /** The main fiber's first switch being a lock wait leaves it in a list it does not belong in. */
  lemma BootsWaitingBreaks(s: Sched, l: Label)
    requires Inv(s) && Enabled(s, l) && BootsWaiting(s, l) && Defined(s, l)
    ensures !Lists(Next(s, l), None)
  {
    var t, f := Next(s, l), s.current[0];
    assert CoreOk(s, 0) && FiberOk(s, f);
    assert |t.suspended| > 0 && f in t.suspended;
    if t.fibers[f].state == Suspended {
      var n := |t.suspended|;
      assert t.suspended[n - 1] == f && t.suspended[n - 2] == f;
    } else {
      assert !Parked(t, f);
    }
  }

  /** Every call and every dispatch keeps the invariant, with that one exception. */
  lemma StepKeepsInv(s: Sched, l: Label)
    requires Inv(s) && Enabled(s, l)
    ensures Defined(s, l)
    ensures Inv(Next(s, l)) <==> !BootsWaiting(s, l)
  {
    InvDefined(s, l);
    if BootsWaiting(s, l) {
      BootsWaitingBreaks(s, l);
    } else {
      GoodStep(s, l);
    }
  }

  lemma GoodStep(s: Sched, l: Label)
    requires Inv(s) && Enabled(s, l) && Defined(s, l) && !BootsWaiting(s, l)
    ensures Inv(Next(s, l))
  {
    match l
    case Tick(now) => PlainStep(s, Next(s, l));
    case CreateThread(_, _, _, _) => CreateInv(s, l);
    case ChangeMask(f, mask) => MaskInv(s, f, mask);
    case ChangeActivity(f, level) => ActivityInv(s, f, level);
    case Run(core) =>
      PickedFiber(s, core);
      if Pick(s, core).Some? { DispatchInv(s, Pick(s, core).value, core); }
    case Pause(core, timeout) => PauseInv(s, core, timeout);
    case Quit(core) => QuitInv(s, core);
    case Lock(_, _, _, _) => LockInv(s, l);
    case Unlock(core, a) =>
      CanReleaseFromCheck(s, core, a);
      if UnlockCheck(s, s.current[core], a) == Success { ReleaseInv(s, s.current[core]); }
    case Store(_, _) => PlainStep(s, Next(s, l));
  }

  /** The clock and the lock words play no part in the invariant. */
  lemma PlainStep(s: Sched, t: Sched)
    requires Inv(s) && t == s.(now := t.now, words := t.words) && t.now <= TimeSpan.MAX_TIME
    ensures Inv(t)
  {
    SameLists(s, t);
    hide Lists, WaitsOk;
    forall g | g in t.fibers ensures FiberOk(t, g) { assert FiberOk(s, g); }
    forall c | c in t.current ensures CoreOk(t, c) { assert CoreOk(s, c); }
    WaitsKept(s, t);
  }

  // Whole runs.

  function MainFiber(handle: nat): Fiber {
    Fiber(2, 0, {0}, handle, Schedulable, Running, 0, false, None, 0, Success, [])
  }

  /** After `Initialize`: the main fiber runs on core 0, the other cores are in their schedulers. */
  ghost predicate Init(s: Sched) {
    && 0 in s.cores && !s.booted && s.words == map[] && s.suspended == [] && s.now <= TimeSpan.MAX_TIME
    && s.queues == [[], [], [], [], []]
    && s.current == map[0 := MAIN]
    && exists h :: 0 < h < WAITERS_BIT && s.handles == map[h := MAIN] && s.fibers == map[MAIN := MainFiber(h)]
  }

  lemma InitInv(s: Sched)
    requires Init(s)
    ensures Inv(s)
  {
    forall p | 0 <= p < PRIORITIES ensures QueueOk(s, None, p) { assert s.queues[p] == []; }
  }

  ghost predicate Step(s: Sched, l: Label, s': Sched) {
    Enabled(s, l) && Defined(s, l) && s' == Next(s, l)
  }

  ghost predicate IsRun(states: seq<Sched>, labels: seq<Label>) {
    && |states| == |labels| + 1 && Init(states[0])
    && forall i | 0 <= i < |labels| :: Step(states[i], labels[i], states[i + 1])
  }

  /** The main fiber has switched to its scheduler at least once before it ever waits for a lock. */
  ghost predicate BootsFirst(states: seq<Sched>, labels: seq<Label>)
    requires |states| == |labels| + 1
  {
    forall i | 0 <= i < |labels| :: !BootsWaiting(states[i], labels[i])
  }

  /** The invariant holds throughout every such run. */
  lemma {:induction false} RunKeepsInv(states: seq<Sched>, labels: seq<Label>, i: nat)
    requires IsRun(states, labels) && BootsFirst(states, labels) && i < |states|
    ensures Inv(states[i])
  {
    hide Inv, Init, Enabled, Defined, Next, BootsWaiting;
    if i == 0 {
      InitInv(states[0]);
    } else {
      RunKeepsInv(states, labels, i - 1);
      assert Step(states[i - 1], labels[i - 1], states[i]);
      StepKeepsInv(states[i - 1], labels[i - 1]);
    }
  }

  /** Step `i` of the run dispatches fiber `f`. */
  ghost predicate Dispatches(s: Sched, l: Label, f: Slot) {
    l.Run? && Pick(s, l.core) == Some(f)
  }

  /** The fiber has gone to sleep until `deadline` and has not been dispatched since. */
  ghost predicate Asleep(s: Sched, f: Slot, deadline: nat) {
    f in s.fibers && (s.fibers[f].state == Scheduled || s.fibers[f].state == Suspended)
        && s.fibers[f].timeout == deadline
  }

  /** The step does not concern the fiber `g` itself. */
  ghost predicate Untouched(s: Sched, l: Label, g: Slot) {
    !Dispatches(s, l, g) && !(l.ChangeMask? && l.f == g) && !(l.ChangeActivity? && l.f == g)
  }

  ghost predicate Idle(s: Sched, f: Slot) {
    f in s.fibers && (s.fibers[f].state == Scheduled || s.fibers[f].state == Suspended)
  }

  /** At most the list of its waiters has changed in the record of `f`. */
  ghost predicate Kept(s: Sched, t: Sched, f: Slot) {
    f in s.fibers && f in t.fibers && t.fibers[f] == s.fibers[f].(waitList := t.fibers[f].waitList)
  }

  lemma PauseKeeps(s: Sched, core: nat, timeout: nat, f: Slot)
    requires Inv(s) && core in s.current && Idle(s, f)
    ensures s.current[core] in s.fibers && Kept(s, Sleep(s, core, timeout), f)
  {
    hide Lists, WaitsOk, Sleep;
    assert CoreOk(s, core);
    var b, u := PauseShape(s, core, timeout);
  }

  lemma LockKeeps(s: Sched, l: Label, f: Slot)
    requires Inv(s) && l.Lock? && l.core in s.current && !BootsWaiting(s, l) && Idle(s, f)
    ensures s.current[l.core] in s.fibers && Kept(s, ArbitrateLock(s, l.core, l.handle, l.a, l.tag), f)
  {
    assert CoreOk(s, l.core);
    if LockCheck(s, s.current[l.core], l.handle, l.a) == Success {
      var g, o := WaitShape(s, l);
      hide ArbitrateLock, Lists, WaitsOk;
    }
  }

  lemma UnlockKeeps(s: Sched, f: Slot, g: Slot)
    requires CanRelease(s, f) && Idle(s, g) && g != f
    ensures Kept(s, ReleaseLock(s, f), g)
  {
    var o, u := ReleaseShape(s, f);
    hide ReleaseLock;
  }

  lemma MaskKeeps(s: Sched, f: Slot, mask: set<nat>, g: Slot)
    requires f in s.fibers && g in s.fibers && f != g
    ensures Kept(s, SetCoreMask(s, f, mask), g)
  {
  }

  lemma ActivityKeeps(s: Sched, f: Slot, level: Activity, g: Slot)
    requires f in s.fibers && g in s.fibers && f != g
    ensures Kept(s, SetActivity(s, f, level), g)
  {
  }

  lemma DispatchKeeps(s: Sched, f: Slot, core: nat, g: Slot)
    requires f in s.fibers && g in s.fibers && f != g
    ensures Kept(s, Dispatch(s, f, core), g)
  {
  }

  lemma QuitKeeps(s: Sched, core: nat, g: Slot)
    requires Inv(s) && core in s.current && Idle(s, g)
    ensures s.current[core] in s.fibers && Kept(s, Exit(s, core), g)
  {
    hide Lists, WaitsOk;
    assert CoreOk(s, core);
  }

  /** No step changes a fiber that is neither running, waiting nor the step's object. */
  lemma Bystander(s: Sched, l: Label, f: Slot)
    requires Inv(s) && Enabled(s, l) && Defined(s, l) && !BootsWaiting(s, l) && Idle(s, f) && Untouched(s, l, f)
    ensures Kept(s, Next(s, l), f)
  {
    hide Lists, WaitsOk, Sleep, ArbitrateLock, ReleaseLock, SetCoreMask, SetActivity, Dispatch, Exit;
    match l
    case ChangeMask(g, mask) => MaskKeeps(s, g, mask, f);
    case ChangeActivity(g, level) => ActivityKeeps(s, g, level, f);
    case Run(core) => if Pick(s, core).Some? { DispatchKeeps(s, Pick(s, core).value, core, f); }
    case Pause(core, timeout) => PauseKeeps(s, core, timeout, f);
    case Quit(core) => QuitKeeps(s, core, f);
    case Lock(core, handle, a, tag) => LockKeeps(s, l, f);
    case Unlock(core, a) =>
      assert CoreOk(s, core);
      CanReleaseFromCheck(s, core, a);
      if UnlockCheck(s, s.current[core], a) == Success { UnlockKeeps(s, s.current[core], f); }
    case _ =>
  }

  lemma AsleepStep(s: Sched, l: Label, f: Slot, deadline: nat)
    requires Inv(s) && Enabled(s, l) && Defined(s, l) && !BootsWaiting(s, l)
    requires Asleep(s, f, deadline) && !Dispatches(s, l, f)
    ensures Asleep(Next(s, l), f, deadline)
  {
    hide Lists, WaitsOk, FibersOk;
    if Untouched(s, l, f) {
      hide Next;
      Bystander(s, l, f);
    }
  }

  lemma {:induction false} SleeperStaysAsleep(states: seq<Sched>, labels: seq<Label>, f: Slot, deadline: nat, i: nat,
      j: nat)
    requires IsRun(states, labels) && BootsFirst(states, labels) && i <= j < |states|
    requires Asleep(states[i], f, deadline)
    requires forall k | i <= k < j :: !Dispatches(states[k], labels[k], f)
    ensures Asleep(states[j], f, deadline)
    decreases j
  {
    hide Asleep, Init, Inv, Enabled, Defined, Next, BootsWaiting, Dispatches;
    if i < j {
      SleeperStaysAsleep(states, labels, f, deadline, i, j - 1);
      RunKeepsInv(states, labels, j - 1);
      assert Step(states[j - 1], labels[j - 1], states[j]);
      AsleepStep(states[j - 1], labels[j - 1], f, deadline);
    }
  }

  lemma PauseSleeps(s: Sched, core: nat, deadline: nat)
    requires Inv(s) && core in s.current && deadline != 0
    ensures s.current[core] in s.fibers && Asleep(Sleep(s, core, deadline), s.current[core], deadline)
  {
    assert CoreOk(s, core);
    var b, u := PauseShape(s, core, deadline);
  }

  /** A fiber that sleeps for `ns` nanoseconds, having read the clock at tick `called`, is not
      dispatched again before the ticks elapsed since then amount to that time. */
  lemma SleepNeverEndsEarly(states: seq<Sched>, labels: seq<Label>, f: Slot, frequency: int, ns: int, called: nat,
      i: nat, j: nat)
    requires IsRun(states, labels) && BootsFirst(states, labels) && i < j < |labels|
    requires TimeSpan.FrequencyOk(frequency) && 0 < ns <= TimeSpan.MAX_TIME && called <= TimeSpan.MAX_TIME
    requires labels[i].Pause? && labels[i].timeout == TimeSpan.WakeupTick(frequency, ns, called)
    requires Step(states[i], labels[i], states[i + 1]) && f == states[i].current[labels[i].core]
    requires Dispatches(states[j], labels[j], f) && forall k | i < k < j :: !Dispatches(states[k], labels[k], f)
    ensures called < states[j].now && ns <= TimeSpan.FromTick(frequency, states[j].now - called)
  {
    hide Init, Lists, WaitsOk, BootsWaiting, TimeSpan.FromTick, TimeSpan.WakeupTick;
    var deadline := labels[i].timeout;
    RunKeepsInv(states, labels, i);
    RunKeepsInv(states, labels, j);
    TimeSpan.DeadlineNotEarly(frequency, ns, called, states[j].now);
    PauseSleeps(states[i], labels[i].core, deadline);
    SleeperStaysAsleep(states, labels, f, deadline, i + 1, j);
    PickedFiber(states[j], labels[j].core);
  }
}
