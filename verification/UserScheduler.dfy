/** The scheduler object itself: each method updates the fields as the corresponding call does, and
    is proved to compute the step of the model in `Scheduler`. */
module UserScheduler {
  import opened Wrappers
  import opened Scheduler
  import opened SchedulerRuns
  import CS = CriticalSection
  import SchedulerLaws
  import TimeSpan

  lemma LockInvIff(s: Sched, l: Label)
    requires Inv(s) && l.Lock? && l.core in s.current
    ensures s.current[l.core] in s.fibers
    ensures Inv(ArbitrateLock(s, l.core, l.handle, l.a, l.tag)) <==> !BootsWaiting(s, l)
  {
    hide Lists, WaitsOk, BootsWaiting, ArbitrateLock;
    StepKeepsInv(s, l);
  }

  class UserScheduler {
    var fibers: map<Slot, Fiber>
    var highPriorityList: seq<Slot>
    var aboveNormalPriorityList: seq<Slot>
    var normalPriorityList: seq<Slot>
    var belowNormalPriorityList: seq<Slot>
    var lowPriorityList: seq<Slot>
    var suspendedList: seq<Slot>
    var current: map<nat, Slot>
    var handles: map<nat, Slot>
    var words: map<Address, nat>
    var cores: set<nat>
    var now: nat
    var booted: bool

    ghost function Model(): Sched
      reads this
    {
      Sched(fibers,
          [lowPriorityList, belowNormalPriorityList, normalPriorityList, aboveNormalPriorityList, highPriorityList],
            suspendedList, current, handles, words, cores, now, booted)
    }

    constructor (cores: set<nat>, now: nat, mainHandle: nat)
      requires 0 in cores && 0 < mainHandle < WAITERS_BIT && now <= TimeSpan.MAX_TIME
      ensures Init(Model())
    {
      fibers := map[MAIN := MainFiber(mainHandle)];
      highPriorityList, aboveNormalPriorityList, normalPriorityList := [], [], [];
      belowNormalPriorityList, lowPriorityList, suspendedList := [], [], [];
      current, handles, words := map[0 := MAIN], map[mainHandle := MAIN], map[];
      this.cores, this.now, booted := cores, now, false;
    }

    method UnlinkFiber(f: Slot)
      modifies this
      ensures Model() == Unlink(old(Model()), f)
    {
      hide Without;
      highPriorityList := Without(highPriorityList, f);
      aboveNormalPriorityList := Without(aboveNormalPriorityList, f);
      normalPriorityList := Without(normalPriorityList, f);
      belowNormalPriorityList := Without(belowNormalPriorityList, f);
      lowPriorityList := Without(lowPriorityList, f);
      suspendedList := Without(suspendedList, f);
      assert Model().queues == Unlink(old(Model()), f).queues;
    }

    method AddToSchedulerUnsafe(f: Slot)
      requires f in fibers
      modifies this
      ensures Model() == AddToScheduler(old(Model()), f)
    {
      var b := fibers[f];
      if b.activity == Dormant {
        fibers := fibers[f := b.(state := Suspended)];
        suspendedList := suspendedList + [f];
        return;
      }
      if b.priority == 2 {
        normalPriorityList := normalPriorityList + [f];
      } else if b.priority == 3 {
        aboveNormalPriorityList := aboveNormalPriorityList + [f];
      } else if b.priority == 1 {
        belowNormalPriorityList := belowNormalPriorityList + [f];
      } else if b.priority == 4 {
        highPriorityList := highPriorityList + [f];
      } else if b.priority == 0 {
        lowPriorityList := lowPriorityList + [f];
      }
      fibers := fibers[f := b.(state := Scheduled)];
    }

    /** One of the range-for loops of `SchedulerFiberMain`. */
    method FindSchedulable(list: seq<Slot>, core: nat) returns (r: Option<Slot>)
      requires forall g | g in list :: g in fibers
      ensures r == FirstSchedulable(Model(), list, core)
      ensures r == None ==> forall g | g in list ::
                !(fibers[g].state == Scheduled && core in fibers[g].coreMask && fibers[g].timeout < now)
      ensures r.Some? ==> SchedulerLaws.FirstAble(Model(), list, r.value, core)
      ensures r.Some? ==>
                && r.value in list && fibers[r.value].state == Scheduled && core in fibers[r.value].coreMask
                && fibers[r.value].timeout < now
    {
      var i := 0;
      while i < |list|
        invariant 0 <= i <= |list|
        invariant FirstSchedulable(Model(), list, core) == FirstSchedulable(Model(), list[i..], core)
        invariant forall j | 0 <= j < i ::
                    !(&& fibers[list[j]].state == Scheduled && core in fibers[list[j]].coreMask
                      && fibers[list[j]].timeout < now)
      {
        var b := fibers[list[i]];
        assert list[i] in list && list[i..][1..] == list[i + 1..];
        if b.state == Scheduled && core in b.coreMask && b.timeout < now { return Some(list[i]); }
        i := i + 1;
      }
      return None;
    }

    method SelectFiber(core: nat) returns (r: Option<Slot>)
      requires forall p, g | 0 <= p < PRIORITIES && g in Model().queues[p] :: g in fibers
      ensures r == Pick(Model(), core)
    {
      ghost var s := Model();
      assert s.queues[4] == highPriorityList && s.queues[3] == aboveNormalPriorityList
             && s.queues[2] == normalPriorityList;
      assert s.queues[1] == belowNormalPriorityList && s.queues[0] == lowPriorityList;
      assert Pick(s, core) == PickFrom(s, core, 5);
      r := FindSchedulable(highPriorityList, core);
      if r.Some? { return; }
      assert Pick(s, core) == PickFrom(s, core, 4);
      r := FindSchedulable(aboveNormalPriorityList, core);
      if r.Some? { return; }
      assert Pick(s, core) == PickFrom(s, core, 3);
      r := FindSchedulable(normalPriorityList, core);
      if r.Some? { return; }
      assert Pick(s, core) == PickFrom(s, core, 2);
      r := FindSchedulable(belowNormalPriorityList, core);
      if r.Some? { return; }
      assert Pick(s, core) == PickFrom(s, core, 1);
      r := FindSchedulable(lowPriorityList, core);
      assert PickFrom(s, core, 0) == None;
    }

    /** The part of `Dispatch` before the switch to the user fiber. */
    method DispatchFiber(f: Slot, core: nat)
      requires f in fibers
      modifies this
      ensures Model() == Dispatch(old(Model()), f, core)
      ensures old(Inv(Model()) && fibers[f].state == Scheduled && Enabled(Model(), Run(core))) ==> Inv(Model())
    {
      ghost var s := Model();
      if Inv(s) && fibers[f].state == Scheduled && Enabled(s, Run(core)) { DispatchInv(s, f, core); }
      hide Inv;
      fibers := fibers[f := fibers[f].(state := Running, currentCore := core)];
      UnlinkFiber(f);
      current := current[core := f];
    }

    /** What runs on `core` when its fiber switches back: the start of core 0's scheduler fiber the
        first time, else the part of `Dispatch` after the switch. */
    method ReturnToScheduler(core: nat)
      requires core in current && current[core] in fibers
      modifies this
      ensures Model() == Return(old(Model()), core)
      ensures old(Inv(Model())) ==> Inv(Model())
    {
      ghost var s := Model();
      if Inv(s) { PauseInv(s, core, 0); }
      hide Inv;
      var f := current[core];
      current := current - {core};
      if core == 0 && !booted {
        booted := true;
        AddToSchedulerUnsafe(f);
      } else if fibers[f].state == Running {
        AddToSchedulerUnsafe(f);
      }
    }

    /** `slot` and `handle` are what the storage allocator and the handle table returned; a thread
        function of 0 is the null pointer. */
    method CreateThreadImpl(threadFunction: nat, stackSize: nat, priority: int, core: nat, slot: Option<Slot>,
        handle: Option<nat>)
      returns (r: Result)
      modifies this
      ensures r == if threadFunction == 0 then InvalidThreadFunctionPointer else if stackSize == 0 then InvalidStackSize
                   else if !(-2 <= priority <= 2) then InvalidPriority else if core !in old(cores) then InvalidCoreId
                   else if slot == None then StorageExhaustion else if handle == None then HandleExhaustion else Success
      ensures Model() == if r == Success then Create(old(Model()), slot.value, handle.value, priority, core)
              else old(Model())
      ensures old(Inv(Model()))
              && (r == Success ==> old(Enabled(Model(), CreateThread(slot.value, handle.value, priority, core)))) ==>
                Inv(Model())
    {
      ghost var s := Model();
      if slot.Some? && handle.Some? && Inv(s) && Enabled(s, CreateThread(slot.value, handle.value, priority, core)) {
        CreateInv(s, CreateThread(slot.value, handle.value, priority, core));
      }
      hide Inv, Enabled;
      if threadFunction == 0 { return InvalidThreadFunctionPointer; }
      if stackSize == 0 { return InvalidStackSize; }
      if !(-2 <= priority <= 2) { return InvalidPriority; }
      if core !in cores { return InvalidCoreId; }
      if slot == None { return StorageExhaustion; }
      if handle == None { return HandleExhaustion; }
      var f := slot.value;
      fibers := fibers[f := NewFiber(priority, core, handle.value)];
      handles := handles[handle.value := f];
      suspendedList := suspendedList + [f];
      return Success;
    }

    method SetCoreMaskImpl(handle: nat, mask: set<nat>) returns (r: Result)
      requires forall h | h in handles :: handles[h] in fibers
      modifies this
      ensures r == if handle !in old(handles) then InvalidHandle
              else if old(fibers[handles[handle]]).coreMask == mask then SameCoreMask else Success
      ensures handle in old(handles) ==>
                old(handles)[handle] in fibers && fibers[old(handles)[handle]].coreMask == mask
      ensures Model() == if handle in old(handles) then SetCoreMask(old(Model()), old(handles)[handle], mask)
              else old(Model())
      ensures old(Inv(Model())) ==> Inv(Model())
    {
      ghost var s := Model();
      if Inv(s) && handle in handles { MaskInv(s, handles[handle], mask); }
      hide Inv;
      if handle !in handles { return InvalidHandle; }
      var f := handles[handle];
      var b := fibers[f];
      if b.coreMask == mask { return SameCoreMask; }
      fibers := fibers[f := b.(coreMask := mask)];
      if b.state == Scheduled {
        UnlinkFiber(f);
        AddToSchedulerUnsafe(f);
      }
      return Success;
    }

    method SetActivityImpl(handle: nat, level: Activity) returns (r: Result)
      requires forall h | h in handles :: handles[h] in fibers
      modifies this
      ensures r == if handle !in old(handles) then InvalidHandle
              else if old(fibers[handles[handle]]).activity == level then SameActivityLevel else Success
      ensures handle in old(handles) ==>
                old(handles)[handle] in fibers && fibers[old(handles)[handle]].activity == level
      ensures Model() == if handle in old(handles) then SetActivity(old(Model()), old(handles)[handle], level)
              else old(Model())
      ensures old(Inv(Model())) ==> Inv(Model())
    {
      ghost var s := Model();
      if Inv(s) && handle in handles { ActivityInv(s, handles[handle], level); }
      hide Inv;
      if handle !in handles { return InvalidHandle; }
      var f := handles[handle];
      var b := fibers[f];
      if b.activity == level { return SameActivityLevel; }
      fibers := fibers[f := b.(activity := level)];
      if b.state == Scheduled || b.state == Suspended {
        UnlinkFiber(f);
        AddToSchedulerUnsafe(f);
      }
      return Success;
    }

    method SleepThreadImpl(core: nat, timeout: nat)
      requires core in current && current[core] in fibers
      modifies this
      ensures Model() == Sleep(old(Model()), core, timeout)
      ensures old(Inv(Model())) ==> Inv(Model())
    {
      ghost var s := Model();
      if Inv(s) { PauseInv(s, core, timeout); }
      hide Inv;
      var f := current[core];
      if timeout != 0 {
        fibers := fibers[f := fibers[f].(timeout := timeout)];
      }
      ReturnToScheduler(core);
    }

    method ExitFiberImpl(core: nat)
      requires core in current && current[core] in fibers
      modifies this
      ensures Model() == Exit(old(Model()), core)
      ensures old(Inv(Model()) && current[core] != MAIN) ==>
                && Inv(Model()) && old(current[core]) in fibers && fibers[old(current[core])].state == Exiting
                && core !in current && !SchedulerLaws.Listed(Model(), old(current[core]))
    {
      ghost var s := Model();
      if Inv(s) && current[core] != MAIN {
        QuitInv(s, core);
        SchedulerLaws.QuitLaw(s, core);
      }
      hide Inv;
      var f := current[core];
      fibers := fibers[f := fibers[f].(state := Exiting)];
      ReturnToScheduler(core);
    }

    /** Returns the error that refuses the wait, or nothing if the caller has switched away; the result
        of a wait is known when the caller is resumed. */
    method ArbitrateLockImpl(core: nat, handle: nat, a: Address, tag: nat) returns (r: Option<Result>)
      requires core in current && current[core] in fibers && forall h | h in handles :: handles[h] in fibers
      modifies this
      ensures var check := LockCheck(old(Model()), old(current)[core], handle, a); r == if check == Success then None
              else Some(check)
      ensures Model() == ArbitrateLock(old(Model()), core, handle, a, tag)
      ensures old(Inv(Model())) ==> (Inv(Model()) <==> !old(BootsWaiting(Model(), Lock(core, handle, a, tag))))
    {
      ghost var s := Model();
      if Inv(s) { LockInvIff(s, Lock(core, handle, a, tag)); }
      hide Inv, BootsWaiting, Unlink, Return;
      var f := current[core];
      if handle !in handles || handles[handle] == f { return Some(InvalidHandle); }
      var o := handles[handle];
      var word := if a in words then words[a] else 0;
      if word != WithBit(handle) { return Some(InvalidLockAddressValue); }
      fibers := fibers[f := fibers[f].(waitable := true, lockAddress := Some(a), waitTag := tag, state := Waiting)];
      fibers := fibers[o := fibers[o].(waitList := fibers[o].waitList + [f])];
      UnlinkFiber(f);
      suspendedList := suspendedList + [f];
      ReturnToScheduler(core);
      return None;
    }

    method EndFiberWait(f: Slot, result: Result)
      requires f in fibers
      modifies this
      ensures Model() == EndWait(old(Model()), f, result)
    {
      UnlinkFiber(f);
      fibers := fibers[f := fibers[f].(state := Scheduled, lastResult := result)];
      AddToSchedulerUnsafe(f);
      fibers := fibers[f := fibers[f].(waitable := false)];
    }

    /** The loop that hands the waiters of `f` to `g` one by one, in order. */
    method TransferWaiters(f: Slot, g: Slot)
      requires f in fibers && g in fibers && f != g
      modifies this`fibers
      ensures fibers == old(fibers)[f := old(fibers)[f].(waitList := [])]
                                   [g := old(fibers)[g].(waitList := old(fibers)[g].waitList + old(fibers)[f].waitList)]
    {
      ghost var moved: seq<Slot> := [];
      while fibers[f].waitList != []
        invariant fibers.Keys == old(fibers).Keys && forall h | h in fibers && h != f && h != g ::
                  fibers[h] == old(fibers)[h]
        invariant fibers[f] == old(fibers)[f].(waitList := fibers[f].waitList)
        invariant fibers[g] == old(fibers)[g].(waitList := old(fibers)[g].waitList + moved)
        invariant moved + fibers[f].waitList == old(fibers)[f].waitList
        decreases |fibers[f].waitList|
      {
        var waiter := fibers[f].waitList[0];
        fibers := fibers[f := fibers[f].(waitList := fibers[f].waitList[1..])];
        fibers := fibers[g := fibers[g].(waitList := fibers[g].waitList + [waiter])];
        moved := moved + [waiter];
      }
      assert moved == old(fibers)[f].waitList;
    }

    method ReleaseLockWaitListUnsafe(f: Slot)
      requires CanRelease(Model(), f)
      modifies this
      ensures Model() == ReleaseLock(old(Model()), f)
    {
      hide EndWait;
      var list := fibers[f].waitList;
      var g, rest := list[0], list[1..];
      var b := fibers[g];
      words := words[b.lockAddress.value := if rest == [] then b.waitTag else WithBit(b.waitTag)];
      fibers := fibers[f := fibers[f].(waitList := rest)][g := b.(lockAddress := None, waitTag := 0)];
      TransferWaiters(f, g);
      assert fibers == old(fibers)[f := old(fibers)[f].(waitList := [])][g := b.(lockAddress := None, waitTag := 0,
             waitList := b.waitList + rest)];
      EndFiberWait(g, Success);
    }

    method ArbitrateUnlockImpl(core: nat, a: Address) returns (r: Result)
      requires core in current && current[core] in fibers
      requires fibers[current[core]].waitList != [] ==> CanRelease(Model(), current[core])
      modifies this
      ensures r == UnlockCheck(old(Model()), old(current)[core], a)
      ensures Model() == if r == Success then ReleaseLock(old(Model()), old(current)[core]) else old(Model())
      ensures old(Inv(Model())) ==> Inv(Model())
    {
      ghost var s := Model();
      if Inv(s) && UnlockCheck(s, current[core], a) == Success { ReleaseInv(s, current[core]); }
      hide Inv;
      var f := current[core];
      if fibers[f].waitList == [] { return RequiresLock; }
      var word := if a in words then words[a] else 0;
      if fibers[f].handle != ClearBit(word) { return InvalidLockAddressValue; }
      ReleaseLockWaitListUnsafe(f);
      return Success;
    }

    /** `InternalCriticalSection::Enter` up to its switch.  Returns whether the caller has the lock;
        if not, it is waiting for it. */
    method Enter(a: Address, ghost L: CS.State) returns (entered: bool)
      requires CS.Consistent(L) && L.s == Model() && CS.Allowed(L, CS.Enter(a))
      modifies this
      ensures CS.Sound(L, CS.Enter(a)) && Model() == CS.After(L, CS.Enter(a)).s
      ensures entered <==> old(current)[0] in CS.After(L, CS.Enter(a)).holds
      ensures CS.Consistent(CS.After(L, CS.Enter(a)))
    {
      CS.RunningFacts(L);
      CS.ActKeeps(L, CS.Enter(a));
      hide CS.Consistent;
      var f := current[0];
      var tag := fibers[f].handle;
      var other := if a in words then words[a] else 0;
      if other == 0 {
        words := words[a := tag];
        return true;
      }
      words := words[a := WithBit(other)];
      var r := ArbitrateLockImpl(0, ClearBit(other), a, tag);
      assert r == None;
      return false;
    }

    /** `Enter` after its switch: step `i` of the run has resumed the caller, which was waiting for `a`.
        `ArbitrateLockImpl` returns `result`; a result other than success would abort. */
    method ResumeEnter(a: Address, ghost states: seq<CS.State>, ghost acts: seq<CS.Act>, ghost i: nat)
        returns (result: Result, entered: bool)
      requires CS.LockRun(states, acts) && i < |acts| && states[i + 1].s == Model() && 0 in current
      requires CS.ResumedInEnter(states[i], acts[i], current[0]) && states[i].entering[current[0]] == a
      ensures result == Success && entered
    {
      CS.EnterReturnsOwner(states, acts, i, current[0]);
      var f := current[0];
      result := fibers[f].lastResult;
      var word := if a in words then words[a] else 0;
      entered := ClearBit(word) == fibers[f].handle;
    }

    method TryEnter(a: Address, ghost L: CS.State) returns (entered: bool)
      requires CS.Consistent(L) && L.s == Model() && CS.Allowed(L, CS.TryEnter(a))
      modifies this
      ensures CS.Sound(L, CS.TryEnter(a)) && Model() == CS.After(L, CS.TryEnter(a)).s
              && CS.Consistent(CS.After(L, CS.TryEnter(a)))
      ensures entered <==> old(current)[0] in CS.After(L, CS.TryEnter(a)).holds
    {
      CS.RunningFacts(L);
      CS.ActKeeps(L, CS.TryEnter(a));
      hide CS.Consistent;
      var other := if a in words then words[a] else 0;
      if other == 0 { words := words[a := fibers[current[0]].handle]; }
      return other == 0;
    }

    method Leave(a: Address, ghost L: CS.State)
      requires CS.Consistent(L) && L.s == Model() && CS.Allowed(L, CS.Leave(a))
      modifies this
      ensures CS.Sound(L, CS.Leave(a)) && Model() == CS.After(L, CS.Leave(a)).s
              && CS.Consistent(CS.After(L, CS.Leave(a)))
    {
      CS.RunningFacts(L);
      CS.ActKeeps(L, CS.Leave(a));
      var word := if a in words then words[a] else 0;
      if HasBit(word) {
        CS.LeaveDefined(L, a);
        hide CS.Consistent;
        var r := ArbitrateUnlockImpl(0, a);
        assert r == Success;
      } else {
        hide CS.Consistent;
        words := words[a := 0];
      }
    }
  }
}
