/** The fiber scheduler.

    Every API call holds the scheduler lock from its start to its `SwitchToFiber`, and the scheduler
    fiber runs on under the same lock, so each call is one step and so is each dispatch.  The lists
    are the sequences that the intrusive lists refine; core masks are sets of core numbers; handles
    are resolved through the finite map that the handle table refines.
 */
module Scheduler {
  import opened Wrappers

  type Slot = nat
  type Address = nat

  const PRIORITIES: nat := 5
  const MAX_FIBERS: nat := 256
  const WAITERS_BIT: nat := 0x4000_0000
  const MAIN: Slot := 0

  datatype FiberState = Scheduled | Running | Exiting | Waiting | Suspended

  datatype Activity = Dormant | Schedulable

  datatype Result =
    | Success
    | InvalidThreadFunctionPointer
    | InvalidStackSize
    | InvalidHandle
    | InvalidPriority
    | InvalidCoreId
    | StorageExhaustion
    | HandleExhaustion
    | SameCoreMask
    | SameActivityLevel
    | InvalidLockAddressValue
    | RequiresLock

  /** The fields of a fiber's storage.  `waitable` says whether its waitable object is set. */
  datatype Fiber = Fiber(
    priority: int, currentCore: nat, coreMask: set<nat>, handle: nat, activity: Activity, state: FiberState,
    timeout: nat, waitable: bool, lockAddress: Option<Address>, waitTag: nat, lastResult: Result, waitList: seq<Slot>)

  /** The scheduler.  `queues[p]` is the list of priority `p`, `current` the fiber each busy core runs,
      `words` the lock words in memory (0 where absent), `booted` whether core 0's scheduler fiber has
      been entered.  Storage of a fiber that has exited stays, in state `Exiting`, until reused. */
  datatype Sched = Sched(
    fibers: map<Slot, Fiber>, queues: seq<seq<Slot>>, suspended: seq<Slot>, current: map<nat, Slot>,
    handles: map<nat, Slot>, words: map<Address, nat>, cores: set<nat>, now: nat, booted: bool)

  // The lock word and its waiter bit.

  function Word(s: Sched, a: Address): nat {
    if a in s.words then s.words[a] else 0
  }

  predicate HasBit(w: nat) {
    w / WAITERS_BIT % 2 == 1
  }

  function WithBit(w: nat): nat {
    if HasBit(w) then w else w + WAITERS_BIT
  }

  function ClearBit(w: nat): nat {
    if HasBit(w) then w - WAITERS_BIT else w
  }

  // The primitive moves.

  function Without(q: seq<Slot>, f: Slot): (r: seq<Slot>)
    ensures forall g :: g in r <==> g in q && g != f
  {
    if q == [] then [] else (if q[0] == f then [] else [q[0]]) + Without(q[1..], f)
  }

  function SetFiber(s: Sched, f: Slot, b: Fiber): Sched {
    s.(fibers := s.fibers[f := b])
  }

  /** `scheduler_list_node.Unlink()`: out of whichever list the fiber is in. */
  function Unlink(s: Sched, f: Slot): Sched {
    s.(queues := seq(|s.queues|, p requires 0 <= p < |s.queues| => Without(s.queues[p], f)),
       suspended := Without(s.suspended, f))
  }

  function PushSuspended(s: Sched, f: Slot): Sched {
    s.(suspended := s.suspended + [f])
  }

  function PushQueue(queues: seq<seq<Slot>>, p: int, f: Slot): seq<seq<Slot>> {
    if 0 <= p < |queues| then queues[p := queues[p] + [f]] else queues
  }

  /** How queueing a fiber changes its record. */
  function Ready(b: Fiber): Fiber {
    b.(state := if b.activity == Dormant then Suspended else Scheduled)
  }

  function AddToScheduler(s: Sched, f: Slot): Sched
    requires f in s.fibers
  {
    var b := s.fibers[f];
    s.(fibers := s.fibers[f := Ready(b)],
       queues := if b.activity == Dormant then s.queues else PushQueue(s.queues, b.priority, f),
       suspended := if b.activity == Dormant then s.suspended + [f] else s.suspended)
  }

  /** What the scheduler fiber of `core` does first when the fiber it was running switches to it. */
  function Return(s: Sched, core: nat): Sched
    requires core in s.current && s.current[core] in s.fibers
  {
    var f := s.current[core];
    var t := s.(current := s.current - {core}, booted := s.booted || core == 0);
    if (core == 0 && !s.booted) || s.fibers[f].state == Running then AddToScheduler(t, f) else t
  }

  predicate IsSchedulable(s: Sched, f: Slot, core: nat)
    requires f in s.fibers
  {
    var b := s.fibers[f];
    b.state == Scheduled && core in b.coreMask && b.timeout < s.now
  }

  function FirstSchedulable(s: Sched, q: seq<Slot>, core: nat): Option<Slot> {
    if q == [] then None
    else if q[0] in s.fibers && IsSchedulable(s, q[0], core) then Some(q[0])
    else FirstSchedulable(s, q[1..], core)
  }

  /** The fiber to run next on `core`: the lists are searched from the highest priority down. */
  function Pick(s: Sched, core: nat): Option<Slot> {
    PickFrom(s, core, |s.queues|)
  }

  function PickFrom(s: Sched, core: nat, n: nat): Option<Slot>
    requires n <= |s.queues|
  {
    if n == 0 then None
    else match FirstSchedulable(s, s.queues[n - 1], core)
      case Some(f) => Some(f)
      case None => PickFrom(s, core, n - 1)
  }

  function Dispatch(s: Sched, f: Slot, core: nat): Sched
    requires f in s.fibers
  {
    Unlink(SetFiber(s, f, s.fibers[f].(state := Running, currentCore := core)), f).(current := s.current[core := f])
  }

  // The API calls.

  function NewFiber(priority: int, core: nat, handle: nat): Fiber {
    Fiber(priority + 2, 0, {core}, handle, Dormant, Suspended, 0, false, None, 0, Success, [])
  }

  function Create(s: Sched, slot: Slot, handle: nat, priority: int, core: nat): Sched {
    PushSuspended(SetFiber(s, slot, NewFiber(priority, core, handle)), slot).(handles := s.handles[handle := slot])
  }

  function SetCoreMask(s: Sched, f: Slot, mask: set<nat>): Sched
    requires f in s.fibers
  {
    var b := s.fibers[f];
    if b.coreMask == mask then s
    else
      var t := SetFiber(s, f, b.(coreMask := mask));
      if b.state == Scheduled then AddToScheduler(Unlink(t, f), f) else t
  }

  function SetActivity(s: Sched, f: Slot, level: Activity): Sched
    requires f in s.fibers
  {
    var b := s.fibers[f];
    if b.activity == level then s
    else
      var t := SetFiber(s, f, b.(activity := level));
      if b.state == Scheduled || b.state == Suspended then AddToScheduler(Unlink(t, f), f) else t
  }

  function Sleep(s: Sched, core: nat, timeout: nat): Sched
    requires core in s.current && s.current[core] in s.fibers
  {
    var f := s.current[core];
    Return(if timeout != 0 then SetFiber(s, f, s.fibers[f].(timeout := timeout)) else s, core)
  }

  function Exit(s: Sched, core: nat): Sched
    requires core in s.current && s.current[core] in s.fibers
  {
    var f := s.current[core];
    Return(SetFiber(s, f, s.fibers[f].(state := Exiting)), core)
  }

  /** Whether `ArbitrateLockImpl` makes the caller wait, or the error it returns at once. */
  function LockCheck(s: Sched, f: Slot, handle: nat, a: Address): Result {
    if handle !in s.handles || s.handles[handle] == f then InvalidHandle
    else if Word(s, a) != WithBit(handle) then InvalidLockAddressValue
    else Success
  }

  function ArbitrateLock(s: Sched, core: nat, handle: nat, a: Address, tag: nat): Sched
    requires core in s.current && s.current[core] in s.fibers
    requires forall h | h in s.handles :: s.handles[h] in s.fibers
  {
    var f := s.current[core];
    if LockCheck(s, f, handle, a) != Success then s
    else
      var o := s.handles[handle];
      var t := SetFiber(s, f, s.fibers[f].(waitable := true, lockAddress := Some(a), waitTag := tag, state := Waiting));
      var u := SetFiber(t, o, t.fibers[o].(waitList := t.fibers[o].waitList + [f]));
      Return(PushSuspended(Unlink(u, f), f), core)
  }

  /** `EndFiberWaitImpl`, then the clearing of the waitable object by its caller. */
  function EndWait(s: Sched, f: Slot, result: Result): Sched
    requires f in s.fibers
  {
    var t := Unlink(s, f);
    var u := AddToScheduler(SetFiber(t, f, t.fibers[f].(state := Scheduled, lastResult := result)), f);
    SetFiber(u, f, u.fibers[f].(waitable := false))
  }

  /** `ReleaseLockWaitListUnsafe`: the first waiter becomes the owner and takes over the others. */
  function ReleaseLock(s: Sched, f: Slot): Sched
    requires f in s.fibers && s.fibers[f].waitList != [] && s.fibers[f].waitList[0] in s.fibers
    requires s.fibers[s.fibers[f].waitList[0]].lockAddress.Some?
  {
    var g, rest := s.fibers[f].waitList[0], s.fibers[f].waitList[1..];
    var b := s.fibers[g];
    var t := s.(words := s.words[b.lockAddress.value := if rest == [] then b.waitTag else WithBit(b.waitTag)]);
    var u := SetFiber(t, f, t.fibers[f].(waitList := []));
    var v := SetFiber(u, g, u.fibers[g].(lockAddress := None, waitTag := 0, waitList := u.fibers[g].waitList + rest));
    EndWait(v, g, Success)
  }

  function UnlockCheck(s: Sched, f: Slot, a: Address): Result
    requires f in s.fibers
  {
    if s.fibers[f].waitList == [] then RequiresLock
    else if s.fibers[f].handle != ClearBit(Word(s, a)) then InvalidLockAddressValue
    else Success
  }
}
