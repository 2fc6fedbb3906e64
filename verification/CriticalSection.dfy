/** The critical section: a lock word holding the owner's handle and a waiter bit, the owner's wait
    list, and the hand-over of the lock on `Leave`.

    One core; each fiber is in at most one critical section at a time and leaves it before it exits.
    On one core nothing else runs between the accesses of `Enter` up to its switch, so `Enter` is one
    step; a fiber resumed inside it finds the lock handed over.
 */
module CriticalSection {
  import opened Wrappers
  import opened Scheduler
  import opened SchedulerRuns

  /** `holds`: who has been given which lock.  `entering`: who has switched away inside `Enter`. */
  datatype State = State(s: Sched, holds: map<Slot, Address>, entering: map<Slot, Address>)

  datatype Act = Enter(a: Address) | TryEnter(a: Address) | Leave(a: Address) | Other(l: Label)

  // The lock word.

  lemma BitFacts(w: nat)
    requires 0 < w < WAITERS_BIT
    ensures !HasBit(w) && HasBit(WithBit(w)) && ClearBit(w) == w && ClearBit(WithBit(w)) == w
            && WithBit(WithBit(w)) == WithBit(w)
    ensures WithBit(w) == w + WAITERS_BIT
  {
  }

  /** The word that says `handle` owns the lock, with or without waiters. */
  ghost function OwnerWord(handle: nat, waiters: bool): nat {
    if waiters then WithBit(handle) else handle
  }

  ghost predicate HolderOk(L: State, f: Slot)
    requires f in L.holds
  {
    && f in L.s.fibers && L.s.fibers[f].state != Exiting && L.s.fibers[f].state != Waiting
    && Word(L.s, L.holds[f]) == OwnerWord(L.s.fibers[f].handle, L.s.fibers[f].waitList != [])
    && forall g | g in L.s.fibers[f].waitList :: WaiterOk(L, g, L.holds[f])
  }

  ghost predicate WaiterOk(L: State, g: Slot, a: Address) {
    && g in L.s.fibers && L.s.fibers[g].state == Waiting && g in L.entering && L.entering[g] == a
    && L.s.fibers[g].lockAddress == Some(a) && L.s.fibers[g].waitTag == L.s.fibers[g].handle
  }

  ghost predicate WordOk(L: State, a: Address) {
    var w := Word(L.s, a);
    w != 0 ==>
      && ClearBit(w) in L.s.handles && L.s.handles[ClearBit(w)] in L.holds
      && L.holds[L.s.handles[ClearBit(w)]] == a
  }

  ghost predicate FreeOk(L: State, f: Slot)
    requires f in L.s.fibers
  {
    && (f !in L.holds ==> L.s.fibers[f].waitList == [])
    && (L.s.fibers[f].state == Waiting ==>
          && f in L.entering && Word(L.s, L.entering[f]) != 0
          && ClearBit(Word(L.s, L.entering[f])) in L.s.handles
          && var o := L.s.handles[ClearBit(Word(L.s, L.entering[f]))];
             o in L.s.fibers && f in L.s.fibers[o].waitList)
  }

  ghost predicate EnteringOk(L: State, g: Slot)
    requires g in L.entering
  {
    && g in L.s.fibers
    && (L.s.fibers[g].state == Waiting
        || (&& g in L.holds && L.holds[g] == L.entering[g] && L.s.fibers[g].lastResult == Success
            && (L.s.fibers[g].state == Scheduled || L.s.fibers[g].state == Suspended)))
  }

  /** The lock word without its bit is the handle of the one holder, 0 if there is none; the bit says
      whether the holder has waiters; the waiters are exactly the fibers waiting for this lock. */
  ghost predicate Consistent(L: State) {
    && Inv(L.s) && L.s.cores == {0}
    && Holders(L) && Words(L) && Frees(L) && Enterings(L)
    && (!L.s.booted ==> L.entering == map[] && forall f | f in L.holds :: f == MAIN)
  }

  ghost predicate Holders(L: State) {
    forall f {:trigger HolderOk(L, f)} | f in L.holds :: HolderOk(L, f)
  }

  ghost predicate Words(L: State) {
    forall a {:trigger WordOk(L, a)} :: WordOk(L, a)
  }

  ghost predicate Frees(L: State) {
    forall f {:trigger FreeOk(L, f)} | f in L.s.fibers :: FreeOk(L, f)
  }

  ghost predicate Enterings(L: State) {
    forall g {:trigger EnteringOk(L, g)} | g in L.entering :: EnteringOk(L, g)
  }

  /** Who may do what: a fiber enters only when it is in no critical section, leaves only the one it
      is in, and does not exit inside one; lock words are touched by critical sections only. */
  ghost predicate Allowed(L: State, act: Act) {
    match act
    case Enter(a) => 0 in L.s.current && L.s.current[0] !in L.holds
    case TryEnter(a) => 0 in L.s.current && L.s.current[0] !in L.holds
    case Leave(a) => 0 in L.s.current && L.s.current[0] in L.holds && L.holds[L.s.current[0]] == a
    case Other(l) =>
      && !l.Lock? && !l.Unlock? && !l.Store? && Enabled(L.s, l)
      && (l.Quit? && l.core in L.s.current ==> L.s.current[l.core] !in L.holds)
  }

  function StoreWord(s: Sched, a: Address, w: nat): Sched {
    s.(words := s.words[a := w])
  }

  /** The act touches only memory that is there and does not abort: the arbitration calls that
      `Enter` and `Leave` make return success. */
  ghost predicate Sound(L: State, act: Act)
    requires Allowed(L, act)
  {
    match act
    case Enter(a) =>
      && L.s.current[0] in L.s.fibers && (forall h | h in L.s.handles :: L.s.handles[h] in L.s.fibers)
      && var w := Word(L.s, a);
         w != 0 ==> LockCheck(StoreWord(L.s, a, WithBit(w)), L.s.current[0], ClearBit(w), a) == Success
    case TryEnter(a) => L.s.current[0] in L.s.fibers
    case Leave(a) =>
      && L.s.current[0] in L.s.fibers
      && (HasBit(Word(L.s, a)) ==>
            && UnlockCheck(L.s, L.s.current[0], a) == Success
            && var g := L.s.fibers[L.s.current[0]].waitList[0]; g in L.s.fibers && L.s.fibers[g].lockAddress.Some?)
    case Other(l) => Defined(L.s, l)
  }

  ghost function Acquired(L: State, a: Address): State
    requires 0 in L.s.current && L.s.current[0] in L.s.fibers
  {
    var f := L.s.current[0];
    State(StoreWord(L.s, a, L.s.fibers[f].handle), L.holds[f := a], L.entering)
  }

  ghost function After(L: State, act: Act): State
    requires Allowed(L, act) && Sound(L, act)
  {
    match act
    case Enter(a) =>
      var f, w := L.s.current[0], Word(L.s, a);
      if w == 0 then Acquired(L, a)
      else State(ArbitrateLock(StoreWord(L.s, a, WithBit(w)), 0, ClearBit(w), a, L.s.fibers[f].handle), L.holds,
          L.entering[f := a])
    case TryEnter(a) => if Word(L.s, a) == 0 then Acquired(L, a) else L
    case Leave(a) =>
      var f := L.s.current[0];
      if HasBit(Word(L.s, a)) then
        State(ReleaseLock(L.s, f), (L.holds - {f})[L.s.fibers[f].waitList[0] := a], L.entering)
      else State(StoreWord(L.s, a, 0), L.holds - {f}, L.entering)
    case Other(l) =>
      State(Next(L.s, l), L.holds, match Dispatched(L.s, l) case Some(f) => L.entering - {f} case None => L.entering)
  }

  ghost function Dispatched(s: Sched, l: Label): Option<Slot> {
    if l.Run? then Pick(s, l.core) else None
  }

  /** `Leave` with the waiter bit set passes the checks of `ArbitrateUnlockImpl`. */
  lemma LeaveDefined(L: State, a: Address)
    requires Consistent(L) && Allowed(L, Leave(a)) && HasBit(Word(L.s, a))
    ensures var f := L.s.current[0]; f in L.s.fibers && UnlockCheck(L.s, f, a) == Success && CanRelease(L.s, f)
    ensures var f := L.s.current[0]; var g := L.s.fibers[f].waitList[0];
            && WaiterOk(L, g, a) && g !in L.holds
            && L.s.fibers[g].waitList == []
  {
    hide Lists, WaitsOk;
    var f := L.s.current[0];
    assert CoreOk(L.s, 0) && FiberOk(L.s, f) && HolderOk(L, f);
    BitFacts(L.s.fibers[f].handle);
    CanReleaseFromCheck(L.s, 0, a);
    var g := L.s.fibers[f].waitList[0];
    assert WaiterOk(L, g, a);
    assert g !in L.holds by { assert g in L.holds ==> HolderOk(L, g); }
    assert FreeOk(L, g);
  }

  /** The owner named by a non-zero lock word. */
  ghost function OwnerOf(s: Sched, a: Address): Option<Slot> {
    var h := ClearBit(Word(s, a));
    if Word(s, a) != 0 && h in s.handles && s.handles[h] in s.fibers then Some(s.handles[h]) else None
  }

  lemma OwnerFacts(L: State, a: Address)
    requires Consistent(L) && Word(L.s, a) != 0
    ensures OwnerOf(L.s, a).Some?
    ensures var o := OwnerOf(L.s, a).value;
            && o in L.holds && L.holds[o] == a && HolderOk(L, o) && 0 < L.s.fibers[o].handle < WAITERS_BIT
            && ClearBit(Word(L.s, a)) == L.s.fibers[o].handle && WithBit(Word(L.s, a)) == WithBit(L.s.fibers[o].handle)
            && (HasBit(Word(L.s, a)) <==> L.s.fibers[o].waitList != [])
  {
    hide Lists, WaitsOk;
    assert WordOk(L, a);
    var o := L.s.handles[ClearBit(Word(L.s, a))];
    assert HolderOk(L, o) && FiberOk(L.s, o);
    BitFacts(L.s.fibers[o].handle);
  }

  /** No two fibers hold one lock. */
  lemma HolderUnique(L: State, f: Slot, g: Slot)
    requires Consistent(L) && f in L.holds && g in L.holds && L.holds[f] == L.holds[g]
    ensures f == g && Word(L.s, L.holds[f]) != 0 && OwnerOf(L.s, L.holds[f]) == Some(f)
  {
    hide Lists, WaitsOk;
    assert HolderOk(L, f) && HolderOk(L, g) && FiberOk(L.s, f) && FiberOk(L.s, g);
    BitFacts(L.s.fibers[f].handle);
    BitFacts(L.s.fibers[g].handle);
  }

  /** `Enter` never aborts: when the lock is taken, the checks of `ArbitrateLockImpl` pass; and the
      main fiber does not wait before it has first switched to the scheduler. */
  lemma EnterWaits(L: State, a: Address)
    requires Consistent(L) && Allowed(L, Enter(a)) && Word(L.s, a) != 0
    ensures var w, f := Word(L.s, a), L.s.current[0];
            var s1 := StoreWord(L.s, a, WithBit(w));
            && LockCheck(s1, f, ClearBit(w), a) == Success && Inv(s1) && f in L.s.fibers
            && !BootsWaiting(s1, Lock(0, ClearBit(w), a, L.s.fibers[f].handle))
            && OwnerOf(L.s, a).Some? && OwnerOf(L.s, a).value != f && L.s.booted
  {
    OwnerFacts(L, a);
    var w, f, o := Word(L.s, a), L.s.current[0], OwnerOf(L.s, a).value;
    var s1 := StoreWord(L.s, a, WithBit(w));
    PlainStep(L.s, s1);
    assert CoreOk(L.s, 0);
  }

  /** In a consistent state every allowed act is sound. */
  lemma ActsAreSound(L: State, act: Act)
    requires Consistent(L) && Allowed(L, act)
    ensures Sound(L, act)
  {
    match act
    case Enter(a) =>
      assert CoreOk(L.s, 0);
      if Word(L.s, a) != 0 { EnterWaits(L, a); }
    case TryEnter(a) => assert CoreOk(L.s, 0);
    case Leave(a) =>
      assert CoreOk(L.s, 0);
      if HasBit(Word(L.s, a)) { LeaveDefined(L, a); }
    case Other(l) => InvDefined(L.s, l);
  }

  // Every act keeps the state consistent.

  lemma RunningFacts(L: State)
    requires Consistent(L) && 0 in L.s.current
    ensures var f := L.s.current[0];
            && f in L.s.fibers && L.s.fibers[f].state == Running && f !in L.entering
            && 0 < L.s.fibers[f].handle < WAITERS_BIT && (f !in L.holds ==> L.s.fibers[f].waitList == [])
  {
    hide Lists, WaitsOk;
    var f := L.s.current[0];
    assert CoreOk(L.s, 0) && FiberOk(L.s, f) && FreeOk(L, f);
    assert f in L.entering ==> EnteringOk(L, f);
  }

  lemma AcquireHolders(L: State, a: Address)
    requires Consistent(L) && Allowed(L, TryEnter(a)) && Word(L.s, a) == 0 && L.s.current[0] in L.s.fibers
    ensures Holders(Acquired(L, a)) && Words(Acquired(L, a))
  {
    var f, M := L.s.current[0], Acquired(L, a);
    assert CoreOk(L.s, 0) && FiberOk(L.s, f) && FreeOk(L, f);
    BitFacts(L.s.fibers[f].handle);
    forall g | g in M.holds ensures HolderOk(M, g) {
      if g != f { assert HolderOk(L, g) && FiberOk(L.s, g); }
    }
    forall b ensures WordOk(M, b) { assert WordOk(L, b); }
  }

  lemma AcquireKeeps(L: State, a: Address)
    requires Consistent(L) && Allowed(L, TryEnter(a)) && Word(L.s, a) == 0 && L.s.current[0] in L.s.fibers
    ensures Consistent(Acquired(L, a))
  {
    var f, M := L.s.current[0], Acquired(L, a);
    PlainStep(L.s, M.s);
    AcquireHolders(L, a);
    assert CoreOk(L.s, 0) && FiberOk(L.s, f) && FreeOk(L, f);
    hide Lists, WaitsOk, Inv, HolderOk, WordOk;
    forall g | g in M.s.fibers ensures FreeOk(M, g) { assert FreeOk(L, g); }
    forall g | g in M.entering ensures EnteringOk(M, g) { assert EnteringOk(L, g); }
  }

  /** What a contended `Enter` does: the caller joins the owner's wait list and leaves the core. */
  lemma EnterShape(L: State, a: Address) returns (f: Slot, o: Slot)
    requires Consistent(L) && Allowed(L, Enter(a)) && Word(L.s, a) != 0 && Sound(L, Enter(a))
    ensures f == L.s.current[0] && f in L.s.fibers && OwnerOf(L.s, a) == Some(o) && o in L.s.fibers && o != f
            && L.s.booted
    ensures var M := After(L, Enter(a));
            && M.s.fibers == WithWaiter(L.s, f, o, a, L.s.fibers[f].handle)
            && M.s.words == L.s.words[a := WithBit(Word(L.s, a))] && M.s.handles == L.s.handles
            && M.s.cores == L.s.cores
            && M.s.booted == L.s.booted && M.holds == L.holds && M.entering == L.entering[f := a] && Inv(M.s)
  {
    EnterWaits(L, a);
    OwnerFacts(L, a);
    var w := Word(L.s, a);
    f := L.s.current[0];
    var s1 := StoreWord(L.s, a, WithBit(w));
    var l := Lock(0, ClearBit(w), a, L.s.fibers[f].handle);
    SchedulerRuns.LockInv(s1, l);
    f, o := WaitShape(s1, l);
  }

  /** The outcome of a contended `Enter` by `f` on the lock `a` that `o` holds. */
  ghost predicate Joined(L: State, M: State, f: Slot, o: Slot, a: Address) {
    && f in L.s.fibers && o in L.s.fibers && f != o && Word(L.s, a) != 0
    && L.s.fibers[f].state == Running && f !in L.holds && f !in L.entering && L.s.fibers[f].waitList == []
    && o in L.holds && L.holds[o] == a && OwnerOf(L.s, a) == Some(o) && 0 < L.s.fibers[o].handle < WAITERS_BIT
    && ClearBit(Word(L.s, a)) == L.s.fibers[o].handle && WithBit(Word(L.s, a)) == WithBit(L.s.fibers[o].handle)
    && (forall g | g in L.holds && L.holds[g] == a :: g == o)
    && M.s.fibers == WithWaiter(L.s, f, o, a, L.s.fibers[f].handle)
    && M.s.words == L.s.words[a := WithBit(Word(L.s, a))] && M.s.handles == L.s.handles
    && M.holds == L.holds && M.entering == L.entering[f := a]
  }

  lemma EnterJoins(L: State, a: Address) returns (f: Slot, o: Slot)
    requires Consistent(L) && Allowed(L, Enter(a)) && Word(L.s, a) != 0 && Sound(L, Enter(a))
    ensures Joined(L, After(L, Enter(a)), f, o, a) && f == L.s.current[0]
  {
    f, o := EnterShape(L, a);
    hide After;
    OwnerFacts(L, a);
    RunningFacts(L);
    forall g | g in L.holds && L.holds[g] == a ensures g == o { HolderUnique(L, g, o); }
  }

  lemma JoinedHolders(L: State, M: State, f: Slot, o: Slot, a: Address)
    requires Joined(L, M, f, o, a) && Holders(L)
    ensures Holders(M)
  {
    BitFacts(L.s.fibers[o].handle);
    forall g | g in M.holds ensures HolderOk(M, g) {
      assert HolderOk(L, g);
      forall h | h in M.s.fibers[g].waitList ensures WaiterOk(M, h, M.holds[g]) {
        if h != f { assert WaiterOk(L, h, L.holds[g]); }
      }
    }
  }

  lemma JoinedWords(L: State, M: State, f: Slot, o: Slot, a: Address)
    requires Joined(L, M, f, o, a) && Words(L)
    ensures Words(M)
  {
    BitFacts(L.s.fibers[o].handle);
    forall b ensures WordOk(M, b) { assert WordOk(L, b); }
  }

  lemma JoinedFrees(L: State, M: State, f: Slot, o: Slot, a: Address)
    requires Joined(L, M, f, o, a) && Frees(L)
    ensures Frees(M)
  {
    BitFacts(L.s.fibers[o].handle);
    forall g | g in M.s.fibers ensures FreeOk(M, g) { assert FreeOk(L, g); }
  }

  lemma EnterKeeps(L: State, a: Address)
    requires Consistent(L) && Allowed(L, Enter(a)) && Word(L.s, a) != 0 && Sound(L, Enter(a))
    ensures Consistent(After(L, Enter(a)))
  {
    var M := After(L, Enter(a));
    var f, o := EnterShape(L, a);
    f, o := EnterJoins(L, a);
    hide After, Inv, Sound, Holders, Words, Frees;
    JoinedHolders(L, M, f, o, a);
    JoinedWords(L, M, f, o, a);
    JoinedFrees(L, M, f, o, a);
    forall g | g in M.entering ensures EnteringOk(M, g) { if g != f { assert EnteringOk(L, g); } }
  }

  /** The outcome of `Leave` by `f` on lock `a` with waiters: the first, `g`, has it now. */
  ghost predicate Passed(L: State, M: State, f: Slot, g: Slot, a: Address) {
    && f in L.s.fibers && g in L.s.fibers && f != g && L.s.fibers[f].state == Running
    && f in L.holds && L.holds[f] == a && g !in L.holds && OwnerOf(L.s, a) == Some(f)
    && L.s.fibers[f].waitList != [] && L.s.fibers[f].waitList[0] == g && g !in L.s.fibers[f].waitList[1..]
    && L.s.fibers[g].waitList == [] && L.s.fibers[g].state == Waiting && g in L.entering && L.entering[g] == a
    && L.s.fibers[f].handle != L.s.fibers[g].handle && 0 < L.s.fibers[f].handle < WAITERS_BIT
    && 0 < L.s.fibers[g].handle < WAITERS_BIT
    && L.s.fibers[g].handle in L.s.handles && L.s.handles[L.s.fibers[g].handle] == g
    && (forall h | h in L.holds && L.holds[h] == a :: h == f)
    && M.s.fibers == HandedOver(L.s, f) && M.s.handles == L.s.handles
    && M.s.words == L.s.words[a := OwnerWord(L.s.fibers[g].handle, |L.s.fibers[f].waitList| != 1)]
    && M.holds == (L.holds - {f})[g := a] && M.entering == L.entering
  }

  lemma LeaveShape(L: State, a: Address) returns (f: Slot, g: Slot)
    requires Consistent(L) && Allowed(L, Leave(a)) && HasBit(Word(L.s, a)) && Sound(L, Leave(a))
    ensures f == L.s.current[0] && f in L.s.fibers && L.s.fibers[f].waitList != [] && g == L.s.fibers[f].waitList[0]
            && g in L.s.fibers
    ensures var M := After(L, Leave(a));
            && Inv(M.s) && M.s.cores == L.s.cores && M.s.booted == L.s.booted && M.s.handles == L.s.handles
            && M.s.fibers == HandedOver(L.s, f) && M.holds == (L.holds - {f})[g := a] && M.entering == L.entering
            && M.s.words == L.s.words[a := OwnerWord(L.s.fibers[g].handle, |L.s.fibers[f].waitList| != 1)]
  {
    hide Holders, Words, Frees, Enterings, Lists, WaitsOk, FibersOk;
    f := L.s.current[0];
    LeaveDefined(L, a);
    ReleaseInv(L.s, f);
    var u;
    g, u := ReleaseShape(L.s, f);
    hide ReleaseLock;
  }

  lemma LeavePasses(L: State, a: Address) returns (f: Slot, g: Slot)
    requires Consistent(L) && Allowed(L, Leave(a)) && HasBit(Word(L.s, a)) && Sound(L, Leave(a))
    ensures Passed(L, After(L, Leave(a)), f, g, a)
  {
    f, g := LeaveShape(L, a);
    hide After, Lists, Sound;
    LeaveDefined(L, a);
    RunningFacts(L);
    assert FiberOk(L.s, f) && FiberOk(L.s, g) && WaitListOk(L.s, f);
    hide Consistent, FibersOk, WaitsOk;
    HolderUnique(L, f, f);
    forall h | h in L.holds && L.holds[h] == a ensures h == f { HolderUnique(L, h, f); }
  }

  lemma PassedHolders(L: State, M: State, f: Slot, g: Slot, a: Address)
    requires Passed(L, M, f, g, a) && Holders(L)
    ensures Holders(M)
  {
    assert HolderOk(L, f);
    forall h | h in M.holds ensures HolderOk(M, h) {
      if h != g { assert HolderOk(L, h); }
      var from := if h == g then f else h;
      forall i | i in M.s.fibers[h].waitList ensures WaiterOk(M, i, M.holds[h]) {
        assert i in L.s.fibers[from].waitList;
        assert WaiterOk(L, i, L.holds[from]);
      }
    }
  }

  lemma PassedWords(L: State, M: State, f: Slot, g: Slot, a: Address)
    requires Passed(L, M, f, g, a) && Words(L)
    ensures Words(M)
  {
    BitFacts(L.s.fibers[g].handle);
    forall b ensures WordOk(M, b) { assert WordOk(L, b); }
  }

  lemma PassedFrees(L: State, M: State, f: Slot, g: Slot, a: Address)
    requires Passed(L, M, f, g, a) && Frees(L) && Words(L)
    ensures Frees(M)
  {
    BitFacts(L.s.fibers[g].handle);
    var rest := L.s.fibers[f].waitList[1..];
    assert M.s.fibers[g].waitList == rest;
    forall h | h in M.s.fibers ensures FreeOk(M, h) {
      assert FreeOk(L, h);
      if M.s.fibers[h].state == Waiting {
        assert WordOk(L, L.entering[h]);
        assert L.entering[h] == a ==> h in rest;
      }
    }
  }

  lemma PassedEnterings(L: State, M: State, f: Slot, g: Slot, a: Address)
    requires Passed(L, M, f, g, a) && Enterings(L)
    ensures Enterings(M)
  {
    forall h | h in M.entering ensures EnteringOk(M, h) { assert EnteringOk(L, h); }
  }

  lemma LeaveKeeps(L: State, a: Address)
    requires Consistent(L) && Allowed(L, Leave(a)) && HasBit(Word(L.s, a)) && Sound(L, Leave(a))
    ensures Consistent(After(L, Leave(a)))
  {
    var M := After(L, Leave(a));
    var f, g := LeaveShape(L, a);
    f, g := LeavePasses(L, a);
    hide After, Inv, Sound, Holders, Words, Frees, Enterings;
    PassedHolders(L, M, f, g, a);
    PassedWords(L, M, f, g, a);
    PassedFrees(L, M, f, g, a);
    PassedEnterings(L, M, f, g, a);
    assert L.s.booted by { NotBootedAlone(L, a); }
  }

  /** Before the main fiber has first switched nobody can be waiting. */
  lemma NotBootedAlone(L: State, a: Address)
    requires Consistent(L) && Allowed(L, Leave(a)) && HasBit(Word(L.s, a))
    ensures L.s.booted
  {
    LeaveDefined(L, a);
  }

  lemma ReleaseHolders(L: State, a: Address)
    requires Consistent(L) && Allowed(L, Leave(a)) && !HasBit(Word(L.s, a)) && Sound(L, Leave(a))
    ensures Holders(After(L, Leave(a))) && Words(After(L, Leave(a)))
  {
    var M, f := After(L, Leave(a)), L.s.current[0];
    HolderUnique(L, f, f);
    hide Lists, WaitsOk;
    forall g | g in M.holds ensures HolderOk(M, g) {
      assert HolderOk(L, g);
      if L.holds[g] == a { HolderUnique(L, g, f); }
    }
    forall b ensures WordOk(M, b) { assert WordOk(L, b); }
  }

  lemma ReleaseKeeps(L: State, a: Address)
    requires Consistent(L) && Allowed(L, Leave(a)) && !HasBit(Word(L.s, a)) && Sound(L, Leave(a))
    ensures Consistent(After(L, Leave(a)))
  {
    var M, f := After(L, Leave(a)), L.s.current[0];
    PlainStep(L.s, M.s);
    RunningFacts(L);
    assert HolderOk(L, f);
    BitFacts(L.s.fibers[f].handle);
    HolderUnique(L, f, f);
    ReleaseHolders(L, a);
    hide Lists, WaitsOk;
    forall g | g in M.s.fibers ensures FreeOk(M, g) { assert FreeOk(L, g); }
    forall g | g in M.entering ensures EnteringOk(M, g) { assert EnteringOk(L, g); }
  }

  /** What the lock protocol needs of a fiber is the same in `t` as in `s`. */
  ghost predicate SteadyFiber(s: Sched, t: Sched, f: Slot)
    requires f in s.fibers
  {
    && f in t.fibers
    && var b, b' := s.fibers[f], t.fibers[f];
       && b'.handle == b.handle && b'.waitList == b.waitList && b'.lockAddress == b.lockAddress
       && b'.waitTag == b.waitTag
       && b'.lastResult == b.lastResult && (b'.state == Waiting <==> b.state == Waiting)
  }

  ghost predicate Live(s: Sched, f: Slot) {
    f in s.fibers && s.fibers[f].state != Exiting
  }

  ghost predicate Steady(s: Sched, t: Sched) {
    && t.words == s.words && t.cores == s.cores && (s.booted ==> t.booted)
    && (forall h | h in s.handles :: h in t.handles && t.handles[h] == s.handles[h])
    && (forall f {:trigger SteadyFiber(s, t, f)} | Live(s, f) :: SteadyFiber(s, t, f))
    && (forall f | f in t.fibers && !Live(s, f) ::
          && t.fibers[f].state != Waiting
          && (t.fibers[f].waitList == [] || (f in s.fibers && t.fibers[f].waitList == s.fibers[f].waitList)))
  }

  ghost predicate LockFree(l: Label) {
    !l.Lock? && !l.Unlock? && !l.Store?
  }

  /** Only the record of `f` differs, and not in what the protocol needs. */
  ghost predicate OneFiber(s: Sched, t: Sched, f: Slot) {
    && t.words == s.words && t.cores == s.cores && (s.booted ==> t.booted) && t.handles == s.handles
    && f in s.fibers && t.fibers.Keys == s.fibers.Keys
    && (forall g | g in s.fibers && g != f :: t.fibers[g] == s.fibers[g])
    && SteadyFiber(s, t, f)
  }

  lemma OneFiberSteady(s: Sched, t: Sched, f: Slot)
    requires OneFiber(s, t, f)
    ensures Steady(s, t)
  {
  }

  lemma PauseSteady(s: Sched, core: nat, timeout: nat)
    requires core in s.current && s.current[core] in s.fibers && s.fibers[s.current[core]].state == Running
    ensures OneFiber(s, Sleep(s, core, timeout), s.current[core])
  {
    var b, u := PauseShape(s, core, timeout);
    hide Sleep;
  }

  lemma RequeueSteady(s: Sched, t: Sched, f: Slot, b: Fiber)
    requires f in s.fibers && s.fibers[f].state != Waiting
             && b == s.fibers[f].(coreMask := b.coreMask, activity := b.activity)
    requires t == AddToScheduler(Unlink(SetFiber(s, f, b), f), f)
    ensures OneFiber(s, t, f)
  {
  }

  lemma MaskSteady(s: Sched, f: Slot, mask: set<nat>)
    requires f in s.fibers
    ensures OneFiber(s, SetCoreMask(s, f, mask), f)
  {
    var b := s.fibers[f];
    if b.state == Scheduled && b.coreMask != mask {
      hide Unlink, AddToScheduler, OneFiber;
      RequeueSteady(s, SetCoreMask(s, f, mask), f, b.(coreMask := mask));
    }
  }

  lemma ActivitySteady(s: Sched, f: Slot, level: Activity)
    requires f in s.fibers
    ensures OneFiber(s, SetActivity(s, f, level), f)
  {
    var b := s.fibers[f];
    if (b.state == Scheduled || b.state == Suspended) && b.activity != level {
      hide Unlink, AddToScheduler, OneFiber;
      RequeueSteady(s, SetActivity(s, f, level), f, b.(activity := level));
    }
  }

  lemma DispatchSteady(s: Sched, f: Slot, core: nat)
    requires f in s.fibers && s.fibers[f].state != Waiting
    ensures OneFiber(s, Dispatch(s, f, core), f)
  {
    hide Without;
  }

  lemma ExitSteady(s: Sched, f: Slot, core: nat)
    requires f in s.fibers && s.fibers[f].state != Waiting && core in s.current && s.current[core] == f
             && (core == 0 ==> s.booted)
    ensures OneFiber(s, Exit(s, core), f)
  {
    hide AddToScheduler;
  }

  lemma CreateSteady(s: Sched, l: Label)
    requires l.CreateThread? && Enabled(s, l)
    ensures Steady(s, Create(s, l.slot, l.handle, l.priority, l.core))
  {
  }

  /** The steps that are not about locks leave what the protocol needs alone. */
  lemma OtherSteady(s: Sched, l: Label)
    requires Inv(s) && Enabled(s, l) && Defined(s, l) && LockFree(l)
    ensures Steady(s, Next(s, l))
  {
    hide Lists, WaitsOk, SetCoreMask, SetActivity, Sleep, Create, Dispatch, Exit, OneFiber;
    match l
    case CreateThread(_, _, _, _) => CreateSteady(s, l);
    case ChangeMask(f, mask) =>
      MaskSteady(s, f, mask);
      OneFiberSteady(s, Next(s, l), f);
    case ChangeActivity(f, level) =>
      ActivitySteady(s, f, level);
      OneFiberSteady(s, Next(s, l), f);
    case Pause(core, timeout) =>
      assert CoreOk(s, core);
      PauseSteady(s, core, timeout);
      OneFiberSteady(s, Next(s, l), s.current[core]);
    case Quit(core) =>
      assert CoreOk(s, core);
      ExitSteady(s, s.current[core], core);
      OneFiberSteady(s, Next(s, l), s.current[core]);
    case Run(core) =>
      PickedFiber(s, core);
      if Pick(s, core).Some? {
        DispatchSteady(s, Pick(s, core).value, core);
        OneFiberSteady(s, Next(s, l), Pick(s, core).value);
      }
    case _ =>
  }

  lemma SteadyHolders(L: State, M: State)
    requires Holders(L) && Steady(L.s, M.s) && M.holds == L.holds
    requires forall f | f in L.holds :: Live(M.s, f)
    requires forall g | g in L.entering && Live(L.s, g) && L.s.fibers[g].state == Waiting ::
               g in M.entering && M.entering[g] == L.entering[g]
    ensures Holders(M)
  {
    forall f | f in M.holds ensures HolderOk(M, f) {
      assert HolderOk(L, f) && Live(L.s, f);
      assert SteadyFiber(L.s, M.s, f);
      forall g | g in M.s.fibers[f].waitList ensures WaiterOk(M, g, M.holds[f]) {
        assert WaiterOk(L, g, L.holds[f]) && SteadyFiber(L.s, M.s, g);
      }
    }
  }

  lemma SteadyFrees(L: State, M: State)
    requires Frees(L) && Words(L) && Holders(L) && Steady(L.s, M.s) && M.holds == L.holds
    requires forall g | g in L.entering && Live(L.s, g) && L.s.fibers[g].state == Waiting ::
               g in M.entering && M.entering[g] == L.entering[g]
    ensures Frees(M)
  {
    forall f | f in M.s.fibers ensures FreeOk(M, f) {
      assert f in L.s.fibers ==> FreeOk(L, f);
      assert f in L.holds ==> HolderOk(L, f);
      if Live(L.s, f) {
        assert SteadyFiber(L.s, M.s, f);
        if M.s.fibers[f].state == Waiting {
          assert WordOk(L, L.entering[f]);
          var o := L.s.handles[ClearBit(Word(L.s, L.entering[f]))];
          assert HolderOk(L, o) && SteadyFiber(L.s, M.s, o);
        }
      }
    }
  }

  lemma SteadyWords(L: State, M: State)
    requires Words(L) && Steady(L.s, M.s) && M.holds == L.holds
    ensures Words(M)
  {
    forall a ensures WordOk(M, a) { assert WordOk(L, a); }
  }

  lemma OtherEnterings(L: State, l: Label)
    requires Consistent(L) && Allowed(L, Other(l)) && Sound(L, Other(l))
    ensures Enterings(After(L, Other(l)))
  {
    var M := After(L, Other(l));
    OtherSteady(L.s, l);
    hide Lists, WaitsOk, FibersOk, Next;
    forall g | g in M.entering ensures EnteringOk(M, g) {
      assert EnteringOk(L, g) && SteadyFiber(L.s, M.s, g);
      if L.s.fibers[g].state != Waiting {
        AsleepStep(L.s, l, g, L.s.fibers[g].timeout);
      }
    }
  }

  lemma OtherKeeps(L: State, l: Label)
    requires Consistent(L) && Allowed(L, Other(l)) && Sound(L, Other(l))
    ensures Consistent(After(L, Other(l)))
  {
    var M := After(L, Other(l));
    OtherSteady(L.s, l);
    GoodStep(L.s, l);
    OtherEnterings(L, l);
    HoldersStayLive(L, l);
    WaitersStayEntering(L, l);
    hide Inv, Next, Enterings, Holders, Words, Frees, Allowed, Sound;
    SteadyHolders(L, M);
    SteadyWords(L, M);
    SteadyFrees(L, M);
  }

  lemma HoldersStayLive(L: State, l: Label)
    requires Consistent(L) && Allowed(L, Other(l)) && Sound(L, Other(l))
    ensures forall f | f in L.holds :: Live(After(L, Other(l)).s, f)
  {
    forall f | f in L.holds ensures Live(After(L, Other(l)).s, f) {
      assert HolderOk(L, f);
      StaysLive(L.s, l, f);
    }
  }

  /** Only its own exit ends a fiber. */
  lemma StaysLive(s: Sched, l: Label, f: Slot)
    requires Inv(s) && Enabled(s, l) && Defined(s, l) && LockFree(l) && Live(s, f)
    requires l.Quit? ==> s.current[l.core] != f
    ensures Live(Next(s, l), f)
  {
    hide Lists, WaitsOk, Sleep, Exit, SetCoreMask, SetActivity, Dispatch, Pick;
    match l
    case Pause(core, timeout) =>
      assert CoreOk(s, core);
      var b, u := PauseShape(s, core, timeout);
    case Quit(core) =>
      assert CoreOk(s, core);
      ExitLive(s, core, f);
    case ChangeMask(g, mask) => MaskLive(s, g, mask, f);
    case ChangeActivity(g, level) => ActivityLive(s, g, level, f);
    case Run(core) => if Pick(s, core).Some? { DispatchLive(s, Pick(s, core).value, core, f); }
    case _ =>
  }

  lemma DispatchLive(s: Sched, g: Slot, core: nat, f: Slot)
    requires g in s.fibers && Live(s, f)
    ensures Live(Dispatch(s, g, core), f)
  {
    hide Without;
  }

  lemma ExitLive(s: Sched, core: nat, f: Slot)
    requires core in s.current && s.current[core] in s.fibers && Live(s, f) && f != s.current[core]
    ensures Live(Exit(s, core), f)
  {
    hide PushQueue;
  }

  lemma MaskLive(s: Sched, g: Slot, mask: set<nat>, f: Slot)
    requires g in s.fibers && Live(s, f)
    ensures Live(SetCoreMask(s, g, mask), f)
  {
    hide PushQueue, Without;
  }

  lemma ActivityLive(s: Sched, g: Slot, level: Activity, f: Slot)
    requires g in s.fibers && Live(s, f)
    ensures Live(SetActivity(s, g, level), f)
  {
    hide PushQueue, Without;
  }

  lemma WaitersStayEntering(L: State, l: Label)
    requires Consistent(L) && Allowed(L, Other(l)) && Sound(L, Other(l))
    ensures var M := After(L, Other(l));
            forall g | g in L.entering && Live(L.s, g) && L.s.fibers[g].state == Waiting :: g in M.entering
                && M.entering[g] == L.entering[g]
  {
    if l.Run? { PickedFiber(L.s, l.core); }
  }

  /** Every act keeps the state consistent. */
  lemma ActKeeps(L: State, act: Act)
    requires Consistent(L) && Allowed(L, act)
    ensures Sound(L, act) && Consistent(After(L, act))
  {
    ActsAreSound(L, act);
    hide Consistent;
    match act
    case Enter(a) =>
      if Word(L.s, a) != 0 { EnterKeeps(L, a); } else { AcquireKeeps(L, a); }
    case TryEnter(a) =>
      if Word(L.s, a) == 0 { AcquireKeeps(L, a); }
    case Leave(a) =>
      if HasBit(Word(L.s, a)) { LeaveKeeps(L, a); } else { ReleaseKeeps(L, a); }
    case Other(l) => OtherKeeps(L, l);
  }

  // The order of the owners.

  /** The owner of a lock followed by its waiters; empty when the lock is free. */
  ghost function Queue(L: State, a: Address): seq<Slot> {
    match OwnerOf(L.s, a)
    case None => []
    case Some(o) => [o] + L.s.fibers[o].waitList
  }

  /** The fiber that an act adds to the queue of lock `a`. */
  ghost function Arrival(L: State, act: Act, a: Address): seq<Slot>
    requires Allowed(L, act)
  {
    if act == Enter(a) || (act == TryEnter(a) && Word(L.s, a) == 0) then [L.s.current[0]] else []
  }

  lemma AcquireQueue(L: State, b: Address, a: Address)
    requires Consistent(L) && Allowed(L, TryEnter(b)) && Word(L.s, b) == 0 && L.s.current[0] in L.s.fibers
    ensures Queue(Acquired(L, b), a) == Queue(L, a) + if a == b then [L.s.current[0]] else []
  {
    RunningFacts(L);
    var f := L.s.current[0];
    assert FiberOk(L.s, f);
    BitFacts(L.s.fibers[f].handle);
  }

  lemma JoinedQueue(L: State, M: State, f: Slot, o: Slot, b: Address, a: Address)
    requires Joined(L, M, f, o, b) && Words(L)
    ensures Queue(M, a) == Queue(L, a) + if a == b then [f] else []
  {
    BitFacts(L.s.fibers[o].handle);
    assert WordOk(L, a);
  }

  lemma EnterQueue(L: State, b: Address, a: Address)
    requires Consistent(L) && Allowed(L, Enter(b)) && Word(L.s, b) != 0 && Sound(L, Enter(b))
    ensures Queue(After(L, Enter(b)), a) == Queue(L, a) + if a == b then [L.s.current[0]] else []
  {
    var f, o := EnterJoins(L, b);
    hide After, Inv, Sound, Joined, Queue, Words, Holders, Frees, Enterings;
    JoinedQueue(L, After(L, Enter(b)), f, o, b, a);
  }

  lemma PassedQueue(L: State, M: State, f: Slot, g: Slot, b: Address, a: Address)
    requires Passed(L, M, f, g, b) && Words(L)
    ensures a == b ==> Queue(L, a) != [] && Queue(M, a) == Queue(L, a)[1..]
    ensures a != b ==> Queue(M, a) == Queue(L, a)
  {
    BitFacts(L.s.fibers[g].handle);
    assert WordOk(L, a);
    if a == b {
      assert L.s.fibers[f].waitList == [g] + L.s.fibers[f].waitList[1..];
    }
  }

  lemma LeaveQueue(L: State, b: Address, a: Address)
    requires Consistent(L) && Allowed(L, Leave(b)) && HasBit(Word(L.s, b)) && Sound(L, Leave(b))
    ensures a == b ==> Queue(L, a) != [] && Queue(After(L, Leave(b)), a) == Queue(L, a)[1..]
    ensures a != b ==> Queue(After(L, Leave(b)), a) == Queue(L, a)
  {
    var f, g := LeavePasses(L, b);
    hide After, Inv, Sound, Passed, Queue, Words, Holders, Frees, Enterings;
    PassedQueue(L, After(L, Leave(b)), f, g, b, a);
  }

  lemma ReleaseQueue(L: State, b: Address, a: Address)
    requires Consistent(L) && Allowed(L, Leave(b)) && !HasBit(Word(L.s, b)) && Sound(L, Leave(b))
    ensures a == b ==> Queue(L, a) != [] && Queue(After(L, Leave(b)), a) == Queue(L, a)[1..]
    ensures a != b ==> Queue(After(L, Leave(b)), a) == Queue(L, a)
  {
    var f := L.s.current[0];
    HolderUnique(L, f, f);
    OwnerFacts(L, b);
  }

  lemma OtherQueue(L: State, l: Label, a: Address)
    requires Consistent(L) && Allowed(L, Other(l)) && Sound(L, Other(l))
    ensures Queue(After(L, Other(l)), a) == Queue(L, a)
  {
    var M := After(L, Other(l));
    OtherSteady(L.s, l);
    hide Next, Inv, Allowed, Sound;
    if Word(L.s, a) != 0 {
      OwnerFacts(L, a);
      assert SteadyFiber(L.s, M.s, OwnerOf(L.s, a).value);
    }
  }

  /** `Enter` and a successful `TryEnter` append the caller to the lock's queue, `Leave` removes its
      head, and nothing else changes it. */
  lemma QueueStep(L: State, act: Act, a: Address)
    requires Consistent(L) && Allowed(L, act) && Sound(L, act)
    ensures act == Leave(a) ==> Queue(L, a) != [] && Queue(After(L, act), a) == Queue(L, a)[1..]
    ensures act != Leave(a) ==> Queue(After(L, act), a) == Queue(L, a) + Arrival(L, act, a)
  {
    hide Consistent, Queue;
    match act
    case Enter(b) =>
      if Word(L.s, b) != 0 { EnterQueue(L, b, a); } else { AcquireQueue(L, b, a); }
    case TryEnter(b) =>
      if Word(L.s, b) == 0 { AcquireQueue(L, b, a); }
    case Leave(b) =>
      if HasBit(Word(L.s, b)) { LeaveQueue(L, b, a); } else { ReleaseQueue(L, b, a); }
    case Other(l) => OtherQueue(L, l, a);
  }

  // Whole runs.

  ghost predicate Start(L: State) {
    Init(L.s) && L.s.cores == {0} && L.holds == map[] && L.entering == map[]
  }

  ghost predicate ActStep(L: State, act: Act, M: State) {
    Allowed(L, act) && Sound(L, act) && M == After(L, act)
  }

  /** A run on one core in which no fiber enters a second critical section. */
  ghost predicate LockRun(states: seq<State>, acts: seq<Act>) {
    && |states| == |acts| + 1 && Start(states[0])
    && forall i | 0 <= i < |acts| :: ActStep(states[i], acts[i], states[i + 1])
  }

  lemma StartConsistent(L: State)
    requires Start(L)
    ensures Consistent(L)
  {
    InitInv(L.s);
    hide Lists, WaitsOk, FibersOk;
    assert Word(L.s, 0) == 0;
  }

  /** In every run the lock words say exactly who holds each lock and whether others wait for it. */
  lemma {:induction false} RunConsistent(states: seq<State>, acts: seq<Act>, i: nat)
    requires LockRun(states, acts) && i < |states|
    ensures Consistent(states[i])
  {
    hide Consistent, Start, Allowed, Sound, After;
    if i == 0 {
      StartConsistent(states[0]);
    } else {
      RunConsistent(states, acts, i - 1);
      assert ActStep(states[i - 1], acts[i - 1], states[i]);
      ActKeeps(states[i - 1], acts[i - 1]);
    }
  }

  /** A run can always go on: no allowed act aborts or touches memory that is not there. */
  lemma RunNeverAborts(states: seq<State>, acts: seq<Act>, act: Act)
    requires LockRun(states, acts) && Allowed(states[|acts|], act)
    ensures Sound(states[|acts|], act)
  {
    hide Consistent, Start, Allowed, Sound;
    RunConsistent(states, acts, |acts|);
    ActsAreSound(states[|acts|], act);
  }

  /** At most one fiber is between `Enter` and `Leave` of a lock, and the lock word names it. */
  lemma LockExcludes(states: seq<State>, acts: seq<Act>, i: nat, f: Slot, g: Slot)
    requires LockRun(states, acts) && i < |states| && f in states[i].holds && g in states[i].holds
             && states[i].holds[f] == states[i].holds[g]
    ensures f == g && f in states[i].s.fibers && Word(states[i].s, states[i].holds[f]) != 0
    ensures ClearBit(Word(states[i].s, states[i].holds[f])) == states[i].s.fibers[f].handle
    ensures HasBit(Word(states[i].s, states[i].holds[f])) <==> states[i].s.fibers[f].waitList != []
  {
    RunConsistent(states, acts, i);
    hide LockRun;
    HolderUnique(states[i], f, g);
    OwnerFacts(states[i], states[i].holds[f]);
  }

  /** The act dispatches `f`, which has switched away inside `Enter`. */
  ghost predicate ResumedInEnter(L: State, act: Act, f: Slot) {
    act.Other? && Dispatched(L.s, act.l) == Some(f) && f in L.entering
  }

  /** A fiber dispatched again inside `Enter` has been given the lock: it finds the result success, so it
      does not abort, and its own handle in the lock word, so it leaves the loop. */
  lemma EnterReturnsOwner(states: seq<State>, acts: seq<Act>, i: nat, f: Slot)
    requires LockRun(states, acts) && i < |acts| && ResumedInEnter(states[i], acts[i], f)
    ensures var a, M := states[i].entering[f], states[i + 1];
            && f in M.holds && M.holds[f] == a && 0 in M.s.current && M.s.current[0] == f && f in M.s.fibers
            && M.s.fibers[f].lastResult == Success && ClearBit(Word(M.s, a)) == M.s.fibers[f].handle
  {
    RunConsistent(states, acts, i);
    assert ActStep(states[i], acts[i], states[i + 1]);
    hide LockRun, Start;
    ResumedOwns(states[i], acts[i], f);
  }

  lemma ResumedOwns(L: State, act: Act, f: Slot)
    requires Consistent(L) && Allowed(L, act) && Sound(L, act) && ResumedInEnter(L, act, f)
    ensures var a, M := L.entering[f], After(L, act);
            && f in M.holds && M.holds[f] == a && 0 in M.s.current && M.s.current[0] == f && f in M.s.fibers
            && M.s.fibers[f].lastResult == Success && ClearBit(Word(M.s, a)) == M.s.fibers[f].handle
  {
    PickedFiber(L.s, act.l.core);
    assert EnteringOk(L, f);
    HolderUnique(L, f, f);
    OwnerFacts(L, L.holds[f]);
    hide Lists, WaitsOk, FibersOk, Pick, Without;
  }

  /** The fibers that joined the queue of `a` from step `i` up to step `j`, in order. */
  ghost function Arrivals(states: seq<State>, acts: seq<Act>, a: Address, i: nat, j: nat): seq<Slot>
    requires LockRun(states, acts) && i <= j <= |acts|
    decreases j
  {
    if i == j then []
    else
      assert ActStep(states[j - 1], acts[j - 1], states[j]);
      Arrivals(states, acts, a, i, j - 1) + Arrival(states[j - 1], acts[j - 1], a)
  }

  /** How often `a` was left from step `i` up to step `j`. */
  ghost function Leaves(acts: seq<Act>, a: Address, i: nat, j: nat): nat
    requires i <= j <= |acts|
    decreases j
  {
    if i == j then 0 else Leaves(acts, a, i, j - 1) + if acts[j - 1] == Leave(a) then 1 else 0
  }

  /** First come, first served: over any stretch of a run the queue of a lock is what it was, plus the
      arrivals, minus one from the front for each `Leave`. */
  lemma {:induction false} QueueLaw(states: seq<State>, acts: seq<Act>, a: Address, i: nat, j: nat)
    requires LockRun(states, acts) && i <= j <= |acts|
    ensures var all, n := Queue(states[i], a) + Arrivals(states, acts, a, i, j), Leaves(acts, a, i, j);
            n <= |all| && Queue(states[j], a) == all[n..]
    decreases j
  {
    hide Consistent, Start, Sound, After, Queue, Allowed, Arrival;
    if i < j {
      QueueLaw(states, acts, a, i, j - 1);
      RunConsistent(states, acts, j - 1);
      assert ActStep(states[j - 1], acts[j - 1], states[j]);
      QueueStep(states[j - 1], acts[j - 1], a);
      var before := Queue(states[i], a) + Arrivals(states, acts, a, i, j - 1);
      assert acts[j - 1] == Leave(a) ==> Arrival(states[j - 1], acts[j - 1], a) == [] by {
        LeaveBringsNobody(states[j - 1], a);
      }
      assert Queue(states[i], a) + Arrivals(states, acts, a, i, j) == before + Arrival(states[j - 1], acts[j - 1], a);
    } else {
      assert Queue(states[i], a) + [] == Queue(states[i], a);
    }
  }

  lemma LeaveBringsNobody(L: State, a: Address)
    ensures Allowed(L, Leave(a)) ==> Arrival(L, Leave(a), a) == []
  {
  }

  /** The fiber at position `k` of a lock's queue has moved up by one for each `Leave`, and holds the
      lock after exactly `k` of them. */
  lemma WaiterServedInTurn(states: seq<State>, acts: seq<Act>, a: Address, i: nat, j: nat, k: nat)
    requires LockRun(states, acts) && i <= j <= |acts| && k < |Queue(states[i], a)| && Leaves(acts, a, i, j) <= k
    ensures var f, n := Queue(states[i], a)[k], Leaves(acts, a, i, j);
            && k - n < |Queue(states[j], a)| && Queue(states[j], a)[k - n] == f
            && (f in states[j].holds && states[j].holds[f] == a <==> n == k)
  {
    hide Queue, Leaves, Consistent, Start, ActStep, Arrivals;
    QueueLaw(states, acts, a, i, j);
    RunConsistent(states, acts, j);
    hide LockRun;
    QueueHead(states[j], a, k - Leaves(acts, a, i, j));
  }

  /** Only the head of a lock's queue holds it. */
  lemma QueueHead(L: State, a: Address, k: nat)
    requires Consistent(L) && k < |Queue(L, a)|
    ensures var f := Queue(L, a)[k]; f in L.holds && L.holds[f] == a <==> k == 0
  {
    OwnerFacts(L, a);
    var o := OwnerOf(L.s, a).value;
    hide Lists, WaitsOk, FibersOk;
    if 0 < k {
      var g := L.s.fibers[o].waitList[k - 1];
      assert WaiterOk(L, g, a);
      assert g in L.holds ==> HolderOk(L, g);
    }
  }
}
