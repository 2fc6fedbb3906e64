/** The critical section on several cores, at the level of single accesses to the lock word.

    `Enter` reads the word by compare-exchange and sets the waiter bit by a separate access; `Leave` tests
    the bit and stores 0 by separate accesses.  On one core these make one step.  On two cores the owner
    can free the lock between the accesses of an `Enter`, which then sets the bit on a free lock.
 */
module LockRace {
  import opened Wrappers
  import opened Scheduler
  import opened SchedulerRuns
  import opened SchedulerBoot

  /** Where a fiber is: not in the lock; in `Enter`, having seen a word without the bit; about to ask to
      wait for the fiber with that handle; switched away; between `Enter` and `Leave`; in `Leave`, having
      found the bit clear; or aborted. */
  datatype Pc = Outside | Saw(word: nat) | Asks(handle: nat) | Waits | Inside | Frees | Aborted

  datatype State = State(s: Sched, pcs: map<Slot, Pc>)

  datatype Access =
    | CompareExchange(f: Slot)
    | SetBit(f: Slot)
    | Arbitrate(f: Slot)
    | TestBit(f: Slot)
    | StoreZero(f: Slot)
    | Elsewhere

  ghost predicate OnCore(s: Sched, f: Slot) {
    f in s.fibers && s.fibers[f].currentCore in s.current && s.current[s.fibers[f].currentCore] == f
  }

  function Store(L: State, a: Address, word: nat, f: Slot, pc: Pc): State {
    State(L.s.(words := L.s.words[a := word]), L.pcs[f := pc])
  }

  /** One access to the lock `a` by a fiber that is on a core.  `Elsewhere` is anything that leaves this
      lock and the fibers' places in it alone; no fiber ever has the handle 0.  The hand-over by a `Leave`
      that finds the bit set, and the resumption of the fiber handed to, are the subject of
      `CriticalSection`; they need a fiber inside the lock, or waiting for it. */
  ghost predicate Step(a: Address, L: State, x: Access, M: State) {
    var w := Word(L.s, a);
    if x.Elsewhere? then M.pcs == L.pcs && Word(M.s, a) == w && (0 !in L.s.handles ==> 0 !in M.s.handles)
    else
      && OnCore(L.s, x.f) && x.f in L.pcs && (forall h | h in L.s.handles :: L.s.handles[h] in L.s.fibers)
      && var f, b := x.f, L.s.fibers[x.f];
         match x
         case CompareExchange(_) =>
           && L.pcs[f] == Outside
           && M == if w == 0 then Store(L, a, b.handle, f, Inside)
                   else L.(pcs := L.pcs[f := if HasBit(w) then Asks(ClearBit(w)) else Saw(w)])
         case SetBit(_) =>
           && L.pcs[f].Saw?
           && M == Store(L, a, WithBit(w), f, if w == L.pcs[f].word then Asks(w) else Outside)
         case Arbitrate(_) =>
           && L.pcs[f].Asks?
           && var h := L.pcs[f].handle;
              M == if LockCheck(L.s, f, h, a) != Success then L.(pcs := L.pcs[f := Aborted])
                   else State(ArbitrateLock(L.s, b.currentCore, h, a, b.handle), L.pcs[f := Waits])
         case TestBit(_) =>
           && L.pcs[f] == Inside && !HasBit(w)
           && M == L.(pcs := L.pcs[f := Frees])
         case StoreZero(_) =>
           && L.pcs[f] == Frees
           && M == Store(L, a, 0, f, Outside)
  }

  /** What each access does to the fiber and the word, in fields: the word 0 is taken; a word without the
      bit is noted, one with it asks for its owner; the bit is set, and the owner asked for if the word is
      still the one noted; asking is refused, and aborts, exactly for an unknown handle, the fiber's own, or
      a word that is not that handle with the bit; leaving without waiters stores 0. */
  lemma AccessLaw(a: Address, L: State, x: Access, M: State)
    requires Step(a, L, x, M) && !x.Elsewhere?
    ensures x.f in L.pcs && x.f in M.pcs && x.f in L.s.fibers
    ensures forall g | g in L.pcs && g != x.f :: g in M.pcs && M.pcs[g] == L.pcs[g]
    ensures !x.Arbitrate? ==> M.s == L.s.(words := M.s.words)
    ensures var w, w', pc, pc' := Word(L.s, a), Word(M.s, a), L.pcs[x.f], M.pcs[x.f];
            match x
            case CompareExchange(f) =>
              && pc == Outside && w' == (if w == 0 then L.s.fibers[f].handle else w)
              && pc' == if w == 0 then Inside else if HasBit(w) then Asks(ClearBit(w)) else Saw(w)
            case SetBit(_) => pc.Saw? && w' == WithBit(w) && pc' == if w == pc.word then Asks(w) else Outside
            case Arbitrate(f) =>
              && pc.Asks? && w' == w
              && (pc' == Aborted <==>
                    pc.handle !in L.s.handles || L.s.handles[pc.handle] == f || w != WithBit(pc.handle))
              && (pc' == Aborted ==> M.s == L.s)
              && (pc' != Aborted ==>
                    && pc' == Waits && (forall h | h in L.s.handles :: L.s.handles[h] in L.s.fibers)
                    && var b := L.s.fibers[f];
                       && b.currentCore in L.s.current && L.s.current[b.currentCore] in L.s.fibers
                       && M.s == ArbitrateLock(L.s, b.currentCore, pc.handle, a, b.handle))
            case TestBit(_) => pc == Inside && !HasBit(w) && pc' == Frees && w' == w
            case StoreZero(_) => pc == Frees && pc' == Outside && w' == 0
  {
  }

  ghost predicate IsRun(a: Address, states: seq<State>, accesses: seq<Access>) {
    && |states| == |accesses| + 1
    && forall i | 0 <= i < |accesses| :: Step(a, states[i], accesses[i], states[i + 1])
  }

  /** The lock word is the bare waiter bit and nobody is in the lock. */
  ghost predicate Dead(a: Address, L: State) {
    && Word(L.s, a) == WAITERS_BIT && 0 !in L.s.handles
    && forall f | f in L.pcs :: DeadPc(L.pcs[f])
  }

  ghost predicate DeadPc(pc: Pc) {
    match pc
    case Outside => true
    case Saw(word) => !HasBit(word)
    case Asks(handle) => !HasBit(handle)
    case Aborted => true
    case _ => false
  }

  lemma BareBit()
    ensures HasBit(WAITERS_BIT) && ClearBit(WAITERS_BIT) == 0 && WithBit(WAITERS_BIT) == WAITERS_BIT && !HasBit(0)
  {
  }

  /** A dead lock stays dead, and whoever asks to wait for it aborts. */
  lemma DeadStep(a: Address, L: State, x: Access, M: State)
    requires Dead(a, L) && Step(a, L, x, M)
    ensures Dead(a, M) && (x.Arbitrate? ==> M.pcs[x.f] == Aborted)
  {
    BareBit();
    if x.Arbitrate? {
      assert DeadPc(L.pcs[x.f]);
      var h := L.pcs[x.f].handle;
      assert WithBit(h) == h + WAITERS_BIT;
      assert LockCheck(L.s, x.f, h, a) != Success;
    }
    if !x.Elsewhere? {
      assert DeadPc(L.pcs[x.f]);
      assert DeadPc(M.pcs[x.f]);
    }
  }

  /** In every run from a dead lock on, the lock is dead: no fiber ever enters it, and none ever waits. */
  lemma {:induction false} DeadForever(a: Address, states: seq<State>, accesses: seq<Access>, i: nat)
    requires IsRun(a, states, accesses) && Dead(a, states[0]) && i < |states|
    ensures Dead(a, states[i])
  {
    hide Dead, Step;
    if i != 0 {
      DeadForever(a, states, accesses, i - 1);
      DeadStep(a, states[i - 1], accesses[i - 1], states[i]);
    }
  }

  /** Setting the bit kills the lock exactly if the owner has freed it since the word was read and nobody
      else is in it. */
  lemma SetBitKillsIff(a: Address, L: State, f: Slot, M: State)
    requires Step(a, L, SetBit(f), M) && 0 !in L.s.handles && Word(L.s, a) != WAITERS_BIT
    ensures Dead(a, M) <==> Word(L.s, a) == 0 && forall g | g in L.pcs && g != f :: DeadPc(L.pcs[g])
  {
    BareBit();
    assert WithBit(Word(L.s, a)) == WAITERS_BIT <==> Word(L.s, a) == 0;
    assert Word(L.s, a) == 0 ==> DeadPc(M.pcs[f]);
    assert forall g | g in L.pcs && g != f :: M.pcs[g] == L.pcs[g];
  }

  /** The scheduler `s` with the lock word at `a`, the main fiber at `p` and fiber 1 at `q`. */
  ghost function Racing(s: Sched, a: Address, word: nat, p: Pc, q: Pc): State {
    State(s.(words := map[a := word]), map[MAIN := p, 1 := q])
  }

  ghost predicate TwoRunning(s: Sched) {
    && OnCore(s, MAIN) && OnCore(s, 1) && s.fibers[MAIN].handle == 0x80ff
    && 0 !in s.handles && forall h | h in s.handles :: s.handles[h] in s.fibers
  }

  lemma RaceTakes(s: Sched, a: Address)
    requires TwoRunning(s)
    ensures Step(a, Racing(s, a, 0, Outside, Outside), CompareExchange(MAIN), Racing(s, a, 0x80ff, Inside, Outside))
  {
    hide ArbitrateLock;
    var L, M := Racing(s, a, 0, Outside, Outside), Racing(s, a, 0x80ff, Inside, Outside);
    assert M.s.words == L.s.words[a := Word(M.s, a)];
    assert M.pcs == L.pcs[CompareExchange(MAIN).f := M.pcs[CompareExchange(MAIN).f]];
  }

  lemma RaceSees(s: Sched, a: Address)
    requires TwoRunning(s)
    ensures Step(a, Racing(s, a, 0x80ff, Inside, Outside), CompareExchange(1),
                 Racing(s, a, 0x80ff, Inside, Saw(0x80ff)))
  {
    hide ArbitrateLock;
    var L, M := Racing(s, a, 0x80ff, Inside, Outside), Racing(s, a, 0x80ff, Inside, Saw(0x80ff));
    assert !HasBit(0x80ff);
    assert M.pcs == L.pcs[CompareExchange(1).f := M.pcs[CompareExchange(1).f]];
  }

  lemma RaceTests(s: Sched, a: Address)
    requires TwoRunning(s)
    ensures Step(a, Racing(s, a, 0x80ff, Inside, Saw(0x80ff)), TestBit(MAIN), Racing(s, a, 0x80ff, Frees, Saw(0x80ff)))
  {
    hide ArbitrateLock;
    var L, M := Racing(s, a, 0x80ff, Inside, Saw(0x80ff)), Racing(s, a, 0x80ff, Frees, Saw(0x80ff));
    assert !HasBit(0x80ff);
    assert M.pcs == L.pcs[TestBit(MAIN).f := M.pcs[TestBit(MAIN).f]];
  }

  lemma RaceFrees(s: Sched, a: Address)
    requires TwoRunning(s)
    ensures Step(a, Racing(s, a, 0x80ff, Frees, Saw(0x80ff)), StoreZero(MAIN), Racing(s, a, 0, Outside, Saw(0x80ff)))
  {
    hide ArbitrateLock;
    var L, M := Racing(s, a, 0x80ff, Frees, Saw(0x80ff)), Racing(s, a, 0, Outside, Saw(0x80ff));
    assert M.s.words == L.s.words[a := Word(M.s, a)];
    assert M.pcs == L.pcs[StoreZero(MAIN).f := M.pcs[StoreZero(MAIN).f]];
  }

  lemma RaceSetsBit(s: Sched, a: Address)
    requires TwoRunning(s)
    ensures Step(a, Racing(s, a, 0, Outside, Saw(0x80ff)), SetBit(1), Racing(s, a, WAITERS_BIT, Outside, Outside))
  {
    hide ArbitrateLock;
    var L, M := Racing(s, a, 0, Outside, Saw(0x80ff)), Racing(s, a, WAITERS_BIT, Outside, Outside);
    assert WithBit(0) == WAITERS_BIT;
    assert M.s.words == L.s.words[a := Word(M.s, a)];
    assert M.pcs == L.pcs[SetBit(1).f := M.pcs[SetBit(1).f]];
  }

  lemma RaceReadsBit(s: Sched, a: Address)
    requires TwoRunning(s)
    ensures Step(a, Racing(s, a, WAITERS_BIT, Outside, Outside), CompareExchange(1),
                 Racing(s, a, WAITERS_BIT, Outside, Asks(0)))
  {
    hide ArbitrateLock;
    var L, M := Racing(s, a, WAITERS_BIT, Outside, Outside), Racing(s, a, WAITERS_BIT, Outside, Asks(0));
    BareBit();
    assert M.pcs == L.pcs[CompareExchange(1).f := M.pcs[CompareExchange(1).f]];
  }

  lemma RaceAsks(s: Sched, a: Address)
    requires TwoRunning(s)
    ensures Step(a, Racing(s, a, WAITERS_BIT, Outside, Asks(0)), Arbitrate(1),
                 Racing(s, a, WAITERS_BIT, Outside, Aborted))
  {
    hide ArbitrateLock;
    var L, M := Racing(s, a, WAITERS_BIT, Outside, Asks(0)), Racing(s, a, WAITERS_BIT, Outside, Aborted);
    assert M.pcs == L.pcs[Arbitrate(1).f := M.pcs[Arbitrate(1).f]];
  }

  lemma RaceDead(s: Sched, a: Address)
    requires TwoRunning(s)
    ensures Dead(a, Racing(s, a, WAITERS_BIT, Outside, Aborted))
  {
  }

  lemma TwoRun() returns (scheds: seq<Sched>, labels: seq<Label>)
    ensures |scheds| == 5 && |labels| == 4 && SchedulerRuns.IsRun(scheds, labels) && BootsFirst(scheds, labels)
    ensures TwoRunning(scheds[4])
  {
    hide SchedulerRuns.IsRun, BootsFirst, GoodNext;
    var b;
    scheds, labels, b := SecondFiberRuns();
  }

  /** Two cores suffice.  The main fiber takes the lock; fiber 1 sees its handle; the main fiber finds the
      bit clear and frees the lock; fiber 1 sets the bit on the free lock, reads the bare bit, asks to wait
      for handle 0, and aborts.  The lock is then dead for good. */
  lemma RaceAborts(a: Address)
    returns (scheds: seq<Sched>, labels: seq<Label>, states: seq<State>, accesses: seq<Access>)
    ensures |scheds| == |labels| + 1 && SchedulerRuns.IsRun(scheds, labels) && BootsFirst(scheds, labels)
    ensures |accesses| == 7 && IsRun(a, states, accesses)
    ensures states[0] == Racing(scheds[|labels|], a, 0, Outside, Outside)
    ensures states[7] == Racing(scheds[|labels|], a, WAITERS_BIT, Outside, Aborted) && Dead(a, states[7])
  {
    hide SchedulerRuns.IsRun, BootsFirst, TwoRunning, Step, Racing, Dead;
    scheds, labels := TwoRun();
    var s := scheds[4];
    RaceTakes(s, a);
    RaceSees(s, a);
    RaceTests(s, a);
    RaceFrees(s, a);
    RaceSetsBit(s, a);
    RaceReadsBit(s, a);
    RaceAsks(s, a);
    RaceDead(s, a);
    states := [Racing(s, a, 0, Outside, Outside), Racing(s, a, 0x80ff, Inside, Outside),
               Racing(s, a, 0x80ff, Inside, Saw(0x80ff)), Racing(s, a, 0x80ff, Frees, Saw(0x80ff)),
               Racing(s, a, 0, Outside, Saw(0x80ff)), Racing(s, a, WAITERS_BIT, Outside, Outside),
               Racing(s, a, WAITERS_BIT, Outside, Asks(0)), Racing(s, a, WAITERS_BIT, Outside, Aborted)];
    accesses := [CompareExchange(MAIN), CompareExchange(1), TestBit(MAIN), StoreZero(MAIN), SetBit(1),
                 CompareExchange(1), Arbitrate(1)];
  }
}
