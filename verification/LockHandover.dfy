/** A run in which a lock is contended and handed over: the main fiber holds lock 7 when fiber 1 enters,
    and fiber 1 is resumed as the holder.
 */
module LockHandover {
  import opened Wrappers
  import opened Scheduler
  import opened SchedulerRuns
  import opened CriticalSection

  const HELD: nat := 0x80ff
  const NEXT: nat := 0x100fe

  /** The main fiber `m` and fiber `b`, both of normal priority, on one core. */
  ghost function Pair(m: Fiber, b: Fiber, queue: seq<Slot>, parked: seq<Slot>, current: map<nat, Slot>,
      words: map<Address, nat>, now: nat, booted: bool): Sched
  {
    Sched(map[MAIN := m, 1 := b], [[], [], queue, [], []], parked, current, map[HELD := MAIN, NEXT := 1], words, {0},
          now, booted)
  }

  ghost function Alone(): Sched {
    Sched(map[MAIN := MainFiber(HELD)], [[], [], [], [], []], [], map[0 := MAIN], map[HELD := MAIN], map[], {0}, 0,
          false)
  }

  /** The records of fiber 1: created, queued, running, waiting for lock 7. */
  ghost function Created(): Fiber { NewFiber(0, 0, NEXT) }

  ghost function Started(): Fiber { Created().(activity := Schedulable, state := Scheduled) }

  ghost function Entering(): Fiber { Started().(state := Running) }

  ghost function Blocked(): Fiber {
    Entering().(waitable := true, lockAddress := Some(7), waitTag := NEXT, state := Waiting)
  }

  /** The records of the main fiber: running, queued, the same with fiber 1 waiting. */
  ghost function Main(): Fiber { MainFiber(HELD) }

  ghost function MainQueued(): Fiber { Main().(state := Scheduled) }

  ghost predicate Goes(L: State, act: Act, M: State) {
    ActStep(L, act, M) && Consistent(M)
  }

  lemma Acted(L: State, act: Act) returns (M: State)
    requires Consistent(L) && Allowed(L, act)
    ensures Goes(L, act, M) && Sound(L, act) && M == After(L, act)
  {
    ActKeeps(L, act);
    M := After(L, act);
  }

  ghost function L0(): State { State(Alone(), map[], map[]) }

  ghost function L1(): State { State(Pair(Main(), Created(), [], [1], map[0 := MAIN], map[], 0, false), map[], map[]) }

  ghost function L2(): State { State(Pair(Main(), Started(), [1], [], map[0 := MAIN], map[], 0, false), map[], map[]) }

  ghost function L3(): State { State(Pair(Main(), Started(), [1], [], map[0 := MAIN], map[], 1, false), map[], map[]) }

  ghost function L4(): State {
    State(Pair(Main(), Started(), [1], [], map[0 := MAIN], map[7 := HELD], 1, false), map[MAIN := 7], map[])
  }

  ghost function L5(): State {
    State(Pair(MainQueued(), Started(), [1, 0], [], map[], map[7 := HELD], 1, true), map[MAIN := 7], map[])
  }

  ghost function L6(): State {
    State(Pair(MainQueued(), Entering(), [0], [], map[0 := 1], map[7 := HELD], 1, true), map[MAIN := 7], map[])
  }

  ghost function L7(): State {
    State(Pair(MainQueued().(waitList := [1]), Blocked(), [0], [1], map[], map[7 := WithBit(HELD)], 1, true),
          map[MAIN := 7], map[1 := 7])
  }

  ghost function L8(): State {
    State(Pair(Main().(waitList := [1]), Blocked(), [], [1], map[0 := MAIN], map[7 := WithBit(HELD)], 1, true),
          map[MAIN := 7], map[1 := 7])
  }

  ghost function L9(): State {
    State(Pair(Main(), Started(), [1], [], map[0 := MAIN], map[7 := NEXT], 1, true), map[1 := 7], map[1 := 7])
  }

  ghost function L10(): State {
    State(Pair(MainQueued(), Started(), [1, 0], [], map[], map[7 := NEXT], 1, true), map[1 := 7], map[1 := 7])
  }

  ghost function L11(): State {
    State(Pair(MainQueued(), Entering(), [0], [], map[0 := 1], map[7 := NEXT], 1, true), map[1 := 7], map[])
  }

  lemma Without01()
    ensures Without([], 1) == [] && Without([1], 1) == [] && Without([0], 1) == [0] && Without([1, 0], 1) == [0]
    ensures Without([], 0) == [] && Without([0], 0) == [] && Without([1], 0) == [1]
  {
    assert [1, 0][1..] == [0];
  }

  /** Taking a fiber out of the lists of a pair. */
  lemma PairUnlink(s: Sched, queue: seq<Slot>, f: Slot)
    requires s.queues == [[], [], queue, [], []]
    ensures Unlink(s, f) == s.(queues := [[], [], Without(queue, f), [], []], suspended := Without(s.suspended, f))
  {
    assert Without([], f) == [];
    assert Unlink(s, f).queues == [[], [], Without(queue, f), [], []];
  }

  /** Queueing a schedulable fiber of a pair. */
  lemma PairAdd(s: Sched, queue: seq<Slot>, f: Slot)
    requires s.queues == [[], [], queue, [], []] && f in s.fibers
    requires s.fibers[f].activity == Schedulable && s.fibers[f].priority == 2
    ensures AddToScheduler(s, f) ==
            s.(fibers := s.fibers[f := s.fibers[f].(state := Scheduled)], queues := [[], [], queue + [f], [], []])
  {
    assert AddToScheduler(s, f).queues == [[], [], queue + [f], [], []];
  }

  lemma PairPick(s: Sched, queue: seq<Slot>)
    requires s.queues == [[], [], queue, [], []] && queue != [] && queue[0] in s.fibers && IsSchedulable(s, queue[0], 0)
    ensures Pick(s, 0) == Some(queue[0])
  {
    assert FirstSchedulable(s, queue, 0) == Some(queue[0]);
    assert PickFrom(s, 0, 3) == Some(queue[0]) && PickFrom(s, 0, 4) == Some(queue[0]);
    assert PickFrom(s, 0, 5) == Some(queue[0]);
  }

  lemma Step1()
    requires Consistent(L0())
    ensures Goes(L0(), Other(CreateThread(1, NEXT, 0, 0)), L1())
  {
    hide Consistent, Sound;
    var M := Acted(L0(), Other(CreateThread(1, NEXT, 0, 0)));
    assert M.s == L1().s;
  }

  lemma Step2()
    requires Consistent(L1())
    ensures Goes(L1(), Other(ChangeActivity(1, Schedulable)), L2())
  {
    hide Consistent, Unlink, Sound, AddToScheduler;
    var M := Acted(L1(), Other(ChangeActivity(1, Schedulable)));
    var t := SetFiber(L1().s, 1, Created().(activity := Schedulable));
    PairUnlink(t, [], 1);
    Without01();
    PairAdd(Unlink(t, 1), [], 1);
    assert [] + [1] == [1];
    assert M.s == L2().s;
  }

  lemma Step3()
    requires Consistent(L2())
    ensures Goes(L2(), Other(Tick(1)), L3())
  {
    hide Consistent, Sound;
    var M := Acted(L2(), Other(Tick(1)));
  }

  lemma Step4()
    requires Consistent(L3())
    ensures Goes(L3(), Enter(7), L4())
  {
    hide Consistent, Sound, ArbitrateLock;
    var M := Acted(L3(), Enter(7));
  }

  lemma Step5()
    requires Consistent(L4())
    ensures Goes(L4(), Other(Pause(0, 0)), L5())
  {
    hide Consistent, Sound, AddToScheduler;
    var M := Acted(L4(), Other(Pause(0, 0)));
    PairAdd(L4().s.(current := map[0 := MAIN] - {0}, booted := true), [1], MAIN);
    assert [1] + [0] == [1, 0];
    assert M.s == L5().s;
  }

  lemma Step6()
    requires Consistent(L5())
    ensures Goes(L5(), Other(Run(0)), L6())
  {
    hide Consistent, Sound, Pick, Unlink;
    PairPick(L5().s, [1, 0]);
    var M := Acted(L5(), Other(Run(0)));
    PairUnlink(SetFiber(L5().s, 1, Entering()), [1, 0], 1);
    Without01();
    assert M.s == L6().s;
  }

  /** The wait of fiber 1 in state `L6`. */
  lemma Waited()
    ensures ArbitrateLock(StoreWord(L6().s, 7, WithBit(HELD)), 0, HELD, 7, NEXT) == L7().s
  {
    hide Unlink;
    var s := StoreWord(L6().s, 7, WithBit(HELD));
    var t := SetFiber(s, 1, Blocked());
    var u := SetFiber(t, MAIN, MainQueued().(waitList := [1]));
    PairUnlink(u, [0], 1);
    Without01();
    assert [] + [1] == [1];
    assert Unlink(u, 1) == u;
  }

  lemma Step7()
    requires Consistent(L6())
    ensures Goes(L6(), Enter(7), L7())
  {
    hide Consistent, Sound, ArbitrateLock;
    var M := Acted(L6(), Enter(7));
    assert ClearBit(HELD) == HELD;
    Waited();
  }

  lemma Step8()
    requires Consistent(L7())
    ensures Goes(L7(), Other(Run(0)), L8())
  {
    hide Consistent, Sound, Pick, Unlink;
    PairPick(L7().s, [0]);
    var M := Acted(L7(), Other(Run(0)));
    PairUnlink(SetFiber(L7().s, MAIN, Main().(waitList := [1])), [0], MAIN);
    Without01();
    assert M.entering == L8().entering;
    assert M.s == L8().s;
  }

  /** Fiber 1 with the lock passed to it, still in the suspended list. */
  ghost function Passing(): Sched {
    Pair(Main(), Blocked().(lockAddress := None, waitTag := 0), [], [1], map[0 := MAIN], map[7 := NEXT], 1, true)
  }

  lemma Woken()
    ensures EndWait(Passing(), 1, Success) == L9().s
  {
    hide Unlink, AddToScheduler;
    var v := Passing();
    PairUnlink(v, [], 1);
    Without01();
    var w := SetFiber(Unlink(v, 1), 1, v.fibers[1].(state := Scheduled, lastResult := Success));
    PairAdd(w, [], 1);
    assert [] + [1] == [1];
  }

  lemma Released()
    ensures ReleaseLock(L8().s, MAIN) == EndWait(Passing(), 1, Success)
  {
    hide EndWait;
    var s := L8().s;
    var u := SetFiber(s.(words := s.words[7 := NEXT]), MAIN, Main());
    assert [1][1..] == [] && [] + [] == Blocked().waitList;
    assert Passing() == SetFiber(u, 1, Blocked().(lockAddress := None, waitTag := 0));
  }

  lemma Step9()
    requires Consistent(L8())
    ensures Goes(L8(), Leave(7), L9())
  {
    hide Consistent, Sound, ReleaseLock;
    var M := Acted(L8(), Leave(7));
    Released();
    Woken();
    hide EndWait;
    assert HasBit(WithBit(HELD));
    assert M.holds == L9().holds;
  }

  lemma Step10()
    requires Consistent(L9())
    ensures Goes(L9(), Other(Pause(0, 0)), L10())
  {
    hide Consistent, Sound, AddToScheduler;
    var M := Acted(L9(), Other(Pause(0, 0)));
    PairAdd(L9().s.(current := map[0 := MAIN] - {0}, booted := true), [1], MAIN);
    assert [1] + [0] == [1, 0];
    assert M.s == L10().s;
  }

  lemma Step11()
    requires Consistent(L10())
    ensures Goes(L10(), Other(Run(0)), L11()) && ResumedInEnter(L10(), Other(Run(0)), 1)
  {
    hide Consistent, Sound, Pick, Unlink;
    PairPick(L10().s, [1, 0]);
    var M := Acted(L10(), Other(Run(0)));
    PairUnlink(SetFiber(L10().s, 1, Entering()), [1, 0], 1);
    Without01();
    assert M.s == L11().s;
  }

  lemma Step0()
    ensures Start(L0()) && Consistent(L0())
  {
    StartConsistent(L0());
  }

  /** A contended run from the start: at state 7 fiber 1 is queued behind the main fiber, act 8 hands the
      lock over, and act 10 resumes fiber 1 inside `Enter`. */
  lemma HandoverHappens() returns (states: seq<State>, acts: seq<Act>)
    ensures |acts| == 11 && LockRun(states, acts)
    ensures acts[6] == Enter(7) && Word(states[6].s, 7) != 0 && Queue(states[7], 7) == [0, 1]
    ensures acts[8] == Leave(7) && Queue(states[9], 7) == [1] && ResumedInEnter(states[10], acts[10], 1)
  {
    hide Start, Consistent, ActStep, ResumedInEnter;
    Step0();
    Step1();
    Step2();
    Step3();
    Step4();
    Step5();
    Step6();
    Step7();
    Step8();
    Step9();
    Step10();
    Step11();
    HandoverQueues();
    hide L0, L1, L2, L3, L4, L5, L6, L7, L8, L9, L10, L11;
    states := [L0(), L1(), L2(), L3(), L4(), L5(), L6(), L7(), L8(), L9(), L10(), L11()];
    acts := [Other(CreateThread(1, NEXT, 0, 0)), Other(ChangeActivity(1, Schedulable)), Other(Tick(1)), Enter(7),
             Other(Pause(0, 0)), Other(Run(0)), Enter(7), Other(Run(0)), Leave(7), Other(Pause(0, 0)), Other(Run(0))];
  }

  lemma HandoverQueues()
    ensures Word(L6().s, 7) != 0 && Queue(L7(), 7) == [0, 1] && Queue(L9(), 7) == [1]
  {
    assert ClearBit(WithBit(HELD)) == HELD && ClearBit(NEXT) == NEXT;
  }
}
