/** The one step that breaks the scheduler's lists can occur: two cores suffice.
 */
module SchedulerBoot {
  import opened Wrappers
  import opened Scheduler
  import opened SchedulerRuns

  lemma Stepped(s: Sched, l: Label) returns (t: Sched)
    requires Inv(s) && Enabled(s, l) && !BootsWaiting(s, l)
    ensures Step(s, l, t) && Inv(t)
  {
    StepKeepsInv(s, l);
    t := Next(s, l);
  }

  /** The main fiber on core 0, and a fiber `b` in slot 1 that is queued, suspended or on core 1. */
  ghost function TwoFibers(b: Fiber, now: nat): Sched {
    Sched(map[MAIN := MainFiber(0x80ff), 1 := b],
          [[], [], if b.state == Scheduled then [1] else [], [], []],
          if b.state == Suspended then [1] else [],
          if b.state == Running then map[0 := MAIN, 1 := 1] else map[0 := MAIN],
          map[0x80ff := MAIN, 0x100fe := 1], map[], {0, 1}, now, false)
  }

  ghost function Boot(): Sched {
    Sched(map[MAIN := MainFiber(0x80ff)], [[], [], [], [], []], [], map[0 := MAIN], map[0x80ff := MAIN], map[], {0, 1},
        0, false)
  }

  ghost predicate GoodNext(s: Sched, l: Label, t: Sched) {
    Step(s, l, t) && Inv(t) && !BootsWaiting(s, l)
  }

  lemma SecondCreated(b: Fiber)
    requires b == NewFiber(0, 1, 0x100fe) && Inv(Boot())
    ensures GoodNext(Boot(), CreateThread(1, 0x100fe, 0, 1), TwoFibers(b, 0))
  {
    hide Inv;
    var t := Stepped(Boot(), CreateThread(1, 0x100fe, 0, 1));
    assert t == TwoFibers(b, 0);
  }

  lemma SecondStarted(b: Fiber, b': Fiber)
    requires b == NewFiber(0, 1, 0x100fe) && Inv(TwoFibers(b, 0))
             && b' == b.(activity := Schedulable, state := Scheduled)
    ensures GoodNext(TwoFibers(b, 0), ChangeActivity(1, Schedulable), TwoFibers(b', 0))
  {
    hide Inv;
    var s := TwoFibers(b, 0);
    var t := Stepped(s, ChangeActivity(1, Schedulable));
    var u := UnlinkSecond(b);
    hide Unlink;
    assert [] + [1] == [1];
    assert t.queues == [[], [], [1], [], []];
    assert t == TwoFibers(b', 0);
  }

  lemma UnlinkSecond(b: Fiber) returns (u: Sched)
    requires b.state == Suspended
    ensures var s := TwoFibers(b, 0);
            u == Unlink(SetFiber(s, 1, b.(activity := Schedulable)), 1)
            && u == SetFiber(s, 1, b.(activity := Schedulable)).(suspended := []) && u.queues == [[], [], [], [], []]
  {
    u := Unlink(SetFiber(TwoFibers(b, 0), 1, b.(activity := Schedulable)), 1);
    assert Without([1], 1) == [] && Without([], 1) == [];
    assert u.queues == [[], [], [], [], []];
  }

  lemma SecondTicked(b: Fiber)
    requires Inv(TwoFibers(b, 0))
    ensures GoodNext(TwoFibers(b, 0), Tick(1), TwoFibers(b, 1))
  {
    hide Inv;
    var t := Stepped(TwoFibers(b, 0), Tick(1));
  }

  lemma SecondDispatched(b: Fiber, b': Fiber)
    requires b == NewFiber(0, 1, 0x100fe).(activity := Schedulable, state := Scheduled) && Inv(TwoFibers(b, 1))
    requires b' == b.(state := Running, currentCore := 1)
    ensures GoodNext(TwoFibers(b, 1), Run(1), TwoFibers(b', 1))
  {
    hide Inv, Pick, Unlink;
    PickSecond(b);
    var t := Stepped(TwoFibers(b, 1), Run(1));
    UnlinkQueued(SetFiber(TwoFibers(b, 1), 1, b'));
    assert t == TwoFibers(b', 1);
  }

  lemma UnlinkQueued(s: Sched)
    requires s.queues == [[], [], [1], [], []] && s.suspended == []
    ensures Unlink(s, 1) == s.(queues := [[], [], [], [], []])
  {
    assert Without([1], 1) == [] && Without([], 1) == [];
    assert Unlink(s, 1).queues == [[], [], [], [], []];
  }

  lemma GoodRun(states: seq<Sched>, labels: seq<Label>)
    requires |states| == |labels| + 1 && Init(states[0]) && forall i | 0 <= i < |labels| ::
             GoodNext(states[i], labels[i], states[i + 1])
    ensures IsRun(states, labels) && BootsFirst(states, labels)
  {
    hide Init, Step, Inv, BootsWaiting;
    forall i | 0 <= i < |labels|
      ensures Step(states[i], labels[i], states[i + 1]) && !BootsWaiting(states[i], labels[i])
    {
      assert GoodNext(states[i], labels[i], states[i + 1]);
    }
  }

  lemma BootInit()
    ensures Init(Boot()) && Inv(Boot())
  {
    InitInv(Boot());
  }

  lemma SecondFiberRuns() returns (states: seq<Sched>, labels: seq<Label>, b: Fiber)
    ensures |states| == 5 && |labels| == 4 && IsRun(states, labels) && BootsFirst(states, labels)
    ensures b == NewFiber(0, 1, 0x100fe).(activity := Schedulable, state := Running, currentCore := 1)
    ensures GoodNext(states[3], labels[3], states[4]) && states[4] == TwoFibers(b, 1)
  {
    hide Inv, TwoFibers, Boot, BootsWaiting, Step, Init, NewFiber, IsRun, BootsFirst;
    BootInit();
    var b1 := NewFiber(0, 1, 0x100fe);
    var b2 := b1.(activity := Schedulable, state := Scheduled);
    b := b2.(state := Running, currentCore := 1);
    SecondCreated(b1);
    SecondStarted(b1, b2);
    SecondTicked(b2);
    SecondDispatched(b2, b);
    hide GoodNext;
    states := [Boot(), TwoFibers(b1, 0), TwoFibers(b2, 0), TwoFibers(b2, 1), TwoFibers(b, 1)];
    labels := [CreateThread(1, 0x100fe, 0, 1), ChangeActivity(1, Schedulable), Tick(1), Run(1)];
    forall i | 0 <= i < 4 ensures GoodNext(states[i], labels[i], states[i + 1]) {
      assert i == 0 || i == 1 || i == 2 || i == 3;
    }
    GoodRun(states, labels);
  }

  lemma PickSecond(b: Fiber)
    requires b == NewFiber(0, 1, 0x100fe).(activity := Schedulable, state := Scheduled)
    ensures Pick(TwoFibers(b, 1), 1) == Some(1)
  {
    var s := TwoFibers(b, 1);
    assert FirstSchedulable(s, s.queues[2], 1) == Some(1);
    assert PickFrom(s, 1, 3) == Some(1) && PickFrom(s, 1, 4) == Some(1) && PickFrom(s, 1, 5) == Some(1);
  }

  lemma MainWaits(b: Fiber) returns (t: Sched)
    requires b == NewFiber(0, 1, 0x100fe).(activity := Schedulable, state := Running, currentCore := 1)
             && Inv(TwoFibers(b, 1))
    ensures GoodNext(TwoFibers(b, 1), Store(1, WithBit(0x100fe)), t)
    ensures var l := Lock(0, 0x100fe, 1, 0x80ff);
            && Enabled(t, l) && Defined(t, l) && BootsWaiting(t, l)
            && !Inv(Next(t, l))
  {
    hide Inv;
    t := Stepped(TwoFibers(b, 1), Store(1, WithBit(0x100fe)));
    var l := Lock(0, 0x100fe, 1, 0x80ff);
    assert BootsWaiting(t, l);
    StepKeepsInv(t, l);
  }

  lemma LongerRun(states: seq<Sched>, labels: seq<Label>, l: Label, t: Sched)
    requires IsRun(states, labels) && BootsFirst(states, labels) && GoodNext(states[|labels|], l, t)
    ensures IsRun(states + [t], labels + [l]) && BootsFirst(states + [t], labels + [l])
  {
    hide Init, Step, Inv, BootsWaiting;
  }

  /** A fiber created on core 1 takes a lock word; the main fiber then waits for it, as its first switch. */
  lemma BootsWaitingHappens() returns (states: seq<Sched>, labels: seq<Label>, l: Label)
    ensures |states| == |labels| + 1 && IsRun(states, labels) && BootsFirst(states, labels)
    ensures var last := states[|labels|];
            && Enabled(last, l) && Defined(last, l) && BootsWaiting(last, l)
            && !Inv(Next(last, l))
  {
    hide Inv, TwoFibers, BootsWaiting, Step, Init, NewFiber, IsRun, BootsFirst, Enabled, Defined, Next;
    var b;
    states, labels, b := SecondFiberRuns();
    var t := MainWaits(b);
    l := Lock(0, 0x100fe, 1, 0x80ff);
    LongerRun(states, labels, Store(1, WithBit(0x100fe)), t);
    states, labels := states + [t], labels + [Store(1, WithBit(0x100fe))];
  }
}
