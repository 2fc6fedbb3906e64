/** The busy mutex: a 32-bit word holding a 16-bit lock count above a 16-bit release count.

    Threads interleave at the level of single accesses to the word: the atomic add of `Enter`, each
    atomic read of its spin loop, and the separate load and store of the release count in `Leave`.
 */
module BusyMutex {

  const HALF: nat := 0x1_0000

  /** Where a thread is: not in the mutex, in the loop of `Enter`, between `Enter` and `Leave`, or
      between the load and the store of `Leave`. */
  datatype Pc = Outside | Spinning | Inside | Leaving(loaded: nat)

  datatype State = State(release: nat, lock: nat, pcs: seq<Pc>)

  datatype Action = Enter(t: nat) | Spin(t: nat) | LeaveLoad(t: nat) | LeaveStore(t: nat)

  ghost predicate Step(s: State, a: Action, s': State) {
    && a.t < |s.pcs|
    && match a
       case Enter(t) =>
         && s.pcs[t] == Outside
         && s' == State(s.release, (s.lock + 1) % HALF, s.pcs[t := if s.release == s.lock then Inside else Spinning])
       case Spin(t) =>
         && s.pcs[t] == Spinning
         && s' == s.(pcs := s.pcs[t := if s.release == s.lock then Inside else Spinning])
       case LeaveLoad(t) =>
         && s.pcs[t] == Inside
         && s' == s.(pcs := s.pcs[t := Leaving(s.release)])
       case LeaveStore(t) =>
         && s.pcs[t].Leaving?
         && s' == State((s.pcs[t].loaded + 1) % HALF, s.lock, s.pcs[t := Outside])
  }

  ghost predicate Init(s: State) {
    s.release == s.lock == 0 && forall t | 0 <= t < |s.pcs| :: s.pcs[t] == Outside
  }

  ghost predicate Holds(p: Pc) {
    p.Inside? || p.Leaving?
  }

  /** The number of entries outstanding: threads holding the mutex or spinning on it. */
  ghost function Outstanding(pcs: seq<Pc>): nat {
    if pcs == [] then 0 else Outstanding(pcs[..|pcs| - 1]) + if pcs[|pcs| - 1].Outside? then 0 else 1
  }

  lemma {:induction false} OutstandingUpdate(pcs: seq<Pc>, t: nat, p: Pc)
    requires t < |pcs|
    ensures Outstanding(pcs[t := p]) ==
            Outstanding(pcs) - (if pcs[t].Outside? then 0 else 1) + (if p.Outside? then 0 else 1)
  {
    var n := |pcs| - 1;
    if t < n {
      OutstandingUpdate(pcs[..n], t, p);
      assert pcs[t := p][..n] == pcs[..n][t := p];
    } else {
      assert pcs[t := p][..n] == pcs[..n];
    }
  }

  lemma {:induction false} SomeOutstanding(pcs: seq<Pc>, t: nat)
    requires t < |pcs| && !pcs[t].Outside?
    ensures 0 < Outstanding(pcs)
  {
    if t < |pcs| - 1 { SomeOutstanding(pcs[..|pcs| - 1], t); }
  }

  lemma {:induction false} NoneOutstanding(pcs: seq<Pc>)
    requires forall t | 0 <= t < |pcs| :: pcs[t].Outside?
    ensures Outstanding(pcs) == 0
  {
    if pcs != [] { NoneOutstanding(pcs[..|pcs| - 1]); }
  }

  /** The difference of the two counts is the number of outstanding entries, modulo 2^16; at most one
      thread holds the mutex; nobody else changes the release count during a `Leave`. */
  ghost predicate Inv(s: State) {
    && s.release < HALF && s.lock < HALF
    && s.lock == (s.release + Outstanding(s.pcs)) % HALF
    && (forall t, u | 0 <= t < |s.pcs| && 0 <= u < |s.pcs| && Holds(s.pcs[t]) && Holds(s.pcs[u]) :: t == u)
    && (forall t | 0 <= t < |s.pcs| && s.pcs[t].Leaving? :: s.pcs[t].loaded == s.release)
  }

  lemma InitInv(s: State)
    requires Init(s)
    ensures Inv(s)
  {
    NoneOutstanding(s.pcs);
  }

  /** While fewer than 2^16 entries are outstanding, the counts agree exactly when none is. */
  lemma CountsAgree(s: State)
    requires Inv(s) && Outstanding(s.pcs) < HALF
    ensures s.release == s.lock <==> Outstanding(s.pcs) == 0
    ensures s.release == s.lock ==> forall t | 0 <= t < |s.pcs| :: s.pcs[t].Outside?
  {
    if s.release == s.lock {
      forall t | 0 <= t < |s.pcs| ensures s.pcs[t].Outside? {
        if !s.pcs[t].Outside? { SomeOutstanding(s.pcs, t); }
      }
    }
  }

  lemma StepInv(s: State, a: Action, s': State)
    requires Inv(s) && Outstanding(s.pcs) < HALF && Step(s, a, s')
    ensures Inv(s')
  {
    StepCounts(s, a, s');
    CountsAgree(s);
    hide Outstanding;
  }

  /** Every access keeps the difference of the counts in step with the outstanding entries. */
  lemma StepCounts(s: State, a: Action, s': State)
    requires Inv(s) && Step(s, a, s')
    ensures s'.release < HALF && s'.lock < HALF && s'.lock == (s'.release + Outstanding(s'.pcs)) % HALF
  {
    OutstandingUpdate(s.pcs, a.t, s'.pcs[a.t]);
    hide Outstanding;
    var n := Outstanding(s.pcs);
    match a
    case Enter(_) => WrapNext(s.release + n);
    case LeaveStore(t) =>
      SomeOutstanding(s.pcs, t);
      WrapShift(s.release + 1, n - 1);
    case _ =>
  }

  lemma WrapNext(x: nat)
    ensures (x % HALF + 1) % HALF == (x + 1) % HALF
  {
  }

  lemma WrapShift(x: nat, n: nat)
    requires x <= HALF
    ensures (x % HALF + n) % HALF == (x + n) % HALF
  {
  }

  /** What each access does, by the number of outstanding entries: a thread that enters gets the mutex if
      there is none and spins otherwise, a spinner stays one, and leaving adds one release. */
  lemma StepLaw(s: State, a: Action, s': State)
    requires Inv(s) && Outstanding(s.pcs) < HALF && Step(s, a, s')
    ensures a.t < |s.pcs| == |s'.pcs| && forall u | 0 <= u < |s.pcs| && u != a.t :: s'.pcs[u] == s.pcs[u]
    ensures a.Enter? ==>
              && s.pcs[a.t] == Outside && s'.pcs[a.t] == (if Outstanding(s.pcs) == 0 then Inside else Spinning)
              && s'.release == s.release && s'.lock == (s.lock + 1) % HALF
    ensures a.Spin? ==> s.pcs[a.t] == Spinning && s' == s
    ensures a.LeaveLoad? ==>
              s.pcs[a.t] == Inside && s'.pcs[a.t].Leaving? && s'.release == s.release && s'.lock == s.lock
    ensures a.LeaveStore? ==>
              && s.pcs[a.t].Leaving? && s'.pcs[a.t] == Outside
              && s'.release == (s.release + 1) % HALF && s'.lock == s.lock
  {
    CountsAgree(s);
    hide Outstanding;
    if a.Spin? { assert s.pcs[a.t := Spinning] == s.pcs; }
  }

  /** A run: every state is followed by the outcome of one access. */
  ghost predicate IsRun(states: seq<State>, actions: seq<Action>) {
    && |states| == |actions| + 1 && Init(states[0])
    && forall i | 0 <= i < |actions| :: Step(states[i], actions[i], states[i + 1])
  }

  ghost predicate FewOutstanding(states: seq<State>) {
    forall i | 0 <= i < |states| :: Outstanding(states[i].pcs) < HALF
  }

  lemma {:induction false} RunInv(states: seq<State>, actions: seq<Action>, i: nat)
    requires IsRun(states, actions) && FewOutstanding(states) && i < |states|
    ensures Inv(states[i])
  {
    if i == 0 {
      InitInv(states[0]);
    } else {
      RunInv(states, actions, i - 1);
      StepInv(states[i - 1], actions[i - 1], states[i]);
    }
  }

  /** Mutual exclusion, across any number of wraps of the counts. */
  lemma MutualExclusion(states: seq<State>, actions: seq<Action>, i: nat, t: nat, u: nat)
    requires IsRun(states, actions) && FewOutstanding(states) && i < |states|
    requires t < |states[i].pcs| && u < |states[i].pcs| && Holds(states[i].pcs[t]) && Holds(states[i].pcs[u])
    ensures t == u
  {
    RunInv(states, actions, i);
  }

  /** A thread that finds the mutex taken never gets it: its own entry keeps the counts apart. */
  lemma {:induction false} SpinnerNeverEnters(states: seq<State>, actions: seq<Action>, t: nat, i: nat, j: nat)
    requires IsRun(states, actions) && FewOutstanding(states) && i <= j < |states|
    requires t < |states[i].pcs| && states[i].pcs[t] == Spinning
    ensures t < |states[j].pcs| && states[j].pcs[t] == Spinning
    decreases j
  {
    if i < j {
      SpinnerNeverEnters(states, actions, t, i, j - 1);
      RunInv(states, actions, j - 1);
      CountsAgree(states[j - 1]);
      assert Step(states[j - 1], actions[j - 1], states[j]);
    }
  }

  /** `Enter` ever returns if and only if no entry was outstanding when it took its ticket. */
  lemma EnterReturnsIff(states: seq<State>, actions: seq<Action>, t: nat, i: nat)
    requires IsRun(states, actions) && FewOutstanding(states) && i < |actions| && actions[i] == Enter(t)
    ensures t < |states[i + 1].pcs|
    ensures Outstanding(states[i].pcs) == 0 ==> states[i + 1].pcs[t] == Inside
    ensures Outstanding(states[i].pcs) != 0 ==>
              forall j | i < j < |states| :: t < |states[j].pcs| && states[j].pcs[t] == Spinning
  {
    assert Step(states[i], actions[i], states[i + 1]);
    RunInv(states, actions, i);
    CountsAgree(states[i]);
    if Outstanding(states[i].pcs) != 0 {
      forall j | i < j < |states| ensures t < |states[j].pcs| && states[j].pcs[t] == Spinning {
        SpinnerNeverEnters(states, actions, t, i + 1, j);
      }
    }
  }

  /** The bound on outstanding entries is needed: with 2^16 of them the counts agree again, and the
      next thread enters although the mutex is held. */
  lemma TooManyEntriesBreakIt(s: State, t: nat, u: nat)
    requires Inv(s) && Outstanding(s.pcs) == HALF
    requires t < |s.pcs| && u < |s.pcs| && s.pcs[t] == Outside && s.pcs[u] == Inside
    ensures exists s' :: Step(s, Enter(t), s') && s'.pcs[t] == Inside && s'.pcs[u] == Inside && t != u
  {
    var s' := State(s.release, (s.lock + 1) % HALF, s.pcs[t := Inside]);
    assert Step(s, Enter(t), s');
  }

  /** The state after the first `k` of `n` threads have entered: thread 0 is inside, the others spin. */
  ghost function Crowd(k: nat, n: nat): State
    requires k <= n
  {
    State(0, k % HALF, seq(n, i => if k <= i then Outside else if i == 0 then Inside else Spinning))
  }

  lemma CrowdStep(k: nat, n: nat)
    requires k < n && k < HALF
    ensures Step(Crowd(k, n), Enter(k), Crowd(k + 1, n))
  {
    var s, t := Crowd(k, n), Crowd(k + 1, n);
    assert t.pcs == s.pcs[k := t.pcs[k]];
  }

  lemma {:induction false} CrowdOutstanding(k: nat, n: nat)
    requires k <= n
    ensures Outstanding(Crowd(k, n).pcs) == k
  {
    if k == 0 {
      NoneOutstanding(Crowd(0, n).pcs);
    } else {
      CrowdOutstanding(k - 1, n);
      var s, t := Crowd(k - 1, n), Crowd(k, n);
      assert t.pcs == s.pcs[k - 1 := t.pcs[k - 1]];
      OutstandingUpdate(s.pcs, k - 1, t.pcs[k - 1]);
    }
  }

  /** From the initial state 2^16 threads can enter without leaving; then the next one gets in beside the
      holder. */
  lemma TooManyEntriesHappen() returns (states: seq<State>, actions: seq<Action>)
    ensures |actions| == HALF + 1 && IsRun(states, actions)
    ensures forall i | 0 <= i <= HALF :: Outstanding(states[i].pcs) == i
    ensures var last := states[HALF + 1]; |last.pcs| == HALF + 1 && last.pcs[0] == Inside && last.pcs[HALF] == Inside
  {
    var n := HALF + 1;
    var crowds := seq(n, k requires 0 <= k < n => Crowd(k, n));
    var s := Crowd(HALF, n);
    var last := State(0, 1, s.pcs[HALF := Inside]);
    states := crowds + [last];
    actions := seq(n, k requires 0 <= k < n => Enter(k));
    forall i | 0 <= i < |actions| ensures Step(states[i], actions[i], states[i + 1]) {
      if i < HALF { CrowdStep(i, n); }
    }
    forall i | 0 <= i <= HALF ensures Outstanding(states[i].pcs) == i { CrowdOutstanding(i, n); }
  }
}
