/** The bounded message queue: a ring buffer under a mutex with two condition variables. */
module MessageQueue {
  import opened Wrappers

  // The ring buffer.

  datatype Ring = Ring(buffer: seq<nat>, max: nat, pending: nat, current: nat)

  predicate RingOk(r: Ring) {
    |r.buffer| == r.max && 1 <= r.max && r.pending <= r.max && r.current < r.max
  }

  function Wrap(i: nat, max: nat): int {
    if max <= i then i - max else i
  }

  /** The queued messages, oldest first. */
  ghost function Contents(r: Ring): seq<nat>
    requires RingOk(r)
  {
    seq(r.pending, k requires 0 <= k < r.pending => r.buffer[Wrap(r.current + k, r.max)])
  }

  function Put(r: Ring, m: nat): Ring
    requires |r.buffer| == r.max && r.pending < r.max && r.current < r.max
  {
    r.(buffer := r.buffer[Wrap(r.pending + r.current, r.max) := m], pending := r.pending + 1)
  }

  function Take(r: Ring): (nat, Ring)
    requires |r.buffer| == r.max && 0 < r.pending <= r.max && r.current < r.max
  {
    (r.buffer[r.current], r.(pending := r.pending - 1, current := Wrap(r.current + 1, r.max)))
  }

  lemma PutAppends(r: Ring, m: nat)
    requires RingOk(r) && r.pending < r.max
    ensures RingOk(Put(r, m)) && Contents(Put(r, m)) == Contents(r) + [m]
  {
    var r' := Put(r, m);
    forall k | 0 <= k < r'.pending ensures Contents(r')[k] == (Contents(r) + [m])[k] {
      assert k < r.pending ==> Wrap(r.current + k, r.max) != Wrap(r.pending + r.current, r.max);
    }
  }

  lemma TakeRemoves(r: Ring)
    requires RingOk(r) && 0 < r.pending
    ensures RingOk(Take(r).1) && Contents(r) == [Take(r).0] + Contents(Take(r).1)
  {
    var r' := Take(r).1;
    var whole := [Take(r).0] + Contents(r');
    forall k | 0 <= k < r.pending ensures Contents(r)[k] == whole[k] {
      if 0 < k {
        assert Wrap(r.current + k, r.max) == Wrap(r'.current + (k - 1), r.max);
        assert whole[k] == Contents(r')[k - 1] == r'.buffer[Wrap(r'.current + (k - 1), r'.max)];
      } else {
        assert Contents(r)[0] == r.buffer[Wrap(r.current + 0, r.max)];
      }
    }
  }

  class MessageQueue {
    const messageBuffer: array<nat>
    const maxMessages: nat
    var pendingMessages: nat
    var currentMessage: nat
    /** The threads asleep on one of the two condition variables. */
    ghost var sleepers: seq<Thread>

    ghost function Model(): Ring
      reads this, messageBuffer
    {
      Ring(messageBuffer[..], maxMessages, pendingMessages, currentMessage)
    }

    constructor Initialize(maxMessageCount: nat)
      requires 1 <= maxMessageCount
      ensures RingOk(Model()) && Contents(Model()) == [] && maxMessages == maxMessageCount && sleepers == []
              && fresh(messageBuffer)
    {
      messageBuffer := new nat[maxMessageCount];
      maxMessages, pendingMessages, currentMessage := maxMessageCount, 0, 0;
      sleepers := [];
    }

    method SendMessageImpl(message: nat)
      requires RingOk(Model()) && pendingMessages < maxMessages
      modifies this, messageBuffer
      ensures RingOk(Model()) && Model() == Put(old(Model()), message)
      ensures Contents(Model()) == old(Contents(Model())) + [message]
      ensures sleepers == NotifyReceivers(old(sleepers))
      ensures old(maxMessages <= 0x4000_0000 ==> pendingMessages + currentMessage < 0x8000_0000)
    {
      PutAppends(Model(), message);
      var index := pendingMessages + currentMessage;
      if maxMessages <= index {
        index := index - maxMessages;
      }
      messageBuffer[index] := message;
      pendingMessages := pendingMessages + 1;
      sleepers := NotifyReceivers(sleepers);
    }

    method ReceiveMessageImpl() returns (message: nat)
      requires RingOk(Model()) && 0 < pendingMessages
      modifies this
      ensures RingOk(Model()) && (message, Model()) == Take(old(Model()))
      ensures old(Contents(Model())) == [message] + Contents(Model())
      ensures sleepers == NotifySenders(old(sleepers))
    {
      TakeRemoves(Model());
      message := messageBuffer[currentMessage];
      currentMessage := currentMessage + 1;
      pendingMessages := pendingMessages - 1;
      var offset := if maxMessages <= currentMessage then maxMessages else 0;
      currentMessage := currentMessage - offset;
      sleepers := NotifySenders(sleepers);
    }

    method TrySendMessage(message: nat) returns (sent: bool)
      requires RingOk(Model())
      modifies this, messageBuffer
      ensures RingOk(Model()) && (sent <==> |old(Contents(Model()))| < maxMessages)
      ensures Contents(Model()) == old(Contents(Model())) + if sent then [message] else []
      ensures sleepers == if sent then NotifyReceivers(old(sleepers)) else old(sleepers)
    {
      if maxMessages <= pendingMessages {
        return false;
      }
      SendMessageImpl(message);
      return true;
    }

    method TryReceiveMessage() returns (r: Option<nat>)
      requires RingOk(Model())
      modifies this
      ensures RingOk(Model()) && (r == None <==> old(Contents(Model())) == [])
      ensures old(Contents(Model())) == (if r.Some? then [r.value] else []) + Contents(Model())
      ensures sleepers == if r.Some? then NotifySenders(old(sleepers)) else old(sleepers)
    {
      if pendingMessages == 0 {
        return None;
      }
      var message := ReceiveMessageImpl();
      return Some(message);
    }
  }

  // Senders and receivers.

  /** A thread outside the queue, or asleep on one of the condition variables; `notified` says that a
      broadcast has reached it but it has not run yet. */
  datatype Thread = Outside | Sending(message: nat, notified: bool) | Receiving(notified: bool)

  datatype State = State(ring: Ring, threads: seq<Thread>, sent: seq<nat>, received: seq<nat>)

  /** One stay in the mutex: a call from outside, or a sleeper that has been woken (or woke without
      cause) and looks again. */
  datatype Action =
    | Send(t: nat, message: nat)
    | TrySend(t: nat, message: nat)
    | WakeSender(t: nat)
    | Receive(t: nat)
    | TryReceive(t: nat)
    | WakeReceiver(t: nat)

  function NotifyReceivers(threads: seq<Thread>): seq<Thread> {
    seq(|threads|, i requires 0 <= i < |threads| => if threads[i].Receiving? then Receiving(true) else threads[i])
  }

  function NotifySenders(threads: seq<Thread>): seq<Thread> {
    seq(|threads|, i requires 0 <= i < |threads| =>
        if threads[i].Sending? then Sending(threads[i].message, true) else threads[i])
  }

  /** The message goes into the ring, the thread leaves, and the sent variable is broadcast. */
  function Sent(s: State, t: nat, m: nat): State
    requires t < |s.threads| && RingOk(s.ring) && s.ring.pending < s.ring.max
  {
    State(Put(s.ring, m), NotifyReceivers(s.threads[t := Outside]), s.sent + [m], s.received)
  }

  function Received(s: State, t: nat): State
    requires t < |s.threads| && RingOk(s.ring) && 0 < s.ring.pending
  {
    State(Take(s.ring).1, NotifySenders(s.threads[t := Outside]), s.sent, s.received + [Take(s.ring).0])
  }

  ghost predicate Step(s: State, a: Action, s': State) {
    && a.t < |s.threads| && RingOk(s.ring)
    && var full, empty := s.ring.max <= s.ring.pending, s.ring.pending == 0;
       match a
       case Send(t, m) =>
         s.threads[t] == Outside && s' == if full then s.(threads := s.threads[t := Sending(m, false)])
             else Sent(s, t, m)
       case TrySend(t, m) =>
         s.threads[t] == Outside && s' == if full then s else Sent(s, t, m)
       case WakeSender(t) =>
         && s.threads[t].Sending?
         && var m := s.threads[t].message;
            s' == if full then s.(threads := s.threads[t := Sending(m, false)]) else Sent(s, t, m)
       case Receive(t) =>
         s.threads[t] == Outside && s' == if empty then s.(threads := s.threads[t := Receiving(false)])
             else Received(s, t)
       case TryReceive(t) =>
         s.threads[t] == Outside && s' == if empty then s else Received(s, t)
       case WakeReceiver(t) =>
         s.threads[t].Receiving? && s' == if empty then s.(threads := s.threads[t := Receiving(false)])
             else Received(s, t)
  }

  ghost predicate Init(s: State) {
    && RingOk(s.ring) && s.ring.pending == 0 && s.sent == [] && s.received == []
    && forall t | 0 <= t < |s.threads| :: s.threads[t] == Outside
  }

  /** Whoever sleeps un-notified has reason to. */
  ghost predicate SleepersOk(s: State) {
    && (forall t | 0 <= t < |s.threads| && s.threads[t] == Receiving(false) :: s.ring.pending == 0)
    && (forall t | 0 <= t < |s.threads| && s.threads[t].Sending? && !s.threads[t].notified ::
       s.ring.pending == s.ring.max)
  }

  ghost predicate Inv(s: State) {
    RingOk(s.ring) && s.received + Contents(s.ring) == s.sent && SleepersOk(s)
  }

  lemma InitInv(s: State)
    requires Init(s)
    ensures Inv(s)
  {
    assert Contents(s.ring) == [];
  }

  lemma SentInv(s: State, t: nat, m: nat)
    requires Inv(s) && t < |s.threads| && s.ring.pending < s.ring.max
    ensures Inv(Sent(s, t, m))
  {
    PutAppends(s.ring, m);
    assert s.received + (Contents(s.ring) + [m]) == s.received + Contents(s.ring) + [m];
  }

  lemma ReceivedInv(s: State, t: nat)
    requires Inv(s) && t < |s.threads| && 0 < s.ring.pending
    ensures Inv(Received(s, t))
  {
    TakeRemoves(s.ring);
    var m, r := Take(s.ring).0, Take(s.ring).1;
    assert s.received + ([m] + Contents(r)) == s.received + [m] + Contents(r);
  }

  lemma StepInv(s: State, a: Action, s': State)
    requires Inv(s) && Step(s, a, s')
    ensures Inv(s')
  {
    if s.ring.pending < s.ring.max { forall m ensures Inv(Sent(s, a.t, m)) { SentInv(s, a.t, m); } }
    if 0 < s.ring.pending { ReceivedInv(s, a.t); }
  }

  ghost predicate IsRun(states: seq<State>, actions: seq<Action>) {
    && |states| == |actions| + 1 && Init(states[0])
    && forall i | 0 <= i < |actions| :: Step(states[i], actions[i], states[i + 1])
  }

  /** Over every interleaving: what was received followed by what is queued is what was sent, in order;
      the count stays within the capacity; un-notified sleepers on the sent variable exist only when the
      queue is empty and on the full variable only when it is full. */
  lemma {:induction false} RunInv(states: seq<State>, actions: seq<Action>, i: nat)
    requires IsRun(states, actions) && i < |states|
    ensures Inv(states[i])
  {
    hide Inv, Step;
    if i == 0 {
      InitInv(states[0]);
    } else {
      RunInv(states, actions, i - 1);
      StepInv(states[i - 1], actions[i - 1], states[i]);
    }
  }

  /** Senders and receivers never sleep at the same time. */
  lemma NeverBothAsleep(states: seq<State>, actions: seq<Action>, i: nat, t: nat, u: nat)
    requires IsRun(states, actions) && i < |states| && t < |states[i].threads| && u < |states[i].threads|
    requires states[i].threads[t] == Receiving(false)
    ensures !(states[i].threads[u].Sending? && !states[i].threads[u].notified)
  {
    RunInv(states, actions, i);
  }

  // What a run sends, by its actions.

  ghost predicate Sends(a: Action) {
    a.Send? || a.TrySend? || a.WakeSender?
  }

  ghost predicate Receives(a: Action) {
    a.Receive? || a.TryReceive? || a.WakeReceiver?
  }

  /** The message of the latest call to send that thread `t` has made in the first `i` actions. */
  ghost function LatestCall(actions: seq<Action>, i: nat, t: nat): Option<nat>
    requires i <= |actions|
  {
    if i == 0 then None
    else
      var a := actions[i - 1];
      if (a.Send? || a.TrySend?) && a.t == t then Some(a.message) else LatestCall(actions, i - 1, t)
  }

  /** The messages whose sending has completed in the first `i` actions, in that order, and how many of
      them have been taken, by the actions and the capacity alone: an action that sends completes when
      there is room, one that receives when there is a message. */
  ghost function Account(actions: seq<Action>, max: nat, i: nat): (r: Progress)
    requires i <= |actions|
    ensures r.taken <= |r.all|
  {
    if i == 0 then Progress([], 0)
    else Accounted(Account(actions, max, i - 1), max, actions[i - 1], LatestCall(actions, i, actions[i - 1].t))
  }

  datatype Progress = Progress(all: seq<nat>, taken: nat)

  ghost function Accounted(p: Progress, max: nat, a: Action, latest: Option<nat>): (r: Progress)
    requires p.taken <= |p.all|
    ensures r.taken <= |r.all|
  {
    if Sends(a) && latest.Some? && |p.all| - p.taken < max then Progress(p.all + [latest.value], p.taken)
    else if Receives(a) && p.taken < |p.all| then Progress(p.all, p.taken + 1)
    else p
  }

  ghost predicate Agrees(s: State, p: Progress) {
    && RingOk(s.ring) && p.taken <= |p.all|
    && s.sent == p.all && s.received == p.all[..p.taken] && Contents(s.ring) == p.all[p.taken..]
  }

  /** What one action does to the thread that takes it: it is outside again if its call completes or does
      not wait, and asleep un-notified, with its message, otherwise. */
  ghost predicate ActorLaw(s: State, a: Action, s': State)
    requires a.t < |s.threads| == |s'.threads|
  {
    var room, some := s.ring.pending < s.ring.max, 0 < s.ring.pending;
    match a
    case Send(t, m) => s.threads[t] == Outside && s'.threads[t] == if room then Outside else Sending(m, false)
    case TrySend(t, m) => s.threads[t] == Outside && s'.threads[t] == Outside
    case WakeSender(t) =>
      s.threads[t].Sending? && s'.threads[t] == if room then Outside else Sending(s.threads[t].message, false)
    case Receive(t) => s.threads[t] == Outside && s'.threads[t] == if some then Outside else Receiving(false)
    case TryReceive(t) => s.threads[t] == Outside && s'.threads[t] == Outside
    case WakeReceiver(t) => s.threads[t].Receiving? && s'.threads[t] == if some then Outside else Receiving(false)
  }

  /** Another thread stays where it is, with its message, and is notified exactly by a message sent if it
      is a receiver and by a message taken if it is a sender. */
  ghost predicate OtherLaw(s: State, a: Action, s': State, u: nat)
    requires u < |s.threads| == |s'.threads|
  {
    var put := Sends(a) && s.ring.pending < s.ring.max;
    var taken := Receives(a) && 0 < s.ring.pending;
    match s.threads[u]
    case Outside => s'.threads[u] == Outside
    case Sending(m, notified) => s'.threads[u] == Sending(m, notified || taken)
    case Receiving(notified) => s'.threads[u] == Receiving(notified || put)
  }

  /** What one action does, in terms of the queued messages. */
  lemma StepLaw(s: State, a: Action, s': State)
    requires Inv(s) && Step(s, a, s')
    ensures |s'.threads| == |s.threads| && a.t < |s.threads| && s'.ring.max == s.ring.max && RingOk(s'.ring)
    ensures ActorLaw(s, a, s') && forall u | 0 <= u < |s.threads| && u != a.t :: OtherLaw(s, a, s', u)
    ensures var q, q' := Contents(s.ring), Contents(s'.ring);
            && |q| == s.ring.pending
            && if Sends(a) && |q| < s.ring.max then
                 var m := if a.WakeSender? then s.threads[a.t].message else a.message;
                 q' == q + [m] && s'.sent == s.sent + [m] && s'.received == s.received
               else if Receives(a) && q != [] then
                 q == [q[0]] + q' && s'.sent == s.sent && s'.received == s.received + [q[0]]
               else q' == q && s'.sent == s.sent && s'.received == s.received
  {
    if s.ring.pending < s.ring.max {
      forall m ensures Contents(Put(s.ring, m)) == Contents(s.ring) + [m] && RingOk(Put(s.ring, m)) {
        PutAppends(s.ring, m);
      }
    }
    if 0 < s.ring.pending { TakeRemoves(s.ring); }
    hide Contents;
  }

  /** A sleeping sender holds the message of its latest call. */
  lemma {:induction false} SleeperHoldsItsMessage(states: seq<State>, actions: seq<Action>, i: nat, t: nat)
    requires IsRun(states, actions) && i < |states| && t < |states[i].threads| && states[i].threads[t].Sending?
    ensures LatestCall(actions, i, t) == Some(states[i].threads[t].message)
  {
    if i > 0 {
      RunInv(states, actions, i - 1);
      var s, a, s' := states[i - 1], actions[i - 1], states[i];
      assert Step(s, a, s');
      StepLaw(s, a, s');
      hide Step, Inv;
      if a.t != t {
        assert OtherLaw(s, a, s', t);
        SleeperHoldsItsMessage(states, actions, i - 1, t);
      } else if a.WakeSender? {
        SleeperHoldsItsMessage(states, actions, i - 1, t);
      }
    }
  }

  /** In every run what was sent, received and is queued is what the actions ask for: the messages of the
      calls to send, in the order in which these complete, and of them the first ones received. */
  lemma {:induction false} RunAccount(states: seq<State>, actions: seq<Action>, i: nat)
    requires IsRun(states, actions) && i < |states| == |actions| + 1
    ensures states[i].ring.max == states[0].ring.max && Agrees(states[i], Account(actions, states[0].ring.max, i))
  {
    hide *;
    if i == 0 {
      NothingAccounted(states, actions);
    } else {
      RunAccount(states, actions, i - 1);
      RunAccountStep(states, actions, i - 1);
    }
  }

  lemma NothingAccounted(states: seq<State>, actions: seq<Action>)
    requires IsRun(states, actions)
    ensures 0 < |states| && Agrees(states[0], Account(actions, states[0].ring.max, 0))
  {
    assert Contents(states[0].ring) == [];
  }

  lemma RunAccountStep(states: seq<State>, actions: seq<Action>, i: nat)
    requires IsRun(states, actions) && i < |actions| && |states| == |actions| + 1
    requires states[i].ring.max == states[0].ring.max && Agrees(states[i], Account(actions, states[0].ring.max, i))
    ensures states[i + 1].ring.max == states[0].ring.max
    ensures Agrees(states[i + 1], Account(actions, states[0].ring.max, i + 1))
  {
    hide *;
    AccountUnfold(actions, states[0].ring.max, i + 1);
    StepAt(states, actions, i);
    RunInv(states, actions, i);
    var s, a := states[i], actions[i];
    LatestAtStep(states, actions, i);
    AccountStep(s, a, states[i + 1], Account(actions, s.ring.max, i), LatestCall(actions, i + 1, a.t));
  }

  lemma AccountUnfold(actions: seq<Action>, max: nat, i: nat)
    requires 0 < i <= |actions|
    ensures Account(actions, max, i) ==
            Accounted(Account(actions, max, i - 1), max, actions[i - 1], LatestCall(actions, i, actions[i - 1].t))
  {
  }

  lemma StepAt(states: seq<State>, actions: seq<Action>, i: nat)
    requires IsRun(states, actions) && i < |actions|
    ensures |states| == |actions| + 1 && Step(states[i], actions[i], states[i + 1])
  {
  }

  /** The message that action `i` sends, if it sends one, is that of its thread's latest call. */
  lemma LatestAtStep(states: seq<State>, actions: seq<Action>, i: nat)
    requires IsRun(states, actions) && i < |actions|
    ensures actions[i].WakeSender? ==> actions[i].t < |states[i].threads| && states[i].threads[actions[i].t].Sending?
    ensures Sends(actions[i]) ==>
              LatestCall(actions, i + 1, actions[i].t) ==
              Some(if actions[i].WakeSender? then states[i].threads[actions[i].t].message else actions[i].message)
  {
    assert Step(states[i], actions[i], states[i + 1]);
    if actions[i].WakeSender? { SleeperHoldsItsMessage(states, actions, i, actions[i].t); }
  }

  lemma AccountStep(s: State, a: Action, s': State, p: Progress, latest: Option<nat>)
    requires Inv(s) && Step(s, a, s') && Agrees(s, p)
    requires Sends(a) ==> latest == Some(if a.WakeSender? then s.threads[a.t].message else a.message)
    ensures s'.ring.max == s.ring.max && Agrees(s', Accounted(p, s.ring.max, a, latest))
  {
    StepLaw(s, a, s');
    hide Step, Inv, Contents, ActorLaw, OtherLaw;
    var all, taken := p.all, p.taken;
    if taken < |all| { assert all[..taken + 1] == all[..taken] + [all[taken]]; }
    if latest.Some? { assert (all + [latest.value])[..taken] == all[..taken]; }
  }

  /** A thread that waits to send or to receive stays in the queue, a sender with its message, until an
      action of its own finds room or a message. */
  lemma {:induction false} WaitersStay(states: seq<State>, actions: seq<Action>, t: nat, i: nat, j: nat)
    requires IsRun(states, actions) && i <= j < |states| && t < |states[i].threads| && states[i].threads[t] != Outside
    requires forall k | i <= k < j && actions[k].t == t ::
               if Sends(actions[k]) then states[k].ring.pending >= states[k].ring.max else states[k].ring.pending == 0
    ensures t < |states[j].threads|
    ensures states[i].threads[t].Receiving? ==> states[j].threads[t].Receiving?
    ensures states[i].threads[t].Sending? ==>
              states[j].threads[t].Sending? && states[j].threads[t].message == states[i].threads[t].message
    decreases j
  {
    if i < j {
      WaitersStay(states, actions, t, i, j - 1);
      RunInv(states, actions, j - 1);
      assert Step(states[j - 1], actions[j - 1], states[j]);
      StepLaw(states[j - 1], actions[j - 1], states[j]);
      hide Step, Inv;
      if actions[j - 1].t != t { assert OtherLaw(states[j - 1], actions[j - 1], states[j], t); }
    }
  }
}
