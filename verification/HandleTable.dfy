/** The handle table: 256 slots whose free list is threaded through the generation counters.

    A handle packs a slot index into its low 15 bits and the slot's counter above them.  The two
    fields do not overlap, so `|`, `>>` and `&` on them are `+`, `/` and `%` by 2^15.
 */
module HandleTable {
  import opened Wrappers

  const MAX_HANDLES: nat := 256
  const COUNTER_UNIT: nat := 0x8000
  const MAX_COUNTER: nat := 0x7fff

  /** The fields of a table, as a value. */
  datatype Table<T> = Table(counters: seq<int>, objects: seq<Option<T>>, head: int, active: int, counter: nat)

  function Handle(index: nat, counter: nat): nat {
    index % COUNTER_UNIT + counter * COUNTER_UNIT
  }

  lemma HandleFields(index: nat, counter: nat)
    requires index < COUNTER_UNIT
    ensures Handle(index, counter) / COUNTER_UNIT == counter && Handle(index, counter) % COUNTER_UNIT == index
  {
  }

  /** The value of a 16-bit pattern read as a signed number. */
  function S16(x: nat): int {
    if x % 0x10000 < 0x8000 then x % 0x10000 else x % 0x10000 - 0x10000
  }

  function NextCounter(c: nat): nat {
    if -1 < S16(c + 1) then c + 1 else 1
  }

  function Below(n: nat): (r: set<nat>)
    ensures |r| == n && forall i :: i in r <==> 0 <= i < n
  {
    if n == 0 then {} else Below(n - 1) + {n - 1}
  }

  ghost function Elements(s: seq<nat>): (r: set<nat>)
    ensures forall x :: x in r <==> x in s
  {
    if s == [] then {} else {s[0]} + Elements(s[1..])
  }

  function LiveSlots<T>(t: Table<T>): set<nat> {
    set i: nat | 0 <= i < |t.objects| && t.objects[i].Some?
  }

  function LiveHandles<T>(t: Table<T>): set<nat>
    requires WellFormed(t)
  {
    set i | i in LiveSlots(t) :: Handle(i, t.counters[i])
  }

  /** Handle `h` names an occupied slot and carries that slot's counter. */
  predicate IsLive<T>(t: Table<T>, h: nat)
    requires WellFormed(t)
  {
    var i := h % COUNTER_UNIT;
    i < MAX_HANDLES && t.objects[i].Some? && h / COUNTER_UNIT == t.counters[i]
  }

  lemma LiveIff<T>(t: Table<T>, h: nat)
    requires WellFormed(t)
    ensures h in LiveHandles(t) <==> IsLive(t, h)
  {
    if h in LiveHandles(t) {
      var i :| i in LiveSlots(t) && h == Handle(i, t.counters[i]);
      HandleFields(i, t.counters[i]);
    }
    if IsLive(t, h) {
      assert h == Handle(h % COUNTER_UNIT, t.counters[h % COUNTER_UNIT]);
    }
  }

  /** What the table holds: the objects by their handles. */
  function Contents<T>(t: Table<T>): map<nat, T>
    requires WellFormed(t)
  {
    map h | h in LiveHandles(t) :: LiveIff(t, h); t.objects[h % COUNTER_UNIT].value
  }

  predicate WellFormed<T>(t: Table<T>) {
    && |t.counters| == |t.objects| == MAX_HANDLES
    && 1 <= t.counter <= MAX_COUNTER
    && forall i | 0 <= i < MAX_HANDLES && t.objects[i].Some? :: 1 <= t.counters[i] <= MAX_COUNTER
  }

  /** The slot after position `k` of the free list, -1 at its end. */
  ghost function Link(free: seq<nat>, k: nat): int {
    if k < |free| then free[k] else -1
  }

  ghost predicate FreeAt<T>(t: Table<T>, free: seq<nat>, k: nat)
    requires WellFormed(t) && k < |free|
  {
    free[k] < MAX_HANDLES && t.objects[free[k]].None? && t.counters[free[k]] == Link(free, k + 1)
  }

  /** `free` is the free list: it starts at `head`, each of its slots' counters leads to the next,
      it visits no slot twice, and its slots are exactly the empty ones. */
  ghost predicate Threads<T>(t: Table<T>, free: seq<nat>)
    requires WellFormed(t)
  {
    && |free| + t.active == MAX_HANDLES
    && t.head == Link(free, 0)
    && (forall k {:trigger FreeAt(t, free, k)} | 0 <= k < |free| :: FreeAt(t, free, k))
    && (forall j, k | 0 <= j < k < |free| :: free[j] != free[k])
    && (forall i: nat | i < MAX_HANDLES && t.objects[i].None? :: i in free)
  }

  ghost predicate Valid<T(!new)>(t: Table<T>) {
    WellFormed(t) && exists free :: Threads(t, free)
  }

  function Initial<T>(): (t: Table<T>) {
    Table(seq(MAX_HANDLES, i => i - 1), seq(MAX_HANDLES, _ => None), MAX_HANDLES - 1, 0, 1)
  }

  lemma {:induction false} Descending(n: nat) returns (s: seq<nat>)
    ensures |s| == n && forall k | 0 <= k < n :: s[k] == n - 1 - k
  {
    if n == 0 {
      s := [];
    } else {
      s := Descending(n - 1);
      s := [n - 1] + s;
    }
  }

  lemma InitialEmpty<T>(t: Table<T>)
    requires t == Initial<T>()
    ensures Contents(t) == map[]
  {
    assert LiveSlots(t) == {};
  }

  lemma InitialValid<T(!new)>()
    ensures Valid(Initial<T>()) && Contents(Initial<T>()) == map[]
  {
    var free := Descending(MAX_HANDLES);
    DescendingThreads(Initial<T>(), free);
    InitialEmpty(Initial<T>());
  }

  /** The first handle issued is slot 255 with generation 1. */
  lemma FirstHandle<T(!new)>(obj: T)
    ensures Valid(Initial<T>())
    ensures Reserve(Initial<T>(), obj).ok && Reserve(Initial<T>(), obj).handle == 0x80ff
  {
    InitialValid<T>();
  }

  lemma DescendingThreads<T>(t: Table<T>, free: seq<nat>)
    requires t == Initial<T>() && |free| == MAX_HANDLES
    requires forall k | 0 <= k < |free| :: free[k] == MAX_HANDLES - 1 - k
    ensures Threads(t, free)
  {
    forall i: nat | i < MAX_HANDLES ensures i in free {
      assert free[MAX_HANDLES - 1 - i] == i;
    }
  }

  datatype Reservation<T> = Reservation(ok: bool, table: Table<T>, handle: nat)

  function Reserve<T(!new)>(t: Table<T>, obj: T): (r: Reservation<T>)
    requires Valid(t)
  {
    if MAX_HANDLES <= t.active then Reservation(false, t, 0)
    else
      var index := HeadSlot(t);
      Reservation(
        true,
        Table(t.counters[index := t.counter], t.objects[index := Some(obj)], t.counters[index], t.active + 1,
            NextCounter(t.counter)),
        Handle(index, t.counter))
  }

  function HeadSlot<T(!new)>(t: Table<T>): (index: nat)
    requires Valid(t) && t.active < MAX_HANDLES
    ensures index < MAX_HANDLES && t.objects[index].None?
  {
    HeadIsFree(t);
    t.head
  }

  lemma HeadIsFree<T(!new)>(t: Table<T>)
    requires Valid(t) && t.active < MAX_HANDLES
    ensures 0 <= t.head < MAX_HANDLES && t.objects[t.head].None?
  {
    var free :| Threads(t, free);
    assert FreeAt(t, free, 0);
  }

  datatype Release<T> = Release(ok: bool, table: Table<T>)

  function Free<T(!new)>(t: Table<T>, handle: nat): (r: Release<T>)
    requires Valid(t) && handle % COUNTER_UNIT != MAX_HANDLES
  {
    var index := handle % COUNTER_UNIT;
    if handle == 0 || handle / COUNTER_UNIT == 0 then Release(false, t)
    else if MAX_HANDLES < index || t.objects[index].None?
        || handle / COUNTER_UNIT != t.counters[index] then Release(false, t)
    else Release(true, Table(t.counters[index := t.head], t.objects[index := None], index, t.active - 1, t.counter))
  }

  function Lookup<T(!new)>(t: Table<T>, handle: nat): (r: Option<T>)
    requires Valid(t) && handle % COUNTER_UNIT != MAX_HANDLES
  {
    var index := handle % COUNTER_UNIT;
    if handle / 0x4000_0000 != 0 || handle == 0 || handle / COUNTER_UNIT == 0 then None
    else if MAX_HANDLES < index || handle / COUNTER_UNIT != t.counters[index] then None
    else t.objects[index]
  }

  lemma {:induction false} DistinctSize(s: seq<nat>)
    requires forall j, k | 0 <= j < k < |s| :: s[j] != s[k]
    ensures |Elements(s)| == |s|
  {
    if s != [] {
      DistinctSize(s[1..]);
      assert s[0] !in s[1..];
    }
  }

  lemma EmptySlots<T>(t: Table<T>, free: seq<nat>)
    requires WellFormed(t) && Threads(t, free)
    ensures Below(|t.objects|) == LiveSlots(t) + Elements(free) && LiveSlots(t) !! Elements(free)
  {
    forall i | i in Elements(free) ensures 0 <= i < |t.objects| && i !in LiveSlots(t) {
      var k :| 0 <= k < |free| && free[k] == i;
      assert FreeAt(t, free, k);
    }
  }

  /** The active count is the number of occupied slots. */
  lemma ActiveCounts<T(!new)>(t: Table<T>)
    requires Valid(t)
    ensures |LiveSlots(t)| == t.active
  {
    var free :| Threads(t, free);
    DistinctSize(free);
    EmptySlots(t, free);
    assert |LiveSlots(t) + Elements(free)| == |LiveSlots(t)| + |Elements(free)|;
  }

  lemma {:induction false} HandlesSize<T>(t: Table<T>, slots: set<nat>)
    requires WellFormed(t) && slots <= LiveSlots(t)
    ensures |set i | i in slots :: Handle(i, t.counters[i])| == |slots|
  {
    if slots != {} {
      var j :| j in slots;
      var rest := slots - {j};
      HandlesSize(t, rest);
      var image := set i | i in rest :: Handle(i, t.counters[i]);
      var h := Handle(j, t.counters[j]);
      assert h !in image by {
        HandleFields(j, t.counters[j]);
        if h in image {
          var i :| i in rest && h == Handle(i, t.counters[i]);
          HandleFields(i, t.counters[i]);
        }
      }
      assert (set i | i in slots :: Handle(i, t.counters[i])) == image + {h};
    }
  }

  /** As many handles are live as the active count says. */
  lemma ContentsSize<T(!new)>(t: Table<T>)
    requires Valid(t)
    ensures |Contents(t)| == t.active
  {
    ActiveCounts(t);
    HandlesSize(t, LiveSlots(t));
    assert Contents(t).Keys == LiveHandles(t);
  }

  /** Reserving adds one fresh handle to the contents; it fails exactly when 256 handles are live.
      Every issued handle is non-zero and leaves the two top bits clear. */
  lemma ReserveRefines<T(!new)>(t: Table<T>, obj: T)
    requires Valid(t)
    ensures var r := Reserve(t, obj);
            && Valid(r.table)
            && (r.ok <==> |Contents(t)| < MAX_HANDLES)
            && (!r.ok ==> r.table == t)
            && (r.ok ==> && 0 < r.handle < 0x4000_0000 && r.handle % COUNTER_UNIT < MAX_HANDLES
                         && r.handle !in Contents(t) && Contents(r.table) == Contents(t)[r.handle := obj])
  {
    ContentsSize(t);
    if t.active < MAX_HANDLES {
      ReserveThreads(t, obj);
      ReserveContents(t, obj);
    }
  }

  lemma ReserveThreads<T(!new)>(t: Table<T>, obj: T)
    requires Valid(t) && t.active < MAX_HANDLES
    ensures Valid(Reserve(t, obj).table)
  {
    var free :| Threads(t, free);
    var t' := Reserve(t, obj).table;
    assert free[0] == HeadSlot(t) && FreeAt(t, free, 0);
    assert WellFormed(t');
    var rest := free[1..];
    forall i: nat | i < MAX_HANDLES && t'.objects[i].None? ensures i in rest {
      assert t.objects[i].None?;
      var k :| 0 <= k < |free| && free[k] == i;
      assert rest[k - 1] == i;
    }
    forall k | 0 <= k < |rest| ensures FreeAt(t', rest, k) { assert FreeAt(t, free, k + 1); }
    assert Threads(t', rest);
  }

  lemma ReserveContents<T(!new)>(t: Table<T>, obj: T)
    requires Valid(t) && t.active < MAX_HANDLES
    ensures var r := Reserve(t, obj);
            && WellFormed(r.table) && 0 < r.handle < 0x4000_0000 && r.handle % COUNTER_UNIT < MAX_HANDLES
            && r.handle !in Contents(t) && Contents(r.table) == Contents(t)[r.handle := obj]
  {
    var r, i := Reserve(t, obj), HeadSlot(t);
    HandleFields(i, t.counter);
    LiveIff(t, r.handle);
    forall h ensures h in Contents(r.table) <==> h == r.handle || h in Contents(t) {
      if h >= 0 {
        LiveIff(t, h);
        LiveIff(r.table, h);
        if h % COUNTER_UNIT == i && h / COUNTER_UNIT == t.counter { assert h == r.handle; }
      }
    }
    forall h | h in Contents(t) ensures Contents(r.table)[h] == Contents(t)[h] { LiveIff(t, h); }
  }

  /** Freeing succeeds exactly for the live handles and removes just the one given. */
  lemma FreeRefines<T(!new)>(t: Table<T>, handle: nat)
    requires Valid(t) && handle % COUNTER_UNIT != MAX_HANDLES
    ensures var r := Free(t, handle);
            && Valid(r.table)
            && (r.ok <==> handle in Contents(t))
            && (!r.ok ==> r.table == t)
            && Contents(r.table) == Contents(t) - {handle}
            && r.table.counter == t.counter
  {
    var r := Free(t, handle);
    LiveIff(t, handle);
    assert r.ok <==> handle in Contents(t);
    if r.ok {
      FreeThreads(t, handle);
      forall h ensures h in Contents(r.table) <==> h != handle && h in Contents(t) {
        if h >= 0 {
          LiveIff(t, h);
          LiveIff(r.table, h);
          assert h == h / COUNTER_UNIT * COUNTER_UNIT + h % COUNTER_UNIT;
        }
      }
      forall h | h in Contents(r.table) ensures Contents(r.table)[h] == Contents(t)[h] { LiveIff(r.table, h); }
    }
  }

  lemma FreeThreads<T(!new)>(t: Table<T>, handle: nat)
    requires Valid(t) && handle % COUNTER_UNIT != MAX_HANDLES && Free(t, handle).ok
    ensures Valid(Free(t, handle).table)
  {
    var free :| Threads(t, free);
    var t', i := Free(t, handle).table, handle % COUNTER_UNIT;
    assert WellFormed(t');
    var longer := [i] + free;
    forall j: nat | j < MAX_HANDLES && t'.objects[j].None? ensures j in longer {
      if j != i { assert t.objects[j].None? && j in free; }
    }
    forall k | 0 <= k < |longer| ensures FreeAt(t', longer, k) { assert 0 < k ==> FreeAt(t, free, k - 1); }
    forall j, k | 0 <= j < k < |longer| ensures longer[j] != longer[k] { assert FreeAt(t, free, k - 1); }
    assert Threads(t', longer);
  }

  /** Looking up finds exactly the live handles, each with its own object. */
  lemma LookupRefines<T(!new)>(t: Table<T>, handle: nat)
    requires Valid(t) && handle % COUNTER_UNIT != MAX_HANDLES
    ensures Lookup(t, handle) == if handle in Contents(t) then Some(Contents(t)[handle]) else None
  {
    LiveIff(t, handle);
  }

  /** What a caller sees of a table: its contents and the counter the next handle will carry. */
  datatype View<T> = View(contents: map<nat, T>, counter: nat)

  ghost function ViewOf<T(!new)>(t: Table<T>): View<T>
    requires Valid(t)
  {
    View(Contents(t), t.counter)
  }

  /** What a call that changes the table reports. */
  datatype Event<T> = Issued(handle: nat, obj: T) | Full | Freed(handle: nat) | Refused(handle: nat)

  /** The abstract table: a finite map from handles to objects. */
  ghost predicate ViewStep<T>(v: View<T>, e: Event<T>, v': View<T>) {
    match e
    case Issued(h, obj) =>
      && |v.contents| < MAX_HANDLES && h !in v.contents && h / COUNTER_UNIT == v.counter
      && v' == View(v.contents[h := obj], NextCounter(v.counter))
    case Full => |v.contents| >= MAX_HANDLES && v' == v
    case Freed(h) => h in v.contents && v' == View(v.contents - {h}, v.counter)
    case Refused(h) => h !in v.contents && v' == v
  }

  /** The calls that change a table.  Handles whose index field is 256 are not considered. */
  datatype Op<T> = ReserveOp(obj: T) | FreeOp(handle: nat)

  ghost predicate OpOk<T>(op: Op<T>) {
    op.FreeOp? ==> op.handle % COUNTER_UNIT != MAX_HANDLES
  }

  /** One call on a concrete table: `op` turns `t` into `t'` and reports `e`. */
  ghost predicate TableStep<T(!new)>(t: Table<T>, op: Op<T>, e: Event<T>, t': Table<T>)
    requires Valid(t) && OpOk(op)
  {
    match op
    case ReserveOp(obj) => var r := Reserve(t, obj); t' == r.table && e == if r.ok then Issued(r.handle, obj) else Full
    case FreeOp(h) => var r := Free(t, h); t' == r.table && e == if r.ok then Freed(h) else Refused(h)
  }

  /** Every call on the concrete table is a step of the finite map. */
  lemma TableRefinesMap<T(!new)>(t: Table<T>, op: Op<T>, e: Event<T>, t': Table<T>)
    requires Valid(t) && OpOk(op) && TableStep(t, op, e, t')
    ensures Valid(t') && ViewStep(ViewOf(t), e, ViewOf(t'))
  {
    match op
    case ReserveOp(obj) =>
      ReserveRefines(t, obj);
      if e.Issued? { HandleFields(HeadSlot(t), t.counter); }
    case FreeOp(h) => FreeRefines(t, h);
  }

  /** A run of the finite map: `views[i]` is what is seen before event `i`. */
  ghost predicate Trace<T>(views: seq<View<T>>, events: seq<Event<T>>) {
    |views| == |events| + 1 && forall i | 0 <= i < |events| :: ViewStep(views[i], events[i], views[i + 1])
  }

  /** How many reservations succeed among the events from `i` up to `j`. */
  ghost function Reservations<T>(events: seq<Event<T>>, i: nat, j: nat): nat
    requires i <= j <= |events|
    decreases j
  {
    if i == j then 0 else Reservations(events, i, j - 1) + if events[j - 1].Issued? then 1 else 0
  }

  /** In every run a handle resolves to its own object until it is freed. */
  lemma {:induction false} HandleKeepsObject<T>(views: seq<View<T>>, events: seq<Event<T>>, h: nat, i: nat, j: nat)
    requires Trace(views, events) && i <= j <= |events| && h in views[i].contents
    requires forall k | i <= k < j :: events[k] != Freed(h)
    ensures h in views[j].contents && views[j].contents[h] == views[i].contents[h]
    decreases j
  {
    if i < j {
      HandleKeepsObject(views, events, h, i, j - 1);
      assert ViewStep(views[j - 1], events[j - 1], views[j]);
    }
  }

  /** The counter `m` reservations after the one that used counter `c`. */
  function Advanced(c: nat, m: nat): nat
    requires 1 <= c
  {
    1 + (c - 1 + m) % MAX_COUNTER
  }

  lemma AdvancedNext(c: nat, m: nat)
    requires 1 <= c <= MAX_COUNTER
    ensures NextCounter(Advanced(c, m)) == Advanced(c, m + 1)
    ensures 0 < m < MAX_COUNTER ==> Advanced(c, m) != c
    ensures Advanced(c, 0) == c == Advanced(c, MAX_COUNTER)
  {
  }

  /** The counter goes round its 32767 values, one step for each successful reservation. */
  lemma {:induction false} CounterAdvances<T>(views: seq<View<T>>, events: seq<Event<T>>, i: nat, j: nat)
    requires Trace(views, events) && i <= j <= |events| && 1 <= views[i].counter <= MAX_COUNTER
    ensures views[j].counter == Advanced(views[i].counter, Reservations(events, i, j))
    decreases j
  {
    hide Advanced, NextCounter;
    AdvancedNext(views[i].counter, 0);
    if i < j {
      CounterAdvances(views, events, i, j - 1);
      assert ViewStep(views[j - 1], events[j - 1], views[j]);
      AdvancedNext(views[i].counter, Reservations(events, i, j - 1));
    }
  }

  lemma {:induction false} IssueCounts<T>(events: seq<Event<T>>, i: nat, j: nat)
    requires i < j <= |events| && events[i].Issued?
    ensures 0 < Reservations(events, i, j)
    decreases j
  {
    if i + 1 < j { IssueCounts(events, i, j - 1); }
  }

  /** In every run a freed handle stays dead as long as fewer than 32767 reservations have succeeded
      since the one that issued it, which is event `i` and is itself counted here. */
  lemma {:induction false} StaleHandleStaysDead<T>(views: seq<View<T>>, events: seq<Event<T>>, h: nat, i: nat, k: nat,
      j: nat)
    requires Trace(views, events) && i < k < j <= |events| && 1 <= views[i].counter <= MAX_COUNTER
    requires events[i].Issued? && events[i].handle == h && events[k] == Freed(h)
    requires Reservations(events, i, j) <= MAX_COUNTER
    ensures h !in views[j].contents
    decreases j
  {
    hide Advanced, NextCounter, ViewStep;
    assert ViewStep(views[j - 1], events[j - 1], views[j]);
    if k + 1 < j {
      StaleHandleStaysDead(views, events, h, i, k, j - 1);
      if events[j - 1].Issued? { CounterDiffers(views, events, i, j - 1); }
      DeadStep(views[j - 1], events[j - 1], views[j], h);
    } else {
      DeadStep(views[j - 1], events[j - 1], views[j], h);
    }
  }

  lemma DeadStep<T>(v: View<T>, e: Event<T>, v': View<T>, h: nat)
    requires ViewStep(v, e, v')
    requires e == Freed(h) || (h !in v.contents && (e.Issued? ==> v.counter != h / COUNTER_UNIT))
    ensures h !in v'.contents
  {
  }

  /** Until it has gone round once, the counter is not the one that event `i` put into its handle. */
  lemma CounterDiffers<T>(views: seq<View<T>>, events: seq<Event<T>>, i: nat, j: nat)
    requires Trace(views, events) && i < j <= |events| && 1 <= views[i].counter <= MAX_COUNTER
    requires events[i].Issued? && Reservations(events, i, j) < MAX_COUNTER
    ensures views[j].counter != events[i].handle / COUNTER_UNIT
  {
    hide Advanced, NextCounter;
    CounterAdvances(views, events, i, j);
    IssueCounts(events, i, j);
    assert ViewStep(views[i], events[i], views[i + 1]);
    AdvancedNext(views[i].counter, Reservations(events, i, j));
  }

  /** A run of calls on a concrete table. */
  datatype History<T> = History(tables: seq<Table<T>>, ops: seq<Op<T>>, events: seq<Event<T>>)

  ghost predicate Called<T(!new)>(h: History<T>, i: nat)
    requires i < |h.ops| == |h.events| && |h.tables| == |h.ops| + 1
  {
    Valid(h.tables[i]) && OpOk(h.ops[i]) && TableStep(h.tables[i], h.ops[i], h.events[i], h.tables[i + 1])
  }

  ghost predicate IsHistory<T(!new)>(h: History<T>) {
    && |h.ops| == |h.events| && |h.tables| == |h.ops| + 1
    && Valid(h.tables[0])
    && forall i | 0 <= i < |h.ops| :: Called(h, i)
  }

  lemma {:induction false} HistoryValid<T(!new)>(h: History<T>, i: nat)
    requires IsHistory(h) && i <= |h.ops|
    ensures Valid(h.tables[i])
  {
    if i != 0 {
      assert Called(h, i - 1);
      TableRefinesMap(h.tables[i - 1], h.ops[i - 1], h.events[i - 1], h.tables[i]);
    }
  }

  ghost predicate Seen<T(!new)>(v: View<T>, t: Table<T>) {
    Valid(t) && v == ViewOf(t)
  }

  lemma HistoryStep<T(!new)>(h: History<T>, i: nat, v: View<T>, v': View<T>)
    requires IsHistory(h) && i < |h.ops| && Seen(v, h.tables[i]) && Seen(v', h.tables[i + 1])
    ensures ViewStep(v, h.events[i], v')
  {
    assert Called(h, i);
    TableRefinesMap(h.tables[i], h.ops[i], h.events[i], h.tables[i + 1]);
  }

  lemma {:induction false} HistoryViews<T(!new)>(h: History<T>, n: nat) returns (views: seq<View<T>>)
    requires IsHistory(h) && n <= |h.ops|
    ensures |views| == n + 1 && forall i | 0 <= i <= n :: Seen(views[i], h.tables[i])
  {
    HistoryValid(h, n);
    var last := ViewOf(h.tables[n]);
    assert Seen(last, h.tables[n]);
    if n == 0 {
      views := [last];
    } else {
      views := HistoryViews(h, n - 1);
      views := views + [last];
    }
  }

  /** Every run of calls on a concrete table is a run of the finite map. */
  lemma HistoryRefines<T(!new)>(h: History<T>) returns (views: seq<View<T>>)
    requires IsHistory(h)
    ensures Trace(views, h.events)
    ensures forall i | 0 <= i < |views| :: Seen(views[i], h.tables[i])
  {
    views := HistoryViews(h, |h.ops|);
    forall i | 0 <= i < |h.events| ensures ViewStep(views[i], h.events[i], views[i + 1]) {
      HistoryStep(h, i, views[i], views[i + 1]);
    }
  }

  /** A freed handle resolves to nothing and is refused by `Free` while fewer than 32767 reservations
      have succeeded since the one that issued it. */
  lemma StaleHandleRefused<T(!new)>(run: History<T>, h: nat, i: nat, k: nat, j: nat)
    requires IsHistory(run) && i < k < j <= |run.ops| && h % COUNTER_UNIT != MAX_HANDLES
    requires run.events[i].Issued? && run.events[i].handle == h && run.events[k] == Freed(h)
    requires Reservations(run.events, i, j) <= MAX_COUNTER
    ensures Valid(run.tables[j]) && Lookup(run.tables[j], h) == None && !Free(run.tables[j], h).ok
  {
    var views := HistoryRefines(run);
    assert Seen(views[i], run.tables[i]) && Seen(views[j], run.tables[j]);
    StaleHandleStaysDead(views, run.events, h, i, k, j);
    LookupRefines(run.tables[j], h);
    FreeRefines(run.tables[j], h);
  }

  /** An issued handle resolves to the object it was issued for until it is freed. */
  lemma IssuedHandleResolves<T(!new)>(run: History<T>, i: nat, j: nat)
    requires IsHistory(run) && i < j <= |run.ops| && run.events[i].Issued?
    requires forall k | i < k < j :: run.events[k] != Freed(run.events[i].handle)
    ensures Valid(run.tables[j]) && run.events[i].handle % COUNTER_UNIT < MAX_HANDLES
    ensures Lookup(run.tables[j], run.events[i].handle) == Some(run.events[i].obj)
  {
    var views := HistoryRefines(run);
    var h := run.events[i].handle;
    assert Seen(views[j], run.tables[j]);
    assert ViewStep(views[i], run.events[i], views[i + 1]);
    HandleKeepsObject(views, run.events, h, i + 1, j);
    LiveIff(run.tables[j], h);
    LookupRefines(run.tables[j], h);
  }

  /** Handle `h` is freed and the next reservation issues `h'`. */
  ghost predicate Recycled<T(!new)>(t: Table<T>, h: nat, t': Table<T>, h': nat) {
    && Valid(t) && OpOk<T>(FreeOp(h))
    && var f := Free(t, h);
       f.ok && Valid(f.table) && exists obj :: Reserve(f.table, obj) == Reservation(true, t', h')
  }

  lemma ContentsBound<T(!new)>(t: Table<T>)
    requires Valid(t)
    ensures t.active <= MAX_HANDLES
  {
    var free :| Threads(t, free);
  }

  lemma RecycleOnce<T(!new)>(t: Table<T>, h: nat, obj: T) returns (t': Table<T>, h': nat)
    requires Valid(t) && h in Contents(t)
    ensures Recycled(t, h, t', h') && Valid(t') && h' in Contents(t')
    ensures h % COUNTER_UNIT < MAX_HANDLES && h' == Handle(h % COUNTER_UNIT, t.counter)
            && t'.counter == NextCounter(t.counter)
  {
    LiveIff(t, h);
    FreeRefines(t, h);
    ContentsBound(t);
    var f := Free(t, h).table;
    var r := Reserve(f, obj);
    ReserveRefines(f, obj);
    t', h' := r.table, r.handle;
  }

  lemma {:induction false} Churn<T(!new)>(t: Table<T>, h: nat, obj: T, c: nat, m: nat, n: nat)
      returns (ts: seq<Table<T>>, hs: seq<nat>)
    requires Valid(t) && h in Contents(t)
    requires 1 <= c <= MAX_COUNTER && h / COUNTER_UNIT == Advanced(c, m) && t.counter == Advanced(c, m + 1)
    ensures |ts| == |hs| == n + 1 && ts[0] == t && hs[0] == h
    ensures forall i | 0 <= i < n :: Recycled(ts[i], hs[i], ts[i + 1], hs[i + 1])
    ensures hs[n] == Handle(h % COUNTER_UNIT, Advanced(c, m + n))
    decreases n
  {
    hide Contents, Valid, Recycled;
    if n == 0 {
      ts, hs := [t], [h];
    } else {
      var t', h' := RecycleOnce(t, h, obj);
      HandleFields(h % COUNTER_UNIT, t.counter);
      AdvancedNext(c, m + 1);
      ts, hs := Churn(t', h', obj, c, m + 1, n - 1);
      ts, hs := [t] + ts, [h] + hs;
    }
  }

  /** The bound of 32767 is tight: freeing and reserving in turn issues the first handle again as the
      32767th reservation after its own. */
  lemma StaleHandleReissued<T(!new)>(t: Table<T>, obj: T) returns (ts: seq<Table<T>>, hs: seq<nat>)
    requires Valid(t) && Reserve(t, obj).ok
    ensures |ts| == |hs| == MAX_COUNTER + 1 && ts[0] == Reserve(t, obj).table && hs[0] == Reserve(t, obj).handle
    ensures forall i | 0 <= i < MAX_COUNTER :: Recycled(ts[i], hs[i], ts[i + 1], hs[i + 1])
    ensures hs[MAX_COUNTER] == hs[0]
  {
    hide *;
    FirstIssue(t, obj);
    AdvancedNext(t.counter, 0);
    var r := Reserve(t, obj);
    ts, hs := Churn(r.table, r.handle, obj, t.counter, 0, MAX_COUNTER);
  }

  lemma FirstIssue<T(!new)>(t: Table<T>, obj: T)
    requires Valid(t) && Reserve(t, obj).ok
    ensures var r := Reserve(t, obj);
            && Valid(r.table) && 1 <= t.counter <= MAX_COUNTER && r.handle in Contents(r.table)
            && r.handle / COUNTER_UNIT == t.counter && r.handle == Handle(r.handle % COUNTER_UNIT, t.counter)
            && r.table.counter == NextCounter(t.counter)
  {
    ReserveRefines(t, obj);
    HandleFields(HeadSlot(t), t.counter);
  }

  /** The table itself.  Each method runs under the table's mutex, as one step. */
  class HandleTable<T(!new)> {
    const counters: array<int>
    const objects: array<Option<T>>
    var indiceIter: int
    var activeHandles: int
    var counterValue: nat

    ghost function Model(): Table<T>
      reads this, counters, objects
    {
      Table(counters[..], objects[..], indiceIter, activeHandles, counterValue)
    }

    constructor ()
      ensures Model() == Initial() && Valid(Model()) && fresh(counters) && fresh(objects)
    {
      counters := new int[MAX_HANDLES];
      objects := new Option<T>[MAX_HANDLES](_ => None);
      indiceIter, activeHandles, counterValue := -1, 0, 1;
      new;
      Initialize();
    }

    method Initialize()
      requires counters.Length == objects.Length == MAX_HANDLES
      modifies this, counters, objects
      ensures Model() == Initial() && Valid(Model())
    {
      activeHandles := 0;
      counterValue := 1;
      var i := 0;
      while i < MAX_HANDLES
        invariant 0 <= i <= MAX_HANDLES && activeHandles == 0 && counterValue == 1
        invariant i != 0 ==> indiceIter == i - 1
        invariant forall j | 0 <= j < i :: counters[j] == j - 1 && objects[j] == None
      {
        objects[i] := None;
        counters[i] := i - 1;
        indiceIter := i;
        i := i + 1;
      }
      InitialValid<T>();
      hide Valid;
    }

    method ReserveHandle(obj: T) returns (ok: bool, handle: nat)
      requires Valid(Model())
      modifies this, counters, objects
      ensures Reservation(ok, Model(), handle) == Reserve(old(Model()), obj) && Valid(Model())
    {
      if MAX_HANDLES <= activeHandles { return false, 0; }
      HeadIsFree(Model());
      ReserveThreads(Model(), obj);
      hide Valid;
      var index := indiceIter % 0x10000;
      indiceIter := counters[index];
      var counter := counterValue;
      counters[index] := counter;
      objects[index] := Some(obj);
      activeHandles := activeHandles + 1;
      var next := 1;
      if -1 < S16(counterValue + 1) {
        next := counterValue + 1;
      }
      counterValue := next;
      return true, index % 0x8000 + counter * COUNTER_UNIT;
    }

    method FreeHandle(handle: nat) returns (ok: bool)
      requires Valid(Model()) && handle % COUNTER_UNIT != MAX_HANDLES
      modifies this, counters, objects
      ensures Release(ok, Model()) == Free(old(Model()), handle) && Valid(Model())
    {
      if Free(Model(), handle).ok { FreeThreads(Model(), handle); }
      if handle == 0 || handle / COUNTER_UNIT == 0 { return false; }
      var index := handle % 0x8000;
      if MAX_HANDLES < index || objects[index] == None || handle / COUNTER_UNIT != counters[index] { return false; }
      objects[index] := None;
      counters[index] := indiceIter;
      indiceIter := index;
      activeHandles := activeHandles - 1;
      return true;
    }

    method GetObjectByHandle(handle: nat) returns (r: Option<T>)
      requires Valid(Model()) && handle % COUNTER_UNIT != MAX_HANDLES
      ensures r == Lookup(Model(), handle)
    {
      if handle / 0x4000_0000 != 0 || handle == 0 || handle / COUNTER_UNIT == 0 { return None; }
      var index := handle % 0x8000;
      if MAX_HANDLES < index || handle / COUNTER_UNIT != counters[index] { return None; }
      return objects[index];
    }
  }
}
