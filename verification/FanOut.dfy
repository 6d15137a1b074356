/**
 How many children a batch may start (action/batch_fanout.go), and the dispatch loop that starts them
 (action/transcode_batch.go): the files running without a worker always fit into the room left on the counted
 workers, and the batch stays within its optional limit.
 */
module FanOut {
  import opened Volumes

  /** A worker with its video capacity; counted when it is ready, or when none is. */
  datatype Worker = Worker(name: nat, capacity: nat, counted: bool)

  datatype Status = Queued | WaitingForSlot | Running | Other

  /** A batch item and the worker its child was given, by its resolved name. */
  datatype Item = Item(status: Status, worker: Option<nat>)

  function Max(a: int, b: int): int {
    if a < b then b else a
  }

  function Min(a: int, b: int): int {
    if a < b then a else b
  }

  predicate On(it: Item, w: Option<nat>) {
    it.status.Running? && it.worker == w
  }

  /** Running items on worker w, or given none yet. */
  function Load(items: seq<Item>, w: Option<nat>): nat {
    if items == [] then 0 else Load(items[..|items| - 1], w) + if On(items[|items| - 1], w) then 1 else 0
  }

  function Active(items: seq<Item>): nat {
    if items == [] then 0 else Active(items[..|items| - 1]) + if items[|items| - 1].status.Running? then 1 else 0
  }

  /** Room left on the counted workers. */
  function Room(workers: seq<Worker>, items: seq<Item>): nat {
    if workers == [] then 0
    else
      var w := workers[|workers| - 1];
      Room(workers[..|workers| - 1], items) + if w.counted then Max(0, w.capacity - Load(items, Some(w.name))) else 0
  }

  /** Room not spoken for by files that still get a worker. */
  function Spare(workers: seq<Worker>, items: seq<Item>): int {
    Room(workers, items) - Load(items, None)
  }

  predicate Named(workers: seq<Worker>) {
    forall i, j :: 0 <= i < j < |workers| ==> workers[i].name != workers[j].name
  }

  /** The room there is for new files. */
  function Slots(workers: seq<Worker>, items: seq<Item>, limit: nat): int {
    if workers == [] then Max(limit, 1) - Active(items)
    else if limit > 0 then Min(Spare(workers, items), limit - Active(items)) else Spare(workers, items)
  }

  /** batchAvailableSlots: the running items are counted by worker, then the counted workers' room is summed. */
  method AvailableSlots(workers: seq<Worker>, items: seq<Item>, limit: nat) returns (slots: int)
    ensures slots == Slots(workers, items, limit)
  {
    var running: map<nat, nat> := map[];
    var unassigned, active := 0, 0;
    var i := 0;
    while i < |items|
      invariant 0 <= i <= |items| && unassigned == Load(items[..i], None) && active == Active(items[..i])
      invariant forall w :: w in running ==> running[w] == Load(items[..i], Some(w))
      invariant forall w: nat :: w !in running ==> Load(items[..i], Some(w)) == 0
    {
      assert items[..i + 1][..i] == items[..i];
      var it := items[i];
      if it.status.Running? {
        active := active + 1;
        if it.worker.None? { unassigned := unassigned + 1; }
        else { running := running[it.worker.value := (if it.worker.value in running then running[it.worker.value] else 0) + 1]; }
      }
      i := i + 1;
    }
    assert items[..i] == items;
    if workers == [] { return Max(limit, 1) - active; }
    var available, j := -unassigned, 0;
    while j < |workers|
      invariant 0 <= j <= |workers| && available == Room(workers[..j], items) - unassigned
    {
      assert workers[..j + 1][..j] == workers[..j];
      var w := workers[j];
      if w.counted { available := available + Max(0, w.capacity - if w.name in running then running[w.name] else 0); }
      j := j + 1;
    }
    assert workers[..j] == workers;
    slots := if limit > 0 then Min(available, limit - active) else available;
  }

  // ---- What changes the room ----

  lemma {:induction false} LoadUpdated(items: seq<Item>, k: nat, it: Item, w: Option<nat>)
    requires k < |items|
    ensures Load(items[k := it], w) == Load(items, w) - (if On(items[k], w) then 1 else 0) + if On(it, w) then 1 else 0
  {
    var n := |items| - 1;
    if k == n { assert items[k := it][..n] == items[..n]; }
    else {
      assert items[k := it][..n] == items[..n][k := it];
      LoadUpdated(items[..n], k, it, w);
    }
  }

  lemma {:induction false} ActiveUpdated(items: seq<Item>, k: nat, it: Item)
    requires k < |items|
    ensures Active(items[k := it]) == Active(items) - (if items[k].status.Running? then 1 else 0) + if it.status.Running? then 1 else 0
  {
    var n := |items| - 1;
    if k == n { assert items[k := it][..n] == items[..n]; }
    else {
      assert items[k := it][..n] == items[..n][k := it];
      ActiveUpdated(items[..n], k, it);
    }
  }

  /** A worker that gains at most one item, and no other that changes, loses at most one place. */
  lemma {:induction false} RoomShrinksByOne(workers: seq<Worker>, before: seq<Item>, after: seq<Item>, gains: Option<nat>)
    requires Named(workers)
    requires forall w: nat :: Load(after, Some(w)) <= Load(before, Some(w)) + if gains == Some(w) then 1 else 0
    ensures Room(workers, after) >= Room(workers, before) - 1
    ensures (forall w :: w in workers ==> gains != Some(w.name)) ==> Room(workers, after) >= Room(workers, before)
  {
    if workers != [] {
      var most, w := workers[..|workers| - 1], workers[|workers| - 1];
      RoomShrinksByOne(most, before, after, gains);
      assert forall v :: v in most ==> v in workers;
      if gains == Some(w.name) {
        forall v | v in most ensures gains != Some(v.name) {
          var i :| 0 <= i < |most| && most[i] == v;
          assert workers[i].name != workers[|workers| - 1].name;
        }
      } else {
        assert w in workers;
        if forall v :: v in workers ==> gains != Some(v.name) {
          assert forall v :: v in most ==> gains != Some(v.name);
        }
      }
    }
  }

  /** What happens to one running item: its child gets a worker, or it stops running. Neither takes room. */
  lemma EventsKeepSpare(workers: seq<Worker>, items: seq<Item>, k: nat, it: Item)
    requires Named(workers) && k < |items| && items[k].status.Running?
    requires !it.status.Running? || (items[k].worker.None? && it.worker.Some?)
    ensures Spare(workers, items[k := it]) >= Spare(workers, items) && Active(items[k := it]) <= Active(items)
  {
    ActiveUpdated(items, k, it);
    forall w ensures Load(items[k := it], w) == Load(items, w) - (if On(items[k], w) then 1 else 0) + if On(it, w) then 1 else 0 {
      LoadUpdated(items, k, it, w);
    }
    RoomShrinksByOne(workers, items, items[k := it], if it.status.Running? then it.worker else None);
  }

  /** Starting a waiting item, wherever its child lands, uses one place at most. */
  lemma StartUsesOne(workers: seq<Worker>, items: seq<Item>, k: nat, it: Item)
    requires Named(workers) && k < |items| && !items[k].status.Running?
    ensures Spare(workers, items[k := it]) >= Spare(workers, items) - 1 && Active(items[k := it]) <= Active(items) + 1
  {
    ActiveUpdated(items, k, it);
    forall w ensures Load(items[k := it], w) == Load(items, w) + if On(it, w) then 1 else 0 {
      LoadUpdated(items, k, it, w);
    }
    RoomShrinksByOne(workers, items, items[k := it], if it.status.Running? then it.worker else None);
  }

  // ---- The dispatch loop ----

  predicate Waiting(it: Item) {
    it.status.Queued? || it.status.WaitingForSlot?
  }

  /** One turn of the loop as it turns out: the workers as they are read now, what each started child becomes,
      and what happens to running items before the next turn. */
  datatype Round = Round(workers: seq<Worker>, started: nat -> Item, order: seq<nat>, events: seq<Event>)
  datatype Event = Event(k: nat, after: Item)

  predicate Happens(items: seq<Item>, e: Event) {
    && e.k < |items| && items[e.k].status.Running?
    && (!e.after.status.Running? || (items[e.k].worker.None? && e.after.worker.Some?))
  }

  /** The queue's order names each item once. */
  predicate Once(order: seq<nat>) {
    forall i, j :: 0 <= i < j < |order| ==> order[i] != order[j]
  }

  /** The waiting items of the queue. */
  function Queue(items: seq<Item>, order: seq<nat>): seq<nat> {
    if order == [] then []
    else
      var k := order[|order| - 1];
      Queue(items, order[..|order| - 1]) + if k < |items| && Waiting(items[k]) then [k] else []
  }

  /** The first waiting items in the queue's order are started: as many as there are slots, or all of them. */
  function Started(items: seq<Item>, slots: nat, r: Round): seq<Item> {
    var first := Queue(items, r.order)[..Min(slots, |Queue(items, r.order)|)];
    seq(|items|, k requires 0 <= k < |items| => if k in first then r.started(k) else items[k])
  }

  /** Start them. */
  method StartSome(workers: seq<Worker>, items: seq<Item>, slots: nat, r: Round) returns (after: seq<Item>, n: nat)
    requires Named(workers) && Once(r.order)
    ensures |after| == |items| && n == Min(slots, |Queue(items, r.order)|)
    ensures Spare(workers, after) >= Spare(workers, items) - n && Active(after) <= Active(items) + n
    ensures after == Started(items, slots, r) && (n == 0 ==> after == items)
  {
    hide Queue, Once, Load, Active, Room, Spare, On;
    after, n := items, 0;
    var i := 0;
    NoQueue(items, r.order[..0]);
    while i < |r.order| && n < slots
      invariant 0 <= i <= |r.order| && n <= slots && |after| == |items|
      invariant Spare(workers, after) >= Spare(workers, items) - n && Active(after) <= Active(items) + n
      invariant n == |Queue(items, r.order[..i])|
      invariant forall k :: 0 <= k < |items| ==>
        after[k] == if k in Queue(items, r.order[..i]) then r.started(k) else items[k]
    {
      var k := r.order[i];
      QueueStep(items, r.order, i);
      if k < |after| && Waiting(after[k]) {
        StartUsesOne(workers, after, k, r.started(k));
        after, n := after[k := r.started(k)], n + 1;
      }
      i := i + 1;
    }
    QueuePrefix(items, r.order, i);
    if i == |r.order| { assert r.order[..i] == r.order; }
  }

  lemma {:induction false} QueueNames(items: seq<Item>, order: seq<nat>)
    ensures forall k :: k in Queue(items, order) <==> k in order && k < |items| && Waiting(items[k])
  {
    if order != [] {
      QueueNames(items, order[..|order| - 1]);
      assert order == order[..|order| - 1] + [order[|order| - 1]];
    }
  }

  lemma NoQueue(items: seq<Item>, order: seq<nat>)
    requires order == []
    ensures Queue(items, order) == []
  {
  }

  lemma QueueStep(items: seq<Item>, order: seq<nat>, i: nat)
    requires i < |order| && Once(order)
    ensures order[i] !in Queue(items, order[..i])
    ensures Queue(items, order[..i + 1]) ==
      Queue(items, order[..i]) + if order[i] < |items| && Waiting(items[order[i]]) then [order[i]] else []
  {
    QueueNames(items, order[..i]);
    assert order[..i + 1][..i] == order[..i];
  }

  lemma {:induction false} QueuePrefix(items: seq<Item>, order: seq<nat>, i: nat)
    requires i <= |order|
    ensures Queue(items, order[..i]) <= Queue(items, order)
    decreases |order|
  {
    if i == |order| {
      assert order[..i] == order;
    } else {
      QueuePrefix(items, order[..|order| - 1], i);
      assert order[..|order| - 1][..i] == order[..i];
    }
  }

  /** The items after what happens to running ones. */
  function Settled(items: seq<Item>, events: seq<Event>): (after: seq<Item>)
    ensures |after| == |items|
  {
    if events == [] then items
    else
      var before, e := Settled(items, events[..|events| - 1]), events[|events| - 1];
      if Happens(before, e) then before[e.k := e.after] else before
  }

  /** What happens to running items, whoever counts the workers. */
  method Settle(items: seq<Item>, events: seq<Event>) returns (after: seq<Item>)
    ensures after == Settled(items, events) && Active(after) <= Active(items)
    ensures forall w :: Named(w) ==> Spare(w, after) >= Spare(w, items)
  {
    after := items;
    var i := 0;
    while i < |events|
      invariant 0 <= i <= |events| && after == Settled(items, events[..i]) && Active(after) <= Active(items)
      invariant forall w :: Named(w) ==> Spare(w, after) >= Spare(w, items)
    {
      var e := events[i];
      if Happens(after, e) {
        ActiveUpdated(after, e.k, e.after);
        forall w | Named(w) ensures Spare(w, after[e.k := e.after]) >= Spare(w, after) {
          EventsKeepSpare(w, after, e.k, e.after);
        }
        after := after[e.k := e.after];
      }
      assert events[..i + 1][..i] == events[..i];
      i := i + 1;
    }
    assert events[..i] == events;
  }

  /** A turn that started something: the workers it counted, and the items when it was done. */
  datatype Turn = Turn(workers: seq<Worker>, started: seq<Item>)

  /** As the workers were counted in this turn, the files that still get one fit into the free room, and the
      batch is within its limit; without any worker at most the limit, or one, is active. */
  predicate Fits(t: Turn, limit: nat) {
    if t.workers == [] then Active(t.started) <= Max(limit, 1)
    else Spare(t.workers, t.started) >= 0 && (limit > 0 ==> Active(t.started) <= limit)
  }

  /** Turn by turn, until there is no room or nothing waits. */
  function Dispatched(items: seq<Item>, limit: nat, rounds: seq<Round>): seq<Item>
    decreases |rounds|
  {
    if rounds == [] then items
    else
      var r := rounds[0];
      var slots := Slots(r.workers, items, limit);
      if slots <= 0 || Queue(items, r.order) == [] then items
      else Dispatched(Settled(Started(items, slots, r), r.events), limit, rounds[1..])
  }

  /** stepTranscodeBatchSchedule's loop: whatever each child becomes and however the workers change between the
      turns, every turn that starts something fits its own reading of them. What happens to running items takes
      no room, so with one reading throughout the bound holds at the end too. */
  method Dispatch(items: seq<Item>, limit: nat, rounds: seq<Round>) returns (after: seq<Item>, ghost turns: seq<Turn>)
    requires forall r :: r in rounds ==> Named(r.workers) && Once(r.order)
    ensures |after| == |items| && after == Dispatched(items, limit, rounds)
    ensures forall t :: t in turns ==> Fits(t, limit)
    ensures turns == [] ==> after == items
    ensures limit > 0 ==> Active(after) <= Max(limit, Active(items))
    ensures forall w: seq<Worker> {:trigger Spare(w, after)} :: w != [] && Named(w) && Always(rounds, w) ==>
      Spare(w, after) >= Min(0, Spare(w, items))
  {
    hide Queue, Once, Load, Active, Room, Spare, On, Started;
    after, turns := items, [];
    var i := 0;
    while i < |rounds|
      invariant 0 <= i <= |rounds| && |after| == |items|
      invariant Dispatched(after, limit, rounds[i..]) == Dispatched(items, limit, rounds)
      invariant forall t :: t in turns ==> Fits(t, limit)
      invariant turns == [] ==> after == items
      invariant limit > 0 ==> Active(after) <= Max(limit, Active(items))
      invariant forall w: seq<Worker> {:trigger Spare(w, after)} :: w != [] && Named(w) && Always(rounds, w) ==>
        Spare(w, after) >= Min(0, Spare(w, items))
    {
      var r := rounds[i];
      ghost var before := after;
      assert rounds[i..][1..] == rounds[i + 1..];
      var slots := AvailableSlots(r.workers, after, limit);
      assert rounds[i..][0] == r;
      if slots <= 0 { break; }
      var n;
      after, n := StartSome(r.workers, after, slots, r);
      if n == 0 {
        assert Queue(before, r.order) == [];
        break;
      }
      turns := turns + [Turn(r.workers, after)];
      ghost var started := after;
      after := Settle(after, r.events);
      forall w: seq<Worker> | w != [] && Named(w) && Always(rounds, w) ensures Spare(w, after) >= Min(0, Spare(w, items)) {
        assert r.workers == w;
      }
      i := i + 1;
    }
  }

  ghost predicate Always(rounds: seq<Round>, w: seq<Worker>) {
    forall r :: r in rounds ==> r.workers == w
  }
}
