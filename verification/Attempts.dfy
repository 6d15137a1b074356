/**
 Encoding attempts of a batch's files (action/batch_revision.go): new settings supersede an attempt, but only
 once it ended, under a child key never used before, and every attempt stays in the record.

 What is stored of an item is in two places: its row names its child, and the coordinator's own state holds its
 generation, its history and its mark. A revision commits both together, but a schedule run that fails stores
 the state it changed without the rows.

 A child action is identified with its idempotency key: its item and the item's generation.
 */
module Attempts {
  import opened Volumes

  type Key = nat   // an item of the batch

  datatype Child = Child(item: Key, generation: nat)

  datatype Status = Pending | Running | WaitingExternal | WaitingDecision | Completed | Failed | Cancelled

  predicate Terminal(s: Status) {
    s.Completed? || s.Failed? || s.Cancelled?
  }

  predicate Active(s: Status) {
    s.Pending? || s.Running? || s.WaitingExternal?
  }

  /** One item in the coordinator's state: its generation, the attempts before, and whether it is marked. */
  datatype Ledger = Ledger(generation: nat, history: seq<nat>, pending: bool)

  /** An item as a run works on it: the attempt its row names, by generation, and its ledger. */
  datatype Item = Item(row: Option<nat>, ledger: Ledger)

  type Children = map<Child, Status>

  /** The generations recorded, each once and in order, all before the current one. */
  predicate Ordered(e: Ledger) {
    && (forall i :: 0 <= i < |e.history| ==> e.history[i] < e.generation)
    && (forall i, j :: 0 <= i < j < |e.history| ==> e.history[i] < e.history[j])
  }

  /** Every child of item k is its attempt, or in its history; its row names no other. */
  ghost predicate Accounted(k: Key, it: Item, children: Children) {
    && Ordered(it.ledger)
    && (it.row.Some? ==> it.row.value == it.ledger.generation && Child(k, it.row.value) in children)
    && (forall g :: g in it.ledger.history ==> Child(k, g) in children)
    && (forall c :: c in children && c.item == k ==>
          c.generation == it.ledger.generation || c.generation in it.ledger.history)
  }

  /** What survives any failure: no child has a later key than the item's, and each is the current one or in the
      history, unless it strayed. */
  ghost predicate Held(k: Key, it: Item, children: Children, strays: set<Child>) {
    && (it.row.Some? ==> it.row.value <= it.ledger.generation && Child(k, it.row.value) in children)
    && (forall g :: g in it.ledger.history ==> g < it.ledger.generation && Child(k, g) in children)
    && (forall c :: c in children && c.item == k ==>
          c.generation <= it.ledger.generation &&
          (c.generation == it.ledger.generation || c.generation in it.ledger.history || c in strays))
    && (it.row.Some? && it.row.value < it.ledger.generation && Child(k, it.ledger.generation) in children ==>
          Child(k, it.ledger.generation) in strays)
  }

  predicate Twice(history: seq<nat>, i: nat, j: nat) {
    i < j < |history| && history[i] == history[j]
  }

  /** An attempt is both current and in the history, or twice in the history. */
  ghost predicate Muddled(it: Item) {
    (it.row.Some? && it.row.value in it.ledger.history) || exists i, j :: Twice(it.ledger.history, i, j)
  }

  lemma MuddledIsNotAccounted(k: Key, it: Item, children: Children)
    requires Muddled(it)
    ensures !Accounted(k, it, children)
  {
    if exists i, j :: Twice(it.ledger.history, i, j) {
      var i, j :| Twice(it.ledger.history, i, j);
    }
  }

  /** An item's account holds, or a failed run muddled it. */
  ghost predicate Booked(k: Key, it: Item, children: Children, strays: set<Child>, muddled: bool) {
    Held(k, it, children, strays) && if muddled then Muddled(it) else Accounted(k, it, children)
  }

  /** recordBatchAttempt: the attempt moves to the history and the item gets a fresh key. */
  function Recorded(it: Item): Ledger {
    var before := it.ledger.history;
    Ledger(it.ledger.generation + 1, if it.row.Some? then before + [it.row.value] else before, false)
  }

  /** The relation found again by its key when the row has lost it. */
  function Named(k: Key, it: Item, children: Children): Item {
    if it.row.None? && Child(k, it.ledger.generation) in children then it.(row := Some(it.ledger.generation)) else it
  }

  lemma MuddledStays(before: Item, after: Item)
    requires Muddled(before) && before.ledger.history <= after.ledger.history
    requires before.row.Some? ==>
      after.row == before.row || before.row.value in after.ledger.history[|before.ledger.history|..]
    ensures Muddled(after)
  {
    var h, h' := before.ledger.history, after.ledger.history;
    if i, j :| Twice(h, i, j) {
      assert Twice(h', i, j);
    } else if after.row != before.row {
      var i :| 0 <= i < |h| && h[i] == before.row.value;
      var j :| |h| <= j < |h'| && h'[j] == before.row.value;
      assert Twice(h', i, j);
    }
  }

  /** Naming, marking and unmarking an item keep its books. */
  lemma NamedKeeps(k: Key, it: Item, children: Children, strays: set<Child>, muddled: bool)
    requires Booked(k, it, children, strays, muddled)
    ensures var named := Named(k, it, children);
      && Booked(k, named, children, strays, muddled)
      && Booked(k, named.(ledger := named.ledger.(pending := true)), children, strays, muddled)
      && (named.row.None? ==> Child(k, it.ledger.generation) !in children)
      && (named.row.Some? ==> Child(k, named.row.value) in children)
  {
    var named := Named(k, it, children);
    if muddled {
      MuddledStays(it, named);
      MuddledStays(it, named.(ledger := named.ledger.(pending := true)));
    }
  }

  /** Superseding keeps the books, under a key that was never used. */
  lemma RecordedKeeps(k: Key, it: Item, children: Children, strays: set<Child>, muddled: bool)
    requires Booked(k, it, children, strays, muddled)
    requires it.row.None? ==> Child(k, it.ledger.generation) !in children
    ensures Booked(k, Item(None, Recorded(it)), children, strays, muddled)
    ensures Child(k, Recorded(it).generation) !in children
  {
    var h, h' := it.ledger.history, Recorded(it).history;
    assert h' == h || (it.row.Some? && h' == h + [it.row.value]);
    assert it.row.Some? ==> h'[|h|] == it.row.value;
    if muddled { MuddledStays(it, Item(None, Recorded(it))); }
  }

  /** Stored without its row, it muddles the item. */
  lemma RecordedMuddles(k: Key, it: Item, children: Children, strays: set<Child>, muddled: bool)
    requires Booked(k, it, children, strays, muddled) && it.row.Some?
    ensures Booked(k, Item(it.row, Recorded(it)), children, strays, true)
  {
    var h, h' := it.ledger.history, Recorded(it).history;
    assert h' == h + [it.row.value] && h'[|h|] == it.row.value;
  }

  lemma BookedMoves(k: Key, it: Item, before: Children, after: Children, strays: set<Child>, muddled: bool)
    requires Booked(k, it, before, strays, muddled) && before.Keys == after.Keys
    ensures Booked(k, it, after, strays, muddled)
  {
    forall c ensures c in after <==> c in before {
      assert c in after.Keys <==> c in before.Keys;
    }
  }

  /** A child made under an item's current key is that item's attempt; it strays if the row names an older one. */
  lemma BookedMade(k: Key, it: Item, children: Children, strays: set<Child>, muddled: bool, of: Key, made: Item, s: Status)
    requires Booked(k, it, children, strays, muddled) && (k == of ==> it == made)
    requires Child(of, made.ledger.generation) !in children
    ensures var c := Child(of, made.ledger.generation);
      Booked(k, it, children[c := s], if made.row.Some? then strays + {c} else strays, muddled)
  {
  }

  /** The attempt a row names is not active any more. */
  predicate Ended(k: Key, it: Item, children: Children) {
    it.row.Some? && Child(k, it.row.value) in children && !Active(children[Child(k, it.row.value)])
  }

  /** The item's attempt, found by its key if the relation was lost, waits for a decision. */
  predicate Waits(k: Key, it: Item, children: Children) {
    var named := Named(k, it, children);
    named.row.Some? && Child(k, named.row.value) in children && children[Child(k, named.row.value)].WaitingDecision?
  }

  /** What a revision makes of an item: marked while its attempt is active, else superseded. */
  function Revised(k: Key, it: Item, children: Children): Item {
    var named := Named(k, it, children);
    if named.row.Some? && !Ended(k, named, children) then named.(ledger := named.ledger.(pending := true))
    else Item(None, Recorded(named))
  }

  /** A key's generation and history only grow. */
  predicate Onward(before: Item, after: Item) {
    before.ledger.generation <= after.ledger.generation && before.ledger.history <= after.ledger.history
  }

  ghost predicate SameFor(k: Key, before: Children, after: Children) {
    forall c: Child :: c.item == k ==> (c in before <==> c in after) && (c in before ==> after[c] == before[c])
  }

  /** Only these items' children changed, and none but by the end of its wait for a decision. */
  ghost predicate Touched(keys: seq<Key>, before: Children, after: Children) {
    && after.Keys == before.Keys && (forall k :: k !in keys ==> SameFor(k, before, after))
    && (forall c :: c in before && c in after ==>
          after[c] == before[c] || (before[c].WaitingDecision? && Terminal(after[c])))
  }

  lemma TouchedNone(keys: seq<Key>, children: Children)
    ensures Touched(keys, children, children)
  {
  }

  lemma TouchedNext(keys: seq<Key>, i: nat, c0: Children, c1: Children, c2: Children)
    requires i < |keys| && Touched(keys[..i], c0, c1) && Touched([keys[i]], c1, c2)
    ensures Touched(keys[..i + 1], c0, c2)
  {
    forall k | k !in keys[..i + 1] ensures SameFor(k, c0, c2) {
      assert keys[..i + 1] == keys[..i] + [keys[i]];
      assert SameFor(k, c0, c1) && SameFor(k, c1, c2);
    }
  }

  lemma TouchedWhole(keys: seq<Key>, i: nat, before: Children, after: Children)
    requires i <= |keys| && Touched(keys[..i], before, after)
    ensures Touched(keys, before, after)
  {
    assert forall k :: k in keys[..i] ==> k in keys;
  }

  lemma TouchedKeys(keys: seq<Key>, before: Children, after: Children)
    requires Touched(keys, before, after)
    ensures after.Keys == before.Keys
    ensures (forall c :: c in before ==> !before[c].WaitingDecision?) ==> after == before
  {
    forall c ensures c in after <==> c in before { assert c in after.Keys <==> c in before.Keys; }
  }

  lemma SameStill(keys: seq<Key>, i: nat, before: Children, after: Children)
    requires i < |keys| && Distinct(keys) && Touched(keys[..i], before, after)
    ensures SameFor(keys[i], before, after)
  {
    NotBefore(keys, i);
  }

  /** What a revision makes of an item depends on its own children alone. */
  lemma RevisedAlike(k: Key, it: Item, before: Children, after: Children)
    requires SameFor(k, before, after)
    ensures Revised(k, it, after) == Revised(k, it, before) && Waits(k, it, after) == Waits(k, it, before)
    ensures Ended(k, it, after) == Ended(k, it, before)
  {
  }

  lemma RevisedOnward(k: Key, it: Item, children: Children)
    ensures Onward(it, it) && Onward(it, Revised(k, it, children))
  {
  }

  predicate Moves(it: Item) {
    Onward(it, Item(None, Recorded(it))) && Item(None, Recorded(it)) != it
  }

  lemma RecordedMoves(it: Item)
    ensures Moves(it) && Onward(it, it)
  {
  }

  /** How retireBatchDecision ends an attempt that waits for a decision, or that it cannot. */
  datatype Retire = Rejected | CancelledNow | NotRetired

  /** Whether an item's child could be read, and how a decision it waits for could be ended. */
  datatype Reply = Reply(readable: bool, retire: Retire)

  /** A run cannot handle this item: its child cannot be read, or waits for a decision that cannot be retired. */
  predicate Stops(k: Key, it: Item, children: Children, reply: Reply) {
    !reply.readable || (Waits(k, it, children) && reply.retire.NotRetired?)
  }

  /** A schedule run, besides, does not look for a child the row has lost. */
  predicate StopsRun(k: Key, it: Item, children: Children, reply: Reply) {
    it.row.None? || Stops(k, it, children, reply)
  }

  const UNREAD := Reply(false, NotRetired)

  /** Superseded attempts, and their status when they were superseded. */
  type Replaced = map<Child, Status>

  /** Every attempt this table adds to a history is among those given up. */
  ghost predicate Explained(table: map<Key, Item>, before: map<Key, Item>, gone: Replaced) {
    forall k, g :: k in table && k in before && g in table[k].ledger.history ==>
      g in before[k].ledger.history || Child(k, g) in gone
  }

  function Ledgers(table: map<Key, Item>): map<Key, Ledger> {
    map k | k in table :: table[k].ledger
  }

  /** Every attempt in a history was given up. */
  ghost predicate Recalled(state: map<Key, Ledger>, replaced: Replaced) {
    forall k, g :: k in state && g in state[k].history ==> Child(k, g) in replaced
  }

  lemma RecalledMore(state: map<Key, Ledger>, replaced: Replaced, next: map<Key, Item>, before: map<Key, Item>, gone: Replaced)
    requires Recalled(state, replaced) && Explained(next, before, gone) && AllEnded(replaced) && AllEnded(gone)
    requires before.Keys == state.Keys == next.Keys && forall k :: k in before ==> before[k].ledger == state[k]
    ensures Recalled(Ledgers(next), replaced + gone) && AllEnded(replaced + gone)
  {
  }

  lemma NothingGone(table: map<Key, Item>)
    ensures Explained(table, table, map[]) && AllEnded(map[])
  {
  }

  lemma RecordedAdds(it: Item)
    ensures forall g :: g in Recorded(it).history ==> g in it.ledger.history || (it.row.Some? && g == it.row.value)
  {
  }

  ghost predicate AllEnded(gone: Replaced) {
    forall c :: c in gone ==> Terminal(gone[c])
  }

  lemma ExplainedNext(after: map<Key, Item>, table: map<Key, Item>, before: map<Key, Item>, left: Replaced, gone: Replaced)
    requires Explained(after, table, left) && Explained(table, before, gone) && AllEnded(left) && AllEnded(gone)
    requires after.Keys == table.Keys
    ensures Explained(after, before, gone + left) && AllEnded(gone + left)
  {
  }

  predicate Distinct(keys: seq<Key>) {
    forall i, j :: 0 <= i < j < |keys| ==> keys[i] != keys[j]
  }

  lemma NotBefore(keys: seq<Key>, i: nat)
    requires Distinct(keys) && i < |keys|
    ensures keys[i] !in keys[..i] && forall k :: k in keys[..i + 1] <==> k in keys[..i] || k == keys[i]
  {
    assert keys[..i + 1] == keys[..i] + [keys[i]];
  }

  class Batch {
    var rows: map<Key, Option<nat>>      // the attempt each item's row names
    var state: map<Key, Ledger>           // the coordinator's own state
    var children: Children
    ghost var replaced: Replaced    // attempts the stored history gave up
    ghost var muddled: set<Key>          // items whose state was stored without their row
    ghost var strays: set<Child>         // attempts made beside a row that names an older one

    function Stored(k: Key): Item
      requires k in rows && k in state
      reads `rows, `state
    {
      Item(rows[k], state[k])
    }

    /** What is stored of the items holds, and the children they name exist. */
    ghost predicate Books(table: map<Key, Item>)
      reads `children, `muddled, `strays
    {
      && (forall k :: k in table ==> Booked(k, table[k], children, strays, k in muddled))
      && (forall c :: c in children ==> c.item in table)
    }

    function Table(): (t: map<Key, Item>)
      requires rows.Keys == state.Keys
      reads `rows, `state
      ensures t.Keys == rows.Keys && forall k :: k in t ==> t[k] == Stored(k)
    {
      map k | k in rows :: Stored(k)
    }

    ghost predicate Valid()
      reads this
    {
      && rows.Keys == state.Keys && Books(Table()) && muddled <= rows.Keys
      && AllEnded(replaced) && Recalled(state, replaced)
    }

    constructor (keys: set<Key>)
      ensures Valid() && children == map[] && replaced == map[] && muddled == {} && strays == {}
      ensures rows.Keys == keys && forall k :: k in keys ==> Stored(k) == Item(None, Ledger(0, [], false))
    {
      rows, state := map k | k in keys :: None, map k | k in keys :: Ledger(0, [], false);
      children, replaced, muddled, strays := map[], map[], {}, {};
    }

    /** What any operation keeps: no child disappears, generations never fall, and only ended attempts are
        superseded; what was muddled stays so. */
    twostate predicate Kept()
      reads this
    {
      && Valid() && state.Keys == rows.Keys == old(rows.Keys)
      && old(children.Keys) <= children.Keys && old(replaced).Keys <= replaced.Keys
      && old(muddled) <= muddled && old(strays) <= strays
      && (forall k :: k in state && k in old(state) ==>
            old(state)[k].generation <= state[k].generation && old(state)[k].history <= state[k].history)
    }

    lemma AllGivenUp()
      requires Valid()
      ensures state.Keys == rows.Keys
      ensures forall k, g :: k in state && g in state[k].history ==>
        Child(k, g) in replaced && Terminal(replaced[Child(k, g)])
    {
    }

    /** An item's account holds exactly if no failed run muddled it. */
    lemma AccountedUnlessMuddled(k: Key)
      requires Valid() && k in rows
      ensures Accounted(k, Stored(k), children) <==> k !in muddled
    {
      assert Booked(k, Table()[k], children, strays, k in muddled);
      if k in muddled { MuddledIsNotAccounted(k, Stored(k), children); }
    }

    lemma BookedAt(table: map<Key, Item>, k: Key)
      requires Books(table) && k in table
      ensures Booked(k, table[k], children, strays, k in muddled)
    {
    }

    lemma BooksWith(table: map<Key, Item>, k: Key, it: Item)
      requires Books(table) && k in table && Booked(k, it, children, strays, k in muddled)
      ensures Books(table[k := it])
    {
    }

    /** What is stored is the table a run has worked out. */
    method Store(table: map<Key, Item>)
      requires table.Keys == rows.Keys
      modifies `rows, `state
      ensures rows.Keys == state.Keys == table.Keys && Table() == table
      ensures state == Ledgers(table)
    {
      rows, state := map k | k in table :: table[k].row, Ledgers(table);
    }

    /** A child made for an item under its current key. */
    method Make(k: Key)
      requires Valid() && k in rows && Child(k, state[k].generation) !in children
      modifies `children, `strays
      ensures Kept() && children == old(children)[Child(k, state[k].generation) := Pending]
      ensures strays == if rows[k].Some? then old(strays) + {Child(k, state[k].generation)} else old(strays)
    {
      hide Booked;
      var c := Child(k, state[k].generation);
      forall j | j in rows
        ensures Booked(j, Stored(j), children[c := Pending], if rows[k].Some? then strays + {c} else strays, j in muddled)
      {
        BookedAt(Table(), j);
        BookedMade(j, Stored(j), children, strays, j in muddled, k, Stored(k), Pending);
      }
      children := children[c := Pending];
      if rows[k].Some? { strays := strays + {c}; }
    }

    /** The row names the child made under the item's current key. */
    method Relate(k: Key)
      requires Valid() && k in rows && rows[k].None? && Child(k, state[k].generation) in children
      modifies `rows
      ensures Kept() && rows == old(rows)[k := Some(state[k].generation)]
    {
      hide Booked;
      BookedAt(Table(), k);
      NamedKeeps(k, Stored(k), children, strays, k in muddled);
      BooksWith(Table(), k, Item(Some(state[k].generation), state[k]));
      ghost var named := Table()[k := Item(Some(state[k].generation), state[k])];
      rows := rows[k := Some(state[k].generation)];
      assert Table() == named;
    }

    /** processBatchItem: the child the row names goes on, else the one found under the item's current key is
        adopted or created. A crash may leave a new child's relation unsaved; and a child that cannot be read is
        taken for missing, and another made beside it. */
    method Start(k: Key, saved: bool, readable: bool) returns (c: Child)
      requires Valid() && k in rows
      modifies `rows, `children, `strays
      ensures Kept() && c in children
      ensures c == Child(k, if readable && old(rows)[k].Some? then old(rows)[k].value else state[k].generation)
      ensures children == if c in old(children) then old(children) else old(children)[c := Pending]
      ensures strays == if c in old(children) || old(rows)[k].None? then old(strays) else old(strays) + {c}
      ensures readable ==> strays == old(strays)
      ensures rows == if old(rows)[k].None? && saved then old(rows)[k := Some(state[k].generation)] else old(rows)
    {
      hide Books, Booked;
      Marks(Table(), k, Named(k, Stored(k), children));
      if rows[k].Some? && readable { return Child(k, rows[k].value); }
      c := Child(k, state[k].generation);
      if c !in children { Make(k); }
      if saved && rows[k].None? { Relate(k); }
    }

    /** A child runs, waits, ends, is cancelled or retried on its own. */
    method ChildMoves(c: Child, s: Status)
      requires Valid() && c in children
      modifies `children
      ensures Kept() && children == old(children)[c := s]
    {
      hide Booked;
      MovesKeep(Table(), children[c := s]);
      children := children[c := s];
    }

    lemma MovesKeep(table: map<Key, Item>, after: Children)
      requires Books(table) && after.Keys == children.Keys
      ensures forall k :: k in table ==> Booked(k, table[k], after, strays, k in muddled)
      ensures forall c :: c in after ==> c.item in table
    {
      hide Booked;
      forall c | c in after ensures c.item in table { assert c in children.Keys; }
      forall k | k in table ensures Booked(k, table[k], after, strays, k in muddled) {
        BookedMoves(k, table[k], children, after, strays, k in muddled);
      }
    }

    /** retireBatchDecision, for an attempt that is not active: ended by itself, or its decision retired. */
    method End(table: map<Key, Item>, c: Child, retire: Retire) returns (ok: bool)
      requires Valid() && Books(table) && c in children && !Active(children[c])
      modifies `children
      ensures Valid() && Books(table) && c in children
      ensures (ok ==> Terminal(children[c])) && (!ok ==> children == old(children))
      ensures ok <==> !(old(children)[c].WaitingDecision? && retire.NotRetired?)
      ensures Touched([c.item], old(children), children)
    {
      hide Booked;
      if children[c].WaitingDecision? {
        if retire.NotRetired? { return false; }
        MovesKeep(table, children[c := if retire.Rejected? then Failed else Cancelled]);
        ChildMoves(c, if retire.Rejected? then Failed else Cancelled);
      }
      ok := true;
    }

    /** The attempt moves to the history, and the item gets a fresh key. */
    lemma Records(table: map<Key, Item>, k: Key, it: Item)
      requires Books(table) && k in table && it == Named(k, table[k], children)
      ensures Books(table[k := Item(None, Recorded(it))])
    {
      hide Booked;
      BookedAt(table, k);
      NamedKeeps(k, table[k], children, strays, k in muddled);
      RecordedKeeps(k, it, children, strays, k in muddled);
      BooksWith(table, k, Item(None, Recorded(it)));
    }

    lemma Marks(table: map<Key, Item>, k: Key, it: Item)
      requires Books(table) && k in table && it == Named(k, table[k], children)
      ensures Books(table[k := it.(ledger := it.ledger.(pending := true))])
      ensures it.row.Some? ==> Child(k, it.row.value) in children
    {
      hide Booked;
      BookedAt(table, k);
      NamedKeeps(k, table[k], children, strays, k in muddled);
      BooksWith(table, k, it.(ledger := it.ledger.(pending := true)));
    }

    /** One selected item of a revision: an active attempt is only marked, a waiting decision is retired first,
        an ended one is superseded. The related child is looked up by its key when the relation was lost. */
    method Supersede(table: map<Key, Item>, k: Key, reply: Reply)
      returns (ok: bool, next: map<Key, Item>, ghost gone: Replaced)
      requires Valid() && Books(table) && k in table
      modifies `children
      ensures next.Keys == table.Keys && (forall j :: j in table && j != k ==> next[j] == table[j])
      ensures ok <==> !Stops(k, table[k], old(children), reply)
      ensures ok ==> next[k] == Revised(k, table[k], old(children))
      ensures AllEnded(gone)
      ensures Valid() && Books(next) && Touched([k], old(children), children) && (!ok ==> children == old(children))
      ensures Explained(next, table, gone)
    {
      hide Books, Recorded, Terminal;
      next, gone := table, map[];
      if !reply.readable { return false, next, map[]; }
      var it := Named(k, table[k], children);
      Marks(table, k, it);
      if it.row.Some? {
        var c := Child(k, it.row.value);
        if Active(children[c]) { return true, table[k := it.(ledger := it.ledger.(pending := true))], map[]; }
        ok := End(table, c, reply.retire);
        if !ok { return; }
        gone := map[c := children[c]];
        assert it == Named(k, table[k], children);
      }
      RecordedAdds(it);
      Records(table, k, it);
      next := table[k := Item(None, Recorded(it))];
      ok := true;
    }

    /** The next item of a run that has only touched other items' children since it began. */
    method One(table: map<Key, Item>, k: Key, reply: Reply, ghost began: Children)
      returns (ok: bool, next: map<Key, Item>, ghost gone: Replaced)
      requires Valid() && Books(table) && k in table && SameFor(k, began, children)
      modifies `children
      ensures next.Keys == table.Keys && (forall j :: j in table && j != k ==> next[j] == table[j])
      ensures ok <==> !Stops(k, table[k], began, reply)
      ensures ok ==> next[k] == Revised(k, table[k], began)
      ensures AllEnded(gone)
      ensures Valid() && Books(next) && Touched([k], old(children), children) && (!ok ==> children == old(children))
      ensures Explained(next, table, gone)
    {
      hide Books, Revised, Waits, Ended, Explained, Recalled, AllEnded;
      RevisedAlike(k, table[k], began, children);
      ok, next, gone := Supersede(table, k, reply);
    }

    /** CommitBatchRevision: rows and state together, or nothing. */
    method Commit(next: map<Key, Item>, ghost gone: Replaced, commits: bool)
      requires Valid() && Books(next) && next.Keys == rows.Keys
      requires AllEnded(gone)
      requires forall k :: k in next ==> Onward(Stored(k), next[k])
      requires Explained(next, Table(), gone)
      modifies `rows, `state, `replaced
      ensures Kept() && Table() == if commits then next else old(Table())
      ensures replaced == if commits then old(replaced) + gone else old(replaced)
    {
      hide Books, Terminal, Explained, Recalled, AllEnded;
      if commits {
        RecalledMore(state, replaced, next, Table(), gone);
        Store(next);
        replaced := replaced + gone;
      }
    }

    /** The loop both revisions share: the chosen items in the list's order, up to one that stops it. */
    method Work(order: seq<Key>, chosen: set<Key>, reply: Key -> Reply)
      returns (reached: nat, next: map<Key, Item>, ghost gone: Replaced)
      requires Valid() && (forall k :: k in order ==> k in rows) && Distinct(order)
      modifies `children
      ensures reached <= |order| && next.Keys == rows.Keys
      ensures forall k :: k in rows ==>
        next[k] == if k in order[..reached] && k in chosen then Revised(k, Stored(k), old(children)) else Stored(k)
      ensures forall k :: k in order[..reached] && k in chosen ==> !Stops(k, Stored(k), old(children), reply(k))
      ensures reached < |order| ==>
        var k := order[reached]; k in chosen && Stops(k, Stored(k), old(children), reply(k))
      ensures AllEnded(gone)
      ensures Valid() && Books(next) && Touched(order[..reached], old(children), children)
      ensures Explained(next, Table(), gone)
    {
      hide Books, Revised, Stops, Terminal, Touched, Explained, Recalled, AllEnded;
      next, gone, reached := Table(), map[], 0;
      TouchedNone(order[..0], children);
      NothingGone(Table());
      while reached < |order|
        invariant 0 <= reached <= |order| && next.Keys == rows.Keys
        invariant forall k :: k in rows ==>
          next[k] == if k in order[..reached] && k in chosen then Revised(k, Stored(k), old(children)) else Stored(k)
        invariant forall k :: k in order[..reached] && k in chosen ==> !Stops(k, Stored(k), old(children), reply(k))
        invariant AllEnded(gone) && Explained(next, Table(), gone)
        invariant Valid() && Books(next) && Touched(order[..reached], old(children), children)
      {
        NotBefore(order, reached);
        var k := order[reached];
        ghost var before := children;
        TouchedNone([k], children);
        if k in chosen {
          var done, more;
          ghost var left;
          SameStill(order, reached, old(children), children);
          done, more, left := One(next, k, reply(k), old(children));
          if !done { return; }
          ExplainedNext(more, next, Table(), left, gone);
          next, gone := more, gone + left;
        }
        TouchedNext(order, reached, old(children), before, children);
        reached := reached + 1;
      }
    }

    /** ReconfigureBatch, once its guards hold: nothing is stored unless every selected item could be handled and
        the commit, fenced by the batch's lease, succeeds. */
    method Reconfigure(order: seq<Key>, selected: set<Key>, reply: Key -> Reply, commits: bool) returns (ok: bool)
      requires Valid() && (forall k :: k in order ==> k in rows) && Distinct(order)
      modifies `rows, `state, `children, `replaced
      ensures Kept() && Touched(order, old(children), children)
      ensures !ok ==> Table() == old(Table()) && replaced == old(replaced)
      ensures ok ==> forall k :: k in rows ==>
        Stored(k) == if k in order && k in selected then Revised(k, old(Stored(k)), old(children)) else old(Stored(k))
      ensures ok <==>
        && commits && (forall k :: k in old(state) ==> !old(state)[k].pending)
        && forall k :: k in order && k in selected ==> !Stops(k, old(Stored(k)), old(children), reply(k))
    {
      hide Books, Revised, Stops, Onward, Terminal, Touched, Explained, Recalled, AllEnded;
      TouchedNone(order, children);
      if exists k :: k in state && state[k].pending { return false; }
      ghost var before := children;
      var reached, next;
      ghost var gone;
      reached, next, gone := Work(order, selected, reply);
      TouchedWhole(order, reached, before, children);
      if reached < |order| { return false; }
      assert order[..reached] == order;
      forall k | k in next ensures Onward(Stored(k), next[k]) { RevisedOnward(k, Stored(k), before); }
      Commit(next, gone, commits);
      ok := commits;
    }

    lemma Notes(next: map<Key, Item>, done: set<Key>)
      requires Valid() && next.Keys == rows.Keys
      requires forall k :: k in rows ==> next[k].ledger == if k in done then Recorded(Stored(k)) else state[k]
      requires forall k :: k in done && k in rows ==> rows[k].Some?
      ensures forall k :: k in rows ==> Booked(k, Item(rows[k], next[k].ledger), children, strays, k in muddled + done)
      ensures forall k :: k in rows ==>
        state[k].generation <= next[k].ledger.generation && state[k].history <= next[k].ledger.history
    {
      hide Booked;
      forall k | k in rows
        ensures Booked(k, Item(rows[k], next[k].ledger), children, strays, k in muddled + done)
      {
        BookedAt(Table(), k);
        if k in done { RecordedMuddles(k, Stored(k), children, strays, k in muddled); }
      }
    }

    /** New ledgers beside the same rows. */
    method NoteLedgers(next: map<Key, Ledger>, ghost gone: Replaced, ghost marked: set<Key>)
      requires Valid() && next.Keys == rows.Keys && muddled <= marked <= rows.Keys
      requires Recalled(next, gone) && AllEnded(gone) && replaced.Keys <= gone.Keys
      requires forall k :: k in rows ==> Booked(k, Item(rows[k], next[k]), children, strays, k in marked)
      requires forall k :: k in rows ==> state[k].generation <= next[k].generation && state[k].history <= next[k].history
      modifies `state, `replaced, `muddled
      ensures Kept() && state == next && replaced == gone && muddled == marked
    {
      hide Booked, Recalled, AllEnded;
      state, replaced, muddled := next, gone, marked;
      assert forall k :: k in rows ==> Table()[k] == Item(rows[k], state[k]);
    }

    /** The failing step's checkpoint stores the coordinator's state as the run left it, and no row. */
    method NoteState(next: map<Key, Item>, ghost gone: Replaced, ghost done: set<Key>)
      requires Valid() && next.Keys == rows.Keys && done <= rows.Keys
      requires AllEnded(gone)
      requires forall k :: k in rows ==>
        next[k].ledger == if k in done then Recorded(Stored(k)) else state[k]
      requires forall k :: k in done ==> rows[k].Some?
      requires Explained(next, Table(), gone)
      modifies `state, `replaced, `muddled
      ensures Kept() && muddled == old(muddled) + done && replaced == old(replaced) + gone
      ensures forall k :: k in rows ==> state[k] == if k in done then Recorded(old(Stored(k))) else old(state)[k]
    {
      hide Terminal, Recorded, Booked, Explained, Recalled, AllEnded;
      Notes(next, done);
      RecalledMore(state, replaced, next, Table(), gone);
      NoteLedgers(Ledgers(next), replaced + gone, muddled + done);
    }

    /** The marked items a schedule run finds ended, up to the one it reached. */
    ghost function Handled(order: seq<Key>, reached: nat): set<Key>
      requires reached <= |order| && rows.Keys == state.Keys
      reads `rows, `state, `children
    {
      set k | k in order[..reached] && k in rows && state[k].pending && Ended(k, Stored(k), children)
    }

    /** What a schedule run makes of the marked items: the active ones stay as they are. */
    lemma RunMakes(k: Key)
      requires Valid() && k in rows && state[k].pending && rows[k].Some?
      ensures Revised(k, Stored(k), children) ==
        if Ended(k, Stored(k), children) then Item(None, Recorded(Stored(k))) else Stored(k)
    {
      hide Books;
      Marks(Table(), k, Stored(k));
    }

    /** applyPendingBatchAttempts, up to its commit. */
    method RunPending(order: seq<Key>, reply: Key -> Reply)
      returns (reached: nat, next: map<Key, Item>, ghost gone: Replaced)
      requires Valid() && (forall k :: k in order ==> k in rows) && Distinct(order)
      modifies `children
      ensures reached <= |order| && next.Keys == rows.Keys
      ensures forall k :: k in rows ==>
        next[k] == if k in old(Handled(order, reached)) then Item(None, Recorded(Stored(k))) else Stored(k)
      ensures forall k :: k in order[..reached] && state[k].pending ==> !StopsRun(k, Stored(k), old(children), reply(k))
      ensures reached < |order| ==>
        var k := order[reached]; state[k].pending && StopsRun(k, Stored(k), old(children), reply(k))
      ensures AllEnded(gone)
      ensures Valid() && Books(next) && Touched(order, old(children), children)
      ensures Explained(next, Table(), gone)
    {
      hide Books, Revised, Terminal, Touched, Ended, Waits, Recorded, Explained, Recalled, AllEnded;
      forall k | k in rows && state[k].pending && rows[k].Some?
        ensures Revised(k, Stored(k), children) ==
          if Ended(k, Stored(k), children) then Item(None, Recorded(Stored(k))) else Stored(k)
      {
        RunMakes(k);
      }
      var marked := set k | k in state && state[k].pending;
      var named := rows;
      ghost var before := children;
      reached, next, gone := Work(order, marked, k => if k in named && named[k].Some? then reply(k) else UNREAD);
      TouchedWhole(order, reached, before, children);
    }

    /** The run's commit, or what its failure stores. */
    method Conclude(next: map<Key, Item>, ghost gone: Replaced, ghost done: set<Key>,
            whole: bool, commits: bool, noted: bool)
      returns (ok: bool)
      requires Valid() && Books(next) && next.Keys == rows.Keys && done <= rows.Keys
      requires AllEnded(gone)
      requires forall k :: k in rows ==> next[k] == if k in done then Item(None, Recorded(Stored(k))) else Stored(k)
      requires forall k :: k in done ==> rows[k].Some?
      requires Explained(next, Table(), gone)
      modifies `rows, `state, `replaced, `muddled
      ensures Kept()
      ensures ok <==> whole && (commits || done == {})
      ensures ok ==> muddled == old(muddled) && Table() == next
      ensures !ok ==> rows == old(rows)
      ensures !ok && !noted ==> state == old(state) && muddled == old(muddled) && replaced == old(replaced)
      ensures !ok && noted ==> muddled == old(muddled) + done && forall k :: k in rows ==>
        state[k] == if k in done then Recorded(old(Stored(k))) else old(state)[k]
    {
      hide Books, Booked, Terminal, Recorded, Onward, Explained, Recalled, AllEnded;
      forall k | k in rows ensures Onward(Stored(k), Stored(k)) && Moves(Stored(k)) { RecordedMoves(Stored(k)); }
      if done != {} {
        var k :| k in done;
        assert next[k] != Stored(k);
      }
      ok := whole && (commits || next == Table());
      if ok {
        if next != Table() { Commit(next, gone, commits); }
      } else if noted {
        NoteState(next, gone, done);
      }
    }

    /** applyPendingBatchAttempts: each scheduler run supersedes the marked attempts that ended meanwhile. The run
        changes the coordinator's state in place, so when it fails, at an item or at the commit, the failing
        step's checkpoint may still store that: the items it had handled are then superseded without their rows. */
    method ApplyPending(order: seq<Key>, reply: Key -> Reply, commits: bool, noted: bool)
      returns (ok: bool, reached: nat)
      requires Valid() && (forall k :: k in order ==> k in rows) && Distinct(order)
      modifies `rows, `state, `children, `replaced, `muddled
      ensures reached <= |order|
      ensures Kept() && Touched(order, old(children), children)
      ensures forall k :: k in order[..reached] && old(state)[k].pending ==>
        !StopsRun(k, old(Stored(k)), old(children), reply(k))
      ensures reached < |order| ==>
        var k := order[reached]; old(state)[k].pending && StopsRun(k, old(Stored(k)), old(children), reply(k))
      ensures ok <==> reached == |order| && (commits || old(Handled(order, reached)) == {})
      ensures ok ==> muddled == old(muddled) && forall k :: k in rows ==>
        Stored(k) == if k in old(Handled(order, reached)) then Item(None, Recorded(old(Stored(k)))) else old(Stored(k))
      ensures !ok ==> rows == old(rows)
      ensures !ok && !noted ==> state == old(state) && muddled == old(muddled) && replaced == old(replaced)
      ensures !ok && noted ==> muddled == old(muddled) + old(Handled(order, reached)) && forall k :: k in rows ==>
        state[k] == if k in old(Handled(order, reached)) then Recorded(old(Stored(k))) else old(state)[k]
      ensures !ok && noted && old(muddled) == {} ==>
        ((forall k :: k in rows ==> Accounted(k, Stored(k), children)) <==> old(Handled(order, reached)) == {})
    {
      hide Books, Booked, Terminal, StopsRun, Recorded, Accounted, Touched, Explained, Recalled, AllEnded;
      var next;
      ghost var gone, before := map[], children;
      reached, next, gone := RunPending(order, reply);
      TouchedKeys(order, before, children);
      ok := Conclude(next, gone, old(Handled(order, reached)), reached == |order|, commits, noted);
      forall k | k in rows ensures Accounted(k, Stored(k), children) <==> k !in muddled { AccountedUnlessMuddled(k); }
    }
  }

  predicate OnlyAt(history: seq<nat>, i: nat, g: nat) {
    i < |history| && history[i] == g && forall j :: 0 <= j < |history| && j != i ==> history[j] != g
  }

  /** While an item's account holds, every attempt ever made for it is its current one or in its history, and
      there exactly once. */
  lemma OnRecordOnce(k: Key, it: Item, children: Children, c: Child)
    requires Accounted(k, it, children) && c in children && c.item == k
    ensures c.generation == it.ledger.generation <==> c.generation !in it.ledger.history
    ensures c.generation in it.ledger.history ==>
      exists i :: 0 <= i < |it.ledger.history| && OnlyAt(it.ledger.history, i, c.generation)
  {
    var history := it.ledger.history;
    if c.generation in history {
      var i :| 0 <= i < |history| && history[i] == c.generation;
      assert OnlyAt(history, i, c.generation);
    }
  }

  /** Current, in the history, or made beside a row that names an older attempt. */
  ghost predicate OnRecord(b: Batch, c: Child)
    reads b
  {
    && c.item in b.rows && c.item in b.state && c.generation <= b.state[c.item].generation
    && (c.generation == b.state[c.item].generation || c.generation in b.state[c.item].history || c in b.strays)
  }

  lemma AllOnRecord(b: Batch, c: Child)
    requires b.Valid() && c in b.children
    ensures OnRecord(b, c)
  {
    assert Booked(c.item, b.Table()[c.item], b.children, b.strays, c.item in b.muddled);
  }

  datatype Event =
    | Starts(k: Key, saved: bool, readable: bool)
    | Ends(c: Child, s: Status)
    | Revises(order: seq<Key>, selected: set<Key>, reply: Key -> Reply, commits: bool)
    | Schedules(order: seq<Key>, reply: Key -> Reply, commits: bool, noted: bool)

  method Take(b: Batch, e: Event)
    requires b.Valid()
    modifies b
    ensures b.Kept()
    ensures !(e.Schedules? && e.noted) ==> b.muddled == old(b.muddled)
    ensures !(e.Starts? && !e.readable) || old(b.muddled) == {} ==> b.strays == old(b.strays)
    ensures e.Starts? && e.k in old(b.rows) ==> Child(e.k,
      if e.readable && old(b.rows)[e.k].Some? then old(b.rows)[e.k].value else b.state[e.k].generation) in b.children
    ensures e.Ends? && e.c in old(b.children) ==> b.children == old(b.children)[e.c := e.s]
  {
    hide Booked;
    match e {
      case Starts(k, saved, readable) =>
        if k in b.rows {
          Unmuddled(b, k);
          var c := b.Start(k, saved, readable);
        }
      case Ends(c, s) =>
        if c in b.children { b.ChildMoves(c, s); }
      case Revises(order, selected, reply, commits) =>
        if Distinct(order) && forall k :: k in order ==> k in b.rows {
          var ok := b.Reconfigure(order, selected, reply, commits);
        }
      case Schedules(order, reply, commits, noted) =>
        if Distinct(order) && forall k :: k in order ==> k in b.rows {
          var ok, reached := b.ApplyPending(order, reply, commits, noted);
        }
    }
  }

  lemma Unmuddled(b: Batch, k: Key)
    requires b.Valid() && k in b.rows
    ensures k !in b.muddled && b.rows[k].Some? ==> Child(k, b.state[k].generation) in b.children
  {
    assert Booked(k, b.Table()[k], b.children, b.strays, k in b.muddled);
  }

  /** Over any sequence of starts, child outcomes, revisions, lost commits and failed schedule runs: only ended
      attempts are superseded, no key is used again, and every attempt is current or in the history, or strayed. An
      item's account holds exactly until a failed run is stored after it had superseded that item; and an attempt
      strays only beside a row that such a run left behind. */
  method Live(b: Batch, events: seq<Event>)
    requires b.Valid()
    modifies b
    ensures b.Kept()
    ensures forall k, g :: k in b.state && g in b.state[k].history ==>
      Child(k, g) in b.replaced && Terminal(b.replaced[Child(k, g)])
    ensures forall c :: c in b.children ==> OnRecord(b, c)
    ensures forall k :: k in b.rows ==> (Accounted(k, b.Stored(k), b.children) <==> k !in b.muddled)
    ensures (forall e :: e in events ==> !(e.Schedules? && e.noted)) ==> b.muddled == old(b.muddled)
    ensures (forall e :: e in events ==> !(e.Starts? && !e.readable)) ==> b.strays == old(b.strays)
  {
    hide Booked, Accounted, OnRecord, Batch.Valid;
    b.AllGivenUp();
    var i := 0;
    while i < |events|
      invariant 0 <= i <= |events| && b.Kept()
      invariant (forall e :: e in events[..i] ==> !(e.Schedules? && e.noted)) ==> b.muddled == old(b.muddled)
      invariant (forall e :: e in events[..i] ==> !(e.Starts? && !e.readable)) ==> b.strays == old(b.strays)
    {
      Take(b, events[i]);
      assert events[..i + 1] == events[..i] + [events[i]];
      i := i + 1;
    }
    assert events[..i] == events;
    b.AllGivenUp();
    forall c | c in b.children ensures OnRecord(b, c) { AllOnRecord(b, c); }
    forall k | k in b.rows ensures Accounted(k, b.Stored(k), b.children) <==> k !in b.muddled {
      b.AccountedUnlessMuddled(k);
    }
  }

  const READ := Reply(true, NotRetired)

  /** Two files are encoded. */
  method TwoStarted() returns (b: Batch)
    ensures fresh(b) && b.Valid() && b.rows == map[0 := Some(0), 1 := Some(0)] && b.muddled == {}
    ensures b.state == map[0 := Ledger(0, [], false), 1 := Ledger(0, [], false)]
    ensures b.children == map[Child(0, 0) := Pending, Child(1, 0) := Pending] && b.strays == {}
  {
    hide Booked, Batch.Valid, Batch.Books, Batch.Table;
    b := new Batch({0, 1});
    assert b.Stored(0) == b.Stored(1) == Item(None, Ledger(0, [], false));
    var c := b.Start(0, true, true);
    c := b.Start(1, true, true);
  }

  lemma ActiveIsMarked(k: Key, children: Children)
    requires Child(k, 0) in children && children[Child(k, 0)].Pending?
    ensures var it := Item(Some(0), Ledger(0, [], false));
      !Stops(k, it, children, READ) && Revised(k, it, children) == it.(ledger := Ledger(0, [], true))
  {
  }

  /** New settings mark both. */
  method MarkBoth(b: Batch)
    requires b.Valid() && b.rows == map[0 := Some(0), 1 := Some(0)]
    requires b.state == map[0 := Ledger(0, [], false), 1 := Ledger(0, [], false)]
    requires b.children == map[Child(0, 0) := Pending, Child(1, 0) := Pending]
    modifies b`rows, b`state, b`children, b`replaced
    ensures b.Valid() && b.children.Keys == {Child(0, 0), Child(1, 0)} && b.rows.Keys == b.state.Keys == {0, 1}
    ensures b.Stored(0) == b.Stored(1) == Item(Some(0), Ledger(0, [], true))
  {
    hide Booked, Stops, Revised, Touched, Batch.Books, Batch.Valid, Batch.Table;
    ActiveIsMarked(0, b.children);
    ActiveIsMarked(1, b.children);
    assert b.children.Keys == {Child(0, 0), Child(1, 0)};
    var reply := (k: Key) => READ;
    var order := [0, 1];
    ghost var before := b.children;
    var ok := b.Reconfigure(order, {0, 1}, reply, true);
    assert ok;
    TouchedKeys(order, before, b.children);
  }

  /** The first file's attempt ends. The second's waits for a decision that new settings cannot retire. */
  method EndFirst(b: Batch)
    requires b.Valid() && b.children.Keys == {Child(0, 0), Child(1, 0)}
    modifies b`children
    ensures b.Valid() && b.children == map[Child(0, 0) := Completed, Child(1, 0) := WaitingDecision]
  {
    hide Booked, Batch.Valid, Batch.Books, Batch.Table;
    b.ChildMoves(Child(0, 0), Completed);
    b.ChildMoves(Child(1, 0), WaitingDecision);
  }

  method OneEnded() returns (b: Batch)
    ensures fresh(b) && b.Valid() && b.rows.Keys == b.state.Keys == {0, 1} && b.muddled == {} && b.strays == {}
    ensures b.Stored(0) == b.Stored(1) == Item(Some(0), Ledger(0, [], true))
    ensures b.children == map[Child(0, 0) := Completed, Child(1, 0) := WaitingDecision]
  {
    hide Booked, Batch.Valid, Batch.Books, Batch.Table;
    b := TwoStarted();
    MarkBoth(b);
    EndFirst(b);
  }

  lemma StopsAtSecond(b: Batch)
    requires b.rows.Keys == b.state.Keys == {0, 1} && b.Stored(0) == b.Stored(1) == Item(Some(0), Ledger(0, [], true))
    requires b.children == map[Child(0, 0) := Completed, Child(1, 0) := WaitingDecision]
    ensures b.Handled([0, 1], 1) == {0}
    ensures !StopsRun(0, b.Stored(0), b.children, READ) && StopsRun(1, b.Stored(1), b.children, READ)
    ensures Recorded(b.Stored(0)) == Ledger(1, [0], false)
    ensures b.children.Keys == {Child(0, 0), Child(1, 0)}
  {
    assert [0, 1][..1] == [0];
  }

  /** The schedule run supersedes the first and stops at the second, and its failure is stored. */
  method FailHalfway(b: Batch)
    requires b.Valid() && b.rows.Keys == b.state.Keys == {0, 1} && b.muddled == {} && b.strays == {}
    requires b.Stored(0) == b.Stored(1) == Item(Some(0), Ledger(0, [], true))
    requires b.children == map[Child(0, 0) := Completed, Child(1, 0) := WaitingDecision]
    modifies b
    ensures b.Valid() && b.rows.Keys == b.state.Keys == {0, 1} && b.muddled == {0} && b.strays == {}
    ensures b.Stored(0) == Item(Some(0), Ledger(1, [0], false)) && b.Stored(1) == Item(Some(0), Ledger(0, [], true))
    ensures b.children.Keys == {Child(0, 0), Child(1, 0)}
  {
    hide Booked, Accounted, StopsRun, Recorded, Batch.Valid, Batch.Books, Batch.Table, Batch.Handled;
    StopsAtSecond(b);
    var reply := (k: Key) => READ;
    var order := [0, 1];
    var ok, reached := b.ApplyPending(order, reply, true, true);
    assert order[0] == 0 && order[1] == 1 && order[..2] == order;
    assert reached == 1;
    SameKeys(b);
  }

  lemma SameKeys(b: Batch)
    requires b.Valid()
    ensures b.rows.Keys == b.state.Keys
  {
  }

  /** The first file's attempt is then in its history, and still the one its row names. */
  method HalfARevision() returns (b: Batch)
    ensures fresh(b) && b.Valid() && b.rows.Keys == b.state.Keys == {0, 1} && b.muddled == {0} && b.strays == {}
    ensures b.Stored(0) == Item(Some(0), Ledger(1, [0], false)) && b.Stored(1) == Item(Some(0), Ledger(0, [], true))
    ensures b.children.Keys == {Child(0, 0), Child(1, 0)}
    ensures !Accounted(0, b.Stored(0), b.children) && Accounted(1, b.Stored(1), b.children)
  {
    hide Booked, Accounted, Batch.Valid, Batch.Books, Batch.Table;
    b := OneEnded();
    FailHalfway(b);
    b.AccountedUnlessMuddled(0);
    b.AccountedUnlessMuddled(1);
  }

  lemma OnlySecondIsMarked(b: Batch)
    requires b.rows.Keys == b.state.Keys == {0, 1}
    requires b.Stored(0) == Item(Some(0), Ledger(1, [0], false)) && b.Stored(1) == Item(Some(0), Ledger(0, [], true))
    requires Child(1, 0) in b.children && b.children[Child(1, 0)].Cancelled?
    ensures b.Handled([0, 1], 2) == {1} && !StopsRun(1, b.Stored(1), b.children, READ)
    ensures Recorded(b.Stored(1)) == Ledger(1, [0], false)
  {
    assert [0, 1][..2] == [0, 1];
  }

  /** The second file's decision is resolved, and the next run supersedes it. */
  method FinishSecond(b: Batch)
    requires b.Valid() && b.rows.Keys == b.state.Keys == {0, 1}
    requires b.Stored(0) == Item(Some(0), Ledger(1, [0], false)) && b.Stored(1) == Item(Some(0), Ledger(0, [], true))
    requires Child(1, 0) in b.children && b.children[Child(1, 0)].Cancelled?
    requires forall c :: c in b.children ==> !b.children[c].WaitingDecision?
    modifies b`rows, b`state, b`children, b`replaced, b`muddled
    ensures b.Valid() && b.rows.Keys == b.state.Keys == {0, 1} && b.children == old(b.children)
    ensures b.Stored(0) == Item(Some(0), Ledger(1, [0], false)) && b.Stored(1) == Item(None, Ledger(1, [0], false))
  {
    hide Booked, StopsRun, Recorded, Batch.Valid, Batch.Books, Batch.Table, Batch.Handled;
    OnlySecondIsMarked(b);
    var reply := (k: Key) => READ;
    var order := [0, 1];
    ghost var before := b.children;
    var ok, reached := b.ApplyPending(order, reply, true, true);
    TouchedKeys(order, before, b.children);
    assert order[0] == 0 && order[1] == 1 && order[..2] == order;
    SameKeys(b);
  }

  lemma EndedIsRecorded(children: Children)
    requires Child(0, 0) in children && children[Child(0, 0)].Completed?
    ensures var it := Item(Some(0), Ledger(1, [0], false));
      !Stops(0, it, children, READ) && Revised(0, it, children) == Item(None, Ledger(2, [0, 0], false))
  {
    assert [0] + [0] == [0, 0];
  }

  /** New settings for the first file, whose row still names the attempt in its history, record that once more. */
  method ReviseFirst(b: Batch)
    requires b.Valid() && b.rows.Keys == b.state.Keys == {0, 1}
    requires b.Stored(0) == Item(Some(0), Ledger(1, [0], false)) && b.Stored(1) == Item(None, Ledger(1, [0], false))
    requires Child(0, 0) in b.children && b.children[Child(0, 0)].Completed?
    modifies b`rows, b`state, b`children, b`replaced
    ensures b.Valid() && b.rows.Keys == b.state.Keys == {0, 1} && b.children.Keys == old(b.children.Keys)
    ensures b.Stored(0) == Item(None, Ledger(2, [0, 0], false))
  {
    hide Booked, Stops, Revised, Batch.Valid, Batch.Books, Batch.Table;
    EndedIsRecorded(b.children);
    var reply := (k: Key) => READ;
    ghost var before := b.children;
    assert forall k :: k in b.state ==> k == 0 || k == 1;
    assert !b.Stored(0).ledger.pending && !b.Stored(1).ledger.pending;
    var order := [0];
    var ok := b.Reconfigure(order, {0}, reply, true);
    TouchedKeys(order, before, b.children);
    assert order[0] == 0;
    SameKeys(b);
  }

  /** After the failed run of HalfARevision, a later revision records the first file's attempt twice. And if the
      named child could not be read in between, another was made beside it, which is then nowhere on record. */
  method RecordedTwice(readable: bool) returns (b: Batch)
    ensures b.Valid() && b.rows.Keys == b.state.Keys == {0, 1} && b.Stored(0) == Item(None, Ledger(2, [0, 0], false))
    ensures Child(0, 1) in b.children <==> !readable
  {
    hide Booked, Accounted, Batch.Valid, Batch.Books, Batch.Table;
    b := HalfARevision();
    var c := b.Start(0, true, readable);
    b.ChildMoves(Child(0, 0), Completed);
    b.ChildMoves(Child(1, 0), Cancelled);
    FinishSecond(b);
    ReviseFirst(b);
  }
}
