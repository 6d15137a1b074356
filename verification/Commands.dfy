/**
 Library commands (action/promote_sonarr.go, action/promote_retry.go): a durable intent before each POST, lost
 replies reconciled, and when a command may be sent again. The library answers whatever it likes.
 */
module Commands {
  import opened Volumes

  // ---- What counts as the recorded command ----

  datatype Json = Null | Bool(b: bool) | Num(n: int) | Str(s: string) | Arr(items: seq<Json>) | Obj(fields: seq<Field>)
  datatype Field = Field(key: string, value: Json)

  function Lower(c: char): char {
    if 'A' <= c <= 'Z' then (c as int + 32) as char else c
  }

  /** strings.EqualFold, for the ASCII letters only. */
  predicate EqualFold(a: string, b: string) {
    |a| == |b| && forall i :: 0 <= i < |a| ==> Lower(a[i]) == Lower(b[i])
  }

  /** The same ASCII letter, in either case. */
  predicate SameLetter(a: char, b: char) {
    || a == b
    || ('A' <= a <= 'Z' && b as int == a as int + 32)
    || ('A' <= b <= 'Z' && a as int == b as int + 32)
  }

  lemma FoldMeans(a: string, b: string)
    ensures EqualFold(a, b) <==> |a| == |b| && forall i :: 0 <= i < |a| ==> SameLetter(a[i], b[i])
  {
    forall i | 0 <= i < |a| && i < |b| ensures Lower(a[i]) == Lower(b[i]) <==> SameLetter(a[i], b[i]) {}
  }

  /** No later field has this one's key. */
  predicate Last(fields: seq<Field>, i: nat)
    requires i < |fields|
  {
    forall k :: i < k < |fields| ==> fields[k].key != fields[i].key
  }

  /** The value under a key: JSON decoding keeps the last of a repeated one. */
  function Get(fields: seq<Field>, key: string): (v: Option<Json>)
    ensures v.Some? ==> exists i :: 0 <= i < |fields| && fields[i] == Field(key, v.value) && Last(fields, i)
    ensures v.None? ==> forall i :: 0 <= i < |fields| ==> fields[i].key != key
  {
    if fields == [] then None
    else if fields[|fields| - 1].key == key then Some(fields[|fields| - 1].value)
    else Get(fields[..|fields| - 1], key)
  }

  predicate Distinct(fields: seq<Field>) {
    forall i, k :: 0 <= i < k < |fields| ==> fields[i].key != fields[k].key
  }

  /** promotionJSONSubset: everything wanted is there; names may differ in case. */
  predicate Subset(want: Json, got: Json, key: string)
    decreases want
  {
    match want
    case Obj(fields) =>
      got.Obj? && forall i :: 0 <= i < |fields| ==>
        var other := Get(got.fields, fields[i].key);
        other.Some? && Subset(fields[i].value, other.value, fields[i].key)
    case Arr(items) =>
      got.Arr? && |items| == |got.items| && forall i :: 0 <= i < |items| ==> Subset(items[i], got.items[i], "")
    case Str(s) =>
      got.Str? && if key == "name" || key == "importMode" then EqualFold(s, got.s) else s == got.s
    case _ => want == got
  }

  /** No object repeats a key, as in any decoded JSON. */
  predicate Decoded(j: Json)
    decreases j
  {
    match j
    case Obj(fields) => Distinct(fields) && forall i :: 0 <= i < |fields| ==> Decoded(fields[i].value)
    case Arr(items) => forall i :: 0 <= i < |items| ==> Decoded(items[i])
    case _ => true
  }

  lemma {:induction false} GetsOwn(fields: seq<Field>, i: nat)
    requires Distinct(fields) && i < |fields|
    ensures Get(fields, fields[i].key) == Some(fields[i].value)
  {
    if i < |fields| - 1 { GetsOwn(fields[..|fields| - 1], i); }
  }

  /** A command that echoes its payload, extended in any way, is found again. */
  lemma {:induction false} SubsetReflexive(j: Json, key: string)
    requires Decoded(j)
    ensures Subset(j, j, key)
    decreases j
  {
    match j
    case Obj(fields) =>
      forall i | 0 <= i < |fields| ensures Get(fields, fields[i].key).Some?
        && Subset(fields[i].value, Get(fields, fields[i].key).value, fields[i].key) {
        GetsOwn(fields, i);
        SubsetReflexive(fields[i].value, fields[i].key);
      }
    case Arr(items) =>
      forall i | 0 <= i < |items| ensures Subset(items[i], items[i], "") { SubsetReflexive(items[i], ""); }
    case _ =>
  }

  lemma {:induction false} Found(fields: seq<Field>, key: string) returns (k: nat)
    requires Get(fields, key).Some?
    ensures k < |fields| && fields[k] == Field(key, Get(fields, key).value)
  {
    k := |fields| - 1;
    if fields[k].key != key { k := Found(fields[..k], key); }
  }

  lemma {:induction false} SubsetTransitive(a: Json, b: Json, c: Json, key: string)
    requires Subset(a, b, key) && Subset(b, c, key) && Decoded(b)
    ensures Subset(a, c, key)
    decreases a
  {
    match a
    case Obj(fields) =>
      forall i | 0 <= i < |fields| ensures Get(c.fields, fields[i].key).Some?
        && Subset(fields[i].value, Get(c.fields, fields[i].key).value, fields[i].key) {
        var k := Found(b.fields, fields[i].key);
        SubsetTransitive(fields[i].value, b.fields[k].value, Get(c.fields, fields[i].key).value, fields[i].key);
      }
    case Arr(items) =>
      forall i | 0 <= i < |items| ensures Subset(items[i], c.items[i], "") {
        SubsetTransitive(items[i], b.items[i], c.items[i], "");
      }
    case _ =>
  }

  // ---- What a match means, path by path ----

  datatype Step = Under(key: string) | Item(i: nat)

  /** What is found along a path, if it leads anywhere. */
  function Along(j: Json, path: seq<Step>): Option<Json> {
    if path == [] then Some(j)
    else match path[0]
      case Under(key) =>
        if j.Obj? && Get(j.fields, key).Some? then Along(Get(j.fields, key).value, path[1..]) else None
      case Item(i) =>
        if j.Arr? && i < |j.items| then Along(j.items[i], path[1..]) else None
  }

  /** The key a path ends under; an array item has none. */
  function KeyOf(path: seq<Step>, key: string): string {
    if path == [] then key
    else match path[|path| - 1]
      case Under(last) => last
      case Item(_) => ""
  }

  /** Two values agree but for what they contain. */
  predicate Alike(a: Json, b: Json, key: string) {
    match a
    case Obj(_) => b.Obj?
    case Arr(items) => b.Arr? && |items| == |b.items|
    case Str(s) => b.Str? && (s == b.s || ((key == "name" || key == "importMode") && EqualFold(s, b.s)))
    case _ => a == b
  }

  predicate Agrees(want: Json, got: Json, key: string, path: seq<Step>) {
    Along(want, path).Some? ==>
      Along(got, path).Some? && Alike(Along(want, path).value, Along(got, path).value, KeyOf(path, key))
  }

  /** A command matches a payload exactly if every path the payload has leads to an agreeing value in the command. */
  lemma {:induction false} SubsetMeans(want: Json, got: Json, key: string)
    requires Decoded(want)
    ensures Subset(want, got, key) <==> forall path :: Agrees(want, got, key, path)
    decreases want
  {
    if Subset(want, got, key) {
      forall path ensures Agrees(want, got, key, path) { SubsetAgrees(want, got, key, path); }
    } else {
      var path := Disagrees(want, got, key);
    }
  }

  lemma {:induction false} SubsetAgrees(want: Json, got: Json, key: string, path: seq<Step>)
    requires Subset(want, got, key)
    ensures Agrees(want, got, key, path)
    decreases path
  {
    if path != [] && Along(want, path).Some? {
      match path[0]
      case Under(k) =>
        var i := Found(want.fields, k);
        SubsetAgrees(Get(want.fields, k).value, Get(got.fields, k).value, k, path[1..]);
      case Item(i) =>
        SubsetAgrees(want.items[i], got.items[i], "", path[1..]);
    }
  }

  /** The path to a disagreement. */
  lemma {:induction false} Disagrees(want: Json, got: Json, key: string) returns (path: seq<Step>)
    requires Decoded(want) && !Subset(want, got, key)
    ensures !Agrees(want, got, key, path)
    decreases want
  {
    path := [];
    if Alike(want, got, key) {
      match want
      case Obj(fields) =>
        var i :| 0 <= i < |fields| &&
          !(&& Get(got.fields, fields[i].key).Some?
            && Subset(fields[i].value, Get(got.fields, fields[i].key).value, fields[i].key));
        GetsOwn(fields, i);
        var rest := [];
        if Get(got.fields, fields[i].key).Some? {
          rest := Disagrees(fields[i].value, Get(got.fields, fields[i].key).value, fields[i].key);
        }
        path := [Under(fields[i].key)] + rest;
        assert path[1..] == rest && KeyOf(path, key) == KeyOf(rest, fields[i].key);
        assert Along(want, path) == Along(fields[i].value, rest);
        assert !Agrees(want, got, key, path);
      case Arr(items) =>
        var i: nat :| i < |items| && !Subset(items[i], got.items[i], "");
        var rest := Disagrees(items[i], got.items[i], "");
        path := [Item(i)] + rest;
        assert path[1..] == rest && KeyOf(path, key) == KeyOf(rest, "");
    }
  }

  datatype Progress = Unfinished | Completed | FailedState

  /** One entry of the library's command list. */
  datatype Listed = Listed(id: int, body: Json, state: Progress)

  predicate Matches(payload: Json, c: Listed) {
    c.id > 0 && Subset(payload, c.body, "")
  }

  /** promotionFindCommand: one command matches, or none; two are an error. */
  method FindCommand(list: seq<Listed>, payload: Json) returns (ok: bool, found: Option<Listed>)
    ensures ok && found.Some? ==> found.value in list && Matches(payload, found.value)
    ensures ok && found.Some? ==> forall i, k :: 0 <= i < k < |list| ==> !(Matches(payload, list[i]) && Matches(payload, list[k]))
    ensures ok && found.None? ==> forall c :: c in list ==> !Matches(payload, c)
    ensures !ok ==> exists i, k :: 0 <= i < k < |list| && Matches(payload, list[i]) && Matches(payload, list[k])
  {
    found := None;
    var i := 0;
    ghost var at := 0;
    while i < |list|
      invariant 0 <= i <= |list|
      invariant found.None? ==> forall k :: 0 <= k < i ==> !Matches(payload, list[k])
      invariant found.Some? ==> 0 <= at < i && found.value == list[at] && Matches(payload, list[at])
      invariant found.Some? ==> forall k :: 0 <= k < i && k != at ==> !Matches(payload, list[k])
    {
      if Matches(payload, list[i]) {
        if found.Some? { return false, None; }
        found, at := Some(list[i]), i;
      }
      i := i + 1;
    }
    ok := true;
  }

  /** The one command in the list that matches. */
  predicate OnlyMatch(list: seq<Listed>, payload: Json, c: Listed) {
    exists i :: 0 <= i < |list| && list[i] == c && Matches(payload, c) && Alone(list, payload, i)
  }

  predicate Alone(list: seq<Listed>, payload: Json, i: nat) {
    forall k :: 0 <= k < |list| && k != i ==> !Matches(payload, list[k])
  }

  lemma OnlyOne(list: seq<Listed>, payload: Json)
    ensures forall a, b :: OnlyMatch(list, payload, a) && OnlyMatch(list, payload, b) ==> a == b
  {
    hide Matches;
  }

  /** What that finds is the only match. */
  method FindOnly(list: seq<Listed>, payload: Json) returns (ok: bool, found: Option<Listed>)
    ensures ok && found.Some? ==> found.value.id > 0 && forall c :: OnlyMatch(list, payload, c) <==> c == found.value
    ensures !ok || found.None? ==> forall c :: !OnlyMatch(list, payload, c)
  {
    ok, found := FindCommand(list, payload);
    OnlyOne(list, payload);
  }

  // ---- Sending one ----

  datatype Key = Import | Rename | Rescan

  /** One recorded command. sentAt is its intent's unique time; 0 before any intent. */
  datatype Command = Command(sentAt: nat, payload: Json, id: int, done: bool, failed: bool)

  datatype Reply = Unavailable | NotFound | Unreadable | Status(listed: Listed)

  /** What the store and the library answer to one call. */
  datatype Event = Event(
    crash: bool,
    stores: bool, reached: bool,      // a save reports success; a failed one may still have been stored
    recent: bool,                     // the intent is less than two minutes old
    accepted: int,                    // the id a POST's reply names, or none: lost, refused or unreadable
    reply: Reply,
    listing: Option<seq<Listed>>)

  datatype Outcome = Done | Failed | Waiting | Undecided | Crashed

  /** Without an answer a step neither completes nor fails: it waits a little, then asks a person. */
  predicate Stays(o: Outcome, e: Event, later: Event) {
    o == if e.crash then Crashed else if later.recent then Waiting else Undecided
  }

  /** How a save that did not succeed ends a step. */
  function SaveFails(e: Event): Outcome {
    if e.crash then Crashed else Failed
  }

  /** What a step makes of the state of its command. */
  function OutcomeOf(state: Progress): Outcome {
    match state
    case Completed => Done
    case FailedState => Failed
    case Unfinished => Waiting
  }

  /** A POST that left this process. */
  datatype Post = Post(key: Key, sentAt: nat)

  /** What has happened: POSTs in order, intents whose completion the library confirmed to a retry, intents
      stored as failed, imports whose file the library was seen to use, and the time. */
  datatype Log = Log(posts: seq<Post>, confirmed: set<nat>, failures: set<nat>, adopted: set<nat>, now: nat)

  /** What the library says about a sent command when it is asked: by its id, or in its list. */
  ghost predicate Heard(cmd: Command, e: Event, state: Progress) {
    && !e.crash
    && if cmd.id > 0 then e.reply.Status? && e.reply.listed.id == cmd.id && e.reply.listed.state == state
       else e.listing.Some? && exists c :: OnlyMatch(e.listing.value, cmd.payload, c) && c.state == state
  }

  /** What it says about one it just accepted. */
  predicate Replied(id: int, e: Event, state: Progress) {
    && !e.crash && e.accepted == id && id > 0
    && state == if e.reply.Status? then e.reply.listed.state else Unfinished
  }

  /** An answer about this very command: to a lookup by its id, in a list in which it alone matches, or to its
      own POST. */
  ghost predicate Answers(cmd: Command, e: Event, state: Progress) {
    && cmd.id > 0
    && ( || Heard(cmd, e, state) || Replied(cmd.id, e, state)
         || (e.listing.Some? && exists c :: OnlyMatch(e.listing.value, cmd.payload, c) && c.id == cmd.id && c.state == state))
  }

  /** The library has given such an answer. */
  ghost predicate Told(env: nat -> Event, clock: nat, cmd: Command, state: Progress) {
    exists at :: 0 <= at < clock && Answers(cmd, env(at), state)
  }

  /** A command is recorded as done only if the library said that it completed, or was seen to use the imported
      file; and as failed only if the library said so. */
  ghost predicate Truthful(env: nat -> Event, clock: nat, cmd: Command, adopted: set<nat>) {
    && (cmd.done ==> Told(env, clock, cmd, Completed) || cmd.sentAt in adopted)
    && (cmd.failed ==> Told(env, clock, cmd, FailedState))
  }

  lemma ToldAlike(env: nat -> Event, clock: nat, a: Command, b: Command)
    requires a.id == b.id && a.payload == b.payload
    ensures forall state :: Told(env, clock, a, state) <==> Told(env, clock, b, state)
  {
    hide OnlyMatch;
    forall e, state ensures Answers(a, e, state) <==> Answers(b, e, state) {}
  }

  lemma TruthfulLater(env: nat -> Event, clock: nat, later: nat, cmd: Command, adopted: set<nat>, more: set<nat>)
    requires Truthful(env, clock, cmd, adopted) && clock <= later && adopted <= more
    ensures Truthful(env, later, cmd, more)
  {
    hide Answers;
  }

  /** A command without an id was never reported on. */
  lemma Untold(env: nat -> Event, clock: nat, cmd: Command, adopted: set<nat>)
    requires Truthful(env, clock, cmd, adopted) && cmd.id <= 0
    ensures !cmd.failed
  {
  }

  lemma ToldLater(env: nat -> Event, clock: nat, later: nat, cmd: Command, state: Progress)
    requires Told(env, clock, cmd, state) && clock <= later
    ensures Told(env, later, cmd, state)
  {
    hide Answers;
  }

  /** A later intent may exist: the import was confirmed complete, another command's failure is stored. */
  predicate Superseded(p: Post, log: Log) {
    if p.key.Import? then p.sentAt in log.confirmed else p.sentAt in log.failures
  }

  /** One intent has one POST at most; a second intent follows only a confirmed import or a stored failure. */
  predicate AtMostOnce(log: Log) {
    && (forall i, j :: 0 <= i < j < |log.posts| ==> log.posts[i].sentAt != log.posts[j].sentAt)
    && (forall i, j :: 0 <= i < j < |log.posts| && log.posts[i].key == log.posts[j].key ==> Superseded(log.posts[i], log))
  }

  /** Every command ever sent is still the recorded one, or may have been followed by another. */
  predicate Accounts(table: map<Key, Command>, log: Log) {
    && (forall p :: p in log.posts ==> (p.key in table && table[p.key].sentAt == p.sentAt) || Superseded(p, log))
    && (forall k :: k in table ==> table[k].sentAt <= log.now)
  }

  predicate Sound(dur: map<Key, Command>, mem: map<Key, Command>, log: Log) {
    && Accounts(dur, log) && Accounts(mem, log) && AtMostOnce(log)
    && (forall k :: k in dur && dur[k].failed ==> dur[k].sentAt in log.failures)
    && (forall p :: p in log.posts ==> 0 < p.sentAt <= log.now)
  }

  /** The newest intent was not sent yet. */
  predicate Unsent(log: Log) {
    log.now > 0 && forall p :: p in log.posts ==> p.sentAt < log.now
  }

  /** The history only grows. */
  predicate Grows(a: Log, b: Log) {
    a.posts <= b.posts && a.confirmed <= b.confirmed && a.failures <= b.failures && a.adopted <= b.adopted && a.now <= b.now
  }

  lemma StoredFailure(dur: map<Key, Command>, mem: map<Key, Command>, log: Log)
    requires Sound(dur, mem, log)
    ensures forall k :: k in dur && dur[k].failed && !k.Import? ==> Superseded(Post(k, dur[k].sentAt), log)
  {
  }

  lemma Growing()
    ensures forall a :: Grows(a, a)
    ensures forall a, b, c {:trigger Grows(a, b), Grows(b, c)} :: Grows(a, b) && Grows(b, c) ==> Grows(a, c)
  {
  }

  predicate Stores(e: Event) {
    !e.crash && e.stores
  }

  class Sender {
    const env: nat -> Event
    var clock: nat
    var dur: map<Key, Command>        // stored
    var mem: map<Key, Command>        // the running step's
    var now: nat
    ghost var log: Log

    ghost predicate Valid()
      reads this
    {
      && Sound(dur, mem, log) && log.now == now
      && (forall k :: k in dur ==> Truthful(env, clock, dur[k], log.adopted))
      && (forall k :: k in mem ==> Truthful(env, clock, mem[k], log.adopted))
    }

    constructor (env: nat -> Event)
      ensures Valid() && log == Log([], {}, {}, {}, 0) && dur == map[] && mem == map[]
    {
      this.env, clock, now, dur, mem, log := env, 0, 0, map[], map[], Log([], {}, {}, {}, 0);
    }

    twostate predicate Kept()
      reads this
    {
      Valid() && Grows(old(log), log)
    }

    method Next() returns (e: Event)
      requires Valid()
      modifies `clock
      ensures Kept() && e == env(old(clock)) && clock == old(clock) + 1
    {
      hide Sound, Truthful;
      e := env(clock);
      forall k | k in dur ensures Truthful(env, clock + 1, dur[k], log.adopted) {
        TruthfulLater(env, clock, clock + 1, dur[k], log.adopted, log.adopted);
      }
      forall k | k in mem ensures Truthful(env, clock + 1, mem[k], log.adopted) {
        TruthfulLater(env, clock, clock + 1, mem[k], log.adopted, log.adopted);
      }
      clock := clock + 1;
    }

    /** The running record reaches the store: by a save, or by the engine's next checkpoint. */
    method Store()
      requires Valid()
      modifies `dur, `log
      ensures Kept() && dur == mem && log == old(log).(failures := log.failures)
    {
      hide Truthful;
      log := log.(failures := log.failures + set k | k in mem && mem[k].failed :: mem[k].sentAt);
      dur := mem;
    }

    method Save() returns (o: Outcome)
      requires Valid()
      modifies `clock, `dur, `log
      ensures Kept() && log == old(log).(failures := log.failures)
      ensures o == (if Stores(env(old(clock))) then Done else SaveFails(env(old(clock)))) && (o.Done? ==> dur == mem)
      ensures dur == mem || dur == old(dur)
      ensures clock == old(clock) + 1
    {
      hide Sound, Truthful;
      var e := Next();
      if e.crash { return Crashed; }
      if e.stores || e.reached { Store(); }
      o := if e.stores then Done else Failed;
    }

    /** The engine's checkpoint after a step: what the step left in memory is stored, unless that save fails. */
    method Checkpoint()
      requires Valid()
      modifies `clock, `dur, `log
      ensures Kept() && log == old(log).(failures := log.failures) && clock == old(clock) + 1
      ensures dur == if env(old(clock)).stores || env(old(clock)).reached then mem else old(dur)
    {
      hide Sound, Truthful, Grows;
      Growing();
      var e := Next();
      if e.stores || e.reached { Store(); }
    }

    /** A crash, or a new run: only the stored record is left. */
    method Reload()
      requires Valid()
      modifies `mem
      ensures Valid() && mem == dur
    {
      hide Truthful;
      mem := dur;
    }

    /** A new intent under a key whose earlier one, if any, may be followed. */
    method Intend(key: Key, payload: Json)
      requires Valid()
      requires key in mem && mem[key].sentAt != 0 ==> Superseded(Post(key, mem[key].sentAt), log)
      modifies `mem, `now, `log
      ensures Kept() && key in mem && mem == old(mem)[key := Command(now, payload, 0, false, false)]
      ensures now == old(now) + 1 && log == old(log).(now := now) && Unsent(log)
    {
      hide Told;
      now := now + 1;
      log := log.(now := now);
      mem := mem[key := Command(now, payload, 0, false, false)];
    }

    /** The one place a command leaves: its intent is stored and was never sent. */
    method PostOnce(key: Key) returns (e: Event)
      requires Valid() && key in mem && dur == mem && mem[key].sentAt == now && Unsent(log)
      modifies `clock, `log
      ensures Kept() && log == old(log).(posts := old(log).posts + [Post(key, now)])
      ensures e == env(old(clock)) && clock == old(clock) + 1
    {
      hide Truthful;
      e := Next();
      log := log.(posts := log.posts + [Post(key, now)]);
    }

    /** Change what is known of the recorded command, never its intent. */
    method Note(key: Key, id: int, done: bool, failed: bool)
      requires Valid() && key in mem && Truthful(env, clock, mem[key].(id := id, done := done, failed := failed), log.adopted)
      modifies `mem
      ensures Valid() && mem == old(mem)[key := old(mem)[key].(id := id, done := done, failed := failed)]
    {
      hide Truthful;
      mem := mem[key := mem[key].(id := id, done := done, failed := failed)];
    }

    /** promotionUncertain: wait a little, then ask a person; never send again. */
    method Uncertain() returns (o: Outcome)
      requires Valid()
      modifies `clock
      ensures Kept() && o == (if env(old(clock)).recent then Waiting else Undecided) && clock == old(clock) + 1
    {
      var e := Next();
      o := if e.recent then Waiting else Undecided;
    }

    /** What a state that was observed makes of the recorded command. */
    function Noted(cmd: Command, state: Progress): Command {
      cmd.(done := cmd.done || state.Completed?, failed := cmd.failed || state.FailedState?)
    }

    /** The observed state of the command is recorded before it is acted on. */
    method Settle(key: Key, state: Progress) returns (o: Outcome)
      requires Valid() && key in mem && (state.Unfinished? || Told(env, clock, mem[key], state))
      modifies `clock, `dur, `log, `mem
      ensures Kept() && log == old(log).(failures := log.failures)
      ensures mem == old(mem)[key := Noted(old(mem)[key], state)]
      ensures state.Unfinished? ==> dur == old(dur)
      ensures !state.Unfinished? && Stores(env(old(clock))) ==> dur == mem
      ensures state.Unfinished? || Stores(env(old(clock))) ==> o == OutcomeOf(state)
      ensures !state.Unfinished? && !Stores(env(old(clock))) ==> o == SaveFails(env(old(clock)))
    {
      hide Sound, Grows, Matches, Subset, Told;
      Growing();
      if state.Unfinished? { return Waiting; }
      ToldAlike(env, clock, mem[key], Noted(mem[key], state));
      Note(key, mem[key].id, state.Completed? || mem[key].done, state.FailedState? || mem[key].failed);
      o := Save();
      if o.Done? && state.FailedState? { o := Failed; }
    }

    /** The id of the command is stored at one call, and a final state at the next. */
    ghost predicate Recorded(at: nat, state: Progress) {
      Stores(env(at)) && (state.Unfinished? || Stores(env(at + 1)))
    }

    /** Otherwise the step stops there, */
    ghost function Unrecorded(at: nat): Outcome {
      SaveFails(env(if Stores(env(at)) then at + 1 else at))
    }

    /** and acts on a state only once its id is stored. */
    ghost function Half(cmd: Command, at: nat, state: Progress): Command {
      if Stores(env(at)) then Noted(cmd, state) else cmd
    }

    /** The id of a command that was just learnt is stored, and only then its state acted on. */
    method Identify(key: Key, id: int, state: Progress) returns (o: Outcome)
      requires Valid() && key in mem && !mem[key].done && mem[key].id <= 0 < id && Told(env, clock, mem[key].(id := id), state)
      modifies `clock, `dur, `log, `mem
      ensures Kept() && log == old(log).(failures := log.failures) && key in mem && mem == old(mem)[key := mem[key]]
      ensures if Recorded(old(clock), state)
        then o == OutcomeOf(state) && dur == mem && mem[key] == Noted(old(mem)[key].(id := id), state)
        else o == Unrecorded(old(clock)) && mem[key] == Half(old(mem)[key].(id := id), old(clock), state)
    {
      hide Sound, Grows, Matches, Subset, Told;
      Growing();
      Untold(env, clock, mem[key], log.adopted);
      ToldLater(env, clock, clock + 1, mem[key].(id := id), state);
      Note(key, id, false, false);
      o := Save();
      if o.Done? { o := Settle(key, state); }
    }

    /** The stored intent is sent once; a reply that identifies no command leaves it to reconciliation. What the
        reply says of the command is recorded, and decides. */
    method Submit(key: Key) returns (o: Outcome)
      requires Valid() && key in mem && dur == mem && mem[key] == Command(now, mem[key].payload, 0, false, false) && Unsent(log)
      modifies `clock, `dur, `log, `mem
      ensures Kept() && log == old(log).(posts := old(log).posts + [Post(key, now)], failures := log.failures)
      ensures key in mem && mem == old(mem)[key := mem[key]] && mem[key].payload == old(mem)[key].payload
      ensures env(old(clock)).crash || env(old(clock)).accepted <= 0 ==>
        Stays(o, env(old(clock)), env(old(clock) + 1)) && mem == dur == old(mem)
      ensures forall state :: Replied(env(old(clock)).accepted, env(old(clock)), state) && Recorded(old(clock) + 1, state) ==>
        && o == OutcomeOf(state) && dur == mem
        && mem[key] == Noted(old(mem)[key].(id := env(old(clock)).accepted), state)
      ensures forall state :: Replied(env(old(clock)).accepted, env(old(clock)), state) && !Recorded(old(clock) + 1, state) ==>
        && o == Unrecorded(old(clock) + 1)
        && mem[key] == Half(old(mem)[key].(id := env(old(clock)).accepted), old(clock) + 1, state)
      ensures o.Done? ==> dur == mem && mem[key].done && Replied(env(old(clock)).accepted, env(old(clock)), Completed)
    {
      hide Sound, Grows, Matches, Subset, Heard;
      Growing();
      ghost var at := clock;
      var e := PostOnce(key);
      if e.crash { return Crashed; }
      if e.accepted <= 0 {
        o := Uncertain();
        return;
      }
      var state := if e.reply.Status? then e.reply.listed.state else Unfinished;
      assert Answers(mem[key].(id := e.accepted), env(at), state);
      o := Identify(key, e.accepted, state);
    }

    /** A new intent is stored, then sent. */
    method SendNew(key: Key, payload: Json) returns (o: Outcome)
      requires Valid() && mem == dur
      requires key in mem && mem[key].sentAt != 0 ==> Superseded(Post(key, mem[key].sentAt), log)
      modifies `clock, `dur, `log, `mem, `now
      ensures Kept() && key in mem && mem[key].payload == payload && log.adopted == old(log).adopted
      ensures log.posts == old(log).posts + if Stores(env(old(clock))) then [Post(key, old(now) + 1)] else []
      ensures !Stores(env(old(clock))) ==> o == SaveFails(env(old(clock)))
      ensures Stores(env(old(clock))) ==> Submitted(old(clock) + 1, key, Command(old(now) + 1, payload, 0, false, false), o)
      ensures o.Done? ==> dur == mem && mem[key].done
    {
      hide Sound, Grows, Matches, Subset, Truthful, Replied;
      Growing();
      Intend(key, payload);
      o := Save();
      if o.Done? { o := Submit(key); }
    }

    /** How sending the stored intent at one call ends: by what the reply says of it, once that is recorded. */
    ghost predicate Submitted(at: nat, key: Key, cmd: Command, o: Outcome)
      reads `mem, `dur
    {
      && key in mem
      && (env(at).crash || env(at).accepted <= 0 ==> Stays(o, env(at), env(at + 1)) && dur == mem && mem[key] == cmd)
      && (forall state :: Replied(env(at).accepted, env(at), state) && Recorded(at + 1, state) ==>
            o == OutcomeOf(state) && dur == mem && mem[key] == Noted(cmd.(id := env(at).accepted), state))
      && (forall state :: Replied(env(at).accepted, env(at), state) && !Recorded(at + 1, state) ==>
            o == Unrecorded(at + 1) && mem[key] == Half(cmd.(id := env(at).accepted), at + 1, state))
      && (o.Done? ==> Replied(env(at).accepted, env(at), Completed))
    }

    /** How looking a sent command up at one call ends: by what the library says of it, once that is recorded. */
    ghost predicate LookedUp(at: nat, key: Key, cmd: Command, o: Outcome)
      reads `mem, `dur
    {
      && key in mem
      && ((forall state :: !Heard(cmd, env(at), state)) ==>
            && dur == mem && mem[key] == cmd
            && if !env(at).crash && cmd.id > 0 && env(at).reply.Unavailable? then o.Waiting?
               else Stays(o, env(at), env(at + 1)))
      && (forall state :: Heard(cmd, env(at), state) && RecordedOf(cmd, at + 1, state) ==>
            && o == OutcomeOf(state) && dur == mem
            && mem[key] == Noted(cmd.(id := mem[key].id), state) && (cmd.id > 0 ==> mem[key].id == cmd.id))
      && (forall state :: Heard(cmd, env(at), state) && !RecordedOf(cmd, at + 1, state) ==>
            if cmd.id > 0 then o == SaveFails(env(at + 1)) && mem[key] == Noted(cmd, state)
            else o == Unrecorded(at + 1) && mem[key] == Half(cmd.(id := mem[key].id), at + 1, state))
      && (o.Done? ==> Heard(cmd, env(at), Completed))
    }

    /** An id already on record need not be stored again. */
    ghost predicate RecordedOf(cmd: Command, at: nat, state: Progress) {
      if cmd.id > 0 then state.Unfinished? || Stores(env(at)) else Recorded(at, state)
    }

    /** A sent command is only looked up, by its id or in the library's list. */
    method Reconcile(key: Key) returns (o: Outcome)
      requires Valid() && mem == dur && key in mem && !mem[key].done
      modifies `clock, `dur, `log, `mem
      ensures Kept() && log == old(log).(failures := log.failures)
      ensures LookedUp(old(clock), key, old(mem)[key], o) && mem == old(mem)[key := mem[key]]
      ensures o.Done? ==> dur == mem && mem[key].done
    {
      hide Sound, Grows, Matches, Subset, OnlyMatch;
      Growing();
      var cmd := mem[key];
      var e := Next();
      if e.crash { return Crashed; }
      if cmd.id > 0 {
        if e.reply.Unavailable? { return Waiting; }
        if !e.reply.Status? || e.reply.listed.id != cmd.id {
          o := Uncertain();
          return;
        }
        assert Heard(cmd, env(old(clock)), e.reply.listed.state);
        o := Settle(key, e.reply.listed.state);
      } else {
        o := FindAndSettle(key, e);
      }
    }

    /** A command whose id is unknown is the one in the list that its payload identifies. */
    method FindAndSettle(key: Key, e: Event) returns (o: Outcome)
      requires Valid() && mem == dur && key in mem && !mem[key].done && mem[key].id <= 0
      requires clock > 0 && e == env(clock - 1) && !e.crash
      modifies `clock, `dur, `log, `mem
      ensures Kept() && log == old(log).(failures := log.failures)
      ensures LookedUp(old(clock) - 1, key, old(mem)[key], o) && mem == old(mem)[key := mem[key]]
      ensures o.Done? ==> dur == mem && mem[key].done
    {
      hide Sound, Grows, Matches, Subset, OnlyMatch;
      Growing();
      var cmd := mem[key];
      var ok, found := false, None;
      if e.listing.Some? { ok, found := FindOnly(e.listing.value, cmd.payload); }
      if !ok || found.None? {
        o := Uncertain();
        return;
      }
      assert Heard(cmd, e, found.value.state);
      assert Answers(cmd.(id := found.value.id), env(old(clock) - 1), found.value.state);
      o := Identify(key, found.value.id, found.value.state);
    }

    /** Nothing was sent under the key yet, or what was sent failed for certain and may be repeated. */
    predicate MaySend(key: Key, retryConfirmedFailure: bool)
      reads `mem
    {
      key !in mem || (!mem[key].done && if mem[key].failed then retryConfirmedFailure else mem[key].sentAt == 0)
    }

    /** promotionCommandWithSave. A POST is sent for exactly an intent that has none, the first under its key
        or one after a stored failure its caller may repeat, once that intent is stored; any other is looked up. */
    method Send(key: Key, payload: Json, retryConfirmedFailure: bool) returns (o: Outcome)
      requires Valid() && mem == dur && (key.Import? ==> !retryConfirmedFailure)
      modifies `clock, `dur, `log, `mem, `now
      ensures Kept() && log.adopted == old(log).adopted
      ensures log.posts == old(log).posts +
        if old(MaySend(key, retryConfirmedFailure)) && Stores(env(old(clock))) then [Post(key, old(now) + 1)] else []
      ensures o.Done? ==> key in mem && dur == mem && mem[key].done
      ensures key in old(mem) && old(mem)[key].done ==> o.Done? && mem == old(mem)
      ensures key in old(mem) && !old(mem)[key].done && !old(MaySend(key, retryConfirmedFailure)) ==>
        if old(mem)[key].failed then o.Failed? && mem == old(mem) else LookedUp(old(clock), key, old(mem)[key], o)
      ensures old(MaySend(key, retryConfirmedFailure)) ==>
        if Stores(env(old(clock))) then Submitted(old(clock) + 1, key, Command(old(now) + 1, payload, 0, false, false), o)
        else o == SaveFails(env(old(clock)))
    {
      hide Sound, Grows, Matches, Subset, Submitted, LookedUp, Truthful;
      Growing();
      if key in mem && mem[key].done { return Done; }
      if key in mem && mem[key].failed && !retryConfirmedFailure { return Failed; }
      StoredFailure(dur, mem, log);
      if key !in mem || mem[key].failed || mem[key].sentAt == 0 {
        o := SendNew(key, payload);
      } else {
        o := Reconcile(key);
      }
    }

    /** stepPromoteImport, when the library already uses the candidate: the sent import is done. */
    method NoteAdopted() returns (o: Outcome)
      requires Valid() && mem == dur
      modifies `clock, `dur, `log, `mem
      ensures Kept() && log.posts == old(log).posts
      ensures o.Done? <==> Import in old(mem) && old(mem)[Import].sentAt != 0 && Stores(env(old(clock)))
      ensures o.Done? ==> dur == old(mem)[Import := old(mem)[Import].(done := true)]
      ensures o == if !(Import in old(mem) && old(mem)[Import].sentAt != 0) then Waiting
        else if Stores(env(old(clock))) then Done else SaveFails(env(old(clock)))
      ensures o.Waiting? ==> mem == dur == old(mem) && log == old(log)
      ensures !o.Waiting? ==> log.adopted == old(log).adopted + {old(mem)[Import].sentAt}
    {
      hide Sound, Grows, Matches, Subset;
      Growing();
      if Import !in mem || mem[Import].sentAt == 0 { return Waiting; }
      See(mem[Import].sentAt);
      Note(Import, mem[Import].id, true, mem[Import].failed);
      o := Save();
    }

    /** The library was seen to use the file of this import. */
    ghost method See(sentAt: nat)
      requires Valid()
      modifies `log
      ensures Kept() && log == old(log).(adopted := old(log).adopted + {sentAt})
    {
      log := log.(adopted := log.adopted + {sentAt});
    }

    /** The library says that this very command completed, and so does the record. */
    static predicate ConfirmsImport(cmd: Command, e: Event) {
      && cmd.done && cmd.id > 0 && !cmd.failed && !e.crash
      && e.reply.Status? && e.reply.listed.id == cmd.id && e.reply.listed.state.Completed? && Matches(cmd.payload, e.reply.listed)
    }

    /** prepareRestoredOriginalRetry: the intent to import is dropped, so that a fresh one may follow, only after
        the library confirms that this very command completed, and every other proof held. */
    method PrepareRestoredOriginalRetry() returns (o: Outcome)
      requires Valid() && mem == dur
      modifies `clock, `dur, `log, `mem
      ensures Kept() && log.posts == old(log).posts
      ensures Import in old(dur) && Import !in mem ==> old(dur)[Import].sentAt in log.confirmed && old(dur)[Import].done
      ensures o.Done? <==>
        && Import in old(mem) && ConfirmsImport(old(mem)[Import], env(old(clock)))
        && Stores(env(old(clock) + 1)) && Stores(env(old(clock) + 2))
      ensures o.Done? ==> Import !in dur && dur == old(dur) - {Import}
      ensures mem ==
        if Import in old(mem) && ConfirmsImport(old(mem)[Import], env(old(clock))) && Stores(env(old(clock) + 1))
        then old(mem) - {Import} else old(mem)
      ensures log.adopted == old(log).adopted && (mem == old(mem) ==> dur == old(dur))
      ensures o.Done? || o.Failed? || o.Crashed?
      ensures o.Crashed? <==>
        && Import in old(mem) && old(mem)[Import].done && old(mem)[Import].id > 0 && !old(mem)[Import].failed
        && (env(old(clock)).crash || (ConfirmsImport(old(mem)[Import], env(old(clock)))
            && (env(old(clock) + 1).crash || (env(old(clock) + 1).stores && env(old(clock) + 2).crash))))
    {
      hide Sound, Grows, Matches, Subset;
      Growing();
      if Import !in mem || !mem[Import].done || mem[Import].id <= 0 || mem[Import].failed { return Failed; }
      var cmd := mem[Import];
      var e := Next();
      if e.crash { return Crashed; }
      if !e.reply.Status? || e.reply.listed.id != cmd.id || !e.reply.listed.state.Completed?
        || !Matches(cmd.payload, e.reply.listed) { return Failed; }
      Confirm(cmd.sentAt);
      // The library snapshot, the recovery, both files and the reservation are checked next.
      var checks := Next();
      if checks.crash { return Crashed; }
      if !checks.stores { return Failed; }
      Drop();
      o := Save();
    }

    /** The library confirmed that this intent's command completed. */
    ghost method Confirm(sentAt: nat)
      requires Valid()
      modifies `log
      ensures Kept() && log == old(log).(confirmed := old(log).confirmed + {sentAt})
    {
      log := log.(confirmed := log.confirmed + {sentAt});
    }

    /** Forget a confirmed import. */
    method Drop()
      requires Valid() && Import in mem && mem[Import].sentAt in log.confirmed
      modifies `mem
      ensures Valid() && mem == old(mem) - {Import}
    {
      mem := mem - {Import};
    }
  }

  datatype Call = SendImport(payload: Json) | SendRename(payload: Json) | SendRescan(payload: Json) | Adopted | RetryRestored

  /** One step's command, and the engine's checkpoint after it unless the process died. */
  method Take(s: Sender, call: Call)
    requires s.Valid() && s.mem == s.dur
    modifies s
    ensures s.Kept() && s.mem == s.dur
    ensures !call.Adopted? ==> s.log.adopted == old(s.log).adopted
  {
    hide Sound, Grows, Truthful, Sender.Submitted, Sender.LookedUp;
    Growing();
    var o;
    match call {
      case SendImport(payload) => o := s.Send(Import, payload, false);
      case SendRename(payload) => o := s.Send(Rename, payload, true);
      case SendRescan(payload) => o := s.Send(Rescan, payload, true);
      case Adopted => o := s.NoteAdopted();
      case RetryRestored => o := s.PrepareRestoredOriginalRetry();
    }
    if !o.Crashed? { s.Checkpoint(); }
    s.Reload();
  }

  /** Over any sequence of steps, crashes, lost replies, resumes and retries, each intent is sent at most once,
      and another follows only a confirmed import or a stored failure. A command is recorded as done only if the
      library has answered of it that it completed, or was seen to use the imported file; and as failed only if the
      library has answered that it failed. */
  method Live(s: Sender, calls: seq<Call>)
    requires s.Valid() && s.mem == s.dur
    modifies s
    ensures s.Kept() && s.mem == s.dur
    ensures AtMostOnce(s.log)
    ensures forall k :: k in s.dur ==> Truthful(s.env, s.clock, s.dur[k], s.log.adopted)
    ensures (forall c :: c in calls ==> !c.Adopted?) ==> s.log.adopted == old(s.log).adopted
  {
    hide Grows, Truthful;
    Growing();
    var i := 0;
    while i < |calls|
      invariant 0 <= i <= |calls| && s.Kept() && s.mem == s.dur
      invariant (forall c :: c in calls ==> !c.Adopted?) ==> s.log.adopted == old(s.log).adopted
    {
      Take(s, calls[i]);
      i := i + 1;
    }
  }
}
