/**
 The price cache: readers check under the read lock, check again under the write lock,
 load the item row and its entry prices, and stamp the result; writers commit first and
 invalidate afterwards. Time is in seconds.
 */
module PriceCache {
  import opened Pricing

  const TTL := 60

  /** The committed history of one item: its row and its entry prices, with commit times.
      Version v of a column is the v-th committed value. */
  datatype Row = Row(services: seq<Item>, serviceTimes: seq<int>,
                     entries: seq<map<EntryKey, EntryPrice>>, entryTimes: seq<int>)

  datatype Versions = Versions(service: int, entries: int)
  datatype Cached = Cached(v: Versions, serviceReadAt: int, entriesReadAt: int, loadedAt: int)

  /** An administrator call on the item (a batch is one writer per item), or new entry prices. */
  datatype Write = Admin(op: AdminOp) | WriteEntries(m: map<EntryKey, EntryPrice>)

  datatype Pc =
    | Start
    | WantLock
    | Locked
    | ServiceRead(service: int, at: int)
    | BothRead(v: Versions, at: int, entriesAt: int)
    | Served(c: Cached, servedAt: int)
    | Failed
    | Committed(v: Versions)         // a writer that has committed and not invalidated yet
    | Invalidated(v: Versions)

  datatype Job = Lookup(id: ItemId, floor: Versions) | Writer(id: ItemId, w: Write)
  datatype Thread = Thread(job: Job, pc: Pc)
  datatype Lock = Unlocked | HeldBy(thread: nat)

  /** selfUse is the site's mode; it does not change in a run. */
  datatype World = World(now: int, db: map<ItemId, Row>, cache: map<ItemId, Cached>, lock: Lock,
                         flushed: map<ItemId, Versions>, threads: seq<Thread>, selfUse: bool)

  function Max(a: int, b: int): int { if a < b then b else a }

  /** The newest versions of id whose writers have invalidated the cache. */
  function Flushed(w: World, id: ItemId): Versions {
    if id in w.flushed then w.flushed[id] else Versions(0, 0)
  }

  predicate Fresh(w: World, id: ItemId) { id in w.cache && w.now - w.cache[id].loadedAt < TTL }

  /** The item can be read: it exists and is not deleted. */
  predicate Live(db: map<ItemId, Row>, id: ItemId) {
    id in db && db[id].services != [] && !db[id].services[|db[id].services| - 1].deleted
  }

  /** The items an administrator call on id sees. */
  function Seen(db: map<ItemId, Row>, id: ItemId): map<ItemId, Item> {
    if id in db && db[id].services != [] then map[id := db[id].services[|db[id].services| - 1]] else map[]
  }

  datatype Change = NewItem(it: Item) | NewEntries(m: map<EntryKey, EntryPrice>)

  /** What a writer commits, if its call is accepted. */
  function Outcome(w: World, id: ItemId, wr: Write): Maybe<Change> {
    match wr
    case Admin(op) =>
      var seen := Seen(w.db, id);
      if Accepted(seen, op, w.selfUse) && id in Effect(seen, op) then Just(NewItem(Effect(seen, op)[id])) else Nothing
    case WriteEntries(m) => if Live(w.db, id) then Just(NewEntries(m)) else Nothing
  }

  function Commit(r: Row, c: Change, now: int): Row {
    match c
    case NewItem(it) => r.(services := r.services + [it], serviceTimes := r.serviceTimes + [now])
    case NewEntries(m) => r.(entries := r.entries + [m], entryTimes := r.entryTimes + [now])
  }

  function CommittedBy(r: Row, c: Change): Versions {
    match c
    case NewItem(_) => Versions(|r.services|, 0)
    case NewEntries(_) => Versions(0, |r.entries|)
  }

  /** A new item has no entry prices. */
  function FirstRow(it: Item, now: int): Row { Row([it], [now], [map[]], [now]) }

  /** The threads when thread i has moved on to pc. */
  function To(w: World, i: nat, pc: Pc): (ts: seq<Thread>)
    requires i < |w.threads|
    ensures |ts| == |w.threads| && ts[i] == Thread(w.threads[i].job, pc)
    ensures forall j :: 0 <= j < |ts| && j != i ==> ts[j] == w.threads[j]
  {
    w.threads[i := Thread(w.threads[i].job, pc)]
  }

  /** What one step of a writer may touch, and where the writer is then. */
  datatype WriterMove = WriterMove(db: map<ItemId, Row>, cache: map<ItemId, Cached>,
                                   flushed: map<ItemId, Versions>, pc: Pc)

  function CommitMove(w: World, id: ItemId, wr: Write): WriterMove {
    var c := Outcome(w, id, wr);
    if c.Nothing? then WriterMove(w.db, w.cache, w.flushed, Failed)
    else if id in w.db then
      WriterMove(w.db[id := Commit(w.db[id], c.value, w.now)], w.cache, w.flushed,
                 Committed(CommittedBy(w.db[id], c.value)))
    else if c.value.NewItem? then
      WriterMove(w.db[id := FirstRow(c.value.it, w.now)], w.cache, w.flushed, Committed(Versions(0, 0)))
    else WriterMove(w.db, w.cache, w.flushed, Failed)
  }

  function InvalidateMove(w: World, id: ItemId, v: Versions): WriterMove {
    if w.lock != Unlocked then WriterMove(w.db, w.cache, w.flushed, Committed(v))
    else
      var f := Flushed(w, id);
      WriterMove(w.db, w.cache - {id},
                 w.flushed[id := Versions(Max(f.service, v.service), Max(f.entries, v.entries))], Invalidated(v))
  }

  /** A price writer commits, then invalidates under the cache lock. */
  function NextOfWriter(w: World, id: ItemId, wr: Write, pc: Pc): WriterMove {
    match pc
    case Start => CommitMove(w, id, wr)
    case Committed(v) => InvalidateMove(w, id, v)
    case _ => WriterMove(w.db, w.cache, w.flushed, pc)
  }

  function WriterStep(w: World, i: nat): (w': World)
    requires i < |w.threads| && w.threads[i].job.Writer?
    ensures |w'.threads| == |w.threads|
  {
    var m := NextOfWriter(w, w.threads[i].job.id, w.threads[i].job.w, w.threads[i].pc);
    w.(db := m.db, cache := m.cache, flushed := m.flushed, threads := To(w, i, m.pc))
  }

  /** What one step of a lookup may touch, and where the lookup is then. */
  datatype LookupMove = LookupMove(cache: map<ItemId, Cached>, lock: Lock, pc: Pc)

  /** A lookup; the read lock excludes a loader and an invalidation. */
  function NextOfLookup(w: World, i: nat, id: ItemId, pc: Pc): LookupMove {
    match pc
    case Start =>
      LookupMove(w.cache, w.lock,
                 if w.lock != Unlocked then Start
                 else if Fresh(w, id) then Served(w.cache[id], w.now) else WantLock)
    case WantLock =>
      if w.lock != Unlocked then LookupMove(w.cache, w.lock, WantLock) else LookupMove(w.cache, HeldBy(i), Locked)
    case Locked =>
      if Fresh(w, id) then LookupMove(w.cache, Unlocked, Served(w.cache[id], w.now))
      else if !Live(w.db, id) then LookupMove(w.cache, Unlocked, Failed)
      else LookupMove(w.cache, w.lock, ServiceRead(|w.db[id].services| - 1, w.now))
    case ServiceRead(v, at) =>
      LookupMove(w.cache, w.lock,
                 if id !in w.db then pc else BothRead(Versions(v, |w.db[id].entries| - 1), at, w.now))
    case BothRead(v, at, entriesAt) =>
      var c := Cached(v, at, entriesAt, w.now);
      LookupMove(w.cache[id := c], Unlocked, Served(c, w.now))
    case _ => LookupMove(w.cache, w.lock, pc)
  }

  function LookupStep(w: World, i: nat): (w': World)
    requires i < |w.threads| && w.threads[i].job.Lookup?
    ensures |w'.threads| == |w.threads|
  {
    var m := NextOfLookup(w, i, w.threads[i].job.id, w.threads[i].pc);
    w.(cache := m.cache, lock := m.lock, threads := To(w, i, m.pc))
  }

  function Step(w: World, i: nat): (w': World)
    requires i < |w.threads|
    ensures |w'.threads| == |w.threads|
  {
    if w.threads[i].job.Writer? then WriterStep(w, i) else LookupStep(w, i)
  }

  datatype Event =
    | BeginLookup(id: ItemId)
    | BeginWrite(id: ItemId, w: Write)
    | Proceed(i: nat)
    | InvalidateAll
    | Tick(seconds: nat)

  function Apply(w: World, e: Event): World {
    match e
    case BeginLookup(id) => w.(threads := w.threads + [Thread(Lookup(id, Flushed(w, id)), Start)])
    case BeginWrite(id, wr) => w.(threads := w.threads + [Thread(Writer(id, wr), Start)])
    case Proceed(i) => if i < |w.threads| then Step(w, i) else w
    case InvalidateAll => if w.lock == Unlocked then w.(cache := map[]) else w
    case Tick(d) => w.(now := w.now + d)
  }

  function Run(w: World, es: seq<Event>): World {
    if es == [] then w else Apply(Run(w, es[..|es| - 1]), es[|es| - 1])
  }

  // ----------------------------------------------------------------- invariant

  predicate Covers(v: Versions, floor: Versions) { v.service >= floor.service && v.entries >= floor.entries }

  predicate RowOk(r: Row, now: int) {
    && |r.services| == |r.serviceTimes| > 0 && |r.entries| == |r.entryTimes| > 0
    && (forall k :: 0 <= k < |r.serviceTimes| ==> r.serviceTimes[k] <= now)
    && (forall k :: 0 <= k < |r.entryTimes| ==> r.entryTimes[k] <= now)
  }

  /** Version v was the current one at time t. */
  predicate CurrentAt(times: seq<int>, v: int, t: int) {
    0 <= v < |times| && times[v] <= t && (v + 1 < |times| ==> t <= times[v + 1])
  }

  predicate CachedOk(w: World, id: ItemId, c: Cached) {
    && id in w.db
    && CurrentAt(w.db[id].serviceTimes, c.v.service, c.serviceReadAt)
    && CurrentAt(w.db[id].entryTimes, c.v.entries, c.entriesReadAt)
    && c.serviceReadAt <= c.entriesReadAt <= c.loadedAt <= w.now
  }

  predicate ThreadOk(w: World, t: Thread) {
    var id := t.job.id;
    && (t.job.Lookup? ==>
          && Covers(Flushed(w, id), t.job.floor)
          && !t.pc.Committed? && !t.pc.Invalidated?
          && (t.pc.ServiceRead? ==>
                && id in w.db && t.pc.at <= w.now && t.pc.service >= Flushed(w, id).service
                && CurrentAt(w.db[id].serviceTimes, t.pc.service, t.pc.at))
          && (t.pc.BothRead? ==>
                && Covers(t.pc.v, Flushed(w, id))
                && CachedOk(w, id, Cached(t.pc.v, t.pc.at, t.pc.entriesAt, w.now)))
          && (t.pc.Served? ==>
                && Covers(t.pc.c.v, t.job.floor) && CachedOk(w, id, t.pc.c)
                && t.pc.c.loadedAt <= t.pc.servedAt < t.pc.c.loadedAt + TTL))
    && (t.job.Writer? ==>
          && !t.pc.Locked? && !t.pc.ServiceRead? && !t.pc.BothRead? && !t.pc.Served?
          && (t.pc.Committed? ==>
                && id in w.db
                && t.pc.v.service < |w.db[id].services| && t.pc.v.entries < |w.db[id].entries|)
          && (t.pc.Invalidated? ==> Covers(Flushed(w, id), t.pc.v)))
  }

  predicate Holds(t: Thread) { t.pc.Locked? || t.pc.ServiceRead? || t.pc.BothRead? }

  predicate RowsOk(w: World) {
    && (forall id :: id in w.db ==> RowOk(w.db[id], w.now))
    && (forall id :: id in w.db ==>
          Flushed(w, id).service < |w.db[id].services| && Flushed(w, id).entries < |w.db[id].entries|)
    && (forall id :: id in w.flushed ==> id in w.db && Covers(w.flushed[id], Versions(0, 0)))
  }

  ghost predicate Inv(w: World) {
    && (forall i :: 0 <= i < |w.threads| ==> ThreadOk(w, w.threads[i]))
    && (forall i :: 0 <= i < |w.threads| && Holds(w.threads[i]) ==> w.lock == HeldBy(i))
    && RowsOk(w)
    && CacheOk(w)
  }

  ghost predicate CacheOk(w: World) {
    forall id :: id in w.cache ==> CachedOk(w, id, w.cache[id]) && Covers(w.cache[id].v, Flushed(w, id))
  }

  /** How the shared parts may move under the feet of the other threads: columns only grow,
      by values committed now or later, and the flushed marks only rise. */
  ghost predicate Evolves(w: World, w': World) {
    && w.now <= w'.now
    && (forall id :: id in w.db ==> id in w'.db && Grows(w.db[id], w'.db[id], w.now))
    && (forall id :: Covers(Flushed(w', id), Flushed(w, id)))
  }

  predicate Grows(r: Row, r': Row, now: int) {
    && |r.services| <= |r'.services| && |r.entries| <= |r'.entries|
    && r.serviceTimes <= r'.serviceTimes && r.entryTimes <= r'.entryTimes
    && (forall k :: |r.serviceTimes| <= k < |r'.serviceTimes| ==> r'.serviceTimes[k] >= now)
    && (forall k :: |r.entryTimes| <= k < |r'.entryTimes| ==> r'.entryTimes[k] >= now)
  }

  lemma CachedStaysOk(w: World, w': World, id: ItemId, c: Cached)
    requires CachedOk(w, id, c) && Evolves(w, w')
    ensures CachedOk(w', id, c)
  {
  }

  lemma LookupFrame(w: World, i: nat)
    requires i < |w.threads| && w.threads[i].job.Lookup?
    ensures var w' := LookupStep(w, i);
            && w'.db == w.db && w'.flushed == w.flushed && w'.now == w.now && w'.selfUse == w.selfUse
            && |w'.threads| == |w.threads| && w'.threads[i].job == w.threads[i].job
            && (forall j :: 0 <= j < |w.threads| && j != i ==> w'.threads[j] == w.threads[j])
  {
  }

  lemma WriterFrame(w: World, i: nat)
    requires i < |w.threads| && w.threads[i].job.Writer?
    ensures var w' := WriterStep(w, i);
            && w'.lock == w.lock && w'.now == w.now && w'.selfUse == w.selfUse
            && |w'.threads| == |w.threads| && w'.threads[i].job == w.threads[i].job
            && (forall j :: 0 <= j < |w.threads| && j != i ==> w'.threads[j] == w.threads[j])
            && (w.threads[i].pc.Start? ==> w'.flushed == w.flushed)
            && (!w.threads[i].pc.Start? ==> w'.db == w.db)
            && (w.lock != Unlocked ==> w'.flushed == w.flushed)
  {
  }

  lemma CommitGrows(r: Row, c: Change, now: int)
    requires RowOk(r, now)
    ensures Grows(r, Commit(r, c, now), now) && RowOk(Commit(r, c, now), now)
  {
  }

  /** What a committing writer does to the rows. */
  lemma StartFrame(w: World, i: nat)
    requires i < |w.threads| && w.threads[i].job.Writer? && w.threads[i].pc.Start?
    ensures var w', id, c := WriterStep(w, i), w.threads[i].job.id, Outcome(w, w.threads[i].job.id, w.threads[i].job.w);
            && w'.cache == w.cache && w'.flushed == w.flushed && w'.now == w.now
            && (w'.db == w.db
                || (c.Just? && id in w.db && w'.db == w.db[id := Commit(w.db[id], c.value, w.now)])
                || (c.Just? && c.value.NewItem? && id !in w.db && w'.db == w.db[id := FirstRow(c.value.it, w.now)]))
  {
  }

  lemma CommitEvolves(w: World, i: nat)
    requires RowsOk(w) && i < |w.threads| && w.threads[i].job.Writer? && w.threads[i].pc.Start?
    ensures Evolves(w, WriterStep(w, i))
  {
    StartFrame(w, i);
    var w' := WriterStep(w, i);
    var id, c := w.threads[i].job.id, Outcome(w, w.threads[i].job.id, w.threads[i].job.w);
    if id in w.db && c.Just? { CommitGrows(w.db[id], c.value, w.now); }
    forall a | a in w.db ensures a in w'.db && Grows(w.db[a], w'.db[a], w.now) {
      if a != id || w'.db == w.db { assert w'.db[a] == w.db[a]; }
    }
  }

  lemma StepEvolves(w: World, i: nat)
    requires RowsOk(w) && i < |w.threads|
    ensures Evolves(w, Step(w, i))
    ensures w.lock != Unlocked ==> Step(w, i).flushed == w.flushed
  {
    if w.threads[i].job.Lookup? {
      LookupFrame(w, i);
    } else {
      WriterFrame(w, i);
      if w.threads[i].pc.Start? { CommitEvolves(w, i); }
    }
  }

  /** A thread that is not stepping keeps its facts. */
  lemma BystanderOk(w: World, w': World, t: Thread)
    requires ThreadOk(w, t) && Evolves(w, w')
    requires Holds(t) ==> w'.flushed == w.flushed
    ensures ThreadOk(w', t)
  {
  }

  lemma WriterOk(w: World, i: nat)
    requires i < |w.threads| && w.threads[i].job.Writer?
    requires ThreadOk(w, w.threads[i])
    requires w.threads[i].job.id in w.db ==> RowOk(w.db[w.threads[i].job.id], w.now)
    ensures ThreadOk(WriterStep(w, i), WriterStep(w, i).threads[i])
  {
  }

  /** What a lookup needs to know of its own item. */
  predicate ItemFacts(w: World, id: ItemId) {
    && (id in w.db ==>
          && RowOk(w.db[id], w.now)
          && Flushed(w, id).service < |w.db[id].services|
          && Flushed(w, id).entries < |w.db[id].entries|)
    && (id in w.cache ==> CachedOk(w, id, w.cache[id]) && Covers(w.cache[id].v, Flushed(w, id)))
  }

  /** A thread's facts speak of the rows, the flushed marks and the time only. */
  lemma SameFacts(w: World, w': World, t: Thread)
    requires w'.db == w.db && w'.flushed == w.flushed && w'.now == w.now && ThreadOk(w, t)
    ensures ThreadOk(w', t)
  {
  }

  lemma HitOk(w: World, id: ItemId, floor: Versions)
    requires ItemFacts(w, id) && Fresh(w, id) && Covers(Flushed(w, id), floor)
    ensures ThreadOk(w, Thread(Lookup(id, floor), Served(w.cache[id], w.now)))
  {
  }

  lemma ServiceReadOk(w: World, id: ItemId, floor: Versions)
    requires ItemFacts(w, id) && id in w.db && Covers(Flushed(w, id), floor)
    ensures ThreadOk(w, Thread(Lookup(id, floor), ServiceRead(|w.db[id].services| - 1, w.now)))
  {
  }

  lemma EntriesReadOk(w: World, id: ItemId, floor: Versions, v: int, at: int)
    requires ItemFacts(w, id) && ThreadOk(w, Thread(Lookup(id, floor), ServiceRead(v, at)))
    ensures ThreadOk(w, Thread(Lookup(id, floor), BothRead(Versions(v, |w.db[id].entries| - 1), at, w.now)))
  {
  }

  lemma LoadedOk(w: World, id: ItemId, floor: Versions, v: Versions, at: int, entriesAt: int)
    requires ThreadOk(w, Thread(Lookup(id, floor), BothRead(v, at, entriesAt)))
    ensures ThreadOk(w, Thread(Lookup(id, floor), Served(Cached(v, at, entriesAt, w.now), w.now)))
  {
  }

  lemma LookupOk(w: World, i: nat)
    requires i < |w.threads| && w.threads[i].job.Lookup?
    requires ThreadOk(w, w.threads[i]) && ItemFacts(w, w.threads[i].job.id)
    ensures ThreadOk(LookupStep(w, i), LookupStep(w, i).threads[i])
  {
    var t, w' := w.threads[i], LookupStep(w, i);
    var id, floor := t.job.id, t.job.floor;
    assert Covers(Flushed(w, id), floor);
    LookupFrame(w, i);
    if t.pc.ServiceRead? {
      EntriesReadOk(w, id, floor, t.pc.service, t.pc.at);
    } else if t.pc.BothRead? {
      LoadedOk(w, id, floor, t.pc.v, t.pc.at, t.pc.entriesAt);
    } else {
      if Fresh(w, id) { HitOk(w, id, floor); }
      if id in w.db { ServiceReadOk(w, id, floor); }
    }
    SteppedLookup(w, i);
    SameFacts(w, w', w'.threads[i]);
  }

  /** Where a lookup can be after a step. */
  lemma SteppedLookup(w: World, i: nat)
    requires i < |w.threads| && w.threads[i].job.Lookup?
    requires w.threads[i].pc.ServiceRead? ==> w.threads[i].job.id in w.db
    ensures var j, pc, id := w.threads[i].job, LookupStep(w, i).threads[i].pc, w.threads[i].job.id;
            || pc == w.threads[i].pc || pc == WantLock || pc == Locked || pc == Failed
            || (Fresh(w, id) && (w.threads[i].pc.Start? || w.threads[i].pc.Locked?) && pc == Served(w.cache[id], w.now))
            || (id in w.db && w.threads[i].pc.Locked? && pc == ServiceRead(|w.db[id].services| - 1, w.now))
            || (w.threads[i].pc.ServiceRead?
                && pc == BothRead(Versions(w.threads[i].pc.service, |w.db[id].entries| - 1), w.threads[i].pc.at, w.now))
            || (w.threads[i].pc.BothRead?
                && pc == Served(Cached(w.threads[i].pc.v, w.threads[i].pc.at, w.threads[i].pc.entriesAt, w.now), w.now))
  {
  }

  lemma StepperOk(w: World, i: nat)
    requires Inv(w) && i < |w.threads|
    ensures ThreadOk(Step(w, i), Step(w, i).threads[i])
  {
    if w.threads[i].job.Writer? {
      WriterOk(w, i);
    } else {
      LookupOk(w, i);
    }
  }

  lemma StartRowsOk(w: World, i: nat)
    requires RowsOk(w) && i < |w.threads| && w.threads[i].job.Writer? && w.threads[i].pc.Start?
    ensures RowsOk(WriterStep(w, i))
  {
    StartFrame(w, i);
    var w', id, c := WriterStep(w, i), w.threads[i].job.id, Outcome(w, w.threads[i].job.id, w.threads[i].job.w);
    if id in w.db && c.Just? { CommitGrows(w.db[id], c.value, w.now); }
    forall a | a in w'.db
      ensures RowOk(w'.db[a], w'.now)
      ensures Flushed(w', a).service < |w'.db[a].services| && Flushed(w', a).entries < |w'.db[a].entries|
    {
      if a in w.db { assert RowOk(w.db[a], w.now); }
    }
  }

  lemma InvalidateRowsOk(w: World, i: nat)
    requires RowsOk(w) && i < |w.threads| && w.threads[i].job.Writer? && !w.threads[i].pc.Start?
    requires ThreadOk(w, w.threads[i])
    ensures RowsOk(WriterStep(w, i))
  {
  }

  lemma StepRowsOk(w: World, i: nat)
    requires Inv(w) && i < |w.threads|
    ensures RowsOk(Step(w, i))
  {
    assert ThreadOk(w, w.threads[i]);
    if w.threads[i].job.Lookup? {
      LookupFrame(w, i);
    } else if w.threads[i].pc.Start? {
      StartRowsOk(w, i);
    } else {
      InvalidateRowsOk(w, i);
    }
  }

  lemma LookupCacheOk(w: World, i: nat)
    requires CacheOk(w) && i < |w.threads| && w.threads[i].job.Lookup? && ThreadOk(w, w.threads[i])
    ensures CacheOk(LookupStep(w, i))
  {
    var w' := LookupStep(w, i);
    LookupFrame(w, i);
    forall id | id in w'.cache ensures CachedOk(w', id, w'.cache[id]) && Covers(w'.cache[id].v, Flushed(w', id)) {
      assert Flushed(w', id) == Flushed(w, id);
    }
  }

  lemma WriterCacheOk(w: World, i: nat)
    requires CacheOk(w) && i < |w.threads| && w.threads[i].job.Writer? && Evolves(w, WriterStep(w, i))
    ensures CacheOk(WriterStep(w, i))
  {
    var w' := WriterStep(w, i);
    forall id | id in w'.cache ensures CachedOk(w', id, w'.cache[id]) && Covers(w'.cache[id].v, Flushed(w', id)) {
      WriterCache(w, i, id);
      CachedStaysOk(w, w', id, w.cache[id]);
    }
  }

  /** A writer adds nothing to the cache, and raises the mark of the entry it drops only. */
  lemma WriterCache(w: World, i: nat, id: ItemId)
    requires i < |w.threads| && w.threads[i].job.Writer? && id in WriterStep(w, i).cache
    ensures id in w.cache && WriterStep(w, i).cache[id] == w.cache[id]
    ensures Flushed(WriterStep(w, i), id) == Flushed(w, id)
  {
  }

  lemma StepThreadsOk(w: World, i: nat)
    requires Inv(w) && i < |w.threads|
    ensures |Step(w, i).threads| == |w.threads|
    ensures forall j :: 0 <= j < |w.threads| ==> ThreadOk(Step(w, i), Step(w, i).threads[j])
  {
    var w' := Step(w, i);
    StepEvolves(w, i);
    StepperOk(w, i);
    if w.threads[i].job.Writer? { WriterFrame(w, i); } else { LookupFrame(w, i); }
    forall j | 0 <= j < |w.threads| ensures ThreadOk(w', w'.threads[j]) {
      if j != i { BystanderOk(w, w', w.threads[j]); }
    }
  }

  lemma StepLockOk(w: World, i: nat)
    requires i < |w.threads|
    requires forall j :: 0 <= j < |w.threads| && Holds(w.threads[j]) ==> w.lock == HeldBy(j)
    requires ThreadOk(w, w.threads[i])
    ensures forall j :: 0 <= j < |Step(w, i).threads| && Holds(Step(w, i).threads[j]) ==> Step(w, i).lock == HeldBy(j)
  {
  }

  lemma StepKeepsInv(w: World, i: nat)
    requires Inv(w) && i < |w.threads|
    ensures Inv(Step(w, i))
  {
    StepRowsOk(w, i);
    StepEvolves(w, i);
    assert ThreadOk(w, w.threads[i]);
    if w.threads[i].job.Lookup? { LookupCacheOk(w, i); } else { WriterCacheOk(w, i); }
    StepThreadsOk(w, i);
    StepLockOk(w, i);
  }

  /** Arrivals, the passing of time and a full invalidation. */
  lemma QuietEventFrame(w: World, e: Event)
    requires !e.Proceed?
    ensures var w' := Apply(w, e);
            && w'.db == w.db && w'.flushed == w.flushed && w'.lock == w.lock
            && w'.now >= w.now && w'.selfUse == w.selfUse
            && (forall id :: id in w'.cache ==> id in w.cache && w'.cache[id] == w.cache[id])
            && |w.threads| <= |w'.threads| <= |w.threads| + 1
            && (forall j :: 0 <= j < |w.threads| ==> w'.threads[j] == w.threads[j])
            && (|w'.threads| > |w.threads| ==>
                  && w'.threads[|w.threads|].pc == Start
                  && (w'.threads[|w.threads|].job.Lookup? ==>
                        w'.threads[|w.threads|].job.floor == Flushed(w, w'.threads[|w.threads|].job.id)))
  {
  }

  lemma QuietThreadsOk(w: World, e: Event)
    requires Inv(w) && !e.Proceed?
    ensures forall j :: 0 <= j < |Apply(w, e).threads| ==> ThreadOk(Apply(w, e), Apply(w, e).threads[j])
  {
    var w' := Apply(w, e);
    QuietEventFrame(w, e);
    assert Evolves(w, w');
    forall j | 0 <= j < |w'.threads| ensures ThreadOk(w', w'.threads[j]) {
      if j < |w.threads| { BystanderOk(w, w', w.threads[j]); }
    }
  }

  lemma QuietRowsOk(w: World, e: Event)
    requires RowsOk(w) && !e.Proceed?
    ensures RowsOk(Apply(w, e))
  {
    QuietEventFrame(w, e);
  }

  lemma QuietCacheOk(w: World, e: Event)
    requires CacheOk(w) && !e.Proceed?
    ensures CacheOk(Apply(w, e))
  {
    var w' := Apply(w, e);
    QuietEventFrame(w, e);
    forall id | id in w'.cache ensures CachedOk(w', id, w'.cache[id]) && Covers(w'.cache[id].v, Flushed(w', id)) {
      assert CachedOk(w, id, w.cache[id]);
    }
  }

  lemma ApplyKeepsInv(w: World, e: Event)
    requires Inv(w)
    ensures Inv(Apply(w, e))
  {
    if e.Proceed? {
      if e.i < |w.threads| { StepKeepsInv(w, e.i); }
    } else {
      QuietEventFrame(w, e);
      QuietThreadsOk(w, e);
      QuietRowsOk(w, e);
      QuietCacheOk(w, e);
    }
  }

  lemma {:induction false} RunKeepsInv(w: World, es: seq<Event>)
    requires Inv(w)
    ensures Inv(Run(w, es))
  {
    if es != [] {
      RunKeepsInv(w, es[..|es| - 1]);
      ApplyKeepsInv(Run(w, es[..|es| - 1]), es[|es| - 1]);
    }
  }

  // ----------------------------------------------------------------- coherence

  lemma JobsStay(w: World, e: Event, i: nat)
    requires i < |w.threads|
    ensures i < |Apply(w, e).threads| && Apply(w, e).threads[i].job == w.threads[i].job
  {
    if e.Proceed? && e.i < |w.threads| {
      if w.threads[e.i].job.Writer? { WriterFrame(w, e.i); } else { LookupFrame(w, e.i); }
    }
  }

  /** Jobs are never reassigned. */
  lemma {:induction false} ThreadsStay(w: World, es: seq<Event>, k: nat, i: nat)
    requires k <= |es| && i < |Run(w, es[..k]).threads|
    ensures i < |Run(w, es).threads| && Run(w, es).threads[i].job == Run(w, es[..k]).threads[i].job
    decreases |es|
  {
    if k == |es| {
      assert es[..k] == es;
    } else {
      var most := es[..|es| - 1];
      assert most[..k] == es[..k];
      ThreadsStay(w, most, k, i);
      JobsStay(Run(w, most), es[|es| - 1], i);
    }
  }

  /** The lookup that event k begins stays thread l of the run, with the floor it began with. */
  lemma LookupBegan(w: World, es: seq<Event>, k: nat, l: nat)
    requires k < |es| && es[k].BeginLookup? && l == |Run(w, es[..k]).threads|
    ensures l < |Run(w, es).threads|
    ensures Run(w, es).threads[l].job == Lookup(es[k].id, Flushed(Run(w, es[..k]), es[k].id))
  {
    var begun := es[..k + 1];
    assert begun[..|begun| - 1] == es[..k];
    assert Run(w, begun) == Apply(Run(w, es[..k]), es[k]);
    ThreadsStay(w, es, k + 1, l);
  }

  /** Whatever the interleaving: if writer i had invalidated by the time lookup l began,
      what l serves contains i's write or a later one. */
  lemma Coherence(w: World, es: seq<Event>, k: nat, i: nat, l: nat)
    requires Inv(w) && k < |es|
    requires i < |Run(w, es[..k]).threads|
    requires Run(w, es[..k]).threads[i].job.Writer? && Run(w, es[..k]).threads[i].pc.Invalidated?
    requires es[k] == BeginLookup(Run(w, es[..k]).threads[i].job.id)
    requires l == |Run(w, es[..k]).threads|
    ensures l < |Run(w, es).threads| && Run(w, es).threads[l].job.Lookup?
    ensures Run(w, es).threads[l].pc.Served? ==>
              Covers(Run(w, es).threads[l].pc.c.v, Run(w, es[..k]).threads[i].pc.v)
  {
    LookupBegan(w, es, k, l);
    RunKeepsInv(w, es[..k]);
    RunKeepsInv(w, es);
    assert ThreadOk(Run(w, es[..k]), Run(w, es[..k]).threads[i]);
    assert ThreadOk(Run(w, es), Run(w, es).threads[l]);
  }

  /** Every other answer: each column was the current one when it was read, the answer is
      handed out less than TTL after its stamp, so it is out of date by less than TTL plus
      the time the load took. */
  lemma Staleness(w: World, es: seq<Event>, l: nat)
    requires Inv(w) && l < |Run(w, es).threads|
    requires Run(w, es).threads[l].job.Lookup? && Run(w, es).threads[l].pc.Served?
    ensures var w' := Run(w, es);
            var id, c, at := w'.threads[l].job.id, w'.threads[l].pc.c, w'.threads[l].pc.servedAt;
            && id in w'.db
            && CurrentAt(w'.db[id].serviceTimes, c.v.service, c.serviceReadAt)
            && CurrentAt(w'.db[id].entryTimes, c.v.entries, c.entriesReadAt)
            && at - c.serviceReadAt < TTL + (c.loadedAt - c.serviceReadAt)
            && at - c.entriesReadAt < TTL + (c.loadedAt - c.entriesReadAt)
            && (c.v.service + 1 < |w'.db[id].serviceTimes| ==>
                  at - w'.db[id].serviceTimes[c.v.service + 1] < TTL + (c.loadedAt - c.serviceReadAt))
            && (c.v.entries + 1 < |w'.db[id].entryTimes| ==>
                  at - w'.db[id].entryTimes[c.v.entries + 1] < TTL + (c.loadedAt - c.entriesReadAt))
  {
    RunKeepsInv(w, es);
    assert ThreadOk(Run(w, es), Run(w, es).threads[l]);
  }

  // A load that takes d seconds, on an item repriced while it runs.

  function Reprice(id: ItemId, price: real): AdminOp { AdminUpdate(id, Nothing, Just(PerCall), Just(price)) }

  function SlowLoad(id: ItemId, price: real, d: nat): seq<Event> {
    [BeginLookup(id), Proceed(0), Proceed(0), Proceed(0),      // has read the service row
     BeginWrite(id, Admin(Reprice(id, price))), Proceed(1),    // committed, waiting for the cache lock
     Tick(d), Proceed(0), Proceed(0),                          // entry prices read, stamped, lock released
     Tick(TTL - 1), BeginLookup(id), Proceed(2)]
  }

  function Single(id: ItemId, before: Item): World {
    World(0, map[id := Row([before], [0], [map[]], [0])], map[], Unlocked, map[], [], false)
  }

  /** The state after n events of the slow load. */
  function Stage(id: ItemId, before: Item, price: real, d: nat, n: nat): World {
    var now := if n < 7 then 0 else if n < 10 then d else d + TTL - 1;
    var after := before.(billingType := PerCall, price := price);
    var row := if n < 6 then Row([before], [0], [map[]], [0]) else Row([before, after], [0, 0], [map[]], [0]);
    var c := Cached(Versions(0, 0), 0, d, d);
    var loader :=
      if n < 2 then Start else if n < 3 then WantLock else if n < 4 then Locked
      else if n < 8 then ServiceRead(0, 0) else if n < 9 then BothRead(Versions(0, 0), 0, d) else Served(c, d);
    var writer := if n < 6 then Start else Committed(Versions(1, 0));
    var late := if n < 12 then Start else Served(c, d + TTL - 1);
    World(now, map[id := row], if n < 9 then map[] else map[id := c],
          if n < 3 || n >= 9 then Unlocked else HeldBy(0), map[],
          (if n < 1 then [] else [Thread(Lookup(id, Versions(0, 0)), loader)])
          + (if n < 5 then [] else [Thread(Writer(id, Admin(Reprice(id, price))), writer)])
          + (if n < 11 then [] else [Thread(Lookup(id, Versions(0, 0)), late)]),
          false)
  }

  lemma RepriceCommits(w: World, id: ItemId, before: Item, price: real)
    requires !w.selfUse && w.db == map[id := Row([before], [0], [map[]], [0])] && w.now == 0
    requires !before.deleted && price > 0.0 && ValidatePrice(price).PriceOk?
    ensures var after := before.(billingType := PerCall, price := price);
            && Outcome(w, id, Admin(Reprice(id, price))) == Just(NewItem(after))
            && Commit(w.db[id], NewItem(after), 0) == Row([before, after], [0, 0], [map[]], [0])
  {
  }

  lemma LoadBegins(id: ItemId, before: Item, price: real, d: nat, n: nat)
    requires n < 5 && !before.deleted
    ensures Apply(Stage(id, before, price, d, n), SlowLoad(id, price, d)[n]) == Stage(id, before, price, d, n + 1)
  {
    var w, w' := Stage(id, before, price, d, n), Stage(id, before, price, d, n + 1);
    assert Apply(w, SlowLoad(id, price, d)[n]).threads == w'.threads;
  }

  lemma WriterCommits(id: ItemId, before: Item, price: real, d: nat)
    requires !before.deleted && price > 0.0 && ValidatePrice(price).PriceOk?
    ensures Apply(Stage(id, before, price, d, 5), SlowLoad(id, price, d)[5]) == Stage(id, before, price, d, 6)
  {
    var w, w' := Stage(id, before, price, d, 5), Stage(id, before, price, d, 6);
    RepriceCommits(w, id, before, price);
    assert w.threads[1] == Thread(Writer(id, Admin(Reprice(id, price))), Start);
    assert WriterStep(w, 1).db == w'.db;
    assert WriterStep(w, 1).threads == w'.threads;
  }

  lemma LoadEnds(id: ItemId, before: Item, price: real, d: nat, n: nat)
    requires 6 <= n < 12
    ensures Apply(Stage(id, before, price, d, n), SlowLoad(id, price, d)[n]) == Stage(id, before, price, d, n + 1)
  {
    var w, w' := Stage(id, before, price, d, n), Stage(id, before, price, d, n + 1);
    assert Apply(w, SlowLoad(id, price, d)[n]).threads == w'.threads;
  }

  lemma {:induction false} StageReached(id: ItemId, before: Item, price: real, d: nat, n: nat)
    requires n <= 12 && !before.deleted && price > 0.0 && ValidatePrice(price).PriceOk?
    ensures Run(Stage(id, before, price, d, 0), SlowLoad(id, price, d)[..n]) == Stage(id, before, price, d, n)
  {
    if n > 0 {
      StageReached(id, before, price, d, n - 1);
      RunStep(Stage(id, before, price, d, 0), SlowLoad(id, price, d), n);
      if n < 6 { LoadBegins(id, before, price, d, n - 1); }
      else if n == 6 { WriterCommits(id, before, price, d); }
      else { LoadEnds(id, before, price, d, n - 1); }
    }
  }

  /** The bound of Staleness is the best possible: whatever d, a price superseded d + TTL - 1
      seconds ago is still handed out. "At most a TTL old" holds of instantaneous loads only. */
  lemma StalenessAttained(id: ItemId, before: Item, price: real, d: nat)
    requires !before.deleted && price > 0.0 && ValidatePrice(price).PriceOk?
    ensures Inv(Single(id, before))
    ensures var w := Run(Single(id, before), SlowLoad(id, price, d));
            && |w.threads| == 3 && w.threads[2].pc.Served? && w.threads[2].pc.c.v.service == 0
            && id in w.db && w.db[id].serviceTimes == [0, 0]
            && w.threads[2].pc.servedAt == d + TTL - 1
            && w.threads[2].pc.c.loadedAt - w.threads[2].pc.c.serviceReadAt == d
  {
    assert Stage(id, before, price, d, 0) == Single(id, before);
    StageReached(id, before, price, d, 12);
    var es := SlowLoad(id, price, d);
    assert es[..12] == es;
  }

  lemma RunStep(w: World, es: seq<Event>, n: nat)
    requires 0 < n <= |es|
    ensures Run(w, es[..n]) == Apply(Run(w, es[..n - 1]), es[n - 1])
  {
    assert es[..n][..n - 1] == es[..n - 1];
  }

  // ------------------------------------------------------------ the protocol at work

  lemma RunSnoc(w: World, es: seq<Event>, e: Event)
    ensures Run(w, es + [e]) == Apply(Run(w, es), e)
  {
  }

  /** While somebody holds the cache lock, new lookups and invalidations wait. */
  lemma LockKeepsOthersOut(w: World, i: nat)
    requires i < |w.threads| && w.lock != Unlocked
    requires w.threads[i].job.Lookup? ==> w.threads[i].pc == Start || w.threads[i].pc == WantLock
    requires w.threads[i].job.Writer? ==> w.threads[i].pc.Committed?
    ensures Step(w, i) == w && Apply(w, InvalidateAll) == w
    ensures Apply(w.(lock := Unlocked), InvalidateAll).cache == map[]
  {
    assert Step(w, i).threads == w.threads;
  }

  /** Both checks of a lookup serve an entry that is less than a minute old; the second one loads
      a live item otherwise. */
  lemma LookupChecks(w: World, i: nat)
    requires i < |w.threads| && w.threads[i].job.Lookup?
    ensures var id, pc, pc' := w.threads[i].job.id, w.threads[i].pc, Step(w, i).threads[i].pc;
            var young := id in w.cache && w.now - w.cache[id].loadedAt < 60;
            && (pc == Start && w.lock == Unlocked ==> pc' == if young then Served(w.cache[id], w.now) else WantLock)
            && (pc == Locked ==>
                  pc' == if young then Served(w.cache[id], w.now)
                         else if id in w.db && w.db[id].services != []
                                 && !w.db[id].services[|w.db[id].services| - 1].deleted
                         then ServiceRead(|w.db[id].services| - 1, w.now) else Failed)
  {
  }

  /** What a writer of entry prices commits: the new prices of an item that is live. */
  lemma EntriesCommitted(w: World, i: nat)
    requires i < |w.threads| && w.threads[i].job.Writer? && w.threads[i].job.w.WriteEntries? && w.threads[i].pc == Start
    ensures var id, m, w' := w.threads[i].job.id, w.threads[i].job.w.m, Step(w, i);
            if id in w.db && w.db[id].services != [] && !w.db[id].services[|w.db[id].services| - 1].deleted
            then
              && w'.db == w.db[id := w.db[id].(entries := w.db[id].entries + [m],
                                               entryTimes := w.db[id].entryTimes + [w.now])]
              && w'.threads[i].pc == Committed(Versions(0, |w.db[id].entries|))
            else w'.db == w.db && w'.threads[i].pc == Failed
  {
  }

  /** What an administrator's writer commits: the item as the call leaves it, appended to its
      history, or a first row for a new one. */
  lemma ItemCommitted(w: World, i: nat)
    requires i < |w.threads| && w.threads[i].job.Writer? && w.threads[i].job.w.Admin? && w.threads[i].pc == Start
    requires Seen(w.db, w.threads[i].job.id) == map[] ==> w.threads[i].job.id !in w.db
    ensures var id, op, w' := w.threads[i].job.id, w.threads[i].job.w.op, Step(w, i);
            var seen := Seen(w.db, id);
            if Accepted(seen, op, w.selfUse) && id in Effect(seen, op)
            then
              && id in w'.db && w'.db[id].services[|w'.db[id].services| - 1] == Effect(seen, op)[id]
              && |w'.db[id].services| == (if id in w.db then |w.db[id].services| else 0) + 1
              && w'.threads[i].pc.Committed? && w'.threads[i].pc.v.service == |w'.db[id].services| - 1
            else w'.db == w.db && w'.threads[i].pc == Failed
  {
    var id, op := w.threads[i].job.id, w.threads[i].job.w.op;
    if id in w.db && w.db[id].services != [] { assert id in Seen(w.db, id); }
  }

  /** A writer left alone commits and drops the cached entry, and a lookup after it serves what
      it has written. */
  lemma WrittenIsServed(w: World, id: ItemId, wr: Write, r: Row) returns (es: seq<Event>)
    requires w.lock == Unlocked && id in w.db && Outcome(w, id, wr).Just?
    requires r == Commit(w.db[id], Outcome(w, id, wr).value, w.now)
    requires r.services != [] && !r.services[|r.services| - 1].deleted
    ensures var w', k := Run(w, es), |w.threads|;
            && |w'.threads| == k + 2 && w'.db == w.db[id := r] && w'.lock == Unlocked
            && w'.threads[k].pc == Invalidated(CommittedBy(w.db[id], Outcome(w, id, wr).value))
            && w'.threads[k + 1].pc
               == Served(Cached(Versions(|r.services| - 1, |r.entries| - 1), w.now, w.now, w.now), w.now)
  {
    es := WriterAlone(w, id, wr);
    es := LookupAlone(w, es, id, r);
  }

  /** A lookup left alone on an item that is live and not cached: it loads the newest versions. */
  lemma LookupAlone(w: World, es0: seq<Event>, id: ItemId, r: Row) returns (es: seq<Event>)
    requires var w0 := Run(w, es0); w0.lock == Unlocked && id in w0.db && w0.db[id] == r && id !in w0.cache
    requires r.services != [] && !r.services[|r.services| - 1].deleted
    ensures var w0, w' := Run(w, es0), Run(w, es);
            && |w'.threads| == |w0.threads| + 1 && w'.db == w0.db && w'.lock == Unlocked
            && w'.threads[..|w0.threads|] == w0.threads
            && w'.threads[|w0.threads|].pc
               == Served(Cached(Versions(|r.services| - 1, |r.entries| - 1), w0.now, w0.now, w0.now), w0.now)
  {
    var w0 := Run(w, es0);
    var k, now, v := |w0.threads|, w0.now, Versions(|r.services| - 1, |r.entries| - 1);
    RunSnoc(w, es0, BeginLookup(id));
    es := es0 + [BeginLookup(id)];
    var job, last := Run(w, es).threads[k].job, Served(Cached(v, now, now, now), now);
    var pcs := [Start, WantLock, Locked, ServiceRead(v.service, now), BothRead(v, now, now), last];
    for n := 0 to 5
      invariant var w' := Run(w, es);
                && w'.threads == w0.threads + [Thread(job, pcs[n])] && w'.db == w0.db && w'.now == now
                && w'.lock == (if 2 <= n <= 4 then HeldBy(k) else Unlocked)
                && (n < 5 ==> id !in w'.cache)
    {
      RunSnoc(w, es, Proceed(k));
      es := es + [Proceed(k)];
    }
  }

  lemma WriterAlone(w: World, id: ItemId, wr: Write) returns (es: seq<Event>)
    requires w.lock == Unlocked && id in w.db && Outcome(w, id, wr).Just?
    ensures var w', c := Run(w, es), Outcome(w, id, wr).value;
            && |w'.threads| == |w.threads| + 1 && w'.db == w.db[id := Commit(w.db[id], c, w.now)]
            && w'.lock == Unlocked && w'.now == w.now && id !in w'.cache
            && w'.threads[|w.threads|].pc == Invalidated(CommittedBy(w.db[id], c))
  {
    var go := Proceed(|w.threads|);
    es := [BeginWrite(id, wr)];
    RunSnoc(w, [], BeginWrite(id, wr));
    assert [] + es == es;
    RunSnoc(w, es, go);
    RunSnoc(w, es + [go], go);
    WriterTwice(w, Apply(w, BeginWrite(id, wr)), id, wr);
    es := es + [go] + [go];
  }

  lemma WriterTwice(w: World, w1: World, id: ItemId, wr: Write)
    requires w.lock == Unlocked && id in w.db && Outcome(w, id, wr).Just?
    requires w1 == w.(threads := w.threads + [Thread(Writer(id, wr), Start)])
    ensures var k, c := |w.threads|, Outcome(w, id, wr).value;
            var w' := Apply(Apply(w1, Proceed(k)), Proceed(k));
            && |w'.threads| == k + 1 && w'.db == w.db[id := Commit(w.db[id], c, w.now)]
            && w'.lock == Unlocked && w'.now == w.now && id !in w'.cache
            && w'.threads[k].pc == Invalidated(CommittedBy(w.db[id], c))
  {
    var k := |w.threads|;
    SameOutcome(w, w1, id, wr);
    WriterSaves(w1, k);
    WriterInvalidates(Step(w1, k), k);
  }

  lemma SameOutcome(w: World, w': World, id: ItemId, wr: Write)
    requires w'.db == w.db && w'.selfUse == w.selfUse
    ensures Outcome(w', id, wr) == Outcome(w, id, wr)
  {
  }

  lemma WriterSaves(w: World, i: nat)
    requires i < |w.threads| && w.threads[i].job.Writer? && w.threads[i].pc == Start && w.threads[i].job.id in w.db
    requires Outcome(w, w.threads[i].job.id, w.threads[i].job.w).Just?
    ensures var id, c := w.threads[i].job.id, Outcome(w, w.threads[i].job.id, w.threads[i].job.w).value;
            Step(w, i) == w.(db := w.db[id := Commit(w.db[id], c, w.now)],
                             threads := To(w, i, Committed(CommittedBy(w.db[id], c))))
  {
  }

  lemma WriterInvalidates(w: World, i: nat)
    requires i < |w.threads| && w.threads[i].job.Writer? && w.threads[i].pc.Committed? && w.lock == Unlocked
    ensures var w', v := Step(w, i), w.threads[i].pc.v;
            w'.db == w.db && w'.now == w.now && w'.lock == Unlocked && w'.cache == w.cache - {w.threads[i].job.id}
            && w'.threads == To(w, i, Invalidated(v))
  {
  }

  // ------------------------------------------------------- gate, cache and resolver

  /** What the resolver sees for the cached versions. */
  function PricingOf(r: Row, v: Versions): ItemPricing
    requires 0 <= v.service < |r.services| && 0 <= v.entries < |r.entries|
  {
    ItemPricing(r.services[v.service].billingType, r.services[v.service].price, r.entries[v.entries])
  }

  /** Every committed version of every item passes the listing gate. */
  ghost predicate GateKept(w: World) {
    forall id, v :: id in w.db && 0 <= v < |w.db[id].services| ==> PassesIfListed(w.db[id].services[v])
  }

  predicate PassesIfListed(it: Item) { it.enabled && !it.deleted ==> ExplicitlyPriced(it.billingType, it.price) }

  /** With self-use mode off, what a writer commits passes the gate if what it saw did. */
  lemma OutcomePassesGate(w: World, id: ItemId, wr: Write)
    requires !w.selfUse && GateKept(w)
    ensures var c := Outcome(w, id, wr); c.Just? && c.value.NewItem? ==> PassesIfListed(c.value.it)
  {
    if wr.Admin? {
      var seen := Seen(w.db, id);
      assert forall i :: i in seen ==> PassesIfListed(seen[i]);
      assert Gated(seen);
      AdministeredKeepsGate(seen, wr.op);
    }
  }

  lemma ApplyKeepsGate(w: World, e: Event)
    requires !w.selfUse && GateKept(w)
    ensures !Apply(w, e).selfUse && GateKept(Apply(w, e))
  {
    if e.Proceed? && e.i < |w.threads| {
      var i := e.i;
      if w.threads[i].job.Lookup? {
        LookupFrame(w, i);
      } else {
        var id := w.threads[i].job.id;
        OutcomePassesGate(w, id, w.threads[i].job.w);
        WriterFrame(w, i);
        forall a | a in w.db && a != id ensures a in WriterStep(w, i).db && WriterStep(w, i).db[a] == w.db[a] {}
      }
    } else if !e.Proceed? {
      QuietEventFrame(w, e);
    }
  }

  lemma {:induction false} RunKeepsGate(w: World, es: seq<Event>)
    requires !w.selfUse && GateKept(w)
    ensures !Run(w, es).selfUse && GateKept(Run(w, es))
  {
    if es != [] {
      RunKeepsGate(w, es[..|es| - 1]);
      ApplyKeepsGate(Run(w, es[..|es| - 1]), es[|es| - 1]);
    }
  }

  /** With self-use mode off: once the call of writer i has returned, and while the item stays
      enabled and undeleted from that version on, no lookup begun afterwards reports a missing
      price, however administrators, loads and other writers interleave. */
  lemma EnabledNeverUnconfigured(w: World, es: seq<Event>, k: nat, i: nat, l: nat,
                                 s: Settings, kind: EntryKind, name: string, group: string)
    requires Inv(w) && GateKept(w) && !w.selfUse && k < |es|
    requires i < |Run(w, es[..k]).threads|
    requires Run(w, es[..k]).threads[i].job.Writer? && Run(w, es[..k]).threads[i].pc.Invalidated?
    requires es[k] == BeginLookup(Run(w, es[..k]).threads[i].job.id)
    requires l == |Run(w, es[..k]).threads|
    requires l < |Run(w, es).threads| && Run(w, es).threads[l].pc.Served?
    requires var id, since := Run(w, es[..k]).threads[i].job.id, Run(w, es[..k]).threads[i].pc.v.service;
             id in Run(w, es).db ==> ListedSince(Run(w, es).db[id], since)
    ensures var id, c := Run(w, es[..k]).threads[i].job.id, Run(w, es).threads[l].pc.c;
            && id in Run(w, es).db
            && 0 <= c.v.service < |Run(w, es).db[id].services| && 0 <= c.v.entries < |Run(w, es).db[id].entries|
            && Resolve(s, PricingOf(Run(w, es).db[id], c.v), kind, name, group).Resolved?
  {
    Coherence(w, es, k, i, l);
    LookupBegan(w, es, k, l);
    RunKeepsInv(w, es);
    RunKeepsGate(w, es);
    ServedIsConfigured(Run(w, es), l, Run(w, es[..k]).threads[i].pc.v.service, s, kind, name, group);
  }

  lemma ServedIsConfigured(end: World, l: nat, since: int, s: Settings, kind: EntryKind, name: string, group: string)
    requires Inv(end) && GateKept(end) && l < |end.threads| && end.threads[l].job.Lookup? && end.threads[l].pc.Served?
    requires end.threads[l].pc.c.v.service >= since
    requires end.threads[l].job.id in end.db ==> ListedSince(end.db[end.threads[l].job.id], since)
    ensures var id, c := end.threads[l].job.id, end.threads[l].pc.c;
            && id in end.db && 0 <= c.v.service < |end.db[id].services| && 0 <= c.v.entries < |end.db[id].entries|
            && Resolve(s, PricingOf(end.db[id], c.v), kind, name, group).Resolved?
  {
  }

  /** The item has been enabled and undeleted in every version from the given one on. */
  predicate ListedSince(r: Row, since: int) {
    forall v :: 0 <= v < |r.services| && v >= since ==> r.services[v].enabled && !r.services[v].deleted
  }

  // -------------------------------------------------------------- the cache object

  datatype Answer = Found(c: Cached) | NoItem

  function Quiet(db: map<ItemId, Row>, cache: map<ItemId, Cached>, id: ItemId, now: int): World {
    World(now, db, cache, Unlocked, map[], [Thread(Lookup(id, Versions(0, 0)), Start)], false)
  }

  function Steps(w: World, i: nat, n: nat): World
    requires i < |w.threads|
    ensures |Steps(w, i, n).threads| == |w.threads|
  {
    if n == 0 then w else Step(Steps(w, i, n - 1), i)
  }

  /** The cache after a lookup that nobody disturbs. */
  function Loaded(db: map<ItemId, Row>, cache: map<ItemId, Cached>, id: ItemId, now: int): map<ItemId, Cached> {
    if (id in cache && now - cache[id].loadedAt < TTL) || !Live(db, id) then cache
    else cache[id := Cached(Versions(|db[id].services| - 1, |db[id].entries| - 1), now, now, now)]
  }

  lemma QuietStart(db: map<ItemId, Row>, cache: map<ItemId, Cached>, id: ItemId, now: int)
    ensures var w, w3 := Quiet(db, cache, id, now), Steps(Quiet(db, cache, id, now), 0, 3);
            if Fresh(w, id) then w3 == w.(threads := To(w, 0, Served(cache[id], now)))
            else if !Live(db, id) then w3 == w.(threads := To(w, 0, Failed))
            else w3 == w.(lock := HeldBy(0), threads := To(w, 0, ServiceRead(|db[id].services| - 1, now)))
  {
    var w0 := Quiet(db, cache, id, now);
    var w1 := Step(w0, 0);
    assert Steps(w0, 0, 0) == w0;
    assert Steps(w0, 0, 1) == w1;
    var w2 := Step(w1, 0);
    assert Steps(w0, 0, 2) == w2;
  }

  /** The last two steps of an undisturbed load. */
  lemma QuietEnd(w: World, id: ItemId, v: int)
    requires id in w.db && w.threads == [Thread(Lookup(id, Versions(0, 0)), ServiceRead(v, w.now))]
    ensures var c := Cached(Versions(v, |w.db[id].entries| - 1), w.now, w.now, w.now);
            Step(Step(w, 0), 0) ==
              w.(cache := w.cache[id := c], lock := Unlocked, threads := To(w, 0, Served(c, w.now)))
  {
  }

  lemma QuietLoad(db: map<ItemId, Row>, cache: map<ItemId, Cached>, id: ItemId, now: int)
    ensures var w := Steps(Quiet(db, cache, id, now), 0, 5);
            && w.cache == Loaded(db, cache, id, now) && w.lock == Unlocked
            && w.threads[0].pc == (if Fresh(Quiet(db, cache, id, now), id) then Served(cache[id], now)
                                   else if Live(db, id) then Served(Loaded(db, cache, id, now)[id], now) else Failed)
  {
    var w0 := Quiet(db, cache, id, now);
    QuietStart(db, cache, id, now);
    var w3 := Steps(w0, 0, 3);
    TwoSteps(w0, 3);
    if !Fresh(w0, id) && Live(db, id) { QuietEnd(w3, id, |db[id].services| - 1); } else { StaysEnded(w3); }
  }

  lemma TwoSteps(w: World, n: nat)
    requires |w.threads| == 1
    ensures Steps(w, 0, n + 2) == Step(Step(Steps(w, 0, n), 0), 0)
  {
  }

  lemma StaysEnded(w: World)
    requires |w.threads| == 1 && w.threads[0].job.Lookup? && (w.threads[0].pc.Served? || w.threads[0].pc.Failed?)
    ensures Step(w, 0) == w
  {
  }

  class PricingCache {
    var entries: map<ItemId, Cached>

    constructor ()
      ensures entries == map[]
    {
      entries := map[];
    }

    /** loadItemPricing with nobody else about: exactly what five steps of a lookup do. */
    method Load(db: map<ItemId, Row>, id: ItemId, now: int) returns (r: Answer)
      modifies this
      ensures var w := Steps(Quiet(db, old(entries), id, now), 0, 5);
              && entries == w.cache && w.lock == Unlocked
              && w.threads[0].pc == (if r.Found? then Served(r.c, now) else Failed)
      ensures if id in old(entries) && now - old(entries)[id].loadedAt < 60
              then r == Found(old(entries)[id]) && entries == old(entries)
              else if id in db && db[id].services != [] && !db[id].services[|db[id].services| - 1].deleted
              then r == Found(Cached(Versions(|db[id].services| - 1, |db[id].entries| - 1), now, now, now))
                   && entries == old(entries)[id := r.c]
              else r == NoItem && entries == old(entries)
      ensures r.Found? ==> id in entries && entries[id] == r.c && now - r.c.loadedAt < TTL
      ensures forall j :: j != id ==>
                (j in entries <==> j in old(entries)) && (j in entries ==> entries[j] == old(entries)[j])
    {
      QuietLoad(db, entries, id, now);
      if id in entries && now - entries[id].loadedAt < TTL { return Found(entries[id]); }
      if !Live(db, id) { return NoItem; }
      var c := Cached(Versions(|db[id].services| - 1, |db[id].entries| - 1), now, now, now);
      entries := entries[id := c];
      return Found(c);
    }

    method InvalidatePricingCache()
      modifies this
      ensures entries == map[]
    {
      entries := map[];
    }

    method InvalidatePricingCacheItem(id: ItemId)
      modifies this
      ensures entries == old(entries) - {id}
    {
      entries := entries - {id};
    }
  }
}
