/**
 Virtual marketplace items refer to a configuration row by a binding kept inside their
 encrypted template. No foreign key protects it: listing and rebinding transactions lock
 the configuration row until they commit, and so do the deletions, which scan the items.
 */
module VirtualBinding {
  import opened Sets

  type AdminId = int
  type ItemId = int
  datatype Kind = Vision | SystemOne | ImageGen | VideoGen | AudioGen | Camera
  datatype Binding = Binding(kind: Kind, refId: int)

  datatype Config = Config(owner: AdminId, registered: bool, enabled: bool, deleted: bool)
  datatype Item = Item(admin: AdminId, isVirtual: bool, binding: Binding, enabled: bool, deleted: bool)

  /** The SELECT ... FOR UPDATE of LockVirtualConfig finds a row. */
  predicate Lockable(configs: map<Binding, Config>, owner: AdminId, b: Binding) {
    b.refId > 0 && b in configs && configs[b].owner == owner && !configs[b].deleted
  }

  /** validateVirtualBindingTx after the lock: MCP service registered, configuration enabled
      (System One has no switch of its own); cameras cannot be listed. */
  predicate Listable(configs: map<Binding, Config>, owner: AdminId, b: Binding) {
    && b.kind != Camera
    && Lockable(configs, owner, b)
    && configs[b].registered
    && (b.kind != SystemOne ==> configs[b].enabled)
  }

  /** The items RequireVirtualConfigUnbound reports. */
  function BoundItems(items: map<ItemId, Item>, owner: AdminId, b: Binding): set<ItemId> {
    set i | i in items && items[i].isVirtual && items[i].admin == owner && !items[i].deleted && items[i].binding == b
  }

  // -------------------------------------------------------------- transactions

  datatype Job =
    | List(newId: ItemId, admin: AdminId, binding: Binding)
    | Save(itemId: ItemId, rebind: Option<Binding>, status: Option<bool>)
    | DeleteConfig(owner: AdminId, config: Binding)
    | DisableConfig(owner: AdminId, config: Binding)

  datatype Option<T> = None | Some(value: T)

  datatype Pc =
    | Start
    | WantLock(row: Item)   // row: what the transaction will write
    | Locked(row: Item)
    | Writing(row: Item)    // checks passed, the write is not visible yet
    | Finished

  datatype Tx = Tx(job: Job, pc: Pc)

  datatype Db = Db(configs: map<Binding, Config>, items: map<ItemId, Item>, locks: map<Binding, nat>, txs: seq<Tx>)

  /** The configuration row a transaction locks. */
  function LockKey(t: Tx): Binding {
    match t.job
    case List(_, _, b) => b
    case DeleteConfig(_, b) => b
    case DisableConfig(_, b) => b
    case Save(_, _, _) =>
      if t.pc.WantLock? || t.pc.Locked? || t.pc.Writing? then t.pc.row.binding else Binding(Camera, 0)
  }

  predicate Binds(j: Job) { j.List? || j.Save? }

  predicate InsideLock(t: Tx) { t.pc.Locked? || (t.pc.Writing? && NeedsLock(t.job, t.pc.row)) }

  /** UpdateItem validates, and so locks, when the item is rebound or saved as enabled. */
  predicate NeedsLock(j: Job, row: Item) {
    j.Save? ==> row.isVirtual && (j.rebind.Some? || row.enabled)
  }

  function Owner(t: Tx, row: Item): AdminId {
    match t.job
    case List(_, a, _) => a
    case DeleteConfig(o, _) => o
    case DisableConfig(o, _) => o
    case Save(_, _, _) => row.admin
  }

  const NO_ITEM := Item(0, false, Binding(Camera, 0), false, true)

  function To(db: Db, i: nat, next: Pc): seq<Tx>
    requires i < |db.txs|
  {
    db.txs[i := Tx(db.txs[i].job, next)]
  }

  function Step(db: Db, i: nat): (db': Db)
    requires i < |db.txs|
    ensures |db'.txs| == |db.txs|
  {
    var t := db.txs[i];
    var key := LockKey(t);
    match t.pc
    case Start =>
      (match t.job
       case List(_, admin, b) => db.(txs := To(db, i, WantLock(Item(admin, true, b, true, false))))
       case Save(id, rebind, status) =>
         if id !in db.items || db.items[id].deleted
            || (rebind.Some? && (!db.items[id].isVirtual || rebind.value.kind != db.items[id].binding.kind))
         then db.(txs := To(db, i, Finished))
         else
           var row := db.items[id].(binding := if rebind.Some? then rebind.value else db.items[id].binding,
                                    enabled := if status.Some? then status.value else db.items[id].enabled);
           db.(txs := To(db, i, if NeedsLock(t.job, row) then WantLock(row) else Writing(row)))
       case _ => db.(txs := To(db, i, WantLock(NO_ITEM))))
    case WantLock(row) =>
      if key in db.locks then db
      else if Lockable(db.configs, Owner(t, row), key)
      then db.(locks := db.locks[key := i], txs := To(db, i, Locked(row)))
      else db.(txs := To(db, i, Finished))
    case Locked(row) =>
      var ok := if Binds(t.job) then Listable(db.configs, Owner(t, row), key)
                else t.job.DisableConfig? || BoundItems(db.items, Owner(t, row), key) == {};
      if ok then db.(txs := To(db, i, Writing(row))) else db.(locks := db.locks - {key}, txs := To(db, i, Finished))
    case Writing(row) =>
      var locks := if NeedsLock(t.job, row) then db.locks - {key} else db.locks;
      (match t.job
       case List(id, _, _) =>
         if id in db.items then db.(locks := locks, txs := To(db, i, Finished))  // the name is unique: the insert fails
         else db.(items := db.items[id := row], locks := locks, txs := To(db, i, Finished))
       case Save(id, _, _) => db.(items := db.items[id := row], locks := locks, txs := To(db, i, Finished))
       case DeleteConfig(_, b) =>
         if b in db.configs
         then db.(configs := db.configs[b := db.configs[b].(registered := false, deleted := true)],
                  locks := locks, txs := To(db, i, Finished))
         else db.(locks := locks, txs := To(db, i, Finished))
       case DisableConfig(_, b) =>
         if b in db.configs
         then db.(configs := db.configs[b := db.configs[b].(registered := false)],
                  locks := locks, txs := To(db, i, Finished))
         else db.(locks := locks, txs := To(db, i, Finished)))
    case Finished => db
  }

  datatype Event =
    | Begin(job: Job)
    | Proceed(i: nat)
    | DeleteItem(id: ItemId)
    | CreateConfig(b: Binding, owner: AdminId)
    | EditConfig(b: Binding, registered: bool, enabled: bool) // enable and edit, a short transaction of its own

  function Apply(db: Db, e: Event): Db {
    match e
    case Begin(j) => db.(txs := db.txs + [Tx(j, Start)])
    case Proceed(i) => if i < |db.txs| then Step(db, i) else db
    case DeleteItem(id) => if id in db.items then db.(items := db.items[id := db.items[id].(deleted := true)]) else db
    case CreateConfig(b, owner) =>
      if b in db.configs then db else db.(configs := db.configs[b := Config(owner, false, true, false)])
    case EditConfig(b, r, en) =>
      if b in db.configs && b !in db.locks && !db.configs[b].deleted
      then db.(configs := db.configs[b := db.configs[b].(registered := r, enabled := en)]) else db
  }

  function Run(db: Db, es: seq<Event>): Db {
    if es == [] then db else Apply(Run(db, es[..|es| - 1]), es[|es| - 1])
  }

  // ----------------------------------------------------------------- invariant

  predicate Exposed(it: Item) { it.isVirtual && it.enabled && !it.deleted }

  /** The reference an item makes is honoured. */
  predicate Refers(configs: map<Binding, Config>, it: Item) {
    it.binding in configs && !configs[it.binding].deleted && configs[it.binding].owner == it.admin
  }

  predicate Integrity(configs: map<Binding, Config>, items: map<ItemId, Item>) {
    forall i :: i in items && Exposed(items[i]) ==> Refers(configs, items[i])
  }

  /** A row lock is held by exactly the transaction between its lock and its commit. */
  predicate LocksAgree(db: Db) {
    && (forall i :: 0 <= i < |db.txs| && InsideLock(db.txs[i]) ==>
          LockKey(db.txs[i]) in db.locks && db.locks[LockKey(db.txs[i])] == i)
    && (forall b :: b in db.locks ==>
          db.locks[b] < |db.txs| && InsideLock(db.txs[db.locks[b]]) && LockKey(db.txs[db.locks[b]]) == b)
  }

  /** What a transaction has established under its lock. */
  predicate Established(db: Db, t: Tx) {
    && (t.pc.WantLock? && t.job.Save? ==> NeedsLock(t.job, t.pc.row))
    && ((t.pc.WantLock? || t.pc.Locked? || t.pc.Writing?) && t.job.List? ==>
          t.pc.row == Item(t.job.admin, true, t.job.binding, true, false))
    && (t.pc.Locked? ==> NeedsLock(t.job, t.pc.row) && Lockable(db.configs, Owner(t, t.pc.row), LockKey(t)))
    && (t.pc.Writing? && NeedsLock(t.job, t.pc.row) ==> Lockable(db.configs, Owner(t, t.pc.row), LockKey(t)))
    && (t.pc.Writing? && t.job.DeleteConfig? ==>
          forall i :: i in db.items && Exposed(db.items[i]) ==> db.items[i].binding != t.job.config)
  }

  ghost predicate Inv(db: Db) {
    && Integrity(db.configs, db.items)
    && LocksAgree(db)
    && forall i :: 0 <= i < |db.txs| ==> Established(db, db.txs[i])
  }

  /** A step takes one lock, gives one lock back, or leaves the locks alone. */
  predicate MovesLock(locks: map<Binding, nat>, t: Tx, locks': map<Binding, nat>, t': Tx, i: nat) {
    || (locks' == locks && InsideLock(t') == InsideLock(t) && (InsideLock(t) ==> LockKey(t') == LockKey(t)))
    || (!InsideLock(t) && InsideLock(t') && LockKey(t') !in locks && locks' == locks[LockKey(t') := i])
    || (InsideLock(t) && !InsideLock(t') && locks' == locks - {LockKey(t)})
  }

  /** One transaction moves, and its lock with it. */
  predicate Moves(db: Db, db': Db, i: nat)
    requires i < |db.txs| && |db'.txs| == |db.txs|
  {
    db'.txs == db.txs[i := db'.txs[i]] && MovesLock(db.locks, db.txs[i], db'.locks, db'.txs[i], i)
  }

  lemma StartMoves(db: Db, i: nat)
    requires i < |db.txs| && db.txs[i].pc.Start?
    ensures Moves(db, Step(db, i), i)
  {
  }

  lemma LockMoves(db: Db, i: nat)
    requires i < |db.txs| && Established(db, db.txs[i]) && (db.txs[i].pc.WantLock? || db.txs[i].pc.Locked?)
    ensures Moves(db, Step(db, i), i)
  {
  }

  lemma WriteMoves(db: Db, i: nat)
    requires i < |db.txs| && (db.txs[i].pc.Writing? || db.txs[i].pc.Finished?)
    ensures Moves(db, Step(db, i), i)
  {
  }

  lemma StepMovesLock(db: Db, i: nat)
    requires i < |db.txs| && Established(db, db.txs[i])
    ensures Moves(db, Step(db, i), i)
  {
    if db.txs[i].pc.Start? {
      StartMoves(db, i);
    } else if db.txs[i].pc.WantLock? || db.txs[i].pc.Locked? {
      LockMoves(db, i);
    } else {
      WriteMoves(db, i);
    }
  }

  lemma LocksKept(db: Db, db': Db, i: nat)
    requires LocksAgree(db) && i < |db.txs| && |db'.txs| == |db.txs| && Moves(db, db', i)
    ensures LocksAgree(db')
  {
    forall j | 0 <= j < |db'.txs| && InsideLock(db'.txs[j])
      ensures LockKey(db'.txs[j]) in db'.locks && db'.locks[LockKey(db'.txs[j])] == j
    {
      if j != i { assert db'.txs[j] == db.txs[j]; }
    }
    forall b | b in db'.locks
      ensures db'.locks[b] < |db'.txs| && InsideLock(db'.txs[db'.locks[b]]) && LockKey(db'.txs[db'.locks[b]]) == b
    {
      if b in db.locks && db.locks[b] != i { assert db'.txs[db.locks[b]] == db.txs[db.locks[b]]; }
    }
  }

  lemma StepKeepsIntegrity(db: Db, i: nat)
    requires Inv(db) && i < |db.txs|
    ensures Integrity(Step(db, i).configs, Step(db, i).items)
  {
  }

  lemma StepperStaysEstablished(db: Db, i: nat)
    requires Inv(db) && i < |db.txs|
    ensures Established(Step(db, i), Step(db, i).txs[i])
  {
    var t := db.txs[i];
    assert Established(db, t);
    if t.pc.Locked? && t.job.DeleteConfig? {
      forall x | x in db.items && Exposed(db.items[x]) && db.items[x].binding == t.job.config
        ensures x in BoundItems(db.items, t.job.owner, t.job.config)
      {
        assert Refers(db.configs, db.items[x]);
      }
    }
  }

  lemma StepKeepsEstablished(db: Db, i: nat)
    requires Inv(db) && i < |db.txs|
    ensures var db' := Step(db, i); forall k :: 0 <= k < |db'.txs| ==> Established(db', db'.txs[k])
  {
    var db' := Step(db, i);
    assert Established(db, db.txs[i]);
    StepMovesLock(db, i);
    StepperStaysEstablished(db, i);
    forall k | 0 <= k < |db'.txs| && k != i ensures Established(db', db'.txs[k]) { OthersStayEstablished(db, i, k); }
  }

  /** A transaction's knowledge survives the steps of the others: they cannot delete its
      configuration or expose an item bound to it, because they do not hold its lock. */
  lemma OthersStayEstablished(db: Db, i: nat, k: nat)
    requires Inv(db) && i < |db.txs| && k < |db.txs| && i != k
    ensures Established(Step(db, i), db.txs[k])
  {
  }

  lemma StepKeepsInv(db: Db, i: nat)
    requires Inv(db) && i < |db.txs|
    ensures Inv(Step(db, i))
  {
    StepMovesLock(db, i);
    LocksKept(db, Step(db, i), i);
    StepKeepsIntegrity(db, i);
    StepKeepsEstablished(db, i);
  }

  lemma OtherEventKeepsEstablished(db: Db, e: Event)
    requires Inv(db) && !e.Proceed?
    ensures var db' := Apply(db, e); forall k :: 0 <= k < |db'.txs| ==> Established(db', db'.txs[k])
  {
    var db' := Apply(db, e);
    forall k | 0 <= k < |db'.txs| ensures Established(db', db'.txs[k]) {
      if k < |db.txs| { assert Established(db, db.txs[k]); }
    }
  }

  lemma OtherEventKeepsLocks(db: Db, e: Event)
    requires Inv(db) && !e.Proceed?
    ensures Integrity(Apply(db, e).configs, Apply(db, e).items) && LocksAgree(Apply(db, e))
  {
  }

  lemma ApplyKeepsInv(db: Db, e: Event)
    requires Inv(db)
    ensures Inv(Apply(db, e))
  {
    if e.Proceed? {
      if e.i < |db.txs| { StepKeepsInv(db, e.i); }
    } else {
      OtherEventKeepsEstablished(db, e);
      OtherEventKeepsLocks(db, e);
    }
  }

  ghost predicate Initial(db: Db) { db.locks == map[] && db.txs == [] && Integrity(db.configs, db.items) }

  lemma {:induction false} RunKeepsInv(db: Db, es: seq<Event>)
    requires Initial(db)
    ensures Inv(Run(db, es))
  {
    if es != [] {
      RunKeepsInv(db, es[..|es| - 1]);
      ApplyKeepsInv(Run(db, es[..|es| - 1]), es[|es| - 1]);
    }
  }

  /**
   Every enabled, undeleted virtual item refers to an undeleted configuration of its own
   administrator, at every moment of every interleaving.
   */
  lemma ExposedItemsStayBound(db: Db, es: seq<Event>, id: ItemId)
    requires Initial(db)
    ensures var w := Run(db, es);
            id in w.items && w.items[id].isVirtual && w.items[id].enabled && !w.items[id].deleted ==>
              var b := w.items[id].binding;
              b in w.configs && !w.configs[b].deleted && w.configs[b].owner == w.items[id].admin
  {
    RunKeepsInv(db, es);
  }

  // ------------------------------------------------------- what the checks decide

  /** A configuration that may be listed: an undeleted one of the administrator, registered as
      an MCP service and, but for System One, enabled; never a camera. */
  ghost predicate CanBeListed(configs: map<Binding, Config>, owner: AdminId, b: Binding) {
    && !b.kind.Camera? && b.refId > 0 && b in configs
    && configs[b].owner == owner && !configs[b].deleted && configs[b].registered
    && (configs[b].enabled || b.kind.SystemOne?)
  }

  lemma ListableIff(configs: map<Binding, Config>, owner: AdminId, b: Binding)
    ensures Listable(configs, owner, b) <==> CanBeListed(configs, owner, b)
  {
  }

  lemma BoundItemsIff(items: map<ItemId, Item>, owner: AdminId, b: Binding)
    ensures BoundItems(items, owner, b) == {}
            <==> !exists i :: && i in items && items[i].isVirtual && items[i].admin == owner
                              && !items[i].deleted && items[i].binding == b
  {
    if i :| i in items && items[i].isVirtual && items[i].admin == owner && !items[i].deleted && items[i].binding == b {
      assert i in BoundItems(items, owner, b);
    }
    SomeMember(BoundItems(items, owner, b));
  }

  /** At any moment of any interleaving, a deletion that holds the lock goes on to write exactly
      if no undeleted item of the administrator, enabled or not, is bound to the configuration. */
  lemma DeletionGoesOnIff(db: Db, i: nat)
    requires i < |db.txs| && db.txs[i].job.DeleteConfig? && db.txs[i].pc.Locked?
    ensures var owner, b := db.txs[i].job.owner, db.txs[i].job.config;
            Step(db, i).txs[i].pc.Writing?
            <==> !exists x :: && x in db.items && db.items[x].isVirtual && db.items[x].admin == owner
                              && !db.items[x].deleted && db.items[x].binding == b
  {
    BoundItemsIff(db.items, db.txs[i].job.owner, db.txs[i].job.config);
  }

  /** And a listing or rebinding goes on exactly if the configuration may be listed. */
  lemma ListingGoesOnIff(db: Db, i: nat)
    requires i < |db.txs| && (db.txs[i].job.List? || db.txs[i].job.Save?) && db.txs[i].pc.Locked?
    ensures var row, t := db.txs[i].pc.row, db.txs[i];
            Step(db, i).txs[i].pc.Writing?
            <==> if t.job.List? then CanBeListed(db.configs, t.job.admin, t.job.binding)
                 else CanBeListed(db.configs, row.admin, row.binding)
  {
    var row, t := db.txs[i].pc.row, db.txs[i];
    if t.job.List? { ListableIff(db.configs, t.job.admin, t.job.binding); }
    else { ListableIff(db.configs, row.admin, row.binding); }
  }

  lemma RunStep(db: Db, es: seq<Event>, e: Event)
    ensures Run(db, es + [e]) == Apply(Run(db, es), e)
  {
  }

  /** A deletion left alone until it has finished. */
  lemma DeletionRuns(db: Db, es0: seq<Event>, admin: AdminId, b: Binding) returns (es: seq<Event>)
    requires Run(db, es0).locks == map[] && Lockable(Run(db, es0).configs, admin, b)
    ensures var w, w' := Run(db, es0), Run(db, es);
            && w'.items == w.items && w'.locks == map[]
            && w'.configs == if BoundItems(w.items, admin, b) != {} then w.configs
                             else w.configs[b := w.configs[b].(registered := false, deleted := true)]
  {
    var w, j := Run(db, es0), DeleteConfig(admin, b);
    var i := |w.txs|;
    RunStep(db, es0, Begin(j));
    es := es0 + [Begin(j)];
    var free := BoundItems(w.items, admin, b) == {};
    var pcs := [Start, WantLock(NO_ITEM), Locked(NO_ITEM), if free then Writing(NO_ITEM) else Finished, Finished];
    for k := 0 to 4
      invariant var w' := Run(db, es);
                && w'.items == w.items && |w'.txs| == i + 1 && w'.txs[i] == Tx(j, pcs[k])
                && w'.locks == (if k == 2 || (k == 3 && free) then map[b := i] else map[])
                && w'.configs == if k < 4 || !free then w.configs
                                 else w.configs[b := w.configs[b].(registered := false, deleted := true)]
    {
      RunStep(db, es, Proceed(i));
      es := es + [Proceed(i)];
    }
  }

  /** A listing left alone until it has finished. */
  lemma ListingRuns(configs: map<Binding, Config>, id: ItemId, admin: AdminId, b: Binding) returns (es: seq<Event>)
    requires CanBeListed(configs, admin, b)
    ensures var w := Run(Db(configs, map[], map[], []), es);
            w.configs == configs && w.items == map[id := Item(admin, true, b, true, false)] && w.locks == map[]
  {
    var db, j, row := Db(configs, map[], map[], []), List(id, admin, b), Item(admin, true, b, true, false);
    ListableIff(configs, admin, b);
    RunStep(db, [], Begin(j));
    es := [Begin(j)];
    var pcs := [Start, WantLock(row), Locked(row), Writing(row), Finished];
    for k := 0 to 4
      invariant var w := Run(db, es);
                && w.configs == configs && w.txs == [Tx(j, pcs[k])]
                && w.locks == (if 2 <= k <= 3 then map[b := 0] else map[])
                && w.items == if k < 4 then map[] else map[id := row]
    {
      RunStep(db, es, Proceed(0));
      es := es + [Proceed(0)];
    }
  }

  /** The protocol gets somewhere: an item is listed, its configuration cannot be deleted while
      it is there, and can once it is gone. */
  lemma ListedThenDeleted(configs: map<Binding, Config>, id: ItemId, admin: AdminId, b: Binding)
    returns (listed: seq<Event>, refused: seq<Event>, done: seq<Event>)
    requires CanBeListed(configs, admin, b)
    ensures var db := Db(configs, map[], map[], []);
            && Run(db, listed).items == map[id := Item(admin, true, b, true, false)]
            && Run(db, refused).configs == configs && Run(db, refused).items == Run(db, listed).items
            && Run(db, done).items == map[id := Item(admin, true, b, true, true)]
            && Run(db, done).configs == configs[b := configs[b].(registered := false, deleted := true)]
  {
    var db := Db(configs, map[], map[], []);
    listed := ListingRuns(configs, id, admin, b);
    assert id in BoundItems(Run(db, listed).items, admin, b);
    refused := DeletionRuns(db, listed, admin, b);
    RunStep(db, refused, DeleteItem(id));
    var gone := refused + [DeleteItem(id)];
    assert BoundItems(Run(db, gone).items, admin, b) == {};
    done := DeletionRuns(db, gone, admin, b);
  }

  // ------------------------------------------------ the transactions as written

  /** One transaction with nobody else about: begin, lock, check, write and commit. */
  function Solo(configs: map<Binding, Config>, items: map<ItemId, Item>, j: Job): (db: Db)
    ensures |db.txs| == 1
  {
    var one := Step(Db(configs, items, map[], [Tx(j, Start)]), 0);
    Step(Step(Step(one, 0), 0), 0)
  }

  ghost predicate CommitsAs(db: Db, configs: map<Binding, Config>, items: map<ItemId, Item>) {
    db.configs == configs && db.items == items && db.locks == map[] && |db.txs| == 1 && db.txs[0].pc == Finished
  }

  class Marketplace {
    var configs: map<Binding, Config>
    var items: map<ItemId, Item>

    constructor (configs: map<Binding, Config>)
      ensures this.configs == configs && this.items == map[]
    {
      this.configs, this.items := configs, map[];
    }

    /** The scan of the virtual items of one administrator. */
    method RequireVirtualConfigUnbound(owner: AdminId, b: Binding) returns (found: bool, bound: set<ItemId>)
      ensures found == (b.refId > 0 && b in configs && configs[b].owner == owner && !configs[b].deleted)
      ensures forall i :: i in bound <==> && found && i in items && items[i].isVirtual && items[i].admin == owner
                                          && !items[i].deleted && items[i].binding == b
      ensures bound == if found then BoundItems(items, owner, b) else {}
    {
      bound := {};
      found := Lockable(configs, owner, b);
      if !found { return; }
      var rest := set i | i in items && items[i].isVirtual && items[i].admin == owner && !items[i].deleted;
      ghost var all := rest;
      while rest != {}
        invariant rest <= all
        invariant bound == set i | i in all - rest && items[i].binding == b
        decreases |rest|
      {
        SomeMember(rest);
        var i: ItemId :| i in rest;
        if items[i].binding == b { bound := bound + {i}; }
        rest := rest - {i};
      }
    }

    /** Config delete (or disable): refused while any undeleted item is bound to it. */
    method RemoveConfig(owner: AdminId, b: Binding, deleteConfig: bool) returns (ok: bool)
      modifies this`configs
      ensures ok <==> && b.refId > 0 && b in old(configs) && old(configs)[b].owner == owner && !old(configs)[b].deleted
                      && !(deleteConfig && exists i :: && i in items && items[i].isVirtual && items[i].admin == owner
                                                       && !items[i].deleted && items[i].binding == b)
      ensures configs == if !ok then old(configs)
                         else old(configs)[b := old(configs)[b].(registered := false, deleted := deleteConfig)]
      ensures var j := if deleteConfig then DeleteConfig(owner, b) else DisableConfig(owner, b);
              CommitsAs(Solo(old(configs), items, j), configs, items)
      ensures old(Integrity(configs, items)) ==> Integrity(configs, items)
    {
      SoloRemove(configs, items, owner, b, deleteConfig);
      BoundItemsIff(items, owner, b);
      if !Lockable(configs, owner, b) { return false; }
      if deleteConfig {
        var found, bound := RequireVirtualConfigUnbound(owner, b);
        if bound != {} { return false; }
        assert forall x :: x in items && Exposed(items[x]) && items[x].admin == owner && items[x].binding == b
                           ==> x in BoundItems(items, owner, b);
      }
      configs := configs[b := configs[b].(registered := false, deleted := deleteConfig)];
      return true;
    }

    method CloneFromService(id: ItemId, admin: AdminId, b: Binding) returns (ok: bool)
      modifies this`items
      ensures ok == (id !in old(items) && CanBeListed(configs, admin, b))
      ensures items == if ok then old(items)[id := Item(admin, true, b, true, false)] else old(items)
      ensures CommitsAs(Solo(configs, old(items), List(id, admin, b)), configs, items)
      ensures old(Integrity(configs, items)) ==> Integrity(configs, items)
    {
      SoloList(configs, items, id, admin, b);
      ListableIff(configs, admin, b);
      if !Listable(configs, admin, b) { return false; }
      if id in items { return false; }
      items := items[id := Item(admin, true, b, true, false)];
      return true;
    }

    /** UpdateItem, as far as binding and status go. */
    method UpdateItem(id: ItemId, rebind: Option<Binding>, status: Option<bool>) returns (ok: bool)
      modifies this`items
      ensures ok == (&& id in old(items) && !old(items)[id].deleted
                     && (rebind.Some? ==> old(items)[id].isVirtual && rebind.value.kind == old(items)[id].binding.kind)
                     && (var it := old(items)[id];
                         var saved := if rebind.Some? then rebind.value else it.binding;
                         var exposed := it.isVirtual && (if status.Some? then status.value else it.enabled);
                         rebind.Some? || exposed ==> CanBeListed(configs, it.admin, saved)))
      ensures if !ok then items == old(items)
              else items == old(items)[id := old(items)[id].(
                              binding := if rebind.Some? then rebind.value else old(items)[id].binding,
                              enabled := if status.Some? then status.value else old(items)[id].enabled)]
      ensures CommitsAs(Solo(configs, old(items), Save(id, rebind, status)), configs, items)
      ensures old(Integrity(configs, items)) ==> Integrity(configs, items)
    {
      SoloSave(configs, items, id, rebind, status);
      if id !in items || items[id].deleted { return false; }
      var row := items[id];
      ListableIff(configs, row.admin, if rebind.Some? then rebind.value else row.binding);
      if rebind.Some? {
        if !row.isVirtual || rebind.value.kind != row.binding.kind { return false; }
        row := row.(binding := rebind.value);
      }
      if status.Some? { row := row.(enabled := status.value); }
      if row.isVirtual && (rebind.Some? || row.enabled) {
        if !Listable(configs, row.admin, row.binding) { return false; }
      }
      items := items[id := row];
      return true;
    }
  }

  function Edited(it: Item, rebind: Option<Binding>, status: Option<bool>): Item {
    it.(binding := if rebind.Some? then rebind.value else it.binding,
        enabled := if status.Some? then status.value else it.enabled)
  }

  lemma SoloRemove(configs: map<Binding, Config>, items: map<ItemId, Item>,
                   owner: AdminId, b: Binding, deleteConfig: bool)
    ensures CommitsAs(Solo(configs, items, if deleteConfig then DeleteConfig(owner, b) else DisableConfig(owner, b)),
                      if Lockable(configs, owner, b) && (deleteConfig ==> BoundItems(items, owner, b) == {})
                      then configs[b := configs[b].(registered := false, deleted := deleteConfig)] else configs,
                      items)
  {
  }

  lemma SoloList(configs: map<Binding, Config>, items: map<ItemId, Item>, id: ItemId, admin: AdminId, b: Binding)
    ensures CommitsAs(Solo(configs, items, List(id, admin, b)), configs,
                      if id !in items && Listable(configs, admin, b)
                      then items[id := Item(admin, true, b, true, false)] else items)
  {
  }

  lemma SoloSave(configs: map<Binding, Config>, items: map<ItemId, Item>,
                 id: ItemId, rebind: Option<Binding>, status: Option<bool>)
    ensures CommitsAs(Solo(configs, items, Save(id, rebind, status)), configs,
                      if id !in items || items[id].deleted then items
                      else if rebind.Some? && (!items[id].isVirtual || rebind.value.kind != items[id].binding.kind)
                      then items
                      else
                        var row := Edited(items[id], rebind, status);
                        if row.isVirtual && (rebind.Some? || row.enabled) && !Listable(configs, row.admin, row.binding)
                        then items
                        else items[id := row])
  {
  }
}
