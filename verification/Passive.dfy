/**
 Passive WebSocket services: a reverse connection is authenticated, shakes hands slowly,
 and is published under the service lock after a second check, while resets, status
 changes and deletions run concurrently under the same lock.
 */
module Passive {

  type ServiceId = int
  type UserId = int
  datatype Option<T> = None | Some(value: T)

  /** The parsed form of "id.secret"; anything else is malformed. */
  datatype Token = Malformed | Token(id: ServiceId, secret: string)

  datatype Service = Service(owner: UserId, userOwned: bool, passive: bool, enabled: bool, secret: string)
  datatype Session = Session(adapter: int, secret: string)
  datatype Accounts = Accounts(enabledUsers: set<UserId>, userOwnedServices: bool)
  datatype Check = Valid(service: Service) | BadCredentials | Disabled

  const SECRET_LENGTH := 43

  function ValidatePassiveToken(rows: map<ServiceId, Service>, acc: Accounts, tok: Token): Check {
    if tok == Malformed || tok.id <= 0 then BadCredentials
    else if tok.id !in rows || !rows[tok.id].passive then BadCredentials
    else
      var svc := rows[tok.id];
      if |svc.secret| != SECRET_LENGTH || svc.secret != tok.secret then BadCredentials
      else if svc.owner !in acc.enabledUsers || !svc.enabled then Disabled
      else if svc.userOwned && !acc.userOwnedServices then Disabled
      else Valid(svc)
  }

  /** The token names an existing passive service and carries its secret. */
  ghost predicate Authenticates(rows: map<ServiceId, Service>, tok: Token) {
    && tok.Token? && tok.id > 0 && tok.id in rows && rows[tok.id].passive
    && |rows[tok.id].secret| == 43 && rows[tok.id].secret == tok.secret
  }

  /** Service and owner are enabled, and the site still allows services of users. */
  ghost predicate InService(svc: Service, acc: Accounts) {
    svc.enabled && svc.owner in acc.enabledUsers && (svc.userOwned ==> acc.userOwnedServices)
  }

  ghost predicate Admits(rows: map<ServiceId, Service>, acc: Accounts, tok: Token) {
    Authenticates(rows, tok) && InService(rows[tok.id], acc)
  }

  /** Which tokens are valid, which belong to a service out of service, and which are bad. */
  lemma TokenVerdict(rows: map<ServiceId, Service>, acc: Accounts, tok: Token)
    ensures ValidatePassiveToken(rows, acc, tok) ==
            if Admits(rows, acc, tok) then Valid(rows[tok.id])
            else if Authenticates(rows, tok) then Disabled
            else BadCredentials
  {
  }

  // ------------------------------------------------------------------- threads

  datatype Job =
    | Connect(tok: Token, adapter: int)
    | Reset(resetId: ServiceId, newSecret: string)
    | SetStatus(updateId: ServiceId, status: Option<bool>)
    | Delete(deleteId: ServiceId)

  datatype Pc =
    | Start               // first check of a connection
    | Handshake
    | WantLock
    | Locked              // row not read yet under the lock
    | Checked(svc: Service)
    | Written             // row changed, session not yet dropped
    | Unlocking
    | Done

  datatype Thread = Thread(job: Job, pc: Pc)

  datatype World = World(rows: map<ServiceId, Service>, pool: map<ServiceId, Session>, locks: map<ServiceId, nat>,
                         acc: Accounts, nextId: ServiceId, threads: seq<Thread>)

  function Target(j: Job): ServiceId {
    match j
    case Connect(tok, _) => if tok == Malformed then 0 else tok.id
    case Reset(id, _) => id
    case SetStatus(id, _) => id
    case Delete(id) => id
  }

  function SecretOf(tok: Token): string { if tok == Malformed then "" else tok.secret }

  /** Must the job drop the session after it has changed the row? */
  predicate Drops(j: Job) { j.Reset? || j.Delete? || (j.SetStatus? && j.status == Some(false)) }

  /** The job's write. A full-row save writes the snapshot that was read under the lock. */
  function WriteRow(rows: map<ServiceId, Service>, j: Job, svc: Service): map<ServiceId, Service> {
    match j
    case Connect(_, _) => rows
    case Reset(id, newSecret) => if id in rows then rows[id := rows[id].(secret := newSecret)] else rows
    case SetStatus(id, status) => rows[id := if status.Some? then svc.(enabled := status.value) else svc]
    case Delete(id) => rows - {id}
  }

  function To(w: World, i: nat, next: Pc): seq<Thread>
    requires i < |w.threads|
  {
    w.threads[i := Thread(w.threads[i].job, next)]
  }

  /** One atomic step of thread i. `ok` is the outcome of whatever may fail there: the
      handshake, the adapter still being connected, or the SQL write. */
  function Step(w: World, i: nat, ok: bool): World
    requires i < |w.threads|
  {
    var Thread(j, pc) := w.threads[i];
    var id := Target(j);
    match pc
    case Start =>
      var first := !j.Connect? || ValidatePassiveToken(w.rows, w.acc, j.tok).Valid?;
      w.(threads := To(w, i, if !first then Done else if j.Connect? then Handshake else WantLock))
    case Handshake => w.(threads := To(w, i, if ok then WantLock else Done))
    case WantLock =>
      if id in w.locks then w else w.(locks := w.locks[id := i], threads := To(w, i, Locked))
    case Locked =>
      if j.Connect? then
        var c := ValidatePassiveToken(w.rows, w.acc, j.tok);
        w.(threads := To(w, i, if c.Valid? then Checked(c.service) else Unlocking))
      else if id !in w.rows || (j.Reset? && !w.rows[id].passive) then w.(threads := To(w, i, Unlocking))
      else w.(threads := To(w, i, Checked(w.rows[id])))
    case Checked(svc) =>
      if j.Connect? then
        if svc.passive && svc.enabled && ok
        then w.(pool := w.pool[id := Session(j.adapter, SecretOf(j.tok))], threads := To(w, i, Unlocking))
        else w.(threads := To(w, i, Unlocking))
      else if ok then w.(rows := WriteRow(w.rows, j, svc), threads := To(w, i, Written))
      else w.(threads := To(w, i, Unlocking))
    case Written =>
      w.(pool := if Drops(j) then w.pool - {id} else w.pool, threads := To(w, i, Unlocking))
    case Unlocking => w.(locks := w.locks - {id}, threads := To(w, i, Done))
    case Done => w
  }

  datatype Event =
    | Spawn(job: Job)
    | Advance(i: nat, ok: bool)
    | Create(svc: Service)                 // a new service row, with an id never used before
    | Drop(id: ServiceId)                  // disconnect, idle sweep: the session goes away
    | SetAccounts(acc: Accounts)           // users and the site switch change without the lock

  function Apply(w: World, e: Event): World {
    match e
    case Spawn(job) => w.(threads := w.threads + [Thread(job, Start)])
    case Advance(i, ok) => if i < |w.threads| then Step(w, i, ok) else w
    case Create(svc) => w.(rows := w.rows[w.nextId := svc], nextId := w.nextId + 1)
    case Drop(id) => w.(pool := w.pool - {id})
    case SetAccounts(acc) => w.(acc := acc)
  }

  function Run(w: World, es: seq<Event>): World {
    if es == [] then w else Apply(Run(w, es[..|es| - 1]), es[|es| - 1])
  }

  // ----------------------------------------------------------------- invariant

  /** The session attached to service id carries the current secret of an existing,
      enabled passive service. */
  predicate Authentic(rows: map<ServiceId, Service>, pool: map<ServiceId, Session>, id: ServiceId) {
    id in pool ==> id in rows && rows[id].passive && rows[id].enabled && rows[id].secret == pool[id].secret
  }

  predicate Holding(pc: Pc) { pc.Locked? || pc.Checked? || pc.Written? || pc.Unlocking? }

  /** A lock is held exactly by the thread that is inside its critical section. */
  predicate LocksAgree(w: World) {
    && (forall i :: 0 <= i < |w.threads| && Holding(w.threads[i].pc) ==>
          Target(w.threads[i].job) in w.locks && w.locks[Target(w.threads[i].job)] == i)
    && (forall id :: id in w.locks ==>
          w.locks[id] < |w.threads| && Holding(w.threads[w.locks[id]].pc) && Target(w.threads[w.locks[id]].job) == id)
  }

  /** What a thread inside the lock knows about its row. */
  predicate Knows(w: World, t: Thread) {
    && (t.pc.Checked? ==>
          && Target(t.job) in w.rows && w.rows[Target(t.job)] == t.pc.svc
          && (t.job.Connect? ==> t.job.tok.Token? && t.pc.svc.secret == t.job.tok.secret))
    && (t.pc == Written ==> !t.job.Connect?)
  }

  /** The holder of the lock is between changing the row and dropping the session. */
  predicate Repairing(w: World, id: ServiceId) {
    && id in w.locks && w.locks[id] < |w.threads|
    && w.threads[w.locks[id]].pc == Written && Drops(w.threads[w.locks[id]].job)
  }

  ghost predicate Inv(w: World) {
    && LocksAgree(w)
    && (forall i :: 0 <= i < |w.threads| ==> Knows(w, w.threads[i]))
    && (forall id :: id in w.rows || id in w.pool ==> id < w.nextId)
    && (forall id :: id in w.pool ==> Authentic(w.rows, w.pool, id) || Repairing(w, id))
  }

  /** How a step moves the lock of its own target; other locks and threads stay. */
  predicate MovesLock(w: World, w': World, i: nat)
    requires i < |w.threads| && |w'.threads| == |w.threads|
  {
    var t, t' := w.threads[i], w'.threads[i];
    var id := Target(t.job);
    && t'.job == t.job && w'.threads == w.threads[i := t']
    && (|| (w'.locks == w.locks && Holding(t'.pc) == Holding(t.pc))
        || (id !in w.locks && w'.locks == w.locks[id := i] && !Holding(t.pc) && Holding(t'.pc))
        || (w'.locks == w.locks - {id} && Holding(t.pc) && !Holding(t'.pc)))
  }

  lemma StartMovesLock(w: World, i: nat, ok: bool)
    requires i < |w.threads| && w.threads[i].pc.Start?
    ensures |Step(w, i, ok).threads| == |w.threads| && MovesLock(w, Step(w, i, ok), i)
  {
  }

  lemma OutsideMovesLock(w: World, i: nat, ok: bool)
    requires i < |w.threads| && !Holding(w.threads[i].pc) && !w.threads[i].pc.Start?
    ensures |Step(w, i, ok).threads| == |w.threads| && MovesLock(w, Step(w, i, ok), i)
  {
  }

  lemma LockedMovesLock(w: World, i: nat, ok: bool)
    requires i < |w.threads| && (w.threads[i].pc.Locked? || w.threads[i].pc.Checked?)
    ensures |Step(w, i, ok).threads| == |w.threads| && MovesLock(w, Step(w, i, ok), i)
  {
  }

  lemma EndMovesLock(w: World, i: nat, ok: bool)
    requires i < |w.threads| && (w.threads[i].pc.Written? || w.threads[i].pc.Unlocking?)
    ensures |Step(w, i, ok).threads| == |w.threads| && MovesLock(w, Step(w, i, ok), i)
  {
  }

  lemma StepMovesLock(w: World, i: nat, ok: bool)
    requires i < |w.threads|
    ensures |Step(w, i, ok).threads| == |w.threads| && MovesLock(w, Step(w, i, ok), i)
  {
    if w.threads[i].pc.Start? {
      StartMovesLock(w, i, ok);
    } else if !Holding(w.threads[i].pc) {
      OutsideMovesLock(w, i, ok);
    } else if w.threads[i].pc.Locked? || w.threads[i].pc.Checked? {
      LockedMovesLock(w, i, ok);
    } else {
      EndMovesLock(w, i, ok);
    }
  }

  lemma MovedLocksAgree(w: World, w': World, i: nat)
    requires LocksAgree(w) && i < |w.threads| && |w'.threads| == |w.threads| && MovesLock(w, w', i)
    ensures LocksAgree(w')
  {
  }

  lemma LocksKept(w: World, i: nat, ok: bool)
    requires Inv(w) && i < |w.threads|
    ensures LocksAgree(Step(w, i, ok))
  {
    StepMovesLock(w, i, ok);
    MovedLocksAgree(w, Step(w, i, ok), i);
  }

  /** Only the holder of a service's lock changes its row, so what others know stays true. */
  lemma KnowledgeKept(w: World, i: nat, ok: bool)
    requires Inv(w) && i < |w.threads|
    ensures var w' := Step(w, i, ok);
            forall k :: 0 <= k < |w'.threads| ==> Knows(w', w'.threads[k])
  {
  }

  lemma PoolKept(w: World, i: nat, ok: bool)
    requires Inv(w) && i < |w.threads|
    ensures var w' := Step(w, i, ok);
            && (forall id :: id in w'.rows || id in w'.pool ==> id < w'.nextId)
            && (forall id :: id in w'.pool ==> Authentic(w'.rows, w'.pool, id) || Repairing(w', id))
  {
    var w' := Step(w, i, ok);
    var t := w.threads[i];
    assert Knows(w, t);
    forall id | id in w'.pool ensures Authentic(w'.rows, w'.pool, id) || Repairing(w', id) {
      if id != Target(t.job) {
        assert Authentic(w.rows, w.pool, id) || Repairing(w, id);
        assert id in w.locks ==> w.locks[id] != i;
      } else if Holding(t.pc) {
        assert w.locks[id] == i;
      } else {
        assert id in w.locks ==> w.locks[id] != i;
      }
    }
  }

  lemma ApplyKeepsInv(w: World, e: Event)
    requires Inv(w)
    ensures Inv(Apply(w, e))
  {
    match e
    case Advance(i, ok) =>
      if i < |w.threads| {
        LocksKept(w, i, ok);
        KnowledgeKept(w, i, ok);
        PoolKept(w, i, ok);
      }
    case Spawn(job) =>
      var w' := Apply(w, e);
      forall id | id in w'.pool ensures Authentic(w'.rows, w'.pool, id) || Repairing(w', id) {
        assert Authentic(w.rows, w.pool, id) || Repairing(w, id);
      }
    case _ =>
      var w' := Apply(w, e);
      forall id | id in w'.pool ensures Authentic(w'.rows, w'.pool, id) || Repairing(w', id) {
        assert Authentic(w.rows, w.pool, id) || Repairing(w, id);
      }
  }

  ghost predicate Initial(w: World) {
    w.pool == map[] && w.locks == map[] && w.threads == [] && forall id :: id in w.rows ==> id < w.nextId
  }

  lemma {:induction false} RunKeepsInv(w: World, es: seq<Event>)
    requires Initial(w)
    ensures Inv(Run(w, es))
  {
    if es != [] {
      RunKeepsInv(w, es[..|es| - 1]);
      ApplyKeepsInv(Run(w, es[..|es| - 1]), es[|es| - 1]);
    }
  }

  /**
   Whenever a service's lock is free, the session attached to it was authenticated with
   the service's current secret, and the service exists and is enabled, in every
   interleaving of connections, resets, status changes and deletions.
   */
  lemma AttachedSessionsAreAuthentic(w: World, es: seq<Event>, id: ServiceId)
    requires Initial(w)
    requires id !in Run(w, es).locks && id in Run(w, es).pool
    ensures var w' := Run(w, es);
            && id in w'.rows && w'.rows[id].passive && w'.rows[id].enabled
            && w'.rows[id].secret == w'.pool[id].secret
  {
    RunKeepsInv(w, es);
    assert !Repairing(Run(w, es), id);
  }

  // --------------------------------------------- what a published session has passed

  /** The checks of a connection: it begins its handshake exactly if the token is admitted, waits
      for the lock exactly if the handshake succeeds, and under the lock it goes on to publish
      exactly if the token is admitted again. */
  lemma ConnectionChecks(w: World, i: nat, ok: bool)
    requires i < |w.threads| && w.threads[i].job.Connect?
    ensures var tok, pc, pc' := w.threads[i].job.tok, w.threads[i].pc, Step(w, i, ok).threads[i].pc;
            && (pc == Start ==> pc' == if Admits(w.rows, w.acc, tok) then Handshake else Done)
            && (pc == Handshake ==> pc' == if ok then WantLock else Done)
            && (pc == Locked ==> pc' == if Admits(w.rows, w.acc, tok) then Checked(w.rows[tok.id]) else Unlocking)
  {
  }

  lemma RunStep(w: World, es: seq<Event>, e: Event)
    ensures Run(w, es + [e]) == Apply(Run(w, es), e)
  {
  }

  /** Connections do get through: from any state without locks, an admitted token whose
      connection is left alone ends up published, with the lock free again. */
  lemma AdmittedIsPublished(w: World, tok: Token, adapter: int) returns (es: seq<Event>)
    requires w.locks == map[] && w.threads == [] && Admits(w.rows, w.acc, tok)
    ensures var w' := Run(w, es);
            && w'.rows == w.rows && w'.acc == w.acc && w'.locks == map[]
            && w'.pool == w.pool[tok.id := Session(adapter, tok.secret)]
  {
    var j := Connect(tok, adapter);
    es := [Spawn(j)];
    RunStep(w, [], Spawn(j));
    var pcs := [Start, Handshake, WantLock, Locked, Checked(w.rows[tok.id]), Unlocking, Done];
    for k := 0 to 6
      invariant var w' := Run(w, es);
                && w'.rows == w.rows && w'.acc == w.acc && w'.threads == [Thread(j, pcs[k])]
                && w'.locks == (if 3 <= k <= 5 then map[tok.id := 0] else map[])
                && w'.pool == if k < 5 then w.pool else w.pool[tok.id := Session(adapter, tok.secret)]
    {
      RunStep(w, es, Advance(0, true));
      es := es + [Advance(0, true)];
    }
  }

  /** Event k is the second check of a connection with service id's secret in s, and the token
      is admitted: the service is enabled with that secret and so is its owner. */
  ghost predicate AdmittedAt(w: World, es: seq<Event>, k: nat, id: ServiceId, s: Session) {
    && k < |es| && es[k].Advance? && es[k].i < |Run(w, es[..k]).threads|
    && Run(w, es[..k]).threads[es[k].i] == Thread(Connect(Token(id, s.secret), s.adapter), Locked)
    && Admits(Run(w, es[..k]).rows, Run(w, es[..k]).acc, Token(id, s.secret))
  }

  ghost predicate Admitted(w: World, es: seq<Event>, id: ServiceId, s: Session) {
    exists k: nat :: AdmittedAt(w, es, k, id, s)
  }

  lemma AdmittedBefore(w: World, es: seq<Event>, id: ServiceId, s: Session)
    requires es != [] && Admitted(w, es[..|es| - 1], id, s)
    ensures Admitted(w, es, id, s)
  {
    var most := es[..|es| - 1];
    var k: nat :| AdmittedAt(w, most, k, id, s);
    assert most[..k] == es[..k];
    assert AdmittedAt(w, es, k, id, s);
  }

  /** The connection of a thread between its second check and the publication was admitted. */
  ghost predicate PassedCheck(w: World, es: seq<Event>, t: Thread) {
    t.job.Connect? && t.pc.Checked? ==>
      t.job.tok.Token? && Admitted(w, es, t.job.tok.id, Session(t.job.adapter, t.job.tok.secret))
  }

  lemma StepperPassed(w: World, es: seq<Event>, before: World, i: nat, ok: bool)
    requires es != [] && before == Run(w, es[..|es| - 1])
    requires es[|es| - 1] == Advance(i, ok) && i < |before.threads|
    ensures PassedCheck(w, es, Step(before, i, ok).threads[i])
  {
    var t, t' := before.threads[i], Step(before, i, ok).threads[i];
    if t'.job.Connect? && t'.pc.Checked? {
      ReachesChecked(before, i, ok);
      assert AdmittedAt(w, es, |es| - 1, t.job.tok.id, Session(t.job.adapter, t.job.tok.secret));
    }
  }

  lemma ReachesChecked(w: World, i: nat, ok: bool)
    requires i < |w.threads| && w.threads[i].job.Connect? && Step(w, i, ok).threads[i].pc.Checked?
    ensures w.threads[i].pc == Locked && Admits(w.rows, w.acc, w.threads[i].job.tok)
    ensures Step(w, i, ok).threads[i].job == w.threads[i].job
  {
    TokenVerdict(w.rows, w.acc, w.threads[i].job.tok);
  }

  /** A step publishes nothing but the connection of a thread that has passed its check. */
  lemma StepPublishes(w: World, i: nat, ok: bool, id: ServiceId)
    requires i < |w.threads| && id in Step(w, i, ok).pool
    ensures (id in w.pool && Step(w, i, ok).pool[id] == w.pool[id])
            || (var t := w.threads[i];
                && t.job.Connect? && t.pc.Checked?
                && (t.job.tok.Token? ==>
                      t.job.tok.id == id && Step(w, i, ok).pool[id] == Session(t.job.adapter, t.job.tok.secret)))
  {
  }

  lemma PassedBefore(w: World, es: seq<Event>, t: Thread)
    requires es != [] && PassedCheck(w, es[..|es| - 1], t)
    ensures PassedCheck(w, es, t)
  {
    if t.job.Connect? && t.pc.Checked? {
      AdmittedBefore(w, es, t.job.tok.id, Session(t.job.adapter, t.job.tok.secret));
    }
  }

  lemma {:induction false} ThreadsPassed(w: World, es: seq<Event>)
    requires Initial(w)
    ensures forall j :: 0 <= j < |Run(w, es).threads| ==> PassedCheck(w, es, Run(w, es).threads[j])
  {
    if es != [] {
      var before, e := Run(w, es[..|es| - 1]), es[|es| - 1];
      ThreadsPassed(w, es[..|es| - 1]);
      forall j | 0 <= j < |Apply(before, e).threads| ensures PassedCheck(w, es, Apply(before, e).threads[j]) {
        if e.Advance? && e.i == j {
          StepperPassed(w, es, before, j, e.ok);
        } else {
          OtherThreadsStay(before, e, j);
          if j < |before.threads| { PassedBefore(w, es, before.threads[j]); }
        }
      }
    }
  }

  lemma OtherThreadsStay(w: World, e: Event, j: nat)
    requires j < |Apply(w, e).threads| && !(e.Advance? && e.i == j)
    ensures if j < |w.threads| then Apply(w, e).threads[j] == w.threads[j] else Apply(w, e).threads[j].pc == Start
  {
    if e.Advance? && e.i < |w.threads| { StepMovesLock(w, e.i, e.ok); }
  }

  /** In every run: each session in the pool was published for a token that was admitted when it
      was checked for the second time, under the lock, with the owner enabled at that moment. */
  lemma {:induction false} PublishedWasAdmitted(w: World, es: seq<Event>, id: ServiceId)
    requires Initial(w) && id in Run(w, es).pool
    ensures exists k: nat :: AdmittedAt(w, es, k, id, Run(w, es).pool[id])
  {
    var most, e := es[..|es| - 1], es[|es| - 1];
    var before, after := Run(w, most), Run(w, es);
    if id in before.pool && after.pool[id] == before.pool[id] {
      PublishedWasAdmitted(w, most, id);
      AdmittedBefore(w, es, id, after.pool[id]);
    } else {
      StepPublishes(before, e.i, e.ok, id);
      ThreadsPassed(w, most);
      assert PassedCheck(w, most, before.threads[e.i]);
      AdmittedBefore(w, es, id, after.pool[id]);
    }
  }

  // ------------------------------------------------- the handlers as written

  function Rank(pc: Pc): nat {
    match pc
    case Start => 7
    case Handshake => 6
    case WantLock => 5
    case Locked => 4
    case Checked(_) => 3
    case Written => 2
    case Unlocking => 1
    case Done => 0
  }

  /** One thread running with no one else around. */
  function Alone(w: World, ok: bool): World
    requires |w.threads| == 1 && (w.threads[0].pc == WantLock ==> Target(w.threads[0].job) !in w.locks)
    requires Rank(w.threads[0].pc) > 5 ==> w.locks == map[]
    decreases Rank(w.threads[0].pc)
  {
    if w.threads[0].pc == Done then w else Alone(Step(w, 0, ok), ok)
  }

  ghost function World1(rows: map<ServiceId, Service>, pool: map<ServiceId, Session>, acc: Accounts,
                        j: Job, pc: Pc): World {
    World(rows, pool, if Holding(pc) then map[Target(j) := 0] else map[], acc, 0, [Thread(j, pc)])
  }

  lemma AloneEnds(w: World, ok: bool)
    requires |w.threads| == 1
    ensures w.threads[0].pc == Unlocking ==> Alone(w, ok).rows == w.rows && Alone(w, ok).pool == w.pool
  {
  }

  /** What a critical section that fails nowhere, or at its one fallible call, leaves behind. */
  lemma LockedOutcome(rows: map<ServiceId, Service>, pool: map<ServiceId, Session>, acc: Accounts, j: Job, ok: bool)
    requires !j.Connect?
    ensures var id, w := Target(j), Alone(World1(rows, pool, acc, j, Locked), ok);
            if id !in rows || (j.Reset? && !rows[id].passive) || !ok then w.rows == rows && w.pool == pool
            else w.rows == WriteRow(rows, j, rows[id]) && w.pool == if Drops(j) then pool - {id} else pool
  {
    var w0 := World1(rows, pool, acc, j, Locked);
    var w1 := Step(w0, 0, ok);
    assert Alone(w0, ok) == Alone(w1, ok);
    AloneEnds(w1, ok);
    if w1.threads[0].pc.Checked? {
      var w2 := Step(w1, 0, ok);
      assert Alone(w1, ok) == Alone(w2, ok);
      AloneEnds(w2, ok);
      if w2.threads[0].pc.Written? {
        var w3 := Step(w2, 0, ok);
        assert Alone(w2, ok) == Alone(w3, ok);
        AloneEnds(w3, ok);
      }
    }
  }

  /** From any point on, an undisturbed thread comes to its end and gives the lock back. */
  lemma {:induction false} AloneFinishes(w: World, ok: bool)
    requires |w.threads| == 1 && (w.threads[0].pc == WantLock ==> Target(w.threads[0].job) !in w.locks)
    requires Rank(w.threads[0].pc) > 5 ==> w.locks == map[]
    requires w.threads[0].pc == Done ==> Target(w.threads[0].job) !in w.locks
    ensures var w' := Alone(w, ok);
            && |w'.threads| == 1 && w'.threads[0] == Thread(w.threads[0].job, Done)
            && Target(w.threads[0].job) !in w'.locks
    decreases Rank(w.threads[0].pc)
  {
    if w.threads[0].pc != Done {
      StepAlone(w, ok);
      AloneFinishes(Step(w, 0, ok), ok);
    }
  }

  /** One step nearer to the end, with no lock but its own ever held. */
  lemma StepAlone(w: World, ok: bool)
    requires |w.threads| == 1 && (w.threads[0].pc == WantLock ==> Target(w.threads[0].job) !in w.locks)
    requires w.threads[0].pc != Done && (Rank(w.threads[0].pc) > 5 ==> w.locks == map[])
    ensures var w', t := Step(w, 0, ok), Step(w, 0, ok).threads[0];
            && |w'.threads| == 1 && t.job == w.threads[0].job && Rank(t.pc) < Rank(w.threads[0].pc)
            && (t.pc == WantLock || Rank(t.pc) > 5 ==> w'.locks == map[])
            && (t.pc == Done ==> Target(t.job) !in w'.locks)
  {
  }

  /** What a connection shares with the other handlers. */
  datatype Shared = Shared(rows: map<ServiceId, Service>, pool: map<ServiceId, Session>, acc: Accounts)

  ghost predicate SoundState(s: Shared) { forall id :: id in s.pool ==> Authentic(s.rows, s.pool, id) }

  class Gateway {
    var rows: map<ServiceId, Service>
    var pool: map<ServiceId, Session>
    var acc: Accounts

    constructor (rows: map<ServiceId, Service>, acc: Accounts)
      ensures this.rows == rows && this.pool == map[] && this.acc == acc
    {
      this.rows, this.pool, this.acc := rows, map[], acc;
    }

    /** No session outlives its credential. */
    ghost predicate Sound()
      reads this
    {
      forall id :: id in pool ==> Authentic(rows, pool, id)
    }

    /** The handshake takes place outside the lock: meanwhile is what the others have made of
        the shared state by the time the lock is taken. The connection is published exactly if
        the token was valid before the handshake and still is after it. */
    method HandlePassiveWebSocket(tok: Token, adapter: int, shaken: bool, meanwhile: Shared, connected: bool)
      returns (attached: bool)
      modifies this
      ensures if !old(Admits(rows, acc, tok))
              then !attached && rows == old(rows) && pool == old(pool) && acc == old(acc)
              else
                && attached == (shaken && connected && Admits(meanwhile.rows, meanwhile.acc, tok))
                && rows == meanwhile.rows && acc == meanwhile.acc
                && pool == if attached then meanwhile.pool[tok.id := Session(adapter, tok.secret)] else meanwhile.pool
      ensures old(Sound()) && SoundState(meanwhile) ==> Sound()
    {
      TokenVerdict(rows, acc, tok);
      var first := ValidatePassiveToken(rows, acc, tok);
      if !first.Valid? { return false; }
      rows, pool, acc := meanwhile.rows, meanwhile.pool, meanwhile.acc;
      if !shaken { return false; }
      attached := AttachLocked(tok, adapter, connected);
    }

    /** The section under the service lock: check again, then publish. */
    method AttachLocked(tok: Token, adapter: int, ok: bool) returns (attached: bool)
      requires tok.Token?
      modifies this`pool
      ensures attached == (ok && Admits(rows, acc, tok))
      ensures pool == if attached then old(pool)[tok.id := Session(adapter, tok.secret)] else old(pool)
      ensures pool == Alone(World1(rows, old(pool), acc, Connect(tok, adapter), Locked), ok).pool
      ensures old(Sound()) ==> Sound()
    {
      var j := Connect(tok, adapter);
      TokenVerdict(rows, acc, tok);
      var current := ValidatePassiveToken(rows, acc, tok);
      ghost var w1 := Step(World1(rows, pool, acc, j, Locked), 0, ok);
      ghost var w2 := Step(w1, 0, ok);
      assert Alone(World1(rows, pool, acc, j, Locked), ok) == Alone(w1, ok);
      AloneEnds(w1, ok);
      AloneEnds(w2, ok);
      if !current.Valid? { return false; }
      if !current.service.passive || !current.service.enabled || !ok { return false; }
      pool := pool[tok.id := Session(adapter, tok.secret)];
      assert Alone(w1, ok) == Alone(w2, ok);
      return true;
    }

    method ResetPassiveToken(id: ServiceId, newSecret: string, ok: bool) returns (done: bool)
      modifies this`rows, this`pool
      ensures done == (id in old(rows) && old(rows)[id].passive && ok)
      ensures done ==> rows == old(rows)[id := old(rows)[id].(secret := newSecret)] && pool == old(pool) - {id}
      ensures !done ==> rows == old(rows) && pool == old(pool)
      ensures var w := Alone(World1(old(rows), old(pool), acc, Reset(id, newSecret), Locked), ok);
              rows == w.rows && pool == w.pool
      ensures old(Sound()) ==> Sound()
    {
      LockedOutcome(rows, pool, acc, Reset(id, newSecret), ok);
      if id !in rows { return false; }
      if !rows[id].passive { return false; }
      if !ok { return false; }
      rows := rows[id := rows[id].(secret := newSecret)];
      pool := pool - {id};
      return true;
    }

    /** Update with a status: save the whole row, then stop the session of a disabled service. */
    method UpdateStatus(id: ServiceId, status: Option<bool>, ok: bool) returns (done: bool)
      modifies this`rows, this`pool
      ensures done == (id in old(rows) && ok)
      ensures rows == if done && status.Some? then old(rows)[id := old(rows)[id].(enabled := status.value)]
                      else old(rows)
      ensures pool == if done && status == Some(false) then old(pool) - {id} else old(pool)
      ensures var w := Alone(World1(old(rows), old(pool), acc, SetStatus(id, status), Locked), ok);
              rows == w.rows && pool == w.pool
      ensures old(Sound()) ==> Sound()
    {
      LockedOutcome(rows, pool, acc, SetStatus(id, status), ok);
      if id !in rows { return false; }
      var svc := rows[id];
      if status.Some? { svc := svc.(enabled := status.value); }
      if !ok { return false; }
      rows := rows[id := svc];
      if status.Some? && !status.value { pool := pool - {id}; }
      return true;
    }

    method DeleteService(id: ServiceId, ok: bool) returns (done: bool)
      modifies this`rows, this`pool
      ensures done == (id in old(rows) && ok)
      ensures rows == if done then old(rows) - {id} else old(rows)
      ensures pool == if done then old(pool) - {id} else old(pool)
      ensures var w := Alone(World1(old(rows), old(pool), acc, Delete(id), Locked), ok);
              rows == w.rows && pool == w.pool
      ensures old(Sound()) ==> Sound()
    {
      LockedOutcome(rows, pool, acc, Delete(id), ok);
      if id !in rows { return false; }
      if !ok { return false; }
      rows := rows - {id};
      pool := pool - {id};
      return true;
    }
  }
}
