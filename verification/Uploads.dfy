/**
 Deleting uploads: rows of several users may share one stored blob, and whoever deletes the
 last row deletes the blob. Each database or storage call is one step; calls may fail.
 */
module Uploads {
  import opened Sets

  datatype Image = Image(owner: int, key: string)

  datatype Pc =
    | Next                          // about to take the next id
    | Found(id: int, key: string)   // row read and owner checked
    | Gone(key: string)             // row deleted, references not yet counted
    | Unused(key: string)           // counted zero references

  /** A single deletion is a batch of one. ownerCheck 0 is the admin path. */
  datatype Deleter = Deleter(todo: seq<int>, ownerCheck: int, pc: Pc, deleted: nat, failed: nat)

  datatype World = World(rows: map<int, Image>, blobs: set<string>, threads: seq<Deleter>)

  predicate Mine(rows: map<int, Image>, id: int, ownerCheck: int) {
    id in rows && (ownerCheck > 0 ==> rows[id].owner == ownerCheck)
  }

  /** CountByKey is zero. */
  predicate NoRows(rows: map<int, Image>, key: string) { forall id :: id in rows ==> rows[id].key != key }

  /** One step of thread i; ok says whether the call it makes succeeds. */
  function Step(w: World, i: nat, ok: bool): World
    requires i < |w.threads|
  {
    var t := w.threads[i];
    match t.pc
    case Next =>
      if t.todo == [] then w
      else
        var id, rest := t.todo[0], t.(todo := t.todo[1..]);
        if id <= 0 || !ok || !Mine(w.rows, id, t.ownerCheck)
        then w.(threads := w.threads[i := rest.(failed := t.failed + 1)])
        else w.(threads := w.threads[i := rest.(pc := Found(id, w.rows[id].key))])
    case Found(id, key) =>
      if ok
      then w.(rows := w.rows - {id}, threads := w.threads[i := t.(pc := Gone(key), deleted := t.deleted + 1)])
      else w.(threads := w.threads[i := t.(pc := Next, failed := t.failed + 1)])
    case Gone(key) =>
      w.(threads := w.threads[i := t.(pc := if ok && NoRows(w.rows, key) then Unused(key) else Next)])
    case Unused(key) =>
      w.(blobs := if ok then w.blobs - {key} else w.blobs, threads := w.threads[i := t.(pc := Next)])
  }

  datatype Event = Arrive(ids: seq<int>, ownerCheck: int) | Proceed(i: nat, ok: bool)

  function Apply(w: World, e: Event): World {
    match e
    case Arrive(ids, owner) => w.(threads := w.threads + [Deleter(ids, owner, Next, 0, 0)])
    case Proceed(i, ok) => if i < |w.threads| then Step(w, i, ok) else w
  }

  function Run(w: World, es: seq<Event>): World {
    if es == [] then w else Apply(Run(w, es[..|es| - 1]), es[|es| - 1])
  }

  // --------------------------------------------------------------- safety

  /** No live row has lost its blob. */
  predicate Backed(w: World) { forall id :: id in w.rows ==> w.rows[id].key in w.blobs }

  predicate Truthful(w: World, t: Deleter) {
    && (t.pc.Found? && t.pc.id in w.rows ==> w.rows[t.pc.id].key == t.pc.key)
    && (t.pc.Unused? ==> NoRows(w.rows, t.pc.key))
  }

  predicate Inv(w: World) { forall i :: 0 <= i < |w.threads| ==> Truthful(w, w.threads[i]) }

  lemma ApplyKeepsInv(w: World, e: Event)
    requires Inv(w)
    ensures Inv(Apply(w, e))
    ensures Backed(w) ==> Backed(Apply(w, e))
  {
  }

  /** In every interleaving of single and batch deletions, whatever fails on the way, a blob
      that a live row refers to is still there. */
  lemma {:induction false} LiveRowsKeepTheirBlobs(w: World, es: seq<Event>)
    requires Inv(w)
    ensures Inv(Run(w, es))
    ensures (forall id :: id in w.rows ==> w.rows[id].key in w.blobs) ==>
              Backed(w) && forall id :: id in Run(w, es).rows ==> Run(w, es).rows[id].key in Run(w, es).blobs
  {
    if es != [] {
      LiveRowsKeepTheirBlobs(w, es[..|es| - 1]);
      ApplyKeepsInv(Run(w, es[..|es| - 1]), es[|es| - 1]);
    }
  }

  // --------------------------------------------------------------- completeness

  predicate Holding(t: Deleter, key: string) { (t.pc.Gone? || t.pc.Unused?) && t.pc.key == key }

  /** A blob without rows is about to be looked at by someone. */
  ghost predicate Attended(w: World, key: string) {
    key in w.blobs && NoRows(w.rows, key) ==> exists i :: 0 <= i < |w.threads| && Holding(w.threads[i], key)
  }

  ghost predicate NothingForgotten(w: World) { forall key :: key in w.blobs ==> Attended(w, key) }

  predicate Succeeds(e: Event) { e.Proceed? ==> e.ok }

  lemma ApplyForgetsNothing(w: World, e: Event, key: string)
    requires Inv(w) && Succeeds(e) && key in Apply(w, e).blobs
    requires Attended(w, key)
    ensures Attended(Apply(w, e), key)
  {
    var w' := Apply(w, e);
    if NoRows(w'.rows, key) {
      if NoRows(w.rows, key) {
        var i :| 0 <= i < |w.threads| && Holding(w.threads[i], key);
        assert Holding(w'.threads[i], key);
      } else {
        assert e.Proceed? && w.threads[e.i].pc.Found?;
        assert Truthful(w, w.threads[e.i]);
        var id :| id in w.rows && w.rows[id].key == key;
        assert id !in w'.rows;
        assert Holding(w'.threads[e.i], key);
      }
    }
  }

  lemma {:induction false} RunForgetsNothing(w: World, es: seq<Event>)
    requires Inv(w) && NothingForgotten(w)
    requires forall e :: e in es ==> Succeeds(e)
    ensures NothingForgotten(Run(w, es))
  {
    if es != [] {
      var before := Run(w, es[..|es| - 1]);
      RunForgetsNothing(w, es[..|es| - 1]);
      LiveRowsKeepTheirBlobs(w, es[..|es| - 1]);
      forall key | key in Run(w, es).blobs ensures Attended(Run(w, es), key) {
        ApplyForgetsNothing(before, es[|es| - 1], key);
      }
    }
  }

  predicate Finished(t: Deleter) { t.todo == [] && t.pc == Next }

  /** Once every deleter is through and no call failed, each blob has a row: of a blob whose
      rows are all deleted nothing is left, however the deletions overlapped. */
  lemma NoOrphans(w: World, es: seq<Event>, key: string)
    requires Inv(w) && NothingForgotten(w)
    requires forall e :: e in es ==> Succeeds(e)
    requires forall i :: 0 <= i < |Run(w, es).threads| ==> Finished(Run(w, es).threads[i])
    requires NoRows(Run(w, es).rows, key)
    ensures key !in Run(w, es).blobs
  {
    RunForgetsNothing(w, es);
    var end := Run(w, es);
    assert key in end.blobs ==> Attended(end, key);
  }

  // ---------------------------------------------------------------- accounting

  function Progress(t: Deleter): int { t.deleted + t.failed + |t.todo| + if t.pc.Found? then 1 else 0 }

  /** deleted + failed is the number of ids of the request, once it has finished. */
  lemma {:induction false} EveryIdIsCounted(w: World, es: seq<Event>, k: nat, i: nat)
    requires k <= |es| && i < |Run(w, es[..k]).threads|
    ensures i < |Run(w, es).threads|
    ensures Progress(Run(w, es).threads[i]) == Progress(Run(w, es[..k]).threads[i])
    decreases |es|
  {
    if k == |es| {
      assert es[..k] == es;
    } else {
      var most := es[..|es| - 1];
      assert most[..k] == es[..k];
      EveryIdIsCounted(w, most, k, i);
      ProgressStays(Run(w, most), es[|es| - 1], i);
    }
  }

  lemma ProgressStays(w: World, e: Event, i: nat)
    requires i < |w.threads|
    ensures i < |Apply(w, e).threads| && Progress(Apply(w, e).threads[i]) == Progress(w.threads[i])
  {
  }

  // ----------------------------------------------------------------- whose rows go

  /** No request may delete the row: each that names it comes from another owner. */
  predicate Protects(ids: seq<int>, ownerCheck: int, id: int, owner: int) {
    id in ids ==> ownerCheck > 0 && ownerCheck != owner
  }

  predicate Harmless(t: Deleter, id: int, owner: int) {
    Protects(t.todo, t.ownerCheck, id, owner) && (t.pc.Found? ==> t.pc.id != id)
  }

  /** Nobody deletes another owner's row: in every interleaving, a row stays as long as neither
      its owner nor an administrator asks for it to go. */
  lemma {:induction false} OthersRowsStay(w: World, es: seq<Event>, id: int)
    requires id in w.rows
    requires forall i :: 0 <= i < |w.threads| ==> Harmless(w.threads[i], id, w.rows[id].owner)
    requires forall e :: e in es && e.Arrive? ==> Protects(e.ids, e.ownerCheck, id, w.rows[id].owner)
    ensures var w' := Run(w, es);
            && id in w'.rows && w'.rows[id] == w.rows[id]
            && forall i :: 0 <= i < |w'.threads| ==> Harmless(w'.threads[i], id, w.rows[id].owner)
  {
    if es != [] {
      var most, e := es[..|es| - 1], es[|es| - 1];
      assert e in es && forall x :: x in most ==> x in es;
      OthersRowsStay(w, most, id);
      ApplyKeepsRow(Run(w, most), e, id);
    }
  }

  lemma ApplyKeepsRow(w: World, e: Event, id: int)
    requires id in w.rows
    requires forall i :: 0 <= i < |w.threads| ==> Harmless(w.threads[i], id, w.rows[id].owner)
    requires e.Arrive? ==> Protects(e.ids, e.ownerCheck, id, w.rows[id].owner)
    ensures var w' := Apply(w, e);
            && id in w'.rows && w'.rows[id] == w.rows[id]
            && forall i :: 0 <= i < |w'.threads| ==> Harmless(w'.threads[i], id, w.rows[id].owner)
  {
  }

  /** A deleter takes up the row it looks at exactly if it is there and its own, or it is an
      administrator's. */
  lemma TakenUpIff(w: World, i: nat)
    requires i < |w.threads| && w.threads[i].pc == Next && w.threads[i].todo != []
    ensures var t, id := w.threads[i], w.threads[i].todo[0];
            Step(w, i, true).threads[i].pc
            == if id > 0 && id in w.rows && (t.ownerCheck <= 0 || w.rows[id].owner == t.ownerCheck)
               then Found(id, w.rows[id].key) else Next
  {
  }

  /** A call that fails changes neither rows nor blobs; the id counts as failed if its row was
      not deleted yet, and the deleter goes on to the next one. */
  lemma FailedCall(w: World, i: nat)
    requires i < |w.threads| && (w.threads[i].pc == Next ==> w.threads[i].todo != [])
    ensures var t, w' := w.threads[i], Step(w, i, false);
            && w'.rows == w.rows && w'.blobs == w.blobs
            && w'.threads[i] == t.(pc := Next,
                                   todo := if t.pc == Next then t.todo[1..] else t.todo,
                                   failed := if t.pc == Next || t.pc.Found? then t.failed + 1 else t.failed)
  {
  }

  // ------------------------------------------------------------ the request itself

  /** The rows a request may delete: ids that exist and pass the owner check. */
  function Deletable(rows: map<int, Image>, ids: seq<int>, ownerCheck: int): set<int> {
    set id | id in ids && id > 0 && Mine(rows, id, ownerCheck)
  }

  /** The keys whose last row is among those. */
  function Released(rows: map<int, Image>, ids: set<int>): set<string> {
    set id | id in rows.Keys && id in ids && NoRows(rows - ids, rows[id].key) :: rows[id].key
  }

  function Referring(rows: map<int, Image>, among: set<int>, key: string): set<int> {
    set id | id in among && id in rows && rows[id].key == key
  }

  lemma NoneReferring(rows: map<int, Image>, key: string)
    ensures |Referring(rows, rows.Keys, key)| == 0 <==> NoRows(rows, key)
  {
    SomeMember(Referring(rows, rows.Keys, key));
    assert forall id :: id in rows && rows[id].key == key ==> id in Referring(rows, rows.Keys, key);
  }

  class Uploads {
    var rows: map<int, Image>
    var blobs: set<string>

    constructor ()
      ensures rows == map[] && blobs == {}
    {
      rows, blobs := map[], {};
    }

    /** CountByKey. */
    method CountByKey(key: string) returns (n: nat)
      ensures n == |Referring(rows, rows.Keys, key)|
      ensures n == 0 <==> NoRows(rows, key)
    {
      var rest := rows.Keys;
      ghost var done: set<int> := {};
      n := 0;
      while rest != {}
        invariant done !! rest && done + rest == rows.Keys
        invariant n == |Referring(rows, done, key)|
        decreases |rest|
      {
        SomeMember(rest);
        var id :| id in rest;
        assert Referring(rows, done + {id}, key)
            == if rows[id].key == key then Referring(rows, done, key) + {id} else Referring(rows, done, key);
        rest, done := rest - {id}, done + {id};
        if rows[id].key == key { n := n + 1; }
      }
      assert done == rows.Keys;
      NoneReferring(rows, key);
    }

    /** deleteUploadRow; a missing row and another user's row look the same. */
    method DeleteUploadRow(id: int, ownerCheck: int) returns (ok: bool)
      modifies this
      ensures ok <==> id in old(rows) && (ownerCheck <= 0 || old(rows)[id].owner == ownerCheck)
      ensures rows == if ok then old(rows) - {id} else old(rows)
      ensures blobs == if ok then old(blobs) - Released(old(rows), {id}) else old(blobs)
    {
      if id !in rows { return false; }
      var img := rows[id];
      if ownerCheck > 0 && img.owner != ownerCheck { return false; }
      rows := rows - {id};
      var n := CountByKey(img.key);
      assert Released(old(rows), {id}) == if n == 0 then {img.key} else {};
      if n == 0 { blobs := blobs - {img.key}; }
      return true;
    }

    /** batchDelete: deletes each deletable row once (a repeated id counts as failed the
        second time) and exactly the blobs that lose their last row. */
    method BatchDelete(ids: seq<int>, ownerCheck: int) returns (deleted: nat, failed: nat)
      modifies this
      ensures forall id :: id in rows <==>
                && id in old(rows)
                && !(id in ids && id > 0 && (ownerCheck <= 0 || old(rows)[id].owner == ownerCheck))
      ensures var gone := Deletable(old(rows), ids, ownerCheck);
              && deleted == |gone| && failed == |ids| - |gone|
              && rows == old(rows) - gone
              && blobs == old(blobs) - Released(old(rows), gone)
    {
      deleted, failed := 0, 0;
      ghost var rows0, blobs0 := rows, blobs;
      for i := 0 to |ids|
        invariant var gone := Deletable(rows0, ids[..i], ownerCheck);
                  && deleted == |gone| && deleted + failed == i
                  && rows == rows0 - gone
                  && blobs == blobs0 - Released(rows0, gone)
      {
        ghost var gone := Deletable(rows0, ids[..i], ownerCheck);
        ghost var gone' := Deletable(rows0, ids[..i + 1], ownerCheck);
        assert ids[..i + 1] == ids[..i] + [ids[i]];
        ghost var taken := ids[i] > 0 && Mine(rows, ids[i], ownerCheck);
        assert gone' == if taken then gone + {ids[i]} else gone;
        if ids[i] <= 0 {
          failed := failed + 1;
        } else {
          if taken { ReleasedInTwoSteps(rows0, gone, {ids[i]}); }
          var ok := DeleteUploadRow(ids[i], ownerCheck);
          if ok { deleted := deleted + 1; } else { failed := failed + 1; }
        }
      }
      assert ids[..|ids|] == ids;
    }
  }

  /** Deleting in two steps releases what deleting at once does. */
  lemma ReleasedInTwoSteps(rows: map<int, Image>, first: set<int>, second: set<int>)
    requires first !! second && first + second <= rows.Keys
    ensures (rows - first) - second == rows - (first + second)
    ensures Released(rows, first + second) == Released(rows, first) + Released(rows - first, second)
  {
    assert (rows - first) - second == rows - (first + second);
    var left := rows - first;
    forall key | key in Released(rows, first + second)
      ensures key in Released(rows, first) + Released(left, second)
    {
      var x :| && x in rows && x in first + second
               && NoRows(rows - (first + second), rows[x].key) && key == rows[x].key;
      if y :| y in second && rows[y].key == key {
        assert NoRows(left - second, left[y].key);
      } else {
        assert NoRows(left, key) by {
          forall y | y in left ensures left[y].key != key {
            if y !in second { assert y in rows - (first + second); }
          }
        }
      }
    }
  }

  // ------------------------------------------------------ the request in the machine

  function Rank(t: Deleter): nat {
    4 * |t.todo| + match t.pc case Next => 0 case Found(_, _) => 3 case Gone(_) => 2 case Unused(_) => 1
  }

  /** One deleter running with no one else about, every call succeeding. */
  function Alone(w: World): World
    requires |w.threads| == 1
    decreases Rank(w.threads[0])
  {
    if Finished(w.threads[0]) then w else Alone(Step(w, 0, true))
  }

  function One(rows: map<int, Image>, blobs: set<string>, todo: seq<int>, ownerCheck: int, pc: Pc, d: nat, f: nat)
    : World
  {
    World(rows, blobs, [Deleter(todo, ownerCheck, pc, d, f)])
  }

  /** The first id of a request, from the look at its row to the decision on its blob. */
  lemma FirstId(rows: map<int, Image>, blobs: set<string>, todo: seq<int>, ownerCheck: int, d: nat, f: nat)
    requires todo != []
    ensures var id, rest := todo[0], todo[1..];
            Alone(One(rows, blobs, todo, ownerCheck, Next, d, f))
            == if id > 0 && Mine(rows, id, ownerCheck)
               then Alone(One(rows - {id}, blobs - Released(rows, {id}), rest, ownerCheck, Next, d + 1, f))
               else Alone(One(rows, blobs, rest, ownerCheck, Next, d, f + 1))
  {
    var id, rest := todo[0], todo[1..];
    var w0 := One(rows, blobs, todo, ownerCheck, Next, d, f);
    var w1 := Step(w0, 0, true);
    assert Alone(w0) == Alone(w1);
    if id > 0 && Mine(rows, id, ownerCheck) {
      var key, left := rows[id].key, rows - {id};
      assert w1 == One(rows, blobs, rest, ownerCheck, Found(id, key), d, f);
      var w2 := Step(w1, 0, true);
      assert w2 == One(left, blobs, rest, ownerCheck, Gone(key), d + 1, f);
      var w3 := Step(w2, 0, true);
      assert Alone(w1) == Alone(w2) && Alone(w2) == Alone(w3);
      assert Released(rows, {id}) == if NoRows(left, key) then {key} else {};
      if NoRows(left, key) {
        var w4 := Step(w3, 0, true);
        assert Alone(w3) == Alone(w4);
        assert w4 == One(left, blobs - {key}, rest, ownerCheck, Next, d + 1, f);
      } else {
        assert w3 == One(left, blobs, rest, ownerCheck, Next, d + 1, f);
        assert blobs - {} == blobs;
      }
    } else {
      assert w1 == One(rows, blobs, rest, ownerCheck, Next, d, f + 1);
    }
  }

  lemma DeletableFirst(rows: map<int, Image>, todo: seq<int>, ownerCheck: int)
    requires todo != []
    ensures var id, rest := todo[0], todo[1..];
            if id > 0 && Mine(rows, id, ownerCheck)
            then
              var after := Deletable(rows - {id}, rest, ownerCheck);
              id !in after && after <= rows.Keys && Deletable(rows, todo, ownerCheck) == {id} + after
            else Deletable(rows, todo, ownerCheck) == Deletable(rows, rest, ownerCheck)
  {
    assert todo == [todo[0]] + todo[1..];
  }

  /** The request as written is one of the interleavings: a deleter that nobody disturbs and
      whose calls succeed ends with the rows, blobs and counters of BatchDelete. */
  lemma {:induction false} AloneIsBatchDelete(rows: map<int, Image>, blobs: set<string>, todo: seq<int>,
                                              ownerCheck: int, d: nat, f: nat)
    ensures |Deletable(rows, todo, ownerCheck)| <= |todo|
    ensures Alone(One(rows, blobs, todo, ownerCheck, Next, d, f))
         == Batched(rows, blobs, Deletable(rows, todo, ownerCheck), |todo|, ownerCheck, d, f)
    decreases |todo|
  {
    if todo == [] {
      NothingBatched(rows, blobs, Deletable(rows, todo, ownerCheck), ownerCheck, d, f);
    } else {
      var id, rest := todo[0], todo[1..];
      FirstId(rows, blobs, todo, ownerCheck, d, f);
      DeletableFirst(rows, todo, ownerCheck);
      if id > 0 && Mine(rows, id, ownerCheck) {
        var after := Deletable(rows - {id}, rest, ownerCheck);
        AloneIsBatchDelete(rows - {id}, blobs - Released(rows, {id}), rest, ownerCheck, d + 1, f);
        OneMoreBatched(rows, blobs, id, after, |rest|, ownerCheck, d, f);
      } else {
        AloneIsBatchDelete(rows, blobs, rest, ownerCheck, d, f + 1);
      }
    }
  }

  /** What BatchDelete leaves when it has deleted these rows for a request of n ids. */
  function Batched(rows: map<int, Image>, blobs: set<string>, gone: set<int>, n: nat, ownerCheck: int, d: nat, f: nat)
    : World
    requires |gone| <= n
  {
    One(rows - gone, blobs - Released(rows, gone), [], ownerCheck, Next, d + |gone|, f + n - |gone|)
  }

  lemma NothingBatched(rows: map<int, Image>, blobs: set<string>, gone: set<int>, ownerCheck: int, d: nat, f: nat)
    requires gone == {}
    ensures Batched(rows, blobs, gone, 0, ownerCheck, d, f) == One(rows, blobs, [], ownerCheck, Next, d, f)
  {
    assert rows - gone == rows && blobs - Released(rows, gone) == blobs;
  }

  lemma OneMoreBatched(rows: map<int, Image>, blobs: set<string>, id: int, after: set<int>, n: nat, ownerCheck: int,
                       d: nat, f: nat)
    requires id in rows && id !in after && after <= rows.Keys && |after| <= n
    ensures |{id} + after| == 1 + |after|
    ensures Batched(rows - {id}, blobs - Released(rows, {id}), after, n, ownerCheck, d + 1, f)
         == Batched(rows, blobs, {id} + after, n + 1, ownerCheck, d, f)
  {
    ReleasedInTwoSteps(rows, {id}, after);
    assert blobs - Released(rows, {id} + after) == (blobs - Released(rows, {id})) - Released(rows - {id}, after);
  }

  lemma RunStep(w: World, es: seq<Event>, e: Event)
    ensures Run(w, es + [e]) == Apply(Run(w, es), e)
  {
  }

  lemma StepAlone(w: World)
    requires |w.threads| == 1 && !Finished(w.threads[0])
    ensures var w' := Step(w, 0, true);
            |w'.threads| == 1 && Rank(w'.threads[0]) < Rank(w.threads[0]) && Alone(w) == Alone(w')
  {
  }

  /** And such a deleter is a run. */
  lemma AloneIsARun(w: World) returns (es: seq<Event>)
    requires |w.threads| == 1
    ensures Run(w, es) == Alone(w) && forall e :: e in es ==> Succeeds(e)
  {
    es := [];
    var now := w;
    while !Finished(now.threads[0])
      invariant now == Run(w, es) && |now.threads| == 1 && Alone(now) == Alone(w)
      invariant forall e :: e in es ==> Succeeds(e)
      decreases Rank(now.threads[0])
    {
      var e, next := Proceed(0, true), Step(now, 0, true);
      StepAlone(now);
      RunStep(w, es, e);
      assert Run(w, es + [e]) == next;
      es, now := es + [e], next;
    }
  }
}
