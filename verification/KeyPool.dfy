/**
 A pool of credentials: the rows of one service (or one marketplace item), keyed by their
 position, which the unique index keeps distinct. Services and items use the same code twice.
 */
module KeyPool {
  import opened Text
  import opened Sets

  const MAX_KEYS := 100
  const MAX_KEY_BYTES := 8192

  datatype KeyRow = KeyRow(value: string, enabled: bool, reason: string)

  type Pool = map<int, KeyRow>

  datatype Cleaned = Clean(values: seq<string>) | KeyTooLong

  /** CleanKeyValues, oldest value first. */
  function CleanKeyValues(values: seq<string>): Cleaned {
    if values == [] then Clean([])
    else
      var before := CleanKeyValues(values[..|values| - 1]);
      var v := Trim(values[|values| - 1]);
      if before.KeyTooLong? then KeyTooLong
      else if v == "" || v in before.values then before
      else if Bytes(v) > MAX_KEY_BYTES then KeyTooLong
      else Clean(before.values + [v])
  }

  predicate Distinct(vs: seq<string>) { forall i, j :: 0 <= i < j < |vs| ==> vs[i] != vs[j] }

  /** The cleaned list holds exactly the trimmed non-blank inputs, each once; cleaning is
      refused exactly when one of them is too long, and a second cleaning changes nothing. */
  lemma {:induction false} CleanedValues(values: seq<string>)
    ensures CleanKeyValues(values).KeyTooLong? <==> exists v :: v in values && Bytes(Trim(v)) > MAX_KEY_BYTES
    ensures CleanKeyValues(values).Clean? ==>
              var vs := CleanKeyValues(values).values;
              && Distinct(vs)
              && (forall v :: v in vs ==> v != "" && Trim(v) == v && Bytes(v) <= MAX_KEY_BYTES)
              && (forall v :: v in vs <==> v != "" && exists u :: u in values && v == Trim(u))
  {
    if values != [] {
      var before, last := values[..|values| - 1], values[|values| - 1];
      CleanedValues(before);
      TrimYieldsTrimmed(last);
      TrimYieldsTrimmed(Trim(last));
      assert values == before + [last];
      assert last in values;
    }
  }

  lemma {:induction false} CleaningIsStable(vs: seq<string>)
    requires Distinct(vs) && forall v :: v in vs ==> v != "" && Trim(v) == v && Bytes(v) <= MAX_KEY_BYTES
    ensures CleanKeyValues(vs) == Clean(vs)
  {
    if vs != [] {
      var before := vs[..|vs| - 1];
      assert vs == before + [vs[|vs| - 1]];
      assert forall v :: v in before ==> v in vs;
      CleaningIsStable(before);
    }
  }

  // ------------------------------------------------------------------- append

  predicate HasValue(p: Pool, v: string) { exists k :: k in p && p[k].value == v }

  /** The values not yet in the pool. */
  function Missing(p: Pool, vs: seq<string>): (r: seq<string>)
    ensures forall v :: v in r <==> v in vs && !HasValue(p, v)
    ensures |r| <= |vs|
  {
    if vs == [] then []
    else
      var r, last := Missing(p, vs[..|vs| - 1]), vs[|vs| - 1];
      assert vs == vs[..|vs| - 1] + [last];
      if HasValue(p, last) then r else r + [last]
  }

  /** New enabled rows at positions next, next + 1, ... */
  function RowsFrom(next: int, vs: seq<string>): Pool {
    map k | k in Span(next, |vs|) :: KeyRow(vs[k - next], true, "")
  }

  datatype Outcome = Done(pool: Pool, added: nat) | BadValue | TooMany | PositionTaken | EmptyList

  /** Positions go on from the number of rows, not from the highest position. */
  function Insert(p: Pool, rows: seq<string>): Outcome {
    if rows == [] then Done(p, 0)
    else if |p| + |rows| > MAX_KEYS then TooMany
    else
      var added := RowsFrom(|p| + 1, rows);
      if p.Keys !! added.Keys then Done(p + added, |rows|) else PositionTaken   // the unique index
  }

  function AppendKeys(p: Pool, values: seq<string>): Outcome {
    match CleanKeyValues(values)
    case KeyTooLong => BadValue
    case Clean(vs) => Insert(p, Missing(p, vs))
  }

  /** ReplaceKeys. */
  function ReplaceKeys(values: seq<string>): Outcome {
    match CleanKeyValues(values)
    case KeyTooLong => BadValue
    case Clean(vs) => if 0 < |vs| <= MAX_KEYS then Done(RowsFrom(1, vs), |vs|) else EmptyList
  }

  /** What every reachable pool satisfies. */
  ghost predicate PoolOk(p: Pool) {
    && |p| <= MAX_KEYS
    && (forall k :: k in p ==> k >= 1 && !Blank(p[k].value))
    && ValuesDiffer(p)
  }

  predicate Blank(v: string) { Trim(v) == "" }

  ghost predicate ValuesDiffer(p: Pool) {
    forall j, k :: j in p && k in p && j != k ==> p[j].value != p[k].value
  }

  lemma {:induction false} MissingDistinct(p: Pool, vs: seq<string>)
    requires Distinct(vs)
    ensures Distinct(Missing(p, vs))
  {
    if vs != [] {
      var before := vs[..|vs| - 1];
      MissingDistinct(p, before);
      assert vs[|vs| - 1] !in before;
    }
  }

  lemma {:induction false} RowCount(next: int, vs: seq<string>)
    ensures |RowsFrom(next, vs)| == |vs|
  {
    if vs != [] {
      var most := vs[..|vs| - 1];
      RowCount(next, most);
      assert RowsFrom(next, vs) == RowsFrom(next, most)[next + |most| := KeyRow(vs[|most|], true, "")];
    } else {
      assert RowsFrom(next, vs) == map[];
    }
  }

  lemma {:induction false} UnionCount(p: Pool, q: Pool)
    requires p.Keys !! q.Keys
    ensures |p + q| == |p| + |q|
  {
  }

  lemma RowsFromOk(next: int, vs: seq<string>)
    requires next >= 1 && Distinct(vs) && |vs| <= MAX_KEYS && forall v :: v in vs ==> !Blank(v)
    ensures PoolOk(RowsFrom(next, vs))
  {
    RowCount(next, vs);
  }

  lemma JoinedPoolOk(p: Pool, q: Pool)
    requires PoolOk(p) && PoolOk(q) && |p + q| <= MAX_KEYS
    requires forall j, k :: j in p && k in q ==> p[j].value != q[k].value
    ensures PoolOk(p + q)
  {
  }

  lemma AppendedCount(p: Pool, rows: seq<string>)
    requires p.Keys !! RowsFrom(|p| + 1, rows).Keys
    ensures |p + RowsFrom(|p| + 1, rows)| == |p| + |rows|
  {
    RowCount(|p| + 1, rows);
    UnionCount(p, RowsFrom(|p| + 1, rows));
  }

  lemma NewValuesDiffer(p: Pool, next: int, rows: seq<string>)
    requires forall v :: v in rows ==> !HasValue(p, v)
    ensures var added := RowsFrom(next, rows);
            forall j, k :: j in p && k in added ==> p[j].value != added[k].value
  {
    var added := RowsFrom(next, rows);
    forall j, k | j in p && k in added ensures p[j].value != added[k].value {
      var v := added[k].value;
      assert v == rows[k - next];
      assert v in rows;
    }
  }

  lemma AppendedPoolOk(p: Pool, rows: seq<string>)
    requires PoolOk(p) && Distinct(rows) && |p| + |rows| <= MAX_KEYS
    requires forall v :: v in rows ==> !Blank(v) && !HasValue(p, v)
    requires p.Keys !! RowsFrom(|p| + 1, rows).Keys
    ensures PoolOk(p + RowsFrom(|p| + 1, rows))
  {
    var next := |p| + 1;
    var added := RowsFrom(next, rows);
    AppendedCount(p, rows);
    RowsFromOk(next, rows);
    NewValuesDiffer(p, next, rows);
    JoinedPoolOk(p, added);
  }

  lemma InsertAdds(p: Pool, rows: seq<string>)
    requires PoolOk(p) && Insert(p, rows).Done? && Distinct(rows)
    requires forall v :: v in rows ==> !Blank(v) && !HasValue(p, v)
    ensures Extends(p, Insert(p, rows).pool, rows)
  {
    if rows != [] {
      AppendedPoolOk(p, rows);
      AppendedCount(p, rows);
      AppendedValues(p, |p| + 1, rows);
    }
  }

  /** What an append makes of a pool, given the rows it adds. */
  ghost predicate Extends(p: Pool, p': Pool, rows: seq<string>) {
    && PoolOk(p') && |p'| == |p| + |rows|
    && p.Keys <= p'.Keys && (forall k :: k in p ==> p'[k] == p[k])
    && (forall k :: k in p' && k !in p ==> p'[k].enabled && p'[k].reason == "")
    && (forall v :: HasValue(p', v) <==> HasValue(p, v) || v in rows)
  }

  /** An append adds exactly the missing values, enabled, and touches no existing row. */
  lemma AppendAdds(p: Pool, values: seq<string>)
    requires PoolOk(p) && AppendKeys(p, values).Done?
    ensures CleanKeyValues(values).Clean?
    ensures AppendKeys(p, values).added == |Missing(p, CleanKeyValues(values).values)|
    ensures Extends(p, AppendKeys(p, values).pool, Missing(p, CleanKeyValues(values).values))
    ensures var p' := AppendKeys(p, values).pool;
            forall v :: HasValue(p', v) <==> HasValue(p, v) || v in CleanKeyValues(values).values
  {
    CleanedValues(values);
    var vs := CleanKeyValues(values).values;
    var rows := Missing(p, vs);
    MissingDistinct(p, vs);
    InsertAdds(p, rows);
  }

  lemma JoinedValue(p: Pool, q: Pool, v: string)
    requires p.Keys !! q.Keys
    ensures HasValue(p + q, v) <==> HasValue(p, v) || HasValue(q, v)
  {
    var r := p + q;
    if HasValue(p, v) {
      var k :| k in p && p[k].value == v;
      assert k in r && r[k].value == v;
    } else if HasValue(q, v) {
      var k :| k in q && q[k].value == v;
      assert k in r && r[k].value == v;
    }
  }

  lemma NewValue(next: int, rows: seq<string>, v: string)
    ensures HasValue(RowsFrom(next, rows), v) <==> v in rows
  {
    var added := RowsFrom(next, rows);
    if v in rows {
      var i :| 0 <= i < |rows| && rows[i] == v;
      assert next + i in added && added[next + i].value == rows[i];
    }
  }

  lemma AppendedValues(p: Pool, next: int, rows: seq<string>)
    requires p.Keys !! RowsFrom(next, rows).Keys
    ensures forall v :: HasValue(p + RowsFrom(next, rows), v) <==> HasValue(p, v) || v in rows
  {
    forall v ensures HasValue(p + RowsFrom(next, rows), v) <==> HasValue(p, v) || v in rows {
      JoinedValue(p, RowsFrom(next, rows), v);
      NewValue(next, rows, v);
    }
  }

  // --------------------------------------------------------------- what positions do

  /** No gap below the last row: positions are 1 to n. */
  predicate NoGap(p: Pool) { forall k :: k in p ==> k <= |p| }

  /** New rows follow all existing ones, as intended, if and only if the pool has no gap:
      after a gap they land inside the existing order. */
  lemma AppendGoesLastIff(p: Pool, values: seq<string>)
    requires PoolOk(p) && AppendKeys(p, values).Done? && AppendKeys(p, values).added > 0
    ensures (forall j, k :: j in p && k in AppendKeys(p, values).pool && k !in p ==> j < k) <==> NoGap(p)
  {
    var rows := Missing(p, CleanKeyValues(values).values);
    var p' := AppendKeys(p, values).pool;
    assert |p| + 1 in RowsFrom(|p| + 1, rows);
    assert |p| + 1 in p' && |p| + 1 !in p;
  }

  /** The new values of an append, none when it is refused for their length. */
  function NewOnes(p: Pool, values: seq<string>): seq<string> {
    match CleanKeyValues(values) case Clean(vs) => Missing(p, vs) case KeyTooLong => []
  }

  /** An append of new values within the limit is refused if and only if one of the positions
      after the number of rows is in use. */
  lemma AppendRefusedIff(p: Pool, values: seq<string>)
    ensures var m := |NewOnes(p, values)|;
            0 < m <= MAX_KEYS - |p| ==>
              (!AppendKeys(p, values).Done? <==> exists k :: k in p && |p| < k <= |p| + m)
  {
  }

  /** Deleting any row but the last of a pool without gaps makes every later append of a new
      value fail on the position index, whatever the value. */
  lemma DeletingInTheMiddleBlocksAppends(p: Pool, k: int, values: seq<string>)
    requires PoolOk(p) && NoGap(p) && k in p && k != |p|
    ensures 0 < |NewOnes(p - {k}, values)| <= MAX_KEYS + 1 - |p| ==> AppendKeys(p - {k}, values) == PositionTaken
  {
    var q := p - {k};
    assert q.Keys == p.Keys - {k};
    assert |q| == |q.Keys| == |p| - 1;
    Pigeonhole(p.Keys, |p|);
    assert |p| in q;
  }

  predicate KeyLike(v: string) { Trim(v) == v != "" && Bytes(v) <= MAX_KEY_BYTES }

  lemma OneNew(p: Pool, v: string)
    requires KeyLike(v) && !HasValue(p, v)
    ensures NewOnes(p, [v]) == [v]
  {
    assert [v][..0] == [];
    assert CleanKeyValues([v][..0]) == Clean([]);
  }

  /** Two keys, the first one deleted: no third key can be added. */
  lemma BlockedAppend(a: string, b: string, c: string)
    requires KeyLike(a) && KeyLike(b) && KeyLike(c) && a != b && b != c
    ensures var p: Pool := map[1 := KeyRow(a, true, ""), 2 := KeyRow(b, true, "")];
            && PoolOk(p)
            && AppendKeys(p - {1}, [c]) == PositionTaken
  {
    var p: Pool := map[1 := KeyRow(a, true, ""), 2 := KeyRow(b, true, "")];
    OneNew(p - {1}, c);
    assert |p.Keys| == 2 by { assert p.Keys == {1, 2}; }
    DeletingInTheMiddleBlocksAppends(p, 1, [c]);
  }

  /** For one: "a" and "b" pooled, "a" deleted, "c" refused. */
  lemma BlockedThirdKey()
    ensures var p: Pool := map[1 := KeyRow("a", true, ""), 2 := KeyRow("b", true, "")];
            PoolOk(p) && AppendKeys(p - {1}, ["c"]) == PositionTaken
  {
    BlockedAppend("a", "b", "c");
  }

  lemma GaplessJoin(p: Pool, q: Pool)
    requires NoGap(p) && forall k :: k in q ==> |p| < k <= |p| + |q|
    ensures p.Keys !! q.Keys && NoGap(p + q)
  {
    forall k | k in p.Keys ensures k !in q.Keys { assert k in p; }
    UnionCount(p, q);
    forall k | k in p + q ensures k <= |p + q| { assert k in p || k in q; }
  }

  lemma RowsAbove(next: int, rows: seq<string>)
    ensures var added := RowsFrom(next, rows); forall k :: k in added ==> next <= k < next + |rows|
  {
  }

  lemma GaplessInsert(p: Pool, rows: seq<string>, added: Pool)
    requires NoGap(p) && rows != [] && |p| + |rows| <= MAX_KEYS && added == RowsFrom(|p| + 1, rows)
    ensures Insert(p, rows) == Done(p + added, |rows|)
    ensures NoGap(p + added)
  {
    RowCount(|p| + 1, rows);
    RowsAbove(|p| + 1, rows);
    GaplessJoin(p, added);
  }

  /** Where no row was ever deleted, an append of new values fails only on the limit. */
  lemma GaplessAppendSucceeds(p: Pool, values: seq<string>)
    requires PoolOk(p) && NoGap(p)
    ensures CleanKeyValues(values).Clean? && |p| + |NewOnes(p, values)| <= MAX_KEYS ==>
              AppendKeys(p, values).Done? && NoGap(AppendKeys(p, values).pool)
  {
    var rows := NewOnes(p, values);
    if rows != [] && |p| + |rows| <= MAX_KEYS { GaplessInsert(p, rows, RowsFrom(|p| + 1, rows)); }
  }

  // ------------------------------------------------------------------ picking a key

  function Enabled(p: Pool): set<int> { set k | k in p.Keys && p[k].enabled }

  /** The first enabled value in position order, else the first value, else "". */
  function Pick(p: Pool): string {
    if Enabled(p) != {} && p[Min(Enabled(p))].value != "" then p[Min(Enabled(p))].value
    else if p.Keys != {} then p[Min(p.Keys)].value
    else ""
  }

  /** The values in position order. */
  function Listed(p: Pool): seq<string>
    decreases |p|
  {
    if p.Keys == {} then [] else
      var k := Min(p.Keys);
      assert |p - {k}| < |p| by { RemoveOne(p, k); }
      [p[k].value] + Listed(p - {k})
  }

  lemma RemoveOne(p: Pool, k: int)
    requires k in p
    ensures |p - {k}| == |p| - 1
  {
  }

  /** The value taken back to single mode is that of the first enabled row, or of the first
      row when none is enabled. */
  lemma PickedRow(p: Pool) returns (k: int)
    requires PoolOk(p) && p.Keys != {}
    ensures k in p && Pick(p) == p[k].value
    ensures if Enabled(p) == {} then Least(p.Keys, k) else Least(Enabled(p), k)
    ensures if exists j :: j in p && p[j].enabled then p[k].enabled && forall j :: j in p && p[j].enabled ==> k <= j
            else forall j :: j in p ==> k <= j
  {
    assert forall j :: j in Enabled(p) <==> j in p.Keys && p[j].enabled;
    SomeMember(Enabled(p));
    k := Min(if Enabled(p) == {} then p.Keys else Enabled(p));
    assert k in p;
    assert !Blank(p[k].value);
    BlankEmpty();
  }

  lemma BlankEmpty()
    ensures Blank("")
  {
  }

  /** Rows written for a list are read back as that list. */
  lemma {:induction false} ListedRows(next: int, vs: seq<string>)
    ensures Listed(RowsFrom(next, vs)) == vs
    decreases |vs|
  {
    var p := RowsFrom(next, vs);
    RowsAbove(next, vs);
    if vs != [] {
      assert next in Span(next, |vs|);
      assert next in p.Keys;
      assert Min(p.Keys) == next;
      var rest := RowsFrom(next + 1, vs[1..]);
      RowsAbove(next + 1, vs[1..]);
      assert p - {next} == rest;
      ListedRows(next + 1, vs[1..]);
      assert vs == [vs[0]] + vs[1..];
    } else {
      assert p.Keys == {};
    }
  }

  /** A replaced pool reads back as the cleaned list, all enabled, without gaps. */
  lemma ReplacedPool(values: seq<string>)
    requires ReplaceKeys(values).Done?
    ensures var p := ReplaceKeys(values).pool;
            && Listed(p) == CleanKeyValues(values).values
            && NoGap(p) && (forall k :: k in p ==> p[k].enabled && p[k].reason == "")
  {
    var vs := CleanKeyValues(values).values;
    ListedRows(1, vs);
    RowCount(1, vs);
    RowsAbove(1, vs);
  }

  /** A replacement is carried out exactly for one to a hundred usable values. */
  lemma ReplacedIff(values: seq<string>)
    ensures ReplaceKeys(values).Done?
            <==> && (forall v :: v in values ==> Bytes(Trim(v)) <= 8192)
                 && (exists v :: v in values && !Blank(v))
                 && CleanKeyValues(values).Clean? && |CleanKeyValues(values).values| <= 100
  {
    CleanedValues(values);
    if CleanKeyValues(values).Clean? {
      var vs := CleanKeyValues(values).values;
      if v :| v in values && !Blank(v) { assert Trim(v) in vs; }
      if vs != [] { assert vs[0] in vs; }
    }
  }

  // ------------------------------------------------------------- the pool in place

  class KeyStore {
    var rows: Pool

    constructor ()
      ensures rows == map[]
    {
      rows := map[];
    }

    method CleanValues(values: seq<string>) returns (r: Cleaned)
      ensures r == CleanKeyValues(values)
    {
      var seen: set<string> := {};
      var out: seq<string> := [];
      for i := 0 to |values|
        invariant CleanKeyValues(values[..i]) == Clean(out)
        invariant forall v :: v in seen <==> v in out
      {
        assert values[..i + 1][..i] == values[..i];
        var v := Trim(values[i]);
        if v != "" && v !in seen {
          if Bytes(v) > MAX_KEY_BYTES {
            StaysTooLong(values, i + 1);
            return KeyTooLong;
          }
          seen := seen + {v};
          out := out + [v];
        }
      }
      assert values[..|values|] == values;
      return Clean(out);
    }

    method NewValues(clean: seq<string>) returns (missing: seq<string>)
      requires Distinct(clean)
      ensures missing == Missing(rows, clean)
    {
      var seen := set k | k in rows :: rows[k].value;
      missing := [];
      for i := 0 to |clean|
        invariant missing == Missing(rows, clean[..i])
        invariant seen == (set k | k in rows :: rows[k].value) + (set v | v in missing)
      {
        assert clean[..i + 1][..i] == clean[..i];
        assert clean[i] !in clean[..i];
        if clean[i] !in seen {
          seen := seen + {clean[i]};
          missing := missing + [clean[i]];
        }
      }
      assert clean[..|clean|] == clean;
    }

    method Append(values: seq<string>) returns (r: Outcome)
      modifies this
      ensures r == AppendKeys(old(rows), values)
      ensures rows == if r.Done? then r.pool else old(rows)
      ensures rows == ApplyOp(old(rows), PoolOp.Append(values))
    {
      var c := CleanValues(values);
      if c.KeyTooLong? { return BadValue; }
      CleanedValues(values);
      var missing := NewValues(c.values);
      if missing == [] { return Done(rows, 0); }
      if |rows| + |missing| > MAX_KEYS { return TooMany; }
      var added := RowsFrom(|rows| + 1, missing);
      if !(rows.Keys !! added.Keys) { return PositionTaken; }
      rows := rows + added;
      return Done(rows, |missing|);
    }

    method Replace(values: seq<string>) returns (r: Outcome)
      modifies this
      ensures r == ReplaceKeys(values)
      ensures rows == if r.Done? then r.pool else old(rows)
      ensures rows == ApplyOp(old(rows), PoolOp.Replace(values))
    {
      var c := CleanValues(values);
      if c.KeyTooLong? { return BadValue; }
      if |c.values| == 0 || |c.values| > MAX_KEYS { return EmptyList; }
      rows := RowsFrom(1, c.values);
      return Done(rows, |c.values|);
    }

    /** One row changes status; the reason is kept with a disabled row only. */
    method SetKeyStatus(pos: int, on: bool, reason: string) returns (hit: bool)
      modifies this
      ensures hit == (pos in old(rows)) && rows.Keys == old(rows).Keys
      ensures forall k :: k in rows ==> rows[k].value == old(rows)[k].value
      ensures forall k :: k in rows && k != pos ==> rows[k] == old(rows)[k]
      ensures hit ==> rows[pos].enabled == on && rows[pos].reason == (if on then "" else reason)
      ensures rows == ApplyOp(old(rows), Status(pos, on, reason))
      ensures old(PoolOk(rows)) ==> PoolOk(rows)
    {
      ghost var before := rows;
      if PoolOk(before) { OpKeepsPoolOk(before, Status(pos, on, reason)); }
      hit := pos in rows;
      if hit { rows := rows[pos := rows[pos].(enabled := on, reason := if on then "" else reason)]; }
    }

    method DeleteKey(pos: int) returns (hit: bool)
      modifies this
      ensures rows == old(rows) - {pos} && hit == (pos in old(rows))
      ensures rows == ApplyOp(old(rows), Delete(pos))
    {
      hit := pos in rows;
      rows := rows - {pos};
    }

    /** Every row becomes usable again, at the same position and with the same value. */
    method EnableAll()
      modifies this
      ensures rows.Keys == old(rows).Keys
      ensures forall k :: k in rows ==> rows[k].value == old(rows)[k].value && rows[k].enabled && rows[k].reason == ""
      ensures Listed(rows) == Listed(old(rows))
      ensures rows == ApplyOp(old(rows), PoolOp.EnableAll)
      ensures old(PoolOk(rows)) ==> PoolOk(rows)
    {
      ghost var before := rows;
      if PoolOk(before) { OpKeepsPoolOk(before, PoolOp.EnableAll); }
      rows := map k | k in rows :: KeyRow(rows[k].value, true, "");
      SameListing(before, rows);
    }

    /** Exactly the disabled rows go; the others keep value and position, so a gap may stay. */
    method DeleteDisabled()
      modifies this
      ensures forall k :: k in rows <==> k in old(rows) && old(rows)[k].enabled
      ensures forall k :: k in rows ==> rows[k] == old(rows)[k]
      ensures rows == ApplyOp(old(rows), PoolOp.DeleteDisabled)
      ensures old(PoolOk(rows)) ==> PoolOk(rows)
      ensures Enabled(rows) == Enabled(old(rows)) == rows.Keys
      ensures Enabled(old(rows)) != {} && old(PoolOk(rows)) ==> Pick(rows) == Pick(old(rows))
    {
      ghost var before := rows;
      if PoolOk(before) { OpKeepsPoolOk(before, PoolOp.DeleteDisabled); }
      rows := map k | k in rows && rows[k].enabled :: rows[k];
      assert Enabled(rows) == Enabled(before) == rows.Keys;
      if Enabled(before) != {} && PoolOk(before) {
        var k := PickedRow(before);
        var k' := PickedRow(rows);
      }
    }
  }

  lemma {:induction false} SameListing(p: Pool, q: Pool)
    requires p.Keys == q.Keys && forall k :: k in p ==> q[k].value == p[k].value
    ensures Listed(p) == Listed(q)
    decreases |p|
  {
    if p.Keys != {} {
      var k := Min(p.Keys);
      RemoveOne(p, k);
      SameListing(p - {k}, q - {k});
    }
  }

  function WithStatus(p: Pool, pos: int, on: bool, reason: string): Pool {
    if pos in p then p[pos := p[pos].(enabled := on, reason := if on then "" else reason)] else p
  }

  function AllEnabled(p: Pool): Pool { map k | k in p :: KeyRow(p[k].value, true, "") }

  function WithoutDisabled(p: Pool): Pool { map k | k in p && p[k].enabled :: p[k] }

  lemma {:induction false} StaysTooLong(values: seq<string>, n: nat)
    requires n <= |values| && CleanKeyValues(values[..n]).KeyTooLong?
    ensures CleanKeyValues(values).KeyTooLong?
    decreases |values|
  {
    if n == |values| {
      assert values[..n] == values;
    } else {
      assert values[..|values| - 1][..n] == values[..n];
      StaysTooLong(values[..|values| - 1], n);
    }
  }

  // ---------------------------------------------------------- every pool operation

  datatype PoolOp =
    | Append(values: seq<string>)
    | Replace(values: seq<string>)
    | Status(pos: int, on: bool, reason: string)
    | Delete(pos: int)
    | EnableAll
    | DeleteDisabled

  /** A refused operation leaves the pool as it was. */
  function ApplyOp(p: Pool, op: PoolOp): Pool {
    match op
    case Append(vs) => var r := AppendKeys(p, vs); if r.Done? then r.pool else p
    case Replace(vs) => var r := ReplaceKeys(vs); if r.Done? then r.pool else p
    case Status(pos, on, reason) => WithStatus(p, pos, on, reason)
    case Delete(pos) => p - {pos}
    case EnableAll => AllEnabled(p)
    case DeleteDisabled => WithoutDisabled(p)
  }

  lemma SubPool(p: Pool, q: Pool)
    requires PoolOk(p) && q.Keys <= p.Keys && forall k :: k in q ==> q[k].value == p[k].value
    ensures PoolOk(q)
  {
    SubsetSize(q.Keys, p.Keys);
  }

  /** Whatever is done to a pool: at most 100 rows, no blank value, no value twice. */
  lemma OpKeepsPoolOk(p: Pool, op: PoolOp)
    requires PoolOk(p)
    ensures PoolOk(ApplyOp(p, op))
  {
    match op
    case Append(vs) => if AppendKeys(p, vs).Done? { AppendAdds(p, vs); }
    case Replace(vs) =>
      if ReplaceKeys(vs).Done? {
        CleanedValues(vs);
        RowsFromOk(1, CleanKeyValues(vs).values);
      }
    case _ => SubPool(p, ApplyOp(p, op));
  }

  ghost predicate AllTrimmed(p: Pool) { forall k :: k in p ==> Trimmed(p[k].value) }

  /** Added values are trimmed, so a pool that starts without surrounding spaces stays so. */
  lemma OpKeepsTrimmed(p: Pool, op: PoolOp)
    requires AllTrimmed(p)
    ensures AllTrimmed(ApplyOp(p, op))
  {
    if op.Append? {
      if AppendKeys(p, op.values).Done? { AppendKeepsTrimmed(p, op.values); }
    } else if op.Replace? {
      CleanedValues(op.values);
      if ReplaceKeys(op.values).Done? { NewRowsTrimmed(1, CleanKeyValues(op.values).values); }
    }
  }

  lemma AppendKeepsTrimmed(p: Pool, values: seq<string>)
    requires AllTrimmed(p) && AppendKeys(p, values).Done?
    ensures AllTrimmed(AppendKeys(p, values).pool)
  {
    CleanedValues(values);
    var rows := Missing(p, CleanKeyValues(values).values);
    NewRowsTrimmed(|p| + 1, rows);
    JoinedTrimmed(p, RowsFrom(|p| + 1, rows));
  }

  lemma JoinedTrimmed(p: Pool, q: Pool)
    requires AllTrimmed(p) && AllTrimmed(q)
    ensures AllTrimmed(p + q)
  {
  }

  lemma NewRowsTrimmed(next: int, vs: seq<string>)
    requires forall v :: v in vs ==> Trim(v) == v
    ensures AllTrimmed(RowsFrom(next, vs))
  {
    var rows := RowsFrom(next, vs);
    forall k | k in rows ensures Trimmed(rows[k].value) {
      assert rows[k].value == vs[k - next];
      TrimYieldsTrimmed(vs[k - next]);
    }
  }

  // ------------------------------------------------------------- the first key

  lemma EmptyPoolOk()
    ensures PoolOk(map[])
  {
  }

  /** The first key is neither replaced, nor disabled, nor deleted. */
  predicate SparesFirst(op: PoolOp) {
    match op
    case Replace(_) => false
    case Status(pos, on, _) => pos != 1 || on
    case Delete(pos) => pos != 1
    case _ => true
  }

  function Changed(p: Pool, ops: seq<PoolOp>): Pool {
    if ops == [] then p else ApplyOp(Changed(p, ops[..|ops| - 1]), ops[|ops| - 1])
  }

  lemma {:induction false} FirstKeyStays(p: Pool, ops: seq<PoolOp>)
    requires PoolOk(p) && 1 in p && p[1].enabled
    requires forall op :: op in ops ==> SparesFirst(op)
    ensures var q := Changed(p, ops); PoolOk(q) && 1 in q && q[1].enabled && q[1].value == p[1].value
    ensures Pick(Changed(p, ops)) == p[1].value
  {
    if ops != [] {
      var most := ops[..|ops| - 1];
      FirstKeyStays(p, most);
      var q := Changed(p, most);
      var op := ops[|ops| - 1];
      OpKeepsPoolOk(q, op);
      assert SparesFirst(op);
      OpSparesFirst(q, op);
    }
    FirstIsPicked(Changed(p, ops));
  }

  lemma OpSparesFirst(q: Pool, op: PoolOp)
    requires PoolOk(q) && 1 in q && q[1].enabled && SparesFirst(op)
    ensures var q' := ApplyOp(q, op); 1 in q' && q'[1].enabled && q'[1].value == q[1].value
  {
  }

  lemma FirstIsPicked(q: Pool)
    requires PoolOk(q) && 1 in q && q[1].enabled
    ensures Pick(q) == q[1].value
  {
    assert 1 in Enabled(q);
    assert Min(Enabled(q)) == 1;
    assert !Blank(q[1].value);
  }
}
