/**
 Header authentication: moving the credential from its header to the key pool and back. The
 pool holds the bare token; the scheme prefix comes off on the way in and back on the way out.
 */
module KeyMode {
  import opened Text
  import opened KeyPool

  /** The columns of a service or an item that matter here; bearer is a service's fixed
      authentication type, or the bit an item records when it enters multi mode. */
  datatype Row = Row(headers: map<string, string>, name: string, bearer: bool, multi: bool, pool: Pool)

  datatype Upgraded = Moved(row: Row) | NoHeader | KeysRefused

  function Header(r: Row, name: string): string { if name in r.headers then r.headers[name] else "" }

  function WithScheme(bearer: bool, v: string): string { if bearer then SCHEME + v else v }

  function Bare(bearer: bool, v: string): string { if bearer then TrimPrefix(v, SCHEME) else v }

  function Move(r: Row, name: string, token: string, bearer: bool): Upgraded {
    if token == "" then NoHeader
    else
      match AppendKeys(r.pool, [token])
      case Done(p, _) => Moved(Row(r.headers - {name}, name, bearer, true, p))
      case _ => KeysRefused
  }

  /** upgradeToMultiKey, from single mode: only a bearer service strips the scheme. */
  function UpgradeService(r: Row, name: string): Upgraded {
    Move(r, name, Bare(r.bearer, Header(r, name)), r.bearer)
  }

  /** upgradeItemToMultiKey: the scheme comes off whatever the header is called. */
  function UpgradeItem(r: Row, name: string): Upgraded {
    var v := Header(r, name);
    Move(r, name, TrimPrefix(v, SCHEME), name == "Authorization" && SCHEME <= v)
  }

  /** downgradeToSingleKey and downgradeItemToSingleKey. */
  function Downgrade(r: Row): Row {
    var pick := Pick(r.pool);
    var headers := if pick == "" then r.headers else r.headers[r.name := WithScheme(r.bearer, pick)];
    Row(headers, r.name, r.bearer, false, map[])
  }

  /** In multi mode, any pool changes that spare the first key; then back to single mode. */
  function ThereAndBack(r: Row, ops: seq<PoolOp>): Row { Downgrade(r.(pool := Changed(r.pool, ops))) }

  /** The pool a fresh multi-mode row starts with. */
  lemma MovedPool(r: Row, name: string, token: string, bearer: bool)
    requires r.pool == map[] && Move(r, name, token, bearer).Moved?
    ensures Move(r, name, token, bearer).row.pool
         == if Blank(token) then map[] else map[1 := KeyRow(Trim(token), true, "")]
  {
    CleanOne(token);
    if !Blank(token) { AppendToEmpty(Trim(token)); }
  }

  lemma NonBlankComesBack(token: string, ops: seq<PoolOp>)
    requires !Blank(token) && forall op :: op in ops ==> SparesFirst(op)
    ensures Pick(Changed(map[1 := KeyRow(Trim(token), true, "")], ops)) == Trim(token)
  {
    TrimYieldsTrimmed(token);
    TrimYieldsTrimmed(Trim(token));
    FirstKeyStays(map[1 := KeyRow(Trim(token), true, "")], ops);
  }

  lemma BlankIsLost(ops: seq<PoolOp>)
    ensures var pick := Pick(Changed(map[], ops)); pick == "" || (!Blank(pick) && Trimmed(pick))
  {
    EmptyPoolOk();
    PoolStaysOk(map[], ops);
    PickNotBlank(Changed(map[], ops));
  }

  lemma MovedHeaders(r: Row, name: string, token: string, bearer: bool, p: Pool)
    requires Move(r, name, token, bearer).Moved?
    ensures var back := Downgrade(Move(r, name, token, bearer).row.(pool := p));
            && back.pool == map[] && !back.multi
            && (forall n :: n != name ==> (n in back.headers <==> n in r.headers) && Header(back, n) == Header(r, n))
            && (name in back.headers <==> Pick(p) != "")
            && (name in back.headers ==> back.headers[name] == WithScheme(bearer, Pick(p)))
  {
  }

  /** What comes back: the trimmed token with the recorded scheme; for a token of spaces only,
      a key appended in the meantime or no header at all. */
  lemma MovedValue(r: Row, name: string, token: string, bearer: bool, ops: seq<PoolOp>)
    requires r.pool == map[] && Move(r, name, token, bearer).Moved?
    requires forall op :: op in ops ==> SparesFirst(op)
    ensures var back := ThereAndBack(Move(r, name, token, bearer).row, ops);
            && back.pool == map[] && !back.multi
            && (forall n :: n != name ==> (n in back.headers <==> n in r.headers) && Header(back, n) == Header(r, n))
            && (!Blank(token) ==> name in back.headers && back.headers[name] == WithScheme(bearer, Trim(token)))
            && (Blank(token) && name in back.headers ==>
                  exists pick :: back.headers[name] == WithScheme(bearer, pick) && !Blank(pick) && Trimmed(pick))
  {
    MovedPool(r, name, token, bearer);
    var p := Changed(Move(r, name, token, bearer).row.pool, ops);
    MovedHeaders(r, name, token, bearer, p);
    if Blank(token) { BlankIsLost(ops); } else { NonBlankComesBack(token, ops); }
  }

  lemma CleanOne(token: string)
    ensures CleanKeyValues([token]) ==
            if Blank(token) then Clean([])
            else if Bytes(Trim(token)) > MAX_KEY_BYTES then KeyTooLong
            else Clean([Trim(token)])
  {
  }

  lemma AppendToEmpty(v: string)
    ensures Insert(map[], [v]) == Done(map[1 := KeyRow(v, true, "")], 1)
    ensures Missing(map[], [v]) == [v]
  {
  }

  lemma {:induction false} PoolStaysOk(p: Pool, ops: seq<PoolOp>)
    requires PoolOk(p) && AllTrimmed(p)
    ensures PoolOk(Changed(p, ops)) && AllTrimmed(Changed(p, ops))
  {
    if ops != [] {
      PoolStaysOk(p, ops[..|ops| - 1]);
      OpKeepsPoolOk(Changed(p, ops[..|ops| - 1]), ops[|ops| - 1]);
      OpKeepsTrimmed(Changed(p, ops[..|ops| - 1]), ops[|ops| - 1]);
    }
  }

  lemma PickNotBlank(p: Pool)
    requires PoolOk(p) && AllTrimmed(p)
    ensures Pick(p) == "" || (!Blank(Pick(p)) && Trimmed(Pick(p)))
  {
  }

  /** A service's headers come back unchanged if and only if the token carries no surrounding
      space and, for bearer authentication, the header carries the scheme. In particular a
      token of spaces only is lost on the way. */
  lemma ServiceRoundTripIff(r: Row, name: string, ops: seq<PoolOp>)
    requires r.pool == map[] && UpgradeService(r, name).Moved?
    requires forall op :: op in ops ==> SparesFirst(op)
    ensures var v := Header(r, name);
            ThereAndBack(UpgradeService(r, name).row, ops).headers == r.headers
            <==> (r.bearer ==> SCHEME <= v) && Trimmed(Bare(r.bearer, v))
  {
    var v := Header(r, name);
    var token := Bare(r.bearer, v);
    MovedValue(r, name, token, r.bearer, ops);
    var back := ThereAndBack(UpgradeService(r, name).row, ops);
    TrimYieldsTrimmed(token);
    TrimPrefixInverse(v, SCHEME);
    SameHeaders(r, back, name);
    if Blank(token) {
      assert token != "" && Trim(token) != token;
      if name in back.headers && back.headers[name] == v {
        var pick :| back.headers[name] == WithScheme(r.bearer, pick) && !Blank(pick);
        TrimPrefixInverse(pick, SCHEME);
      }
    } else {
      TrimPrefixInverse(Trim(token), SCHEME);
    }
  }

  /** An item's headers come back unchanged if and only if the token carries no surrounding
      space and a scheme is found in the Authorization header only: any other header of the
      form "Bearer x" comes back as "x". */
  lemma ItemRoundTripIff(r: Row, name: string, ops: seq<PoolOp>)
    requires r.pool == map[] && UpgradeItem(r, name).Moved?
    requires forall op :: op in ops ==> SparesFirst(op)
    ensures var v := Header(r, name);
            ThereAndBack(UpgradeItem(r, name).row, ops).headers == r.headers
            <==> (SCHEME <= v ==> name == "Authorization") && Trimmed(TrimPrefix(v, SCHEME))
  {
    var v := Header(r, name);
    var token := TrimPrefix(v, SCHEME);
    var bit := name == "Authorization" && SCHEME <= v;
    MovedValue(r, name, token, bit, ops);
    var back := ThereAndBack(UpgradeItem(r, name).row, ops);
    TrimYieldsTrimmed(token);
    TrimShrinks(token);
    TrimPrefixInverse(v, SCHEME);
    SameHeaders(r, back, name);
    if Blank(token) && name in back.headers && back.headers[name] == v {
      var pick :| back.headers[name] == WithScheme(bit, pick) && !Blank(pick);
      TrimPrefixInverse(pick, SCHEME);
      TrimYieldsTrimmed(v);
      if SCHEME <= v { SchemeBeforeBlank(token); }
    }
  }

  /** Entering multi mode with no pool left over: refused without a token in the header, and for
      a token of more than 8192 bytes. */
  lemma UpgradedIff(r: Row, name: string)
    requires r.pool == map[]
    ensures var v := if name in r.headers then r.headers[name] else "";
            var token := if r.bearer && SCHEME <= v then v[|SCHEME|..] else v;
            && (UpgradeService(r, name) == NoHeader <==> token == "")
            && (UpgradeService(r, name) == KeysRefused <==> token != "" && Bytes(Trim(token)) > 8192)
    ensures var v := if name in r.headers then r.headers[name] else "";
            var token := if SCHEME <= v then v[|SCHEME|..] else v;
            && (UpgradeItem(r, name) == NoHeader <==> token == "")
            && (UpgradeItem(r, name) == KeysRefused <==> token != "" && Bytes(Trim(token)) > 8192)
  {
    var v := Header(r, name);
    MovedIff(r, name, Bare(r.bearer, v), r.bearer);
    MovedIff(r, name, TrimPrefix(v, SCHEME), name == "Authorization" && SCHEME <= v);
  }

  lemma MovedIff(r: Row, name: string, token: string, bearer: bool)
    requires r.pool == map[]
    ensures Move(r, name, token, bearer) == NoHeader <==> token == ""
    ensures Move(r, name, token, bearer) == KeysRefused <==> token != "" && Bytes(Trim(token)) > MAX_KEY_BYTES
  {
    CleanOne(token);
    AppendToEmpty(Trim(token));
  }

  /** A short token without spaces enters an empty pool. */
  lemma Enters(r: Row, name: string, t: string, bearer: bool)
    requires r.pool == map[] && t != "" && Trimmed(t) && Bytes(t) <= MAX_KEY_BYTES
    ensures !Blank(t) && Trim(t) == t && Move(r, name, t, bearer).Moved?
  {
    TrimYieldsTrimmed(t);
    CleanOne(t);
    AppendToEmpty(t);
  }

  /** A bearer service whose header is the bare token t comes back with the scheme added. */
  lemma BareHeaderGainsScheme(t: string, name: string)
    requires t != "" && Trimmed(t) && Bytes(t) <= MAX_KEY_BYTES && !(SCHEME <= t)
    ensures var r := Row(map[name := t], "", true, false, map[]);
            && UpgradeService(r, name).Moved?
            && Header(ThereAndBack(UpgradeService(r, name).row, []), name) == SCHEME + t
  {
    var r := Row(map[name := t], "", true, false, map[]);
    Enters(r, name, t, true);
    MovedValue(r, name, t, true, []);
  }

  /** An item whose header, not being Authorization, is SCHEME + t comes back with t alone. */
  lemma OtherHeaderLosesScheme(t: string, name: string)
    requires t != "" && Trimmed(t) && Bytes(t) <= MAX_KEY_BYTES && name != "Authorization"
    ensures var r := Row(map[name := SCHEME + t], "", false, false, map[]);
            && UpgradeItem(r, name).Moved?
            && Header(ThereAndBack(UpgradeItem(r, name).row, []), name) == t
  {
    var r := Row(map[name := SCHEME + t], "", false, false, map[]);
    TrimPrefixInverse(t, SCHEME);
    assert TrimPrefix(SCHEME + t, SCHEME) == t;
    Enters(r, name, t, false);
    MovedValue(r, name, t, false, []);
  }

  /** One input each: the token "t", in Authorization without the scheme and in X with it. */
  lemma HeadersThatDoNotComeBack()
    ensures var r := Row(map["Authorization" := "t"], "", true, false, map[]);
            UpgradeService(r, "Authorization").Moved?
            && Header(ThereAndBack(UpgradeService(r, "Authorization").row, []), "Authorization") == SCHEME + "t"
    ensures var r := Row(map["X" := SCHEME + "t"], "", false, false, map[]);
            UpgradeItem(r, "X").Moved? && Header(ThereAndBack(UpgradeItem(r, "X").row, []), "X") == "t"
  {
    BareHeaderGainsScheme("t", "Authorization");
    OtherHeaderLosesScheme("t", "X");
  }

  lemma SchemeBeforeBlank(token: string)
    requires token != "" && Blank(token)
    ensures !Trimmed(SCHEME + token)
  {
    TrimYieldsTrimmed(token);
    if !IsSpace(token[|token| - 1]) { LastStays(token); }
  }

  lemma LastStays(s: string)
    requires s != "" && !IsSpace(s[|s| - 1])
    ensures !Blank(s)
  {
    TrimLeftKeepsLast(s);
  }

  lemma {:induction false} TrimLeftKeepsLast(s: string)
    requires s != "" && !IsSpace(s[|s| - 1])
    ensures TrimLeft(s) != "" && TrimLeft(s)[|TrimLeft(s)| - 1] == s[|s| - 1]
  {
    if IsSpace(s[0]) { TrimLeftKeepsLast(s[1..]); }
  }

  lemma TrimShrinks(s: string)
    ensures |Trim(s)| <= |s|
  {
    TrimLeftStarts(s);
    TrimRightEnds(TrimLeft(s));
  }

  lemma SameHeaders(r: Row, back: Row, name: string)
    requires forall n :: n != name ==> (n in back.headers <==> n in r.headers) && Header(back, n) == Header(r, n)
    requires name in r.headers
    ensures back.headers == r.headers <==> name in back.headers && back.headers[name] == r.headers[name]
  {
  }

  /** One row and its pool, changed in place; serviceLevel tells the two variants apart. */
  class HeaderRow {
    var headers: map<string, string>
    var name: string
    var bearer: bool
    var multi: bool
    var pool: Pool
    const serviceLevel: bool

    function State(): Row
      reads this
    {
      Row(headers, name, bearer, multi, pool)
    }

    constructor (r: Row, serviceLevel: bool)
      ensures State() == r && this.serviceLevel == serviceLevel
    {
      headers, name, bearer, multi, pool := r.headers, r.name, r.bearer, r.multi, r.pool;
      this.serviceLevel := serviceLevel;
    }

    /** The token enters the pool before the header goes: when the final save of the row fails
        the header is still there and the pool has the token already, and no exit leaves the
        service without it. */
    method UpgradeToMultiKey(target: string, saved: bool) returns (r: Upgraded)
      modifies this
      ensures r == if serviceLevel then UpgradeService(old(State()), target) else UpgradeItem(old(State()), target)
      ensures r.Moved? && saved ==> State() == r.row
      ensures r.Moved? && !saved ==> State() == old(State()).(pool := r.row.pool)
      ensures !r.Moved? ==> State() == old(State())
      ensures target in old(headers) && target !in headers ==>
                var v := old(headers)[target];
                var token := if serviceLevel then Bare(old(bearer), v) else TrimPrefix(v, SCHEME);
                Blank(token) || HasValue(pool, Trim(token))
    {
      var candidate := "";
      if target in headers { candidate := headers[target]; }
      var bit, token := bearer, candidate;
      if serviceLevel {
        if bearer { token := TrimPrefix(candidate, SCHEME); }
      } else {
        bit := target == "Authorization" && SCHEME <= candidate;
        token := TrimPrefix(candidate, SCHEME);
      }
      if token == "" { return NoHeader; }
      var added := AppendKeys(pool, [token]);
      if !added.Done? { return KeysRefused; }
      AppendedTokenStays(pool, token);
      r := Moved(Row(headers - {target}, target, bit, true, added.pool));
      pool := added.pool;
      if !saved { return; }
      headers := headers - {target};
      name, bearer, multi := target, bit, true;
    }

    /** The row is saved before the pool is emptied; a failed save changes nothing. */
    method DowngradeToSingleKey(saved: bool)
      modifies this
      ensures State() == if saved then Downgrade(old(State())) else old(State())
    {
      var pick := Pick(pool);
      if !saved { return; }
      if pick != "" {
        headers := headers[name := if bearer then SCHEME + pick else pick];
      }
      multi := false;
      pool := map[];
    }
  }

  lemma InsertedValueStays(p: Pool, v: string)
    requires Insert(p, [v]).Done?
    ensures HasValue(Insert(p, [v]).pool, v)
  {
    var added := RowsFrom(|p| + 1, [v]);
    NewValue(|p| + 1, [v], v);
    JoinedValue(p, added, v);
  }

  lemma AppendedTokenStays(p: Pool, token: string)
    requires AppendKeys(p, [token]).Done?
    ensures Blank(token) || HasValue(AppendKeys(p, [token]).pool, Trim(token))
  {
    CleanOne(token);
    if !Blank(token) {
      MissingOne(p, Trim(token));
      if !HasValue(p, Trim(token)) { InsertedValueStays(p, Trim(token)); }
    }
  }

  lemma MissingOne(p: Pool, v: string)
    ensures Missing(p, [v]) == if HasValue(p, v) then [] else [v]
  {
  }
}
