/**
 URL-parameter authentication: one credential that lives either in the URL (single mode) or
 in the key pool (multi mode), and the operations that move it. A URL is its part outside
 the query and the decoded query as a multimap.
 */
module QueryAuth {
  import opened Text
  import opened Masking
  import opened KeyPool

  // -------------------------------------------------------------------- the URL

  type Query = map<string, seq<string>>

  /** Bad: not an absolute http(s) URL, or its query does not decode. */
  datatype Url = Bad(raw: string) | Good(base: string, query: Query)

  predicate ValidName(name: string) {
    name != "" && Bytes(name) <= 255 && Trim(name) == name && forall c :: c in name ==> c !in "&=?#\r\n\t"
  }

  datatype Error =
    | BadName | BadUrl | NotExactlyOne | WrongAuthType | NameFixed | EmptyPool | StillInUrl | PoolRefused | NotMulti

  datatype Res<T> = Ok(value: T) | Err(error: Error)

  function Values(u: Url, name: string): seq<string> {
    if u.Good? && name in u.query then u.query[name] else []
  }

  datatype Taken = Taken(rest: Url, value: string)

  /** A parameter name the credential code accepts. */
  lemma ValidNameIff(name: string)
    ensures ValidName(name)
            <==> && 1 <= Bytes(name) <= 255 && Trimmed(name)
                 && '&' !in name && '=' !in name && '?' !in name && '#' !in name
                 && '\r' !in name && '\n' !in name && '\t' !in name
  {
    TrimYieldsTrimmed(name);
  }

  /** takeQueryCredential. */
  function Take(u: Url, name: string): Res<Taken> {
    if !ValidName(name) then Err(BadName)
    else if u.Bad? then Err(BadUrl)
    else if |Values(u, name)| != 1 || Blank(Values(u, name)[0]) then Err(NotExactlyOne)
    else Ok(Taken(Good(u.base, u.query - {name}), Values(u, name)[0]))
  }

  /** putQueryCredential. */
  function Put(u: Url, name: string, value: string): Res<Url> {
    if !ValidName(name) then Err(BadName)
    else if u.Bad? then Err(BadUrl)
    else Ok(Good(u.base, u.query[name := [value]]))
  }

  function Has(u: Url, name: string): bool { |Values(u, name)| > 0 }

  function Drop(u: Url, name: string): Url {
    if u.Bad? then u else Good(u.base, u.query - {name})
  }

  /** renameQueryCredential; a credential already under the new name wins. */
  function Rename(u: Url, from: string, to: string): Res<Url> {
    if from == "" || from == to then Ok(u)
    else if u.Bad? then Err(BadUrl)
    else
      var q := if |Values(u, to)| == 0 && |Values(u, from)| == 1 then u.query[to := [Values(u, from)[0]]] else u.query;
      Ok(Good(u.base, q - {from}))
  }

  function MaskUrl(u: Url, name: string): Url {
    if |Values(u, name)| == 0 then u
    else
      var vs := Values(u, name);
      Good(u.base, u.query[name := seq(|vs|, i requires 0 <= i < |vs| => MaskSecret(vs[i]))])
  }

  /** mergeMaskedQueryCredential. */
  function MergeUrl(submitted: Url, stored: Url, name: string): Url {
    if submitted.Bad? || stored.Bad? || |Values(submitted, name)| != 1 || |Values(stored, name)| != 1 then submitted
    else if Values(submitted, name)[0] == MaskSecret(Values(stored, name)[0])
    then Good(submitted.base, submitted.query[name := [Values(stored, name)[0]]])
    else submitted
  }

  lemma TakeThenPut(u: Url, name: string)
    requires Take(u, name).Ok?
    ensures Put(Take(u, name).value.rest, name, Take(u, name).value.value) == Ok(u)
    ensures !Has(Take(u, name).value.rest, name)
  {
    assert [Values(u, name)[0]] == u.query[name];
    assert (u.query - {name})[name := u.query[name]] == u.query;
  }

  lemma PutThenTake(u: Url, name: string, v: string)
    requires u.Good? && ValidName(name) && !Blank(v)
    ensures Take(Put(u, name, v).value, name) == Ok(Taken(Drop(u, name), v))
  {
    assert u.query[name := [v]] - {name} == u.query - {name};
  }

  /** Renaming moves a lone credential and nothing else; when both names are present the old
      one is dropped. */
  lemma RenameMoves(u: Url, from: string, to: string)
    requires Take(u, from).Ok? && ValidName(to) && from != to
    ensures var u' := Rename(u, from, to);
            && u'.Ok? && !Has(u'.value, from)
            && (forall n :: n != from && n != to ==> Values(u'.value, n) == Values(u, n))
            && Values(u'.value, to) == (if Has(u, to) then Values(u, to) else Values(u, from))
  {
  }

  lemma RenameBack(u: Url, from: string, to: string)
    requires Take(u, from).Ok? && ValidName(to) && from != to && u.Good? && to !in u.query
    ensures Rename(Rename(u, from, to).value, to, from) == Ok(u)
  {
    var u' := Rename(u, from, to).value;
    assert [Values(u, from)[0]] == u.query[from];
    assert u'.query == u.query[to := u.query[from]] - {from};
    assert u'.query[from := u.query[from]] - {to} == u.query;
  }

  /** An echoed URL is restored if and only if it carries at most one credential, or only
      values that a mask does not change. */
  lemma MergeUndoesMaskIff(u: Url, name: string)
    ensures MergeUrl(MaskUrl(u, name), u, name) == u
            <==> |Values(u, name)| <= 1 || forall v :: v in Values(u, name) ==> MaskSecret(v) == v
  {
    var vs := Values(u, name);
    var m := MaskUrl(u, name);
    if |vs| == 1 {
      assert u.query[name := [vs[0]]] == u.query by { assert [vs[0]] == vs; }
      assert m.query[name := [vs[0]]] == u.query;
    } else if |vs| > 1 {
      var ms := Values(m, name);
      if ms == vs {
        forall v | v in vs ensures MaskSecret(v) == v {
          var i :| 0 <= i < |vs| && vs[i] == v;
          assert ms[i] == MaskSecret(vs[i]);
        }
        assert m.query == u.query;
      } else {
        var i :| 0 <= i < |vs| && ms[i] != vs[i];
        assert vs[i] in vs;
      }
    }
  }

  // -------------------------------------------------- services and market items

  datatype Auth = NoAuth | ByQuery | ByHeader

  /** The columns that matter: authentication type (a service has one, an item has none),
      the parameter name ("" when absent), the key mode, the URL, and the pool. */
  datatype Holder = Holder(auth: Auth, name: string, multi: bool, url: Url, pool: Pool)

  /** The credential is in one place. */
  ghost predicate InOnePlace(h: Holder) {
    if h.multi then !Has(h.url, h.name) && PoolOk(h.pool)
    else Take(h.url, h.name).Ok? && h.pool == map[]
  }

  ghost predicate ServiceOk(h: Holder) {
    && (h.auth.ByQuery? ==> ValidName(h.name) && InOnePlace(h))
    && (h.multi ==> (h.auth.ByQuery? <==> h.name != "") && !h.auth.NoAuth? && PoolOk(h.pool))
    && (!h.multi ==> h.pool == map[])
  }

  ghost predicate ItemOk(h: Holder) {
    && (h.name != "" ==> ValidName(h.name) && InOnePlace(h))
    && (h.multi ==> PoolOk(h.pool))
    && (!h.multi ==> h.pool == map[])
  }

  /** Create with URL-parameter authentication; keys only when created in multi mode. */
  function Create(url: Url, name: string, multi: bool, keys: seq<string>): Res<Holder> {
    if !multi then
      var t := Take(url, name);
      if t.Err? then Err(t.error) else Ok(Holder(ByQuery, name, false, url, map[]))
    else if !ValidName(name) then Err(BadName)
    else if Has(url, name) && Take(url, name).Err? then Err(Take(url, name).error)
    else if url.Bad? then Err(BadUrl)
    else
      var kept := if Has(url, name) then Take(url, name).value.rest else url;
      Pooled(kept, name, (if Has(url, name) then [Take(url, name).value.value] else []) + keys)
  }

  function Pooled(url: Url, name: string, keys: seq<string>): Res<Holder> {
    match CleanKeyValues(keys)
    case KeyTooLong => Err(PoolRefused)
    case Clean(vs) =>
      if vs == [] then Err(EmptyPool)
      else
        match AppendKeys(map[], vs)
        case Done(p, _) => Ok(Holder(ByQuery, name, true, url, p))
        case _ => Err(PoolRefused)
  }

  /** upgradeToMultiQueryKey, on a service or an item; the pool starts with the URL's value. */
  function UpgradeQuery(h: Holder, reqName: string): Res<Holder> {
    var name := if reqName == "" then h.name else reqName;
    var t := Take(h.url, name);
    if t.Err? then Err(t.error)
    else Ok(Holder(ByQuery, name, true, t.value.rest, map[1 := KeyRow(t.value.value, true, "")]))
  }

  function UpgradeService(h: Holder, reqName: string): Res<Holder> {
    if h.multi then if h.name == "" || (reqName != "" && reqName != h.name) then Err(NameFixed) else Ok(h)
    else if h.auth.ByHeader? then Err(WrongAuthType)
    else UpgradeQuery(h, reqName)
  }

  function UpgradeItem(h: Holder, reqName: string): Res<Holder> {
    if h.multi then if h.name == "" || (reqName != "" && reqName != h.name) then Err(NameFixed) else Ok(h)
    else
      var r := UpgradeQuery(h, reqName);
      if r.Err? then r else Ok(r.value.(auth := h.auth))
  }

  /** downgradeToSingleQueryKey; in header form the value goes to the headers, which are not
      part of this module. */
  function Downgrade(h: Holder): Res<Holder> {
    if !h.multi then Ok(h)
    else if h.name == "" then Ok(h.(multi := false, pool := map[]))
    else if Pick(h.pool) == "" then Err(EmptyPool)
    else
      var u := Put(h.url, h.name, Pick(h.pool));
      if u.Err? then Err(u.error) else Ok(h.(multi := false, url := u.value, pool := map[]))
  }

  /** The header form of the upgrade, as far as it shows here. */
  function UpgradeHeader(h: Holder, token: string): Holder {
    if h.multi then h else h.(multi := true, name := "", pool := ApplyOp(map[], PoolOp.Append([token])))
  }

  datatype Maybe<T> = Nothing | Just(value: T)

  /** The authentication part of a service update. */
  function UpdateService(h: Holder, url: Maybe<Url>, auth: Maybe<Auth>, name: Maybe<string>): Res<Holder> {
    var old_name := if h.auth.ByQuery? then h.name else "";
    var auth' := if auth.Just? then auth.value else h.auth;
    var name' := if name.Just? then name.value else h.name;
    var url1 :=
      if url.Nothing? then h.url else if old_name != "" then MergeUrl(url.value, h.url, old_name) else url.value;
    var url2 := if old_name != "" && !auth'.ByQuery? then Drop(url1, old_name) else url1;
    if h.multi && auth.Just? && auth.value != h.auth then Err(WrongAuthType)
    else if h.multi && name.Just? then Err(NameFixed)
    else if !auth'.ByQuery? then Ok(h.(auth := auth', name := name', url := url2))
    else if !ValidName(name') then Err(BadName)
    else
      var url3 := PlacedCredential(h.multi, url2, old_name, name');
      if url3.Err? then Err(url3.error) else Ok(h.(auth := auth', name := name', url := url3.value))
  }

  /** The URL under the new parameter name, with one credential or, with a key pool, none. */
  function PlacedCredential(multi: bool, u: Url, oldName: string, name: string): Res<Url> {
    var moved := if !multi && oldName != "" && oldName != name then Rename(u, oldName, name) else Ok(u);
    if moved.Err? then Err(moved.error)
    else if multi && Has(moved.value, name) then Err(StillInUrl)
    else if !multi && Take(moved.value, name).Err? then Err(Take(moved.value, name).error)
    else moved
  }

  /** The authentication part of an item update; the empty name leaves URL authentication. */
  function UpdateItem(h: Holder, url: Maybe<Url>, name: Maybe<string>): Res<Holder> {
    var url1 := if url.Nothing? then h.url else if h.name != "" then MergeUrl(url.value, h.url, h.name) else url.value;
    if url.Just? && h.name != "" && h.multi && Has(url1, h.name) then Err(StillInUrl)
    else if name.Just? && h.multi then Err(NameFixed)
    else if name.Just? && name.value != "" && !ValidName(name.value) then Err(BadName)
    else
      var url2 :=
        if name.Nothing? then Ok(url1)
        else if name.value == "" then Ok(if h.name != "" then Drop(url1, h.name) else url1)
        else Rename(url1, h.name, name.value);
      var name' := if name.Just? then name.value else h.name;
      if url2.Err? then Err(url2.error)
      else if name' != "" && !h.multi && Take(url2.value, name').Err? then Err(Take(url2.value, name').error)
      else Ok(h.(name := name', url := url2.value))
  }

  /** Pool changes: appending and replacing need multi mode, the others take what there is. */
  function ChangePool(h: Holder, op: PoolOp): Res<Holder> {
    if (op.Append? || op.Replace?) && !h.multi then Err(NotMulti) else Ok(h.(pool := ApplyOp(h.pool, op)))
  }

  /** Cloning a service to a new item: the stripped URL, and in multi mode the pool cleaned
      again; the new item row stays even when copying the pool is refused. */
  function Clone(h: Holder): Res<Holder> {
    if !h.multi then Ok(Holder(NoAuth, if h.auth.ByQuery? then h.name else "", false, h.url, map[]))
    else if h.name != "" && Has(h.url, h.name) && Take(h.url, h.name).Err? then Err(Take(h.url, h.name).error)
    else
      var kept := if h.name != "" && Has(h.url, h.name) then Take(h.url, h.name).value.rest else h.url;
      Ok(Holder(NoAuth, h.name, true, kept, ApplyOp(map[], Replace(Listed(h.pool)))))
  }

  // ------------------------------------------------------------ every operation

  datatype Op =
    | Update(url: Maybe<Url>, auth: Maybe<Auth>, name: Maybe<string>)   // an item has no auth
    | Upgrade(reqName: string, token: string)                           // token: the header's, in header form
    | ToSingle
    | Keys(op: PoolOp)

  function ServiceOp(h: Holder, op: Op): Res<Holder> {
    match op
    case Update(url, auth, name) => UpdateService(h, url, auth, name)
    case Upgrade(reqName, token) =>
      if reqName != "" || h.auth.ByQuery? then UpgradeService(h, reqName)
      else if h.auth.NoAuth? then Err(WrongAuthType)
      else Ok(UpgradeHeader(h, token))
    case ToSingle => Downgrade(h)
    case Keys(p) => ChangePool(h, p)
  }

  function ItemOp(h: Holder, op: Op): Res<Holder> {
    match op
    case Update(url, _, name) => UpdateItem(h, url, name)
    case Upgrade(reqName, token) =>
      if reqName != "" || h.name != "" then UpgradeItem(h, reqName) else Ok(UpgradeHeader(h, token))
    case ToSingle => Downgrade(h)
    case Keys(p) => ChangePool(h, p)
  }

  /** A refused operation saves nothing. */
  function After(h: Holder, r: Res<Holder>): Holder { if r.Ok? then r.value else h }

  function RunService(h: Holder, ops: seq<Op>): Holder {
    if ops == [] then h
    else
      var before := RunService(h, ops[..|ops| - 1]);
      After(before, ServiceOp(before, ops[|ops| - 1]))
  }

  function RunItem(h: Holder, ops: seq<Op>): Holder {
    if ops == [] then h
    else
      var before := RunItem(h, ops[..|ops| - 1]);
      After(before, ItemOp(before, ops[|ops| - 1]))
  }

  lemma CreateOk(url: Url, name: string, multi: bool, keys: seq<string>)
    requires Create(url, name, multi, keys).Ok?
    ensures ServiceOk(Create(url, name, multi, keys).value)
  {
    if multi {
      var all := (if Has(url, name) then [Take(url, name).value.value] else []) + keys;
      EmptyPoolOk();
      AppendAdds(map[], CleanKeyValues(all).values);
    }
  }

  lemma UpgradeQueryOk(h: Holder, reqName: string)
    requires UpgradeQuery(h, reqName).Ok?
    ensures InOnePlace(UpgradeQuery(h, reqName).value) && ValidName(UpgradeQuery(h, reqName).value.name)
  {
  }

  lemma DowngradeOk(h: Holder)
    requires h.multi && PoolOk(h.pool) && (h.name != "" ==> ValidName(h.name)) && Downgrade(h).Ok?
    ensures h.name != "" ==> InOnePlace(Downgrade(h).value)
    ensures !Downgrade(h).value.multi && Downgrade(h).value.pool == map[]
  {
  }

  lemma UpdateServiceOk(h: Holder, url: Maybe<Url>, auth: Maybe<Auth>, name: Maybe<string>)
    requires ServiceOk(h)
    ensures ServiceOk(After(h, UpdateService(h, url, auth, name)))
  {
  }

  lemma UpgradeServiceOk(h: Holder, reqName: string, token: string)
    requires ServiceOk(h)
    ensures ServiceOk(After(h, ServiceOp(h, Upgrade(reqName, token))))
  {
    EmptyPoolOk();
    OpKeepsPoolOk(map[], PoolOp.Append([token]));
    if !h.multi && UpgradeQuery(h, reqName).Ok? { UpgradeQueryOk(h, reqName); }
  }

  lemma ServiceOpOk(h: Holder, op: Op)
    requires ServiceOk(h)
    ensures ServiceOk(After(h, ServiceOp(h, op)))
  {
    match op
    case Update(url, auth, name) => UpdateServiceOk(h, url, auth, name);
    case Upgrade(reqName, token) => UpgradeServiceOk(h, reqName, token);
    case ToSingle => if h.multi && Downgrade(h).Ok? { DowngradeOk(h); }
    case Keys(p) =>
      if h.multi { OpKeepsPoolOk(h.pool, p); } else if !p.Append? && !p.Replace? { assert ApplyOp(map[], p) == map[]; }
  }

  lemma UpdateItemOk(h: Holder, url: Maybe<Url>, name: Maybe<string>)
    requires ItemOk(h)
    ensures ItemOk(After(h, UpdateItem(h, url, name)))
  {
  }

  lemma UpgradeItemOk(h: Holder, reqName: string, token: string)
    requires ItemOk(h)
    ensures ItemOk(After(h, ItemOp(h, Upgrade(reqName, token))))
  {
    EmptyPoolOk();
    OpKeepsPoolOk(map[], PoolOp.Append([token]));
    if !h.multi && UpgradeQuery(h, reqName).Ok? { UpgradeQueryOk(h, reqName); }
  }

  lemma ItemOpOk(h: Holder, op: Op)
    requires ItemOk(h)
    ensures ItemOk(After(h, ItemOp(h, op)))
  {
    match op
    case Update(url, _, name) => UpdateItemOk(h, url, name);
    case Upgrade(reqName, token) => UpgradeItemOk(h, reqName, token);
    case ToSingle => if h.multi && Downgrade(h).Ok? { DowngradeOk(h); }
    case Keys(p) =>
      if h.multi { OpKeepsPoolOk(h.pool, p); } else if !p.Append? && !p.Replace? { assert ApplyOp(map[], p) == map[]; }
  }

  /** Create, whatever the authentication. In multi mode with a header the pool takes the
      values as normalised for the scheme; the parameter name is removed. */
  function CreateService(auth: Auth, url: Url, name: string, multi: bool, keys: seq<string>, bare: seq<string>)
    : Res<Holder>
  {
    if auth.ByQuery? then Create(url, name, multi, keys)
    else if !multi then Ok(Holder(auth, name, false, url, map[]))
    else if auth.NoAuth? then Err(WrongAuthType)
    else
      match CleanKeyValues(keys)
      case KeyTooLong => Err(PoolRefused)
      case Clean(vs) =>
        if vs == [] then Err(EmptyPool)
        else
          match AppendKeys(map[], bare)
          case Done(p, _) => Ok(Holder(auth, "", true, url, p))
          case _ => Err(PoolRefused)
  }

  lemma CreateServiceOk(auth: Auth, url: Url, name: string, multi: bool, keys: seq<string>, bare: seq<string>)
    requires CreateService(auth, url, name, multi, keys, bare).Ok?
    ensures ServiceOk(CreateService(auth, url, name, multi, keys, bare).value)
  {
    if auth.ByQuery? {
      CreateOk(url, name, multi, keys);
    } else if multi {
      EmptyPoolOk();
      AppendAdds(map[], bare);
    }
  }

  lemma {:induction false} RunServiceOk(h: Holder, ops: seq<Op>)
    requires ServiceOk(h)
    ensures ServiceOk(RunService(h, ops))
  {
    if ops != [] {
      RunServiceOk(h, ops[..|ops| - 1]);
      ServiceOpOk(RunService(h, ops[..|ops| - 1]), ops[|ops| - 1]);
    }
  }

  /** Every reachable service with URL authentication, however it was created and whenever it
      came to that authentication, keeps its credential in one place: in single mode exactly
      one non-blank URL parameter and no pool; in multi mode no such parameter and a pool of
      distinct non-blank values. */
  lemma CredentialsStayInOnePlace(auth: Auth, url: Url, name: string, multi: bool, keys: seq<string>, bare: seq<string>,
                                  ops: seq<Op>)
    requires CreateService(auth, url, name, multi, keys, bare).Ok?
    ensures var h := RunService(CreateService(auth, url, name, multi, keys, bare).value, ops);
            && ServiceOk(h)
            && (h.auth.ByQuery? && !h.multi ==>
                  |Values(h.url, h.name)| == 1 && !Blank(Values(h.url, h.name)[0]) && h.pool == map[])
            && (h.auth.ByQuery? && h.multi ==> !Has(h.url, h.name) && PoolOk(h.pool))
  {
    CreateServiceOk(auth, url, name, multi, keys, bare);
    RunServiceOk(CreateService(auth, url, name, multi, keys, bare).value, ops);
  }

  lemma CloneOk(h: Holder)
    requires ServiceOk(h) && Clone(h).Ok?
    ensures ItemOk(Clone(h).value)
  {
    EmptyPoolOk();
    OpKeepsPoolOk(map[], Replace(Listed(h.pool)));
  }

  /** The same for every item cloned from such a service. */
  lemma {:induction false} ItemCredentialsStayInOnePlace(h: Holder, ops: seq<Op>)
    requires ServiceOk(h) && Clone(h).Ok?
    ensures var it := RunItem(Clone(h).value, ops);
            && ItemOk(it)
            && (it.name != "" && !it.multi ==>
                  |Values(it.url, it.name)| == 1 && !Blank(Values(it.url, it.name)[0]) && it.pool == map[])
            && (it.name != "" && it.multi ==> !Has(it.url, it.name) && PoolOk(it.pool))
  {
    if ops == [] {
      CloneOk(h);
    } else {
      ItemCredentialsStayInOnePlace(h, ops[..|ops| - 1]);
      ItemOpOk(RunItem(Clone(h).value, ops[..|ops| - 1]), ops[|ops| - 1]);
    }
  }

  // ------------------------------------------------------------- there and back

  /** To multi mode, any pool changes that spare the first key, and back: the URL is exactly
      what it was, and so is a service that used URL authentication before. */
  lemma UpgradeThenDowngrade(h: Holder, reqName: string, ops: seq<PoolOp>)
    requires ServiceOk(h) && !h.multi && UpgradeService(h, reqName).Ok?
    requires forall op :: op in ops ==> SparesFirst(op)
    ensures var up := UpgradeService(h, reqName).value;
            Downgrade(up.(pool := Changed(up.pool, ops))) == Ok(h.(auth := ByQuery, name := up.name))
  {
    var up := UpgradeService(h, reqName).value;
    UpgradeQueryOk(h, reqName);
    FirstKeyStays(up.pool, ops);
    TakeThenPut(h.url, up.name);
  }

  lemma ItemUpgradeThenDowngrade(h: Holder, reqName: string, ops: seq<PoolOp>)
    requires ItemOk(h) && !h.multi && UpgradeItem(h, reqName).Ok?
    requires forall op :: op in ops ==> SparesFirst(op)
    ensures var up := UpgradeItem(h, reqName).value;
            Downgrade(up.(pool := Changed(up.pool, ops))) == Ok(h.(name := up.name))
  {
    var up := UpgradeItem(h, reqName).value;
    UpgradeQueryOk(h, reqName);
    FirstKeyStays(up.pool, ops);
    TakeThenPut(h.url, up.name);
  }

  function KeyOps(ops: seq<PoolOp>): (r: seq<Op>)
    ensures |r| == |ops|
  {
    if ops == [] then [] else KeyOps(ops[..|ops| - 1]) + [Keys(ops[|ops| - 1])]
  }

  lemma RunServiceStep(h: Holder, ops: seq<Op>, op: Op)
    ensures RunService(h, ops + [op]) == After(RunService(h, ops), ServiceOp(RunService(h, ops), op))
    ensures RunItem(h, ops + [op]) == After(RunItem(h, ops), ItemOp(RunItem(h, ops), op))
  {
  }

  lemma {:induction false} RunPoolOps(h: Holder, before: seq<Op>, ops: seq<PoolOp>)
    ensures var up := RunService(h, before);
            up.multi ==> RunService(h, before + KeyOps(ops)) == up.(pool := Changed(up.pool, ops))
    ensures var up := RunItem(h, before);
            up.multi ==> RunItem(h, before + KeyOps(ops)) == up.(pool := Changed(up.pool, ops))
  {
    if ops == [] {
      assert before + [] == before;
    } else {
      var most, last := ops[..|ops| - 1], Keys(ops[|ops| - 1]);
      RunPoolOps(h, before, most);
      RunServiceStep(h, before + KeyOps(most), last);
      assert before + KeyOps(ops) == before + KeyOps(most) + [last];
    }
  }

  lemma FirstServiceOp(h: Holder, op: Op, ops: seq<PoolOp>)
    requires After(h, ServiceOp(h, op)).multi
    ensures var up := After(h, ServiceOp(h, op));
            var changed := up.(pool := Changed(up.pool, ops));
            RunService(h, [op] + KeyOps(ops) + [ToSingle]) == After(changed, Downgrade(changed))
  {
    RunServiceStep(h, [], op);
    assert [] + [op] == [op];
    RunPoolOps(h, [op], ops);
    RunServiceStep(h, [op] + KeyOps(ops), ToSingle);
  }

  lemma FirstItemOp(h: Holder, op: Op, ops: seq<PoolOp>)
    requires After(h, ItemOp(h, op)).multi
    ensures var up := After(h, ItemOp(h, op));
            var changed := up.(pool := Changed(up.pool, ops));
            RunItem(h, [op] + KeyOps(ops) + [ToSingle]) == After(changed, Downgrade(changed))
  {
    RunServiceStep(h, [], op);
    assert [] + [op] == [op];
    RunPoolOps(h, [op], ops);
    RunServiceStep(h, [op] + KeyOps(ops), ToSingle);
  }

  /** The way there and back as a run of operations, on a service and on an item. */
  lemma RunThereAndBack(h: Holder, reqName: string, token: string, ops: seq<PoolOp>)
    requires ServiceOk(h) && !h.multi && (reqName != "" || h.auth.ByQuery?) && UpgradeService(h, reqName).Ok?
    requires forall op :: op in ops ==> SparesFirst(op)
    ensures RunService(h, [Upgrade(reqName, token)] + KeyOps(ops) + [ToSingle])
         == h.(auth := ByQuery, name := if reqName == "" then h.name else reqName)
  {
    UpgradeThenDowngrade(h, reqName, ops);
    FirstServiceOp(h, Upgrade(reqName, token), ops);
  }

  lemma ItemRunThereAndBack(h: Holder, reqName: string, token: string, ops: seq<PoolOp>)
    requires ItemOk(h) && !h.multi && (reqName != "" || h.name != "") && UpgradeItem(h, reqName).Ok?
    requires forall op :: op in ops ==> SparesFirst(op)
    ensures RunItem(h, [Upgrade(reqName, token)] + KeyOps(ops) + [ToSingle])
         == h.(name := if reqName == "" then h.name else reqName)
  {
    ItemUpgradeThenDowngrade(h, reqName, ops);
    FirstItemOp(h, Upgrade(reqName, token), ops);
  }

  // ------------------------------------------------- what a save does to the credential

  /** The URL carries exactly one value under this name, and it is not blank. */
  ghost predicate OneCredential(u: Url, name: string) {
    u.Good? && name in u.query && |u.query[name]| == 1 && !Blank(u.query[name][0])
  }

  lemma TakeIff(u: Url, name: string)
    ensures Take(u, name).Ok? <==> ValidName(name) && OneCredential(u, name)
    ensures Take(u, name).Ok? ==> Take(u, name).value == Taken(Good(u.base, u.query - {name}), u.query[name][0])
  {
  }

  lemma PutIff(u: Url, name: string, v: string)
    ensures Put(u, name, v)
         == if !ValidName(name) then Err(BadName) else if !u.Good? then Err(BadUrl)
            else Ok(Good(u.base, u.query[name := [v]]))
  {
  }

  lemma MaskNotBlank(v: string)
    ensures !Blank(MaskSecret(v))
  {
    var m := MaskSecret(v);
    if Blank(m) { BlankHasNoDot(m, if |v| < 10 then 0 else 4); }
  }

  /** A string with a character that is no space is not blank. */
  lemma {:induction false} BlankHasNoDot(s: string, i: nat)
    requires i < |s| && !IsSpace(s[i])
    ensures !Blank(s)
    decreases |s|
  {
    if IsSpace(s[0]) { BlankHasNoDot(s[1..], i - 1); } else { TrimRightKeepsFirst(s); }
  }

  lemma {:induction false} TrimRightKeepsFirst(s: string)
    requires s != "" && !IsSpace(s[0])
    ensures TrimRight(s) != ""
  {
    if IsSpace(s[|s| - 1]) { TrimRightKeepsFirst(s[..|s| - 1]); }
  }

  /** The URL that is stored when u is submitted: where the mask of the stored credential came
      back the credential stands, and any other value stands as it is. */
  function Unmasked(u: Url, name: string, stored: string): Url
    requires u.Good? && name in u.query && |u.query[name]| == 1
  {
    Good(u.base, u.query[name := [if u.query[name][0] == MaskSecret(stored) then stored else u.query[name][0]]])
  }

  lemma MergedUrl(u: Url, h: Holder)
    requires OneCredential(h.url, h.name)
    ensures OneCredential(u, h.name) ==> MergeUrl(u, h.url, h.name) == Unmasked(u, h.name, h.url.query[h.name][0])
    ensures OneCredential(u, h.name) <==> OneCredential(MergeUrl(u, h.url, h.name), h.name)
  {
    if u.Good? && |Values(u, h.name)| == 1 {
      MaskNotBlank(h.url.query[h.name][0]);
      if u.query[h.name][0] != MaskSecret(h.url.query[h.name][0]) {
        assert u.query[h.name := [u.query[h.name][0]]] == u.query by { assert [u.query[h.name][0]] == u.query[h.name]; }
      }
    }
  }

  /** Saving a URL of a service in single mode: accepted exactly if it carries one non-blank
      credential; an echoed mask leaves the stored credential, and anything else replaces it. */
  lemma SavedUrl(h: Holder, u: Url)
    requires ServiceOk(h) && h.auth.ByQuery? && !h.multi
    ensures OneCredential(h.url, h.name)
    ensures UpdateService(h, Just(u), Nothing, Nothing).Ok? <==> OneCredential(u, h.name)
    ensures OneCredential(u, h.name) ==>
              UpdateService(h, Just(u), Nothing, Nothing)
              == Ok(h.(url := Unmasked(u, h.name, h.url.query[h.name][0])))
  {
    TakeIff(h.url, h.name);
    MergedUrl(u, h);
    TakeIff(MergeUrl(u, h.url, h.name), h.name);
  }

  lemma SavedItemUrl(h: Holder, u: Url)
    requires ItemOk(h) && h.name != "" && !h.multi
    ensures OneCredential(h.url, h.name)
    ensures UpdateItem(h, Just(u), Nothing).Ok? <==> OneCredential(u, h.name)
    ensures OneCredential(u, h.name) ==>
              UpdateItem(h, Just(u), Nothing) == Ok(h.(url := Unmasked(u, h.name, h.url.query[h.name][0])))
  {
    TakeIff(h.url, h.name);
    MergedUrl(u, h);
    TakeIff(MergeUrl(u, h.url, h.name), h.name);
  }

  lemma MaskedUrl(u: Url, name: string)
    requires OneCredential(u, name)
    ensures var m := MaskUrl(u, name);
            && m == Good(u.base, u.query[name := [MaskSecret(u.query[name][0])]])
            && OneCredential(m, name) && Unmasked(m, name, u.query[name][0]) == u
  {
    var v := u.query[name][0];
    MaskNotBlank(v);
    var m := MaskUrl(u, name);
    assert m.query[name] == [MaskSecret(v)];
    assert m.query[name := [v]] == u.query by { assert [v] == u.query[name]; }
  }

  /** A client that saves the masked URL it was shown changes nothing. */
  lemma EchoedUrlChangesNothing(h: Holder)
    requires !h.multi
    ensures ServiceOk(h) && h.auth.ByQuery? ==>
              UpdateService(h, Just(MaskUrl(h.url, h.name)), Nothing, Nothing) == Ok(h)
    ensures ItemOk(h) && h.name != "" ==> UpdateItem(h, Just(MaskUrl(h.url, h.name)), Nothing) == Ok(h)
  {
    if ServiceOk(h) && h.auth.ByQuery? {
      SavedUrl(h, MaskUrl(h.url, h.name));
      MaskedUrl(h.url, h.name);
    }
    if ItemOk(h) && h.name != "" {
      SavedItemUrl(h, MaskUrl(h.url, h.name));
      MaskedUrl(h.url, h.name);
    }
  }

  /** A rename to a free valid name, with the masked URL echoed or none sent: the stored
      credential stands under the new name and nothing else changes. */
  lemma RenamedUnderMask(h: Holder, n: string, sent: bool)
    requires !h.multi && ValidName(n) && n != h.name && Values(h.url, n) == []
    requires h.url.Good? ==> n !in h.url.query
    ensures var url := if sent then Just(MaskUrl(h.url, h.name)) else Nothing;
            && (ServiceOk(h) && h.auth.ByQuery? ==>
                  && OneCredential(h.url, h.name)
                  && UpdateService(h, url, Nothing, Just(n))
                     == Ok(h.(name := n,
                              url := Good(h.url.base, h.url.query[n := h.url.query[h.name]] - {h.name}))))
            && (ItemOk(h) && h.name != "" ==>
                  && OneCredential(h.url, h.name)
                  && UpdateItem(h, url, Just(n))
                     == Ok(h.(name := n,
                              url := Good(h.url.base, h.url.query[n := h.url.query[h.name]] - {h.name}))))
  {
    TakeIff(h.url, h.name);
    if OneCredential(h.url, h.name) {
      MaskedUrl(h.url, h.name);
      MergedUrl(MaskUrl(h.url, h.name), h);
      var v := h.url.query[h.name][0];
      assert [v] == h.url.query[h.name];
      TakeIff(Good(h.url.base, h.url.query[n := [v]] - {h.name}), n);
    }
  }

  /** With a key pool a submitted URL is accepted exactly if it does not carry the parameter,
      and a name or another authentication is refused. */
  lemma SavedWithPool(h: Holder, u: Url, n: string, a: Auth)
    requires ServiceOk(h) && h.auth.ByQuery? && h.multi
    ensures UpdateService(h, Just(u), Nothing, Nothing)
         == if u.Good? && h.name in u.query && u.query[h.name] != [] then Err(StillInUrl) else Ok(h.(url := u))
    ensures UpdateService(h, Nothing, Nothing, Just(n)) == Err(NameFixed)
    ensures UpdateService(h, Nothing, Just(a), Nothing) == if a == ByQuery then Ok(h) else Err(WrongAuthType)
  {
  }

  /** Changing the authentication in single mode: leaving URL authentication takes the credential
      out of the URL; taking it up demands a valid name under which the URL has a credential. */
  lemma ChangedAuth(h: Holder, a: Auth, n: string, u: Url)
    requires ServiceOk(h) && !h.multi
    ensures h.auth.ByQuery? && a != ByQuery ==>
              && h.url.Good?
              && UpdateService(h, Nothing, Just(a), Nothing)
                 == Ok(h.(auth := a, url := Good(h.url.base, h.url.query - {h.name})))
    ensures !h.auth.ByQuery? && a != ByQuery ==>
              && UpdateService(h, Nothing, Just(a), Just(n)) == Ok(h.(auth := a, name := n))
              && UpdateService(h, Just(u), Nothing, Nothing) == Ok(h.(url := u))
    ensures !h.auth.ByQuery? ==>
              var r := UpdateService(h, Nothing, Just(ByQuery), Just(n));
              && (r.Ok? <==> ValidName(n) && OneCredential(h.url, n))
              && (r.Ok? ==> r.value == h.(auth := ByQuery, name := n))
  {
    TakeIff(h.url, h.name);
    TakeIff(h.url, n);
  }

  /** An item takes up URL authentication by naming a parameter under which its URL has a
      credential, keeps it when the same name is sent, and leaves it with the empty name. */
  lemma ChangedItemName(h: Holder, n: string, u: Url)
    requires ItemOk(h) && !h.multi
    ensures h.name == "" ==> UpdateItem(h, Just(u), Nothing) == Ok(h.(url := u))
    ensures n != "" && h.name == "" ==>
              var r := UpdateItem(h, Nothing, Just(n));
              && (r.Ok? <==> ValidName(n) && OneCredential(h.url, n))
              && (r.Ok? ==> r.value == h.(name := n))
    ensures h.name != "" ==> UpdateItem(h, Nothing, Just(h.name)) == Ok(h)
    ensures h.name != "" ==>
              h.url.Good? && UpdateItem(h, Nothing, Just("")) ==
                             Ok(h.(name := "", url := Good(h.url.base, h.url.query - {h.name})))
    ensures n != "" && !ValidName(n) ==> UpdateItem(h, Nothing, Just(n)) == Err(BadName)
  {
    TakeIff(h.url, h.name);
    TakeIff(h.url, n);
  }

  /** The same on an item with a key pool: its URL must not carry the parameter. */
  lemma SavedItemWithPool(h: Holder, u: Url, n: string)
    requires ItemOk(h) && h.multi && h.name != ""
    ensures UpdateItem(h, Just(u), Nothing)
         == if u.Good? && h.name in u.query && u.query[h.name] != [] then Err(StillInUrl) else Ok(h.(url := u))
    ensures UpdateItem(h, Nothing, Just(n)) == Err(NameFixed)
  {
  }

  /** Who can go over to a key pool, and what the row is then. */
  lemma UpgradedIff(h: Holder, reqName: string)
    requires !h.multi
    ensures var n, r := if reqName == "" then h.name else reqName, UpgradeService(h, reqName);
            && (r.Ok? <==> !h.auth.ByHeader? && ValidName(n) && OneCredential(h.url, n))
            && (r.Ok? ==> r.value == Holder(ByQuery, n, true, Good(h.url.base, h.url.query - {n}),
                                            map[1 := KeyRow(h.url.query[n][0], true, "")]))
    ensures var n, r := if reqName == "" then h.name else reqName, UpgradeItem(h, reqName);
            && (r.Ok? <==> ValidName(n) && OneCredential(h.url, n))
            && (r.Ok? ==> r.value == Holder(h.auth, n, true, Good(h.url.base, h.url.query - {n}),
                                            map[1 := KeyRow(h.url.query[n][0], true, "")]))
  {
    TakeIff(h.url, if reqName == "" then h.name else reqName);
  }

  /** A row that has a key pool already keeps it, unless another parameter name is asked for or
      it has none; a row in single mode is in single mode already. */
  lemma NothingToChange(h: Holder, reqName: string)
    ensures h.multi ==>
              UpgradeService(h, reqName) == UpgradeItem(h, reqName)
                == if h.name != "" && (reqName == "" || reqName == h.name) then Ok(h) else Err(NameFixed)
    ensures !h.multi ==> Downgrade(h) == Ok(h)
  {
  }

  /** In header form, with no parameter name asked for, the trimmed token starts the pool. */
  lemma UpgradedHeader(h: Holder, token: string)
    requires h.auth.ByHeader? && KeyLike(token)
    ensures ServiceOp(h, Upgrade("", token))
         == Ok(if h.multi then h else h.(multi := true, name := "", pool := map[1 := KeyRow(token, true, "")]))
  {
    if !h.multi { OneRow(token); }
  }

  lemma OneRow(v: string)
    requires KeyLike(v)
    ensures ApplyOp(map[], PoolOp.Append([v])) == map[1 := KeyRow(v, true, "")]
  {
    assert forall w :: w in [v] ==> w == v;
    AppendedToNone([v]);
    assert RowsFrom(1, [v]) == map[1 := KeyRow(v, true, "")];
  }

  /** Who can go back to single mode, and with which value. */
  lemma DowngradedIff(h: Holder)
    requires h.multi && PoolOk(h.pool) && (h.name != "" ==> ValidName(h.name))
    ensures Downgrade(h).Ok? <==> h.name == "" || (h.pool != map[] && h.url.Good?)
    ensures Downgrade(h).Ok? ==>
              Downgrade(h).value == h.(multi := false, pool := map[],
                                       url := if h.name == "" then h.url
                                              else Good(h.url.base, h.url.query[h.name := [Pick(h.pool)]]))
  {
    if h.pool != map[] {
      assert h.pool.Keys != {};
      var k := PickedRow(h.pool);
      BlankEmpty();
    }
  }

  /** Which URLs a service with URL authentication can be created with. */
  lemma CreatedSingle(url: Url, name: string, keys: seq<string>)
    ensures Create(url, name, false, keys)
         == if !ValidName(name) then Err(BadName)
            else if url.Bad? then Err(BadUrl)
            else if !OneCredential(url, name) then Err(NotExactlyOne)
            else Ok(Holder(ByQuery, name, false, url, map[]))
  {
    TakeIff(url, name);
  }

  /** In multi mode the URL's credential, if any, leads the submitted keys; the pool holds the
      cleaned list, of which there must be one to a hundred. */
  lemma CreatedWithPool(url: Url, name: string, keys: seq<string>)
    ensures !ValidName(name) ==> Create(url, name, true, keys) == Err(BadName)
    ensures ValidName(name) && url.Bad? ==> Create(url, name, true, keys) == Err(BadUrl)
    ensures ValidName(name) && url.Good? ==>
            if !Has(url, name) then Create(url, name, true, keys) == Pooled(url, name, [] + keys)
            else if OneCredential(url, name) then
              Create(url, name, true, keys)
              == Pooled(Good(url.base, url.query - {name}), name, [url.query[name][0]] + keys)
            else Create(url, name, true, keys) == Err(NotExactlyOne)
  {
    TakeIff(url, name);
  }

  lemma PooledIff(url: Url, name: string, keys: seq<string>)
    ensures match CleanKeyValues(keys)
            case KeyTooLong => Pooled(url, name, keys) == Err(PoolRefused)
            case Clean(vs) =>
              Pooled(url, name, keys)
              == if vs == [] then Err(EmptyPool)
                 else if |vs| > 100 then Err(PoolRefused)
                 else Ok(Holder(ByQuery, name, true, url, RowsFrom(1, vs)))
  {
    CleanedValues(keys);
    if CleanKeyValues(keys).Clean? { AppendedToNone(CleanKeyValues(keys).values); }
  }

  lemma AppendedToNone(vs: seq<string>)
    requires KeyPool.Distinct(vs) && forall v :: v in vs ==> KeyLike(v)
    ensures AppendKeys(map[], vs)
         == if vs == [] then Done(map[], 0) else if |vs| > MAX_KEYS then TooMany else Done(RowsFrom(1, vs), |vs|)
  {
    CleaningIsStable(vs);
    NothingMissing(vs);
    assert map[] + RowsFrom(1, vs) == RowsFrom(1, vs);
  }

  lemma {:induction false} NothingMissing(vs: seq<string>)
    ensures Missing(map[], vs) == vs
  {
    if vs != [] {
      NothingMissing(vs[..|vs| - 1]);
      assert vs == vs[..|vs| - 1] + [vs[|vs| - 1]];
    }
  }

  /** A service in single mode is cloned with its URL as it is. */
  lemma ClonedIff(h: Holder)
    requires ServiceOk(h)
    ensures !h.multi ==> Clone(h) == Ok(Holder(NoAuth, if h.auth.ByQuery? then h.name else "", false, h.url, map[]))
    ensures h.multi ==>
              Clone(h) == Ok(Holder(NoAuth, h.name, true, h.url, ApplyOp(map[], Replace(Listed(h.pool)))))
  {
  }

  // ---------------------------------------------------------------- rows in place

  /** One service row and its pool. */
  class ServiceRow {
    var auth: Auth
    var name: string
    var multi: bool
    var url: Url
    var pool: Pool

    function State(): Holder
      reads this
    {
      Holder(auth, name, multi, url, pool)
    }

    constructor (h: Holder)
      ensures State() == h
    {
      auth, name, multi, url, pool := h.auth, h.name, h.multi, h.url, h.pool;
    }

    /** upgradeToMultiQueryKey. */
    method UpgradeToMultiQueryKey(reqName: string) returns (r: Res<()>)
      modifies this
      ensures var s := UpgradeService(old(State()), reqName);
              && State() == After(old(State()), s)
              && r == (if s.Ok? then Ok(()) else Err(s.error))
      ensures old(ServiceOk(State())) ==> ServiceOk(State())
    {
      ghost var h := State();
      if ServiceOk(h) && UpgradeService(h, reqName).Ok? && !multi { UpgradeQueryOk(h, reqName); }
      if multi {
        if name == "" || (reqName != "" && reqName != name) { return Err(NameFixed); }
        return Ok(());
      }
      if auth != NoAuth && auth != ByQuery { return Err(WrongAuthType); }
      var param := reqName;
      if param == "" { param := name; }
      var taken := Take(url, param);
      if taken.Err? { return Err(taken.error); }
      url := taken.value.rest;
      auth, name, multi := ByQuery, param, true;
      pool := map[1 := KeyRow(taken.value.value, true, "")];
      return Ok(());
    }

    /** downgradeToSingleKey. */
    method DowngradeToSingleKey() returns (r: Res<()>)
      modifies this
      ensures var s := Downgrade(old(State()));
              && State() == After(old(State()), s)
              && r == (if s.Ok? then Ok(()) else Err(s.error))
      ensures old(ServiceOk(State())) ==> ServiceOk(State())
    {
      ghost var h := State();
      if ServiceOk(h) && h.multi && Downgrade(h).Ok? { DowngradeOk(h); }
      if !multi { return Ok(()); }
      if name != "" {
        var pick := Pick(pool);
        if pick == "" { return Err(EmptyPool); }
        var updated := Put(url, name, pick);
        if updated.Err? { return Err(updated.error); }
        url := updated.value;
      }
      multi := false;
      pool := map[];
      return Ok(());
    }

    /** The URL checked to hold the credential under the new name, or none with a key pool. */
    method Place(u: Url, oldName: string, n: string) returns (r: Res<Url>)
      ensures r == PlacedCredential(multi, u, oldName, n)
    {
      var placed := u;
      if !multi && oldName != "" && oldName != n {
        var renamed := Rename(u, oldName, n);
        if renamed.Err? { return Err(renamed.error); }
        placed := renamed.value;
      }
      if multi {
        if Has(placed, n) { return Err(StillInUrl); }
      } else {
        var taken := Take(placed, n);
        if taken.Err? { return Err(taken.error); }
      }
      return Ok(placed);
    }

    /** The authentication part of update. */
    method UpdateAuth(newUrl: Maybe<Url>, newAuth: Maybe<Auth>, newName: Maybe<string>) returns (r: Res<()>)
      modifies this
      ensures var s := UpdateService(old(State()), newUrl, newAuth, newName);
              && State() == After(old(State()), s)
              && r == (if s.Ok? then Ok(()) else Err(s.error))
      ensures old(ServiceOk(State())) ==> ServiceOk(State())
    {
      if ServiceOk(State()) { UpdateServiceOk(State(), newUrl, newAuth, newName); }
      if multi {
        if newAuth.Just? && newAuth.value != auth { return Err(WrongAuthType); }
        if newName.Just? { return Err(NameFixed); }
      }
      var oldName := "";
      if auth == ByQuery { oldName := name; }
      var u, a, n := url, auth, name;
      if newUrl.Just? {
        u := newUrl.value;
        if oldName != "" { u := MergeUrl(u, url, oldName); }
      }
      if newAuth.Just? { a := newAuth.value; }
      if newName.Just? { n := newName.value; }
      if oldName != "" && a != ByQuery { u := Drop(u, oldName); }
      if a == ByQuery {
        if !ValidName(n) { return Err(BadName); }
        var placed := Place(u, oldName, n);
        if placed.Err? { return Err(placed.error); }
        u := placed.value;
      }
      url, auth, name := u, a, n;
      return Ok(());
    }
  }
}
