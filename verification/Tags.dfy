/**
 The tag dictionary and the tags of the marketplace items, which refer to it by name. Each
 service call is one step; only live items take part.
 */
module Tags {
  import opened Text
  import opened TagStrings
  import opened Sets

  datatype Tag = Tag(name: string, enabled: bool)
  type Dictionary = map<int, Tag>
  datatype World = World(dict: Dictionary, items: map<int, string>)

  predicate Distinct(ws: seq<string>) { forall i, j :: 0 <= i < j < |ws| ==> ws[i] != ws[j] }

  predicate Enabled(d: Dictionary, w: string) { exists id :: id in d && d[id].enabled && d[id].name == w }

  predicate NameExists(d: Dictionary, name: string, except: int) {
    exists id :: id in d && id != except && d[id].name == name
  }

  // ----------------------------------------------------------- cleaning and checking

  /** cleanAndValidateTags, first half: trimmed, without blanks, each once. */
  function CleanTags(tags: seq<string>): seq<string> {
    if tags == [] then []
    else
      var r, t := CleanTags(tags[..|tags| - 1]), Trim(tags[|tags| - 1]);
      if t == "" || t in r then r else r + [t]
  }

  /** The rows CountEnabledTagsByNames counts. */
  function EnabledRows(d: Dictionary, names: seq<string>): set<int> {
    set id | id in d.Keys && d[id].enabled && d[id].name in names
  }

  predicate UniqueNames(d: Dictionary) { forall i, j :: i in d && j in d && i != j ==> d[i].name != d[j].name }

  lemma {:induction false} CleanedTags(tags: seq<string>)
    ensures Distinct(CleanTags(tags))
    ensures forall t :: t in CleanTags(tags) ==> t != "" && Trim(t) == t
    ensures forall t :: t in CleanTags(tags) <==> t != "" && exists u :: u in tags && t == Trim(u)
  {
    if tags != [] {
      var before, last := tags[..|tags| - 1], tags[|tags| - 1];
      CleanedTags(before);
      TrimYieldsTrimmed(last);
      TrimYieldsTrimmed(Trim(last));
      assert tags == before + [last];
    }
  }

  lemma OneMoreName(d: Dictionary, names: seq<string>, last: string)
    requires UniqueNames(d) && last !in names
    ensures |EnabledRows(d, names + [last])| == |EnabledRows(d, names)| + if Enabled(d, last) then 1 else 0
  {
    var rows, rows' := EnabledRows(d, names), EnabledRows(d, names + [last]);
    if Enabled(d, last) {
      var id :| id in d && d[id].enabled && d[id].name == last;
      forall x ensures x in rows' <==> x in rows || x == id {}
      assert rows' == rows + {id};
    } else {
      forall x ensures x in rows' <==> x in rows {
        if x in rows' { assert d[x].name != last; }
      }
      assert rows' == rows;
    }
  }

  /** Comparing the count with the number of names is a sound and complete check, thanks to
      the unique index on names. */
  lemma {:induction false} CountDecides(d: Dictionary, names: seq<string>)
    requires UniqueNames(d) && Distinct(names)
    ensures |EnabledRows(d, names)| <= |names|
    ensures |EnabledRows(d, names)| == |names| <==> forall n :: n in names ==> Enabled(d, n)
  {
    if names == [] {
      assert EnabledRows(d, names) == {};
    } else {
      var before, last := names[..|names| - 1], names[|names| - 1];
      CountDecides(d, before);
      assert names == before + [last] && last !in before;
      OneMoreName(d, before, last);
      assert forall n :: n in names <==> n in before || n == last;
    }
  }

  /** Every tag but the blank ones is, trimmed, the name of an enabled entry. */
  ghost predicate AllInDictionary(d: Dictionary, tags: seq<string>) {
    forall t :: t in tags && Trim(t) != "" ==> exists id :: id in d && d[id].enabled && d[id].name == Trim(t)
  }

  lemma AllEnabledIff(d: Dictionary, tags: seq<string>)
    ensures (forall t :: t in CleanTags(tags) ==> Enabled(d, t)) <==> AllInDictionary(d, tags)
  {
    CleanedTags(tags);
    forall t | t in tags && Trim(t) != "" ensures Trim(t) in CleanTags(tags) {}
    if forall t :: t in CleanTags(tags) ==> Enabled(d, t) {
      forall t | t in tags && Trim(t) != "" ensures exists id :: id in d && d[id].enabled && d[id].name == Trim(t) {
        assert Enabled(d, Trim(t));
      }
    }
  }

  /** A list that is clean already is stored in the order given. */
  lemma {:induction false} CleanListStays(tags: seq<string>)
    requires Distinct(tags) && forall t :: t in tags ==> t != "" && Trim(t) == t
    ensures CleanTags(tags) == tags
  {
    if tags != [] {
      var before := tags[..|tags| - 1];
      assert tags == before + [tags[|tags| - 1]];
      assert forall t :: t in before ==> t in tags;
      CleanListStays(before);
    }
  }

  // ------------------------------------------------------------ renaming and removing

  /** The new word list of one item: trimmed, old replaced, blanks and repetitions dropped. */
  function RenameWords(parts: seq<string>, from: string, to: string): seq<string> {
    if parts == [] then []
    else
      var r, q := RenameWords(parts[..|parts| - 1], from, to), Trim(parts[|parts| - 1]);
      var w := if q == from then to else q;
      if w == "" || w in r then r else r + [w]
  }

  lemma RenameSnoc(parts: seq<string>, i: nat, from: string, to: string)
    requires i < |parts|
    ensures var r, w := RenameWords(parts[..i], from, to), if Trim(parts[i]) == from then to else Trim(parts[i]);
            RenameWords(parts[..i + 1], from, to) == if w == "" || w in r then r else r + [w]
  {
    assert parts[..i + 1][..i] == parts[..i];
  }

  function RemoveWord(parts: seq<string>, name: string): seq<string> {
    if parts == [] then []
    else
      var r, q := RemoveWord(parts[..|parts| - 1], name), Trim(parts[|parts| - 1]);
      if q == name || q == "" then r else r + [q]
  }

  /** One of the words is, trimmed, the name. */
  predicate Names(parts: seq<string>, name: string) { exists p :: p in parts && Trim(p) == name }

  lemma NamesSnoc(parts: seq<string>, name: string, i: nat)
    requires i < |parts|
    ensures Names(parts[..i + 1], name) <==> Names(parts[..i], name) || Trim(parts[i]) == name
    ensures parts[..i + 1][..i] == parts[..i]
  {
    assert parts[..i + 1] == parts[..i] + [parts[i]];
  }

  predicate HasWord(tags: string, name: string) { Names(Split(tags), name) }

  /** marketplaceItemsContainingTag. */
  predicate Candidate(tags: string, name: string) { Like(tags, "%" + name + "%") }

  function RenamedTags(tags: string, from: string, to: string): string {
    if Candidate(tags, from) && HasWord(tags, from) then Join(RenameWords(Split(tags), from, to)) else tags
  }

  function RemovedTags(tags: string, name: string): string {
    if Candidate(tags, name) && HasWord(tags, name) then Join(RemoveWord(Split(tags), name)) else tags
  }

  /** The prefilter changes nothing: it only spares reading other rows. */
  lemma PrefilterIsTransparent(tags: string, name: string)
    ensures HasWord(tags, name) ==> Candidate(tags, name)
  {
    if HasWord(tags, name) {
      var p :| p in Split(tags) && Trim(p) == name;
      PrefilterMissesNothing(tags, p);
    }
  }

  /** An item is rewritten exactly if one of its words is the name; so the prefilter is a
      matter of speed only. */
  lemma RewrittenIff(tags: string, name: string, to: string)
    ensures var named := exists p :: p in Split(tags) && Trim(p) == name;
            && RenamedTags(tags, name, to) == (if named then Join(RenameWords(Split(tags), name, to)) else tags)
            && RemovedTags(tags, name) == (if named then Join(RemoveWord(Split(tags), name)) else tags)
  {
    PrefilterIsTransparent(tags, name);
  }

  /** Whatever the string looked like: after a rename no word is repeated or blank, and the
      words are the trimmed old ones with the one name exchanged. */
  lemma {:induction false} RenamedWordSet(parts: seq<string>, from: string, to: string)
    ensures Distinct(RenameWords(parts, from, to))
    ensures forall w :: w in RenameWords(parts, from, to)
              <==> w != "" && exists p :: p in parts && w == (if Trim(p) == from then to else Trim(p))
  {
    if parts != [] {
      var before, last := parts[..|parts| - 1], parts[|parts| - 1];
      RenamedWordSet(before, from, to);
      assert parts == before + [last];
    }
  }

  /** Likewise after a removal: the trimmed old words without the blank ones and the name. */
  lemma {:induction false} RemovedWordSet(parts: seq<string>, name: string)
    ensures forall w :: w in RemoveWord(parts, name)
              <==> w != "" && w != name && exists p :: p in parts && w == Trim(p)
  {
    if parts != [] {
      var before, last := parts[..|parts| - 1], parts[|parts| - 1];
      RemovedWordSet(before, name);
      assert parts == before + [last];
    }
  }

  function Subst(ws: seq<string>, from: string, to: string): seq<string> {
    seq(|ws|, i requires 0 <= i < |ws| => if ws[i] == from then to else ws[i])
  }

  function Without(ws: seq<string>, name: string): seq<string> {
    if ws == [] then []
    else
      var r, w := Without(ws[..|ws| - 1], name), ws[|ws| - 1];
      if w == name then r else r + [w]
  }

  /** A name that can be used without harm. */
  predicate Good(n: string) { n != "" && CommaFree(n) && Trim(n) == n }

  lemma {:induction false} RenameKeepsPlaces(ws: seq<string>, from: string, to: string)
    requires Distinct(ws) && Good(to) && to !in ws && forall w :: w in ws ==> Good(w)
    ensures RenameWords(ws, from, to) == Subst(ws, from, to)
    ensures Distinct(Subst(ws, from, to)) && forall w :: w in Subst(ws, from, to) ==> Good(w)
  {
    if ws != [] {
      var before, last := ws[..|ws| - 1], ws[|ws| - 1];
      assert ws == before + [last] && last !in before && last in ws;
      RenameKeepsPlaces(before, from, to);
      var w := if last == from then to else last;
      assert Subst(ws, from, to) == Subst(before, from, to) + [w];
      assert w !in Subst(before, from, to);
    }
  }

  lemma {:induction false} WithoutFacts(ws: seq<string>, name: string)
    requires Distinct(ws) && forall w :: w in ws ==> Good(w)
    ensures RemoveWord(ws, name) == Without(ws, name)
    ensures Distinct(Without(ws, name))
    ensures forall w :: w in Without(ws, name) <==> w in ws && w != name
  {
    if ws != [] {
      var before, last := ws[..|ws| - 1], ws[|ws| - 1];
      assert ws == before + [last] && last !in before && last in ws;
      WithoutFacts(before, name);
    }
  }

  /** Renaming exchanges whole words and keeps their order. */
  lemma RenamedWords(tags: string, from: string, to: string)
    requires Good(from) && Good(to) && to !in Words(tags)
    requires Distinct(Words(tags)) && forall w :: w in Words(tags) ==> Good(w)
    ensures Words(RenamedTags(tags, from, to)) == Subst(Words(tags), from, to)
  {
    var ws := Words(tags);
    PrefilterIsTransparent(tags, from);
    if tags == "" {
      assert forall p :: p in Split(tags) ==> p == "";
    } else {
      RenameKeepsPlaces(ws, from, to);
      if HasWord(tags, from) {
        WordsJoin(Subst(ws, from, to));
      } else {
        assert forall w :: w in ws ==> Trim(w) == w;
        assert from !in ws;
        assert Subst(ws, from, to) == ws;
      }
    }
  }

  lemma RemovedWords(tags: string, name: string)
    requires Good(name) && Distinct(Words(tags)) && forall w :: w in Words(tags) ==> Good(w)
    ensures Words(RemovedTags(tags, name)) == Without(Words(tags), name)
  {
    var ws := Words(tags);
    PrefilterIsTransparent(tags, name);
    if tags == "" {
      assert forall p :: p in Split(tags) ==> p == "";
    } else {
      WithoutFacts(ws, name);
      if HasWord(tags, name) {
        WordsJoin(Without(ws, name));
      } else {
        assert forall w :: w in ws ==> Trim(w) == w;
        NothingToRemove(ws, name);
      }
    }
  }

  lemma {:induction false} NothingToRemove(ws: seq<string>, name: string)
    requires name !in ws
    ensures Without(ws, name) == ws
  {
    if ws != [] { NothingToRemove(ws[..|ws| - 1], name); }
  }

  // --------------------------------------------------------------- the operations

  datatype Maybe<T> = Nothing | Just(value: T)

  datatype Op =
    | CreateTag(id: int, name: string, enabled: bool)
    | UpdateTag(id: int, newName: Maybe<string>, newEnabled: Maybe<bool>)
    | DeleteTag(id: int)
    | SetTags(ids: seq<int>, tags: seq<string>)    // one item, or a batch
    | AddItem(id: int)                             // a clone starts without tags
    | DropItem(id: int)

  function RenameAll(items: map<int, string>, from: string, to: string): map<int, string> {
    map i | i in items :: RenamedTags(items[i], from, to)
  }

  function RemoveAll(items: map<int, string>, name: string): map<int, string> {
    map i | i in items :: RemovedTags(items[i], name)
  }

  function Apply(w: World, op: Op): World {
    match op
    case CreateTag(id, name, on) =>
      if id in w.dict || NameExists(w.dict, name, id) then w else w.(dict := w.dict[id := Tag(name, on)])
    case UpdateTag(id, newName, newEnabled) =>
      if id !in w.dict || (newName.Just? && NameExists(w.dict, newName.value, id)) then w
      else
        var was := w.dict[id];
        var now := Tag(if newName.Just? then newName.value else was.name,
                       if newEnabled.Just? then newEnabled.value else was.enabled);
        var renamed := if now.name != was.name then RenameAll(w.items, was.name, now.name) else w.items;
        World(w.dict[id := now], if was.enabled && !now.enabled then RemoveAll(renamed, now.name) else renamed)
    case DeleteTag(id) =>
      if id !in w.dict then w else World(w.dict - {id}, RemoveAll(w.items, w.dict[id].name))
    case SetTags(ids, tags) =>
      var clean := CleanTags(tags);
      if |EnabledRows(w.dict, clean)| != |clean| then w
      else w.(items := map i | i in w.items :: if i in ids then Join(clean) else w.items[i])
    case AddItem(id) => if id in w.items then w else w.(items := w.items[id := ""])
    case DropItem(id) => w.(items := w.items - {id})
  }

  function Run(w: World, ops: seq<Op>): World {
    if ops == [] then w else Apply(Run(w, ops[..|ops| - 1]), ops[|ops| - 1])
  }

  /** A clone starts without tags, and a deleted item takes its tags along. */
  lemma ItemsComeAndGo(w: World, id: int)
    ensures Apply(w, AddItem(id)) == World(w.dict, if id in w.items then w.items else w.items[id := ""])
    ensures Apply(w, DropItem(id)) == World(w.dict, w.items - {id})
  {
  }

  predicate ItemOk(d: Dictionary, tags: string) {
    Distinct(Words(tags)) && forall w :: w in Words(tags) ==> Enabled(d, w)
  }

  /** Item tags are enabled dictionary names, none twice. */
  predicate Tagged(w: World) { forall i :: i in w.items ==> ItemOk(w.dict, w.items[i]) }

  predicate Inv(w: World) {
    && UniqueNames(w.dict)
    && (forall id :: id in w.dict ==> Good(w.dict[id].name))
    && Tagged(w)
  }

  predicate GoodOp(op: Op) {
    match op
    case CreateTag(_, name, _) => Good(name)
    case UpdateTag(_, newName, _) => newName.Just? ==> Good(newName.value)
    case _ => true
  }

  lemma WordsAreGood(d: Dictionary, tags: string)
    requires ItemOk(d, tags) && forall id :: id in d ==> Good(d[id].name)
    ensures forall w :: w in Words(tags) ==> Good(w)
  {
  }

  lemma ItemRenamed(d: Dictionary, id: int, now: Tag, tags: string)
    requires UniqueNames(d) && (forall i :: i in d ==> Good(d[i].name)) && ItemOk(d, tags)
    requires id in d && Good(now.name) && !NameExists(d, now.name, id)
    ensures var t := if now.name != d[id].name then RenamedTags(tags, d[id].name, now.name) else tags;
            && Distinct(Words(t))
            && (forall w :: w in Words(t) ==> Good(w))
            && (forall w :: w in Words(t) ==>
                  (w == now.name && d[id].enabled) || (w != now.name && Enabled(d - {id}, w)))
  {
    WordsAreGood(d, tags);
    var was := d[id].name;
    forall w | w in Words(tags)
      ensures (w == was && d[id].enabled) || (w != was && w != now.name && Enabled(d - {id}, w))
    {
      var i :| i in d && d[i].enabled && d[i].name == w;
      if i != id { assert i in d - {id} && (d - {id})[i].name == w; }
    }
    if now.name != was {
      RenamedWords(tags, was, now.name);
      RenameKeepsPlaces(Words(tags), was, now.name);
    }
  }

  lemma EnabledElsewhere(d: Dictionary, d': Dictionary, w: string)
    requires Enabled(d, w) && forall i :: i in d ==> i in d' && d'[i] == d[i]
    ensures Enabled(d', w)
  {
  }

  lemma UpdateKeepsItem(d: Dictionary, id: int, now: Tag, tags: string)
    requires UniqueNames(d) && (forall i :: i in d ==> Good(d[i].name)) && ItemOk(d, tags)
    requires id in d && Good(now.name) && !NameExists(d, now.name, id)
    ensures var t := if now.name != d[id].name then RenamedTags(tags, d[id].name, now.name) else tags;
            ItemOk(d[id := now], if d[id].enabled && !now.enabled then RemovedTags(t, now.name) else t)
  {
    ItemRenamed(d, id, now, tags);
    var t := if now.name != d[id].name then RenamedTags(tags, d[id].name, now.name) else tags;
    var d' := d[id := now];
    if d[id].enabled && !now.enabled {
      RemovedWords(t, now.name);
      WithoutFacts(Words(t), now.name);
    }
    forall w | w in Words(t) && (w != now.name || now.enabled) ensures Enabled(d', w) {
      if w == now.name {
        assert d'[id].name == w;
      } else {
        EnabledElsewhere(d - {id}, d', w);
      }
    }
  }

  lemma DeleteKeepsItem(d: Dictionary, id: int, tags: string)
    requires UniqueNames(d) && (forall i :: i in d ==> Good(d[i].name)) && ItemOk(d, tags) && id in d
    ensures ItemOk(d - {id}, RemovedTags(tags, d[id].name))
  {
    WordsAreGood(d, tags);
    RemovedWords(tags, d[id].name);
    WithoutFacts(Words(tags), d[id].name);
    forall w | w in Words(tags) && w != d[id].name ensures Enabled(d - {id}, w) {
      var i :| i in d && d[i].enabled && d[i].name == w;
      assert (d - {id})[i].name == w;
    }
  }

  lemma SetTagsOk(d: Dictionary, tags: seq<string>)
    requires UniqueNames(d) && (forall i :: i in d ==> Good(d[i].name))
    requires |EnabledRows(d, CleanTags(tags))| == |CleanTags(tags)|
    ensures ItemOk(d, Join(CleanTags(tags)))
    ensures Words(Join(CleanTags(tags))) == CleanTags(tags)
  {
    CleanedTags(tags);
    CountDecides(d, CleanTags(tags));
    WordsJoin(CleanTags(tags));
  }

  lemma ApplyKeepsTagged(w: World, op: Op)
    requires Inv(w) && GoodOp(op)
    ensures Tagged(Apply(w, op))
  {
    var w' := Apply(w, op);
    if w' != w {
      forall i | i in w'.items ensures ItemOk(w'.dict, w'.items[i]) {
        if i in w.items { assert ItemOk(w.dict, w.items[i]); }
        match op
        case CreateTag(id, _, _) =>
          forall t | t in Words(w.items[i]) ensures Enabled(w'.dict, t) { EnabledElsewhere(w.dict, w'.dict, t); }
        case UpdateTag(id, _, _) => UpdateKeepsItem(w.dict, id, w'.dict[id], w.items[i]);
        case DeleteTag(id) => DeleteKeepsItem(w.dict, id, w.items[i]);
        case SetTags(_, tags) => SetTagsOk(w.dict, tags);
        case AddItem(_) =>
        case DropItem(_) =>
      }
    }
  }

  lemma ApplyKeepsNames(w: World, op: Op)
    requires Inv(w) && GoodOp(op)
    ensures UniqueNames(Apply(w, op).dict)
    ensures forall id :: id in Apply(w, op).dict ==> Good(Apply(w, op).dict[id].name)
  {
  }

  lemma ApplyKeepsInv(w: World, op: Op)
    ensures Inv(w) && GoodOp(op) ==> Inv(Apply(w, op))
  {
    if Inv(w) && GoodOp(op) {
      ApplyKeepsTagged(w, op);
      ApplyKeepsNames(w, op);
    }
  }

  /** Over every sequence of dictionary and item operations with good names, every item tag
      is the name of an enabled dictionary entry and no item has a tag twice. */
  lemma {:induction false} TagsStayInDictionary(w: World, ops: seq<Op>)
    requires Inv(w) && forall op :: op in ops ==> GoodOp(op)
    ensures Inv(Run(w, ops))
  {
    if ops != [] {
      var before := Run(w, ops[..|ops| - 1]);
      TagsStayInDictionary(w, ops[..|ops| - 1]);
      ApplyKeepsInv(before, ops[|ops| - 1]);
    }
  }

  // ---------------------------------------------------------------- rows in place

  class TagService {
    var dict: Dictionary
    var items: map<int, string>

    function State(): World
      reads this
    {
      World(dict, items)
    }

    constructor ()
      ensures State() == World(map[], map[])
    {
      dict, items := map[], map[];
    }

    /** cleanAndValidateTags. */
    method CleanAndValidateTags(tags: seq<string>) returns (ok: bool, unique: seq<string>)
      ensures unique == CleanTags(tags)
      ensures ok == (|EnabledRows(dict, unique)| == |unique|)
      ensures UniqueNames(dict) ==> ok == AllInDictionary(dict, tags)
    {
      unique := [];
      var seen: set<string> := {};
      for i := 0 to |tags|
        invariant unique == CleanTags(tags[..i])
        invariant forall t :: t in seen <==> t in unique
      {
        assert tags[..i + 1][..i] == tags[..i];
        var t := Trim(tags[i]);
        if t != "" && t !in seen {
          seen := seen + {t};
          unique := unique + [t];
        }
      }
      assert tags[..|tags|] == tags;
      ok := |EnabledRows(dict, unique)| == |unique|;
      CleanedTags(tags);
      if UniqueNames(dict) {
        CountDecides(dict, unique);
        AllEnabledIff(dict, tags);
      }
    }

    /** The word loop of ReplaceMarketplaceTagName. */
    method ReplaceIn(tags: string, from: string, to: string) returns (replaced: bool, kept: seq<string>)
      ensures replaced == HasWord(tags, from)
      ensures kept == RenameWords(Split(tags), from, to)
    {
      var parts := Split(tags);
      kept, replaced := [], false;
      var seen: set<string> := {};
      for i := 0 to |parts|
        invariant kept == RenameWords(parts[..i], from, to)
        invariant replaced == Names(parts[..i], from)
        invariant forall w :: w in seen <==> w in kept
      {
        NamesSnoc(parts, from, i);
        RenameSnoc(parts, i, from, to);
        var p := Trim(parts[i]);
        if p == from { p := to; replaced := true; }
        if p != "" && p !in seen {
          seen := seen + {p};
          kept := kept + [p];
        }
      }
      assert parts[..|parts|] == parts;
    }

    method ReplaceMarketplaceTagName(from: string, to: string)
      modifies this`items
      ensures items == RenameAll(old(items), from, to)
    {
      var rest := items.Keys;
      while rest != {}
        invariant items.Keys == old(items).Keys && rest <= items.Keys
        invariant forall i :: i in items ==>
                    items[i] == if i in rest then old(items)[i] else RenamedTags(old(items)[i], from, to)
        decreases |rest|
      {
        SomeMember(rest);
        var i :| i in rest;
        rest := rest - {i};
        if Like(items[i], "%" + from + "%") {
          var replaced, kept := ReplaceIn(items[i], from, to);
          if replaced { items := items[i := Join(kept)]; }
        }
      }
      assert forall i :: i in items ==> items[i] == RenameAll(old(items), from, to)[i];
    }

    /** The word loop of RemoveMarketplaceTagName. */
    method RemoveFrom(tags: string, name: string) returns (removed: bool, kept: seq<string>)
      ensures removed == HasWord(tags, name)
      ensures kept == RemoveWord(Split(tags), name)
    {
      var parts := Split(tags);
      kept, removed := [], false;
      for i := 0 to |parts|
        invariant kept == RemoveWord(parts[..i], name)
        invariant removed == Names(parts[..i], name)
      {
        NamesSnoc(parts, name, i);
        var p := Trim(parts[i]);
        if p == name {
          removed := true;
        } else if p != "" {
          kept := kept + [p];
        }
      }
      assert parts[..|parts|] == parts;
    }

    method RemoveMarketplaceTagName(name: string)
      modifies this`items
      ensures items == RemoveAll(old(items), name)
    {
      var rest := items.Keys;
      while rest != {}
        invariant items.Keys == old(items).Keys && rest <= items.Keys
        invariant forall i :: i in items ==>
                    items[i] == if i in rest then old(items)[i] else RemovedTags(old(items)[i], name)
        decreases |rest|
      {
        SomeMember(rest);
        var i :| i in rest;
        rest := rest - {i};
        if Like(items[i], "%" + name + "%") {
          var removed, kept := RemoveFrom(items[i], name);
          if removed { items := items[i := Join(kept)]; }
        }
      }
      assert forall i :: i in items ==> items[i] == RemoveAll(old(items), name)[i];
    }

    /** MarketplaceTagService.Update. */
    method Update(id: int, newName: Maybe<string>, newEnabled: Maybe<bool>) returns (ok: bool)
      modifies this
      ensures ok <==> && id in old(dict)
                      && (newName.Just? ==>
                            !exists j :: j in old(dict) && j != id && old(dict)[j].name == newName.value)
      ensures if !ok then dict == old(dict)
              else dict == old(dict)[id := Tag(if newName.Just? then newName.value else old(dict)[id].name,
                                               if newEnabled.Just? then newEnabled.value else old(dict)[id].enabled)]
      ensures ok ==>
                items.Keys == old(items).Keys
                && forall i :: i in items ==>
                     var was, now := old(dict)[id], dict[id];
                     var renamed := if was.name == now.name then old(items)[i]
                                    else RenamedTags(old(items)[i], was.name, now.name);
                     items[i] == if was.enabled && !now.enabled then RemovedTags(renamed, now.name) else renamed
      ensures State() == Apply(old(State()), UpdateTag(id, newName, newEnabled))
      ensures !ok ==> State() == old(State())
      ensures old(Inv(State())) && GoodOp(UpdateTag(id, newName, newEnabled)) ==> Inv(State())
    {
      ApplyKeepsInv(State(), UpdateTag(id, newName, newEnabled));
      if id !in dict { return false; }
      var t := dict[id];
      var oldName, wasEnabled := t.name, t.enabled;
      if newName.Just? {
        if NameExists(dict, newName.value, id) { return false; }
        t := t.(name := newName.value);
      }
      if newEnabled.Just? { t := t.(enabled := newEnabled.value); }
      dict := dict[id := t];
      if t.name != oldName { ReplaceMarketplaceTagName(oldName, t.name); }
      if wasEnabled && !t.enabled { RemoveMarketplaceTagName(t.name); }
      return true;
    }

    /** MarketplaceTagService.Delete. */
    method Delete(id: int) returns (ok: bool)
      modifies this
      ensures State() == Apply(old(State()), DeleteTag(id)) && ok == (id in old(dict))
      ensures dict == old(dict) - {id} && items.Keys == old(items).Keys
      ensures forall i :: i in items ==>
                items[i] == if ok then RemovedTags(old(items)[i], old(dict)[id].name) else old(items)[i]
      ensures old(Inv(State())) ==> Inv(State())
    {
      ApplyKeepsInv(State(), DeleteTag(id));
      if id !in dict { return false; }
      var name := dict[id].name;
      dict := dict - {id};
      RemoveMarketplaceTagName(name);
      return true;
    }

    /** The tag part of UpdateItem and BatchSetGroupsTags. */
    method SetItemTags(ids: seq<int>, tags: seq<string>) returns (ok: bool)
      modifies this`items
      ensures UniqueNames(dict) ==> ok == AllInDictionary(dict, tags)
      ensures items.Keys == old(items).Keys
      ensures forall i :: i in items ==>
                items[i] == if ok && i in ids then Join(CleanTags(tags)) else old(items)[i]
      ensures State() == Apply(old(State()), SetTags(ids, tags))
      ensures old(Inv(State())) ==> Inv(State())
    {
      ApplyKeepsInv(State(), SetTags(ids, tags));
      var unique;
      ok, unique := CleanAndValidateTags(tags);
      if !ok { return; }
      items := map i | i in items :: if i in ids then Join(unique) else items[i];
    }
  }

  // -------------------------------------------------------- which names are good

  /** An item is tagged with a good name, which is then renamed to n and deleted. */
  function Life(n0: string, n: string): seq<Op> {
    [CreateTag(1, n0, true), SetTags([1], [n0]), UpdateTag(1, Just(n), Nothing), DeleteTag(1)]
  }

  const ONE_ITEM := World(map[], map[1 := ""])

  function Stage(n0: string, n: string, k: nat): World {
    if k == 0 then ONE_ITEM
    else if k == 1 then World(map[1 := Tag(n0, true)], map[1 := ""])
    else if k == 2 then World(map[1 := Tag(n0, true)], map[1 := n0])
    else if k == 3 then World(map[1 := Tag(n, true)], map[1 := n])
    else World(map[], map[1 := RemovedTags(n, n)])
  }

  lemma LifeCreates(n0: string, n: string)
    requires Good(n0)
    ensures Apply(Stage(n0, n, 0), Life(n0, n)[0]) == Stage(n0, n, 1)
  {
    assert !NameExists(ONE_ITEM.dict, n0, 1);
  }

  lemma OneTagIsClean(n0: string)
    requires Good(n0)
    ensures CleanTags([n0]) == [n0] && Join([n0]) == n0
    ensures EnabledRows(map[1 := Tag(n0, true)], [n0]) == {1}
  {
    assert [n0][..0] == [];
    assert CleanTags([n0][..0]) == [];
  }

  lemma LifeTags(n0: string, n: string)
    requires Good(n0)
    ensures Apply(Stage(n0, n, 1), Life(n0, n)[1]) == Stage(n0, n, 2)
  {
    OneTagIsClean(n0);
    assert Apply(Stage(n0, n, 1), Life(n0, n)[1]).items == Stage(n0, n, 2).items;
  }

  lemma OneTagIsRenamed(n0: string, n: string)
    requires Good(n0) && n != ""
    ensures RenamedTags(n0, n0, n) == n
  {
    SplitWord(n0);
    PrefilterIsTransparent(n0, n0);
    assert n0 in Split(n0) && Trim(n0) == n0;
    assert HasWord(n0, n0);
    assert [n0][..0] == [];
    assert RenameWords([n0][..0], n0, n) == [];
    assert RenameWords([n0], n0, n) == [n];
  }

  lemma LifeRenames(n0: string, n: string)
    requires Good(n0) && n != "" && n != n0
    ensures Apply(Stage(n0, n, 2), Life(n0, n)[2]) == Stage(n0, n, 3)
  {
    OneTagIsRenamed(n0, n);
    var w := Apply(Stage(n0, n, 2), Life(n0, n)[2]);
    assert w.items == Stage(n0, n, 3).items;
    assert w.dict == Stage(n0, n, 3).dict;
  }

  lemma LifeDeletes(n0: string, n: string)
    ensures Apply(Stage(n0, n, 3), Life(n0, n)[3]) == Stage(n0, n, 4)
  {
    var w := Apply(Stage(n0, n, 3), Life(n0, n)[3]);
    assert w.items == Stage(n0, n, 4).items;
    assert w.dict == Stage(n0, n, 4).dict;
  }

  lemma {:induction false} LifeStages(n0: string, n: string, k: nat)
    requires Good(n0) && n != "" && n != n0 && k <= 4
    ensures Run(ONE_ITEM, Life(n0, n)[..k]) == Stage(n0, n, k)
  {
    if k > 0 {
      LifeStages(n0, n, k - 1);
      assert Life(n0, n)[..k][..k - 1] == Life(n0, n)[..k - 1];
      if k == 1 { LifeCreates(n0, n); }
      if k == 2 { LifeTags(n0, n); }
      if k == 3 { LifeRenames(n0, n); }
      if k == 4 { LifeDeletes(n0, n); }
    }
  }

  /** The dictionary accepts any non-empty name, but the tags stay within it through the life
      of a name if and only if the name is trimmed and free of commas. */
  lemma NameIsSafeIff(n0: string, n: string)
    requires Good(n0) && n != "" && n != n0
    ensures (forall k :: 0 <= k <= 4 ==> Tagged(Run(ONE_ITEM, Life(n0, n)[..k]))) <==> Good(n)
  {
    forall k | 0 <= k <= 4 ensures Run(ONE_ITEM, Life(n0, n)[..k]) == Stage(n0, n, k) { LifeStages(n0, n, k); }
    if Good(n) {
      assert Inv(ONE_ITEM);
      forall k | 0 <= k <= 4 ensures Tagged(Run(ONE_ITEM, Life(n0, n)[..k])) {
        TagsStayInDictionary(ONE_ITEM, Life(n0, n)[..k]);
      }
    } else if !CommaFree(n) {
      SplitIsCommaFree(n);
      var w := Stage(n0, n, 3);
      assert Split(n)[0] in Words(n);
      assert !Enabled(w.dict, Split(n)[0]);
      assert !ItemOk(w.dict, w.items[1]);
      assert !Tagged(Run(ONE_ITEM, Life(n0, n)[..3]));
    } else {
      SplitWord(n);
      var w := Stage(n0, n, 4);
      assert n in Words(n) && w.items[1] == n;
      assert !Enabled(w.dict, n);
      assert !ItemOk(w.dict, w.items[1]);
      assert !Tagged(Run(ONE_ITEM, Life(n0, n)[..4]));
    }
  }
}
