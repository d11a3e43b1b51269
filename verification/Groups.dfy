/**
 Services reached through groups. The resolver uses two batched queries; it is compared with
 the plain one that asks group by group and membership by membership. The second half is the
 life of marketplace installs. ORDER BY is taken as stable on the stored row order.
 */
module Groups {

  datatype Membership = Membership(group: int, service: int, enabled: bool, order: int)
  datatype Source = Own | Marketplace(item: int)
  datatype Service = Service(user: int, source: Source, enabled: bool)
  datatype Item = Item(enabled: bool, deleted: bool)
  datatype Pair = Pair(group: int, service: int)

  // ------------------------------------------------------------------- sorting

  /** The two ORDER BY clauses: (group_id, sort_order), and sort_order alone. */
  predicate ByGroupAndOrder(a: Membership, b: Membership) {
    a.group < b.group || (a.group == b.group && a.order <= b.order)
  }

  predicate ByOrder(a: Membership, b: Membership) { a.order <= b.order }

  predicate Le(both: bool, a: Membership, b: Membership) { if both then ByGroupAndOrder(a, b) else ByOrder(a, b) }

  /** After every row that is not greater. */
  function Place(both: bool, s: seq<Membership>, x: Membership): seq<Membership> {
    if s == [] then [x]
    else
      var n := |s| - 1;
      if Le(both, s[n], x) then s + [x] else Place(both, s[..n], x) + [s[n]]
  }

  function Sort(both: bool, s: seq<Membership>): seq<Membership> {
    if s == [] then [] else Place(both, Sort(both, s[..|s| - 1]), s[|s| - 1])
  }

  predicate Sorted(both: bool, s: seq<Membership>) { forall i, j :: 0 <= i < j < |s| ==> Le(both, s[i], s[j]) }

  function OfGroup(s: seq<Membership>, g: int): (r: seq<Membership>)
    ensures forall m :: m in r <==> m in s && m.group == g
  {
    if s == [] then []
    else
      var r, m := OfGroup(s[..|s| - 1], g), s[|s| - 1];
      assert s == s[..|s| - 1] + [m];
      if m.group == g then r + [m] else r
  }

  /** The WHERE clause of the batched query. */
  function EnabledIn(s: seq<Membership>, gs: seq<int>): (r: seq<Membership>)
    ensures forall m :: m in r <==> m in s && m.enabled && m.group in gs
  {
    if s == [] then []
    else
      var r, m := EnabledIn(s[..|s| - 1], gs), s[|s| - 1];
      assert s == s[..|s| - 1] + [m];
      if m.enabled && m.group in gs then r + [m] else r
  }

  lemma {:induction false} PlaceSorted(both: bool, s: seq<Membership>, x: Membership)
    requires Sorted(both, s)
    ensures Sorted(both, Place(both, s, x))
    ensures forall m :: m in Place(both, s, x) <==> m in s || m == x
  {
    if s != [] {
      var n := |s| - 1;
      assert s == s[..n] + [s[n]];
      if !Le(both, s[n], x) {
        PlaceSorted(both, s[..n], x);
        forall m | m in Place(both, s[..n], x) ensures Le(both, m, s[n]) {}
      }
    }
  }

  lemma {:induction false} SortSorted(both: bool, s: seq<Membership>)
    ensures Sorted(both, Sort(both, s))
    ensures forall m :: m in Sort(both, s) <==> m in s
  {
    if s != [] {
      SortSorted(both, s[..|s| - 1]);
      PlaceSorted(both, Sort(both, s[..|s| - 1]), s[|s| - 1]);
      assert s == s[..|s| - 1] + [s[|s| - 1]];
    }
  }

  lemma OfGroupSnoc(s: seq<Membership>, m: Membership, g: int)
    ensures OfGroup(s + [m], g) == if m.group == g then OfGroup(s, g) + [m] else OfGroup(s, g)
  {
  }

  lemma PlaceSnoc(both: bool, s: seq<Membership>, last: Membership, x: Membership)
    ensures Place(both, s + [last], x) == if Le(both, last, x) then s + [last] + [x] else Place(both, s, x) + [last]
  {
  }

  lemma PlaceAtEnd(f: seq<Membership>, x: Membership)
    requires f != [] ==> ByOrder(f[|f| - 1], x)
    ensures Place(false, f, x) == f + [x]
  {
  }

  /** Placing and then picking one group is picking and then placing by order alone. */
  lemma {:induction false} PlaceInGroup(s: seq<Membership>, x: Membership, g: int)
    requires Sorted(true, s)
    ensures OfGroup(Place(true, s, x), g) == if x.group == g then Place(false, OfGroup(s, g), x) else OfGroup(s, g)
  {
    if s == [] {
      OfGroupSnoc([], x, g);
    } else {
      var before, last := s[..|s| - 1], s[|s| - 1];
      assert s == before + [last];
      PlaceSnoc(true, before, last, x);
      if Le(true, last, x) {
        OfGroupSnoc(s, x, g);
        var f := OfGroup(s, g);
        if x.group == g {
          if f != [] { assert f[|f| - 1] in s; }
          PlaceAtEnd(f, x);
        }
      } else {
        PlaceInGroup(before, x, g);
        OfGroupSnoc(before, last, g);
        OfGroupSnoc(Place(true, before, x), last, g);
        if x.group == g && last.group == g { PlaceSnoc(false, OfGroup(before, g), last, x); }
      }
    }
  }

  lemma SortSnoc(both: bool, s: seq<Membership>, m: Membership)
    ensures Sort(both, s + [m]) == Place(both, Sort(both, s), m)
  {
  }

  lemma EnabledInSnoc(s: seq<Membership>, m: Membership, gs: seq<int>)
    ensures EnabledIn(s + [m], gs) == if m.enabled && m.group in gs then EnabledIn(s, gs) + [m] else EnabledIn(s, gs)
  {
  }

  lemma {:induction false} SortOfGroup(s: seq<Membership>, g: int)
    ensures OfGroup(Sort(true, s), g) == Sort(false, OfGroup(s, g))
  {
    if s != [] {
      var before, m := s[..|s| - 1], s[|s| - 1];
      assert s == before + [m];
      SortOfGroup(before, g);
      SortSorted(true, before);
      SortSnoc(true, before, m);
      OfGroupSnoc(before, m, g);
      PlaceInGroup(Sort(true, before), m, g);
      if m.group == g { SortSnoc(false, OfGroup(before, g), m); }
    }
  }

  lemma {:induction false} EnabledOfGroup(s: seq<Membership>, gs: seq<int>, g: int)
    requires g in gs
    ensures OfGroup(EnabledIn(s, gs), g) == EnabledIn(s, [g])
  {
    if s != [] {
      var before, m := s[..|s| - 1], s[|s| - 1];
      assert s == before + [m];
      EnabledOfGroup(before, gs, g);
      EnabledInSnoc(before, m, gs);
      EnabledInSnoc(before, m, [g]);
      OfGroupSnoc(EnabledIn(before, gs), m, g);
    }
  }

  /** One group's part of the batched result is the result of asking for that group. */
  lemma SortCommutes(s: seq<Membership>, gs: seq<int>, g: int)
    requires g in gs
    ensures OfGroup(Sort(true, EnabledIn(s, gs)), g) == Sort(false, EnabledIn(s, [g]))
  {
    EnabledOfGroup(s, gs, g);
    SortOfGroup(EnabledIn(s, gs), g);
  }

  // -------------------------------------------------------------- the two resolvers

  predicate Reachable(services: map<int, Service>, id: int) { id in services && services[id].enabled }

  function Pairs(services: map<int, Service>, g: int, ids: seq<int>): seq<Pair> {
    if ids == [] then []
    else
      var r, id := Pairs(services, g, ids[..|ids| - 1]), ids[|ids| - 1];
      if Reachable(services, id) then r + [Pair(g, id)] else r
  }

  function Ids(ms: seq<Membership>): seq<int> {
    if ms == [] then [] else Ids(ms[..|ms| - 1]) + [ms[|ms| - 1].service]
  }

  /** Group by group, each membership looked up on its own. */
  function Naive(services: map<int, Service>, ms: seq<Membership>, gs: seq<int>): seq<Pair> {
    if gs == [] then []
    else
      var g := gs[|gs| - 1];
      Naive(services, ms, gs[..|gs| - 1]) + Pairs(services, g, Ids(Sort(false, EnabledIn(ms, [g]))))
  }

  lemma {:induction false} PairsMembers(services: map<int, Service>, g: int, ids: seq<int>, p: Pair)
    ensures p in Pairs(services, g, ids) <==> p.group == g && p.service in ids && Reachable(services, p.service)
  {
    if ids != [] {
      PairsMembers(services, g, ids[..|ids| - 1], p);
      assert ids == ids[..|ids| - 1] + [ids[|ids| - 1]];
    }
  }

  lemma {:induction false} IdsMembers(ms: seq<Membership>, id: int)
    ensures id in Ids(ms) <==> exists m :: m in ms && m.service == id
  {
    if ms != [] {
      IdsMembers(ms[..|ms| - 1], id);
      assert ms == ms[..|ms| - 1] + [ms[|ms| - 1]];
    }
  }

  /** What is resolved: the enabled services with an enabled membership in a given group. */
  lemma {:induction false} ResolvedIff(services: map<int, Service>, ms: seq<Membership>, gs: seq<int>, p: Pair)
    ensures p in Naive(services, ms, gs)
            <==> && p.group in gs && Reachable(services, p.service)
                 && exists m :: m in ms && m.enabled && m.group == p.group && m.service == p.service
  {
    if gs != [] {
      var g := gs[|gs| - 1];
      ResolvedIff(services, ms, gs[..|gs| - 1], p);
      assert gs == gs[..|gs| - 1] + [g];
      var sorted := Sort(false, EnabledIn(ms, [g]));
      SortSorted(false, EnabledIn(ms, [g]));
      PairsMembers(services, g, Ids(sorted), p);
      IdsMembers(sorted, p.service);
    }
  }

  // ------------------------------------------------------------ any order of ties

  /** A possible answer to the batched query. */
  ghost predicate Answers(ms: seq<Membership>, all: seq<Membership>, gs: seq<int>) {
    multiset(ms) == multiset(EnabledIn(all, gs)) && Sorted(true, ms)
  }

  /** What the batched resolver makes of an answer. */
  function Batched(services: map<int, Service>, ms: seq<Membership>, gs: seq<int>): seq<Pair> {
    if gs == [] then []
    else
      var g := gs[|gs| - 1];
      Batched(services, ms, gs[..|gs| - 1]) + Pairs(services, g, Ids(OfGroup(ms, g)))
  }

  lemma {:induction false} StableBatchIsNaive(services: map<int, Service>, all: seq<Membership>,
                                              gs: seq<int>, asked: seq<int>)
    requires forall g :: g in gs ==> g in asked
    ensures Batched(services, Sort(true, EnabledIn(all, asked)), gs) == Naive(services, all, gs)
  {
    if gs != [] {
      assert gs == gs[..|gs| - 1] + [gs[|gs| - 1]];
      StableBatchIsNaive(services, all, gs[..|gs| - 1], asked);
      SortCommutes(all, asked, gs[|gs| - 1]);
    }
  }

  lemma SameMembers(a: seq<Membership>, b: seq<Membership>)
    requires multiset(a) == multiset(b)
    ensures forall m :: m in a <==> m in b
  {
    forall m ensures m in a <==> m in b { assert m in a <==> m in multiset(a); assert m in b <==> m in multiset(b); }
  }

  lemma {:induction false} BatchedMembers(services: map<int, Service>, all: seq<Membership>, ms: seq<Membership>,
                                          gs: seq<int>, asked: seq<int>, p: Pair)
    requires Answers(ms, all, asked) && forall g :: g in gs ==> g in asked
    ensures p in Batched(services, ms, gs)
            <==> && p.group in gs && Reachable(services, p.service)
                 && exists m :: m in all && m.enabled && m.group == p.group && m.service == p.service
  {
    SameMembers(ms, EnabledIn(all, asked));
    if gs != [] {
      var g := gs[|gs| - 1];
      assert gs == gs[..|gs| - 1] + [g];
      BatchedMembers(services, all, ms, gs[..|gs| - 1], asked, p);
      PairsMembers(services, g, Ids(OfGroup(ms, g)), p);
      IdsMembers(OfGroup(ms, g), p.service);
    }
  }

  lemma BatchedAgrees(services: map<int, Service>, all: seq<Membership>, ms: seq<Membership>, gs: seq<int>)
    requires Answers(ms, all, gs)
    ensures ms == Sort(true, EnabledIn(all, gs)) ==> Batched(services, ms, gs) == Naive(services, all, gs)
    ensures forall p :: p in Batched(services, ms, gs) <==> p in Naive(services, all, gs)
  {
    if ms == Sort(true, EnabledIn(all, gs)) { StableBatchIsNaive(services, all, gs, gs); }
    forall p ensures p in Batched(services, ms, gs) <==> p in Naive(services, all, gs) {
      BatchedMembers(services, all, ms, gs, gs, p);
      ResolvedIff(services, all, gs, p);
    }
  }

  lemma {:induction false} OfGroupCount(s: seq<Membership>, g: int, m: Membership)
    ensures multiset(OfGroup(s, g))[m] == if m.group == g then multiset(s)[m] else 0
  {
    if s != [] {
      var before, last := s[..|s| - 1], s[|s| - 1];
      assert s == before + [last];
      OfGroupCount(before, g, m);
      OfGroupSnoc(before, last, g);
    }
  }

  lemma OfGroupIgnoresOrder(a: seq<Membership>, b: seq<Membership>, g: int)
    requires multiset(a) == multiset(b)
    ensures multiset(OfGroup(a, g)) == multiset(OfGroup(b, g))
  {
    forall m ensures multiset(OfGroup(a, g))[m] == multiset(OfGroup(b, g))[m] {
      OfGroupCount(a, g, m);
      OfGroupCount(b, g, m);
    }
  }

  lemma {:induction false} OfGroupSorted(s: seq<Membership>, g: int)
    requires Sorted(true, s)
    ensures Sorted(false, OfGroup(s, g))
  {
    if s != [] {
      var before, last := s[..|s| - 1], s[|s| - 1];
      assert s == before + [last];
      OfGroupSorted(before, g);
      OfGroupSnoc(before, last, g);
      forall m | m in OfGroup(before, g) && last.group == g ensures Le(false, m, last) { assert m in before; }
    }
  }

  /** What one membership contributes. */
  function Found(services: map<int, Service>, g: int, m: Membership): multiset<Pair> {
    if Reachable(services, m.service) then multiset{Pair(g, m.service)} else multiset{}
  }

  function Bag(services: map<int, Service>, g: int, s: seq<Membership>): multiset<Pair> {
    multiset(Pairs(services, g, Ids(s)))
  }

  lemma BagSnoc(services: map<int, Service>, g: int, s: seq<Membership>, m: Membership)
    ensures Bag(services, g, s + [m]) == Bag(services, g, s) + Found(services, g, m)
  {
  }

  function Without(s: seq<Membership>, j: nat): seq<Membership>
    requires j < |s|
  {
    s[..j] + s[j + 1..]
  }

  lemma {:induction false} PairsWithout(services: map<int, Service>, g: int, s: seq<Membership>, j: nat)
    requires j < |s|
    ensures Bag(services, g, s) == Bag(services, g, Without(s, j)) + Found(services, g, s[j])
  {
    var before, last := s[..|s| - 1], s[|s| - 1];
    assert s == before + [last];
    BagSnoc(services, g, before, last);
    if j == |s| - 1 {
      assert Without(s, j) == before;
    } else {
      PairsWithout(services, g, before, j);
      WithoutSnoc(before, last, j);
      BagSnoc(services, g, Without(before, j), last);
    }
  }

  lemma WithoutSnoc(s: seq<Membership>, last: Membership, j: nat)
    requires j < |s|
    ensures Without(s + [last], j) == Without(s, j) + [last] && (s + [last])[j] == s[j]
  {
  }

  lemma WithoutMultiset(s: seq<Membership>, j: nat)
    requires j < |s|
    ensures multiset(Without(s, j)) == multiset(s) - multiset{s[j]}
  {
    assert s == s[..j] + [s[j]] + s[j + 1..];
  }

  lemma {:induction false} PairsIgnoreOrder(services: map<int, Service>, g: int, a: seq<Membership>, b: seq<Membership>)
    requires multiset(a) == multiset(b)
    ensures Bag(services, g, a) == Bag(services, g, b)
    decreases |a|
  {
    if a == [] {
      assert |multiset(b)| == 0;
      assert b == [];
    } else {
      var n := |a| - 1;
      assert a[n] in multiset(b);
      var j :| 0 <= j < |b| && b[j] == a[n];
      WithoutMultiset(a, n);
      WithoutMultiset(b, j);
      PairsWithout(services, g, a, n);
      PairsWithout(services, g, b, j);
      PairsIgnoreOrder(services, g, Without(a, n), Without(b, j));
    }
  }

  /** However the database breaks ties in either query, the batched resolver and the naive one
      find the same pairs the same number of times in each group, and both list memberships of
      different sort order in that order. */
  lemma TiesDoNotMatter(services: map<int, Service>, all: seq<Membership>, gs: seq<int>, ms: seq<Membership>,
                        g: int, alone: seq<Membership>)
    requires g in gs && Answers(ms, all, gs)
    requires multiset(alone) == multiset(EnabledIn(all, [g])) && Sorted(false, alone)
    ensures var part := OfGroup(ms, g);
            && Bag(services, g, part) == Bag(services, g, alone)
            && multiset(part) == multiset(alone) && Sorted(false, part)
  {
    var part := OfGroup(ms, g);
    OfGroupIgnoresOrder(ms, EnabledIn(all, gs), g);
    EnabledOfGroup(all, gs, g);
    OfGroupSorted(ms, g);
    PairsIgnoreOrder(services, g, part, alone);
  }

  /** Group id to service ids, in membership order. */
  predicate Grouped(byGroup: map<int, seq<int>>, ms: seq<Membership>) {
    && (forall g :: g in byGroup ==> byGroup[g] == Ids(OfGroup(ms, g)))
    && (forall m :: m in ms ==> m.group in byGroup)
  }

  function Added(byGroup: map<int, seq<int>>, m: Membership): map<int, seq<int>> {
    byGroup[m.group := (if m.group in byGroup then byGroup[m.group] else []) + [m.service]]
  }

  lemma GroupedSnoc(byGroup: map<int, seq<int>>, ms: seq<Membership>, m: Membership)
    requires Grouped(byGroup, ms)
    ensures Grouped(Added(byGroup, m), ms + [m])
  {
    var all := ms + [m];
    assert all[..|all| - 1] == ms;
    forall g | g in Added(byGroup, m) ensures Added(byGroup, m)[g] == Ids(OfGroup(all, g)) {
      if g !in byGroup { NoneOfGroup(ms, g); }
      OneMoreId(OfGroup(ms, g), m);
    }
  }

  lemma OneMoreId(ms: seq<Membership>, m: Membership)
    ensures Ids(ms + [m]) == Ids(ms) + [m.service]
  {
    assert (ms + [m])[..|ms|] == ms;
  }

  /** The services of these memberships, as far as they exist. */
  predicate Fetched(services: map<int, Service>, byId: map<int, Service>, ms: seq<Membership>) {
    forall m :: m in ms ==>
      (m.service in byId <==> m.service in services)
      && (m.service in byId ==> byId[m.service] == services[m.service])
  }

  /** When an item goes off sale, exactly its installs are disabled and leave all groups. */
  ghost predicate InstallsOff(services: map<int, Service>, ms: seq<Membership>, item: int, off: bool,
                              services': map<int, Service>, ms': seq<Membership>) {
    && services'.Keys == services.Keys
    && (forall s :: s in services ==>
          services'[s] == if off && services[s].source == Marketplace(item) then services[s].(enabled := false)
                          else services[s])
    && (forall m :: m in ms' <==>
          m in ms && !(off && m.service in services && services[m.service].source == Marketplace(item)))
  }

  class Directory {
    var items: map<int, Item>
    var services: map<int, Service>
    var memberships: seq<Membership>

    function State(): World
      reads this
    {
      World(items, services, memberships)
    }

    constructor ()
      ensures State() == World(map[], map[], [])
    {
      items, services, memberships := map[], map[], [];
    }

    method GroupIds(ms: seq<Membership>) returns (byGroup: map<int, seq<int>>)
      ensures Grouped(byGroup, ms)
    {
      byGroup := map[];
      for i := 0 to |ms|
        invariant Grouped(byGroup, ms[..i])
      {
        GroupedSnoc(byGroup, ms[..i], ms[i]);
        assert ms[..i + 1] == ms[..i] + [ms[i]];
        var sofar := if ms[i].group in byGroup then byGroup[ms[i].group] else [];
        byGroup := byGroup[ms[i].group := sofar + [ms[i].service]];
      }
      assert ms[..|ms|] == ms;
    }

    method PairsOf(g: int, ids: seq<int>, byId: map<int, Service>) returns (result: seq<Pair>)
      requires forall id :: id in ids ==> (id in byId <==> id in services) && (id in byId ==> byId[id] == services[id])
      ensures result == Pairs(services, g, ids)
    {
      result := [];
      for j := 0 to |ids|
        invariant result == Pairs(services, g, ids[..j])
      {
        assert ids[..j + 1][..j] == ids[..j] && ids[j] in ids;
        if ids[j] in byId && byId[ids[j]].enabled { result := result + [Pair(g, ids[j])]; }
      }
      assert ids[..|ids|] == ids;
    }

    /** What the resolver appends for one group. */
    method PairsOfGroup(g: int, ms: seq<Membership>, byGroup: map<int, seq<int>>, byId: map<int, Service>)
      returns (result: seq<Pair>)
      requires Grouped(byGroup, ms) && Fetched(services, byId, ms)
      ensures result == Pairs(services, g, Ids(OfGroup(ms, g)))
    {
      var ids: seq<int> := [];
      if g in byGroup { ids := byGroup[g]; } else { NoneOfGroup(ms, g); }
      assert ids == Ids(OfGroup(ms, g));
      forall id | id in ids ensures exists m :: m in ms && m.service == id { IdsMembers(OfGroup(ms, g), id); }
      result := PairsOf(g, ids, byId);
    }

    /** ResolveEnabledServicesForGroups. ms is what the database answers to the batched query,
        rows of equal order in whatever order it likes. */
    method ResolveEnabledServicesForGroups(groups: seq<int>, ms: seq<Membership>) returns (result: seq<Pair>)
      requires Answers(ms, memberships, groups)
      ensures result == Batched(services, ms, groups)
      ensures ms == Sort(true, EnabledIn(memberships, groups)) ==> result == Naive(services, memberships, groups)
      ensures forall p :: p in result <==> p in Naive(services, memberships, groups)
    {
      // SELECT ... WHERE id IN ?
      var wanted := set m | m in ms :: m.service;
      var byId := map id | id in services && id in wanted :: services[id];
      var byGroup := GroupIds(ms);
      result := PairsOfGroups(groups, ms, byGroup, byId);
      BatchedAgrees(services, memberships, ms, groups);
    }

    method PairsOfGroups(groups: seq<int>, ms: seq<Membership>, byGroup: map<int, seq<int>>, byId: map<int, Service>)
      returns (result: seq<Pair>)
      requires Grouped(byGroup, ms) && Fetched(services, byId, ms)
      ensures result == Batched(services, ms, groups)
    {
      result := [];
      for i := 0 to |groups|
        invariant result == Batched(services, ms, groups[..i])
      {
        assert groups[..i + 1][..i] == groups[..i];
        var pairs := PairsOfGroup(groups[i], ms, byGroup, byId);
        result := result + pairs;
      }
      assert groups[..|groups|] == groups;
    }

    // --------------------------------------------------- services and items in place

    /** AddToMyServices: an existing install is enabled again, but not put back in groups. */
    method AddToMyServices(user: int, item: int, newId: int) returns (ok: bool)
      requires newId !in services
      modifies this`services
      ensures ok <==> item in items && !items[item].deleted && items[item].enabled
      ensures !ok ==> services == old(services)
      ensures ok && (forall id :: id in old(services) ==>
                       !(old(services)[id].user == user && old(services)[id].source == Marketplace(item))) ==>
                services == old(services)[newId := Service(user, Marketplace(item), true)]
      ensures ok && (exists id :: && id in old(services) && old(services)[id].user == user
                                  && old(services)[id].source == Marketplace(item)) ==>
                exists id :: && id in old(services) && old(services)[id].user == user
                             && old(services)[id].source == Marketplace(item)
                             && services == old(services)[id := Service(user, Marketplace(item), true)]
      ensures old(OneInstall(services)) ==> State() == Apply(old(State()), Install(user, item, newId))
      ensures old(Inv(State())) ==> Inv(State())
    {
      ghost var w := State();
      ApplyKeepsInstallsOnline(w, Install(user, item, newId));
      if item !in items || items[item].deleted || !items[item].enabled { return false; }
      if id :| id in services && IsInstall(services[id], user, item) {
        services := services[id := services[id].(enabled := true)];
        if OneInstall(w.services) {
          assert forall j :: j in w.services && IsInstall(w.services[j], user, item) ==> j == id;
          assert services == Apply(w, Install(user, item, newId)).services;
        }
      } else {
        services := services[newId := Service(user, Marketplace(item), true)];
      }
      return true;
    }

    /** The status part of update on a service. */
    method UpdateService(id: int, status: Maybe<bool>) returns (ok: bool)
      modifies this`services, this`memberships
      ensures ok <==> id in old(services)
                      && (status == Just(true) && old(services)[id].source.Marketplace? ==>
                            var item := old(services)[id].source.item;
                            item in items && !items[item].deleted && items[item].enabled)
      ensures services == if ok && status.Just?
                          then old(services)[id := old(services)[id].(enabled := status.value)] else old(services)
      ensures forall m :: m in memberships <==>
                m in old(memberships) && !(ok && status == Just(false) && m.service == id)
      ensures State() == Apply(old(State()), SetService(id, status))
      ensures !ok ==> State() == old(State())
      ensures old(Inv(State())) ==> Inv(State())
    {
      ApplyKeepsInstallsOnline(State(), SetService(id, status));
      if id !in services { return false; }
      var svc := services[id];
      if status == Just(true) && svc.source.Marketplace? {
        var item := svc.source.item;
        if item !in items || items[item].deleted || !items[item].enabled { return false; }
      }
      if status.Just? { services := services[id := svc.(enabled := status.value)]; }
      if status == Just(false) { memberships := WithoutServices(memberships, {id}); }
      return true;
    }

    /** The status part of UpdateItem; taking an item offline disables its installs and takes
        them out of all groups. */
    method UpdateItem(id: int, status: Maybe<bool>) returns (ok: bool)
      modifies this
      ensures State() == Apply(old(State()), SetItem(id, status))
      ensures ok == (id in old(items) && !old(items)[id].deleted)
      ensures items == if ok && status.Just? then old(items)[id := Item(status.value, false)] else old(items)
      ensures InstallsOff(old(services), old(memberships), id, ok && status == Just(false), services, memberships)
      ensures old(Inv(State())) ==> Inv(State())
    {
      ApplyKeepsInstallsOnline(State(), SetItem(id, status));
      if id !in items || items[id].deleted { return false; }
      if status.Just? { items := items[id := items[id].(enabled := status.value)]; }
      if status == Just(false) { DisableMarketplaceRefsByItems({id}); }
      return true;
    }

    method DeleteItem(id: int) returns (ok: bool)
      modifies this
      ensures State() == Apply(old(State()), DropItem(id))
      ensures ok == (id in old(items) && !old(items)[id].deleted)
      ensures items == if ok then old(items)[id := Item(old(items)[id].enabled, true)] else old(items)
      ensures InstallsOff(old(services), old(memberships), id, ok, services, memberships)
      ensures old(Inv(State())) ==> Inv(State())
    {
      ApplyKeepsInstallsOnline(State(), DropItem(id));
      if id !in items || items[id].deleted { return false; }
      items := items[id := items[id].(deleted := true)];
      DisableMarketplaceRefsByItems({id});
      return true;
    }

    method DisableMarketplaceRefsByItems(gone: set<int>)
      modifies this`services, this`memberships
      ensures services == Disabled(old(services), gone)
      ensures memberships == WithoutServices(old(memberships), Installs(old(services), gone))
    {
      memberships := WithoutServices(memberships, Installs(services, gone));
      services := Disabled(services, gone);
    }
  }

  lemma {:induction false} NoneOfGroup(ms: seq<Membership>, g: int)
    requires forall m :: m in ms ==> m.group != g
    ensures OfGroup(ms, g) == []
  {
    if ms != [] { NoneOfGroup(ms[..|ms| - 1], g); }
  }

  // --------------------------------------------------------------- install life cycle

  datatype Maybe<T> = Nothing | Just(value: T)

  datatype World = World(items: map<int, Item>, services: map<int, Service>, memberships: seq<Membership>)

  /** The install of an item by a user. */
  predicate IsInstall(s: Service, user: int, item: int) { s.user == user && s.source == Marketplace(item) }

  predicate OnSale(w: World, item: int) { item in w.items && !w.items[item].deleted && w.items[item].enabled }

  function Installs(services: map<int, Service>, gone: set<int>): set<int> {
    set id | id in services.Keys && services[id].source.Marketplace? && services[id].source.item in gone
  }

  function Disabled(services: map<int, Service>, gone: set<int>): map<int, Service> {
    map id | id in services :: if id in Installs(services, gone) then services[id].(enabled := false) else services[id]
  }

  function WithoutServices(ms: seq<Membership>, ids: set<int>): (r: seq<Membership>)
    ensures forall m :: m in r <==> m in ms && m.service !in ids
  {
    if ms == [] then []
    else
      var r, m := WithoutServices(ms[..|ms| - 1], ids), ms[|ms| - 1];
      assert ms == ms[..|ms| - 1] + [m];
      if m.service in ids then r else r + [m]
  }

  datatype Op =
    | NewItem(id: int)
    | NewService(id: int, user: int)
    | Install(user: int, item: int, newId: int)
    | SetService(id: int, status: Maybe<bool>)
    | DropService(id: int)
    | SetItem(id: int, status: Maybe<bool>)
    | DropItem(id: int)
    | Regroup(ms: seq<Membership>)               // any memberships at all, left-over ones too

  function Apply(w: World, op: Op): World {
    match op
    case NewItem(id) => if id in w.items then w else w.(items := w.items[id := Item(true, false)])
    case NewService(id, user) =>
      if id in w.services then w else w.(services := w.services[id := Service(user, Own, true)])
    case Install(user, item, newId) =>
      if !OnSale(w, item) || newId in w.services then w
      else if exists id :: id in w.services && IsInstall(w.services[id], user, item) then
        w.(services := map id | id in w.services ::
             if IsInstall(w.services[id], user, item) then w.services[id].(enabled := true) else w.services[id])
      else w.(services := w.services[newId := Service(user, Marketplace(item), true)])
    case SetService(id, status) =>
      if id !in w.services then w
      else if status == Just(true) && w.services[id].source.Marketplace? && !OnSale(w, w.services[id].source.item)
      then w
      else
        World(w.items,
              if status.Just? then w.services[id := w.services[id].(enabled := status.value)] else w.services,
              if status == Just(false) then WithoutServices(w.memberships, {id}) else w.memberships)
    case DropService(id) => World(w.items, w.services - {id}, WithoutServices(w.memberships, {id}))
    case SetItem(id, status) =>
      if id !in w.items || w.items[id].deleted then w
      else
        var items' := if status.Just? then w.items[id := w.items[id].(enabled := status.value)] else w.items;
        if status == Just(false)
        then World(items', Disabled(w.services, {id}), WithoutServices(w.memberships, Installs(w.services, {id})))
        else w.(items := items')
    case DropItem(id) =>
      if id !in w.items || w.items[id].deleted then w
      else World(w.items[id := w.items[id].(deleted := true)], Disabled(w.services, {id}),
                 WithoutServices(w.memberships, Installs(w.services, {id})))
    case Regroup(ms) => w.(memberships := ms)
  }

  function Run(w: World, ops: seq<Op>): World {
    if ops == [] then w else Apply(Run(w, ops[..|ops| - 1]), ops[|ops| - 1])
  }

  /** An enabled install is an install of an item that is on sale. */
  predicate Inv(w: World) {
    forall id :: id in w.services && w.services[id].enabled && w.services[id].source.Marketplace?
      ==> OnSale(w, w.services[id].source.item)
  }

  /** A user has at most one install of an item. */
  predicate OneInstall(services: map<int, Service>) {
    forall i, j :: i in services && j in services && i != j && services[i].source.Marketplace?
      ==> !(services[i].user == services[j].user && services[i].source == services[j].source)
  }

  lemma ApplyKeepsInstallsOnline(w: World, op: Op)
    ensures Inv(w) ==> Inv(Apply(w, op))
  {
  }

  lemma ApplyKeepsOneInstall(w: World, op: Op)
    requires OneInstall(w.services)
    ensures OneInstall(Apply(w, op).services)
  {
  }

  /** In every reachable state, whatever membership rows are lying about, no install of an
      item that is offline or deleted is resolved. */
  lemma {:induction false} NothingOfflineIsResolved(ops: seq<Op>, groups: seq<int>, p: Pair)
    requires var w := Run(World(map[], map[], []), ops); p in Naive(w.services, w.memberships, groups)
    ensures var w := Run(World(map[], map[], []), ops);
            && p.service in w.services && w.services[p.service].enabled
            && (w.services[p.service].source.Marketplace? ==>
                  var item := w.services[p.service].source.item;
                  item in w.items && w.items[item].enabled && !w.items[item].deleted)
  {
    var w := Run(World(map[], map[], []), ops);
    EnabledInstallsAreOnSale(ops);
    ResolvedIff(w.services, w.memberships, groups, p);
  }

  lemma {:induction false} EnabledInstallsAreOnSale(ops: seq<Op>)
    ensures Inv(Run(World(map[], map[], []), ops))
    ensures OneInstall(Run(World(map[], map[], []), ops).services)
  {
    if ops != [] {
      EnabledInstallsAreOnSale(ops[..|ops| - 1]);
      ApplyKeepsOneInstall(Run(World(map[], map[], []), ops[..|ops| - 1]), ops[|ops| - 1]);
      ApplyKeepsInstallsOnline(Run(World(map[], map[], []), ops[..|ops| - 1]), ops[|ops| - 1]);
    }
  }

  lemma RunStep(w: World, ops: seq<Op>, op: Op)
    ensures Run(w, ops + [op]) == Apply(Run(w, ops), op)
  {
  }

  /** Installs do get through: an item is created, installed and put in a group, and is then what
      that group resolves to. */
  lemma InstalledIsResolved(user: int, item: int, id: int, g: int) returns (ops: seq<Op>)
    ensures var w := Run(World(map[], map[], []), ops);
            && w.services == map[id := Service(user, Marketplace(item), true)]
            && Pair(g, id) in Naive(w.services, w.memberships, [g])
            && forall p :: p in Naive(w.services, w.memberships, [g]) ==> p == Pair(g, id)
  {
    var w0, m := World(map[], map[], []), Membership(g, id, true, 0);
    RunStep(w0, [], NewItem(item));
    RunStep(w0, [NewItem(item)], Install(user, item, id));
    ops := [NewItem(item)] + [Install(user, item, id)];
    RunStep(w0, ops, Regroup([m]));
    ops := ops + [Regroup([m])];
    var w := Run(w0, ops);
    assert w.memberships == [m];
    forall p ensures p in Naive(w.services, w.memberships, [g]) <==> p == Pair(g, id) {
      ResolvedIff(w.services, w.memberships, [g], p);
      assert m in w.memberships;
    }
  }

  /** Taking an item offline empties the groups of its installs, and bringing it back brings
      none of them back. */
  lemma OfflineLeavesNoMembership(w: World, item: int, groups: seq<int>, p: Pair)
    requires item in w.items && !w.items[item].deleted
    requires p.service in w.services && w.services[p.service].source == Marketplace(item)
    ensures var off := Apply(w, SetItem(item, Just(false)));
            && (forall m :: m in off.memberships ==> m.service != p.service)
            && p !in Naive(off.services, off.memberships, groups)
            && (var on := Apply(off, SetItem(item, Just(true))); p !in Naive(on.services, on.memberships, groups))
  {
    var off := Apply(w, SetItem(item, Just(false)));
    var on := Apply(off, SetItem(item, Just(true)));
    assert p.service in Installs(w.services, {item});
    ResolvedIff(off.services, off.memberships, groups, p);
    ResolvedIff(on.services, on.memberships, groups, p);
  }
}
