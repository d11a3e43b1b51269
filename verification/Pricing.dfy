/**
 Price resolution: entry price, then service price, then (self-use mode only) the global
 default, times the group ratio. Amounts are reals; rounding is half away from zero.
 */
module Pricing {
  import opened Rounding

  datatype BillingType = Free | PerCall | Inherit | Other(name: string)
  datatype EntryKind = Tool | Resource | Prompt
  datatype Scope = ToolScope | EntryScope | ServiceScope | GlobalScope | FreeScope

  datatype EntryPrice = EntryPrice(billingType: BillingType, price: real)
  datatype EntryKey = EntryKey(kind: EntryKind, name: string)
  datatype ItemPricing = ItemPricing(billingType: BillingType, price: real, entries: map<EntryKey, EntryPrice>)

  datatype PriceInfo = PriceInfo(billingType: BillingType, quota: int, decimal: real, scope: Scope)
  datatype Resolution = Resolved(info: PriceInfo) | NotConfigured(info: PriceInfo)

  datatype SettingsData = Settings(billingEnabled: bool, selfUse: bool, perUnit: int, ratios: map<string, real>,
                                   defaultType: BillingType, defaultPrice: real)
  // GetQuotaPerUnit never returns a value <= 0
  type Settings = s: SettingsData | s.perUnit > 0 witness Settings(true, false, 1, map[], PerCall, 0.0)

  const BASE := PriceInfo(Free, 0, 0.0, FreeScope)

  function GroupRatio(s: Settings, group: string): (r: real)
    ensures r > 0.0
  {
    if group in s.ratios && s.ratios[group] > 0.0 then s.ratios[group] else 1.0
  }

  function ApplyRatio(base: int, ratio: real): int
    requires ratio > 0.0
  {
    if base <= 0 || ratio == 1.0 then base else Round(base as real * ratio)
  }

  function PriceResult(t: BillingType, price: real, ratio: real, perUnit: int, scope: Scope): PriceInfo
    requires ratio > 0.0 && perUnit > 0
  {
    var quota := if t == PerCall && price > 0.0 then ApplyRatio(CurrencyToQuota(price, perUnit), ratio) else 0;
    PriceInfo(t, quota, price, scope)
  }

  function Resolve(s: Settings, c: ItemPricing, kind: EntryKind, name: string, group: string): Resolution {
    var ratio := GroupRatio(s, group);
    var key := EntryKey(kind, name);
    if !s.billingEnabled then Resolved(BASE)
    else if key in c.entries && c.entries[key].billingType != Inherit then
      var tp := c.entries[key];
      Resolved(PriceResult(tp.billingType, tp.price, ratio, s.perUnit, if kind == Tool then ToolScope else EntryScope))
    else if kind != Tool && key !in c.entries then Resolved(BASE)
    else if c.billingType == Free then Resolved(PriceResult(Free, 0.0, ratio, s.perUnit, ServiceScope))
    else if c.billingType == PerCall && c.price > 0.0 then
      Resolved(PriceResult(PerCall, c.price, ratio, s.perUnit, ServiceScope))
    else if s.selfUse && s.defaultType == Free then Resolved(PriceResult(Free, 0.0, ratio, s.perUnit, GlobalScope))
    else if s.selfUse && s.defaultPrice > 0.0 then
      Resolved(PriceResult(PerCall, s.defaultPrice, ratio, s.perUnit, GlobalScope))
    else NotConfigured(BASE)
  }

  // ------------------------------------------------------------------ rounding

  /** The final price of a per-call rate: the quota of the unit price, times the group ratio. */
  function FinalPrice(price: real, perUnit: int, ratio: real): int
    requires ratio > 0.0 && perUnit > 0
  {
    ApplyRatio(CurrencyToQuota(price, perUnit), ratio)
  }

  lemma ScaleError(base: real, exact: real, ratio: real, scaled: real, scaledExact: real)
    requires ratio > 0.0 && -0.5 <= base - exact <= 0.5
    requires scaled == base * ratio && scaledExact == exact * ratio
    ensures -ratio <= 2.0 * (scaled - scaledExact) <= ratio
  {
    var d := base - exact;
    assert scaled - scaledExact == d * ratio;
    assert -0.5 * ratio <= d * ratio <= 0.5 * ratio by {
      ProductMonotone(-0.5, d, ratio);
      ProductMonotone(d, 0.5, ratio);
    }
  }

  lemma RatioErrorOf(base: int, exact: real, ratio: real, scaledExact: real)
    requires base >= 0 && ratio > 0.0 && -0.5 <= base as real - exact <= 0.5 && scaledExact == exact * ratio
    ensures -(ratio + 1.0) <= 2.0 * (ApplyRatio(base, ratio) as real - scaledExact) <= ratio + 1.0
  {
    var scaled := base as real * ratio;
    ScaleError(base as real, exact, ratio, scaled, scaledExact);
    RatioError(base, ratio);
    DoubleRounding(ApplyRatio(base, ratio) as real, scaled, scaledExact, ratio);
  }

  /** Rounding twice never drifts further than (ratio + 1) / 2 from the exact amount. */
  lemma RoundingError(price: real, perUnit: int, ratio: real)
    requires price > 0.0 && perUnit > 0 && ratio > 0.0
    ensures var exact := Exact(price, perUnit) * ratio;
            -(ratio + 1.0) <= 2.0 * (FinalPrice(price, perUnit, ratio) as real - exact) <= ratio + 1.0
  {
    RatioErrorOf(CurrencyToQuota(price, perUnit), Exact(price, perUnit), ratio, Exact(price, perUnit) * ratio);
  }

  lemma DoubleRounding(final: real, scaled: real, exact: real, ratio: real)
    requires -1.0 <= 2.0 * (final - scaled) <= 1.0
    requires -ratio <= 2.0 * (scaled - exact) <= ratio
    ensures -(ratio + 1.0) <= 2.0 * (final - exact) <= ratio + 1.0
  {
  }

  lemma RatioError(base: int, ratio: real)
    requires base >= 0 && ratio > 0.0
    ensures -0.5 <= ApplyRatio(base, ratio) as real - base as real * ratio <= 0.5
  {
    assert base as real * ratio >= 0.0;
  }

  lemma RatioMonotone(a: int, b: int, ratio: real)
    requires 0 <= a <= b && ratio > 0.0
    ensures 0 <= ApplyRatio(a, ratio) <= ApplyRatio(b, ratio)
  {
    var x, y := a as real * ratio, b as real * ratio;
    assert 0.0 <= x <= y by {
      ProductMonotone(0.0, a as real, ratio);
      ProductMonotone(a as real, b as real, ratio);
    }
    if a > 0 { RoundMonotone(x, y); }
  }

  /** A dearer unit price never yields a cheaper call. */
  lemma FinalPriceMonotone(p: real, q: real, perUnit: int, ratio: real)
    requires p <= q && perUnit > 0 && ratio > 0.0
    ensures 0 <= FinalPrice(p, perUnit, ratio) <= FinalPrice(q, perUnit, ratio)
  {
    var a, b := CurrencyToQuota(p, perUnit), CurrencyToQuota(q, perUnit);
    CurrencyMonotone(p, q, perUnit);
    RatioMonotone(a, b, ratio);
  }

  // ------------------------------------------------------------ listing gate

  /** explicitlyPriced / IsExplicitlyPriced. */
  predicate ExplicitlyPriced(t: BillingType, price: real) { t == Free || (t == PerCall && price > 0.0) }

  /** The resolver reports a missing price exactly for an entry that takes the service
      price (a tool without its own price, or an explicit inherit row) of a service that is
      not explicitly priced, when no global default applies. */
  lemma NotConfiguredIff(s: Settings, c: ItemPricing, kind: EntryKind, name: string, group: string)
    ensures var key := EntryKey(kind, name);
            Resolve(s, c, kind, name, group).NotConfigured?
            <==> && s.billingEnabled
                 && (if key in c.entries then c.entries[key].billingType == Inherit else kind == Tool)
                 && c.billingType != Free && !(c.billingType == PerCall && c.price > 0.0)
                 && !(s.selfUse && (s.defaultType == Free || s.defaultPrice > 0.0))
  {
  }

  /** What a call of a given rate costs a group: nothing unless the rate is per call and
      positive, else its quota times the group's ratio, which is 1 unless a positive one is set. */
  ghost predicate Costs(info: PriceInfo, t: BillingType, price: real, s: Settings, group: string) {
    var ratio := if group in s.ratios && s.ratios[group] > 0.0 then s.ratios[group] else 1.0;
    && info.billingType == t && info.decimal == price
    && info.quota == if t == PerCall && price > 0.0 then FinalPrice(price, s.perUnit, ratio) else 0
  }

  /** With billing on, an entry with a price of its own costs that price. */
  lemma EntryPaysItsPrice(s: Settings, c: ItemPricing, kind: EntryKind, name: string, group: string)
    requires s.billingEnabled && EntryKey(kind, name) in c.entries
    requires c.entries[EntryKey(kind, name)].billingType != Inherit
    ensures var own, r := c.entries[EntryKey(kind, name)], Resolve(s, c, kind, name, group);
            && r.Resolved? && Costs(r.info, own.billingType, own.price, s, group)
            && r.info.scope == if kind == Tool then ToolScope else EntryScope
  {
  }

  /** A tool without a price of its own, and any entry that inherits explicitly, costs what the
      service costs if that is priced, and in self-use mode the default otherwise. */
  lemma InheritedPrice(s: Settings, c: ItemPricing, kind: EntryKind, name: string, group: string)
    requires s.billingEnabled
    requires var key := EntryKey(kind, name);
             if key in c.entries then c.entries[key].billingType == Inherit else kind == Tool
    ensures var r := Resolve(s, c, kind, name, group);
            if c.billingType == Free then
              r.Resolved? && Costs(r.info, Free, 0.0, s, group) && r.info.scope == ServiceScope
            else if c.billingType == PerCall && c.price > 0.0 then
              r.Resolved? && Costs(r.info, PerCall, c.price, s, group) && r.info.scope == ServiceScope
            else if s.selfUse && s.defaultType == Free then
              r.Resolved? && Costs(r.info, Free, 0.0, s, group) && r.info.scope == GlobalScope
            else if s.selfUse && s.defaultPrice > 0.0 then
              r.Resolved? && Costs(r.info, PerCall, s.defaultPrice, s, group) && r.info.scope == GlobalScope
            else r == NotConfigured(PriceInfo(Free, 0, 0.0, FreeScope))
  {
  }

  /** With billing off everything is free, and so is a resource or prompt without a row. */
  lemma FreeCalls(s: Settings, c: ItemPricing, kind: EntryKind, name: string, group: string)
    requires !s.billingEnabled || (kind != Tool && EntryKey(kind, name) !in c.entries)
    ensures Resolve(s, c, kind, name, group) == Resolved(PriceInfo(Free, 0, 0.0, FreeScope))
  {
  }

  /** An entry price hides the service price and the defaults altogether; a resource or
      prompt without one is free whatever the service costs. */
  lemma EntryPriceWins(s: Settings, c: ItemPricing, c': ItemPricing, kind: EntryKind, name: string, group: string)
    requires c.entries == c'.entries
    requires var key := EntryKey(kind, name);
             if key in c.entries then c.entries[key].billingType != Inherit else kind != Tool
    ensures Resolve(s, c, kind, name, group) == Resolve(s, c', kind, name, group)
    ensures EntryKey(kind, name) !in c.entries ==> Resolve(s, c, kind, name, group) == Resolved(BASE)
  {
  }

  /** Whose price a resolved call pays. */
  lemma PriceComesFrom(s: Settings, c: ItemPricing, kind: EntryKind, name: string, group: string)
    requires Resolve(s, c, kind, name, group).Resolved?
    ensures var info, own := Resolve(s, c, kind, name, group).info, EntryKey(kind, name);
            && info.quota >= 0
            && (info.quota > 0 ==>
                  && s.billingEnabled && info.billingType == PerCall && info.decimal > 0.0
                  && info.quota == FinalPrice(info.decimal, s.perUnit, GroupRatio(s, group)))
            && (info.scope == ToolScope || info.scope == EntryScope ==>
                  && own in c.entries && c.entries[own].billingType != Inherit && info.decimal == c.entries[own].price
                  && (info.scope == ToolScope <==> kind == Tool))
            && (info.scope == ServiceScope ==>
                  && ExplicitlyPriced(c.billingType, c.price)
                  && (c.billingType == PerCall ==> info.decimal == c.price))
            && (info.scope == GlobalScope ==> s.selfUse && !ExplicitlyPriced(c.billingType, c.price))
  {
  }

  // --------------------------------------------------- admin operations on items

  type ItemId = int
  datatype Item = Item(enabled: bool, deleted: bool, billingType: BillingType, price: real)
  datatype PricingUpdate = PricingUpdate(id: ItemId, billingType: BillingType, price: real)

  datatype PriceCheck = PriceOk | NegativePrice | PriceOutOfRange

  function ValidatePrice(price: real): (c: PriceCheck)
    ensures c.PriceOk? <==> price == 0.0 || 0.001 <= price <= 999.0
    ensures c.NegativePrice? <==> price < 0.0
  {
    if price < 0.0 then NegativePrice
    else if price > 0.0 && (price < 0.001 || price > 999.0) then PriceOutOfRange
    else PriceOk
  }

  /** With self-use mode off, an enabled item is explicitly priced. */
  predicate Gated(items: map<ItemId, Item>) {
    forall i :: i in items && items[i].enabled && !items[i].deleted ==>
      ExplicitlyPriced(items[i].billingType, items[i].price)
  }

  function OrPerCall(t: BillingType): BillingType { if t == Other("") then PerCall else t }

  /** The item an update asks for. */
  function Edited(it: Item, status: Maybe<bool>, t: Maybe<BillingType>, price: Maybe<real>): Item {
    Item(status.Or(it.enabled), it.deleted, OrPerCall(t.Or(it.billingType)), price.Or(it.price))
  }

  datatype AdminOp =
    | AdminClone(id: ItemId, t: BillingType, price: real)
    | AdminUpdate(id: ItemId, status: Maybe<bool>, newType: Maybe<BillingType>, newPrice: Maybe<real>)
    | AdminReprice(us: seq<PricingUpdate>)
    | AdminDelete(id: ItemId)

  predicate PassesGate(t: BillingType, price: real, selfUse: bool) { selfUse || ExplicitlyPriced(t, price) }

  /** Which administrator calls are carried out. */
  predicate Accepted(items: map<ItemId, Item>, op: AdminOp, selfUse: bool) {
    match op
    case AdminClone(id, t, price) =>
      id !in items && ValidatePrice(price).PriceOk? && PassesGate(OrPerCall(t), price, selfUse)
    case AdminUpdate(id, status, t, price) =>
      && id in items && !items[id].deleted && (price.Just? ==> ValidatePrice(price.value).PriceOk?)
      && (var it := Edited(items[id], status, t, price); it.enabled ==> PassesGate(it.billingType, it.price, selfUse))
    case AdminReprice(us) =>
      forall u :: u in us ==> ValidatePrice(u.price).PriceOk? && PassesGate(u.billingType, u.price, selfUse)
    case AdminDelete(id) => id in items && !items[id].deleted
  }

  function Effect(items: map<ItemId, Item>, op: AdminOp): map<ItemId, Item> {
    match op
    case AdminClone(id, t, price) => items[id := Item(true, false, OrPerCall(t), price)]
    case AdminUpdate(id, status, t, price) =>
      if id in items then items[id := Edited(items[id], status, t, price)] else items
    case AdminReprice(us) => Repriced(items, us)
    case AdminDelete(id) => if id in items then items[id := items[id].(deleted := true)] else items
  }

  /** One administrator call; a refused one changes nothing. */
  function Administered(items: map<ItemId, Item>, op: AdminOp, selfUse: bool): map<ItemId, Item> {
    if Accepted(items, op, selfUse) then Effect(items, op) else items
  }

  /** With self-use mode off, no administrator call opens the gate. */
  lemma AdministeredKeepsGate(items: map<ItemId, Item>, op: AdminOp)
    requires Gated(items)
    ensures Gated(Administered(items, op, false))
  {
    if op.AdminReprice? && Accepted(items, op, false) { RepricedKeepsGate(items, op.us); }
  }

  function RunAdmin(items: map<ItemId, Item>, ops: seq<AdminOp>): map<ItemId, Item> {
    if ops == [] then items else Administered(RunAdmin(items, ops[..|ops| - 1]), ops[|ops| - 1], false)
  }

  lemma {:induction false} RepricedKeepsGate(items: map<ItemId, Item>, us: seq<PricingUpdate>)
    requires Gated(items) && forall u :: u in us ==> ExplicitlyPriced(u.billingType, u.price)
    ensures Gated(Repriced(items, us))
  {
    if us != [] {
      assert us[|us| - 1] in us;
      RepricedKeepsGate(items, us[..|us| - 1]);
    }
  }

  /** With self-use mode off throughout, every enabled item stays explicitly priced over any
      sequence of clones, updates, batch price changes and deletions, and a tool without a
      price of its own always resolves on it. */
  lemma {:induction false} EnabledItemsStayPriced(ops: seq<AdminOp>, id: ItemId, s: Settings,
                                                  entries: map<EntryKey, EntryPrice>, kind: EntryKind,
                                                  name: string, group: string)
    ensures var items := RunAdmin(map[], ops);
            && Gated(items)
            && (id in items && items[id].enabled && !items[id].deleted ==>
                  Resolve(s, ItemPricing(items[id].billingType, items[id].price, entries), kind, name, group).Resolved?)
  {
    if ops != [] {
      var before, op := RunAdmin(map[], ops[..|ops| - 1]), ops[|ops| - 1];
      EnabledItemsStayPriced(ops[..|ops| - 1], id, s, entries, kind, name, group);
      AdministeredKeepsGate(before, op);
    }
  }

  /** An item that is cloned at a per-call price in range is on sale for that price. */
  lemma ClonedItemIsSold(id: ItemId, price: real, s: Settings, name: string, group: string)
    requires s.billingEnabled && 0.001 <= price <= 999.0
    ensures var items := RunAdmin(map[], [AdminClone(id, PerCall, price)]);
            && items == map[id := Item(true, false, PerCall, price)]
            && (var r := Resolve(s, ItemPricing(items[id].billingType, items[id].price, map[]), Tool, name, group);
                r.Resolved? && Costs(r.info, PerCall, price, s, group))
  {
    var op := AdminClone(id, PerCall, price);
    assert [op][..0] == [];
    assert RunAdmin(map[], [op][..0]) == map[];
  }

  class Catalogue {
    var items: map<ItemId, Item>

    constructor ()
      ensures items == map[]
    {
      items := map[];
    }

    /** CloneFromService: a new item is enabled at once, so it passes the gate first. */
    method Clone(id: ItemId, t: BillingType, price: real, selfUse: bool) returns (ok: bool)
      modifies this
      ensures ok == (&& id !in old(items) && ValidatePrice(price).PriceOk?
                     && (selfUse || t == Free || ((t == PerCall || t == Other("")) && price > 0.0)))
      ensures items == if ok then old(items)[id := Item(true, false, if t == Other("") then PerCall else t, price)]
                       else old(items)
      ensures items == Administered(old(items), AdminClone(id, t, price), selfUse)
      ensures !selfUse && old(Gated(items)) ==> Gated(items)
    {
      if ValidatePrice(price) != PriceOk { return false; }
      var billingType := t;
      if billingType == Other("") { billingType := PerCall; }
      if !selfUse && !ExplicitlyPriced(billingType, price) { return false; }
      if id in items { return false; }
      items := items[id := Item(true, false, billingType, price)];
      return true;
    }

    /** UpdateItem, as far as status and price go: fields not sent stay, and whatever is sent,
        the item that results must pass the gate if it is enabled. */
    method UpdateItem(id: ItemId, status: Maybe<bool>, t: Maybe<BillingType>, price: Maybe<real>, selfUse: bool)
      returns (ok: bool)
      modifies this
      ensures ok <==> && id in old(items) && !old(items)[id].deleted
                      && (price.Just? ==> ValidatePrice(price.value).PriceOk?)
                      && (var was := old(items)[id];
                          var t' := if t.Just? then t.value else was.billingType;
                          var price' := if price.Just? then price.value else was.price;
                          (if status.Just? then status.value else was.enabled) && !selfUse ==>
                            t' == Free || ((t' == PerCall || t' == Other("")) && price' > 0.0))
      ensures if !ok then items == old(items)
              else
                var was := old(items)[id];
                var t' := if t.Just? then t.value else was.billingType;
                items == old(items)[id := Item(if status.Just? then status.value else was.enabled, false,
                                               if t' == Other("") then PerCall else t',
                                               if price.Just? then price.value else was.price)]
      ensures items == Administered(old(items), AdminUpdate(id, status, t, price), selfUse)
      ensures !selfUse && old(Gated(items)) ==> Gated(items)
    {
      if id !in items || items[id].deleted { return false; }
      if price.Just? && ValidatePrice(price.value) != PriceOk { return false; }
      var item := items[id];
      if status.Just? { item := item.(enabled := status.value); }
      if t.Just? { item := item.(billingType := t.value); }
      if price.Just? { item := item.(price := price.value); }
      if item.billingType == Other("") { item := item.(billingType := PerCall); }
      if item.enabled {
        if !selfUse && !ExplicitlyPriced(item.billingType, item.price) { return false; }
      }
      items := items[id := item];
      return true;
    }

    /** BatchUpdatePricing: all updates are checked before the first is written. */
    method BatchUpdatePricing(us: seq<PricingUpdate>, selfUse: bool) returns (ok: bool)
      modifies this
      ensures ok == forall u :: u in us ==>
                      && ValidatePrice(u.price).PriceOk?
                      && (selfUse || u.billingType == Free || (u.billingType == PerCall && u.price > 0.0))
      ensures items == if ok then Repriced(old(items), us) else old(items)
      ensures items == Administered(old(items), AdminReprice(us), selfUse)
      ensures !selfUse && old(Gated(items)) ==> Gated(items)
    {
      for i := 0 to |us|
        invariant forall u :: u in us[..i] ==>
                    ValidatePrice(u.price).PriceOk? && (selfUse || ExplicitlyPriced(u.billingType, u.price))
      {
        if ValidatePrice(us[i].price) != PriceOk || (!selfUse && !ExplicitlyPriced(us[i].billingType, us[i].price)) {
          assert us[i] in us;
          return false;
        }
      }
      assert us[..|us|] == us;
      ghost var before := items;
      for i := 0 to |us|
        invariant items == Repriced(before, us[..i])
        invariant !selfUse && Gated(before) ==> Gated(items)
      {
        assert us[..i + 1][..i] == us[..i] && us[i] in us;
        if us[i].id in items && !items[us[i].id].deleted {
          items := items[us[i].id := items[us[i].id].(billingType := us[i].billingType, price := us[i].price)];
        }
      }
      return true;
    }

    method DeleteItem(id: ItemId) returns (ok: bool)
      modifies this
      ensures ok == (id in old(items) && !old(items)[id].deleted)
      ensures items == if ok then old(items)[id := old(items)[id].(deleted := true)] else old(items)
      ensures forall selfUse :: items == Administered(old(items), AdminDelete(id), selfUse)
      ensures old(Gated(items)) ==> Gated(items)
    {
      if id !in items || items[id].deleted { return false; }
      items := items[id := items[id].(deleted := true)];
      return true;
    }
  }

  datatype Maybe<T> = Nothing | Just(value: T) {
    function Or(default: T): T { if Just? then value else default }
  }

  /** The service-level prices after a batch, later updates of the same item winning. */
  function Repriced(items: map<ItemId, Item>, us: seq<PricingUpdate>): map<ItemId, Item> {
    if us == [] then items
    else
      var m := Repriced(items, us[..|us| - 1]);
      var u := us[|us| - 1];
      if u.id in m && !m[u.id].deleted then m[u.id := m[u.id].(billingType := u.billingType, price := u.price)] else m
  }

  /** What a batch leaves in item i: its last update, or what was there. */
  lemma {:induction false} LastUpdateWins(items: map<ItemId, Item>, us: seq<PricingUpdate>, k: nat)
    requires k < |us| && us[k].id in items && !items[us[k].id].deleted
    requires forall j :: k < j < |us| ==> us[j].id != us[k].id
    ensures us[k].id in Repriced(items, us)
    ensures Repriced(items, us)[us[k].id] == items[us[k].id].(billingType := us[k].billingType, price := us[k].price)
  {
    var before := us[..|us| - 1];
    if k == |before| {
      OnlyPricesChange(items, before, us[k].id);
    } else {
      LastUpdateWins(items, before, k);
    }
  }

  lemma {:induction false} OnlyPricesChange(items: map<ItemId, Item>, us: seq<PricingUpdate>, i: ItemId)
    ensures var m := Repriced(items, us);
            && (i in m <==> i in items)
            && (i in items ==> m[i].enabled == items[i].enabled && m[i].deleted == items[i].deleted)
            && (i in items && (items[i].deleted || forall k :: 0 <= k < |us| ==> us[k].id != i) ==> m[i] == items[i])
  {
    if us != [] {
      OnlyPricesChange(items, us[..|us| - 1], i);
    }
  }
}
