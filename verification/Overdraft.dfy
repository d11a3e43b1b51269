/**
 How far trusted calls can overdraw an account. A trusted call is debited without a
 guard after the fact; everything else is guarded.
 */
module Overdraft {
  import opened Ledger
  import opened LedgerRuns

  /** At most n trusted candidates of user u are in flight, none dearer than p. */
  predicate UserCrowd(st: State, u: UserId, n: nat, p: nat) {
    && Sum(RiskCount(u), st.sessions) <= n
    && forall i :: 0 <= i < |st.sessions| && Val(RiskCount(u), st.sessions[i]) == 1 ==> st.sessions[i].consumed <= p
  }

  predicate KeyCrowd(st: State, k: KeyId, n: nat, p: nat) {
    && Sum(KeyRiskCount(k), st.sessions) <= n
    && forall i :: 0 <= i < |st.sessions| && Val(KeyRiskCount(k), st.sessions[i]) == 1 ==> st.sessions[i].consumed <= p
  }

  lemma {:induction false} RiskBounded(ss: seq<Sess>, count: Measure, risk: Measure, p: nat)
    requires (count.RiskCount? && risk == Risk(count.user)) || (count.KeyRiskCount? && risk == KeyRisk(count.key))
    requires forall i :: 0 <= i < |ss| && Val(count, ss[i]) == 1 ==> ss[i].consumed <= p
    ensures Sum(risk, ss) <= Sum(count, ss) * p
  {
    if ss != [] {
      var n := |ss| - 1;
      RiskBounded(ss[..n], count, risk, p);
      assert Val(risk, ss[n]) <= Val(count, ss[n]) * p;
      assert (Sum(count, ss[..n]) + Val(count, ss[n])) * p == Sum(count, ss[..n]) * p + Val(count, ss[n]) * p;
    }
  }

  lemma TimesPrice(count: int, n: nat, p: nat)
    requires count <= n
    ensures count * p <= n * p
  {
  }

  lemma CrowdLimitsRisk(st: State, u: UserId, n: nat, p: nat)
    requires UserCrowd(st, u, n, p)
    ensures Sum(Risk(u), st.sessions) <= n * p
  {
    RiskBounded(st.sessions, RiskCount(u), Risk(u), p);
    TimesPrice(Sum(RiskCount(u), st.sessions), n, p);
  }

  lemma CrowdLimitsKeyRisk(st: State, k: KeyId, n: nat, p: nat)
    requires KeyCrowd(st, k, n, p)
    ensures Sum(KeyRisk(k), st.sessions) <= n * p
  {
    RiskBounded(st.sessions, KeyRiskCount(k), KeyRisk(k), p);
    TimesPrice(Sum(KeyRiskCount(k), st.sessions), n, p);
  }

  /** A step either leaves the balance non-negative or lowers it by no more than it
      lowers the session's own risk. */
  lemma AdvanceRisk(r: Rows, s: Sess, fault: bool, failOpen: bool, u: UserId)
    requires WellFormed(r, s) && u in r.users
    ensures var (r', s') := Advance(r, s, fault, failOpen);
            && u in r'.users
            && (r'.users[u].quota >= 0
                || r'.users[u].quota - r.users[u].quota >= Val(Risk(u), s') - Val(Risk(u), s))
  {
  }

  lemma AdvanceKeyRisk(r: Rows, s: Sess, fault: bool, failOpen: bool, k: KeyId)
    requires WellFormed(r, s) && k in r.keys && !r.keys[k].unlimited
    ensures var (r', s') := Advance(r, s, fault, failOpen);
            && k in r'.keys
            && (r'.keys[k].used <= r.keys[k].quota
                || r'.keys[k].used - r.keys[k].used <= Val(KeyRisk(k), s) - Val(KeyRisk(k), s'))
  {
  }

  /** No other action lowers a balance, touches a key row or adds risk. */
  lemma OtherActionsAddNoRisk(st: State, a: Action)
    requires AllWellFormed(st) && !a.Proceed?
    ensures forall u :: u in st.rows.users ==>
              u in Apply(st, a).rows.users && Apply(st, a).rows.users[u].quota >= st.rows.users[u].quota
    ensures Apply(st, a).rows.keys == st.rows.keys
    ensures forall m: Measure :: m.Risk? || m.KeyRisk? ==> Change(st, a, m) <= 0
  {
  }

  lemma ApplyOverdraft(st: State, a: Action, u: UserId, limit: int)
    requires AllWellFormed(st) && u in st.rows.users
    requires Sum(Risk(u), Apply(st, a).sessions) <= limit
    requires st.rows.users[u].quota >= Sum(Risk(u), st.sessions) - limit
    ensures u in Apply(st, a).rows.users
    ensures Apply(st, a).rows.users[u].quota >= Sum(Risk(u), Apply(st, a).sessions) - limit
  {
    ApplySum(st, a, Risk(u));
    if !a.Proceed? {
      OtherActionsAddNoRisk(st, a);
    } else if a.i < |st.sessions| {
      AdvanceRisk(st.rows, st.sessions[a.i], a.fault, a.failOpen, u);
    }
  }

  lemma ApplyKeyOverdraft(st: State, a: Action, k: KeyId, limit: int)
    requires AllWellFormed(st) && k in st.rows.keys && !st.rows.keys[k].unlimited
    requires Sum(KeyRisk(k), Apply(st, a).sessions) <= limit
    requires st.rows.keys[k].used <= st.rows.keys[k].quota + limit - Sum(KeyRisk(k), st.sessions)
    ensures k in Apply(st, a).rows.keys
    ensures var row := Apply(st, a).rows.keys[k];
            row.used <= row.quota + limit - Sum(KeyRisk(k), Apply(st, a).sessions)
  {
    ApplySum(st, a, KeyRisk(k));
    if !a.Proceed? {
      OtherActionsAddNoRisk(st, a);
    } else if a.i < |st.sessions| {
      AdvanceKeyRisk(st.rows, st.sessions[a.i], a.fault, a.failOpen, k);
      AdvanceKeepsShape(st.rows, st.sessions[a.i], a.fault, a.failOpen);
    }
  }

  lemma {:induction false} NonNegativeRisk(ss: seq<Sess>, m: Measure)
    requires m.Risk? || m.KeyRisk?
    requires forall i :: 0 <= i < |ss| ==> ss[i].consumed >= 0
    ensures Sum(m, ss) >= 0
  {
    if ss != [] { NonNegativeRisk(ss[..|ss| - 1], m); }
  }

  /**
   Bounded overdraft. If along the whole run at most n trusted calls of u are in flight
   at once and each costs at most p, the balance never falls below what those calls may
   still take minus n * p, hence never below -n * p; without trusted calls (n = 0) it
   never falls below zero.
   */
  lemma {:induction false} OverdraftBounded(st: State, acts: seq<Action>, u: UserId, n: nat, p: nat)
    requires st.sessions == [] && u in st.rows.users && st.rows.users[u].quota >= 0
    requires forall i :: 0 <= i <= |acts| ==> UserCrowd(Run(st, acts[..i]), u, n, p)
    ensures var st' := Run(st, acts);
            && u in st'.rows.users
            && st'.rows.users[u].quota >= Sum(Risk(u), st'.sessions) - n * p
            && st'.rows.users[u].quota >= -(n * p)
  {
    RunKeepsShape(st, acts);
    if acts != [] {
      var before := acts[..|acts| - 1];
      forall i | 0 <= i <= |before| ensures UserCrowd(Run(st, before[..i]), u, n, p) {
        assert before[..i] == acts[..i];
      }
      OverdraftBounded(st, before, u, n, p);
      RunKeepsShape(st, before);
      assert acts[..|acts|] == acts;
      CrowdLimitsRisk(Run(st, acts), u, n, p);
      ApplyOverdraft(Run(st, before), acts[|acts| - 1], u, n * p);
    }
    NonNegativeRisk(Run(st, acts).sessions, Risk(u));
  }

  /** The matching bound for the budget of a limited key. */
  lemma {:induction false} KeyOverdraftBounded(st: State, acts: seq<Action>, k: KeyId, n: nat, p: nat)
    requires st.sessions == [] && k in st.rows.keys && !st.rows.keys[k].unlimited
    requires st.rows.keys[k].used <= st.rows.keys[k].quota
    requires forall i :: 0 <= i <= |acts| ==> KeyCrowd(Run(st, acts[..i]), k, n, p)
    ensures var st' := Run(st, acts);
            && k in st'.rows.keys
            && st'.rows.keys[k].used <= st'.rows.keys[k].quota + n * p - Sum(KeyRisk(k), st'.sessions)
            && st'.rows.keys[k].used <= st'.rows.keys[k].quota + n * p
  {
    RunKeepsShape(st, acts);
    if acts != [] {
      var before := acts[..|acts| - 1];
      forall i | 0 <= i <= |before| ensures KeyCrowd(Run(st, before[..i]), k, n, p) {
        assert before[..i] == acts[..i];
      }
      KeyOverdraftBounded(st, before, k, n, p);
      RunKeepsShape(st, before);
      assert acts[..|acts|] == acts;
      CrowdLimitsKeyRisk(Run(st, acts), k, n, p);
      ApplyKeyOverdraft(Run(st, before), acts[|acts| - 1], k, n * p);
    }
    NonNegativeRisk(Run(st, acts).sessions, KeyRisk(k));
  }

  // --------------------------------------------------------- the bound is reached

  /** The crowd limit holds at the start and after every action. */
  ghost predicate Uncrowded(st: State, acts: seq<Action>, u: UserId, n: nat, p: nat) {
    forall i :: 0 <= i <= |acts| ==> UserCrowd(Run(st, acts[..i]), u, n, p)
  }

  /** The action belongs to a site with settings o on which no statement fails. */
  predicate Under(o: Options, a: Action) {
    (a.Start? ==> a.o == o) && (a.Proceed? ==> !a.fault && a.failOpen == o.failOpen)
  }

  predicate AllUnder(o: Options, acts: seq<Action>) { forall a :: a in acts ==> Under(o, a) }

  ghost predicate Leads(o: Options, st: State, acts: seq<Action>, to: State, u: UserId, n: nat, p: nat) {
    Run(st, acts) == to && AllUnder(o, acts) && Uncrowded(st, acts, u, n, p)
  }

  /** Some run under these settings and within the crowd limit leads to the given state. */
  ghost predicate Reaches(o: Options, st: State, to: State, u: UserId, n: nat, p: nat) {
    exists acts: seq<Action> :: Leads(o, st, acts, to, u, n, p)
  }

  lemma OneMore(o: Options, st: State, acts: seq<Action>, now: State, a: Action, u: UserId, n: nat, p: nat)
    requires Leads(o, st, acts, now, u, n, p) && Under(o, a) && UserCrowd(Apply(now, a), u, n, p)
    ensures Leads(o, st, acts + [a], Apply(now, a), u, n, p)
  {
    var more := acts + [a];
    RunStep(st, acts, a);
    forall i | 0 <= i <= |more| ensures UserCrowd(Run(st, more[..i]), u, n, p) {
      if i <= |acts| { assert more[..i] == acts[..i]; } else { assert more[..i] == more; }
    }
  }

  lemma {:induction false} LateRisk(ss: seq<Sess>, u: UserId)
    requires forall i :: 0 <= i < |ss| && i < 2 ==> !AtRisk(ss[i])
    ensures Sum(RiskCount(u), ss) <= if |ss| <= 2 then 0 else |ss| - 2
  {
    if ss != [] { LateRisk(ss[..|ss| - 1], u); }
  }

  /** At most n sessions beside the first two, which are never at risk; all others cost p. */
  predicate Party(ss: seq<Sess>, n: nat, p: nat) {
    && |ss| <= n + 2
    && (forall i :: 0 <= i < |ss| && i < 2 ==> !AtRisk(ss[i]))
    && (forall i :: 2 <= i < |ss| ==> ss[i].consumed <= p)
  }

  /** Whatever holds of a state still holds one action later, within the limit. */
  ghost predicate Closed(r: State -> bool, o: Options, u: UserId, n: nat, p: nat) {
    forall now: State, a: Action {:trigger r(now), Apply(now, a)} ::
      r(now) && Under(o, a) && UserCrowd(Apply(now, a), u, n, p) ==> r(Apply(now, a))
  }

  lemma Onward(r: State -> bool, o: Options, now: State, a: Action, next: State, u: UserId, n: nat, p: nat)
    requires Closed(r, o, u, n, p) && r(now)
    requires Under(o, a) && Apply(now, a) == next && UserCrowd(next, u, n, p)
    ensures r(next)
  {
  }

  lemma ReachesIsClosed(o: Options, st: State, u: UserId, n: nat, p: nat)
    ensures Closed(to => Reaches(o, st, to, u, n, p), o, u, n, p)
  {
    forall now: State, a: Action | Reaches(o, st, now, u, n, p) && Under(o, a) && UserCrowd(Apply(now, a), u, n, p)
      ensures Reaches(o, st, Apply(now, a), u, n, p)
    {
      var acts: seq<Action> :| Leads(o, st, acts, now, u, n, p);
      OneMore(o, st, acts, now, a, u, n, p);
    }
  }

  lemma PartyIsNoCrowd(st: State, u: UserId, n: nat, p: nat)
    requires Party(st.sessions, n, p)
    ensures UserCrowd(st, u, n, p)
  {
    LateRisk(st.sessions, u);
  }

  lemma NothingDone(o: Options, st: State, u: UserId, n: nat, p: nat)
    requires st.sessions == []
    ensures Reaches(o, st, st, u, n, p)
  {
    var acts: seq<Action> := [];
    assert Leads(o, st, acts, st, u, n, p);
  }

  // The run. Two calls come first and are never trusted; they wait to be debited on a balance
  // above the trust threshold. Then n calls of price p read that balance and are trusted. The
  // first two drain it, and the trusted calls are confirmed.

  function RowsAt(u: UserId, quota: int): Rows {
    Rows(map[u := UserRow(quota, 0, 0, 0, 0)], map[1 := KeyRow(0, 0, false)])   // key 1 has no budget
  }

  function At(u: UserId, quota: int, ss: seq<Sess>): State { State(RowsAt(u, quota), map[], ss) }

  function Order(u: UserId, k: KeyId, unit: int): Request { Request(u, k, false, unit, false, false) }

  function Go(o: Options, i: nat): Action { Proceed(i, false, o.failOpen) }

  function Guarded(o: Options, u: UserId, k: KeyId, unit: int, pc: Pc): Sess {
    Sess(u, k, unit, Max(unit, o.floor), false, false, 0, o.trust, pc)
  }

  function Trusted(o: Options, u: UserId, p: int, state: int, pc: Pc): Sess {
    Sess(u, 0, p, Max(p, o.floor), true, false, state, o.trust, pc)
  }

  /** m trusted sessions, of which the first d have taken their price. */
  function Trusting(o: Options, u: UserId, p: int, m: nat, d: nat): (ss: seq<Sess>)
    ensures |ss| == m
    ensures forall i :: 0 <= i < m ==>
              ss[i] == if i < d then Trusted(o, u, p, 1, ConfirmKey) else Trusted(o, u, p, 0, Pending)
  {
    if m == 0 then []
    else
      Trusting(o, u, p, m - 1, d)
      + [if m - 1 < d then Trusted(o, u, p, 1, ConfirmKey) else Trusted(o, u, p, 0, Pending)]
  }

  function Scene(a: Sess, b: Sess, rest: seq<Sess>): seq<Sess> { [a, b] + rest }

  // Single actions, apart from any run.

  lemma Starts(o: Options, u: UserId, quota: int, ss: seq<Sess>, k: KeyId, unit: nat)
    requires unit > 0
    ensures Apply(At(u, quota, ss), Start(o, Order(u, k, unit))) == At(u, quota, ss + [Guarded(o, u, k, unit, Ready)])
  {
  }

  lemma Reads(o: Options, u: UserId, quota: int, ss: seq<Sess>, k: KeyId, unit: nat)
    ensures Apply(At(u, quota, ss + [Guarded(o, u, k, unit, Ready)]), Go(o, |ss|))
         == At(u, quota, ss + [Guarded(o, u, k, unit, UserRead(quota))])
  {
  }

  /** Trusted on a balance above the threshold, unless the key has too little left. */
  function Sorted(o: Options, u: UserId, quota: int, k: KeyId, unit: int): Sess {
    if k <= 0 && quota > o.trust then Trusted(o, u, unit, 0, Pending) else Guarded(o, u, k, unit, Debiting(false))
  }

  lemma Decides(o: Options, u: UserId, quota: int, ss: seq<Sess>, k: KeyId, unit: nat)
    requires k == 0 || k == 1
    requires (k == 0 && quota > o.trust) || quota >= Max(unit, o.floor)
    ensures Apply(At(u, quota, ss + [Guarded(o, u, k, unit, UserRead(quota))]), Go(o, |ss|))
         == At(u, quota, ss + [Sorted(o, u, quota, k, unit)])
  {
  }

  lemma DebitsAt(o: Options, u: UserId, quota: int, ss: seq<Sess>, i: nat, k: KeyId, unit: nat)
    requires i < |ss| && ss[i] == Guarded(o, u, k, unit, Debiting(false)) && 0 < Max(unit, o.floor) <= quota
    ensures Apply(At(u, quota, ss), Go(o, i))
         == At(u, quota - Max(unit, o.floor),
               ss[i := Guarded(o, u, k, unit, if k <= 0 then Pending else Reserving(false))])
  {
  }

  lemma SceneHead(a: Sess, b: Sess, rest: seq<Sess>, x: Sess)
    ensures Scene(a, b, rest)[0 := x] == Scene(x, b, rest) && Scene(a, b, rest)[1 := x] == Scene(a, x, rest)
  {
  }

  lemma Confirms(o: Options, u: UserId, quota: int, p: nat, a: Sess, b: Sess, rest: seq<Sess>, d: nat)
    requires p > 0 && d < |rest| && rest[d] == Trusted(o, u, p, 0, Pending)
    ensures Apply(At(u, quota, Scene(a, b, rest)), Confirm(d + 2))
         == At(u, quota, Scene(a, b, rest[d := Trusted(o, u, p, 1, ConfirmUser)]))
  {
  }

  lemma TakesPrice(o: Options, u: UserId, quota: int, p: nat, a: Sess, b: Sess, rest: seq<Sess>, d: nat)
    requires p > 0 && d < |rest| && rest[d] == Trusted(o, u, p, 1, ConfirmUser)
    ensures Apply(At(u, quota, Scene(a, b, rest)), Go(o, d + 2))
         == At(u, quota - p, Scene(a, b, rest[d := Trusted(o, u, p, 1, ConfirmKey)]))
  {
  }

  lemma CreditArrives(u: UserId, quota: int, ss: seq<Sess>, f: nat)
    ensures Apply(At(u, quota, ss), Grant(u, f)) == At(u, quota + f, ss)
  {
  }

  // The run itself.

  /** The state in which an arriving call has read the balance stays within the limit. */
  lemma ReaderFits(o: Options, u: UserId, n: nat, p: nat, quota: int, ss: seq<Sess>, reader: Sess)
    requires reader.pc == UserRead(quota) && reader.trust == o.trust && |ss| < n + 2 && Party(ss, n, p)
    requires |ss| < 2 ==> quota <= o.trust || (|ss| == 1 && n >= 1 && reader.consumed <= p)
    requires |ss| >= 2 ==> reader.consumed == p
    ensures UserCrowd(At(u, quota, ss + [reader]), u, n, p)
  {
    if |ss| >= 2 || quota <= o.trust {
      PartyGrows(u, quota, ss, reader, n, p);
    } else {
      LoneReader(u, ss + [reader], n, p);
    }
  }

  lemma PartyGrows(u: UserId, quota: int, ss: seq<Sess>, s: Sess, n: nat, p: nat)
    requires |ss| < n + 2 && Party(ss, n, p)
    requires if |ss| < 2 then !AtRisk(s) else s.consumed <= p
    ensures UserCrowd(At(u, quota, ss + [s]), u, n, p)
  {
    assert Party(ss + [s], n, p);
    PartyIsNoCrowd(At(u, quota, ss + [s]), u, n, p);
  }

  lemma ReachByStep(r: State -> bool, o: Options, u: UserId, n: nat, p: nat, quota: int,
                    ss: seq<Sess>, i: nat, ss': seq<Sess>)
    requires Closed(r, o, u, n, p)
    requires r(At(u, quota, ss)) && UserCrowd(At(u, quota, ss'), u, n, p)
    requires Apply(At(u, quota, ss), Go(o, i)) == At(u, quota, ss')
    ensures r(At(u, quota, ss'))
  {
  }

  /** A call of this price may arrive on this balance after these sessions. */
  predicate MayArrive(o: Options, n: nat, p: nat, quota: int, ss: seq<Sess>, k: KeyId, unit: nat) {
    && unit > 0 && (k == 0 || k == 1)
    && ((k == 0 && quota > o.trust) || quota >= Max(unit, o.floor))
    && |ss| < n + 2 && Party(ss, n, p)
    && (|ss| < 2 ==> quota <= o.trust || (|ss| == 1 && k == 1 && n >= 1 && unit <= p))
    && (|ss| >= 2 ==> unit == p)
  }

  lemma Begins(r: State -> bool, o: Options, u: UserId, n: nat, p: nat, quota: int, ss: seq<Sess>, k: KeyId, unit: nat)
    requires Closed(r, o, u, n, p) && MayArrive(o, n, p, quota, ss, k, unit) && r(At(u, quota, ss))
    ensures r(At(u, quota, ss + [Guarded(o, u, k, unit, Ready)]))
  {
    var s := ss + [Guarded(o, u, k, unit, Ready)];
    PartyGrows(u, quota, ss, Guarded(o, u, k, unit, Ready), n, p);
    Starts(o, u, quota, ss, k, unit);
    Onward(r, o, At(u, quota, ss), Start(o, Order(u, k, unit)), At(u, quota, s), u, n, p);
  }

  lemma ReadsBalance(r: State -> bool, o: Options, u: UserId, n: nat, p: nat, quota: int, ss: seq<Sess>,
                     k: KeyId, unit: nat)
    requires Closed(r, o, u, n, p) && MayArrive(o, n, p, quota, ss, k, unit)
    requires r(At(u, quota, ss + [Guarded(o, u, k, unit, Ready)]))
    ensures r(At(u, quota, ss + [Guarded(o, u, k, unit, UserRead(quota))]))
  {
    var reader := Guarded(o, u, k, unit, UserRead(quota));
    ReaderFits(o, u, n, p, quota, ss, reader);
    Reads(o, u, quota, ss, k, unit);
    ReachByStep(r, o, u, n, p, quota, ss + [Guarded(o, u, k, unit, Ready)], |ss|, ss + [reader]);
  }

  /** A call begins, reads the balance and is sorted into trusted or guarded. */
  lemma Arrives(r: State -> bool, o: Options, u: UserId, n: nat, p: nat, quota: int, ss: seq<Sess>, k: KeyId, unit: nat)
    requires Closed(r, o, u, n, p) && MayArrive(o, n, p, quota, ss, k, unit) && r(At(u, quota, ss))
    ensures r(At(u, quota, ss + [Sorted(o, u, quota, k, unit)]))
  {
    Begins(r, o, u, n, p, quota, ss, k, unit);
    ReadsBalance(r, o, u, n, p, quota, ss, k, unit);
    SortsIn(r, o, u, n, p, quota, ss, k, unit);
  }

  lemma SortsIn(r: State -> bool, o: Options, u: UserId, n: nat, p: nat, quota: int, ss: seq<Sess>, k: KeyId, unit: nat)
    requires Closed(r, o, u, n, p) && MayArrive(o, n, p, quota, ss, k, unit)
    requires r(At(u, quota, ss + [Guarded(o, u, k, unit, UserRead(quota))]))
    ensures r(At(u, quota, ss + [Sorted(o, u, quota, k, unit)]))
  {
    PartyGrows(u, quota, ss, Sorted(o, u, quota, k, unit), n, p);
    Decides(o, u, quota, ss, k, unit);
    var reader := Guarded(o, u, k, unit, UserRead(quota));
    ReachByStep(r, o, u, n, p, quota, ss + [reader], |ss|, ss + [Sorted(o, u, quota, k, unit)]);
  }

  /** Before any trusted call there is room for one reader above the threshold. */
  lemma LoneReader(u: UserId, ss: seq<Sess>, n: nat, p: nat)
    requires |ss| == 2 && !AtRisk(ss[0]) && n >= 1 && ss[1].consumed <= p
    ensures Sum(RiskCount(u), ss) <= n
    ensures forall i :: 0 <= i < |ss| && Val(RiskCount(u), ss[i]) == 1 ==> ss[i].consumed <= p
  {
    var first := ss[..1];
    assert first[..0] == [] && first[0] == ss[0];
    assert Sum(RiskCount(u), first) == 0;
  }

  lemma {:induction false} ReachTrusted(r: State -> bool, o: Options, u: UserId, n: nat, p: nat, quota: int,
                                        a: Sess, b: Sess, m: nat)
    requires Closed(r, o, u, n, p)
    requires p > 0 && m <= n && quota > o.trust && !AtRisk(a) && !AtRisk(b)
    requires r(At(u, quota, Scene(a, b, [])))
    ensures r(At(u, quota, Scene(a, b, Trusting(o, u, p, m, 0))))
  {
    if m > 0 {
      ReachTrusted(r, o, u, n, p, quota, a, b, m - 1);
      var ss := Scene(a, b, Trusting(o, u, p, m - 1, 0));
      Arrives(r, o, u, n, p, quota, ss, 0, p);
      assert ss + [Trusted(o, u, p, 0, Pending)] == Scene(a, b, Trusting(o, u, p, m, 0));
    }
  }

  lemma PartyScene(n: nat, p: nat, a: Sess, b: Sess, rest: seq<Sess>)
    requires |rest| <= n && !AtRisk(a) && !AtRisk(b)
    requires forall i :: 0 <= i < |rest| ==> rest[i].consumed == p
    ensures Party(Scene(a, b, rest), n, p)
  {
  }

  lemma ReachOneTaken(r: State -> bool, o: Options, u: UserId, n: nat, p: nat, a: Sess, b: Sess, d: nat, quota: int)
    requires Closed(r, o, u, n, p)
    requires p > 0 && d < n && !AtRisk(a) && !AtRisk(b)
    requires r(At(u, quota, Scene(a, b, Trusting(o, u, p, n, d))))
    ensures r(At(u, quota - p, Scene(a, b, Trusting(o, u, p, n, d + 1))))
  {
    var t := Trusting(o, u, p, n, d);
    var t1 := t[d := Trusted(o, u, p, 1, ConfirmUser)];
    var t2 := Trusting(o, u, p, n, d + 1);
    assert t1[d := Trusted(o, u, p, 1, ConfirmKey)] == t2;
    PartyScene(n, p, a, b, t1);
    PartyScene(n, p, a, b, t2);
    Confirms(o, u, quota, p, a, b, t, d);
    PartyIsNoCrowd(At(u, quota, Scene(a, b, t1)), u, n, p);
    Onward(r, o, At(u, quota, Scene(a, b, t)), Confirm(d + 2), At(u, quota, Scene(a, b, t1)), u, n, p);
    TakesPrice(o, u, quota, p, a, b, t1, d);
    PartyIsNoCrowd(At(u, quota - p, Scene(a, b, t2)), u, n, p);
    Onward(r, o, At(u, quota, Scene(a, b, t1)), Go(o, d + 2), At(u, quota - p, Scene(a, b, t2)), u, n, p);
  }

  /** d times p, one price after the other. */
  function Prices(d: nat, p: nat): nat { if d == 0 then 0 else Prices(d - 1, p) + p }

  lemma {:induction false} PricesProduct(d: nat, p: nat)
    ensures Prices(d, p) == d * p
  {
    if d > 0 { PricesProduct(d - 1, p); }
  }

  lemma {:induction false} ReachTaken(r: State -> bool, o: Options, u: UserId, n: nat, p: nat, a: Sess, b: Sess, d: nat)
    requires Closed(r, o, u, n, p)
    requires p > 0 && d <= n && !AtRisk(a) && !AtRisk(b)
    requires r(At(u, 0, Scene(a, b, Trusting(o, u, p, n, 0))))
    ensures r(At(u, 0 - Prices(d, p), Scene(a, b, Trusting(o, u, p, n, d))))
  {
    if d > 0 {
      ReachTaken(r, o, u, n, p, a, b, d - 1);
      ReachOneTaken(r, o, u, n, p, a, b, d - 1, 0 - Prices(d - 1, p));
    }
  }

  /** One of the first two calls is debited. */
  lemma ReachDebited(r: State -> bool, o: Options, u: UserId, n: nat, p: nat, quota: int, ss: seq<Sess>, i: nat,
                     k: KeyId, unit: nat)
    requires Closed(r, o, u, n, p)
    requires r(At(u, quota, ss)) && Party(ss, n, p)
    requires i < |ss| && i < 2 && ss[i] == Guarded(o, u, k, unit, Debiting(false)) && 0 < Max(unit, o.floor) <= quota
    ensures var next := ss[i := Guarded(o, u, k, unit, if k <= 0 then Pending else Reserving(false))];
            Party(next, n, p) && r(At(u, quota - Max(unit, o.floor), next))
  {
    var next := ss[i := Guarded(o, u, k, unit, if k <= 0 then Pending else Reserving(false))];
    DebitsAt(o, u, quota, ss, i, k, unit);
    PartyIsNoCrowd(At(u, quota - Max(unit, o.floor), next), u, n, p);
    Onward(r, o, At(u, quota, ss), Go(o, i), At(u, quota - Max(unit, o.floor), next), u, n, p);
  }

  lemma ReachCredited(r: State -> bool, o: Options, u: UserId, n: nat, p: nat, quota: int, ss: seq<Sess>, f: nat)
    requires Closed(r, o, u, n, p)
    requires Party(ss, n, p) && r(At(u, quota, ss))
    ensures r(At(u, quota + f, ss))
  {
    CreditArrives(u, quota, ss, f);
    PartyIsNoCrowd(At(u, quota + f, ss), u, n, p);
    Onward(r, o, At(u, quota, ss), Grant(u, f), At(u, quota + f, ss), u, n, p);
  }

  /** Floor up to the threshold: two keyless calls read a balance of exactly the threshold, so
      they are not trusted; then the credit comes in that makes the others trusted. */
  lemma ReachByCredit(r: State -> bool, o: Options, u: UserId, n: nat, p: nat)
    requires Closed(r, o, u, n, p)
    requires o.floor <= o.trust && r(At(u, o.trust, []))
    ensures var g0, g1 := Guarded(o, u, 0, o.trust, Debiting(false)), Guarded(o, u, 0, 1, Debiting(false));
            r(At(u, o.trust + Max(1, o.floor), Scene(g0, g1, [])))
  {
    var g0, g1 := Guarded(o, u, 0, o.trust, Debiting(false)), Guarded(o, u, 0, 1, Debiting(false));
    ReachPair(r, o, u, n, p, g0, g1);
    ReachCredited(r, o, u, n, p, o.trust, Scene(g0, g1, []), Max(1, o.floor));
  }

  lemma ReachPair(r: State -> bool, o: Options, u: UserId, n: nat, p: nat, g0: Sess, g1: Sess)
    requires Closed(r, o, u, n, p)
    requires o.floor <= o.trust && r(At(u, o.trust, []))
    requires g0 == Guarded(o, u, 0, o.trust, Debiting(false)) && g1 == Guarded(o, u, 0, 1, Debiting(false))
    ensures r(At(u, o.trust, Scene(g0, g1, []))) && Party(Scene(g0, g1, []), n, p)
  {
    Arrives(r, o, u, n, p, o.trust, [], 0, o.trust);
    assert [] + [g0] == [g0];
    Arrives(r, o, u, n, p, o.trust, [g0], 0, 1);
    assert [g0] + [g1] == Scene(g0, g1, []);
  }

  lemma DrainFirst(r: State -> bool, o: Options, u: UserId, n: nat, p: nat, quota: int,
                   unit: nat, b: Sess, rest: seq<Sess>)
    requires Closed(r, o, u, n, p)
    requires 0 < Max(unit, o.floor) <= quota && Party(Scene(Guarded(o, u, 0, unit, Debiting(false)), b, rest), n, p)
    requires r(At(u, quota, Scene(Guarded(o, u, 0, unit, Debiting(false)), b, rest)))
    ensures Party(Scene(Guarded(o, u, 0, unit, Pending), b, rest), n, p)
    ensures r(At(u, quota - Max(unit, o.floor), Scene(Guarded(o, u, 0, unit, Pending), b, rest)))
  {
    var a := Guarded(o, u, 0, unit, Debiting(false));
    SceneHead(a, b, rest, Guarded(o, u, 0, unit, Pending));
    ReachDebited(r, o, u, n, p, quota, Scene(a, b, rest), 0, 0, unit);
  }

  lemma DrainSecond(r: State -> bool, o: Options, u: UserId, n: nat, p: nat, quota: int,
                    k: KeyId, unit: nat, a: Sess, rest: seq<Sess>)
    requires Closed(r, o, u, n, p)
    requires 0 < Max(unit, o.floor) <= quota && Party(Scene(a, Guarded(o, u, k, unit, Debiting(false)), rest), n, p)
    requires r(At(u, quota, Scene(a, Guarded(o, u, k, unit, Debiting(false)), rest)))
    ensures r(At(u, quota - Max(unit, o.floor),
                           Scene(a, Guarded(o, u, k, unit, if k <= 0 then Pending else Reserving(false)), rest)))
  {
    var b := Guarded(o, u, k, unit, Debiting(false));
    SceneHead(a, b, rest, Guarded(o, u, k, unit, if k <= 0 then Pending else Reserving(false)));
    ReachDebited(r, o, u, n, p, quota, Scene(a, b, rest), 1, k, unit);
  }

  lemma DrainByCredit(r: State -> bool, o: Options, u: UserId, n: nat, p: nat, g0: Sess, g1: Sess)
    requires Closed(r, o, u, n, p)
    requires o.floor <= o.trust && p > 0
    requires g0 == Guarded(o, u, 0, o.trust, Debiting(false)) && g1 == Guarded(o, u, 0, 1, Debiting(false))
    requires r(At(u, o.trust + Max(1, o.floor), Scene(g0, g1, Trusting(o, u, p, n, 0))))
    ensures r(At(u, 0, Scene(g0.(pc := Pending), g1.(pc := Pending), Trusting(o, u, p, n, 0))))
  {
    var t := Trusting(o, u, p, n, 0);
    PartyScene(n, p, g0, g1, t);
    DrainFirst(r, o, u, n, p, o.trust + Max(1, o.floor), o.trust, g1, t);
    DrainSecond(r, o, u, n, p, Max(1, o.floor), 0, 1, g0.(pc := Pending), t);
  }

  lemma ReachFree(r: State -> bool, o: Options, u: UserId, n: nat, p: nat, quota: int, ss: seq<Sess>, free: Sess)
    requires Closed(r, o, u, n, p)
    requires |ss| == 0 && r(At(u, quota, ss)) && free == Begin(o, Order(u, 0, 0))
    ensures r(At(u, quota, ss + [free]))
  {
    PartyGrows(u, quota, ss, free, n, p);
    Onward(r, o, At(u, quota, ss), Start(o, Order(u, 0, 0)), At(u, quota, ss + [free]), u, n, p);
  }

  lemma SecondArrives(r: State -> bool, o: Options, u: UserId, n: nat, p: nat, quota: int, first: Sess)
    requires Closed(r, o, u, n, p)
    requires n >= 1 && p > 0 && quota >= Max(1, o.floor) && !AtRisk(first)
    requires r(At(u, quota, [first]))
    ensures r(At(u, quota, Scene(first, Guarded(o, u, 1, 1, Debiting(false)), [])))
  {
    var g := Guarded(o, u, 1, 1, Debiting(false));
    Arrives(r, o, u, n, p, quota, [first], 1, 1);
    assert [first] + [g] == Scene(first, g, []);
  }

  /** Floor above the threshold: a call without budget on its key is debited all the same, and
      only given its money back after the trusted ones have gone through. */
  lemma ReachByKey(r: State -> bool, o: Options, u: UserId, n: nat, p: nat, free: Sess)
    requires Closed(r, o, u, n, p)
    requires o.trust < o.floor && n >= 1 && p > 0 && r(At(u, o.floor, [])) && free == Begin(o, Order(u, 0, 0))
    ensures r(At(u, o.floor, Scene(free, Guarded(o, u, 1, 1, Debiting(false)), [])))
  {
    ReachFree(r, o, u, n, p, o.floor, [], free);
    assert [] + [free] == [free];
    SecondArrives(r, o, u, n, p, o.floor, free);
  }

  lemma DrainByKey(r: State -> bool, o: Options, u: UserId, n: nat, p: nat, free: Sess, g: Sess)
    requires Closed(r, o, u, n, p)
    requires o.trust < o.floor && p > 0 && g == Guarded(o, u, 1, 1, Debiting(false)) && !AtRisk(free)
    requires r(At(u, o.floor, Scene(free, g, Trusting(o, u, p, n, 0))))
    ensures r(At(u, 0, Scene(free, g.(pc := Reserving(false)), Trusting(o, u, p, n, 0))))
  {
    var t := Trusting(o, u, p, n, 0);
    PartyScene(n, p, free, g, t);
    DrainSecond(r, o, u, n, p, o.floor, 1, 1, free, t);
  }

  lemma ReachDrained(r: State -> bool, o: Options, u: UserId, n: nat, p: nat) returns (a: Sess, b: Sess)
    requires Closed(r, o, u, n, p)
    requires p > 0 && n >= 1 && r(At(u, if o.floor <= o.trust then o.trust else o.floor, []))
    ensures !AtRisk(a) && !AtRisk(b) && r(At(u, 0, Scene(a, b, Trusting(o, u, p, n, 0))))
  {
    if o.floor <= o.trust {
      a, b := Guarded(o, u, 0, o.trust, Debiting(false)), Guarded(o, u, 0, 1, Debiting(false));
      ReachByCredit(r, o, u, n, p);
      ReachTrusted(r, o, u, n, p, o.trust + Max(1, o.floor), a, b, n);
      DrainByCredit(r, o, u, n, p, a, b);
      a, b := a.(pc := Pending), b.(pc := Pending);
    } else {
      a, b := Begin(o, Order(u, 0, 0)), Guarded(o, u, 1, 1, Debiting(false));
      ReachByKey(r, o, u, n, p, a);
      ReachTrusted(r, o, u, n, p, o.floor, a, b, n);
      DrainByKey(r, o, u, n, p, a, b);
      b := b.(pc := Reserving(false));
    }
  }

  lemma ReachedBalance(o: Options, st: State, to: State, u: UserId, n: nat, p: nat)
    requires Reaches(o, st, to, u, n, p) && u in to.rows.users
    ensures exists acts: seq<Action> ::
              && AllUnder(o, acts) && Uncrowded(st, acts, u, n, p)
              && u in Run(st, acts).rows.users
              && Run(st, acts).rows.users[u].quota == to.rows.users[u].quota
  {
    var acts: seq<Action> :| Leads(o, st, acts, to, u, n, p);
    assert AllUnder(o, acts) && Uncrowded(st, acts, u, n, p);
  }

  lemma DrainedBy(o: Options, u: UserId, n: nat, p: nat) returns (st: State, to: State)
    requires n >= 1 && p > 0
    ensures st.sessions == [] && u in st.rows.users && st.rows.users[u].quota >= 0
    ensures Reaches(o, st, to, u, n, p) && u in to.rows.users && to.rows.users[u].quota == -(n * p)
  {
    var start := At(u, if o.floor <= o.trust then o.trust else o.floor, []);
    var r: State -> bool := to => Reaches(o, start, to, u, n, p);
    ReachesIsClosed(o, start, u, n, p);
    NothingDone(o, start, u, n, p);
    var a, b := ReachDrained(r, o, u, n, p);
    ReachTaken(r, o, u, n, p, a, b, n);
    PricesProduct(n, p);
    st, to := start, At(u, 0 - Prices(n, p), Scene(a, b, Trusting(o, u, p, n, n)));
  }

  /**
   The bound is the best possible: under any settings o, with every call started under o and
   no failing statement, for every number n of trusted calls and every price p, some run that
   never has more than n such calls in flight, none dearer than p, takes a non-negative
   balance to -(n * p).
   */
  lemma OverdraftAttained(o: Options, u: UserId, n: nat, p: nat) returns (st: State)
    ensures st.sessions == [] && u in st.rows.users && st.rows.users[u].quota >= 0
    ensures exists acts: seq<Action> ::
              && AllUnder(o, acts) && Uncrowded(st, acts, u, n, p)
              && u in Run(st, acts).rows.users
              && Run(st, acts).rows.users[u].quota == -(n * p)
  {
    var to;
    if n == 0 || p == 0 {
      st, to := At(u, 0, []), At(u, 0, []);   // an empty account is there already
      NothingDone(o, st, u, n, p);
    } else {
      st, to := DrainedBy(o, u, n, p);
    }
    ReachedBalance(o, st, to, u, n, p);
  }
}
