/**
 Runs of the ledger: any number of billing sessions, redemptions, invite rewards,
 transfers and grants, interleaved statement by statement.
 */
module LedgerRuns {
  import opened Ledger
  import opened Rounding

  type CodeId = int
  datatype CodeStatus = Available | Redeemed(user: UserId) | Disabled
  datatype CodeRow = CodeRow(amount: real, status: CodeStatus, expiredAt: int)
  datatype RedeemError = NotAvailable | AlreadyUsed | CodeDisabled | Expired
  datatype RedeemResult = Credited(quota: int) | Refused(error: RedeemError)

  datatype State = State(rows: Rows, codes: map<CodeId, CodeRow>, sessions: seq<Sess>)

  predicate Claimable(codes: map<CodeId, CodeRow>, c: CodeId, now: int) {
    c in codes && codes[c].status == Available && (codes[c].expiredAt == 0 || codes[c].expiredAt >= now)
  }

  /** Redemption.Redeem: claim the code and credit the user in one transaction. */
  function RedeemTx(r: Rows, codes: map<CodeId, CodeRow>, c: CodeId, u: UserId, now: int, perUnit: int)
    : (Rows, map<CodeId, CodeRow>, RedeemResult)
    requires perUnit > 0
  {
    if Claimable(codes, c, now) then
      var q := CurrencyToQuota(codes[c].amount, perUnit);
      (TopUp(r, u, q), codes[c := codes[c].(status := Redeemed(u))], Credited(q))
    else
      (r, codes, Refused(if c !in codes then NotAvailable
                         else if codes[c].status.Redeemed? then AlreadyUsed
                         else if codes[c].status.Disabled? then CodeDisabled
                         else Expired))
  }

  datatype ActionData =
    | Start(o: Options, q: Request)
    | Proceed(i: nat, fault: bool, failOpen: bool)
    | Confirm(i: nat)
    | Refund(i: nat)
    | Redeem(c: CodeId, user: UserId, now: int, perUnit: int)
    | SetCodeEnabled(c: CodeId, enabled: bool)
    | RewardInviter(inviter: UserId, amount: int)
    | TransferAff(user: UserId, amount: int)
    | Grant(to: UserId, amount: int)

  type Action = a: ActionData |
      (a.Redeem? ==> a.perUnit > 0) && (a.RewardInviter? ==> a.amount > 0)
      && (a.TransferAff? ==> a.amount > 0) && (a.Grant? ==> a.amount >= 0)
    witness Confirm(0)

  /** PreConsume has handed the session out, so Confirm and Refund can be called on it, also
      while another such call is at work or done: then the compare-and-swap fails. */
  predicate Returned(s: Sess) {
    s.pc in {Pending, ConfirmUser, ConfirmKey, ConfirmUsed, RefundUser, RefundKey, Settled}
  }

  function Apply(st: State, a: Action): State {
    match a
    case Start(o, q) => st.(sessions := st.sessions + [Begin(o, q)])
    case Proceed(i, fault, failOpen) =>
      if i < |st.sessions| then
        var (r, s) := Advance(st.rows, st.sessions[i], fault, failOpen);
        st.(rows := r, sessions := st.sessions[i := s])
      else st
    case Confirm(i) =>
      if i < |st.sessions| && Returned(st.sessions[i])
      then st.(sessions := st.sessions[i := CallConfirm(st.sessions[i])]) else st
    case Refund(i) =>
      if i < |st.sessions| && Returned(st.sessions[i])
      then st.(sessions := st.sessions[i := CallRefund(st.sessions[i])]) else st
    case Redeem(c, u, now, perUnit) =>
      var (r, codes, _) := RedeemTx(st.rows, st.codes, c, u, now, perUnit);
      st.(rows := r, codes := codes)
    case SetCodeEnabled(c, enabled) =>
      if c in st.codes && !st.codes[c].status.Redeemed?
      then st.(codes := st.codes[c := st.codes[c].(status := if enabled then Available else Disabled)]) else st
    case RewardInviter(u, amount) => st.(rows := Reward(st.rows, u, amount).0)
    case TransferAff(u, amount) => st.(rows := Transfer(st.rows, u, amount).0)
    case Grant(u, amount) => st.(rows := AddQuota(st.rows, u, amount))
  }

  function Run(st: State, acts: seq<Action>): State {
    if acts == [] then st else Apply(Run(st, acts[..|acts| - 1]), acts[|acts| - 1])
  }

  // ---------------------------------------------------------------- accounting

  /** Credit that enters user u's account from outside the ledger when `a` is applied in `st`. */
  function Inflow(st: State, a: Action, u: UserId): int {
    match a
    case Redeem(c, v, now, perUnit) =>
      if v == u && Claimable(st.codes, c, now) then CurrencyToQuota(st.codes[c].amount, perUnit) else 0
    case RewardInviter(v, amount) => if v == u then amount else 0
    case Grant(v, amount) => if v == u then amount else 0
    case _ => 0
  }

  function TotalInflow(st: State, acts: seq<Action>, u: UserId): int {
    if acts == [] then 0
    else
      var before := acts[..|acts| - 1];
      TotalInflow(st, before, u) + Inflow(Run(st, before), acts[|acts| - 1], u)
  }

  /** How often code c was turned into credit. */
  function Redemptions(st: State, acts: seq<Action>, c: CodeId): nat {
    if acts == [] then 0
    else
      var before := acts[..|acts| - 1];
      var a := acts[|acts| - 1];
      Redemptions(st, before, c)
      + if a.Redeem? && a.c == c && Claimable(Run(st, before).codes, c, a.now) then 1 else 0
  }

  /** How many Confirm/Refund calls on session i won the compare-and-swap. */
  function Settlements(st: State, acts: seq<Action>, i: nat): nat {
    if acts == [] then 0
    else
      var before := acts[..|acts| - 1];
      var a := acts[|acts| - 1];
      var ss := Run(st, before).sessions;
      Settlements(st, before, i)
      + if (a.Confirm? || a.Refund?) && a.i == i && i < |ss|
           && Apply(Run(st, before), a).sessions[i].state != ss[i].state
        then 1 else 0
  }

  // ---------------------------------------------------------------- invariants

  predicate AllWellFormed(st: State) {
    forall i :: 0 <= i < |st.sessions| ==> WellFormed(st.rows, st.sessions[i])
  }

  lemma ApplyKeepsShape(st: State, a: Action)
    requires AllWellFormed(st)
    ensures SameShape(st.rows, Apply(st, a).rows) && AllWellFormed(Apply(st, a))
  {
    var st' := Apply(st, a);
    if a.Proceed? && a.i < |st.sessions| {
      AdvanceKeepsShape(st.rows, st.sessions[a.i], a.fault, a.failOpen);
    }
    assert SameShape(st.rows, st'.rows);
    forall j | 0 <= j < |st'.sessions|
      ensures WellFormed(st'.rows, st'.sessions[j])
    {
      if j < |st.sessions| {
        ShapeKeepsWellFormed(st.rows, st'.rows, st.sessions[j]);
      }
    }
  }

  lemma {:induction false} RunKeepsShape(st: State, acts: seq<Action>)
    requires AllWellFormed(st)
    ensures SameShape(st.rows, Run(st, acts).rows) && AllWellFormed(Run(st, acts))
  {
    if acts != [] {
      RunKeepsShape(st, acts[..|acts| - 1]);
      ApplyKeepsShape(Run(st, acts[..|acts| - 1]), acts[|acts| - 1]);
    }
  }

  /** The change action `a` makes to measure m, through the one session it touches. */
  function Change(st: State, a: Action, m: Measure): int {
    var ss := st.sessions;
    match a
    case Start(o, q) => Val(m, Begin(o, q))
    case Proceed(i, f, fo) => if i < |ss| then Val(m, Advance(st.rows, ss[i], f, fo).1) - Val(m, ss[i]) else 0
    case Confirm(i) => if i < |ss| && Returned(ss[i]) then Val(m, CallConfirm(ss[i])) - Val(m, ss[i]) else 0
    case Refund(i) => if i < |ss| && Returned(ss[i]) then Val(m, CallRefund(ss[i])) - Val(m, ss[i]) else 0
    case _ => 0
  }

  lemma ApplySum(st: State, a: Action, m: Measure)
    ensures Sum(m, Apply(st, a).sessions) == Sum(m, st.sessions) + Change(st, a, m)
  {
    match a
    case Start(o, q) => SumAppend(m, st.sessions, Begin(o, q));
    case Proceed(i, f, fo) =>
      if i < |st.sessions| { SumUpdate(m, st.sessions, i, Advance(st.rows, st.sessions[i], f, fo).1); }
    case Confirm(i) =>
      if i < |st.sessions| { SumUpdate(m, st.sessions, i, CallConfirm(st.sessions[i])); }
    case Refund(i) =>
      if i < |st.sessions| { SumUpdate(m, st.sessions, i, CallRefund(st.sessions[i])); }
    case _ =>
  }

  /** Entering Confirm or Refund moves no credit. */
  lemma SettleCallIsNeutral(r: Rows, s: Sess, m: Measure)
    requires WellFormed(r, s) && Returned(s)
    requires m.Hold? || m.Spent? || m.KeyUse?
    ensures Val(m, CallConfirm(s)) == Val(m, s) == Val(m, CallRefund(s))
  {
  }

  /** What action a may do to user u's account. */
  predicate Conserved(st: State, a: Action, u: UserId)
    requires u in st.rows.users
  {
    var st' := Apply(st, a);
    && u in st'.rows.users
    && Wealth(st'.rows.users[u]) + Sum(Hold(u), st'.sessions)
       == Wealth(st.rows.users[u]) + Sum(Hold(u), st.sessions) + Inflow(st, a, u)
    && st'.rows.users[u].used - st.rows.users[u].used
       == Sum(Spent(u), st'.sessions) - Sum(Spent(u), st.sessions)
  }

  predicate OnSession(a: Action) { a.Proceed? || a.Confirm? || a.Refund? }

  lemma SessionConserves(st: State, a: Action, u: UserId)
    requires AllWellFormed(st) && u in st.rows.users && OnSession(a)
    ensures Conserved(st, a, u)
  {
    ApplySum(st, a, Hold(u));
    ApplySum(st, a, Spent(u));
    if a.i < |st.sessions| {
      var s := st.sessions[a.i];
      if a.Proceed? {
        AdvanceUserBalance(st.rows, s, a.fault, a.failOpen, u);
      } else if Returned(s) {
        SettleCallIsNeutral(st.rows, s, Hold(u));
        SettleCallIsNeutral(st.rows, s, Spent(u));
      }
    }
  }

  lemma BeginHoldsNothing(o: Options, q: Request, u: UserId)
    ensures Val(Hold(u), Begin(o, q)) == 0 == Val(Spent(u), Begin(o, q))
  {
  }

  lemma StartConserves(st: State, a: Action, u: UserId)
    requires u in st.rows.users && a.Start?
    ensures Conserved(st, a, u)
  {
    SumAppend(Hold(u), st.sessions, Begin(a.o, a.q));
    SumAppend(Spent(u), st.sessions, Begin(a.o, a.q));
    BeginHoldsNothing(a.o, a.q, u);
  }

  lemma RedeemConserves(st: State, a: Action, u: UserId)
    requires u in st.rows.users && a.Redeem?
    ensures Conserved(st, a, u)
  {
  }

  lemma OtherConserves(st: State, a: Action, u: UserId)
    requires u in st.rows.users && !OnSession(a) && !a.Start? && !a.Redeem?
    ensures Conserved(st, a, u)
  {
  }

  lemma ApplyConserves(st: State, a: Action, u: UserId)
    requires AllWellFormed(st) && u in st.rows.users
    ensures Conserved(st, a, u)
  {
    if OnSession(a) { SessionConserves(st, a, u); }
    else if a.Start? { StartConserves(st, a, u); }
    else if a.Redeem? { RedeemConserves(st, a, u); }
    else { OtherConserves(st, a, u); }
  }

  lemma ApplyConservesKey(st: State, a: Action, k: KeyId)
    requires AllWellFormed(st) && k in st.rows.keys
    ensures var st' := Apply(st, a);
            && k in st'.rows.keys
            && st'.rows.keys[k].used - st.rows.keys[k].used
               == Sum(KeyUse(k), st'.sessions) - Sum(KeyUse(k), st.sessions)
  {
    ApplySum(st, a, KeyUse(k));
    match a
    case Proceed(i, f, fo) =>
      if i < |st.sessions| { AdvanceKeyBalance(st.rows, st.sessions[i], f, fo, k); }
    case Confirm(i) =>
      if i < |st.sessions| && Returned(st.sessions[i]) { SettleCallIsNeutral(st.rows, st.sessions[i], KeyUse(k)); }
    case Refund(i) =>
      if i < |st.sessions| && Returned(st.sessions[i]) { SettleCallIsNeutral(st.rows, st.sessions[i], KeyUse(k)); }
    case _ =>
  }

  /**
   Conservation. After any interleaving, quota + aff_quota + used_quota + the
   outstanding holds of user u equal their starting value plus everything that was
   redeemed, rewarded or granted to u; and used_quota has grown by exactly the prices
   of u's confirmed sessions.
   */
  lemma {:induction false} Conservation(st: State, acts: seq<Action>, u: UserId)
    requires AllWellFormed(st) && u in st.rows.users
    ensures var st' := Run(st, acts);
            && u in st'.rows.users
            && Wealth(st'.rows.users[u]) + Sum(Hold(u), st'.sessions)
               == Wealth(st.rows.users[u]) + Sum(Hold(u), st.sessions) + TotalInflow(st, acts, u)
            && st'.rows.users[u].used - st.rows.users[u].used
               == Sum(Spent(u), st'.sessions) - Sum(Spent(u), st.sessions)
  {
    if acts != [] {
      var before := acts[..|acts| - 1];
      Conservation(st, before, u);
      RunKeepsShape(st, before);
      ApplyConserves(Run(st, before), acts[|acts| - 1], u);
    }
  }

  /** Per key: used_quota = starting value + holds + prices of confirmed sessions. */
  lemma {:induction false} KeyConservation(st: State, acts: seq<Action>, k: KeyId)
    requires AllWellFormed(st) && k in st.rows.keys
    ensures var st' := Run(st, acts);
            && k in st'.rows.keys
            && st'.rows.keys[k].used - st.rows.keys[k].used
               == Sum(KeyUse(k), st'.sessions) - Sum(KeyUse(k), st.sessions)
  {
    if acts != [] {
      var before := acts[..|acts| - 1];
      KeyConservation(st, before, k);
      RunKeepsShape(st, before);
      ApplyConservesKey(Run(st, before), acts[|acts| - 1], k);
    }
  }

  /** Each code becomes credit at most once, and a redeemed code stays redeemed. */
  lemma {:induction false} CodeRedeemedAtMostOnce(st: State, acts: seq<Action>, c: CodeId)
    requires c in st.codes
    ensures var st' := Run(st, acts);
            && c in st'.codes
            && (st.codes[c].status.Redeemed? ==> st'.codes[c] == st.codes[c] && Redemptions(st, acts, c) == 0)
            && (!st.codes[c].status.Redeemed? ==>
                  Redemptions(st, acts, c) == if st'.codes[c].status.Redeemed? then 1 else 0)
  {
    if acts != [] {
      CodeRedeemedAtMostOnce(st, acts[..|acts| - 1], c);
    }
  }

  /** What a redemption does in a run: the code of an available and unexpired coupon is marked
      with its user, whose balance and top-up total rise by its worth; any other attempt changes
      nothing. */
  lemma RedeemIff(st: State, c: CodeId, u: UserId, now: int, perUnit: int)
    requires perUnit > 0
    ensures var st', q := Apply(st, Redeem(c, u, now, perUnit)), RedeemTx(st.rows, st.codes, c, u, now, perUnit).2;
            if c in st.codes && st.codes[c].status == Available
               && (st.codes[c].expiredAt == 0 || now <= st.codes[c].expiredAt)
            then
              && q == Credited(CurrencyToQuota(st.codes[c].amount, perUnit))
              && st'.codes == st.codes[c := st.codes[c].(status := Redeemed(u))]
              && (u !in st.rows.users ==> st'.rows == st.rows)
              && (u in st.rows.users ==>
                    var row := st.rows.users[u];
                    st'.rows == st.rows.(users := st.rows.users[u := row.(quota := row.quota + q.quota,
                                                                          topup := row.topup + q.quota)]))
            else st' == st && q.Refused?
  {
  }

  /** An administrator switches a code on or off, except a redeemed one. */
  lemma CodeSwitched(st: State, c: CodeId, on: bool)
    ensures Apply(st, SetCodeEnabled(c, on)) ==
            if c in st.codes && !st.codes[c].status.Redeemed?
            then st.(codes := st.codes[c := st.codes[c].(status := if on then Available else Disabled)])
            else st
  {
  }

  /** What a transfer and a reward do in a run. */
  lemma TransferIff(st: State, u: UserId, amount: int)
    requires amount > 0
    ensures var st' := Apply(st, TransferAff(u, amount));
            if u in st.rows.users && st.rows.users[u].aff >= amount
            then
              var row := st.rows.users[u];
              st' == st.(rows := st.rows.(users := st.rows.users[u := row.(aff := row.aff - amount,
                                                                           quota := row.quota + amount)]))
            else st' == st
    ensures var st' := Apply(st, ActionData.RewardInviter(u, amount));
            if u in st.rows.users
            then
              var row := st.rows.users[u];
              st' == st.(rows := st.rows.(users := st.rows.users[u := row.(aff := row.aff + amount,
                                                                           affHistory := row.affHistory + amount)]))
            else st' == st
  {
  }

  /** Only the compare-and-swap of Confirm or Refund moves a session's state, once, off zero. */
  lemma StateMovesOnce(st: State, a: Action, i: nat)
    ensures var ss, ss' := st.sessions, Apply(st, a).sessions;
            && (i < |ss| ==>
                  && i < |ss'|
                  && (ss'[i].state == ss[i].state || ((a.Confirm? || a.Refund?) && a.i == i && ss[i].state == 0)))
            && (|ss| <= i < |ss'| ==> ss'[i].state == 0 && !a.Confirm? && !a.Refund?)
  {
  }

  /** Confirm and Refund, called any number of times in any order, settle a session once:
      exactly one call wins when the session is settled at the end, none otherwise. */
  lemma {:induction false} SettledExactlyOnce(st: State, acts: seq<Action>, i: nat)
    requires st.sessions == []
    ensures var ss := Run(st, acts).sessions;
            Settlements(st, acts, i) == if i < |ss| && ss[i].state != 0 then 1 else 0
  {
    if acts != [] {
      var before := acts[..|acts| - 1];
      SettledExactlyOnce(st, before, i);
      StateMovesOnce(Run(st, before), acts[|acts| - 1], i);
    }
  }

  /** The steps session i takes when nobody interferes, as actions of the interleaving. */
  function DriveActions(r: Rows, s: Sess, f: Faults, failOpen: bool, i: nat): seq<Action>
    decreases Rank(s.pc)
  {
    if Rank(s.pc) == 0 then []
    else
      var (r', s') := Advance(r, s, FaultAt(f, s.pc), failOpen);
      [Proceed(i, FaultAt(f, s.pc), failOpen)] + DriveActions(r', s', f, failOpen, i)
  }

  lemma RunStep(st: State, acts: seq<Action>, a: Action)
    ensures Run(st, acts + [a]) == Apply(Run(st, acts), a)
  {
  }

  lemma {:induction false} RunAfter(st: State, a: Action, acts: seq<Action>)
    ensures Run(st, [a] + acts) == Run(Apply(st, a), acts)
  {
    if acts == [] {
      assert [a] + acts == [] + [a];
      RunStep(st, [], a);
    } else {
      var most, last := acts[..|acts| - 1], acts[|acts| - 1];
      RunAfter(st, a, most);
      RunStep(st, [a] + most, last);
      assert [a] + most + [last] == [a] + acts;
    }
  }

  lemma StepLowersRank(r: Rows, s: Sess, fault: bool, failOpen: bool)
    requires Rank(s.pc) > 0
    ensures Rank(Advance(r, s, fault, failOpen).1.pc) < Rank(s.pc)
  {
  }

  lemma DriveUnfolds(r: Rows, s: Sess, f: Faults, failOpen: bool, i: nat)
    requires Rank(s.pc) > 0
    ensures var (r', s') := Advance(r, s, FaultAt(f, s.pc), failOpen);
            && Rank(s'.pc) < Rank(s.pc)
            && Drive(r, s, f, failOpen) == Drive(r', s', f, failOpen)
            && DriveActions(r, s, f, failOpen, i)
               == [Proceed(i, FaultAt(f, s.pc), failOpen)] + DriveActions(r', s', f, failOpen, i)
  {
    StepLowersRank(r, s, FaultAt(f, s.pc), failOpen);
  }

  /** The sequential methods of the billing service are one of the interleavings. */
  lemma {:induction false} DriveIsARun(st: State, i: nat, s: Sess, f: Faults, failOpen: bool)
    requires i < |st.sessions| && st.sessions[i] == s
    ensures var (r', s') := Drive(st.rows, s, f, failOpen);
            Run(st, DriveActions(st.rows, s, f, failOpen, i)) == State(r', st.codes, st.sessions[i := s'])
    decreases Rank(s.pc)
  {
    if Rank(s.pc) == 0 {
      assert st.sessions[i := s] == st.sessions;
    } else {
      DriveUnfolds(st.rows, s, f, failOpen, i);
      var a: Action := Proceed(i, FaultAt(f, s.pc), failOpen);
      var st1 := Apply(st, a);
      DriveIsARun(st1, i, st1.sessions[i], f, failOpen);
      RunAfter(st, a, DriveActions(st1.rows, st1.sessions[i], f, failOpen, i));
    }
  }
}
