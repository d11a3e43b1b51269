/**
 Manual tests of marketplace services: the billing shell around one upstream call and
 the log row it leaves, which must agree with the ledger.
 */
module ManualTest {
  import opened Ledger
  import opened LedgerRuns
  import opened Billing
  import opened ChargePolicy

  datatype PriceOutcome = Priced(free: bool, unit: int) | NotConfigured | LoadFailed
  datatype BillStatus = SkippedBill | ChargedBill | RefundedBill | BlockedBill | DebtBill | PendingBill
  datatype LogRow = LogRow(user: UserId, status: BillStatus, quota: int)
  datatype UserInfo = UserInfo(found: bool, admin: bool)

  /** What the transport and the tool reported. */
  datatype UpstreamResult = UpstreamResult(transportOk: bool, isError: bool)

  /** The test costs something, if it gets through. */
  predicate Chargeable(user: UserInfo, price: PriceOutcome) {
    user.found && price.Priced? && !price.free && price.unit > 0
  }

  /** A session call has no API key, and every click is a request of its own. */
  function TestRequest(userId: UserId, user: UserInfo, price: PriceOutcome): Request {
    Request(userId, 0, false, if price.Priced? then price.unit else 0, user.admin, false)
  }

  /** The session PreConsume returns for a chargeable test. */
  function TestSession(r: Rows, o: Options, userId: UserId, user: UserInfo, price: PriceOutcome, f: Faults): Sess {
    PreConsumed(r, o, TestRequest(userId, user, price), f).1
  }

  /** The test stops before the upstream call: no user, no price configured, or not paid for. */
  predicate Aborts(r: Rows, o: Options, userId: UserId, user: UserInfo, price: PriceOutcome, f: Faults) {
    || !user.found
    || price.NotConfigured?
    || (Chargeable(user, price) && TestSession(r, o, userId, user, price, f).pc.Rejected?)
  }

  /** The row of a test: settled by its verdict if it was pre-consumed, blocked if it was
      stopped for its price, skipped otherwise. */
  function RowOfTest(r: Rows, o: Options, userId: UserId, user: UserInfo, price: PriceOutcome, f: Faults, charge: bool)
    : LogRow
  {
    var s := TestSession(r, o, userId, user, price, f);
    if Chargeable(user, price) && s.pc == Pending then RowOf(s, charge)
    else LogRow(userId, if user.found && Aborts(r, o, userId, user, price, f) then BlockedBill else SkippedBill, 0)
  }

  class McpServiceService {
    const billing: BillingService

    constructor () { billing := new BillingService(); }

    /** Resolve the price and pre-consume. `abort` stops the test before the upstream call. */
    method ManualEntryPreConsume(db: Database, o: Options, userId: UserId, user: UserInfo,
                                 price: PriceOutcome, f: Faults)
      returns (sess: BillingSession?, abort: bool, status: BillStatus)
      modifies db`users, db`keys
      ensures abort == Aborts(old(db.View()), o, userId, user, price, f)
      ensures sess != null <==>
                Chargeable(user, price) && TestSession(old(db.View()), o, userId, user, price, f).pc == Pending
      ensures !user.found ==> abort && status == SkippedBill
      ensures sess == null ==>
                && db.View() == old(db.View())
                && status == if user.found && abort then BlockedBill else SkippedBill
      ensures sess != null ==>
                && fresh(sess)
                && status == (if sess.debt then DebtBill else PendingBill)
                && var (rows, s) := PreConsumed(old(db.View()), o, TestRequest(userId, user, price), f);
                   db.View() == rows && sess.View() == FieldsOf(s)
    {
      if !user.found { return null, true, SkippedBill; }
      if price.Priced? && (price.free || price.unit <= 0) { return null, false, SkippedBill; }
      if price.NotConfigured? { return null, true, BlockedBill; }
      if price.LoadFailed? { return null, false, SkippedBill; }
      var q := TestRequest(userId, user, price);
      PreConsumeEffect(db.View(), o, q, f);
      var s, err := billing.PreConsume(db, o, q, f);
      if err != NoError { return null, true, BlockedBill; }
      return s, false, if s.debt then DebtBill else PendingBill;
    }

    /** Settle: a debt keeps its mark, success books the charge, failure refunds. */
    method ManualEntryFinalize(db: Database, sess: BillingSession, callOK: bool)
      returns (status: BillStatus, quota: int)
      modifies db`users, db`keys, sess
      ensures (status, quota) == BillOf(old(sess.debt), old(sess.consumed), callOK)
      ensures old(sess.debt) ==> db.View() == old(db.View())
      ensures !old(sess.debt) && callOK ==> db.View() == Confirmed(old(db.View()), old(sess.Session())).0
      ensures !old(sess.debt) && !callOK ==> db.View() == Refunded(old(db.View()), old(sess.Session())).0
    {
      if sess.debt { return DebtBill, 0; }
      if callOK {
        ConfirmKeepsPrice(db.View(), sess.Session());
        billing.Confirm(db, sess);
        if sess.consumed > 0 { return ChargedBill, sess.consumed; }
        return SkippedBill, 0;
      }
      billing.Refund(db, sess);
      return RefundedBill, 0;
    }

    /** A tool test of an installed marketplace service. The logged row says exactly what the
        balance shows: only a charged row has moved credit, by its quota, and a test that
        never reached the upstream has moved none. */
    method CallMarketplaceToolTested(db: Database, o: Options, co: ChargeOptions, userId: UserId, user: UserInfo,
                                     hasItem: bool, materialized: bool, toolExists: bool,
                                     price: PriceOutcome, f: Faults, upstream: UpstreamResult)
      returns (row: LogRow, called: bool)
      modifies db`users, db`keys
      ensures hasItem && materialized && toolExists ==>
                && called == !Aborts(old(db.View()), o, userId, user, price, f)
                && row == RowOfTest(old(db.View()), o, userId, user, price, f,
                                    upstream.transportOk && ShouldChargeCall(NoCallError, upstream.isError, co))
      ensures row.user == userId
      ensures row.status == ChargedBill ==>
                called && row.quota > 0 && db.View() == Charged(old(db.View()), userId, 0, row.quota)
      ensures row.status != ChargedBill ==> row.quota == 0 && db.View() == old(db.View())
      ensures row.status == BlockedBill ==> !called
      ensures row.status == RefundedBill ==> called && (!upstream.transportOk || upstream.isError)
      ensures row.status == ChargedBill && upstream.isError ==> co.onClientError
      ensures !hasItem || !materialized || !toolExists || !user.found ==> !called && row.status == SkippedBill
      ensures row.status != PendingBill
    {
      if !hasItem { return LogRow(userId, SkippedBill, 0), false; }
      if !materialized { return LogRow(userId, SkippedBill, 0), false; }
      if !toolExists { return LogRow(userId, SkippedBill, 0), false; }
      row, called := BilledCall(db, o, userId, user, price, f,
                                upstream.transportOk && ShouldChargeCall(NoCallError, upstream.isError, co));
    }

    /** The same shell for resources and prompts, where the transport alone decides. */
    method TestMarketplaceEntry(db: Database, o: Options, userId: UserId, user: UserInfo,
                                hasItem: bool, materialized: bool, price: PriceOutcome, f: Faults, callOK: bool)
      returns (row: LogRow, called: bool)
      modifies db`users, db`keys
      ensures hasItem && materialized ==>
                && called == !Aborts(old(db.View()), o, userId, user, price, f)
                && row == RowOfTest(old(db.View()), o, userId, user, price, f, callOK)
      ensures !hasItem || !materialized || !user.found ==> !called && row.status == SkippedBill
      ensures row.user == userId
      ensures row.status == ChargedBill ==>
                called && callOK && row.quota > 0 && db.View() == Charged(old(db.View()), userId, 0, row.quota)
      ensures row.status != ChargedBill ==> row.quota == 0 && db.View() == old(db.View())
      ensures row.status == BlockedBill ==> !called
      ensures row.status == RefundedBill ==> called && !callOK
      ensures row.status != PendingBill
    {
      if !hasItem { return LogRow(userId, SkippedBill, 0), false; }
      if !materialized { return LogRow(userId, SkippedBill, 0), false; }
      row, called := BilledCall(db, o, userId, user, price, f, callOK);
    }

    method BilledCall(db: Database, o: Options, userId: UserId, user: UserInfo,
                      price: PriceOutcome, f: Faults, charge: bool)
      returns (row: LogRow, called: bool)
      modifies db`users, db`keys
      ensures called == !Aborts(old(db.View()), o, userId, user, price, f)
      ensures row == RowOfTest(old(db.View()), o, userId, user, price, f, charge)
      ensures row.user == userId
      ensures row.status == ChargedBill ==>
                && called && charge && price.Priced? && row.quota == price.unit > 0
                && db.View() == Charged(old(db.View()), userId, 0, row.quota)
      ensures row.status != ChargedBill ==> row.quota == 0 && db.View() == old(db.View())
      ensures row.status == BlockedBill ==> !called
      ensures row.status == RefundedBill ==> called && !charge
      ensures row.status != PendingBill
    {
      ghost var r0 := db.View();
      ghost var q := TestRequest(userId, user, price);
      RefundUndoesPreConsume(r0, o, q, f);
      ConfirmChargesThePrice(r0, o, q, f);
      PreConsumeEffect(r0, o, q, f);
      var sess, abort, status := ManualEntryPreConsume(db, o, userId, user, price, f);
      if abort { return LogRow(userId, status, 0), false; }
      if sess == null { return LogRow(userId, status, 0), true; }
      ghost var r1, s := db.View(), PreConsumed(r0, o, q, f).1;
      TrustIsForgotten(r1, s);
      var quota;
      status, quota := ManualEntryFinalize(db, sess, charge);
      return LogRow(userId, status, quota), true;
    }
  }

  /** Once PreConsume has returned, settling no longer looks at the trust threshold. */
  lemma TrustIsForgotten(r: Rows, s: Sess)
    requires s.pc == Pending && s.state == 0
    ensures Confirmed(r, s.(trust := 1)).0 == Confirmed(r, s).0
    ensures Refunded(r, s.(trust := 1)).0 == Refunded(r, s).0
  {
    if s.consumed > 0 {
      var c, d := CallConfirm(s), CallRefund(s);
      if c.pc == ConfirmUser {
        SettlingIgnoresTrust(r, c);
        assert Drive(r, c, NO_FAULTS, false).0 == Drive(r, c.(trust := 1), NO_FAULTS, false).0;
      }
      if d.pc == RefundUser {
        SettlingIgnoresTrust(r, d);
        assert Drive(r, d, NO_FAULTS, false).0 == Drive(r, d.(trust := 1), NO_FAULTS, false).0;
      }
    }
  }

  lemma ConfirmKeepsPrice(r: Rows, s: Sess)
    requires s.pc == Pending || s.pc == Settled
    ensures Confirmed(r, s).1.consumed == s.consumed
  {
    var c := CallConfirm(s);
    if c.pc != Pending { SettlingIgnoresTrust(r, c); }
  }

  lemma {:induction false} SettlingIgnoresTrust(r: Rows, s: Sess)
    requires s.pc in {ConfirmUser, ConfirmKey, ConfirmUsed, RefundUser, RefundKey, Settled}
    ensures Drive(r, s, NO_FAULTS, false).0 == Drive(r, s.(trust := 1), NO_FAULTS, false).0
    ensures Drive(r, s, NO_FAULTS, false).1.consumed == s.consumed
    decreases Rank(s.pc)
  {
    if Rank(s.pc) > 0 {
      var (r', s') := Advance(r, s, false, false);
      SettlingIgnoresTrust(r', s');
    }
  }

  // ------------------------------------------------------------- who is billed

  /** What PreConsume of a keyless call asks of the balance. */
  predicate Affords(quota: int, o: Options, unit: int) { quota > o.trust || quota >= Max(unit, o.floor) }

  /** When every statement succeeds, whose test is charged its price, blocked, refunded and
      called: a test is paid for if it costs something, its user is not exempt and the balance
      affords it. A missing price blocks it, a price that could not be loaded does not. */
  lemma BilledIff(r: Rows, o: Options, userId: UserId, user: UserInfo, price: PriceOutcome, charge: bool)
    requires user.found && userId in r.users
    ensures var row := RowOfTest(r, o, userId, user, price, NO_FAULTS, charge);
            var pays := price.Priced? && !price.free && price.unit > 0 && (o.chargeAdmin || !user.admin);
            var affords := Affords(r.users[userId].quota, o, if price.Priced? then price.unit else 0);
            && (row.status == ChargedBill <==> pays && affords && charge)
            && (row.status == BlockedBill <==> price.NotConfigured? || (pays && !affords))
            && (pays && affords && !charge ==> row.status == RefundedBill)
            && (price.LoadFailed? || (price.Priced? && (price.free || price.unit <= 0)) ==> row.status == SkippedBill)
            && (Aborts(r, o, userId, user, price, NO_FAULTS) <==> row.status == BlockedBill)
            && row.quota == if row.status == ChargedBill then price.unit else 0
  {
    if Chargeable(user, price) {
      var q := TestRequest(userId, user, price);
      PreConsumeVerdict(r, o, q, NO_FAULTS);
      if !Exempt(o, q) { LetThroughIff(r, o, q); }
    }
  }

  /** With failing statements: a test is on debt exactly if it would be paid for, fail-open is
      set and a statement on its way fails; without fail-open it is blocked then. */
  lemma DebtIff(r: Rows, o: Options, userId: UserId, user: UserInfo, price: PriceOutcome, f: Faults, charge: bool)
    requires user.found
    ensures var row := RowOfTest(r, o, userId, user, price, f, charge);
            var pays := price.Priced? && !price.free && price.unit > 0 && (o.chargeAdmin || !user.admin);
            var fails := pays && (|| f.userRead || userId !in r.users
                                  || (f.debit && Max(price.unit, o.floor) <= r.users[userId].quota <= o.trust));
            && (row.status == DebtBill <==> fails && o.failOpen)
            && (fails && !o.failOpen ==> row.status == BlockedBill)
  {
    if Chargeable(user, price) { PreConsumeVerdict(r, o, TestRequest(userId, user, price), f); }
  }

  // -------------------------------------------------- the log under interleaving

  function BillOf(debt: bool, consumed: int, callOK: bool): (BillStatus, int) {
    if debt then (DebtBill, 0)
    else if callOK then (if consumed > 0 then (ChargedBill, consumed) else (SkippedBill, 0))
    else (RefundedBill, 0)
  }

  /** The row a finished shell logs for its session; a rejected PreConsume is blocked. */
  function RowOf(s: Sess, callOK: bool): LogRow {
    if s.pc.Rejected? then LogRow(s.user, BlockedBill, 0)
    else var (status, quota) := BillOf(s.debt, s.consumed, callOK); LogRow(s.user, status, quota)
  }

  predicate Finished(s: Sess) { s.pc == Settled || s.pc.Rejected? || s.consumed == 0 }

  /** SumQuotaConsumedByUser over the rows logged so far: a shell logs when it has finished. */
  function SumLogged(ss: seq<Sess>, verdict: seq<bool>, u: UserId): int
    requires |ss| <= |verdict|
  {
    if ss == [] then 0
    else
      var n := |ss| - 1;
      var row := RowOf(ss[n], verdict[n]);
      SumLogged(ss[..n], verdict, u)
      + if Finished(ss[n]) && row.user == u && row.status == ChargedBill then row.quota else 0
  }

  /** Session i's shell settles only by its own verdict. */
  predicate FollowsVerdict(acts: seq<Action>, verdict: seq<bool>) {
    forall a :: a in acts ==>
      (a.Confirm? && a.i < |verdict| ==> verdict[a.i]) && (a.Refund? && a.i < |verdict| ==> !verdict[a.i])
  }

  /** What a settling call writes into the state. */
  lemma SettlingState(st: State, a: Action, i: nat)
    requires i < |st.sessions| && Apply(st, a).sessions[i].state != st.sessions[i].state
    ensures var now := Apply(st, a).sessions[i].state;
            a.i == i && if a.Confirm? then now == 1 else a.Refund? && now == 2
  {
  }

  lemma {:induction false} StateFollowsVerdict(st: State, acts: seq<Action>, verdict: seq<bool>, i: nat)
    requires st.sessions == []
    requires FollowsVerdict(acts, verdict) && i < |verdict|
    ensures var ss := Run(st, acts).sessions;
            i < |ss| ==> (ss[i].state == 1 ==> verdict[i]) && (ss[i].state == 2 ==> !verdict[i])
  {
    if acts != [] {
      var before, a := acts[..|acts| - 1], acts[|acts| - 1];
      assert a in acts;
      StateFollowsVerdict(st, before, verdict, i);
      var mid := Run(st, before);
      StateMovesOnce(mid, a, i);
      if i < |mid.sessions| && Apply(mid, a).sessions[i].state != mid.sessions[i].state { SettlingState(mid, a, i); }
    }
  }

  lemma {:induction false} RowsAddUp(r: Rows, ss: seq<Sess>, verdict: seq<bool>, u: UserId)
    requires |ss| <= |verdict|
    requires forall i :: 0 <= i < |ss| ==> WellFormed(r, ss[i])
    requires forall i :: 0 <= i < |ss| ==> (ss[i].state == 1 ==> verdict[i]) && (ss[i].state == 2 ==> !verdict[i])
    ensures SumLogged(ss, verdict, u) == Sum(Spent(u), ss)
    ensures (forall i :: 0 <= i < |ss| ==> Finished(ss[i])) ==> Sum(Hold(u), ss) == 0
  {
    if ss != [] {
      RowsAddUp(r, ss[..|ss| - 1], verdict, u);
    }
  }

  /**
   The log agrees with the ledger at every moment of every interleaving: the charged rows
   of u logged so far add up to the growth of u's used_quota, and u's balance has moved by
   what came in minus exactly those rows and the holds of the calls still in flight, of
   which there are none when all shells have finished.
   */
  lemma LogAgreesWithLedger(st: State, acts: seq<Action>, verdict: seq<bool>, u: UserId)
    requires AllWellFormed(st) && st.sessions == [] && u in st.rows.users
    requires FollowsVerdict(acts, verdict) && |Run(st, acts).sessions| <= |verdict|
    ensures var st' := Run(st, acts);
            && u in st'.rows.users
            && (var row, row' := st.rows.users[u], st'.rows.users[u];
                && row'.used - row.used == SumLogged(st'.sessions, verdict, u)
                && (row'.quota + row'.aff) - (row.quota + row.aff)
                   == TotalInflow(st, acts, u) - SumLogged(st'.sessions, verdict, u) - Sum(Hold(u), st'.sessions))
            && ((forall i :: 0 <= i < |st'.sessions| ==> Finished(st'.sessions[i])) ==> Sum(Hold(u), st'.sessions) == 0)
  {
    Conservation(st, acts, u);
    RunKeepsShape(st, acts);
    var st' := Run(st, acts);
    forall i | 0 <= i < |st'.sessions|
      ensures (st'.sessions[i].state == 1 ==> verdict[i]) && (st'.sessions[i].state == 2 ==> !verdict[i])
    {
      StateFollowsVerdict(st, acts, verdict, i);
    }
    RowsAddUp(st'.rows, st'.sessions, verdict, u);
  }
}
