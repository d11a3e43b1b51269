/**
 The billing service as it is written: a database whose rows are updated in place, a
 session object and the methods PreConsume, Confirm and Refund. Each method is proved
 against the ledger's step functions.
 */
module Billing {
  import opened Ledger
  import opened LedgerRuns
  import Rounding

  datatype Lookup<T> = Found(value: T) | LookupFailed
  datatype Affected = Count(rows: int) | StatementFailed

  class Database {
    var users: map<UserId, UserRow>
    var keys: map<KeyId, KeyRow>
    var codes: map<CodeId, CodeRow>

    ghost function View(): Rows
      reads this
    {
      Rows(users, keys)
    }

    constructor (users: map<UserId, UserRow>, keys: map<KeyId, KeyRow>, codes: map<CodeId, CodeRow>)
      ensures View() == Rows(users, keys) && this.codes == codes
    {
      this.users, this.keys, this.codes := users, keys, codes;
    }

    method GetUserQuota(u: UserId, fault: bool) returns (q: Lookup<int>)
      ensures q == if fault || u !in users then LookupFailed else Found(users[u].quota)
    {
      if fault || u !in users { return LookupFailed; }
      return Found(users[u].quota);
    }

    method GetApiKeyByID(k: KeyId, fault: bool) returns (row: Lookup<KeyRow>)
      ensures row == if fault || k !in keys then LookupFailed else Found(keys[k])
    {
      if fault || k !in keys { return LookupFailed; }
      return Found(keys[k]);
    }

    method IncreaseUserQuota(u: UserId, d: int)
      modifies this`users
      ensures users == if u in old(users) then old(users)[u := old(users)[u].(quota := old(users)[u].quota + d)]
                       else old(users)
      ensures View() == AddQuota(old(View()), u, d)
    {
      if u in users {
        users := users[u := users[u].(quota := users[u].quota + d)];
      }
    }

    method DecreaseUserQuotaAtomic(u: UserId, q: int, fault: bool) returns (res: Affected)
      modifies this`users
      ensures fault ==> res == StatementFailed && View() == old(View())
      ensures !fault ==> res == Count(if q <= 0 || (u in old(users) && old(users)[u].quota >= q) then 1 else 0)
      ensures users == if !fault && q > 0 && u in old(users) && old(users)[u].quota >= q
                       then old(users)[u := old(users)[u].(quota := old(users)[u].quota - q)] else old(users)
      ensures !fault ==> res == Count(DebitGuarded(old(View()), u, q).1) && View() == DebitGuarded(old(View()), u, q).0
    {
      if fault { return StatementFailed; }
      if q <= 0 { return Count(1); }
      if u !in users || users[u].quota < q { return Count(0); }
      users := users[u := users[u].(quota := users[u].quota - q)];
      return Count(1);
    }

    method DecreaseUserQuotaUnguarded(u: UserId, q: int)
      modifies this`users
      ensures users == if q > 0 && u in old(users)
                       then old(users)[u := old(users)[u].(quota := old(users)[u].quota - q)] else old(users)
      ensures View() == DebitUnguarded(old(View()), u, q)
    {
      if q <= 0 { return; }
      if u in users {
        users := users[u := users[u].(quota := users[u].quota - q)];
      }
    }

    method AdjustUserUsedQuota(u: UserId, delta: int)
      modifies this`users
      ensures users == if u in old(users) then old(users)[u := old(users)[u].(used := old(users)[u].used + delta)]
                       else old(users)
      ensures View() == AddUsed(old(View()), u, delta)
    {
      if delta == 0 || u !in users {
        assert u in users ==> users[u := users[u].(used := users[u].used + delta)] == users;
        return;
      }
      users := users[u := users[u].(used := users[u].used + delta)];
    }

    method DecreaseApiKeyQuotaAtomic(k: KeyId, need: int, fault: bool) returns (res: Affected)
      modifies this`keys
      ensures fault ==> res == StatementFailed && View() == old(View())
      ensures !fault ==> res == Count(if need <= 0 || (k in old(keys) && !old(keys)[k].unlimited
                                                       && old(keys)[k].quota - old(keys)[k].used >= need)
                                      then 1 else 0)
      ensures keys == if !fault && need > 0 && res == Count(1)
                      then old(keys)[k := old(keys)[k].(used := old(keys)[k].used + need)] else old(keys)
      ensures !fault ==>
                res == Count(ReserveKey(old(View()), k, need).1) && View() == ReserveKey(old(View()), k, need).0
    {
      if fault { return StatementFailed; }
      if need <= 0 { return Count(1); }
      if k !in keys || keys[k].unlimited || keys[k].quota - keys[k].used < need { return Count(0); }
      keys := keys[k := keys[k].(used := keys[k].used + need)];
      return Count(1);
    }

    method AdjustApiKeyUsedQuota(k: KeyId, delta: int)
      modifies this`keys
      ensures keys == if k in old(keys) then old(keys)[k := old(keys)[k].(used := old(keys)[k].used + delta)]
                      else old(keys)
      ensures View() == AddKeyUsed(old(View()), k, delta)
    {
      if delta == 0 || k !in keys {
        assert k in keys ==> keys[k := keys[k].(used := keys[k].used + delta)] == keys;
        return;
      }
      keys := keys[k := keys[k].(used := keys[k].used + delta)];
    }

    method RewardInviter(u: UserId, reward: int) returns (found: bool)
      modifies this`users
      ensures View() == Reward(old(View()), u, reward).0 && found == (u in old(users))
      ensures users == if !found then old(users)
                       else
                         var row := old(users)[u];
                         old(users)[u := row.(aff := row.aff + reward, affHistory := row.affHistory + reward)]
    {
      if u !in users { return false; }
      var row := users[u];
      users := users[u := row.(aff := row.aff + reward, affHistory := row.affHistory + reward)];
      return true;
    }

    method TransferAffQuota(u: UserId, q: int) returns (ok: bool)
      modifies this`users
      ensures View() == Transfer(old(View()), u, q).0
      ensures ok == (u in old(users) && old(users)[u].aff >= q)
      ensures users == if !ok then old(users)
                       else
                         var row := old(users)[u];
                         old(users)[u := row.(aff := row.aff - q, quota := row.quota + q)]
    {
      if u !in users || users[u].aff < q { return false; }
      var row := users[u];
      users := users[u := row.(aff := row.aff - q, quota := row.quota + q)];
      return true;
    }

    /** Claim and credit in one transaction; the error says why a claim was refused. */
    method Redeem(c: CodeId, u: UserId, now: int, perUnit: int) returns (res: RedeemResult)
      requires perUnit > 0
      modifies this`users, this`codes
      ensures (View(), codes, res) == RedeemTx(old(View()), old(codes), c, u, now, perUnit)
      ensures res.Credited? <==> && c in old(codes) && old(codes)[c].status == Available
                                 && (old(codes)[c].expiredAt == 0 || old(codes)[c].expiredAt >= now)
      ensures res.Credited? ==>
                && res.quota == Rounding.CurrencyToQuota(old(codes)[c].amount, perUnit)
                && codes == old(codes)[c := old(codes)[c].(status := Redeemed(u))]
      ensures users == if !res.Credited? || u !in old(users) then old(users)
                       else
                         var row := old(users)[u];
                         old(users)[u := row.(quota := row.quota + res.quota, topup := row.topup + res.quota)]
      ensures res.Refused? ==>
                && codes == old(codes)
                && (res.error == NotAvailable <==> c !in codes)
                && (res.error == AlreadyUsed <==> c in codes && codes[c].status.Redeemed?)
                && (res.error == CodeDisabled <==> c in codes && codes[c].status.Disabled?)
    {
      if c !in codes { return Refused(NotAvailable); }
      var code := codes[c];
      if code.status != Available || (code.expiredAt != 0 && code.expiredAt < now) {
        match code.status
        case Redeemed(_) => return Refused(AlreadyUsed);
        case Disabled => return Refused(CodeDisabled);
        case Available => return Refused(Expired);
      }
      codes := codes[c := code.(status := Redeemed(u))];
      var q := Rounding.CurrencyToQuota(code.amount, perUnit);
      if u in users {
        users := users[u := users[u].(quota := users[u].quota + q)];
        users := users[u := users[u].(topup := users[u].topup + q)];
        assert users == TopUp(old(View()), u, q).users;
      }
      return Credited(q);
    }
  }

  /** The fields of a BillingSession. */
  datatype Fields = Fields(user: UserId, key: KeyId, consumed: int, pre: int, trusted: bool, debt: bool, state: int)

  ghost function FieldsOf(s: Sess): Fields { Fields(s.user, s.key, s.consumed, s.pre, s.trusted, s.debt, s.state) }

  class BillingSession {
    var user: UserId
    var key: KeyId
    var consumed: int
    var pre: int
    var trusted: bool
    var debt: bool
    var state: int

    constructor (user: UserId, key: KeyId)
      ensures View() == Fields(user, key, 0, 0, false, false, 0)
    {
      this.user, this.key, this.consumed, this.pre := user, key, 0, 0;
      this.trusted, this.debt, this.state := false, false, 0;
    }

    ghost function View(): Fields
      reads this
    {
      Fields(user, key, consumed, pre, trusted, debt, state)
    }

    /** The session as the ledger sees it once PreConsume has returned. */
    ghost function Session(): Sess
      reads this
    {
      Sess(user, key, consumed, pre, trusted, debt, state, 1, if state == 0 then Pending else Settled)
    }
  }

  datatype BillingError = NoError | InsufficientQuota | DatabaseError

  ghost function ErrorOf(pc: Pc): BillingError {
    if pc.Rejected? then (if pc.dbError then DatabaseError else InsufficientQuota) else NoError
  }

  class BillingService {
    constructor () {}

    method HandleBillingDBError(sess: BillingSession, failOpen: bool) returns (err: BillingError)
      modifies sess
      ensures failOpen ==>
                && err == NoError
                && sess.View() == old(sess.View()).(debt := true, consumed := 0, pre := 0, trusted := false)
      ensures !failOpen ==> err == DatabaseError && sess.View() == old(sess.View())
    {
      if failOpen {
        sess.debt, sess.consumed, sess.pre, sess.trusted := true, 0, 0, false;
        return NoError;
      }
      return DatabaseError;
    }

    /** Check and pre-consume. Database, session and error agree with the ledger's steps. */
    method PreConsume(db: Database, o: Options, q: Request, f: Faults) returns (sess: BillingSession, err: BillingError)
      modifies db`users, db`keys
      ensures fresh(sess)
      ensures var (rows, s) := PreConsumed(old(db.View()), o, q, f);
              db.View() == rows && sess.View() == FieldsOf(s) && err == ErrorOf(s.pc)
    {
      sess := new BillingSession(q.user, q.key);
      if q.free || q.unit <= 0 { return sess, NoError; }
      if !o.chargeAdmin && q.admin { return sess, NoError; }
      if q.alreadyCharged { return sess, NoError; }

      var consumed := q.unit;
      sess.consumed := consumed;
      var preConsumed := consumed;
      if o.floor > preConsumed { preConsumed := o.floor; }
      sess.pre := preConsumed;

      err := CheckBalances(db, o, q, f, sess);
    }

    /** Read both balances: trust the caller, reject it, or go on to the guarded half. */
    method CheckBalances(db: Database, o: Options, q: Request, f: Faults, sess: BillingSession)
      returns (err: BillingError)
      requires sess.View() == FieldsOf(Begin(o, q)) && !Exempt(o, q)
      modifies db`users, db`keys, sess
      ensures var (rows, s) := PreConsumed(old(db.View()), o, q, f);
              db.View() == rows && sess.View() == FieldsOf(s) && err == ErrorOf(s.pc)
    {
      ghost var r, s0 := db.View(), Begin(o, q);
      DriveUnfolds(r, s0, f, o.failOpen, 0);
      var trustQuota := o.trust;
      var userQuota := db.GetUserQuota(q.user, f.userRead);
      if userQuota.LookupFailed? {
        err := HandleBillingDBError(sess, o.failOpen);
        return;
      }
      DriveUnfolds(r, s0.(pc := UserRead(userQuota.value)), f, o.failOpen, 0);
      var unlimited := false;
      var keyTrustOK := true;
      if q.key > 0 {
        var key := db.GetApiKeyByID(q.key, f.keyRead);
        if key.LookupFailed? {
          err := HandleBillingDBError(sess, o.failOpen);
          return;
        }
        unlimited := key.value.unlimited;
        keyTrustOK := key.value.unlimited || key.value.quota - key.value.used > trustQuota;
      }
      if userQuota.value > trustQuota && keyTrustOK {
        sess.trusted := true;
        return NoError;
      }
      if userQuota.value < sess.pre { return InsufficientQuota; }
      err := Reserve(db, o, q, f, sess, unlimited);
    }

    /** The guarded half of PreConsume: user balance first, then the key budget. */
    method Reserve(db: Database, o: Options, q: Request, f: Faults, sess: BillingSession, unlimited: bool)
      returns (err: BillingError)
      requires sess.View() == FieldsOf(Begin(o, q)) && !Exempt(o, q)
      modifies db`users, db`keys, sess
      ensures var (rows, s) := Drive(old(db.View()), Begin(o, q).(pc := Debiting(unlimited)), f, o.failOpen);
              db.View() == rows && sess.View() == FieldsOf(s) && err == ErrorOf(s.pc)
    {
      ghost var r0, s0 := db.View(), Begin(o, q).(pc := Debiting(unlimited));
      ghost var (r1, s1) := Advance(r0, s0, f.debit, o.failOpen);
      DriveUnfolds(r0, s0, f, o.failOpen, 0);
      var rows := db.DecreaseUserQuotaAtomic(q.user, sess.pre, f.debit);
      if rows.StatementFailed? {
        err := HandleBillingDBError(sess, o.failOpen);
        return;
      }
      if rows.rows == 0 { return InsufficientQuota; }
      if q.key <= 0 { return NoError; }

      ghost var (r2, s2) := Advance(r1, s1, f.reserve, o.failOpen);
      DriveUnfolds(r1, s1, f, o.failOpen, 0);
      if s2.pc.Compensating? { DriveUnfolds(r2, s2, f, o.failOpen, 0); }
      if !unlimited {
        var krows := db.DecreaseApiKeyQuotaAtomic(q.key, sess.pre, f.reserve);
        if krows.StatementFailed? {
          db.IncreaseUserQuota(q.user, sess.pre);
          err := HandleBillingDBError(sess, o.failOpen);
          return;
        }
        if krows.rows == 0 {
          db.IncreaseUserQuota(q.user, sess.pre);
          return InsufficientQuota;
        }
      } else {
        db.AdjustApiKeyUsedQuota(q.key, sess.pre);
      }
      return NoError;
    }

    /** Success: settle at the unit price, once. */
    method Confirm(db: Database, sess: BillingSession?)
      modifies db`users, db`keys, sess
      ensures sess == null ==> db.View() == old(db.View())
      ensures sess != null ==>
                var (rows, s) := Confirmed(old(db.View()), old(sess.Session()));
                db.View() == rows && sess.View() == FieldsOf(s)
    {
      if sess == null || sess.consumed <= 0 { return; }
      if sess.state != 0 { return; }
      ghost var r0, s0 := db.View(), CallConfirm(sess.Session());
      sess.state := 1;
      if sess.debt { return; }
      ghost var (r1, s1) := Advance(r0, s0, false, false);
      ghost var (r2, s2) := Advance(r1, s1, false, false);
      ghost var (r3, s3) := Advance(r2, s2, false, false);
      assert Drive(r0, s0, NO_FAULTS, false) == Drive(r1, s1, NO_FAULTS, false)
          == Drive(r2, s2, NO_FAULTS, false) == (r3, s3);

      var consumed := sess.consumed;
      if sess.trusted {
        db.DecreaseUserQuotaUnguarded(sess.user, consumed);
        if sess.key > 0 { db.AdjustApiKeyUsedQuota(sess.key, consumed); }
      } else {
        var excess := sess.pre - consumed;
        if excess > 0 {
          db.IncreaseUserQuota(sess.user, excess);
          if sess.key > 0 { db.AdjustApiKeyUsedQuota(sess.key, -excess); }
        }
      }
      assert db.View() == r2;
      db.AdjustUserUsedQuota(sess.user, consumed);
    }

    /** Failure: give the whole hold back, once. */
    method Refund(db: Database, sess: BillingSession?)
      modifies db`users, db`keys, sess
      ensures sess == null ==> db.View() == old(db.View())
      ensures sess != null ==>
                var (rows, s) := Refunded(old(db.View()), old(sess.Session()));
                db.View() == rows && sess.View() == FieldsOf(s)
    {
      if sess == null || sess.consumed <= 0 { return; }
      if sess.state != 0 { return; }
      ghost var r0, s0 := db.View(), CallRefund(sess.Session());
      sess.state := 2;
      if sess.trusted || sess.debt { return; }
      ghost var (r1, s1) := Advance(r0, s0, false, false);
      ghost var (r2, s2) := Advance(r1, s1, false, false);
      assert Drive(r0, s0, NO_FAULTS, false) == Drive(r1, s1, NO_FAULTS, false) == (r2, s2);
      var preConsumed := sess.pre;
      db.IncreaseUserQuota(sess.user, preConsumed);
      if sess.key > 0 { db.AdjustApiKeyUsedQuota(sess.key, -preConsumed); }
    }
  }
}
