/**
 The billing ledger: the user and API-key rows, the single SQL statements that
 change them, and the billing session as a thread with a program counter.

 Every statement is one atomic step. A session is the value of the
 `BillingSession` struct together with the place its goroutine has reached.
 */
module Ledger {

  type UserId = int
  type KeyId = int // <= 0 : the call carries no API key

  datatype UserRow = UserRow(quota: int, used: int, aff: int, affHistory: int, topup: int)
  datatype KeyRow = KeyRow(quota: int, used: int, unlimited: bool)
  datatype Rows = Rows(users: map<UserId, UserRow>, keys: map<KeyId, KeyRow>)

  // ---------------------------------------------------------------- statements
  // An UPDATE that matches no row changes nothing.

  function AddQuota(r: Rows, u: UserId, d: int): Rows {
    if u in r.users then r.(users := r.users[u := r.users[u].(quota := r.users[u].quota + d)]) else r
  }

  function AddUsed(r: Rows, u: UserId, d: int): Rows {
    if u in r.users then r.(users := r.users[u := r.users[u].(used := r.users[u].used + d)]) else r
  }

  function AddKeyUsed(r: Rows, k: KeyId, d: int): Rows {
    if k in r.keys then r.(keys := r.keys[k := r.keys[k].(used := r.keys[k].used + d)]) else r
  }

  /** UPDATE ... WHERE quota >= q; the second component is the affected-row count. */
  function DebitGuarded(r: Rows, u: UserId, q: int): (Rows, int) {
    if q <= 0 then (r, 1)
    else if u in r.users && r.users[u].quota >= q then (AddQuota(r, u, -q), 1)
    else (r, 0)
  }

  function DebitUnguarded(r: Rows, u: UserId, q: int): Rows {
    if q <= 0 then r else AddQuota(r, u, -q)
  }

  /** Budget reservation of a limited key. */
  function ReserveKey(r: Rows, k: KeyId, need: int): (Rows, int) {
    if need <= 0 then (r, 1)
    else if k in r.keys && !r.keys[k].unlimited && r.keys[k].quota - r.keys[k].used >= need
    then (AddKeyUsed(r, k, need), 1)
    else (r, 0)
  }

  function Reward(r: Rows, u: UserId, reward: int): (Rows, int) {
    if u in r.users then
      var row := r.users[u];
      (r.(users := r.users[u := row.(aff := row.aff + reward, affHistory := row.affHistory + reward)]), 1)
    else (r, 0)
  }

  function Transfer(r: Rows, u: UserId, q: int): (Rows, int) {
    if u in r.users && r.users[u].aff >= q then
      var row := r.users[u];
      (r.(users := r.users[u := row.(aff := row.aff - q, quota := row.quota + q)]), 1)
    else (r, 0)
  }

  /** The two crediting UPDATEs of a redemption, inside its transaction. */
  function TopUp(r: Rows, u: UserId, q: int): Rows {
    if u in r.users then
      var row := r.users[u];
      r.(users := r.users[u := row.(quota := row.quota + q, topup := row.topup + q)])
    else r
  }

  // ------------------------------------------------------------------ sessions

  /** Settings read while a call is billed. GetTrustQuota never returns a value <= 0. */
  datatype OptionsData = Options(chargeAdmin: bool, failOpen: bool, floor: int, trust: int)
  type Options = o: OptionsData | o.trust > 0 witness Options(true, false, 500, 1)

  datatype Request = Request(user: UserId, key: KeyId, free: bool, unit: int, admin: bool, alreadyCharged: bool)

  datatype Pc =
    | Ready                          // price known, nothing read yet
    | UserRead(quota: int)           // user balance read
    | Debiting(unlimited: bool)      // trust refused, about to debit the user
    | Reserving(unlimited: bool)     // user debited, about to reserve the key budget
    | Compensating(dbError: bool)    // key refused, about to give the user the hold back
    | Rejected(dbError: bool)        // PreConsume returned an error
    | Pending                        // PreConsume returned nil
    | ConfirmUser | ConfirmKey | ConfirmUsed
    | RefundUser | RefundKey
    | Settled

  datatype Sess = Sess(user: UserId, key: KeyId, consumed: int, pre: int, trusted: bool, debt: bool,
                       state: int, trust: int, pc: Pc)

  function Max(a: int, b: int): int { if a < b then b else a }

  predicate Exempt(o: Options, q: Request) {
    q.free || q.unit <= 0 || (!o.chargeAdmin && q.admin) || q.alreadyCharged
  }

  /** PreConsume up to the first database read. */
  function Begin(o: Options, q: Request): Sess {
    if Exempt(o, q)
    then Sess(q.user, q.key, 0, 0, false, false, 0, o.trust, Pending)
    else Sess(q.user, q.key, q.unit, Max(q.unit, o.floor), false, false, 0, o.trust, Ready)
  }

  /** handleBillingDBError: fail open as a debt, or reject. */
  function DbError(s: Sess, failOpen: bool): Sess {
    if failOpen
    then s.(debt := true, consumed := 0, pre := 0, trusted := false, pc := Pending)
    else s.(pc := Rejected(true))
  }

  function Decide(s: Sess, quota: int, keyOk: bool, unlimited: bool): Sess {
    if quota > s.trust && keyOk then s.(trusted := true, pc := Pending)
    else if quota < s.pre then s.(pc := Rejected(false))
    else s.(pc := Debiting(unlimited))
  }

  /** One atomic step of the goroutine that owns the session. `fault` makes the
      step's database call fail where PreConsume handles that failure. */
  function Advance(r: Rows, s: Sess, fault: bool, failOpen: bool): (Rows, Sess) {
    match s.pc
    case Ready =>
      if fault || s.user !in r.users then (r, DbError(s, failOpen))
      else (r, s.(pc := UserRead(r.users[s.user].quota)))
    case UserRead(q) =>
      if s.key <= 0 then (r, Decide(s, q, true, false))
      else if fault || s.key !in r.keys then (r, DbError(s, failOpen))
      else
        var k := r.keys[s.key];
        (r, Decide(s, q, k.unlimited || k.quota - k.used > s.trust, k.unlimited))
    case Debiting(unlimited) =>
      if fault then (r, DbError(s, failOpen))
      else
        var (r', n) := DebitGuarded(r, s.user, s.pre);
        if n == 0 then (r', s.(pc := Rejected(false)))
        else (r', s.(pc := if s.key <= 0 then Pending else Reserving(unlimited)))
    case Reserving(unlimited) =>
      if unlimited then (AddKeyUsed(r, s.key, s.pre), s.(pc := Pending))
      else if fault then (r, s.(pc := Compensating(true)))
      else
        var (r', n) := ReserveKey(r, s.key, s.pre);
        (r', s.(pc := if n == 0 then Compensating(false) else Pending))
    case Compensating(dbError) =>
      (AddQuota(r, s.user, s.pre), if dbError then DbError(s, failOpen) else s.(pc := Rejected(false)))
    case ConfirmUser =>
      (if s.trusted then DebitUnguarded(r, s.user, s.consumed)
       else if s.pre - s.consumed > 0 then AddQuota(r, s.user, s.pre - s.consumed) else r,
       s.(pc := ConfirmKey))
    case ConfirmKey =>
      (if s.key <= 0 then r
       else if s.trusted then AddKeyUsed(r, s.key, s.consumed)
       else if s.pre - s.consumed > 0 then AddKeyUsed(r, s.key, s.consumed - s.pre) else r,
       s.(pc := ConfirmUsed))
    case ConfirmUsed => (AddUsed(r, s.user, s.consumed), s.(pc := Settled))
    case RefundUser => (AddQuota(r, s.user, s.pre), s.(pc := RefundKey))
    case RefundKey => (if s.key <= 0 then r else AddKeyUsed(r, s.key, -s.pre), s.(pc := Settled))
    case Rejected(_) => (r, s)
    case Pending => (r, s)
    case Settled => (r, s)
  }

  /** Entry of Confirm: the zero-price test and the compare-and-swap. */
  function CallConfirm(s: Sess): Sess {
    if s.consumed <= 0 || s.state != 0 then s
    else s.(state := 1, pc := if s.debt then Settled else ConfirmUser)
  }

  /** Entry of Refund. A trusted session holds nothing, so it is settled at once. */
  function CallRefund(s: Sess): Sess {
    if s.consumed <= 0 || s.state != 0 then s
    else s.(state := 2, pc := if s.trusted || s.debt then Settled else RefundUser)
  }

  // ------------------------------------------------------------------ measures

  /** What one session contributes to a ledger account. */
  datatype Measure =
    | Hold(user: UserId)        // taken from the user's balance and neither returned nor spent yet
    | Spent(user: UserId)       // recorded in the user's used_quota
    | KeyUse(key: KeyId)        // recorded in the key's used_quota
    | Risk(user: UserId)        // may still be debited from the user without a guard
    | RiskCount(user: UserId)
    | KeyRisk(key: KeyId)       // may still be added to the key's used_quota without a guard
    | KeyRiskCount(key: KeyId)

  function HoldOf(s: Sess): int {
    match s.pc
    case Reserving(_) => s.pre
    case Compensating(_) => s.pre
    case Pending => if s.trusted then 0 else s.pre
    case ConfirmUser => if s.trusted then 0 else s.pre
    case ConfirmKey => s.consumed
    case ConfirmUsed => s.consumed
    case RefundUser => s.pre
    case _ => 0
  }

  function SpentOf(s: Sess): int {
    if s.pc == Settled && s.state == 1 then s.consumed else 0
  }

  function KeyUseOf(s: Sess): int {
    match s.pc
    case Pending => if s.trusted then 0 else s.pre
    case ConfirmUser => if s.trusted then 0 else s.pre
    case ConfirmKey => if s.trusted then 0 else s.pre
    case ConfirmUsed => s.consumed
    case RefundUser => s.pre
    case RefundKey => s.pre
    case Settled => if s.state == 1 then s.consumed else 0
    case _ => 0
  }

  /** A trusted candidate is in flight from the moment it has read the balance. */
  predicate AtRisk(s: Sess) {
    match s.pc
    case UserRead(q) => q > s.trust
    case Pending => s.trusted
    case ConfirmUser => s.trusted
    case _ => false
  }

  predicate KeyAtRisk(s: Sess) {
    s.trusted && (s.pc == Pending || s.pc == ConfirmUser || s.pc == ConfirmKey)
  }

  function Val(m: Measure, s: Sess): int {
    match m
    case Hold(u) => if s.user == u then HoldOf(s) else 0
    case Spent(u) => if s.user == u then SpentOf(s) else 0
    case KeyUse(k) => if s.key == k && k > 0 then KeyUseOf(s) else 0
    case Risk(u) => if s.user == u && AtRisk(s) then s.consumed else 0
    case RiskCount(u) => if s.user == u && AtRisk(s) then 1 else 0
    case KeyRisk(k) => if s.key == k && k > 0 && KeyAtRisk(s) then s.consumed else 0
    case KeyRiskCount(k) => if s.key == k && k > 0 && KeyAtRisk(s) then 1 else 0
  }

  function Sum(m: Measure, ss: seq<Sess>): int {
    if ss == [] then 0 else Sum(m, ss[..|ss| - 1]) + Val(m, ss[|ss| - 1])
  }

  lemma {:induction false} SumUpdate(m: Measure, ss: seq<Sess>, i: nat, s: Sess)
    requires i < |ss|
    ensures Sum(m, ss[i := s]) == Sum(m, ss) - Val(m, ss[i]) + Val(m, s)
  {
    var n := |ss| - 1;
    if i == n {
      assert ss[i := s][..n] == ss[..n];
    } else {
      assert ss[i := s][..n] == ss[..n][i := s];
      SumUpdate(m, ss[..n], i, s);
    }
  }

  lemma {:induction false} SumAppend(m: Measure, ss: seq<Sess>, s: Sess)
    ensures Sum(m, ss + [s]) == Sum(m, ss) + Val(m, s)
  {
  }

  // ----------------------------------------------------------- well-formedness

  predicate Started(s: Sess) { s.consumed > 0 && s.pc != Ready && !s.pc.UserRead? && !s.pc.Rejected? }

  /** Facts every session keeps about its fields and about the rows it has touched. */
  predicate WellFormed(r: Rows, s: Sess) {
    && 0 <= s.consumed <= s.pre
    && (s.consumed == 0 ==> s.pc == Pending && s.pre == 0 && !s.trusted)
    && s.trust > 0
    && (s.debt ==> s.consumed == 0)
    && (s.trusted ==> s.pc in {Pending, ConfirmUser, ConfirmKey, ConfirmUsed, Settled})
    && (s.pc.UserRead? || Started(s) ==> s.user in r.users)
    && (Started(s) && s.key > 0 ==> s.key in r.keys)
    && (s.key > 0 ==> match s.pc
                      case Debiting(b) => r.keys[s.key].unlimited == b
                      case Reserving(b) => r.keys[s.key].unlimited == b
                      case _ => true)
    && (match s.pc
        case ConfirmUser => s.state == 1
        case ConfirmKey => s.state == 1
        case ConfirmUsed => s.state == 1
        case Reserving(_) => s.state == 0 && s.key > 0
        case Compensating(_) => s.state == 0 && s.key > 0
        case RefundUser => s.state == 2 && !s.trusted
        case RefundKey => s.state == 2 && !s.trusted
        case Settled => s.state == 1 || s.state == 2
        case _ => s.state == 0)
  }

  /** The rows keep their identity: no step inserts or deletes a row or turns a
      limited key into an unlimited one. */
  predicate SameShape(r: Rows, r': Rows) {
    && r'.users.Keys == r.users.Keys
    && r'.keys.Keys == r.keys.Keys
    && forall k :: k in r.keys ==> r'.keys[k].unlimited == r.keys[k].unlimited && r'.keys[k].quota == r.keys[k].quota
  }

  function Wealth(row: UserRow): int { row.quota + row.aff + row.used }

  // ------------------------------------------------------- one step of a session

  predicate Settling(pc: Pc) {
    pc == ConfirmUser || pc == ConfirmKey || pc == ConfirmUsed || pc == RefundUser || pc == RefundKey
  }

  lemma PreConsumeKeepsShape(r: Rows, s: Sess, fault: bool, failOpen: bool)
    requires WellFormed(r, s) && !Settling(s.pc)
    ensures SameShape(r, Advance(r, s, fault, failOpen).0)
    ensures WellFormed(Advance(r, s, fault, failOpen).0, Advance(r, s, fault, failOpen).1)
  {
  }

  lemma SettlingKeepsShape(r: Rows, s: Sess, fault: bool, failOpen: bool)
    requires WellFormed(r, s) && Settling(s.pc)
    ensures SameShape(r, Advance(r, s, fault, failOpen).0)
    ensures WellFormed(Advance(r, s, fault, failOpen).0, Advance(r, s, fault, failOpen).1)
  {
  }

  lemma AdvanceKeepsShape(r: Rows, s: Sess, fault: bool, failOpen: bool)
    requires WellFormed(r, s)
    ensures var (r', s') := Advance(r, s, fault, failOpen);
            SameShape(r, r') && WellFormed(r', s') && s'.user == s.user && s'.key == s.key
  {
    if Settling(s.pc) { SettlingKeepsShape(r, s, fault, failOpen); }
    else { PreConsumeKeepsShape(r, s, fault, failOpen); }
  }

  /** What a step may do to one user's row, given what it does to the session. */
  predicate Balanced(r: Rows, s: Sess, r': Rows, s': Sess, u: UserId)
    requires u in r.users
  {
    && u in r'.users
    && Wealth(r'.users[u]) + Val(Hold(u), s') == Wealth(r.users[u]) + Val(Hold(u), s)
    && r'.users[u].used - r.users[u].used == Val(Spent(u), s') - Val(Spent(u), s)
    && r'.users[u].topup == r.users[u].topup
    && r'.users[u].aff == r.users[u].aff
    && r'.users[u].affHistory == r.users[u].affHistory
  }

  lemma PreConsumeBalance(r: Rows, s: Sess, fault: bool, failOpen: bool, u: UserId)
    requires WellFormed(r, s) && u in r.users && !Settling(s.pc)
    ensures var (r', s') := Advance(r, s, fault, failOpen); Balanced(r, s, r', s', u)
  {
  }

  lemma SettlingBalance(r: Rows, s: Sess, fault: bool, failOpen: bool, u: UserId)
    requires WellFormed(r, s) && u in r.users && Settling(s.pc)
    ensures var (r', s') := Advance(r, s, fault, failOpen); Balanced(r, s, r', s', u)
  {
  }

  /** A step moves credit only between the balance, used_quota and the session's own
      hold; nobody else's row is touched. */
  lemma AdvanceUserBalance(r: Rows, s: Sess, fault: bool, failOpen: bool, u: UserId)
    requires WellFormed(r, s) && u in r.users
    ensures var (r', s') := Advance(r, s, fault, failOpen); Balanced(r, s, r', s', u)
  {
    if Settling(s.pc) { SettlingBalance(r, s, fault, failOpen, u); }
    else { PreConsumeBalance(r, s, fault, failOpen, u); }
  }

  /** The key row moves exactly with the session's key account. */
  lemma AdvanceKeyBalance(r: Rows, s: Sess, fault: bool, failOpen: bool, k: KeyId)
    requires WellFormed(r, s) && k in r.keys
    ensures var (r', s') := Advance(r, s, fault, failOpen);
            && k in r'.keys
            && r'.keys[k].used - r.keys[k].used == Val(KeyUse(k), s') - Val(KeyUse(k), s)
  {
  }

  /** The other sessions stay well-formed, since they only rely on the rows' shape. */
  lemma ShapeKeepsWellFormed(r: Rows, r': Rows, s: Sess)
    requires WellFormed(r, s) && SameShape(r, r')
    ensures WellFormed(r', s)
  {
  }

  // ------------------------------------------------- a session run on its own

  function Rank(pc: Pc): nat {
    match pc
    case Ready => 5
    case UserRead(_) => 4
    case Debiting(_) => 3
    case Reserving(_) => 2
    case Compensating(_) => 1
    case ConfirmUser => 3
    case ConfirmKey => 2
    case ConfirmUsed => 1
    case RefundUser => 2
    case RefundKey => 1
    case _ => 0
  }

  /** Which of PreConsume's database calls fail. */
  datatype Faults = Faults(userRead: bool, keyRead: bool, debit: bool, reserve: bool)

  function FaultAt(f: Faults, pc: Pc): bool {
    match pc
    case Ready => f.userRead
    case UserRead(_) => f.keyRead
    case Debiting(_) => f.debit
    case Reserving(_) => f.reserve
    case _ => false
  }

  /** The session's own steps, one after the other, until its goroutine returns. */
  function Drive(r: Rows, s: Sess, f: Faults, failOpen: bool): (Rows, Sess)
    decreases Rank(s.pc)
  {
    if Rank(s.pc) == 0 then (r, s)
    else
      var (r', s') := Advance(r, s, FaultAt(f, s.pc), failOpen);
      Drive(r', s', f, failOpen)
  }

  function PreConsumed(r: Rows, o: Options, q: Request, f: Faults): (Rows, Sess) {
    Drive(r, Begin(o, q), f, o.failOpen)
  }

  const NO_FAULTS := Faults(false, false, false, false)

  function Confirmed(r: Rows, s: Sess): (Rows, Sess) { Drive(r, CallConfirm(s), NO_FAULTS, false) }

  function Refunded(r: Rows, s: Sess): (Rows, Sess) { Drive(r, CallRefund(s), NO_FAULTS, false) }

  /** The rows after a call of the given price has been paid for. */
  function Charged(r: Rows, u: UserId, k: KeyId, price: int): Rows {
    var paid := AddUsed(AddQuota(r, u, -price), u, price);
    if k <= 0 then paid else AddKeyUsed(paid, k, price)
  }

  /** What a returned PreConsume has done to the rows: nothing, unless it holds the
      pre-consumed amount. A rejected call leaves no trace, compensation included. */
  lemma PreConsumeEffect(r: Rows, o: Options, q: Request, f: Faults)
    ensures var (r', s) := PreConsumed(r, o, q, f);
            && s.state == 0 && s.user == q.user && s.key == q.key
            && (s.pc == Pending || s.pc.Rejected?)
            && ((s.consumed == 0 && !s.trusted)
                || (s.consumed == q.unit > 0 && s.pre == Max(q.unit, o.floor) && !s.debt))
            && (s.pc == Pending && s.consumed > 0 && !s.trusted ==>
                  && s.user in r.users && r.users[s.user].quota >= s.pre
                  && r' == (if s.key <= 0 then AddQuota(r, s.user, -s.pre)
                            else AddKeyUsed(AddQuota(r, s.user, -s.pre), s.key, s.pre)))
            && (s.pc.Rejected? || s.consumed == 0 || s.trusted ==> r' == r)
  {
    if !Exempt(o, q) {
      var s0 := Begin(o, q);
      var (r1, s1) := Advance(r, s0, FaultAt(f, s0.pc), o.failOpen);
      assert Drive(r, s0, f, o.failOpen) == Drive(r1, s1, f, o.failOpen);
      if s1.pc.UserRead? {
        var (r2, s2) := Advance(r1, s1, FaultAt(f, s1.pc), o.failOpen);
        assert Drive(r1, s1, f, o.failOpen) == Drive(r2, s2, f, o.failOpen);
        if s2.pc.Debiting? { DebitingEffect(r, s2, f, o.failOpen); }
      }
    }
  }

  /** From the debit on: the hold is taken, from the key budget too, or nothing is. */
  lemma DebitingEffect(r: Rows, s: Sess, f: Faults, failOpen: bool)
    requires s.pc.Debiting? && s.state == 0 && !s.trusted && !s.debt && s.pre > 0 && s.consumed > 0
    ensures var (r', s') := Drive(r, s, f, failOpen);
            && s'.state == 0 && s'.user == s.user && s'.key == s.key && !s'.trusted
            && ((&& r' == (if s.key <= 0 then AddQuota(r, s.user, -s.pre)
                           else AddKeyUsed(AddQuota(r, s.user, -s.pre), s.key, s.pre))
                 && s'.pc == Pending && s'.pre == s.pre && s'.consumed == s.consumed && !s'.debt
                 && s.user in r.users && r.users[s.user].quota >= s.pre)
                || (r' == r && ((s'.pc.Rejected? && s'.pre == s.pre && s'.consumed == s.consumed && !s'.debt)
                                || (s'.pc == Pending && s'.consumed == 0))))
  {
    var (r3, s3) := Advance(r, s, FaultAt(f, s.pc), failOpen);
    assert Drive(r, s, f, failOpen) == Drive(r3, s3, f, failOpen);
    if s3.pc.Reserving? { ReservingEffect(r, s3, f, failOpen); }
  }

  /** From the reservation on: either the key budget is taken too, or the user's hold is
      given back in full. */
  lemma ReservingEffect(r: Rows, s: Sess, f: Faults, failOpen: bool)
    requires s.pc.Reserving? && s.state == 0 && !s.trusted && !s.debt && s.key > 0 && s.pre > 0 && s.user in r.users
    ensures var held := AddQuota(r, s.user, -s.pre);
            var (r', s') := Drive(held, s, f, failOpen);
            && s'.state == 0 && s'.user == s.user && s'.key == s.key && !s'.trusted
            && ((&& r' == AddKeyUsed(held, s.key, s.pre)
                 && s'.pc == Pending && s'.pre == s.pre && s'.consumed == s.consumed && !s'.debt)
                || (r' == r && ((s'.pc.Rejected? && s'.pre == s.pre && s'.consumed == s.consumed && !s'.debt)
                                || (s'.pc == Pending && s'.consumed == 0))))
  {
    var held := AddQuota(r, s.user, -s.pre);
    var (r4, s4) := Advance(held, s, FaultAt(f, s.pc), failOpen);
    assert Drive(held, s, f, failOpen) == Drive(r4, s4, f, failOpen);
    if s4.pc.Compensating? {
      var (r5, s5) := Advance(r4, s4, FaultAt(f, s4.pc), failOpen);
      assert Drive(r4, s4, f, failOpen) == Drive(r5, s5, f, failOpen);
      assert AddQuota(held, s.user, s.pre).users == r.users;
    }
  }

  // ------------------------------------------------------------ who gets through

  /** A failing database call ends PreConsume in a debt session or in an error. */
  predicate FailsAs(s: Sess, failOpen: bool) {
    if failOpen then s.pc == Pending && s.debt && s.consumed == 0 && !s.trusted else s.pc == Rejected(true)
  }

  /** The price is pre-consumed, on trust or held. */
  predicate Accepts(s: Sess, unit: int, trusted: bool) {
    s.pc == Pending && !s.debt && s.consumed == unit && s.trusted == trusted
  }

  /** Refused for want of balance or budget. */
  predicate Refuses(s: Sess) { s.pc == Rejected(false) && !s.trusted }

  lemma DriveStep(r: Rows, s: Sess, f: Faults, failOpen: bool)
    requires Rank(s.pc) > 0
    ensures var (r', s') := Advance(r, s, FaultAt(f, s.pc), failOpen);
            Drive(r, s, f, failOpen) == Drive(r', s', f, failOpen)
  {
  }

  lemma ReserveVerdict(r: Rows, s: Sess, f: Faults, failOpen: bool)
    requires s.pc.Reserving? && s.pre > 0 && s.key in r.keys && s.pc.unlimited == r.keys[s.key].unlimited
    requires !s.trusted && !s.debt
    ensures var end, row := Drive(r, s, f, failOpen).1, r.keys[s.key];
            if !row.unlimited && f.reserve then FailsAs(end, failOpen)
            else if row.unlimited || row.quota - row.used >= s.pre then Accepts(end, s.consumed, false)
            else Refuses(end)
  {
    DriveStep(r, s, f, failOpen);
    var (r1, s1) := Advance(r, s, FaultAt(f, s.pc), failOpen);
    if s1.pc.Compensating? { DriveStep(r1, s1, f, failOpen); }
  }

  lemma DebitVerdict(r: Rows, s: Sess, f: Faults, failOpen: bool)
    requires s.pc.Debiting? && s.user in r.users && 0 < s.pre <= r.users[s.user].quota
    requires s.key > 0 ==> s.key in r.keys && s.pc.unlimited == r.keys[s.key].unlimited
    requires !s.trusted && !s.debt
    ensures var end := Drive(r, s, f, failOpen).1;
            if f.debit then FailsAs(end, failOpen)
            else if s.key <= 0 then Accepts(end, s.consumed, false)
            else
              var row := r.keys[s.key];
              if !row.unlimited && f.reserve then FailsAs(end, failOpen)
              else if row.unlimited || row.quota - row.used >= s.pre then Accepts(end, s.consumed, false)
              else Refuses(end)
  {
    DriveStep(r, s, f, failOpen);
    var (r1, s1) := Advance(r, s, FaultAt(f, s.pc), failOpen);
    if s1.pc.Reserving? { ReserveVerdict(r1, s1, f, failOpen); }
  }

  /** The verdict once both balances have been read. */
  lemma ReadVerdict(r: Rows, s: Sess, f: Faults, failOpen: bool)
    requires s.pc.UserRead? && s.user in r.users && s.pc.quota == r.users[s.user].quota
    requires s.pre > 0 && !s.trusted && !s.debt && (s.key > 0 ==> s.key in r.keys && !f.keyRead)
    ensures var end, quota := Drive(r, s, f, failOpen).1, r.users[s.user].quota;
            var unlimited := s.key <= 0 || r.keys[s.key].unlimited;
            var left := if s.key <= 0 then 0 else r.keys[s.key].quota - r.keys[s.key].used;
            if quota > s.trust && (unlimited || left > s.trust) then Accepts(end, s.consumed, true)
            else if quota < s.pre then Refuses(end)
            else if f.debit || (!unlimited && f.reserve) then FailsAs(end, failOpen)
            else if unlimited || left >= s.pre then Accepts(end, s.consumed, false)
            else Refuses(end)
  {
    DriveStep(r, s, f, failOpen);
    var (r1, s1) := Advance(r, s, FaultAt(f, s.pc), failOpen);
    if s1.pc.Debiting? { DebitVerdict(r1, s1, f, failOpen); }
  }

  /** The verdict of PreConsume in the caller's terms. An exempt call is free. A call that pays
      is trusted if the balance and, for a limited key, what is left of its budget both exceed
      the trust threshold. Otherwise both have to cover the price and the pre-consume floor. A
      failing database call on the way ends as the fail-open setting says. */
  lemma PreConsumeVerdict(r: Rows, o: Options, q: Request, f: Faults)
    ensures var end := PreConsumed(r, o, q, f).1;
            if q.free || q.unit <= 0 || (!o.chargeAdmin && q.admin) || q.alreadyCharged
            then end.pc == Pending && end.consumed == 0 && !end.trusted && !end.debt
            else if f.userRead || q.user !in r.users || (q.key > 0 && (f.keyRead || q.key !in r.keys))
            then FailsAs(end, o.failOpen)
            else
              var need := if q.unit < o.floor then o.floor else q.unit;
              var quota := r.users[q.user].quota;
              var unlimited := q.key <= 0 || r.keys[q.key].unlimited;
              var left := if q.key <= 0 then 0 else r.keys[q.key].quota - r.keys[q.key].used;
              if quota > o.trust && (unlimited || left > o.trust) then Accepts(end, q.unit, true)
              else if quota < need then Refuses(end)
              else if f.debit || (!unlimited && f.reserve) then FailsAs(end, o.failOpen)
              else if unlimited || left >= need then Accepts(end, q.unit, false)
              else Refuses(end)
  {
    if !Exempt(o, q) {
      var s0 := Begin(o, q);
      DriveStep(r, s0, f, o.failOpen);
      var (r1, s1) := Advance(r, s0, FaultAt(f, s0.pc), o.failOpen);
      if s1.pc.UserRead? {
        if q.key > 0 && (f.keyRead || q.key !in r.keys) { DriveStep(r1, s1, f, o.failOpen); }
        else { ReadVerdict(r1, s1, f, o.failOpen); }
      }
    }
  }

  /** When every statement succeeds and the rows exist, a call that pays is let through exactly
      when the balance and a limited key's budget cover the price and the floor, or both exceed
      the trust threshold. */
  lemma LetThroughIff(r: Rows, o: Options, q: Request)
    requires !q.free && q.unit > 0 && (o.chargeAdmin || !q.admin) && !q.alreadyCharged
    requires q.user in r.users && (q.key > 0 ==> q.key in r.keys)
    ensures var end := PreConsumed(r, o, q, NO_FAULTS).1;
            var quota := r.users[q.user].quota;
            var limited := q.key > 0 && !r.keys[q.key].unlimited;
            && (end.trusted <==> quota > o.trust && (limited ==> r.keys[q.key].quota - r.keys[q.key].used > o.trust))
            && (end.pc == Pending <==>
                  || end.trusted
                  || (quota >= Max(q.unit, o.floor)
                      && (limited ==> r.keys[q.key].quota - r.keys[q.key].used >= Max(q.unit, o.floor))))
            && (end.pc == Pending ==> !end.debt && end.consumed == q.unit)
            && (end.pc != Pending ==> end.pc == Rejected(false))
  {
    PreConsumeVerdict(r, o, q, NO_FAULTS);
    PreConsumeEffect(r, o, q, NO_FAULTS);
  }

  lemma QuotaTwice(r: Rows, u: UserId, a: int, b: int)
    ensures AddQuota(AddQuota(r, u, a), u, b) == AddQuota(r, u, a + b)
  {
  }

  lemma KeyUsedTwice(r: Rows, k: KeyId, a: int, b: int)
    ensures AddKeyUsed(AddKeyUsed(r, k, a), k, b) == AddKeyUsed(r, k, a + b)
  {
  }

  lemma NothingAdded(r: Rows, u: UserId, k: KeyId)
    ensures AddQuota(r, u, 0) == r && AddKeyUsed(r, k, 0) == r
  {
  }

  /** The user and the key row are written independently. */
  lemma UserAndKey(r: Rows, u: UserId, k: KeyId, a: int, b: int)
    ensures AddQuota(AddKeyUsed(r, k, a), u, b) == AddKeyUsed(AddQuota(r, u, b), k, a)
    ensures AddUsed(AddKeyUsed(r, k, a), u, b) == AddKeyUsed(AddUsed(r, u, b), k, a)
  {
  }

  /** Refund undoes PreConsume: whatever was pre-consumed, every row is back where it was. */
  lemma RefundUndoesPreConsume(r: Rows, o: Options, q: Request, f: Faults)
    ensures var (r', s) := PreConsumed(r, o, q, f);
            s.pc == Pending ==> Refunded(r', s).0 == r
  {
    PreConsumeEffect(r, o, q, f);
    var (r', s) := PreConsumed(r, o, q, f);
    if s.pc == Pending && s.consumed > 0 && !s.trusted {
      RefundSteps(r', CallRefund(s));
      UserAndKey(AddQuota(r, s.user, -s.pre), s.user, s.key, s.pre, s.pre);
      QuotaTwice(r, s.user, -s.pre, s.pre);
      KeyUsedTwice(r, s.key, s.pre, -s.pre);
      NothingAdded(r, s.user, s.key);
    }
  }

  lemma RefundSteps(r: Rows, s: Sess)
    requires s.pc == RefundUser
    ensures Drive(r, s, NO_FAULTS, false).0
            == var back := AddQuota(r, s.user, s.pre); if s.key <= 0 then back else AddKeyUsed(back, s.key, -s.pre)
  {
    var (r2, s2) := Advance(r, s, false, false);
    assert Drive(r, s, NO_FAULTS, false) == Drive(r2, s2, NO_FAULTS, false);
    var (r3, s3) := Advance(r2, s2, false, false);
    assert Drive(r2, s2, NO_FAULTS, false) == Drive(r3, s3, NO_FAULTS, false);
  }

  /** Confirm charges exactly the unit price: the pre-consume floor, the trusted path and
      the key side all end in the same rows, and an exempt or debt call costs nothing. */
  lemma ConfirmChargesThePrice(r: Rows, o: Options, q: Request, f: Faults)
    ensures var (r', s) := PreConsumed(r, o, q, f);
            s.pc == Pending ==>
              && (s.consumed == 0 || s.consumed == q.unit)
              && Confirmed(r', s).0 == if s.consumed == 0 then r else Charged(r, q.user, q.key, q.unit)
  {
    PreConsumeEffect(r, o, q, f);
    var (r', s) := PreConsumed(r, o, q, f);
    if s.pc == Pending && s.consumed > 0 {
      if s.trusted { ConfirmTrusted(r', CallConfirm(s)); }
      else if s.key <= 0 { ConfirmKeyless(r, CallConfirm(s)); }
      else { ConfirmKeyed(r, CallConfirm(s)); }
    }
  }

  lemma ConfirmTrusted(r: Rows, s: Sess)
    requires s.pc == ConfirmUser && s.trusted && 0 < s.consumed <= s.pre
    ensures Drive(r, s, NO_FAULTS, false).0 == Charged(r, s.user, s.key, s.consumed)
  {
    ConfirmSteps(r, s);
    UserAndKey(AddQuota(r, s.user, -s.consumed), s.user, s.key, s.consumed, s.consumed);
  }

  /** The floor above the price goes back to the balance. */
  lemma ConfirmKeyless(r: Rows, s: Sess)
    requires s.pc == ConfirmUser && !s.trusted && 0 < s.consumed <= s.pre && s.key <= 0
    ensures Drive(AddQuota(r, s.user, -s.pre), s, NO_FAULTS, false).0 == Charged(r, s.user, s.key, s.consumed)
  {
    ConfirmSteps(AddQuota(r, s.user, -s.pre), s);
    QuotaTwice(r, s.user, -s.pre, s.pre - s.consumed);
  }

  lemma ConfirmKeyed(r: Rows, s: Sess)
    requires s.pc == ConfirmUser && !s.trusted && 0 < s.consumed <= s.pre && s.key > 0
    ensures Drive(AddKeyUsed(AddQuota(r, s.user, -s.pre), s.key, s.pre), s, NO_FAULTS, false).0
            == Charged(r, s.user, s.key, s.consumed)
  {
    ConfirmSteps(AddKeyUsed(AddQuota(r, s.user, -s.pre), s.key, s.pre), s);
    ExcessGoesBack(r, s.user, s.key, s.pre, s.consumed);
    UserAndKey(AddQuota(r, s.user, -s.consumed), s.user, s.key, s.consumed, s.consumed);
  }

  lemma ExcessGoesBack(r: Rows, u: UserId, k: KeyId, pre: int, price: int)
    ensures var held := AddKeyUsed(AddQuota(r, u, -pre), k, pre);
            AddKeyUsed(AddQuota(held, u, pre - price), k, -(pre - price))
            == AddKeyUsed(AddQuota(r, u, -price), k, price)
  {
    var held := AddKeyUsed(AddQuota(r, u, -pre), k, pre);
    var back := AddKeyUsed(AddQuota(held, u, pre - price), k, -(pre - price));
    assert back.users == AddQuota(r, u, -price).users;
    assert back.keys == AddKeyUsed(r, k, price).keys;
  }

  lemma ConfirmSteps(r: Rows, s: Sess)
    requires s.pc == ConfirmUser && s.consumed > 0 && s.pre >= s.consumed
    ensures var excess := s.pre - s.consumed;
            var paid := AddQuota(r, s.user, if s.trusted then -s.consumed else excess);
            var added := if s.trusted then s.consumed else -excess;
            var booked := if s.key <= 0 then paid else AddKeyUsed(paid, s.key, added);
            Drive(r, s, NO_FAULTS, false).0 == AddUsed(booked, s.user, s.consumed)
  {
    var (r2, s2) := Advance(r, s, false, false);
    assert Drive(r, s, NO_FAULTS, false) == Drive(r2, s2, NO_FAULTS, false);
    var (r3, s3) := Advance(r2, s2, false, false);
    assert Drive(r2, s2, NO_FAULTS, false) == Drive(r3, s3, NO_FAULTS, false);
    var (r4, s4) := Advance(r3, s3, false, false);
    assert Drive(r3, s3, NO_FAULTS, false) == Drive(r4, s4, NO_FAULTS, false);
    NothingAdded(r, s.user, s.key);
    NothingAdded(r2, s.user, s.key);
  }
}
