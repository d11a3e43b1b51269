/**
 The fixed-window limiter on tool calls, shared by the HTTP middleware and WebSocket
 messages: one counter per user and group, dropped when it has expired. Times are in
 nanoseconds; every section under the mutex is one step.
 */
module RateLimit {
  const SECOND := 1_000_000_000
  const MINUTE := 60 * SECOND

  datatype Key = Key(user: int, group: string)
  datatype Entry = Entry(count: int, expireAt: int)
  datatype RuleData = Rule(max: int, window: int)
  type Rule = r: RuleData | r.window > 0 witness Rule(0, 1)

  datatype GroupRule = GroupRule(max: int, minutes: int)
  datatype Config = Config(groups: map<string, GroupRule>, max: int, minutes: int)

  function WindowDuration(minutes: int): (d: int)
    ensures d >= MINUTE && (minutes > 0 ==> d == minutes * MINUTE)
  {
    (if minutes <= 0 then 1 else minutes) * MINUTE
  }

  /** A group's own limit counts if it is positive, with its own window; else the site's. */
  function ResolveRule(c: Config, group: string): (r: Rule)
    ensures group in c.groups && c.groups[group].max >= 1 ==>
              && r.max == c.groups[group].max
              && r.window == 60_000_000_000 * if c.groups[group].minutes >= 1 then c.groups[group].minutes else 1
    ensures group !in c.groups || c.groups[group].max < 1 ==>
              r.max == c.max && r.window == 60_000_000_000 * if c.minutes >= 1 then c.minutes else 1
  {
    if group in c.groups && c.groups[group].max > 0
    then Rule(c.groups[group].max, WindowDuration(c.groups[group].minutes))
    else Rule(c.max, WindowDuration(c.minutes))
  }

  datatype Verdict = Admitted | Blocked(wait: int)

  type Records = map<Key, Entry>

  function Live(r: Records, k: Key, now: int): bool { k in r && now < r[k].expireAt }

  function Pruned(r: Records, now: int): Records { map k | k in r && now < r[k].expireAt :: r[k] }

  function Wait(expireAt: int, now: int): int {
    var s := (expireAt - now) / SECOND;   // non-negative here, so truncation and floor agree
    if s < 1 then 1 else s
  }

  /** The counter after a call. */
  function Hit(r: Records, k: Key, now: int, rule: Rule): Records {
    if Live(r, k, now) then r[k := Entry(r[k].count + 1, r[k].expireAt)]
    else Pruned(r[k := Entry(1, now + rule.window)], now)
  }

  function Decide(r: Records, k: Key, now: int, rule: Rule): Verdict {
    if Live(r, k, now) && r[k].count + 1 > rule.max then Blocked(Wait(r[k].expireAt, now)) else Admitted
  }

  // ---------------------------------------------------------------- whole traces

  datatype Call = Call(at: int, key: Key)

  function After(c: Config, calls: seq<Call>): Records {
    if calls == [] then map[]
    else
      var r, last := After(c, calls[..|calls| - 1]), calls[|calls| - 1];
      var rule := ResolveRule(c, last.key.group);
      if rule.max <= 0 then r else Hit(r, last.key, last.at, rule)
  }

  function Answer(c: Config, calls: seq<Call>, n: nat): Verdict
    requires n < |calls|
  {
    var rule := ResolveRule(c, calls[n].key.group);
    if rule.max <= 0 then Admitted else Decide(After(c, calls[..n]), calls[n].key, calls[n].at, rule)
  }

  /** A scope whose limit is not positive is never blocked, and its calls are not counted. */
  lemma UnlimitedIsFree(c: Config, calls: seq<Call>, n: nat)
    requires n < |calls|
    requires var g := calls[n].key.group;
             (g !in c.groups || c.groups[g].max <= 0) && c.max <= 0
    ensures Answer(c, calls, n) == Admitted
    ensures After(c, calls[..n + 1]) == After(c, calls[..n])
  {
    assert calls[..n + 1][..n] == calls[..n];
  }

  predicate Timely(calls: seq<Call>) { forall i, j :: 0 <= i < j < |calls| ==> calls[i].at <= calls[j].at }

  // --------------------------------------- the reference: one key, nothing pruned

  datatype Counter = NoCounter | Counter(count: int, expireAt: int)

  predicate Running(c: Counter, now: int) { c.Counter? && now < c.expireAt }

  function Alone(rule: Rule, ts: seq<int>): Counter {
    if ts == [] then NoCounter
    else
      var c, now := Alone(rule, ts[..|ts| - 1]), ts[|ts| - 1];
      if Running(c, now) then Counter(c.count + 1, c.expireAt) else Counter(1, now + rule.window)
  }

  function AloneAnswer(rule: Rule, ts: seq<int>, now: int): Verdict {
    var c := Alone(rule, ts);
    if Running(c, now) && c.count + 1 > rule.max then Blocked(Wait(c.expireAt, now)) else Admitted
  }

  /** When key k called. */
  function Times(calls: seq<Call>, k: Key): seq<int> {
    if calls == [] then []
    else
      var ts, last := Times(calls[..|calls| - 1], k), calls[|calls| - 1];
      if last.key == k then ts + [last.at] else ts
  }

  /** The shared table holds k's own counter, unless that counter has run out. */
  predicate Agrees(r: Records, k: Key, c: Counter, now: int) {
    if k in r then c == Counter(r[k].count, r[k].expireAt) else !Running(c, now)
  }

  lemma {:induction false} TableAgrees(c: Config, calls: seq<Call>, k: Key, now: int)
    requires Timely(calls) && (calls != [] ==> calls[|calls| - 1].at <= now)
    requires ResolveRule(c, k.group).max > 0
    ensures Agrees(After(c, calls), k, Alone(ResolveRule(c, k.group), Times(calls, k)), now)
  {
    if calls != [] {
      var before, last := calls[..|calls| - 1], calls[|calls| - 1];
      TableAgrees(c, before, k, last.at);
      var rule := ResolveRule(c, k.group);
      if last.key == k {
        OwnHit(After(c, before), k, Times(before, k), last.at, rule, now);
      } else if ResolveRule(c, last.key.group).max > 0 {
        var c' := Alone(rule, Times(before, k));
        OthersHit(After(c, before), k, c', last.key, last.at, ResolveRule(c, last.key.group), now);
      }
    }
  }

  lemma OwnHit(r: Records, k: Key, ts: seq<int>, at: int, rule: Rule, now: int)
    requires Agrees(r, k, Alone(rule, ts), at) && at <= now
    ensures Agrees(Hit(r, k, at, rule), k, Alone(rule, ts + [at]), now)
  {
  }

  lemma OthersHit(r: Records, k: Key, c: Counter, other: Key, at: int, rule: Rule, now: int)
    requires Agrees(r, k, c, at) && at <= now && other != k
    ensures Agrees(Hit(r, other, at, rule), k, c, now)
  {
  }

  /** No call of another key and no pruning ever changes a decision: each key is answered as
      by a limiter of its own that never forgets anything. */
  lemma KeysDoNotInterfere(c: Config, calls: seq<Call>, n: nat)
    requires Timely(calls) && n < |calls| && ResolveRule(c, calls[n].key.group).max > 0
    ensures var k := calls[n].key;
            Answer(c, calls, n) == AloneAnswer(ResolveRule(c, k.group), Times(calls[..n], k), calls[n].at)
  {
    TableAgrees(c, calls[..n], calls[n].key, calls[n].at);
  }

  // ------------------------------------------------------------- one key's windows

  predicate Ordered(ts: seq<int>) { forall i, j :: 0 <= i < j < |ts| ==> ts[i] <= ts[j] }

  predicate Opens(rule: Rule, ts: seq<int>, i: nat)
    requires i < |ts|
  {
    !Running(Alone(rule, ts[..i]), ts[i])
  }

  predicate AdmittedAt(rule: Rule, ts: seq<int>, i: nat)
    requires i < |ts|
  {
    AloneAnswer(rule, ts[..i], ts[i]).Admitted?
  }

  lemma {:induction false} WindowCounter(rule: Rule, ts: seq<int>, i: nat, j: nat)
    requires Ordered(ts) && i <= j < |ts| && Opens(rule, ts, i) && ts[j] < ts[i] + rule.window
    ensures Alone(rule, ts[..j + 1]) == Counter(j - i + 1, ts[i] + rule.window)
    decreases j
  {
    assert ts[..j + 1][..j] == ts[..j];
    if j > i { WindowCounter(rule, ts, i, j - 1); }
  }

  /** The window opened by call i admits its first max calls and no other. */
  lemma WindowAdmitsFirstMax(rule: Rule, ts: seq<int>, i: nat, j: nat)
    requires rule.max > 0
    requires Ordered(ts) && i <= j < |ts| && Opens(rule, ts, i) && ts[j] < ts[i] + rule.window
    ensures AdmittedAt(rule, ts, j) <==> j - i < rule.max
  {
    if j > i { WindowCounter(rule, ts, i, j - 1); }
  }

  /** Every call belongs to a window, so a blocked one has max admitted calls behind it in
      the same window, the first of them less than a window ago. */
  lemma BlockedMeansFull(rule: Rule, ts: seq<int>, j: nat) returns (i: nat)
    requires rule.max > 0 && Ordered(ts) && j < |ts| && !AdmittedAt(rule, ts, j)
    ensures i + rule.max <= j && Opens(rule, ts, i) && ts[j] < ts[i] + rule.window
    ensures forall k :: i <= k < i + rule.max ==> AdmittedAt(rule, ts, k)
    ensures forall k :: i + rule.max <= k <= j ==> !AdmittedAt(rule, ts, k)
  {
    i := OpenerOf(rule, ts, j);
    forall k | i <= k <= j ensures AdmittedAt(rule, ts, k) <==> k - i < rule.max {
      assert ts[k] <= ts[j];
      WindowAdmitsFirstMax(rule, ts, i, k);
    }
  }

  lemma {:induction false} OpenerOf(rule: Rule, ts: seq<int>, j: nat) returns (i: nat)
    requires Ordered(ts) && j < |ts|
    ensures i <= j && Opens(rule, ts, i) && ts[j] < ts[i] + rule.window
    decreases j
  {
    if Opens(rule, ts, j) { return j; }
    i := OpenerOf(rule, ts, j - 1);
    WindowCounter(rule, ts, i, j - 1);
  }

  // ---------------------------------------------------------- any interval at all

  /** How many calls were admitted at times in [a, b). */
  function AdmittedIn(rule: Rule, ts: seq<int>, a: int, b: int): (n: nat) {
    if ts == [] then 0
    else
      var k := |ts| - 1;
      AdmittedIn(rule, ts[..k], a, b) + if a <= ts[k] < b && AdmittedAt(rule, ts, k) then 1 else 0
  }

  lemma {:induction false} SplitInterval(rule: Rule, ts: seq<int>, a: int, m: int, b: int)
    requires a <= m <= b
    ensures AdmittedIn(rule, ts, a, b) == AdmittedIn(rule, ts, a, m) + AdmittedIn(rule, ts, m, b)
  {
    if ts != [] { SplitInterval(rule, ts[..|ts| - 1], a, m, b); }
  }

  lemma {:induction false} NoneLater(rule: Rule, ts: seq<int>, a: int, b: int)
    requires forall i :: 0 <= i < |ts| ==> ts[i] < a
    ensures AdmittedIn(rule, ts, a, b) == 0
  {
    if ts != [] { NoneLater(rule, ts[..|ts| - 1], a, b); }
  }

  lemma {:induction false} WiderInterval(rule: Rule, ts: seq<int>, a: int, b: int, a': int, b': int)
    requires a' <= a && b <= b'
    ensures AdmittedIn(rule, ts, a, b) <= AdmittedIn(rule, ts, a', b')
  {
    if ts != [] { WiderInterval(rule, ts[..|ts| - 1], a, b, a', b'); }
  }

  function Min(a: int, b: int): int { if a < b then a else b }

  /** What is known of the running window, which started at s: it holds the last call, it has
      admitted the smaller of its count and max, its first call was admitted, and of the calls
      less than a window before it fewer than max were. */
  ghost predicate WindowFacts(rule: Rule, ts: seq<int>) {
    ts != [] ==>
      var c := Alone(rule, ts);
      && c.Counter? && c.count >= 1
      && c.expireAt - rule.window <= ts[|ts| - 1] < c.expireAt
      && AdmittedIn(rule, ts, c.expireAt - rule.window, c.expireAt) == Min(c.count, rule.max)
      && AdmittedIn(rule, ts, c.expireAt - rule.window, c.expireAt - rule.window + 1) >= 1
      && FewBefore(rule, ts, c.expireAt - rule.window)
      && AdmittedIn(rule, ts, c.expireAt - 2 * rule.window, c.expireAt - rule.window) <= rule.max
  }

  ghost predicate FewBefore(rule: Rule, ts: seq<int>, s: int) {
    forall a :: s - rule.window < a <= s ==> AdmittedIn(rule, ts, a, s) < rule.max
  }

  lemma {:induction false} WindowFactsHold(rule: Rule, ts: seq<int>)
    requires rule.max > 0 && Ordered(ts)
    ensures WindowFacts(rule, ts)
  {
    if ts != [] {
      var before, t := ts[..|ts| - 1], ts[|ts| - 1];
      WindowFactsHold(rule, before);
      if Running(Alone(rule, before), t) { WindowGoesOn(rule, ts); } else { WindowOpens(rule, ts); }
    }
  }

  lemma WindowOpens(rule: Rule, ts: seq<int>)
    requires rule.max > 0 && Ordered(ts) && ts != [] && WindowFacts(rule, ts[..|ts| - 1])
    requires !Running(Alone(rule, ts[..|ts| - 1]), ts[|ts| - 1])
    ensures WindowFacts(rule, ts)
  {
    var before, t := ts[..|ts| - 1], ts[|ts| - 1];
    assert forall i :: 0 <= i < |before| ==> before[i] < t;
    NoneLater(rule, before, t, t + rule.window);
    NoneLater(rule, before, t, t + 1);
    forall a | t - rule.window < a <= t ensures AdmittedIn(rule, ts, a, t) < rule.max {
      if before != [] { WindowBehind(rule, before, a, t); }
    }
    assert FewBefore(rule, ts, t);
    if before != [] { WindowWhollyBehind(rule, before, t - rule.window, t); }
  }

  lemma WindowGoesOn(rule: Rule, ts: seq<int>)
    requires rule.max > 0 && Ordered(ts) && ts != [] && WindowFacts(rule, ts[..|ts| - 1])
    requires Running(Alone(rule, ts[..|ts| - 1]), ts[|ts| - 1])
    ensures WindowFacts(rule, ts)
  {
    var before := ts[..|ts| - 1];
    var s := Alone(rule, before).expireAt - rule.window;
    forall a | s - rule.window < a <= s ensures AdmittedIn(rule, ts, a, s) < rule.max {
      assert AdmittedIn(rule, ts, a, s) == AdmittedIn(rule, before, a, s);
    }
  }

  /** Once the window is over, any stretch that leaves out its first call is below max. */
  lemma WindowBehind(rule: Rule, ts: seq<int>, a: int, t: int)
    requires rule.max > 0 && Ordered(ts) && ts != [] && WindowFacts(rule, ts)
    requires t >= Alone(rule, ts).expireAt && t - rule.window < a <= t
    ensures AdmittedIn(rule, ts, a, t) < rule.max
  {
    var end := Alone(rule, ts).expireAt;
    var s := end - rule.window;
    NoneLater(rule, ts, end, t);
    SplitInterval(rule, ts, s, end, t);
    SplitInterval(rule, ts, s, s + 1, t);
    WiderInterval(rule, ts, a, t, s + 1, t);
  }

  /** And any stretch that may include it stays within max. */
  lemma WindowWhollyBehind(rule: Rule, ts: seq<int>, a: int, t: int)
    requires rule.max > 0 && Ordered(ts) && ts != [] && WindowFacts(rule, ts)
    requires t >= Alone(rule, ts).expireAt && t - rule.window <= a <= t
    ensures AdmittedIn(rule, ts, a, t) <= rule.max
  {
    var end := Alone(rule, ts).expireAt;
    NoneLater(rule, ts, end, t);
    SplitInterval(rule, ts, end - rule.window, end, t);
    WiderInterval(rule, ts, a, t, end - rule.window, t);
  }

  /** No interval of one window length admits more than 2 * max - 1 calls. */
  lemma {:induction false} AnyIntervalBounded(rule: Rule, ts: seq<int>, a: int, b: int)
    requires rule.max > 0 && Ordered(ts) && a <= b <= a + rule.window
    ensures AdmittedIn(rule, ts, a, b) <= 2 * rule.max - 1
  {
    if ts != [] {
      var t := ts[|ts| - 1];
      if a <= t < b {
        WindowFactsHold(rule, ts);
        var c := Alone(rule, ts);
        var s := c.expireAt - rule.window;
        if a < s { SplitInterval(rule, ts, a, s, b); }
        WiderInterval(rule, ts, Max(a, s), Min(b, c.expireAt), s, c.expireAt);
        if b > c.expireAt {
          NoneLater(rule, ts, c.expireAt, b);
          SplitInterval(rule, ts, Max(a, s), c.expireAt, b);
        }
      } else {
        AnyIntervalBounded(rule, ts[..|ts| - 1], a, b);
      }
    }
  }

  /** A closed interval of one window length, both ends counted, admits at most 2 * max. */
  lemma {:induction false} ClosedIntervalBounded(rule: Rule, ts: seq<int>, a: int)
    requires rule.max > 0 && Ordered(ts)
    ensures AdmittedIn(rule, ts, a, a + rule.window + 1) <= 2 * rule.max
  {
    if ts != [] {
      var t, b := ts[|ts| - 1], a + rule.window + 1;
      if a <= t < b {
        WindowFactsHold(rule, ts);
        var end := Alone(rule, ts).expireAt;
        var s := end - rule.window;
        assert a >= s - rule.window;
        if a < s {
          SplitInterval(rule, ts, a, s, b);
          if a > s - rule.window { assert AdmittedIn(rule, ts, a, s) < rule.max; }
        }
        WiderInterval(rule, ts, Max(a, s), Min(b, end), s, end);
        if b > end {
          NoneLater(rule, ts, end, b);
          SplitInterval(rule, ts, Max(a, s), end, b);
        }
      } else {
        ClosedIntervalBounded(rule, ts[..|ts| - 1], a);
      }
    }
  }

  function Max(a: int, b: int): int { if a < b then b else a }

  /** One early call, a burst just before the window ends and a burst just after. */
  function Bursts(rule: Rule): (ts: seq<int>)
    requires rule.max > 0
    ensures |ts| == 2 * rule.max
  {
    seq(2 * rule.max, i => if i == 0 then 0 else if i < rule.max then rule.window - 1 else rule.window)
  }

  lemma BurstAdmitted(rule: Rule, i: nat)
    requires rule.max > 0 && rule.window > 1 && i < 2 * rule.max
    ensures Ordered(Bursts(rule)) && AdmittedAt(rule, Bursts(rule), i)
  {
    var ts := Bursts(rule);
    if i < rule.max {
      WindowAdmitsFirstMax(rule, ts, 0, i);
    } else {
      WindowCounter(rule, ts, 0, rule.max - 1);
      WindowAdmitsFirstMax(rule, ts, rule.max, i);
    }
  }

  lemma {:induction false} BurstsCounted(rule: Rule, ts: seq<int>, n: nat)
    requires rule.max > 0 && rule.window > 1 && 0 < n <= 2 * rule.max && ts == Bursts(rule)[..n]
    ensures AdmittedIn(rule, ts, rule.window - 1, 2 * rule.window - 1) == n - 1
  {
    var all := Bursts(rule);
    BurstAdmitted(rule, n - 1);
    assert ts[..n - 1] == all[..n - 1] && ts[n - 1] == all[n - 1];
    if n > 1 { BurstsCounted(rule, all[..n - 1], n - 1); }
  }

  /** The bound is reached for every limit, so the limiter is not a sliding window. */
  lemma IntervalBoundAttained(rule: Rule)
    requires rule.max > 0 && rule.window > 1
    ensures Ordered(Bursts(rule))
    ensures AdmittedIn(rule, Bursts(rule), rule.window - 1, 2 * rule.window - 1) == 2 * rule.max - 1
  {
    assert Bursts(rule)[..2 * rule.max] == Bursts(rule);
    BurstsCounted(rule, Bursts(rule), 2 * rule.max);
  }

  /** max calls as a window opens and max more as the next one does. */
  function DoubleBurst(rule: Rule): (ts: seq<int>)
    requires rule.max > 0
    ensures |ts| == 2 * rule.max
  {
    seq(2 * rule.max, i => if i < rule.max then 0 else rule.window)
  }

  lemma DoubleBurstAdmitted(rule: Rule, i: nat)
    requires rule.max > 0 && i < 2 * rule.max
    ensures Ordered(DoubleBurst(rule)) && AdmittedAt(rule, DoubleBurst(rule), i)
  {
    var all := DoubleBurst(rule);
    if i < rule.max {
      WindowAdmitsFirstMax(rule, all, 0, i);
    } else {
      WindowCounter(rule, all, 0, rule.max - 1);
      WindowAdmitsFirstMax(rule, all, rule.max, i);
    }
  }

  lemma {:induction false} DoubleBurstCounted(rule: Rule, ts: seq<int>, n: nat)
    requires rule.max > 0 && n <= 2 * rule.max && ts == DoubleBurst(rule)[..n]
    ensures AdmittedIn(rule, ts, 0, rule.window + 1) == n
  {
    if n > 0 {
      var all := DoubleBurst(rule);
      DoubleBurstAdmitted(rule, n - 1);
      assert ts[..n - 1] == all[..n - 1] && ts[n - 1] == all[n - 1];
      DoubleBurstCounted(rule, all[..n - 1], n - 1);
    }
  }

  /** The closed bound is reached too, for every limit and window. */
  lemma ClosedBoundAttained(rule: Rule)
    requires rule.max > 0
    ensures Ordered(DoubleBurst(rule))
    ensures AdmittedIn(rule, DoubleBurst(rule), 0, rule.window + 1) == 2 * rule.max
  {
    assert DoubleBurst(rule)[..2 * rule.max] == DoubleBurst(rule);
    DoubleBurstCounted(rule, DoubleBurst(rule), 2 * rule.max);
  }

  /** A client that waits exactly as long as it was told is admitted if and only if the time
      left was at most a second or a whole number of seconds: the answer is rounded down. */
  lemma RetryAfter(rule: Rule, ts: seq<int>, now: int)
    requires rule.max > 0 && AloneAnswer(rule, ts, now).Blocked?
    ensures var w := AloneAnswer(rule, ts, now).wait;
            var left := Alone(rule, ts).expireAt - now;
            && w >= 1 && left < w * SECOND + SECOND
            && (AloneAnswer(rule, ts + [now], now + w * SECOND).Admitted?
                <==> left <= SECOND || left % SECOND == 0)
  {
    var end := Alone(rule, ts).expireAt;
    var w := Wait(end, now);
    RoundedDown(end, now);
    AdmittedOnceOver(rule, ts, now, now + w * SECOND);
  }

  lemma RoundedDown(end: int, now: int)
    requires now < end
    ensures var w := Wait(end, now);
            && w >= 1 && end - now < w * SECOND + SECOND
            && (end <= now + w * SECOND <==> end - now <= SECOND || (end - now) % SECOND == 0)
  {
  }

  /** Refused at now, the client is admitted from the end of the window on and not before. */
  lemma AdmittedOnceOver(rule: Rule, ts: seq<int>, now: int, later: int)
    requires rule.max > 0 && AloneAnswer(rule, ts, now).Blocked? && later >= now
    ensures AloneAnswer(rule, ts, now) == Blocked(Wait(Alone(rule, ts).expireAt, now))
    ensures AloneAnswer(rule, ts + [now], later).Admitted? <==> Alone(rule, ts).expireAt <= later
  {
    assert (ts + [now])[..|ts|] == ts;
    var c := Alone(rule, ts);
    assert Alone(rule, ts + [now]) == Counter(c.count + 1, c.expireAt);
  }

  /** One call a minute, the second a second and a half too early: told to wait one second, the
      client comes back in time to be refused again. */
  lemma RetryTooEarly()
    ensures var rule, now := Rule(1, MINUTE), MINUTE - 3 * SECOND / 2;
            && AloneAnswer(rule, [0], now) == Blocked(1)
            && AloneAnswer(rule, [0, now], now + SECOND).Blocked?
  {
    var rule, now := Rule(1, MINUTE), MINUTE - 3 * SECOND / 2;
    assert [0][..0] == [] && [0, now][..1] == [0];
    assert Alone(rule, [0]) == Counter(1, MINUTE);
    assert Alone(rule, [0, now]) == Counter(2, MINUTE);
  }

  // ---------------------------------------------------- from the trace to one key

  lemma {:induction false} TimesAreOrdered(calls: seq<Call>, k: Key)
    requires Timely(calls)
    ensures Ordered(Times(calls, k))
    ensures Times(calls, k) != [] ==> calls != [] && Times(calls, k)[|Times(calls, k)| - 1] <= calls[|calls| - 1].at
  {
    if calls != [] {
      TimesAreOrdered(calls[..|calls| - 1], k);
    }
  }

  /** Calls of key k admitted at times in [a, b), in a trace of all keys and both transports. */
  function Granted(c: Config, calls: seq<Call>, k: Key, a: int, b: int): (n: nat) {
    if calls == [] then 0
    else
      var n := |calls| - 1;
      Granted(c, calls[..n], k, a, b)
      + if calls[n].key == k && a <= calls[n].at < b && Answer(c, calls, n).Admitted? then 1 else 0
  }

  lemma {:induction false} GrantedAlone(c: Config, calls: seq<Call>, k: Key, a: int, b: int)
    requires Timely(calls) && ResolveRule(c, k.group).max > 0
    ensures Granted(c, calls, k, a, b) == AdmittedIn(ResolveRule(c, k.group), Times(calls, k), a, b)
  {
    if calls != [] {
      var n := |calls| - 1;
      GrantedAlone(c, calls[..n], k, a, b);
      if calls[n].key == k {
        KeysDoNotInterfere(c, calls, n);
        var ts := Times(calls[..n], k);
        assert Times(calls, k)[..|ts|] == ts;
      }
    }
  }

  lemma HalfOpenGrants(c: Config, calls: seq<Call>, k: Key, a: int, w: int)
    requires Timely(calls) && ResolveRule(c, k.group).max > 0 && w == ResolveRule(c, k.group).window
    ensures Granted(c, calls, k, a, a + w) <= 2 * ResolveRule(c, k.group).max - 1
  {
    TimesAreOrdered(calls, k);
    GrantedAlone(c, calls, k, a, a + w);
    AnyIntervalBounded(ResolveRule(c, k.group), Times(calls, k), a, a + w);
  }

  lemma ClosedGrants(c: Config, calls: seq<Call>, k: Key, a: int, w: int)
    requires Timely(calls) && ResolveRule(c, k.group).max > 0 && w == ResolveRule(c, k.group).window
    ensures Granted(c, calls, k, a, a + w + 1) <= 2 * ResolveRule(c, k.group).max
  {
    TimesAreOrdered(calls, k);
    GrantedAlone(c, calls, k, a, a + w + 1);
    ClosedIntervalBounded(ResolveRule(c, k.group), Times(calls, k), a);
  }

  /** The limiter over any trace: at most 2 * max - 1 calls of a key in one window length, and
      2 * max when both ends of the interval count. */
  lemma GrantsBounded(c: Config, calls: seq<Call>, k: Key, a: int)
    requires Timely(calls) && ResolveRule(c, k.group).max > 0
    ensures var rule := ResolveRule(c, k.group);
            && Granted(c, calls, k, a, a + rule.window) <= 2 * rule.max - 1
            && Granted(c, calls, k, a, a + rule.window + 1) <= 2 * rule.max
  {
    HalfOpenGrants(c, calls, k, a, ResolveRule(c, k.group).window);
    ClosedGrants(c, calls, k, a, ResolveRule(c, k.group).window);
  }

  // --------------------------------------------------------------- the two callers

  datatype Maybe<T> = Nothing | Just(value: T)

  class Limiter {
    var records: Records

    constructor ()
      ensures records == map[]
    {
      records := map[];
    }

    /** Drops expired counters, the entry just made being among those kept. */
    method Prune(now: int)
      modifies this
      ensures forall k :: k in records <==> k in old(records) && now < old(records)[k].expireAt
      ensures records == Pruned(old(records), now)
    {
      var rest := records.Keys;
      while rest != {}
        invariant rest <= records.Keys <= old(records).Keys
        invariant forall k :: k in records ==> records[k] == old(records)[k]
        invariant forall k :: k in old(records) && k !in records ==> !(now < old(records)[k].expireAt)
        invariant forall k :: k in records && k !in rest ==> now < records[k].expireAt
        decreases |rest|
      {
        var k :| k in rest;
        rest := rest - {k};
        if !(now < records[k].expireAt) { records := records - {k}; }
      }
    }

    /** ConsumeMCPToolQuota, for a message on a WebSocket: (0, _) lets the call through. */
    method ConsumeMCPToolQuota(enabled: bool, c: Config, key: Key, now: int) returns (retryAfter: int, maximum: int)
      modifies this
      ensures var rule := ResolveRule(c, key.group);
              if !enabled || rule.max <= 0 then records == old(records) && retryAfter == 0
              else
                && maximum == rule.max
                && records == Hit(old(records), key, now, rule)
                && retryAfter == (match Decide(old(records), key, now, rule) case Blocked(w) => w case Admitted => 0)
    {
      if !enabled { return 0, 0; }
      var rule := ResolveRule(c, key.group);
      if rule.max <= 0 { return 0, rule.max; }
      if key in records && now < records[key].expireAt {
        var e := records[key];
        records := records[key := e.(count := e.count + 1)];
        if e.count + 1 > rule.max {
          var wait := (e.expireAt - now) / SECOND;
          if wait < 1 { wait := 1; }
          return wait, rule.max;
        }
      } else {
        records := records[key := Entry(1, now + rule.window)];
        Prune(now);
      }
      return 0, rule.max;
    }

    /** RateLimit, for an HTTP request: anything but an authenticated tools/call is free. */
    method RateLimit(enabled: bool, c: Config, user: Maybe<int>, group: string, rpc: string, now: int)
        returns (blocked: bool, retryAfter: int)
      modifies this
      ensures var rule := ResolveRule(c, group);
              if !enabled || user.Nothing? || rpc != "tools/call" || rule.max <= 0
              then records == old(records) && !blocked
              else
                && records == Hit(old(records), Key(user.value, group), now, rule)
                && blocked == Decide(old(records), Key(user.value, group), now, rule).Blocked?
                && (blocked ==> Decide(old(records), Key(user.value, group), now, rule) == Blocked(retryAfter))
    {
      if !enabled || user.Nothing? || rpc != "tools/call" { return false, 0; }
      var rule := ResolveRule(c, group);
      if rule.max <= 0 { return false, 0; }
      var key := Key(user.value, group);
      if key in records && now < records[key].expireAt {
        var e := records[key];
        records := records[key := e.(count := e.count + 1)];
        if e.count + 1 > rule.max {
          var wait := (e.expireAt - now) / SECOND;
          if wait < 1 { wait := 1; }
          return true, wait;
        }
      } else {
        records := records[key := Entry(1, now + rule.window)];
        Prune(now);
      }
      return false, 0;
    }
  }
}
