/** The durable sliding-window rate limiter: what its rows guarantee for every sequence of clock readings,
    and how exact its waiting times are. */
module RateLimit {
  import opened Basics

  datatype Policy = Policy(maxRequests: int, window: real, minInterval: real)

  /** What the project's policies satisfy. */
  predicate Sensible(p: Policy) {
    p.maxRequests >= 1 && 0.0 <= p.minInterval <= p.window
  }

  /** `Crashed` is the index error of an empty window under a policy that allows no request. */
  datatype Reservation =
    | Granted(count: nat, at: real)
    | Refused(wait: real, count: nat)
    | Crashed

  datatype Key = Key(provider: string, bucket: string)

  function Max(a: real, b: real): real {
    if a >= b then a else b
  }

  // ---------------------------------------------------------------- the rows a call looks at

  predicate Ascending(s: seq<real>) {
    forall i, j :: 0 <= i <= j < |s| ==> s[i] <= s[j]
  }

  function Inserted(s: seq<real>, x: real): (r: seq<real>)
    requires Ascending(s)
    ensures Ascending(r) && |r| == |s| + 1
    ensures forall i :: 0 <= i < |r| ==> r[i] == x || r[i] in s
  {
    if s == [] || x < s[0] then [x] + s
    else
      var r := Inserted(s[1..], x);
      assert forall y :: y in s[1..] ==> s[0] <= y;
      assert forall i :: 0 <= i < |r| ==> s[0] <= r[i];
      [s[0]] + r
  }

  lemma {:induction false} InsertedLast(s: seq<real>, x: real)
    requires Ascending(s) && (s == [] || s[|s| - 1] <= x)
    ensures Inserted(s, x) == s + [x]
  {
    if s != [] {
      InsertedLast(s[1..], x);
      assert s == [s[0]] + s[1..];
    }
  }

  /** SELECT reserved_at ... WHERE reserved_at > cutoff ORDER BY reserved_at. */
  function Recent(rows: seq<real>, cutoff: real): (r: seq<real>)
    ensures Ascending(r) && forall x :: x in r ==> x > cutoff
  {
    if rows == [] then []
    else
      var rest := Recent(rows[..|rows| - 1], cutoff);
      var x := rows[|rows| - 1];
      if x > cutoff then Inserted(rest, x) else rest
  }

  lemma {:induction false} InsertedAll(s: seq<real>, x: real)
    requires Ascending(s)
    ensures multiset(Inserted(s, x)) == multiset(s) + multiset{x}
  {
    if s != [] && s[0] <= x {
      InsertedAll(s[1..], x);
      assert s == [s[0]] + s[1..];
    }
  }

  /** Whatever order the rows have: every row after the cutoff, as often as it occurs, and no other. */
  lemma {:induction false} RecentExactly(rows: seq<real>, cutoff: real, x: real)
    ensures multiset(Recent(rows, cutoff))[x] == if x > cutoff then multiset(rows)[x] else 0
  {
    if rows != [] {
      var rest, last := rows[..|rows| - 1], rows[|rows| - 1];
      RecentExactly(rest, cutoff, x);
      assert rows == rest + [last];
      if last > cutoff { InsertedAll(Recent(rest, cutoff), last); }
    }
  }

  /** The waiting time the rows and the block call for; a grant is a waiting time of zero. */
  function Decide(rows: seq<real>, blockedUntil: real, p: Policy, now: real): Reservation {
    var recent := Recent(rows, now - p.window);
    if recent == [] && p.maxRequests <= 0 then Crashed
    else
      var block := Max(0.0, blockedUntil - now);
      var interval := if recent == [] then block else Max(block, recent[|recent| - 1] + p.minInterval - now);
      var wait := if |recent| >= p.maxRequests then Max(interval, recent[0] + p.window - now) else interval;
      if wait > 0.0 then Refused(wait, |recent|) else Granted(|recent| + 1, now)
  }

  // ---------------------------------------------------------------- the invariant of the rows

  /** Spaced by the minimum interval, and no more than the maximum in a window's length. */
  ghost predicate Spaced(rows: seq<real>, p: Policy) {
    && Ascending(rows)
    && (forall i :: 0 <= i < |rows| - 1 ==> rows[i] + p.minInterval <= rows[i + 1])
    && (forall i, j :: 0 <= i < j < |rows| && j == i + p.maxRequests ==> rows[i] + p.window <= rows[j])
  }

  /** In ascending rows the recent ones are a suffix. */
  lemma {:induction false} RecentIsSuffix(rows: seq<real>, cutoff: real) returns (n: nat)
    requires Ascending(rows)
    ensures n <= |rows| && Recent(rows, cutoff) == rows[n..]
    ensures forall i :: 0 <= i < n ==> rows[i] <= cutoff
    ensures forall i :: n <= i < |rows| ==> rows[i] > cutoff
  {
    if rows == [] || rows[|rows| - 1] <= cutoff {
      n := |rows|;
      NoneRecent(rows, cutoff);
      assert rows[n..] == [];
      hide Recent;
    } else {
      var rest := rows[..|rows| - 1];
      n := RecentIsSuffix(rest, cutoff);
      hide Recent;
      SuffixGrows(rows, cutoff, n);
      assert forall i :: 0 <= i < |rest| ==> rest[i] == rows[i];
    }
  }

  lemma RecentStep(rows: seq<real>, cutoff: real)
    requires rows != [] && rows[|rows| - 1] > cutoff
    ensures Recent(rows, cutoff) == Inserted(Recent(rows[..|rows| - 1], cutoff), rows[|rows| - 1])
  {
  }

  lemma SuffixGrows(rows: seq<real>, cutoff: real, n: nat)
    requires Ascending(rows) && n < |rows| && rows[|rows| - 1] > cutoff
    requires Recent(rows[..|rows| - 1], cutoff) == rows[..|rows| - 1][n..]
    ensures Recent(rows, cutoff) == rows[n..]
  {
    hide Recent, Inserted;
    var rest, x := rows[..|rows| - 1], rows[|rows| - 1];
    var r := rest[n..];
    LastKept(rows, n);
    RecentStep(rows, cutoff);
    InsertedLast(r, x);
  }

  lemma LastKept(rows: seq<real>, n: nat)
    requires Ascending(rows) && n < |rows|
    ensures var r := rows[..|rows| - 1][n..];
            Ascending(r) && rows[n..] == r + [rows[|rows| - 1]] && (r == [] || r[|r| - 1] <= rows[|rows| - 1])
  {
  }

  lemma {:induction false} NoneRecent(rows: seq<real>, cutoff: real)
    requires forall i :: 0 <= i < |rows| ==> rows[i] <= cutoff
    ensures Recent(rows, cutoff) == []
  {
    if rows != [] { NoneRecent(rows[..|rows| - 1], cutoff); }
  }

  predicate HasRoom(rows: seq<real>, p: Policy, now: real) {
    var recent := Recent(rows, now - p.window);
    (recent != [] ==> recent[|recent| - 1] + p.minInterval <= now) && |recent| < p.maxRequests
  }

  /** A grant means: no block, the minimum interval since the newest recent row, and room in the window. */
  lemma GrantedExactly(rows: seq<real>, blockedUntil: real, p: Policy, now: real)
    requires Sensible(p)
    ensures Decide(rows, blockedUntil, p, now).Granted? <==> blockedUntil <= now && HasRoom(rows, p, now)
  {
    hide Recent, Ascending;
    var recent := Recent(rows, now - p.window);
    if recent != [] { assert recent[0] in recent; }
  }

  /** A grant keeps the rows spaced, whatever the clock says. */
  lemma GrantKeepsSpaced(rows: seq<real>, blockedUntil: real, p: Policy, now: real)
    requires Sensible(p) && Spaced(rows, p) && Decide(rows, blockedUntil, p, now).Granted?
    ensures Spaced(rows + [now], p)
    ensures rows != [] ==> rows[|rows| - 1] + p.minInterval <= now
  {
    hide Decide, Recent;
    GrantedExactly(rows, blockedUntil, p, now);
    var n := RecentIsSuffix(rows, now - p.window);
    assert |rows| - n < p.maxRequests;
    if rows != [] {
      if n == |rows| { assert rows[|rows| - 1] <= now - p.window; } else {
        assert rows[n..][|rows| - n - 1] == rows[|rows| - 1];
      }
    }
    var all := rows + [now];
    forall i, j | 0 <= i < j < |all| && j == i + p.maxRequests ensures all[i] + p.window <= all[j] {
      if j == |rows| { assert i < n; }
    }
  }

  function CountIn(rows: seq<real>, from: real, to: real, closedLeft: bool): nat {
    if rows == [] then 0
    else
      var x := rows[|rows| - 1];
      CountIn(rows[..|rows| - 1], from, to, closedLeft) +
        if (if closedLeft then from <= x < to else from < x <= to) then 1 else 0
  }

  /** All counted rows lie after position |rows| - n, when n rows are the most that fit. */
  lemma {:induction false} CountBound(rows: seq<real>, from: real, to: real, closedLeft: bool, first: nat)
    requires first <= |rows|
    requires forall i :: 0 <= i < first ==> !(if closedLeft then from <= rows[i] < to else from < rows[i] <= to)
    ensures CountIn(rows, from, to, closedLeft) <= |rows| - first
  {
    if rows != [] {
      if first == |rows| {
        CountBound(rows[..|rows| - 1], from, to, closedLeft, first - 1);
      } else {
        CountBound(rows[..|rows| - 1], from, to, closedLeft, first);
      }
    }
  }

  lemma EarlierIsOut(rows: seq<real>, p: Policy, i: nat)
    requires Sensible(p) && Spaced(rows, p) && i + p.maxRequests < |rows|
    ensures rows[i] + p.window <= rows[|rows| - 1]
  {
    assert rows[i] + p.window <= rows[i + p.maxRequests];
  }

  /** At most `maxRequests` grants lie in any half-open window, closed on either side. */
  lemma {:induction false} WindowBound(rows: seq<real>, p: Policy, from: real, closedLeft: bool)
    requires Sensible(p) && Spaced(rows, p)
    ensures CountIn(rows, from, from + p.window, closedLeft) <= p.maxRequests
  {
    if rows != [] {
      var rest, x := rows[..|rows| - 1], rows[|rows| - 1];
      assert Spaced(rest, p);
      if if closedLeft then from <= x < from + p.window else from < x <= from + p.window {
        var first := if |rows| > p.maxRequests then |rows| - p.maxRequests else 0;
        forall i | 0 <= i < first
          ensures !(if closedLeft then from <= rows[i] < from + p.window else from < rows[i] <= from + p.window)
        {
          EarlierIsOut(rows, p, i);
        }
        CountBound(rows, from, from + p.window, closedLeft, first);
      } else {
        WindowBound(rest, p, from, closedLeft);
      }
    }
  }

  // ---------------------------------------------------------------- exact waits

  /** The row that must leave the window before there is room again has left it after the wait. */
  predicate RoomAfter(recent: seq<real>, p: Policy, later: real)
    requires p.maxRequests >= 1
  {
    |recent| >= p.maxRequests ==> recent[|recent| - p.maxRequests] + p.window <= later
  }

  lemma LaterRecent(rows: seq<real>, p: Policy, now: real, later: real) returns (n: nat, m: nat)
    requires Ascending(rows) && now <= later
    ensures n <= m <= |rows|
    ensures Recent(rows, now - p.window) == rows[n..] && Recent(rows, later - p.window) == rows[m..]
    ensures forall i :: 0 <= i < |rows| ==> (i < m <==> rows[i] <= later - p.window)
  {
    hide Recent;
    n := RecentIsSuffix(rows, now - p.window);
    m := RecentIsSuffix(rows, later - p.window);
    assert m < |rows| ==> rows[m] > later - p.window;
  }

  lemma RefusedFacts(rows: seq<real>, blockedUntil: real, p: Policy, now: real)
    requires Sensible(p) && Decide(rows, blockedUntil, p, now).Refused?
    ensures var recent, wait := Recent(rows, now - p.window), Decide(rows, blockedUntil, p, now).wait;
            && wait > 0.0 && blockedUntil <= now + wait
            && (recent != [] ==> recent[|recent| - 1] + p.minInterval <= now + wait)
            && (|recent| >= p.maxRequests ==> recent[0] + p.window <= now + wait)
            && (now + wait == blockedUntil
                || (recent != [] && now + wait == recent[|recent| - 1] + p.minInterval)
                || (|recent| >= p.maxRequests && now + wait == recent[0] + p.window))
    ensures Decide(rows, blockedUntil, p, now).count == |Recent(rows, now - p.window)|
  {
    hide Recent, Ascending;
  }

  /** A refusal's wait is never too long: every earlier instant would be refused as well. */
  lemma RefusedUntilThen(rows: seq<real>, blockedUntil: real, p: Policy, now: real, earlier: real)
    requires Sensible(p) && Ascending(rows) && Decide(rows, blockedUntil, p, now).Refused?
    requires now <= earlier < now + Decide(rows, blockedUntil, p, now).wait
    ensures Decide(rows, blockedUntil, p, earlier).Refused?
  {
    hide Decide, Recent;
    RefusedFacts(rows, blockedUntil, p, now);
    var n, m := LaterRecent(rows, p, now, earlier);
    GrantedExactly(rows, blockedUntil, p, earlier);
    NeverCrashes(rows, blockedUntil, p, earlier);
  }

  lemma NeverCrashes(rows: seq<real>, blockedUntil: real, p: Policy, now: real)
    requires p.maxRequests >= 1
    ensures !Decide(rows, blockedUntil, p, now).Crashed?
  {
  }

  lemma LastOf(rows: seq<real>, n: nat, k: nat)
    requires n <= |rows| && 1 <= k <= |rows| - n
    ensures rows[n..][|rows| - n - k] == rows[|rows| - k]
  {
  }

  /** The wait is exact, that is granted the moment it is over, if by then enough rows have left the window. */
  lemma WaitEnds(rows: seq<real>, blockedUntil: real, p: Policy, now: real)
    requires Sensible(p) && Ascending(rows) && Decide(rows, blockedUntil, p, now).Refused?
    ensures var later := now + Decide(rows, blockedUntil, p, now).wait;
            Decide(rows, blockedUntil, p, later).Granted? <==> RoomAfter(Recent(rows, now - p.window), p, later)
  {
    hide Decide, Recent, Ascending;
    RefusedFacts(rows, blockedUntil, p, now);
    var later := now + Decide(rows, blockedUntil, p, now).wait;
    var n, m := LaterRecent(rows, p, now, later);
    GrantedExactly(rows, blockedUntil, p, later);
    if n < |rows| { LastOf(rows, n, 1); }
    if m < |rows| { LastOf(rows, m, 1); }
    if |rows| - n >= p.maxRequests { LastOf(rows, n, p.maxRequests); }
  }

  /** No more recent rows than the policy allows at once, or the rows too many do not matter: what counts is
      over before the row that makes room leaves the window, or that row is as old as the oldest. */
  predicate WaitIsExact(recent: seq<real>, blockedUntil: real, p: Policy)
    requires p.maxRequests >= 1
  {
    |recent| > p.maxRequests ==>
      var row := recent[|recent| - p.maxRequests];
      row + p.window <= Max(blockedUntil, recent[|recent| - 1] + p.minInterval) || row == recent[0]
  }

  /** Exactly when a caller who waits as long as it was told is granted at once, in terms of what the
      limiter saw: the recent rows, the block and the policy. */
  lemma WaitExactly(rows: seq<real>, blockedUntil: real, p: Policy, now: real)
    requires Sensible(p) && Ascending(rows) && Decide(rows, blockedUntil, p, now).Refused?
    ensures Decide(rows, blockedUntil, p, now + Decide(rows, blockedUntil, p, now).wait).Granted? <==>
              WaitIsExact(Recent(rows, now - p.window), blockedUntil, p)
  {
    hide Decide, Recent, Ascending;
    RefusedFacts(rows, blockedUntil, p, now);
    WaitEnds(rows, blockedUntil, p, now);
    var recent := Recent(rows, now - p.window);
    if |recent| > p.maxRequests { FirstIsOldest(recent, |recent| - p.maxRequests); }
  }

  lemma FirstIsOldest(s: seq<real>, i: nat)
    requires Ascending(s) && i < |s|
    ensures s[0] <= s[i]
  {
  }

  /** Rows of one policy: there are too many recent ones only while the clock is behind the newest row. */
  lemma TooManyMeansBehind(rows: seq<real>, p: Policy, now: real)
    requires Sensible(p) && Spaced(rows, p) && |Recent(rows, now - p.window)| > p.maxRequests
    ensures rows != [] && now < rows[|rows| - 1]
  {
    hide Recent, Ascending;
    var n := RecentIsSuffix(rows, now - p.window);
    var i := |rows| - 1 - p.maxRequests;
    assert rows[i] + p.window <= rows[|rows| - 1] && rows[i] > now - p.window;
  }

  /** With one policy, a clock that has reached the newest row always gets an exact wait. */
  lemma ExactWhenClockIsNotBehind(rows: seq<real>, blockedUntil: real, p: Policy, now: real)
    requires Sensible(p) && Spaced(rows, p) && Decide(rows, blockedUntil, p, now).Refused?
    requires rows != [] ==> rows[|rows| - 1] <= now
    ensures Decide(rows, blockedUntil, p, now + Decide(rows, blockedUntil, p, now).wait).Granted?
  {
    hide Decide, Recent, Spaced;
    if |Recent(rows, now - p.window)| > p.maxRequests { TooManyMeansBehind(rows, p, now); }
    SpacedAscends(rows, p);
    WaitExactly(rows, blockedUntil, p, now);
  }

  lemma SpacedAscends(rows: seq<real>, p: Policy)
    requires Spaced(rows, p)
    ensures Ascending(rows)
  {
  }

  /** A clock behind the newest rows can be told too short a wait. */
  lemma ShortWaitExample()
    ensures var p := Policy(1, 10.0, 1.0);
            var rows := [100.0, 110.0, 120.0];
            && Spaced(rows, p) && Decide(rows, 0.0, p, 50.0) == Refused(71.0, 3)
            && !Decide(rows, 0.0, p, 121.0).Granted?
  {
    hide Recent;
    var p := Policy(1, 10.0, 1.0);
    var rows := [100.0, 110.0, 120.0];
    var n := RecentIsSuffix(rows, 40.0);
    assert rows[0] == 100.0 && n == 0 && rows[0..] == rows;
    SecondAttempt(rows, p);
  }

  lemma SecondAttempt(rows: seq<real>, p: Policy)
    requires p == Policy(1, 10.0, 1.0) && rows == [100.0, 110.0, 120.0]
    ensures !Decide(rows, 0.0, p, 121.0).Granted?
  {
    hide Recent, Decide;
    var m := RecentIsSuffix(rows, 111.0);
    assert rows[1] == 110.0 && rows[2] == 120.0 && m == 2 && rows[2..] == [120.0];
    GrantedExactly(rows, 0.0, p, 121.0);
  }

  // ---------------------------------------------------------------- the limiter

  class DurableRateLimiter {
    var reservations: map<Key, seq<real>>
    var blocks: map<Key, real>

    constructor ()
      ensures reservations == map[] && blocks == map[]
    {
      reservations, blocks := map[], map[];
    }

    function Rows(key: Key): seq<real>
      reads this
    {
      RowsOf(reservations, key)
    }

    function BlockedUntil(key: Key): real
      reads this
    {
      if key in blocks then blocks[key] else 0.0
    }

    /** One reservation attempt at clock reading `now`: one immediate transaction. */
    method Reserve(key: Key, policy: Policy, now: real) returns (r: Reservation)
      modifies this`reservations
      ensures r == Decide(old(Rows(key)), BlockedUntil(key), policy, now)
      ensures r.Granted? ==> if key in blocks then blocks[key] <= now else 0.0 <= now
      ensures r.Refused? ==> r.wait > 0.0 && (key in blocks ==> now + r.wait >= blocks[key])
      ensures policy.maxRequests >= 1 ==> !r.Crashed?
      ensures Sensible(policy) ==> (r.Granted? <==>
                (if key in blocks then blocks[key] <= now else 0.0 <= now) && HasRoom(old(Rows(key)), policy, now))
      ensures Rows(key) == old(Rows(key)) + if r.Granted? then [now] else []
      ensures forall k :: k != key ==> Rows(k) == old(Rows(k))
      ensures Sensible(policy) && old(Spaced(Rows(key), policy)) ==> Spaced(Rows(key), policy)
    {
      hide Recent, Spaced, Ascending;
      ghost var before := Rows(key);
      if Sensible(policy) { GrantedExactly(before, BlockedUntil(key), policy, now); }
      var timestamps := Recent(Rows(key), now - policy.window);
      if timestamps == [] && policy.maxRequests <= 0 { return Crashed; }
      var wait := Max(0.0, BlockedUntil(key) - now);
      if timestamps != [] {
        wait := Max(wait, timestamps[|timestamps| - 1] + policy.minInterval - now);
      }
      if |timestamps| >= policy.maxRequests {
        wait := Max(wait, timestamps[0] + policy.window - now);
      }
      if wait > 0.0 { return Refused(wait, |timestamps|); }
      if Sensible(policy) && Spaced(before, policy) { GrantKeepsSpaced(before, BlockedUntil(key), policy, now); }
      reservations := reservations[key := Rows(key) + [now]];
      return Granted(|timestamps| + 1, now);
    }

    /** Wait for a reservation with nobody else at work and a sleeper that sleeps exactly as asked. */
    method WaitAndReserve(key: Key, policy: Policy, start: real) returns (now: real, calls: nat)
      requires Sensible(policy) && Spaced(Rows(key), policy)
      modifies this`reservations
      ensures Rows(key) == old(Rows(key)) + [now] && Spaced(Rows(key), policy) && now >= start
      ensures calls <= 3
      ensures old(NotBehind(Rows(key), start)) ==> calls <= 2
      ensures forall k :: k != key ==> Rows(k) == old(Rows(k))
    {
      hide Decide, Recent, Spaced, NotBehind;
      ghost var rows := Rows(key);
      now, calls := start, 0;
      while true
        invariant Rows(key) == rows && Spaced(rows, policy) && now >= start && calls <= 2
        invariant forall k :: k != key ==> Rows(k) == old(Rows(k))
        invariant calls == 0 ==> now == start
        invariant calls > 0 ==> NotBehind(rows, now)
        invariant calls == 1 && NotBehind(rows, start) ==> Decide(rows, BlockedUntil(key), policy, now).Granted?
        invariant calls == 2 ==> Decide(rows, BlockedUntil(key), policy, now).Granted? && !NotBehind(rows, start)
        decreases 3 - calls
      {
        calls := calls + 1;
        var r := Reserve(key, policy, now);
        NeverCrashes(rows, BlockedUntil(key), policy, now);
        if r.Granted? { return; }
        NextAttempt(rows, BlockedUntil(key), policy, now);
        now := now + r.wait;
      }
    }

    /** A block is only ever prolonged. */
    method Block(key: Key, now: real, seconds: real)
      modifies this`blocks
      ensures key in blocks && blocks[key] >= now + Max(0.0, seconds)
      ensures key in old(blocks) ==> blocks[key] == Max(old(blocks[key]), now + Max(0.0, seconds))
      ensures key !in old(blocks) ==> blocks[key] == now + Max(0.0, seconds)
      ensures blocks - {key} == old(blocks) - {key}
    {
      var until := now + Max(0.0, seconds);
      if key in blocks { until := Max(blocks[key], until); }
      blocks := blocks[key := until];
    }
  }

  predicate NotBehind(rows: seq<real>, now: real) {
    rows != [] ==> rows[|rows| - 1] <= now
  }

  lemma NewestIsRecent(rows: seq<real>, p: Policy, now: real)
    requires Sensible(p) && Spaced(rows, p)
    ensures var recent := Recent(rows, now - p.window);
            if recent == [] then NotBehind(rows, now) else rows != [] && recent[|recent| - 1] == rows[|rows| - 1]
  {
    hide Recent;
    var n := RecentIsSuffix(rows, now - p.window);
    if n < |rows| {
      assert rows[n..][|rows| - n - 1] == rows[|rows| - 1];
    } else {
      assert rows != [] ==> rows[|rows| - 1] <= now - p.window;
    }
  }

  /** After one exact sleep the clock has reached the newest row, and from there a wait is exact. */
  lemma NextAttempt(rows: seq<real>, blockedUntil: real, p: Policy, now: real)
    requires Sensible(p) && Spaced(rows, p) && Decide(rows, blockedUntil, p, now).Refused?
    ensures var later := now + Decide(rows, blockedUntil, p, now).wait;
            && later > now && NotBehind(rows, later)
            && (NotBehind(rows, now) ==> Decide(rows, blockedUntil, p, later).Granted?)
  {
    hide Decide, Recent;
    RefusedFacts(rows, blockedUntil, p, now);
    NewestIsRecent(rows, p, now);
    if NotBehind(rows, now) { ExactWhenClockIsNotBehind(rows, blockedUntil, p, now); }
  }

  ghost predicate WithinLimit(rows: seq<real>, p: Policy, from: real, closedLeft: bool) {
    CountIn(rows, from, from + p.window, closedLeft) <= p.maxRequests
  }

  /** The readings at which reservations are granted when they are asked for in this order. */
  function Grants(rows: seq<real>, blockedUntil: real, p: Policy, readings: seq<real>): seq<real> {
    if readings == [] then []
    else
      var earlier, now := Grants(rows, blockedUntil, p, readings[..|readings| - 1]), readings[|readings| - 1];
      if Decide(rows + earlier, blockedUntil, p, now).Granted? then earlier + [now] else earlier
  }

  /** Any number of callers under one policy, at any clock readings and in any order: the grants are
      spaced, and no half-open window holds more than the policy allows. */
  method Interleaved(limiter: DurableRateLimiter, key: Key, policy: Policy,
                     readings: seq<real>) returns (granted: seq<real>)
    requires Sensible(policy) && Spaced(limiter.Rows(key), policy)
    modifies limiter`reservations
    ensures granted == Grants(old(limiter.Rows(key)), limiter.BlockedUntil(key), policy, readings)
    ensures limiter.Rows(key) == old(limiter.Rows(key)) + granted && Spaced(limiter.Rows(key), policy)
    ensures forall from, closed :: WithinLimit(limiter.Rows(key), policy, from, closed)
  {
    hide Decide, Spaced;
    granted := [];
    for i := 0 to |readings|
      invariant granted == Grants(old(limiter.Rows(key)), limiter.BlockedUntil(key), policy, readings[..i])
      invariant limiter.Rows(key) == old(limiter.Rows(key)) + granted && Spaced(limiter.Rows(key), policy)
    {
      assert readings[..i + 1][..i] == readings[..i];
      var r := limiter.Reserve(key, policy, readings[i]);
      if r.Granted? { granted := granted + [readings[i]]; }
    }
    assert readings[..|readings|] == readings;
    forall from, closed ensures WithinLimit(limiter.Rows(key), policy, from, closed)
    {
      WindowBound(limiter.Rows(key), policy, from, closed);
    }
  }

  // ---------------------------------------------------------------- blocks

  datatype Request =
    | Reserves(key: Key, policy: Policy, now: real)
    | Blocks(key: Key, now: real, seconds: real)

  function End(r: Request): real
    requires r.Blocks?
  {
    r.now + Max(0.0, r.seconds)
  }

  function BlocksNext(blocks: map<Key, real>, r: Request): map<Key, real> {
    if r.Reserves? then blocks
    else blocks[r.key := if r.key in blocks then Max(blocks[r.key], End(r)) else End(r)]
  }

  /** The table of blocks after these requests. */
  function BlocksAfter(blocks: map<Key, real>, requests: seq<Request>): map<Key, real> {
    if requests == [] then blocks
    else BlocksNext(BlocksAfter(blocks, requests[..|requests| - 1]), requests[|requests| - 1])
  }

  predicate IsBlock(r: Request, key: Key) {
    r.Blocks? && r.key == key
  }

  /** Neither an older block of the key nor one of these requests reaches beyond `now`; without any block
      the limiter compares with the start of the epoch. */
  predicate Open(blocks: map<Key, real>, requests: seq<Request>, key: Key, now: real) {
    && (key in blocks ==> blocks[key] <= now)
    && (forall i :: 0 <= i < |requests| && IsBlock(requests[i], key) ==> End(requests[i]) <= now)
    && (0.0 <= now || key in blocks || exists i :: 0 <= i < |requests| && IsBlock(requests[i], key))
  }

  /** The table holds the latest end of all blocks of a key. */
  lemma {:induction false} LatestEnd(blocks: map<Key, real>, requests: seq<Request>, key: Key)
    ensures var after := BlocksAfter(blocks, requests);
            && (key in after <==> key in blocks || exists i :: 0 <= i < |requests| && IsBlock(requests[i], key))
            && (key in blocks ==> blocks[key] <= after[key])
            && (forall i :: 0 <= i < |requests| && IsBlock(requests[i], key) ==> End(requests[i]) <= after[key])
            && (key in after && !(key in blocks && after[key] == blocks[key]) ==>
                 exists i :: 0 <= i < |requests| && IsBlock(requests[i], key) && after[key] == End(requests[i]))
  {
    if requests != [] {
      var n := |requests| - 1;
      var rest := requests[..n];
      LatestEnd(blocks, rest, key);
      assert forall i :: 0 <= i < n ==> rest[i] == requests[i];
    }
  }

  predicate Free(blocks: map<Key, real>, key: Key, now: real) {
    if key in blocks then blocks[key] <= now else 0.0 <= now
  }

  lemma OpenExactly(blocks: map<Key, real>, requests: seq<Request>, key: Key, now: real)
    ensures Free(BlocksAfter(blocks, requests), key, now) <==> Open(blocks, requests, key, now)
  {
    hide BlocksAfter;
    LatestEnd(blocks, requests, key);
  }

  function GrantOf(r: Request, a: Option<Reservation>, key: Key): seq<real> {
    if r.Reserves? && r.key == key && a.Some? && a.value.Granted? then [r.now] else []
  }

  /** The readings of the key's grants among these answers. */
  function GrantsOf(requests: seq<Request>, answers: seq<Option<Reservation>>, key: Key): seq<real>
    requires |requests| == |answers|
  {
    if requests == [] then []
    else
      var n := |requests| - 1;
      GrantsOf(requests[..n], answers[..n], key) + GrantOf(requests[n], answers[n], key)
  }

  function RowsOf(reservations: map<Key, seq<real>>, key: Key): seq<real> {
    if key in reservations then reservations[key] else []
  }

  /** Answer j is what the requests before it call for. */
  ghost predicate Answered(rows: map<Key, seq<real>>, blocks: map<Key, real>, requests: seq<Request>,
                           answers: seq<Option<Reservation>>, j: nat)
    requires j < |answers| <= |requests|
  {
    match requests[j]
    case Blocks(_, _, _) => answers[j].None?
    case Reserves(key, policy, now) =>
      && answers[j].Some?
      && (!Open(blocks, requests[..j], key, now) ==> !answers[j].value.Granted?)
      && (answers[j].value.Refused? ==>
           forall i :: 0 <= i < j && IsBlock(requests[i], key) ==> End(requests[i]) <= now + answers[j].value.wait)
      && (Sensible(policy) ==> !answers[j].value.Crashed?)
      && (Sensible(policy) ==>
           (answers[j].value.Granted? <==>
             && Open(blocks, requests[..j], key, now)
             && HasRoom(RowsOf(rows, key) + GrantsOf(requests[..j], answers[..j], key), policy, now)))
  }

  /** The same for one answer, in terms of the tables that the request met. */
  ghost predicate Fits(rows: seq<real>, blocks: map<Key, real>, r: Request, a: Option<Reservation>) {
    match r
    case Blocks(_, _, _) => a.None?
    case Reserves(key, policy, now) =>
      && a.Some?
      && (!Free(blocks, key, now) ==> !a.value.Granted?)
      && (a.value.Refused? && key in blocks ==> blocks[key] <= now + a.value.wait)
      && (Sensible(policy) ==>
           !a.value.Crashed? && (a.value.Granted? <==> Free(blocks, key, now) && HasRoom(rows, policy, now)))
  }

  lemma FitsAnswers(rows: map<Key, seq<real>>, blocks: map<Key, real>, requests: seq<Request>,
                    answers: seq<Option<Reservation>>, a: Option<Reservation>)
    requires |answers| < |requests|
    requires var n, r := |answers|, requests[|answers|];
             Fits(RowsOf(rows, r.key) + GrantsOf(requests[..n], answers, r.key),
                  BlocksAfter(blocks, requests[..n]), r, a)
    ensures Answered(rows, blocks, requests, answers + [a], |answers|)
  {
    hide BlocksAfter, HasRoom, Open, Free, GrantsOf, Sensible;
    var n, r := |answers|, requests[|answers|];
    assert (answers + [a])[..n] == answers;
    if r.Reserves? { OpenExactly(blocks, requests[..n], r.key, r.now); }
    LatestEnd(blocks, requests[..n], r.key);
  }

  lemma AnsweredStays(rows: map<Key, seq<real>>, blocks: map<Key, real>, requests: seq<Request>,
                      answers: seq<Option<Reservation>>, a: Option<Reservation>, j: nat)
    requires j < |answers| < |requests| && Answered(rows, blocks, requests, answers, j)
    ensures Answered(rows, blocks, requests, answers + [a], j)
  {
    hide HasRoom, Open, GrantsOf, Sensible;
    assert (answers + [a])[..j] == answers[..j];
  }

  method ServeOne(limiter: DurableRateLimiter, r: Request) returns (a: Option<Reservation>)
    modifies limiter
    ensures limiter.blocks == BlocksNext(old(limiter.blocks), r)
    ensures forall key :: limiter.Rows(key) == old(limiter.Rows(key)) + GrantOf(r, a, key)
    ensures Fits(old(limiter.Rows(r.key)), old(limiter.blocks), r, a)
  {
    hide Decide, HasRoom, Spaced, Sensible;
    match r {
      case Reserves(key, policy, now) =>
        var answer := limiter.Reserve(key, policy, now);
        a := Some(answer);
        assert Sensible(policy) ==> policy.maxRequests >= 1 by { SensibleAllowsOne(policy); }
      case Blocks(key, now, seconds) =>
        limiter.Block(key, now, seconds);
        a := None;
        BlocksEqual(limiter.blocks, BlocksNext(old(limiter.blocks), r), key);
    }
  }

  lemma SensibleAllowsOne(p: Policy)
    ensures Sensible(p) ==> p.maxRequests >= 1
  {
  }

  lemma BlocksEqual(a: map<Key, real>, b: map<Key, real>, key: Key)
    requires key in a && key in b && a[key] == b[key] && a - {key} == b - {key}
    ensures a == b
  {
    forall k | k in a ensures k in b && a[k] == b[k] { if k != key { assert k in a - {key}; } }
    forall k | k in b ensures k in a { if k != key { assert k in b - {key}; } }
  }

  /** Reservations and blocks of any keys under any policies in any order: a reservation is granted exactly
      when no earlier block of its key lasts beyond it and the key's rows leave room, and a refusal's wait
      reaches beyond every earlier block. */
  method Serve(limiter: DurableRateLimiter, requests: seq<Request>) returns (answers: seq<Option<Reservation>>)
    modifies limiter
    ensures |answers| == |requests|
    ensures forall j :: 0 <= j < |requests| ==>
              Answered(old(limiter.reservations), old(limiter.blocks), requests, answers, j)
    ensures forall key :: limiter.Rows(key) == old(limiter.Rows(key)) + GrantsOf(requests, answers, key)
    ensures limiter.blocks == BlocksAfter(old(limiter.blocks), requests)
  {
    hide Answered, Fits, GrantOf, BlocksNext, RowsOf;
    answers := [];
    for n := 0 to |requests|
      invariant |answers| == n
      invariant limiter.blocks == BlocksAfter(old(limiter.blocks), requests[..n])
      invariant forall key :: limiter.Rows(key) == old(limiter.Rows(key)) + GrantsOf(requests[..n], answers, key)
      invariant forall j :: 0 <= j < n ==>
                  Answered(old(limiter.reservations), old(limiter.blocks), requests, answers, j)
    {
      ghost var before := answers;
      assert requests[..n + 1][..n] == requests[..n];
      var a := ServeOne(limiter, requests[n]);
      answers := answers + [a];
      assert answers[..n] == before;
      FitsAnswers(old(limiter.reservations), old(limiter.blocks), requests, before, a);
      forall j | 0 <= j < n ensures Answered(old(limiter.reservations), old(limiter.blocks), requests, answers, j) {
        AnsweredStays(old(limiter.reservations), old(limiter.blocks), requests, before, a, j);
      }
    }
    assert requests[..|requests|] == requests;
  }
}
