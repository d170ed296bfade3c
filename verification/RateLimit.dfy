/** The fixed-window rate limiter of public uploads (checkRateLimit). */
module RateLimit {
  import opened Basics

  datatype Window = Window(start: int, count: nat)
  datatype Call = Call(key: string, now: int)

  /** What the upsert makes of a key's row. */
  function Hit(row: Option<Window>, now: int, windowMs: nat): Window {
    if row.None? || row.value.start < now - windowMs then Window(now, 1)
    else Window(row.value.start, row.value.count + 1)
  }

  class RateLimits {
    var rows: map<string, Window>

    constructor ()
      ensures rows == map[]
    {
      rows := map[];
    }

    function Row(key: string): Option<Window>
      reads this
    {
      if key in rows then Some(rows[key]) else None
    }

    /** The first statement: count the call in its window, or start a new one. */
    method Upsert(key: string, windowMs: nat, now: int)
      modifies this
      ensures rows == old(rows)[key := Hit(old(Row(key)), now, windowMs)]
    {
      var windowStart := now - windowMs;
      if key !in rows {
        rows := rows[key := Window(now, 1)];
      } else {
        var row := rows[key];
        rows := rows[key := Window(if row.start < windowStart then now else row.start,
                                   if row.start < windowStart then 1 else row.count + 1)];
      }
    }

    /** The second statement: read the count back. */
    method ReadBack(key: string, limit: nat) returns (granted: bool)
      ensures granted <==> Row(key).Some? && Row(key).value.count <= limit
    {
      granted := key in rows && rows[key].count <= limit;
    }

    /** Both statements, with no other call of the key in between. */
    method CheckRateLimit(key: string, limit: nat, windowMs: nat, now: int) returns (granted: bool)
      modifies this
      ensures rows == old(rows)[key := Hit(old(Row(key)), now, windowMs)]
      ensures granted <==> rows[key].count <= limit
    {
      Upsert(key, windowMs, now);
      granted := ReadBack(key, limit);
    }
  }

  // ---------- sequences of calls, any keys interleaved

  /** The row of a key after the first n calls. */
  function RowAfter(calls: seq<Call>, n: nat, key: string, windowMs: nat): Option<Window>
    requires n <= |calls|
  {
    if n == 0 then None
    else
      var before := RowAfter(calls, n - 1, key, windowMs);
      if calls[n - 1].key == key then Some(Hit(before, calls[n - 1].now, windowMs)) else before
  }

  /** The window in which call i was counted. */
  function WindowOf(calls: seq<Call>, i: nat, windowMs: nat): Window
    requires i < |calls|
  {
    Hit(RowAfter(calls, i, calls[i].key, windowMs), calls[i].now, windowMs)
  }

  predicate Granted(calls: seq<Call>, i: nat, limit: nat, windowMs: nat)
    requires i < |calls|
  {
    WindowOf(calls, i, windowMs).count <= limit
  }

  /** Making the calls one after another, each with its key's limit, answers exactly as Granted says, whatever other keys
      do in between. */
  method RunCalls(table: RateLimits, calls: seq<Call>, limit: string -> nat, windowMs: nat) returns (answers: seq<bool>)
    requires table.rows == map[]
    modifies table
    ensures |answers| == |calls|
    ensures forall i :: 0 <= i < |calls| ==> answers[i] == Granted(calls, i, limit(calls[i].key), windowMs)
  {
    answers := [];
    for n := 0 to |calls|
      invariant |answers| == n
      invariant forall i :: 0 <= i < n ==> answers[i] == Granted(calls, i, limit(calls[i].key), windowMs)
      invariant forall key :: table.Row(key) == RowAfter(calls, n, key, windowMs)
    {
      var granted := table.CheckRateLimit(calls[n].key, limit(calls[n].key), windowMs, calls[n].now);
      answers := answers + [granted];
    }
  }

  ghost predicate Ordered(calls: seq<Call>) {
    forall i, j :: 0 <= i < j < |calls| ==> calls[i].now <= calls[j].now
  }

  /** Grants of a key, among the first n calls, counted in the window that starts at s. */
  function GrantsInWindow(calls: seq<Call>, n: nat, key: string, s: int, limit: nat, windowMs: nat): nat
    requires n <= |calls|
  {
    if n == 0 then 0
    else
      GrantsInWindow(calls, n - 1, key, s, limit, windowMs) +
      if calls[n - 1].key == key && WindowOf(calls, n - 1, windowMs).start == s && Granted(calls, n - 1, limit, windowMs)
      then 1 else 0
  }

  /** Grants of a key, among the first n calls, at times in [a, b]. */
  function GrantsBetween(calls: seq<Call>, n: nat, key: string, a: int, b: int, limit: nat, windowMs: nat): nat
    requires n <= |calls|
  {
    if n == 0 then 0
    else
      GrantsBetween(calls, n - 1, key, a, b, limit, windowMs) +
      if calls[n - 1].key == key && a <= calls[n - 1].now <= b && Granted(calls, n - 1, limit, windowMs) then 1 else 0
  }

  /** The current window has granted the first `limit` of its calls and no more; later ones nothing yet. */
  lemma {:induction false} WindowGrants(calls: seq<Call>, n: nat, key: string, s: int, limit: nat, windowMs: nat)
    requires Ordered(calls) && n <= |calls|
    ensures var row := RowAfter(calls, n, key, windowMs);
            var grants := GrantsInWindow(calls, n, key, s, limit, windowMs);
            if row.None? || s > row.value.start then grants == 0
            else if s == row.value.start then grants == Min(limit, row.value.count)
            else grants <= limit
  {
    if n > 0 {
      WindowGrants(calls, n - 1, key, s, limit, windowMs);
    }
  }

  /** Each window grants at most `limit` calls of its key. */
  lemma WindowBound(calls: seq<Call>, key: string, s: int, limit: nat, windowMs: nat)
    requires Ordered(calls)
    ensures GrantsInWindow(calls, |calls|, key, s, limit, windowMs) <= limit
  {
    WindowGrants(calls, |calls|, key, s, limit, windowMs);
  }

  lemma {:induction false} StartNotLate(calls: seq<Call>, n: nat, key: string, windowMs: nat)
    requires Ordered(calls) && n <= |calls|
    ensures var row := RowAfter(calls, n, key, windowMs);
            row.Some? ==> n > 0 && row.value.start <= calls[n - 1].now && row.value.count >= 1
  {
    if n > 0 {
      StartNotLate(calls, n - 1, key, windowMs);
    }
  }

  /** Every earlier call of the key came no later than its current window's end. */
  lemma {:induction false} RowInDate(calls: seq<Call>, n: nat, key: string, windowMs: nat, i: nat)
    requires Ordered(calls) && i < n <= |calls| && calls[i].key == key
    ensures var row := RowAfter(calls, n, key, windowMs);
            row.Some? && calls[i].now <= row.value.start + windowMs
  {
    if i < n - 1 {
      RowInDate(calls, n - 1, key, windowMs, i);
    }
  }

  lemma {:induction false} NoGrantsBefore(calls: seq<Call>, n: nat, key: string, a: int, b: int, limit: nat, windowMs: nat)
    requires n <= |calls|
    requires forall i :: 0 <= i < n && calls[i].key == key ==> calls[i].now < a
    ensures GrantsBetween(calls, n, key, a, b, limit, windowMs) == 0
  {
    if n > 0 {
      NoGrantsBefore(calls, n - 1, key, a, b, limit, windowMs);
    }
  }

  /** The first call of a window is granted at its start, so a window that began before a has one grant less
      to give from a on. */
  lemma {:induction false} BetweenGrants(calls: seq<Call>, n: nat, key: string, a: int, limit: nat, windowMs: nat)
    requires Ordered(calls) && n <= |calls| && limit >= 1
    ensures var row := RowAfter(calls, n, key, windowMs);
            var grants := GrantsBetween(calls, n, key, a, a + windowMs, limit, windowMs);
            if row.None? then grants == 0
            else if row.value.start < a then grants <= Min(limit, row.value.count) - 1
            else if row.value.start == a then grants <= Min(limit, row.value.count)
            else if row.value.start <= a + windowMs then grants <= limit - 1 + Min(limit, row.value.count)
            else grants <= 2 * limit - 1
  {
    if n > 0 {
      BetweenGrants(calls, n - 1, key, a, limit, windowMs);
      StartNotLate(calls, n - 1, key, windowMs);
      if calls[n - 1].key == key {
        var before := RowAfter(calls, n - 1, key, windowMs);
        var now := calls[n - 1].now;
        assert before.Some? ==> before.value.start <= now;
        if before.Some? && before.value.start < now - windowMs && now <= a {
          forall i | 0 <= i < n - 1 && calls[i].key == key
            ensures calls[i].now < a
          {
            RowInDate(calls, n - 1, key, windowMs, i);
          }
          NoGrantsBefore(calls, n - 1, key, a, a + windowMs, limit, windowMs);
        }
      }
    }
  }

  /** Any closed interval of one window's length contains fewer than twice `limit` grants. */
  lemma IntervalBound(calls: seq<Call>, key: string, a: int, limit: nat, windowMs: nat)
    requires Ordered(calls) && limit >= 1
    ensures GrantsBetween(calls, |calls|, key, a, a + windowMs, limit, windowMs) <= 2 * limit - 1
  {
    BetweenGrants(calls, |calls|, key, a, limit, windowMs);
  }

  /** The bound is reached: limit 2, windows of 10, three grants between 10 and 20. */
  lemma IntervalBoundIsReached()
    ensures GrantsBetween([Call("k", 0), Call("k", 10), Call("k", 11), Call("k", 12)], 4, "k", 10, 20, 2, 10) == 2 * 2 - 1
  {
    var calls := [Call("k", 0), Call("k", 10), Call("k", 11), Call("k", 12)];
    assert RowAfter(calls, 0, "k", 10) == None;
    assert RowAfter(calls, 1, "k", 10) == Some(Window(0, 1));
    assert RowAfter(calls, 2, "k", 10) == Some(Window(0, 2));
    assert RowAfter(calls, 3, "k", 10) == Some(Window(11, 1));
    assert GrantsBetween(calls, 1, "k", 10, 20, 2, 10) == 0;
    assert GrantsBetween(calls, 2, "k", 10, 20, 2, 10) == 1;
    assert GrantsBetween(calls, 3, "k", 10, 20, 2, 10) == 2;
  }

  /** However many calls were refused, they neither move the window nor delay the next one: a call later than
      its start plus windowMs is granted, and one within it keeps the start. */
  lemma LockoutEnds(calls: seq<Call>, i: nat, limit: nat, windowMs: nat)
    requires i < |calls| && limit >= 1
    requires RowAfter(calls, i, calls[i].key, windowMs).Some?
    ensures var start := RowAfter(calls, i, calls[i].key, windowMs).value.start;
            if calls[i].now > start + windowMs
            then Granted(calls, i, limit, windowMs) && WindowOf(calls, i, windowMs).start == calls[i].now
            else WindowOf(calls, i, windowMs).start == start
  {
  }

  // ---------- the two statements interleaved with those of other calls

  /** One statement of the database: the upsert of a call, or the read back of the call whose upsert was statement i. */
  datatype Statement = Write(call: Call) | Read(i: nat)

  predicate Writes(stmts: seq<Statement>, m: int, key: string) {
    0 <= m < |stmts| && stmts[m].Write? && stmts[m].call.key == key
  }

  /** The row of a key after the first n statements. */
  function RowBefore(stmts: seq<Statement>, n: nat, key: string, windowMs: nat): Option<Window>
    requires n <= |stmts|
  {
    if n == 0 then None
    else
      var before := RowBefore(stmts, n - 1, key, windowMs);
      if Writes(stmts, n - 1, key) then Some(Hit(before, stmts[n - 1].call.now, windowMs)) else before
  }

  /** The upsert at m starts a new window. */
  predicate Resets(stmts: seq<Statement>, m: nat, key: string, windowMs: nat)
    requires m < |stmts|
  {
    Writes(stmts, m, key) && Hit(RowBefore(stmts, m, key, windowMs), stmts[m].call.now, windowMs).count == 1
  }

  /** Upserts of a key from statement m up to n. */
  function WritesFrom(stmts: seq<Statement>, m: nat, n: nat, key: string): nat
    requires m <= n <= |stmts|
    decreases n - m
  {
    if m == n then 0 else WritesFrom(stmts, m, n - 1, key) + if Writes(stmts, n - 1, key) then 1 else 0
  }

  /** The count that the call at i sees when it reads back at k. */
  function CountSeen(stmts: seq<Statement>, k: nat, key: string, windowMs: nat): nat
    requires k <= |stmts|
  {
    match RowBefore(stmts, k, key, windowMs)
    case None => 0
    case Some(row) => row.count
  }

  /** Without a new window in between the count only grows, by one for each upsert of the key. */
  lemma {:induction false} CountGrows(stmts: seq<Statement>, i: nat, k: nat, key: string, windowMs: nat)
    requires i < k <= |stmts| && Writes(stmts, i, key)
    requires forall m :: i < m < k ==> !Resets(stmts, m, key, windowMs)
    ensures CountSeen(stmts, k, key, windowMs) == CountSeen(stmts, i + 1, key, windowMs) + WritesFrom(stmts, i + 1, k, key)
    ensures RowBefore(stmts, k, key, windowMs).Some?
    decreases k
  {
    if k > i + 1 {
      CountGrows(stmts, i, k - 1, key, windowMs);
      assert !Resets(stmts, k - 1, key, windowMs);
    }
  }

  /** The last statement from i on, before k, that starts a new window of the key. */
  lemma {:induction false} LastReset(stmts: seq<Statement>, i: nat, k: nat, key: string, windowMs: nat) returns (m: nat)
    requires i <= k <= |stmts| && exists n :: i <= n < k && Resets(stmts, n, key, windowMs)
    ensures i <= m < k && Resets(stmts, m, key, windowMs)
    ensures forall n :: m < n < k ==> !Resets(stmts, n, key, windowMs)
    decreases k
  {
    if Resets(stmts, k - 1, key, windowMs) {
      m := k - 1;
    } else {
      m := LastReset(stmts, i, k - 1, key, windowMs);
    }
  }

  lemma {:induction false} FewerFromLater(stmts: seq<Statement>, m: nat, n: nat, k: nat, key: string)
    requires m <= n <= k <= |stmts|
    ensures WritesFrom(stmts, n, k, key) <= WritesFrom(stmts, m, k, key)
    decreases k
  {
    if n < k {
      FewerFromLater(stmts, m, n, k - 1, key);
    }
  }

  lemma WindowHolds(stmts: seq<Statement>, m: nat, k: nat, key: string, windowMs: nat)
    requires m < k <= |stmts| && Resets(stmts, m, key, windowMs)
    requires forall n :: m < n < k ==> !Resets(stmts, n, key, windowMs)
    ensures CountSeen(stmts, k, key, windowMs) == WritesFrom(stmts, m, k, key)
  {
    CountGrows(stmts, m, k, key, windowMs);
    WritesSplit(stmts, m, k, key);
  }

  lemma {:induction false} WritesSplit(stmts: seq<Statement>, m: nat, k: nat, key: string)
    requires m < k <= |stmts| && Writes(stmts, m, key)
    ensures WritesFrom(stmts, m, k, key) == 1 + WritesFrom(stmts, m + 1, k, key)
    decreases k
  {
    if k > m + 1 {
      WritesSplit(stmts, m, k - 1, key);
    } else {
      assert WritesFrom(stmts, m, m, key) == 0;
    }
  }

  /** A call that its own upsert put beyond the limit is granted all the same if and only if, between its upsert and its
      read, another call of the key started a new window that has at most `limit` calls by the time of the read. */
  lemma GrantedBeyondLimit(stmts: seq<Statement>, i: nat, k: nat, key: string, limit: nat, windowMs: nat)
    requires i < k <= |stmts| && Writes(stmts, i, key)
    requires CountSeen(stmts, i + 1, key, windowMs) > limit
    ensures CountSeen(stmts, k, key, windowMs) <= limit <==>
            exists m :: i < m < k && Resets(stmts, m, key, windowMs) && WritesFrom(stmts, m, k, key) <= limit
  {
    if exists m :: i < m < k && Resets(stmts, m, key, windowMs) {
      var last := LastReset(stmts, i + 1, k, key, windowMs);
      WindowHolds(stmts, last, k, key, windowMs);
      forall m | i < m < k && Resets(stmts, m, key, windowMs)
        ensures WritesFrom(stmts, last, k, key) <= WritesFrom(stmts, m, k, key)
      {
        assert m <= last;
        FewerFromLater(stmts, m, last, k, key);
      }
    } else {
      CountGrows(stmts, i, k, key, windowMs);
    }
  }

  /** A call within the limit is granted when no other call of its key comes between its two statements. */
  lemma GrantedAlone(stmts: seq<Statement>, i: nat, k: nat, key: string, limit: nat, windowMs: nat)
    requires i < k <= |stmts| && Writes(stmts, i, key)
    requires forall m :: i < m < k ==> !Writes(stmts, m, key)
    ensures CountSeen(stmts, k, key, windowMs) <= limit <==> CountSeen(stmts, i + 1, key, windowMs) <= limit
  {
    assert forall m :: i < m < k ==> !Resets(stmts, m, key, windowMs);
    CountGrows(stmts, i, k, key, windowMs);
    NoWrites(stmts, i + 1, k, key);
  }

  lemma {:induction false} NoWrites(stmts: seq<Statement>, m: nat, k: nat, key: string)
    requires m <= k <= |stmts| && forall n :: m <= n < k ==> !Writes(stmts, n, key)
    ensures WritesFrom(stmts, m, k, key) == 0
    decreases k
  {
    if m < k {
      NoWrites(stmts, m, k - 1, key);
    }
  }

  /** So the limit of one window can be passed: limit 1, windows of 10; two calls at time 0, of which the second reads
      back only after a third, at time 11, has started a new window. All three are granted, two of them counted at 0. */
  lemma LimitPassedBetweenStatements()
    ensures var stmts := [Write(Call("k", 0)), Read(0), Write(Call("k", 0)), Write(Call("k", 11)), Read(2), Read(3)];
            && CountSeen(stmts, 1, "k", 10) <= 1
            && CountSeen(stmts, 3, "k", 10) == 2 && CountSeen(stmts, 4, "k", 10) <= 1 && CountSeen(stmts, 5, "k", 10) <= 1
  {
    var stmts := [Write(Call("k", 0)), Read(0), Write(Call("k", 0)), Write(Call("k", 11)), Read(2), Read(3)];
    assert RowBefore(stmts, 0, "k", 10) == None;
    assert RowBefore(stmts, 1, "k", 10) == Some(Window(0, 1));
    assert RowBefore(stmts, 2, "k", 10) == Some(Window(0, 1));
    assert RowBefore(stmts, 3, "k", 10) == Some(Window(0, 2));
    assert RowBefore(stmts, 4, "k", 10) == Some(Window(11, 1));
    assert RowBefore(stmts, 5, "k", 10) == Some(Window(11, 1));
  }
}
