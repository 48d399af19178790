/** `check_rate_limit`: at most `limit` requests of a subject in any `window` seconds. */
module RateLimit {

  datatype Key = Key(bucket: string, subject: string)
  datatype Row = Row(key: Key, ts: int)
  datatype Policy = Policy(limit: int, window: int)
  datatype Call = Call(key: Key, now: int)

  /** Rows of `key` later than `low` and not later than `high`. */
  function Between(rows: seq<Row>, key: Key, low: int, high: int): nat {
    if rows == [] then 0
    else
      var last := rows[|rows| - 1];
      Between(rows[..|rows| - 1], key, low, high) + if last.key == key && low < last.ts <= high then 1 else 0
  }

  /** Rows of `key` later than `low`. */
  function Later(rows: seq<Row>, key: Key, low: int): nat {
    if rows == [] then 0
    else
      var last := rows[|rows| - 1];
      Later(rows[..|rows| - 1], key, low) + if last.key == key && low < last.ts then 1 else 0
  }

  function WithoutExpired(rows: seq<Row>, key: Key, cutoff: int): seq<Row> {
    if rows == [] then []
    else
      var last := rows[|rows| - 1];
      var rest := WithoutExpired(rows[..|rows| - 1], key, cutoff);
      if last.key == key && last.ts <= cutoff then rest else rest + [last]
  }

  class AuthStore {
    var limits: seq<Row>

    constructor ()
      ensures limits == []
    {
      limits := [];
    }

    /** `ok` is false where the source raises; the connection then closes without a commit, so
        the deletion is undone with it. */
    method CheckRateLimit(key: Key, policy: Policy, now: int) returns (ok: bool)
      modifies this
      ensures ok <==> Later(old(limits), key, now - policy.window) < policy.limit
      ensures !ok ==> limits == old(limits)
      ensures ok ==> limits == WithoutExpired(old(limits), key, now - policy.window) + [Row(key, now)]
      ensures ok && policy.window > 0 ==> forall r :: r in limits && r.key == key ==> now - policy.window < r.ts
      ensures forall r :: r in old(limits) && (r.key != key || now - policy.window < r.ts) ==> r in limits
    {
      var cutoff := now - policy.window;
      var begin := limits;
      limits := WithoutExpired(limits, key, cutoff);
      ExpiredAreNotLater(begin, key, cutoff, key, cutoff);
      ExpiredGo(begin, key, cutoff);
      var count := Later(limits, key, cutoff);
      if count >= policy.limit {
        limits := begin;
        return false;
      }
      limits := limits + [Row(key, now)];
      return true;
    }
  }

  /** What goes is the key's own rows up to the cutoff, and nothing else. */
  lemma {:induction false} ExpiredGo(rows: seq<Row>, key: Key, cutoff: int)
    ensures forall r :: r in WithoutExpired(rows, key, cutoff) <==> r in rows && (r.key != key || cutoff < r.ts)
  {
    if rows != [] {
      ExpiredGo(rows[..|rows| - 1], key, cutoff);
      assert forall r :: r in rows <==> r in rows[..|rows| - 1] || r == rows[|rows| - 1];
    }
  }

  // ------------------------------------------------------------ histories

  /** `limits` are the rows of the table, `admitted` every request ever admitted, deleted or not. */
  datatype History = History(limits: seq<Row>, admitted: seq<Row>)

  predicate Admits(h: History, policies: string -> Policy, call: Call) {
    var policy := policies(call.key.bucket);
    Later(h.limits, call.key, call.now - policy.window) < policy.limit
  }

  function Play(h: History, policies: string -> Policy, call: Call): History {
    if Admits(h, policies, call)
    then History(WithoutExpired(h.limits, call.key, call.now - policies(call.key.bucket).window) + [Row(call.key, call.now)],
                 h.admitted + [Row(call.key, call.now)])
    else h
  }

  /** Any number of callers, buckets and subjects, one transaction after another. */
  function Played(calls: seq<Call>, policies: string -> Policy): History {
    if calls == [] then History([], [])
    else Play(Played(calls[..|calls| - 1], policies), policies, calls[|calls| - 1])
  }

  /** The clock never goes back. */
  predicate ClockOk(calls: seq<Call>) {
    forall i, j :: 0 <= i < j < |calls| ==> calls[i].now <= calls[j].now
  }

  lemma {:induction false} ExpiredAreNotLater(rows: seq<Row>, key: Key, cutoff: int, other: Key, low: int)
    requires other == key ==> cutoff <= low
    ensures Later(WithoutExpired(rows, key, cutoff), other, low) == Later(rows, other, low)
  {
    if rows != [] {
      var most, last := rows[..|rows| - 1], rows[|rows| - 1];
      ExpiredAreNotLater(most, key, cutoff, other, low);
      LaterAppend(WithoutExpired(most, key, cutoff), last, other, low);
    }
  }

  lemma LaterAppend(rows: seq<Row>, row: Row, key: Key, low: int)
    ensures Later(rows + [row], key, low) == Later(rows, key, low) + if row.key == key && low < row.ts then 1 else 0
  {
    assert (rows + [row])[..|rows|] == rows;
  }

  lemma BetweenAppend(rows: seq<Row>, row: Row, key: Key, low: int, high: int)
    ensures Between(rows + [row], key, low, high)
      == Between(rows, key, low, high) + if row.key == key && low < row.ts <= high then 1 else 0
  {
    assert (rows + [row])[..|rows|] == rows;
  }

  lemma {:induction false} NothingFromTheFuture(rows: seq<Row>, key: Key, low: int, lower: int, high: int)
    requires lower <= low && forall r :: r in rows ==> r.ts <= high
    ensures Between(rows, key, low, high) <= Later(rows, key, lower)
    ensures low == lower ==> Between(rows, key, low, high) == Later(rows, key, lower)
  {
    if rows != [] {
      assert rows[|rows| - 1] in rows;
      NothingFromTheFuture(rows[..|rows| - 1], key, low, lower, high);
    }
  }

  lemma {:induction false} LessOfAShorterWindow(rows: seq<Row>, key: Key, low: int, high: int, lower: int)
    requires lower <= low
    ensures Between(rows, key, low, high) <= Later(rows, key, lower)
  {
    if rows != [] {
      LessOfAShorterWindow(rows[..|rows| - 1], key, low, high, lower);
    }
  }

  lemma {:induction false} NothingAfterNow(calls: seq<Call>, policies: string -> Policy, now: int)
    requires forall i :: 0 <= i < |calls| ==> calls[i].now <= now
    ensures forall r :: r in Played(calls, policies).admitted ==> r.ts <= now
  {
    if calls != [] {
      NothingAfterNow(calls[..|calls| - 1], policies, now);
    }
  }

  lemma OneMore(h: History, row: Row, cutoff: int, key: Key, low: int)
    requires row.key == key ==> cutoff <= low
    requires Later(h.limits, key, low) == Later(h.admitted, key, low)
    ensures Later(WithoutExpired(h.limits, row.key, cutoff) + [row], key, low) == Later(h.admitted + [row], key, low)
  {
    ExpiredAreNotLater(h.limits, row.key, cutoff, key, low);
    LaterAppend(WithoutExpired(h.limits, row.key, cutoff), row, key, low);
    LaterAppend(h.admitted, row, key, low);
  }

  /** Of what lies in a window that ends at `now`, the table still holds everything. */
  lemma {:induction false} TableIsEnough(calls: seq<Call>, policies: string -> Policy, key: Key, now: int)
    requires forall i :: 0 <= i < |calls| ==> calls[i].now <= now
    ensures var h := Played(calls, policies);
      var low := now - policies(key.bucket).window;
      Later(h.limits, key, low) == Later(h.admitted, key, low)
  {
    if calls != [] {
      var n := |calls| - 1;
      var call := calls[n];
      TableIsEnough(calls[..n], policies, key, now);
      OneMore(Played(calls[..n], policies), Row(call.key, call.now),
        call.now - policies(call.key.bucket).window, key, now - policies(key.bucket).window);
    }
  }

  function Bound(policy: Policy): int {
    if policy.limit < 0 then 0 else policy.limit
  }

  lemma WindowStep(h: History, policies: string -> Policy, call: Call, key: Key, end: int)
    requires var policy := policies(key.bucket);
      && Between(h.admitted, key, end - policy.window, end) <= Bound(policy)
      && (call.key == key ==>
            Later(h.limits, key, call.now - policy.window) == Later(h.admitted, key, call.now - policy.window))
    ensures var policy := policies(key.bucket);
      Between(Play(h, policies, call).admitted, key, end - policy.window, end) <= Bound(policy)
  {
    var policy := policies(key.bucket);
    BetweenAppend(h.admitted, Row(call.key, call.now), key, end - policy.window, end);
    if call.key == key && call.now <= end {
      LessOfAShorterWindow(h.admitted, key, end - policy.window, end, call.now - policy.window);
    }
  }

  /** No window of that length, wherever it lies, holds more admitted requests than the limit. */
  lemma {:induction false} EveryWindowIsBounded(calls: seq<Call>, policies: string -> Policy, key: Key, end: int)
    requires ClockOk(calls)
    ensures var policy := policies(key.bucket);
      Between(Played(calls, policies).admitted, key, end - policy.window, end) <= Bound(policy)
  {
    if calls != [] {
      var rest, call := calls[..|calls| - 1], calls[|calls| - 1];
      EveryWindowIsBounded(rest, policies, key, end);
      TableIsEnough(rest, policies, key, call.now);
      WindowStep(Played(rest, policies), policies, call, key, end);
    }
  }

  lemma ClockBefore(calls: seq<Call>, call: Call)
    requires ClockOk(calls + [call])
    ensures forall i :: 0 <= i < |calls| ==> calls[i].now <= call.now
  {
    var all := calls + [call];
    forall i | 0 <= i < |calls|
      ensures calls[i].now <= call.now
    {
      assert all[i] == calls[i] && all[|calls|] == call;
    }
  }

  /** A request is refused exactly when the window that ends at it is full. */
  lemma RefusedIff(calls: seq<Call>, policies: string -> Policy, call: Call)
    requires ClockOk(calls + [call])
    ensures var policy := policies(call.key.bucket);
      var before := Between(Played(calls, policies).admitted, call.key, call.now - policy.window, call.now);
      Admits(Played(calls, policies), policies, call) <==> before < policy.limit
  {
    var low := call.now - policies(call.key.bucket).window;
    ClockBefore(calls, call);
    TableIsEnough(calls, policies, call.key, call.now);
    NothingAfterNow(calls, policies, call.now);
    NothingFromTheFuture(Played(calls, policies).admitted, call.key, low, low, call.now);
    var h := Played(calls, policies);
    assert Between(h.admitted, call.key, low, call.now) == Later(h.limits, call.key, low);
  }

  // ------------------------------------------------------------ why the clock matters

  lemma PlayedMore(calls: seq<Call>, policies: string -> Policy, call: Call)
    ensures Played(calls + [call], policies) == Play(Played(calls, policies), policies, call)
  {
    var all := calls + [call];
    assert all[..|all| - 1] == calls && all[|all| - 1] == call;
  }

  lemma WithoutExpiredAppend(rows: seq<Row>, row: Row, key: Key, cutoff: int)
    ensures WithoutExpired(rows + [row], key, cutoff)
      == WithoutExpired(rows, key, cutoff) + if row.key == key && row.ts <= cutoff then [] else [row]
  {
    assert (rows + [row])[..|rows|] == rows;
  }

  function TwoInTen(): string -> Policy {
    (b: string) => Policy(2, 10)
  }

  lemma TwoIn(key: Key)
    ensures var a, b := Row(key, 100), Row(key, 101);
      && Play(History([], []), TwoInTen(), Call(key, 100)) == History([] + [a], [] + [a])
      && Play(History([] + [a], [] + [a]), TwoInTen(), Call(key, 101)) == History([] + [a] + [b], [] + [a] + [b])
  {
    LaterAppend([], Row(key, 100), key, 91);
    WithoutExpiredAppend([], Row(key, 100), key, 91);
  }

  /** The third call deletes the first two rows. */
  lemma TwoOut(key: Key)
    ensures var a, b, c := Row(key, 100), Row(key, 101), Row(key, 120);
      Play(History([] + [a] + [b], [] + [a] + [b]), TwoInTen(), Call(key, 120)) == History([] + [c], [] + [a] + [b] + [c])
  {
    LaterAppend([], Row(key, 100), key, 110);
    LaterAppend([] + [Row(key, 100)], Row(key, 101), key, 110);
    WithoutExpiredAppend([], Row(key, 100), key, 110);
    WithoutExpiredAppend([] + [Row(key, 100)], Row(key, 101), key, 110);
  }

  /** With two requests allowed in ten, one at 120 deletes those at 100 and 101; a clock set back to
      105 then lets in a third of the window that ends there. */
  lemma ClockSetBackOverfills(key: Key)
    ensures var calls := [] + [Call(key, 100)] + [Call(key, 101)] + [Call(key, 120)] + [Call(key, 105)];
      Between(Played(calls, TwoInTen()).admitted, key, 95, 105) == 3
  {
    var a, b, c, d := Row(key, 100), Row(key, 101), Row(key, 120), Row(key, 105);
    PlayedMore([], TwoInTen(), Call(key, 100));
    PlayedMore([] + [Call(key, 100)], TwoInTen(), Call(key, 101));
    PlayedMore([] + [Call(key, 100)] + [Call(key, 101)], TwoInTen(), Call(key, 120));
    PlayedMore([] + [Call(key, 100)] + [Call(key, 101)] + [Call(key, 120)], TwoInTen(), Call(key, 105));
    TwoIn(key);
    TwoOut(key);
    LaterAppend([], c, key, 95);
    BetweenAppend([], a, key, 95, 105);
    BetweenAppend([] + [a], b, key, 95, 105);
    BetweenAppend([] + [a] + [b], c, key, 95, 105);
    BetweenAppend([] + [a] + [b] + [c], d, key, 95, 105);
  }
}
