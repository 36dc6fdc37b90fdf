/**
 * The admission limiter (`Limiter` and `acquire` in plugin/mirror/mirror.go):
 * a table from token to the cumulative amount admitted under it, a running
 * total, and a maximum. Counts only ever grow, so the maximum is a lifetime
 * quota per token. The mutex that serialises `acquire` is not modelled: each
 * call is one atomic step.
 */
module Admission {
  import opened Requests

  /** The count recorded for `token`; an absent key reads as 0, as a Go map does. */
  function Count(m: map<string, int>, token: string): int {
    if token in m then m[token] else 0
  }

  /** The sum of all counts in the table. */
  ghost function Sum(m: map<string, int>): int
    decreases |m|
  {
    if m == map[] then 0
    else
      var k :| k in m;
      m[k] + Sum(m - {k})
  }

  /** The limiter's mutable state: counts per token and the running total. */
  datatype Table = Table(connections: map<string, int>, total: int)

  /** The answer of `acquire`: admitted, or the "max connections reached" error. */
  datatype Decision = Admitted | LimitExceeded(max: int)

  /** One call of `acquire`. */
  datatype Call = Call(token: string, amount: int)

  /** The table a fresh limiter starts with. */
  const Empty: Table := Table(map[], 0)

  /** The running total agrees with the counts. */
  ghost predicate Balanced(t: Table) {
    t.total == Sum(t.connections)
  }

  /** Whether a token with count `current` may be admitted: the check reads the count before adding. */
  predicate Admits(max: int, current: int) {
    !(max > 0 && current >= max)
  }

  /** One atomic `acquire`: on admission the token's count and the total both grow by the amount. */
  function Step(t: Table, max: int, c: Call): (r: (Decision, Table))
    ensures r.0.LimitExceeded? <==> max > 0 && Count(t.connections, c.token) >= max
    ensures r.0.LimitExceeded? ==> r.0.max == max && r.1 == t
    ensures r.0.Admitted? ==> Count(r.1.connections, c.token) == Count(t.connections, c.token) + c.amount
    ensures r.0.Admitted? ==> r.1.total == t.total + c.amount
    ensures forall k :: k != c.token ==> Count(r.1.connections, k) == Count(t.connections, k)
  {
    var current := Count(t.connections, c.token);
    if !Admits(max, current) then (LimitExceeded(max), t)
    else (Admitted, Table(t.connections[c.token := current + c.amount], t.total + c.amount))
  }

  /** A serial history of `acquire` calls against one limiter: one decision per call, and the final table. */
  function Run(t: Table, max: int, calls: seq<Call>): (r: (seq<Decision>, Table))
    ensures |r.0| == |calls|
    decreases |calls|
  {
    if calls == [] then ([], t)
    else
      var (d, t') := Step(t, max, calls[0]);
      var (ds, t'') := Run(t', max, calls[1..]);
      ([d] + ds, t'')
  }

  /** The amounts of a list of calls, added up. */
  function TotalAmount(calls: seq<Call>): int
    decreases |calls|
  {
    if calls == [] then 0 else calls[0].amount + TotalAmount(calls[1..])
  }

  predicate NonNegativeAmounts(calls: seq<Call>) {
    forall i :: 0 <= i < |calls| ==> calls[i].amount >= 0
  }

  lemma {:induction false} SumRemove(m: map<string, int>, k: string)
    requires k in m
    ensures Sum(m) == m[k] + Sum(m - {k})
    decreases |m|
  {
    var j :| j in m && Sum(m) == m[j] + Sum(m - {j});
    if j != k {
      var mj, mk := m - {j}, m - {k};
      assert k in mj && j in mk;
      SumRemove(mj, k);
      SumRemove(mk, j);
      assert mj - {k} == mk - {j};
    }
  }

  /** Storing `v` under `token` changes the sum by the difference to the old count. */
  lemma SumUpdate(m: map<string, int>, token: string, v: int)
    ensures Sum(m[token := v]) == Sum(m) - Count(m, token) + v
  {
    var m' := m[token := v];
    SumRemove(m', token);
    if token in m {
      SumRemove(m, token);
      assert m' - {token} == m - {token};
    } else {
      assert m' - {token} == m;
    }
  }

  /** An admitted call keeps the total equal to the sum of the counts. */
  lemma StepKeepsBalance(t: Table, max: int, c: Call)
    requires Balanced(t)
    ensures Balanced(Step(t, max, c).1)
  {
    SumUpdate(t.connections, c.token, Count(t.connections, c.token) + c.amount);
  }

  /** Starting from a balanced table (a fresh one is), any history keeps it balanced. */
  lemma {:induction false} RunKeepsBalance(t: Table, max: int, calls: seq<Call>)
    requires Balanced(t)
    ensures Balanced(Run(t, max, calls).1)
    decreases |calls|
  {
    if calls != [] {
      StepKeepsBalance(t, max, calls[0]);
      RunKeepsBalance(Step(t, max, calls[0]).1, max, calls[1..]);
    }
  }

  lemma EmptyIsBalanced()
    ensures Balanced(Empty)
  {
  }

  /** With non-negative amounts no count ever decreases: nothing decrements them. */
  lemma {:induction false} RunCountsNeverDecrease(t: Table, max: int, calls: seq<Call>, token: string)
    requires NonNegativeAmounts(calls)
    ensures Count(Run(t, max, calls).1.connections, token) >= Count(t.connections, token)
    decreases |calls|
  {
    if calls != [] {
      var t' := Step(t, max, calls[0]).1;
      assert Count(t'.connections, token) >= Count(t.connections, token);
      RunCountsNeverDecrease(t', max, calls[1..], token);
    }
  }

  /**
   * With a positive maximum and amounts at most `cap`, a count never exceeds
   * `max - 1 + cap`: a call is admitted only below the maximum, and then adds
   * at most `cap`.
   */
  lemma {:induction false} RunCountBounded(t: Table, max: int, calls: seq<Call>, cap: int)
    requires max > 0
    requires forall i :: 0 <= i < |calls| ==> 0 <= calls[i].amount <= cap
    requires forall k :: k in t.connections ==> t.connections[k] <= max - 1 + cap
    ensures forall k :: k in Run(t, max, calls).1.connections ==> Run(t, max, calls).1.connections[k] <= max - 1 + cap
    decreases |calls|
  {
    if calls != [] {
      var t' := Step(t, max, calls[0]).1;
      assert forall k :: k in t'.connections ==> t'.connections[k] <= max - 1 + cap;
      RunCountBounded(t', max, calls[1..], cap);
    }
  }

  /**
   * Once a token has reached a positive maximum, every later call for it is
   * denied: a denial changes nothing, and calls for other tokens leave its
   * count alone, whatever their amounts.
   */
  lemma {:induction false} RunDenialIsPermanent(t: Table, max: int, calls: seq<Call>, token: string)
    requires max > 0 && Count(t.connections, token) >= max
    ensures forall i :: 0 <= i < |calls| && calls[i].token == token ==> Run(t, max, calls).0[i] == LimitExceeded(max)
    decreases |calls|
  {
    if calls != [] {
      var t' := Step(t, max, calls[0]).1;
      assert Count(t'.connections, token) == Count(t.connections, token);
      RunDenialIsPermanent(t', max, calls[1..], token);
      var ds := Run(t, max, calls).0;
      assert ds[1..] == Run(t', max, calls[1..]).0;
      forall i | 0 <= i < |calls| && calls[i].token == token
        ensures ds[i] == LimitExceeded(max)
      {
        if i > 0 {
          assert calls[1..][i - 1] == calls[i];
        }
      }
    }
  }

  /** Without a positive maximum every call is admitted and the total grows by every amount. */
  lemma {:induction false} RunUnlimitedAdmitsAll(t: Table, max: int, calls: seq<Call>)
    requires max <= 0
    ensures forall i :: 0 <= i < |calls| ==> Run(t, max, calls).0[i] == Admitted
    ensures Run(t, max, calls).1.total == t.total + TotalAmount(calls)
    decreases |calls|
  {
    if calls != [] {
      var t' := Step(t, max, calls[0]).1;
      RunUnlimitedAdmitsAll(t', max, calls[1..]);
      var ds := Run(t, max, calls).0;
      assert ds[1..] == Run(t', max, calls[1..]).0;
      forall i | 0 <= i < |calls| ensures ds[i] == Admitted {
        if i > 0 {
          assert ds[i] == ds[1..][i - 1];
        }
      }
    }
  }

  /** A limit of one with unit amounts admits the first request for a token and denies the second. */
  lemma QuotaOfOne(token: string)
    ensures Run(Empty, 1, [Call(token, 1), Call(token, 1)]).0 == [Admitted, LimitExceeded(1)]
  {
  }

  /** The maximum is compared before adding: a fresh token is admitted even when its amount overshoots. */
  lemma FirstCallMayOvershoot(token: string, max: int, amount: int)
    requires max > 0 && amount > max
    ensures Step(Empty, max, Call(token, amount)) == (Admitted, Table(map[token := amount], amount))
    ensures Count(Step(Empty, max, Call(token, amount)).1.connections, token) > max
  {
  }

  /**
   * The limiter of one handler. The extractor is chosen when the handler is
   * built and never changes; the table is updated in place by `Acquire`.
   */
  class Limiter {
    const extract: Request -> Extraction
    const maxConnections: int
    var connections: map<string, int>
    var totalConnections: int

    ghost predicate Valid()
      reads this
    {
      Balanced(State())
    }

    function State(): Table
      reads this
    {
      Table(connections, totalConnections)
    }

    constructor (extract: Request -> Extraction, maxConnections: int)
      ensures Valid()
      ensures this.extract == extract && this.maxConnections == maxConnections
      ensures connections == map[] && totalConnections == 0
    {
      this.extract := extract;
      this.maxConnections := maxConnections;
      connections := map[];
      totalConnections := 0;
    }

    /** `acquire`: deny without touching the table when the token is at the maximum, else add `amount`. */
    method Acquire(token: string, amount: int) returns (d: Decision)
      requires Valid()
      modifies this
      ensures Valid()
      ensures (d, State()) == Step(old(State()), maxConnections, Call(token, amount))
      ensures d.LimitExceeded? <==> maxConnections > 0 && Count(old(connections), token) >= maxConnections
      ensures d.LimitExceeded? ==> d.max == maxConnections && unchanged(this)
      ensures d.Admitted? ==>
        && connections == old(connections)[token := Count(old(connections), token) + amount]
        && totalConnections == old(totalConnections) + amount
    {
      var current := if token in connections then connections[token] else 0;
      if maxConnections > 0 {
        if current >= maxConnections {
          return LimitExceeded(maxConnections);
        }
      }
      StepKeepsBalance(State(), maxConnections, Call(token, amount));
      connections := connections[token := current + amount];
      totalConnections := totalConnections + amount;
      d := Admitted;
    }
  }
}
