/** Option and Result, for values the source leaves undefined and for its
    thrown errors. */
module Wrappers {
  datatype Option<T> = None | Some(value: T)

  datatype Result<T, E> = Ok(value: T) | Err(error: E)
}

/** The transaction record that the aggregators, the fee detector, the
    predictions and the exports read, and the sums they take over it.
    Amounts are the already-parsed numbers (`parseFloat(t.amount)`), dates
    are timestamps, and a missing description, merchant or category is the
    empty string. */
module Ledger {

  datatype Kind = Income | Expense | Transfer

  datatype Transaction = Transaction(
    id: string,
    amount: real,
    kind: Kind,
    date: int,
    description: string,
    merchantName: string,
    categoryId: string,
    isHiddenFee: bool)

  /** `ts.filter(p).reduce((sum, t) => sum + t.amount, 0)`. */
  function SumIf(ts: seq<Transaction>, p: Transaction -> bool): real
  {
    if ts == [] then 0.0
    else SumIf(ts[..|ts| - 1], p) + (if p(ts[|ts| - 1]) then ts[|ts| - 1].amount else 0.0)
  }

  /** The number of transactions that satisfy `p`. */
  function CountIf(ts: seq<Transaction>, p: Transaction -> bool): (n: nat)
    ensures n <= |ts|
  {
    if ts == [] then 0
    else CountIf(ts[..|ts| - 1], p) + (if p(ts[|ts| - 1]) then 1 else 0)
  }

  /** `ts.filter(p)`. */
  function Keep(ts: seq<Transaction>, p: Transaction -> bool): (r: seq<Transaction>)
    ensures |r| == CountIf(ts, p)
    ensures forall t :: t in r ==> t in ts && p(t)
  {
    if ts == [] then []
    else Keep(ts[..|ts| - 1], p) + (if p(ts[|ts| - 1]) then [ts[|ts| - 1]] else [])
  }

  predicate IsIncome(t: Transaction) { t.kind == Income }
  predicate IsExpense(t: Transaction) { t.kind == Expense }

  function TotalIncome(ts: seq<Transaction>): real { SumIf(ts, IsIncome) }
  function TotalExpenses(ts: seq<Transaction>): real { SumIf(ts, IsExpense) }

  predicate AllNonNegative(ts: seq<Transaction>) {
    forall i :: 0 <= i < |ts| ==> ts[i].amount >= 0.0
  }

  /** A sum over a concatenation is the sum of the two sums. */
  lemma {:induction false} SumIfAppend(a: seq<Transaction>, b: seq<Transaction>, p: Transaction -> bool)
    ensures SumIf(a + b, p) == SumIf(a, p) + SumIf(b, p)
    decreases |b|
  {
    if b == [] {
      assert a + b == a;
    } else {
      assert (a + b)[..|a + b| - 1] == a + b[..|b| - 1];
      SumIfAppend(a, b[..|b| - 1], p);
    }
  }

  /** Sums of non-negative amounts are non-negative. */
  lemma {:induction false} SumIfNonNegative(ts: seq<Transaction>, p: Transaction -> bool)
    requires AllNonNegative(ts)
    ensures SumIf(ts, p) >= 0.0
  {
    if ts != [] {
      SumIfNonNegative(ts[..|ts| - 1], p);
    }
  }

  /** Summing the filtered list is the sum under the combined condition `r`. */
  lemma {:induction false} SumOfKept(ts: seq<Transaction>, p: Transaction -> bool, q: Transaction -> bool, r: Transaction -> bool)
    requires forall i :: 0 <= i < |ts| ==> r(ts[i]) == (p(ts[i]) && q(ts[i]))
    ensures SumIf(Keep(ts, p), q) == SumIf(ts, r)
  {
    if ts != [] {
      var init, last := ts[..|ts| - 1], ts[|ts| - 1];
      SumOfKept(init, p, q, r);
      var tail := if p(last) then [last] else [];
      SumIfAppend(Keep(init, p), tail, q);
      assert SumIf(tail, q) == (if r(last) then last.amount else 0.0) by {
        if p(last) { assert tail[..0] == []; }
      }
    }
  }

  /** A condition split into two disjoint conditions: the two sums add up to
      the whole. */
  lemma {:induction false} SumIfSplit(ts: seq<Transaction>, p: Transaction -> bool, q: Transaction -> bool, r: Transaction -> bool)
    requires forall i :: 0 <= i < |ts| ==> (p(ts[i]) <==> q(ts[i]) || r(ts[i])) && !(q(ts[i]) && r(ts[i]))
    ensures SumIf(ts, p) == SumIf(ts, q) + SumIf(ts, r)
  {
    if ts != [] {
      SumIfSplit(ts[..|ts| - 1], p, q, r);
    }
  }

  /** Two conditions that agree on every transaction select the same sum. */
  lemma {:induction false} SumIfEquivalent(ts: seq<Transaction>, p: Transaction -> bool, q: Transaction -> bool)
    requires forall i :: 0 <= i < |ts| ==> p(ts[i]) == q(ts[i])
    ensures SumIf(ts, p) == SumIf(ts, q)
  {
    if ts != [] {
      SumIfEquivalent(ts[..|ts| - 1], p, q);
    }
  }
}
