/** The `useFinancialCalculations` hook: totals by kind, the hidden-fee sum,
    spending per category (a dictionary filled in place) and the mean budget
    adherence. */
module FinancialCalculations {
  import opened Wrappers
  import opened Ledger
  import opened Numeric

  /** A budget category as the hook reads it. */
  datatype Budget = Budget(id: string, budget: real)

  datatype Metrics = Metrics(
    totalIncome: real,
    totalExpenses: real,
    netIncome: real,
    hiddenFees: real,
    budgetAdherence: Option<real>,
    spendingByCategory: map<string, real>)

  predicate IsHidden(t: Transaction) { t.isHiddenFee }

  /** Expenses booked on category `k`. */
  function CategoryExpense(k: string): Transaction -> bool {
    t => IsExpense(t) && t.categoryId == k
  }

  /** Expenses booked on any of the categories `ks`. */
  function ExpenseIn(ks: seq<string>): Transaction -> bool {
    t => IsExpense(t) && t.categoryId in ks
  }

  /** `acc[k] || 0`. */
  function Get(m: map<string, real>, k: string): real {
    if k in m then m[k] else 0.0
  }

  // ---------------------------------------------------------------------
  // Spending per category

  /** The dictionary the reduce builds: each expense adds its amount to the
      entry of its category, creating the entry on first use. */
  function Spending(ts: seq<Transaction>): map<string, real> {
    if ts == [] then map[]
    else
      var m := Spending(ts[..|ts| - 1]);
      var t := ts[|ts| - 1];
      if IsExpense(t) then m[t.categoryId := Get(m, t.categoryId) + t.amount] else m
  }

  /** The reduce over the expenses, writing into the accumulator in place. */
  method SpendingByCategory(ts: seq<Transaction>) returns (acc: map<string, real>)
    ensures acc == Spending(ts)
    ensures forall k :: k in acc <==> exists i :: 0 <= i < |ts| && IsExpense(ts[i]) && ts[i].categoryId == k
    ensures forall k :: Get(acc, k) == SumIf(ts, CategoryExpense(k))
  {
    acc := map[];
    var i := 0;
    while i < |ts|
      invariant 0 <= i <= |ts|
      invariant acc == Spending(ts[..i])
    {
      assert ts[..i + 1][..i] == ts[..i];
      var t := ts[i];
      if IsExpense(t) {
        acc := acc[t.categoryId := Get(acc, t.categoryId) + t.amount];
      }
      i := i + 1;
    }
    assert ts[..i] == ts;
    SpendingKeys(ts);
    forall k ensures Get(acc, k) == SumIf(ts, CategoryExpense(k)) {
      SpendingValue(ts, k);
    }
  }

  /** The keys are exactly the categories of the expenses. */
  lemma {:induction false} SpendingKeys(ts: seq<Transaction>)
    ensures forall k :: k in Spending(ts) <==> exists i :: 0 <= i < |ts| && IsExpense(ts[i]) && ts[i].categoryId == k
  {
    if ts != [] {
      var init := ts[..|ts| - 1];
      SpendingKeys(init);
      forall k | k in Spending(ts)
        ensures exists i :: 0 <= i < |ts| && IsExpense(ts[i]) && ts[i].categoryId == k
      {
        if k in Spending(init) {
          var i :| 0 <= i < |init| && IsExpense(init[i]) && init[i].categoryId == k;
          assert ts[i] == init[i];
        } else {
          assert IsExpense(ts[|ts| - 1]) && ts[|ts| - 1].categoryId == k;
        }
      }
      forall k | exists i :: 0 <= i < |ts| && IsExpense(ts[i]) && ts[i].categoryId == k
        ensures k in Spending(ts)
      {
        var i :| 0 <= i < |ts| && IsExpense(ts[i]) && ts[i].categoryId == k;
        if i < |init| {
          assert init[i] == ts[i];
        }
      }
    }
  }

  /** Each entry is the sum of the expenses of its category; a category
      without expenses reads as 0. */
  lemma {:induction false} SpendingValue(ts: seq<Transaction>, k: string)
    ensures Get(Spending(ts), k) == SumIf(ts, CategoryExpense(k))
  {
    if ts != [] {
      SpendingValue(ts[..|ts| - 1], k);
    }
  }

  /** Summing the entries of `m` listed in `ks`. */
  function SumValues(m: map<string, real>, ks: seq<string>): real {
    if ks == [] then 0.0 else SumValues(m, ks[..|ks| - 1]) + Get(m, ks[|ks| - 1])
  }

  predicate NoDuplicates(ks: seq<string>) {
    forall i, j :: 0 <= i < j < |ks| ==> ks[i] != ks[j]
  }

  lemma {:induction false} SumOverCategories(ts: seq<Transaction>, ks: seq<string>)
    requires NoDuplicates(ks)
    ensures SumValues(Spending(ts), ks) == SumIf(ts, ExpenseIn(ks))
  {
    if ks == [] {
      SumIfZero(ts, ExpenseIn(ks));
    } else {
      var init, k := ks[..|ks| - 1], ks[|ks| - 1];
      SumOverCategories(ts, init);
      SpendingValue(ts, k);
      forall i | 0 <= i < |ts|
        ensures (ExpenseIn(ks)(ts[i]) <==> ExpenseIn(init)(ts[i]) || CategoryExpense(k)(ts[i]))
             && !(ExpenseIn(init)(ts[i]) && CategoryExpense(k)(ts[i]))
      {
        assert ks == init + [k];
      }
      SumIfSplit(ts, ExpenseIn(ks), ExpenseIn(init), CategoryExpense(k));
    }
  }

  lemma {:induction false} SumIfZero(ts: seq<Transaction>, p: Transaction -> bool)
    requires forall i :: 0 <= i < |ts| ==> !p(ts[i])
    ensures SumIf(ts, p) == 0.0
  {
    if ts != [] {
      SumIfZero(ts[..|ts| - 1], p);
    }
  }

  /** The values of the dictionary, each key counted once, add up to the
      total of the expenses. */
  lemma SpendingSumsToExpenses(ts: seq<Transaction>, ks: seq<string>)
    requires NoDuplicates(ks)
    requires forall k :: k in ks <==> k in Spending(ts)
    ensures SumValues(Spending(ts), ks) == TotalExpenses(ts)
  {
    SumOverCategories(ts, ks);
    SpendingKeys(ts);
    forall i | 0 <= i < |ts| ensures ExpenseIn(ks)(ts[i]) == IsExpense(ts[i]) {
      if IsExpense(ts[i]) {
        assert ts[i].categoryId in Spending(ts);
      }
    }
    SumIfEquivalent(ts, ExpenseIn(ks), IsExpense);
  }

  // ---------------------------------------------------------------------
  // Budget adherence

  /** One category's adherence: spend as a percentage of budget, capped at
      100, and 0 for a category without a positive budget. The cap makes any
      overspending count as full adherence. */
  function AdherenceTerm(spent: real, budget: real): (r: real)
    ensures r <= 100.0
    ensures budget <= 0.0 ==> r == 0.0
    ensures budget > 0.0 && spent >= 0.0 ==> 0.0 <= r
    ensures budget > 0.0 && spent <= budget ==> r == spent / budget * 100.0
    ensures budget > 0.0 && spent >= budget ==> r == 100.0
  {
    if budget > 0.0 then
      if spent <= budget then QuotientAtMostOne(spent, budget); Min(spent / budget * 100.0, 100.0)
      else QuotientAtLeastOne(spent, budget); Min(spent / budget * 100.0, 100.0)
    else Min(0.0, 100.0)
  }

  function AdherenceTotal(budgets: seq<Budget>, spending: map<string, real>): real {
    if budgets == [] then 0.0
    else
      var c := budgets[|budgets| - 1];
      AdherenceTotal(budgets[..|budgets| - 1], spending) + AdherenceTerm(Get(spending, c.id), c.budget)
  }

  /** The mean of the terms; with no categories the quotient `0 / 0` is not a
      number, which is `None` here. */
  function BudgetAdherence(budgets: seq<Budget>, spending: map<string, real>): (r: Option<real>)
    ensures r.None? <==> budgets == []
  {
    if budgets == [] then None else Some(AdherenceTotal(budgets, spending) / |budgets| as real)
  }

  predicate NonNegativeValues(m: map<string, real>) {
    forall k :: k in m ==> m[k] >= 0.0
  }

  lemma {:induction false} AdherenceTotalBounds(budgets: seq<Budget>, spending: map<string, real>)
    requires NonNegativeValues(spending)
    ensures 0.0 <= AdherenceTotal(budgets, spending) <= 100.0 * |budgets| as real
  {
    if budgets != [] {
      AdherenceTotalBounds(budgets[..|budgets| - 1], spending);
    }
  }

  /** With non-negative spending the mean adherence lies in [0, 100]. */
  lemma BudgetAdherenceBounds(budgets: seq<Budget>, spending: map<string, real>)
    requires NonNegativeValues(spending) && budgets != []
    ensures 0.0 <= BudgetAdherence(budgets, spending).value <= 100.0
  {
    AdherenceTotalBounds(budgets, spending);
    var n := |budgets| as real;
    QuotientAtMostOne(AdherenceTotal(budgets, spending), 100.0 * n);
    assert AdherenceTotal(budgets, spending) / n == 100.0 * (AdherenceTotal(budgets, spending) / (100.0 * n));
  }

  /** Non-negative expenses give non-negative spending entries. */
  lemma {:induction false} SpendingNonNegative(ts: seq<Transaction>)
    requires AllNonNegative(ts)
    ensures NonNegativeValues(Spending(ts))
  {
    if ts != [] {
      SpendingNonNegative(ts[..|ts| - 1]);
    }
  }

  // ---------------------------------------------------------------------
  // The hook

  /** Everything the hook returns except the random monthly trend. */
  method Calculate(ts: seq<Transaction>, budgets: seq<Budget>) returns (m: Metrics)
    ensures m.totalIncome == TotalIncome(ts)
    ensures m.totalExpenses == TotalExpenses(ts)
    ensures m.netIncome == m.totalIncome - m.totalExpenses
    ensures m.hiddenFees == SumIf(ts, IsHidden)
    ensures m.spendingByCategory == Spending(ts)
    ensures m.budgetAdherence == BudgetAdherence(budgets, Spending(ts))
    ensures AllNonNegative(ts) && budgets != [] ==> 0.0 <= m.budgetAdherence.value <= 100.0
  {
    var income := TotalIncome(ts);
    var expenses := TotalExpenses(ts);
    var spending := SpendingByCategory(ts);
    if AllNonNegative(ts) && budgets != [] {
      SpendingNonNegative(ts);
      BudgetAdherenceBounds(budgets, spending);
    }
    m := Metrics(income, expenses, income - expenses, SumIf(ts, IsHidden),
      BudgetAdherence(budgets, spending), spending);
  }
}
