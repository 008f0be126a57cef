/** The rule-based hidden-fee detector of the advanced dashboard: each
    expense transaction is matched against an ordered table of five keyword
    categories, each match scored by a capped confidence, a secondary probe
    flags small suspicious amounts, and the entries are ranked by confidence
    and then filtered for display. */
module HiddenFees {
  import opened Wrappers
  import opened Ledger
  import opened Text
  import opened Numeric
  import opened Ranking

  datatype Severity = Low | Medium | High | Critical

  /** The category of a detected fee; `Unknown` marks the secondary probe. */
  datatype FeeCategory = Bank | Subscription | Service | ForeignExchange | Penalty | Unknown

  datatype FeePattern = FeePattern(category: FeeCategory, keywords: seq<string>, severity: Severity)

  /** The keyword table, in the order the detector tries it. */
  const FeePatterns: seq<FeePattern> := [
    FeePattern(Bank, ["frais bancaires", "commission", "agios", "découvert", "tenue de compte", "carte bancaire"], Medium),
    FeePattern(Subscription, ["abonnement", "subscription", "monthly", "annual", "premium", "pro"], High),
    FeePattern(Service, ["service fee", "processing fee", "handling", "administration", "gestion"], Medium),
    FeePattern(ForeignExchange, ["change", "foreign", "fx", "currency", "devise"], High),
    FeePattern(Penalty, ["penalty", "late fee", "retard", "pénalité", "amende"], Critical)
  ]

  datatype HiddenFee = HiddenFee(
    id: string,
    amount: real,
    description: string,
    merchantName: string,
    date: int,
    category: FeeCategory,
    confidence: real,
    severity: Severity,
    feeType: FeeCategory,
    recurring: bool,
    estimatedAnnualImpact: real)

  function Abs(x: real): (r: real)
    ensures r >= 0.0 && (r == x || r == -x)
  {
    if x < 0.0 then -x else x
  }

  function Confidence(f: HiddenFee): real { f.confidence }

  // ---------------------------------------------------------------------
  // Recurrence

  /** Another transaction (by id) with the same merchant and an amount within 0.01. */
  predicate IsSimilar(u: Transaction, t: Transaction) {
    u.merchantName == t.merchantName && Abs(u.amount - t.amount) < 0.01 && u.id != t.id
  }

  function CountSimilar(all: seq<Transaction>, t: Transaction): (n: nat)
    ensures n <= |all|
  {
    if all == [] then 0
    else CountSimilar(all[..|all| - 1], t) + (if IsSimilar(all[|all| - 1], t) then 1 else 0)
  }

  /** `checkRecurringPattern`: a named merchant and at least two similar
      transactions besides this one. */
  function IsRecurring(t: Transaction, all: seq<Transaction>): (b: bool)
    ensures b ==> t.merchantName != "" && |all| >= 2
  {
    t.merchantName != "" && CountSimilar(all, t) >= 2
  }

  // ---------------------------------------------------------------------
  // Keyword entries

  predicate MentionsFee(description: string) {
    Contains(description, "fee") || Contains(description, "frais")
  }

  /** The lower-cased description or merchant name contains one of the keywords. */
  predicate MatchesPattern(p: FeePattern, description: string, merchant: string) {
    exists k :: k in p.keywords && (Contains(description, k) || Contains(merchant, k))
  }

  /** The score of a keyword match: 0.7 plus the fixed increments, capped at 1. */
  function KeywordConfidence(amount: real, description: string, recurring: bool): (c: real)
    ensures 0.7 <= c <= 1.0
  {
    Min(0.7 + (if amount < 5.0 then 0.2 else 0.0)
            + (if IsInteger(amount) then 0.1 else 0.0)
            + (if MentionsFee(description) then 0.2 else 0.0)
            + (if recurring then 0.1 else 0.0),
        1.0)
  }

  function OrDefault(s: string, default: string): string {
    if s == "" then default else s
  }

  function KeywordEntry(t: Transaction, all: seq<Transaction>, p: FeePattern): HiddenFee {
    var amount := Abs(t.amount);
    var recurring := IsRecurring(t, all);
    HiddenFee(t.id, amount, OrDefault(t.description, "Frais détecté"),
              OrDefault(t.merchantName, "Inconnu"), t.date, p.category,
              KeywordConfidence(amount, ToLower(t.description), recurring),
              p.severity, p.category, recurring,
              if recurring then amount * 12.0 else amount)
  }

  /** The entries the keyword table gives for one transaction, in table order. */
  function PatternEntries(t: Transaction, all: seq<Transaction>, pats: seq<FeePattern>): (r: seq<HiddenFee>)
    ensures |r| <= |pats|
  {
    if pats == [] then []
    else
      var p := pats[|pats| - 1];
      PatternEntries(t, all, pats[..|pats| - 1])
      + (if MatchesPattern(p, ToLower(t.description), ToLower(t.merchantName))
         then [KeywordEntry(t, all, p)] else [])
  }

  // ---------------------------------------------------------------------
  // Secondary probe

  /** `/\d+\.\d{2}$/`: the text ends in digits, a point and two digits. */
  predicate EndsInCents(s: string) {
    |s| >= 4 && IsAsciiDigit(s[|s| - 1]) && IsAsciiDigit(s[|s| - 2])
    && s[|s| - 3] == '.' && IsAsciiDigit(s[|s| - 4])
  }

  predicate ContainsAny(s: string, words: seq<string>) {
    exists w :: w in words && Contains(s, w)
  }

  /** One of the three probes matches the text. */
  predicate Suspicious(s: string) {
    EndsInCents(s)
    || ContainsAny(s, ["service", "admin", "process", "handle"])
    || ContainsAny(s, ["monthly", "annual", "yearly"])
  }

  predicate HasSecondaryEntry(t: Transaction) {
    Abs(t.amount) < 50.0 && !t.isHiddenFee
    && (Suspicious(ToLower(t.description)) || Suspicious(ToLower(t.merchantName)))
  }

  function SecondaryEntry(t: Transaction): HiddenFee {
    var amount := Abs(t.amount);
    HiddenFee(t.id, amount, OrDefault(t.description, "Frais potentiel détecté"),
              OrDefault(t.merchantName, "Inconnu"), t.date, Unknown, 0.5, Low,
              Service, false, amount)
  }

  // ---------------------------------------------------------------------
  // The whole scan

  /** Every entry one transaction contributes, before ranking. */
  function EntriesFor(t: Transaction, all: seq<Transaction>): seq<HiddenFee> {
    if !IsExpense(t) then []
    else PatternEntries(t, all, FeePatterns) + (if HasSecondaryEntry(t) then [SecondaryEntry(t)] else [])
  }

  /** The entries of the transactions in `ts`, in scan order; `all` is the
      list searched for recurrences. */
  function Generated(ts: seq<Transaction>, all: seq<Transaction>): seq<HiddenFee> {
    if ts == [] then []
    else Generated(ts[..|ts| - 1], all) + EntriesFor(ts[|ts| - 1], all)
  }

  /** The inner `feePatterns.forEach` of one expense transaction. */
  method ScanPatterns(t: Transaction, all: seq<Transaction>, pats: seq<FeePattern>) returns (entries: seq<HiddenFee>)
    ensures entries == PatternEntries(t, all, pats)
  {
    var description := ToLower(t.description);
    var merchant := ToLower(t.merchantName);
    entries := [];
    var j := 0;
    while j < |pats|
      invariant 0 <= j <= |pats|
      invariant entries == PatternEntries(t, all, pats[..j])
    {
      var p := pats[j];
      assert pats[..j + 1][..j] == pats[..j];
      if MatchesPattern(p, description, merchant) {
        entries := entries + [KeywordEntry(t, all, p)];
      }
      j := j + 1;
    }
    assert pats[..j] == pats;
  }

  /** `detectHiddenFees`: scan every transaction against every pattern, then
      rank the entries by confidence, largest first (a stable sort). */
  method DetectHiddenFees(transactions: seq<Transaction>) returns (fees: seq<HiddenFee>)
    ensures fees == SortDesc(Generated(transactions, transactions), Confidence)
  {
    var detected: seq<HiddenFee> := [];
    var i := 0;
    while i < |transactions|
      invariant 0 <= i <= |transactions|
      invariant detected == Generated(transactions[..i], transactions)
    {
      var t := transactions[i];
      assert transactions[..i + 1][..i] == transactions[..i];
      if t.kind == Expense {
        var entries := ScanPatterns(t, transactions, FeePatterns);
        detected := detected + entries;
        if Abs(t.amount) < 50.0 && !t.isHiddenFee
           && (Suspicious(ToLower(t.description)) || Suspicious(ToLower(t.merchantName))) {
          detected := detected + [SecondaryEntry(t)];
        }
      }
      i := i + 1;
    }
    assert transactions[..i] == transactions;
    fees := SortDesc(detected, Confidence);
  }

  // ---------------------------------------------------------------------
  // Properties of the scan

  /** The shape of every entry: either a keyword entry whose confidence lies
      in [0.7, 1] and whose impact is twelve times the amount exactly when it
      recurs, or a low-severity secondary entry of confidence 0.5. */
  predicate WellFormedFor(f: HiddenFee, t: Transaction, all: seq<Transaction>) {
    f.id == t.id && f.amount == Abs(t.amount) && f.amount >= 0.0
    && (if f.category == Unknown then
          f.confidence == 0.5 && f.severity == Low && !f.recurring
          && f.estimatedAnnualImpact == f.amount
        else
          0.7 <= f.confidence <= 1.0 && f.feeType == f.category
          && f.recurring == IsRecurring(t, all)
          && f.estimatedAnnualImpact == (if f.recurring then 12.0 * f.amount else f.amount))
  }

  lemma {:induction false} PatternEntriesShape(t: Transaction, all: seq<Transaction>, pats: seq<FeePattern>)
    requires forall p :: p in pats ==> p.category != Unknown
    ensures forall f :: f in PatternEntries(t, all, pats) ==> WellFormedFor(f, t, all) && f.category != Unknown
  {
    if pats != [] {
      PatternEntriesShape(t, all, pats[..|pats| - 1]);
    }
  }

  /** One transaction gives at most one entry per pattern and one secondary
      entry, so at most six, all carrying its id; only expenses give any. */
  lemma EntriesForShape(t: Transaction, all: seq<Transaction>)
    ensures |EntriesFor(t, all)| <= |FeePatterns| + 1 == 6
    ensures !IsExpense(t) ==> EntriesFor(t, all) == []
    ensures forall f :: f in EntriesFor(t, all) ==> WellFormedFor(f, t, all)
  {
    PatternEntriesShape(t, all, FeePatterns);
  }

  /** Every generated entry comes from an expense transaction of the input and
      has the shape of `WellFormedFor` for it. */
  lemma {:induction false} GeneratedShape(ts: seq<Transaction>, all: seq<Transaction>)
    ensures forall f :: f in Generated(ts, all) ==>
              exists t :: t in ts && IsExpense(t) && WellFormedFor(f, t, all)
  {
    if ts != [] {
      var init, last := ts[..|ts| - 1], ts[|ts| - 1];
      GeneratedShape(init, all);
      EntriesForShape(last, all);
      forall f | f in Generated(ts, all)
        ensures exists t :: t in ts && IsExpense(t) && WellFormedFor(f, t, all)
      {
        if f in Generated(init, all) {
          var t :| t in init && IsExpense(t) && WellFormedFor(f, t, all);
          assert t in ts;
        } else {
          assert f in EntriesFor(last, all);
          assert last in ts;
        }
      }
    }
  }

  /** The detector's result: a permutation of the generated entries, ranked
      by non-increasing confidence, entries of equal confidence in scan
      order, every entry drawn from an expense with confidence in [0.5, 1]. */
  lemma DetectedFeesRanked(transactions: seq<Transaction>)
    ensures var fees := SortDesc(Generated(transactions, transactions), Confidence);
      && multiset(fees) == multiset(Generated(transactions, transactions))
      && NonIncreasing(fees, Confidence)
      && (forall v :: WithKey(fees, Confidence, v) == WithKey(Generated(transactions, transactions), Confidence, v))
      && (forall f :: f in fees ==>
            (0.5 <= f.confidence <= 1.0
             && exists t :: t in transactions && IsExpense(t) && WellFormedFor(f, t, transactions)))
  {
    var g := Generated(transactions, transactions);
    var fees := SortDesc(g, Confidence);
    SortDescOrdered(g, Confidence);
    forall v ensures WithKey(fees, Confidence, v) == WithKey(g, Confidence, v) {
      SortDescStable(g, Confidence, v);
    }
    GeneratedShape(transactions, transactions);
    forall f | f in fees
      ensures 0.5 <= f.confidence <= 1.0
      ensures exists t :: t in transactions && IsExpense(t) && WellFormedFor(f, t, transactions)
    {
      assert f in multiset(fees);
      assert f in g;
    }
  }

  /** The recurrence rule stated directly: a named merchant and at least two
      transactions with another id, the same merchant and an amount within
      0.01. */
  lemma {:induction false} RecurringIff(t: Transaction, all: seq<Transaction>)
    ensures IsRecurring(t, all) <==>
      t.merchantName != "" && |Keep(all, u => IsSimilar(u, t))| >= 2
  {
    CountSimilarIsCount(all, t);
  }

  lemma {:induction false} CountSimilarIsCount(all: seq<Transaction>, t: Transaction)
    ensures CountSimilar(all, t) == |Keep(all, u => IsSimilar(u, t))|
  {
    if all != [] {
      CountSimilarIsCount(all[..|all| - 1], t);
    }
  }

  // ---------------------------------------------------------------------
  // Display filter and totals

  /** `filteredFees`: `category` is `None` for "all". */
  function FilterFees(fees: seq<HiddenFee>, category: Option<FeeCategory>, minAmount: real, showOnlyHidden: bool): (r: seq<HiddenFee>)
    ensures |r| <= |fees|
    ensures forall f :: f in r ==>
      (f in fees
       && f.amount >= minAmount
       && (category.Some? ==> f.category == category.value)
       && (showOnlyHidden ==> f.confidence >= 0.6))
  {
    if fees == [] then []
    else
      var f := fees[|fees| - 1];
      FilterFees(fees[..|fees| - 1], category, minAmount, showOnlyHidden)
      + (if (category.Some? && f.category != category.value) || f.amount < minAmount
            || (showOnlyHidden && f.confidence < 0.6)
         then [] else [f])
  }

  /** The filter keeps exactly the entries that pass all three tests, in order. */
  lemma {:induction false} FilterFeesKeeps(fees: seq<HiddenFee>, category: Option<FeeCategory>, minAmount: real, showOnlyHidden: bool, f: HiddenFee)
    requires f in fees
    requires f.amount >= minAmount && (category.Some? ==> f.category == category.value)
    requires showOnlyHidden ==> f.confidence >= 0.6
    ensures f in FilterFees(fees, category, minAmount, showOnlyHidden)
  {
    if fees[|fees| - 1] != f {
      assert f in fees[..|fees| - 1] by {
        var k :| 0 <= k < |fees| && fees[k] == f;
        assert k < |fees| - 1;
      }
      FilterFeesKeeps(fees[..|fees| - 1], category, minAmount, showOnlyHidden, f);
    }
  }

  /** With `showOnlyHidden`, no secondary (confidence 0.5) entry survives. */
  lemma OnlyHiddenDropsSecondary(fees: seq<HiddenFee>, category: Option<FeeCategory>, minAmount: real)
    ensures forall f :: f in FilterFees(fees, category, minAmount, true) ==> f.confidence != 0.5
  {
  }

  function TotalAmount(fees: seq<HiddenFee>): real {
    if fees == [] then 0.0 else TotalAmount(fees[..|fees| - 1]) + fees[|fees| - 1].amount
  }

  function TotalAnnualImpact(fees: seq<HiddenFee>): real {
    if fees == [] then 0.0
    else TotalAnnualImpact(fees[..|fees| - 1]) + fees[|fees| - 1].estimatedAnnualImpact
  }

  /** `averageFeeAmount`: 0 when nothing is kept. */
  function AverageFeeAmount(fees: seq<HiddenFee>): (r: real)
    ensures fees == [] ==> r == 0.0
    ensures fees != [] ==> r * |fees| as real == TotalAmount(fees)
  {
    if |fees| > 0 then TotalAmount(fees) / |fees| as real else 0.0
  }

  function CriticalCount(fees: seq<HiddenFee>): (n: nat)
    ensures n <= |fees|
  {
    if fees == [] then 0
    else CriticalCount(fees[..|fees| - 1]) + (if fees[|fees| - 1].severity == Critical then 1 else 0)
  }

  predicate IsCritical(f: HiddenFee) {
    f.severity == Critical
  }

  /** The count is the length of the source's `filter(f => f.severity === 'critical')`. */
  lemma {:induction false} CriticalCountIsFilterLength(fees: seq<HiddenFee>)
    ensures CriticalCount(fees) == |IndicesWhere(fees, IsCritical)|
  {
    if fees != [] {
      CriticalCountIsFilterLength(fees[..|fees| - 1]);
      IndicesWhereSnoc(fees, IsCritical);
    }
  }

  /** Every entry's yearly impact is at least its amount, because amounts are
      absolute values; so the annual total bounds the displayed total. */
  lemma {:induction false} AnnualImpactBoundsTotal(fees: seq<HiddenFee>)
    requires forall f :: f in fees ==>
      (f.amount >= 0.0
       && (f.estimatedAnnualImpact == f.amount || f.estimatedAnnualImpact == 12.0 * f.amount))
    ensures 0.0 <= TotalAmount(fees) <= TotalAnnualImpact(fees)
  {
    if fees != [] {
      AnnualImpactBoundsTotal(fees[..|fees| - 1]);
    }
  }

  /** The same bound for the detector's own filtered output. */
  lemma DisplayedTotalsBound(transactions: seq<Transaction>, category: Option<FeeCategory>, minAmount: real, showOnlyHidden: bool)
    ensures var shown := FilterFees(SortDesc(Generated(transactions, transactions), Confidence), category, minAmount, showOnlyHidden);
      0.0 <= TotalAmount(shown) <= TotalAnnualImpact(shown)
  {
    DetectedFeesRanked(transactions);
    var shown := FilterFees(SortDesc(Generated(transactions, transactions), Confidence), category, minAmount, showOnlyHidden);
    forall f | f in shown
      ensures f.amount >= 0.0 && (f.estimatedAnnualImpact == f.amount || f.estimatedAnnualImpact == 12.0 * f.amount)
    {
      var t :| t in transactions && IsExpense(t) && WellFormedFor(f, t, transactions);
    }
    AnnualImpactBoundsTotal(shown);
  }
}
