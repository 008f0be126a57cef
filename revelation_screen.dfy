/** The revelation screen: the budget equation shown to the user, the
    three views it switches between, and the insights revealed one click
    at a time. */
module RevelationScreen {

  /** The budget equation displayed on the screen (simulated figures). */
  datatype Equation = Equation(
    income: real,
    fixedExpenses: real,
    variableExpenses: real,
    remaining: real,
    savingsRate: real,
    riskLevel: string)

  const FinancialEquation := Equation(3200.0, 1850.0, 950.0, 400.0, 12.5, "Modéré")

  /** The displayed figures agree: what remains is income minus both kinds
      of expenses, and the savings rate is that remainder as a share of income. */
  lemma EquationConsistent()
    ensures FinancialEquation.income - FinancialEquation.fixedExpenses - FinancialEquation.variableExpenses
            == FinancialEquation.remaining
    ensures FinancialEquation.remaining / FinancialEquation.income * 100.0 == FinancialEquation.savingsRate
  {
  }

  datatype View = EquationView | ScenariosView | ScienceView

  /** The view buttons, in order. */
  const Views: seq<View> := [EquationView, ScenariosView, ScienceView]

  /** A button's caption: the view's key with its first letter capitalised. */
  function ViewLabel(v: View): string {
    match v
    case EquationView => "Equation"
    case ScenariosView => "Scenarios"
    case ScienceView => "Science"
  }

  /** Each view has its own button and caption. */
  lemma ViewsDistinct(v: View, w: View)
    ensures v in Views
    ensures ViewLabel(v) == ViewLabel(w) <==> v == w
  {
  }

  /** `revealInsight`: append the insight unless it is already revealed. */
  function Reveal(revealed: seq<string>, insight: string): (r: seq<string>)
    ensures insight in r
    ensures forall x :: x in r <==> x in revealed || x == insight
    ensures |revealed| <= |r| <= |revealed| + 1 && r[..|revealed|] == revealed
  {
    if insight in revealed then revealed else revealed + [insight]
  }

  predicate NoDuplicates(s: seq<string>) {
    forall i, j :: 0 <= i < j < |s| ==> s[i] != s[j]
  }

  /** Revealing twice is revealing once, and the list never holds an
      insight twice. */
  lemma RevealIdempotent(revealed: seq<string>, insight: string)
    requires NoDuplicates(revealed)
    ensures Reveal(Reveal(revealed, insight), insight) == Reveal(revealed, insight)
    ensures NoDuplicates(Reveal(revealed, insight))
  {
    if insight !in revealed {
      var r := revealed + [insight];
      forall i, j | 0 <= i < j < |r|
        ensures r[i] != r[j]
      {
        if j == |revealed| {
          assert r[i] in revealed;
        }
      }
    }
  }

  /** The insight cards: a revealed card is fully opaque, another half. */
  function Opacity(revealed: seq<string>, insight: string): real {
    if insight in revealed then 1.0 else 0.5
  }

  /** Revealing one insight lights its card and dims none. */
  lemma RevealNeverDims(revealed: seq<string>, insight: string, other: string)
    ensures Opacity(Reveal(revealed, insight), insight) == 1.0
    ensures Opacity(revealed, other) <= Opacity(Reveal(revealed, insight), other)
  {
  }

  /** The screen's state. */
  class Screen {
    var currentView: View
    var revealedInsights: seq<string>

    predicate Valid()
      reads this
    {
      NoDuplicates(revealedInsights)
    }

    constructor ()
      ensures Valid() && currentView == EquationView && revealedInsights == []
    {
      currentView := EquationView;
      revealedInsights := [];
    }

    /** A click on an insight card ("spending-pattern", "emotional-trigger"). */
    method RevealInsight(insight: string)
      requires Valid()
      modifies this
      ensures Valid()
      ensures revealedInsights == Reveal(old(revealedInsights), insight)
      ensures currentView == old(currentView)
    {
      RevealIdempotent(revealedInsights, insight);
      if insight !in revealedInsights {
        revealedInsights := revealedInsights + [insight];
      }
    }

    /** A click on a view button. */
    method SetView(v: View)
      modifies this
      ensures currentView == v && revealedInsights == old(revealedInsights)
    {
      currentView := v;
    }
  }
}
