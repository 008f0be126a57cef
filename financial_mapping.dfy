/** The six-step questionnaire in which the user maps incomes, fixed and
    variable expenses, debts, goals and an emotional context: the list
    edits, the tag toggle, and the step navigation. */
module FinancialMapping {
  import opened Wrappers
  import opened Numeric

  /** One entry of a list: a name and an amount, plus a rate for debts
      (`taux`) and a due date for goals (`echeance`). */
  datatype Item = Item(name: string, amount: real, rate: Option<real>, dueDate: Option<string>)

  /** The questionnaire's data: the five lists (`revenus`, `depensesFixes`,
      `depensesVariables`, `dettes`, `objectifs`) and the emotional context
      (`humeur`, `tags`). */
  datatype FinancialData = FinancialData(
    incomes: seq<Item>,
    fixedExpenses: seq<Item>,
    variableExpenses: seq<Item>,
    debts: seq<Item>,
    goals: seq<Item>,
    mood: real,
    tags: seq<string>)

  /** The keys of the data, in step order. */
  datatype Category = Incomes | FixedExpenses | VariableExpenses | Debts | Goals | EmotionalContext

  const Steps: seq<Category> := [Incomes, FixedExpenses, VariableExpenses, Debts, Goals, EmotionalContext]

  const BlankItem := Item("", 0.0, None, None)

  /** The data the questionnaire starts from. */
  const InitialData := FinancialData([BlankItem], [BlankItem], [BlankItem], [], [], 5.0, [])

  const EmotionalTags: seq<string> := [
    "Stress au travail", "Événement familial", "Pression sociale",
    "Motivation élevée", "Fatigue", "Optimisme", "Anxiété", "Confiance"
  ]

  /** The list stored under a list category. */
  function List(d: FinancialData, c: Category): seq<Item>
    requires c != EmotionalContext
  {
    match c
    case Incomes => d.incomes
    case FixedExpenses => d.fixedExpenses
    case VariableExpenses => d.variableExpenses
    case Debts => d.debts
    case Goals => d.goals
  }

  /** The data with the list of `c` replaced, everything else kept. */
  function WithList(d: FinancialData, c: Category, items: seq<Item>): (r: FinancialData)
    requires c != EmotionalContext
    ensures List(r, c) == items
    ensures forall c' :: c' != EmotionalContext && c' != c ==> List(r, c') == List(d, c')
    ensures r.mood == d.mood && r.tags == d.tags
  {
    match c
    case Incomes => d.(incomes := items)
    case FixedExpenses => d.(fixedExpenses := items)
    case VariableExpenses => d.(variableExpenses := items)
    case Debts => d.(debts := items)
    case Goals => d.(goals := items)
  }

  /** The entry `addItem` appends: goals get a due date, debts a rate. */
  function Template(c: Category): Item {
    if c == Goals then Item("", 0.0, None, Some(""))
    else if c == Debts then Item("", 0.0, Some(0.0), None)
    else BlankItem
  }

  /** `addItem`: append one blank entry to the list of `c`; nothing for
      the emotional context. */
  function AddItem(d: FinancialData, c: Category): (r: FinancialData)
    ensures c == EmotionalContext ==> r == d
    ensures c != EmotionalContext ==>
      List(r, c) == List(d, c) + [Template(c)]
      && (forall c' :: c' != EmotionalContext && c' != c ==> List(r, c') == List(d, c'))
      && r.mood == d.mood && r.tags == d.tags
  {
    if c == EmotionalContext then d else WithList(d, c, List(d, c) + [Template(c)])
  }

  // ---------------------------------------------------------------------
  // Removing an entry

  /** `filter((_, i) => i !== index)`: keep every entry but the one at `index`. */
  function DropIndex(items: seq<Item>, index: int): (r: seq<Item>)
    ensures |r| <= |items|
  {
    if items == [] then []
    else DropIndex(items[..|items| - 1], index) + (if |items| - 1 != index then [items[|items| - 1]] else [])
  }

  /** Dropping a valid index removes exactly that entry and keeps the
      others in order; any other index removes nothing. */
  lemma {:induction false} DropIndexRemovesOne(items: seq<Item>, index: int)
    ensures 0 <= index < |items| ==> DropIndex(items, index) == items[..index] + items[index + 1..]
    ensures !(0 <= index < |items|) ==> DropIndex(items, index) == items
  {
    if items != [] {
      var n := |items| - 1;
      var init := items[..n];
      DropIndexRemovesOne(init, index);
      if index == n {
        assert items[index + 1..] == [];
        assert items[..index] == init;
      } else if 0 <= index < n {
        assert init[..index] == items[..index];
        assert init[index + 1..] + [items[n]] == items[index + 1..];
      } else {
        assert init + [items[n]] == items;
      }
    }
  }

  /** `removeItem`: drop entry `index` of the list of `c`; nothing for the
      emotional context. */
  function RemoveItem(d: FinancialData, c: Category, index: int): (r: FinancialData)
    ensures c == EmotionalContext ==> r == d
    ensures c != EmotionalContext ==>
      List(r, c) == DropIndex(List(d, c), index)
      && (forall c' :: c' != EmotionalContext && c' != c ==> List(r, c') == List(d, c'))
      && r.mood == d.mood && r.tags == d.tags
  {
    if c == EmotionalContext then d else WithList(d, c, DropIndex(List(d, c), index))
  }

  /** The delete control is rendered only on lists of two or more entries. */
  predicate ShowsDelete(items: seq<Item>) {
    |items| > 1
  }

  /** Deleting through the control shortens the list by one and never
      empties it. */
  lemma DeleteKeepsOneEntry(d: FinancialData, c: Category, index: int)
    requires c != EmotionalContext && ShowsDelete(List(d, c)) && 0 <= index < |List(d, c)|
    ensures |List(RemoveItem(d, c, index), c)| == |List(d, c)| - 1 >= 1
  {
    DropIndexRemovesOne(List(d, c), index);
  }

  // ---------------------------------------------------------------------
  // Editing an entry

  /** The field an input edits, with its new value. */
  datatype Edit = SetName(name: string) | SetAmount(amount: real) | SetRate(rate: real) | SetDueDate(dueDate: string)

  /** `{ ...item, [field]: value }`. */
  function Apply(item: Item, e: Edit): Item {
    match e
    case SetName(v) => item.(name := v)
    case SetAmount(v) => item.(amount := v)
    case SetRate(v) => item.(rate := Some(v))
    case SetDueDate(v) => item.(dueDate := Some(v))
  }

  /** The `map` over the list: the entry at `index` edited, every other kept. */
  function UpdateAt(items: seq<Item>, index: int, e: Edit): (r: seq<Item>)
    ensures |r| == |items|
  {
    seq(|items|, i requires 0 <= i < |items| => if i == index then Apply(items[i], e) else items[i])
  }

  /** `updateItem`: edit one field of one entry of the list of `c`; nothing
      for the emotional context. */
  function UpdateItem(d: FinancialData, c: Category, index: int, e: Edit): (r: FinancialData)
    ensures c == EmotionalContext ==> r == d
    ensures c != EmotionalContext ==>
      List(r, c) == UpdateAt(List(d, c), index, e)
      && (forall c' :: c' != EmotionalContext && c' != c ==> List(r, c') == List(d, c'))
      && r.mood == d.mood && r.tags == d.tags
  {
    if c == EmotionalContext then d else WithList(d, c, UpdateAt(List(d, c), index, e))
  }

  /** An edit is read back from the edited entry, touches no other entry,
      and an index outside the list changes nothing. */
  lemma UpdateReadsBack(items: seq<Item>, index: int, e: Edit)
    ensures 0 <= index < |items| ==> UpdateAt(items, index, e)[index] == Apply(items[index], e)
    ensures forall i :: 0 <= i < |items| && i != index ==> UpdateAt(items, index, e)[i] == items[i]
    ensures !(0 <= index < |items|) ==> UpdateAt(items, index, e) == items
    ensures 0 <= index < |items| && e.SetAmount? ==> UpdateAt(items, index, e)[index].amount == e.amount
    ensures 0 <= index < |items| && e.SetName? ==> UpdateAt(items, index, e)[index].name == e.name
  {
  }

  // ---------------------------------------------------------------------
  // Emotional tags

  /** `filter(t => t !== tag)`. */
  function RemoveAll(tags: seq<string>, tag: string): (r: seq<string>)
    ensures forall t :: t in r <==> t in tags && t != tag
    ensures tag !in tags ==> r == tags
  {
    if tags == [] then []
    else
      var rest := RemoveAll(tags[1..], tag);
      if tags[0] == tag then rest else [tags[0]] + rest
  }

  /** `toggleEmotionalTag`: remove the tag when present, append it otherwise. */
  function ToggleTag(tags: seq<string>, tag: string): (r: seq<string>)
    ensures tag in r <==> tag !in tags
    ensures forall t :: t != tag ==> (t in r <==> t in tags)
  {
    if tag in tags then RemoveAll(tags, tag) else tags + [tag]
  }

  predicate NoDuplicates(tags: seq<string>) {
    forall i, j :: 0 <= i < j < |tags| ==> tags[i] != tags[j]
  }

  /** Removing keeps a list free of duplicates. */
  lemma {:induction false} RemoveAllNoDuplicates(tags: seq<string>, tag: string)
    requires NoDuplicates(tags)
    ensures NoDuplicates(RemoveAll(tags, tag))
  {
    if tags != [] {
      assert NoDuplicates(tags[1..]) by {
        forall i, j | 0 <= i < j < |tags[1..]|
          ensures tags[1..][i] != tags[1..][j]
        {
          assert tags[1..][i] == tags[i + 1] && tags[1..][j] == tags[j + 1];
        }
      }
      RemoveAllNoDuplicates(tags[1..], tag);
      var rest := RemoveAll(tags[1..], tag);
      if tags[0] != tag {
        assert tags[0] !in tags[1..];
        assert tags[0] !in rest;
        var r := [tags[0]] + rest;
        forall i, j | 0 <= i < j < |r|
          ensures r[i] != r[j]
        {
          if i == 0 {
            assert r[j] == rest[j - 1];
          } else {
            assert r[i] == rest[i - 1] && r[j] == rest[j - 1];
          }
        }
      }
    }
  }

  /** A duplicate-free tag list stays duplicate-free, and toggling the same
      tag twice gives back the same tags (in the same order when the tag
      was absent). */
  lemma ToggleTwice(tags: seq<string>, tag: string)
    requires NoDuplicates(tags)
    ensures NoDuplicates(ToggleTag(tags, tag))
    ensures forall t :: t in ToggleTag(ToggleTag(tags, tag), tag) <==> t in tags
    ensures tag !in tags ==> ToggleTag(ToggleTag(tags, tag), tag) == tags
  {
    if tag in tags {
      RemoveAllNoDuplicates(tags, tag);
    } else {
      var r := tags + [tag];
      forall i, j | 0 <= i < j < |r|
        ensures r[i] != r[j]
      {
        if j == |tags| {
          assert r[i] in tags;
        }
      }
      RemoveAllAppended(tags, tag);
    }
  }

  /** Appending an absent tag and then removing it restores the list. */
  lemma {:induction false} RemoveAllAppended(tags: seq<string>, tag: string)
    requires tag !in tags
    ensures RemoveAll(tags + [tag], tag) == tags
  {
    if tags == [] {
      assert RemoveAll([tag][1..], tag) == [];
    } else {
      assert (tags + [tag])[1..] == tags[1..] + [tag];
      RemoveAllAppended(tags[1..], tag);
      assert [tags[0]] + tags[1..] == tags;
    }
  }

  /** The tag toggle as an edit of the whole data: only the tags change. */
  function ToggleEmotionalTag(d: FinancialData, tag: string): (r: FinancialData)
    ensures r.tags == ToggleTag(d.tags, tag)
    ensures forall c :: c != EmotionalContext ==> List(r, c) == List(d, c)
    ensures r.mood == d.mood
  {
    d.(tags := ToggleTag(d.tags, tag))
  }

  // ---------------------------------------------------------------------
  // Navigation

  /** The percentage shown beside the progress bar. */
  function ProgressPercent(step: int): (p: int)
    requires 0 <= step < |Steps|
    ensures 17 <= p <= 100
    ensures p == 100 <==> step == |Steps| - 1
  {
    var exact := (step + 1) as real / |Steps| as real * 100.0;
    ProgressValues(step);
    Round(exact)
  }

  lemma ProgressValues(step: int)
    requires 0 <= step < |Steps|
    ensures var r := Round((step + 1) as real / |Steps| as real * 100.0);
      r == [17, 33, 50, 67, 83, 100][step]
  {
  }

  /** The percentage grows with every step. */
  lemma ProgressIncreasing(s: int, t: int)
    requires 0 <= s < t < |Steps|
    ensures ProgressPercent(s) < ProgressPercent(t)
  {
    ProgressValues(s);
    ProgressValues(t);
  }

  /** What a navigation button does besides moving the step. */
  datatype Navigation = Moved | Submitted(data: FinancialData) | LeftQuestionnaire

  /** The questionnaire's state: the current step and the data entered. */
  class MappingWizard {
    var currentStep: int
    var data: FinancialData

    predicate Valid()
      reads this
    {
      0 <= currentStep < |Steps|
    }

    constructor ()
      ensures Valid() && currentStep == 0 && data == InitialData
    {
      currentStep := 0;
      data := InitialData;
    }

    /** `handleNext`: the next step, or submit the data on the last one. */
    method HandleNext() returns (nav: Navigation)
      requires Valid()
      modifies this
      ensures Valid() && data == old(data)
      ensures old(currentStep) < |Steps| - 1 ==> currentStep == old(currentStep) + 1 && nav == Moved
      ensures old(currentStep) == |Steps| - 1 ==> currentStep == old(currentStep) && nav == Submitted(data)
    {
      if currentStep < |Steps| - 1 {
        currentStep := currentStep + 1;
        nav := Moved;
      } else {
        nav := Submitted(data);
      }
    }

    /** `handleBack`: the previous step, or leave the questionnaire from the first. */
    method HandleBack() returns (nav: Navigation)
      requires Valid()
      modifies this
      ensures Valid() && data == old(data)
      ensures old(currentStep) > 0 ==> currentStep == old(currentStep) - 1 && nav == Moved
      ensures old(currentStep) == 0 ==> currentStep == 0 && nav == LeftQuestionnaire
    {
      if currentStep > 0 {
        currentStep := currentStep - 1;
        nav := Moved;
      } else {
        nav := LeftQuestionnaire;
      }
    }

    /** A click on the step bar: jump to any of the six steps. */
    method JumpTo(index: int)
      requires 0 <= index < |Steps|
      modifies this
      ensures Valid() && currentStep == index && data == old(data)
    {
      currentStep := index;
    }

    method Add(c: Category)
      modifies this
      ensures data == AddItem(old(data), c) && currentStep == old(currentStep)
    {
      data := AddItem(data, c);
    }

    method Remove(c: Category, index: int)
      modifies this
      ensures data == RemoveItem(old(data), c, index) && currentStep == old(currentStep)
    {
      data := RemoveItem(data, c, index);
    }

    method Update(c: Category, index: int, e: Edit)
      modifies this
      ensures data == UpdateItem(old(data), c, index, e) && currentStep == old(currentStep)
    {
      data := UpdateItem(data, c, index, e);
    }

    method Toggle(tag: string)
      modifies this
      ensures data == ToggleEmotionalTag(old(data), tag) && currentStep == old(currentStep)
    {
      data := ToggleEmotionalTag(data, tag);
    }
  }
}
