/** The learning center: lessons grouped by category, each category's
    share of finished lessons, the global progress over fifteen lessons,
    and the badge, button and colour shown for a lesson. */
module LearningCenter {
  import opened Numeric

  /** A lesson, reduced to what the rules read; `completion` is a percentage. */
  datatype Lesson = Lesson(id: string, difficulty: string, completion: real)

  /** The lesson catalogue by category key. */
  const Lessons: map<string, seq<Lesson>> := map[
    "recommended" := [Lesson("rec1", "Facile", 0.0), Lesson("rec2", "Moyen", 0.0), Lesson("rec3", "Facile", 25.0)],
    "fundamentals" := [Lesson("fund1", "Facile", 100.0), Lesson("fund2", "Facile", 75.0), Lesson("fund3", "Moyen", 0.0)],
    "advanced" := [Lesson("adv1", "Difficile", 0.0), Lesson("adv2", "Difficile", 0.0)],
    "psychology" := [Lesson("psy1", "Moyen", 50.0), Lesson("psy2", "Moyen", 0.0)]
  ]

  /** How many lessons are finished (completion exactly 100). */
  function CompletedCount(lessons: seq<Lesson>): (n: nat)
    ensures n <= |lessons|
  {
    if lessons == [] then 0
    else CompletedCount(lessons[..|lessons| - 1]) + (if lessons[|lessons| - 1].completion == 100.0 then 1 else 0)
  }

  predicate IsCompleted(l: Lesson) {
    l.completion == 100.0
  }

  /** The count is the length of the source's `filter(l => l.completion === 100)`. */
  lemma {:induction false} CompletedCountIsFilterLength(lessons: seq<Lesson>)
    ensures CompletedCount(lessons) == |IndicesWhere(lessons, IsCompleted)|
  {
    if lessons != [] {
      CompletedCountIsFilterLength(lessons[..|lessons| - 1]);
      IndicesWhereSnoc(lessons, IsCompleted);
    }
  }

  /** `calculateCategoryProgress`: the finished share of the category's
      lessons in percent; an unknown or empty category counts as 0. */
  function CategoryProgress(lessons: map<string, seq<Lesson>>, category: string): (p: real)
    ensures 0.0 <= p <= 100.0
    ensures (category !in lessons || lessons[category] == []) ==> p == 0.0
    ensures category in lessons && lessons[category] != [] ==>
      p * |lessons[category]| as real == CompletedCount(lessons[category]) as real * 100.0
  {
    var categoryLessons := if category in lessons then lessons[category] else [];
    var total := |categoryLessons|;
    if total > 0 then
      QuotientAtMostOne(CompletedCount(categoryLessons) as real, total as real);
      CompletedCount(categoryLessons) as real / total as real * 100.0
    else 0.0
  }

  /** A category is complete exactly when all its lessons are finished. */
  lemma {:induction false} AllCompletedIff(lessons: seq<Lesson>)
    ensures CompletedCount(lessons) == |lessons| <==> forall i :: 0 <= i < |lessons| ==> lessons[i].completion == 100.0
  {
    if lessons != [] {
      var init := lessons[..|lessons| - 1];
      AllCompletedIff(init);
      assert forall i :: 0 <= i < |init| ==> init[i] == lessons[i];
    }
  }

  /** Of the catalogue only "fundamentals" has a finished lesson: one of
      three, so a third of the bar; the other categories show 0. */
  lemma CatalogueProgress()
    ensures CategoryProgress(Lessons, "fundamentals") == 100.0 / 3.0
    ensures CategoryProgress(Lessons, "recommended") == 0.0
    ensures CategoryProgress(Lessons, "advanced") == 0.0
    ensures CategoryProgress(Lessons, "psychology") == 0.0
  {
    var f := Lessons["fundamentals"];
    assert f[..1][..0] == [] && f[..2][..1] == f[..1] && f[..|f| - 1] == f[..2];
    assert CompletedCount(f[..1]) == 1 && CompletedCount(f[..2]) == 1;
    var r := Lessons["recommended"];
    assert r[..1][..0] == [] && r[..2][..1] == r[..1] && r[..|r| - 1] == r[..2];
    assert CompletedCount(r[..1]) == 0 && CompletedCount(r[..2]) == 0;
    var a := Lessons["advanced"];
    assert a[..1][..0] == [] && a[..|a| - 1] == a[..1];
    assert CompletedCount(a[..1]) == 0;
    var p := Lessons["psychology"];
    assert p[..1][..0] == [] && p[..|p| - 1] == p[..1];
    assert CompletedCount(p[..1]) == 0;
  }

  // ---------------------------------------------------------------------
  // Global progress

  /** The number of lessons the global progress is measured against. */
  const TotalLessons: nat := 15

  /** The global bar: the completed lessons over fifteen, in percent. */
  function GlobalProgress(completed: set<string>): (p: real)
    ensures 0.0 <= p
    ensures |completed| <= TotalLessons ==> p <= 100.0
    ensures completed == {} ==> p == 0.0
  {
    |completed| as real / TotalLessons as real * 100.0
  }

  /** The label next to it: the same percentage rounded. */
  function GlobalProgressLabel(completed: set<string>): (n: int)
    ensures |completed| <= TotalLessons ==> 0 <= n <= 100
    ensures completed == {} ==> n == 0
  {
    RoundedPercentBounds(GlobalProgress(completed));
    Round(GlobalProgress(completed))
  }

  lemma RoundedPercentBounds(p: real)
    ensures 0.0 <= p ==> 0 <= Round(p)
    ensures p <= 100.0 ==> Round(p) <= 100
    ensures p == 0.0 ==> Round(p) == 0
  {
    RoundOfInteger(0);
    RoundOfInteger(100);
    if 0.0 <= p {
      RoundMonotone(0.0, p);
    }
    if p <= 100.0 {
      RoundMonotone(p, 100.0);
    }
  }

  // ---------------------------------------------------------------------
  // One lesson

  datatype Badge = InProgress | Completed

  /** The badges rendered beside a lesson's title, in order. */
  function Badges(completion: real): (b: seq<Badge>)
    ensures |b| <= 1
    ensures b == [Completed] <==> completion == 100.0
    ensures b == [InProgress] <==> 0.0 < completion < 100.0
  {
    var progress := if completion > 0.0 && completion < 100.0 then [InProgress] else [];
    var done := if completion == 100.0 then [Completed] else [];
    assert progress + [] == progress && [] + done == done;
    progress + done
  }

  datatype ButtonLabel = Review | Continue | Start

  /** The lesson's button: "Revoir", "Continuer" or "Commencer". */
  function Button(completion: real): (l: ButtonLabel)
    ensures l == Review <==> completion == 100.0
    ensures l == Start <==> completion <= 0.0
  {
    if completion == 100.0 then Review else if completion > 0.0 then Continue else Start
  }

  /** At most one badge is shown; for a completion within [0, 100] the
      button agrees with it: "Revoir" with "Complété", "Continuer" with
      "En cours", "Commencer" with no badge. Above 100 the button says
      "Continuer" although no badge is shown. */
  lemma BadgeAndButtonAgree(completion: real)
    ensures |Badges(completion)| <= 1
    ensures Button(completion) == Review <==> Badges(completion) == [Completed]
    ensures 0.0 <= completion <= 100.0 ==>
      (Button(completion) == Continue <==> Badges(completion) == [InProgress])
    ensures 0.0 <= completion <= 100.0 ==>
      (Button(completion) == Start <==> Badges(completion) == [] && completion == 0.0)
    ensures completion > 100.0 ==> Button(completion) == Continue && Badges(completion) == []
  {
    if completion == 100.0 {
      assert Badges(completion) == [] + [Completed];
    } else if 0.0 < completion < 100.0 {
      assert Badges(completion) == [InProgress] + [];
      assert Badges(completion)[0] != Completed;
    } else {
      assert Badges(completion) == [] + [];
    }
  }

  /** `getDifficultyColor`: a colour of its own for each of the three
      difficulties, the muted default for any other text. */
  function DifficultyColor(difficulty: string): (c: string)
    ensures c == "text-muted bg-muted/10" <==> difficulty !in {"Facile", "Moyen", "Difficile"}
  {
    match difficulty
    case "Facile" => "text-success bg-success/10"
    case "Moyen" => "text-warning bg-warning/10"
    case "Difficile" => "text-destructive bg-destructive/10"
    case _ => "text-muted bg-muted/10"
  }

  /** The three difficulties get three distinct colours, none of them the
      muted default that any other text gets. */
  lemma DifficultyColorsDistinct(d: string, e: string)
    requires d in {"Facile", "Moyen", "Difficile"} && e in {"Facile", "Moyen", "Difficile"}
    ensures DifficultyColor(d) == DifficultyColor(e) <==> d == e
    ensures DifficultyColor(d) != "text-muted bg-muted/10"
  {
  }
}
