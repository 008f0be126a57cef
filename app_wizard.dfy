/** The landing page's three-screen flow: ask a question, map one's
    finances, see the revelation. */
module AppWizard {
  import opened Wrappers
  import FinancialMapping

  datatype AppStep = Question | Mapping | Revelation

  /** What the page renders. */
  datatype Screen = QuestionScreen | MappingScreen | RevelationScreen | Blank

  /** The render conditions: the revelation screen also needs the data. */
  function Rendered(step: AppStep, financialData: Option<FinancialMapping.FinancialData>): (s: Screen)
    ensures s == RevelationScreen <==> step == Revelation && financialData.Some?
    ensures s == Blank <==> step == Revelation && financialData.None?
  {
    match step
    case Question => QuestionScreen
    case Mapping => MappingScreen
    case Revelation => if financialData.Some? then RevelationScreen else Blank
  }

  /** The page's state. */
  class Flow {
    var currentStep: AppStep
    var userQuestion: string
    var financialData: Option<FinancialMapping.FinancialData>

    /** The revelation step always has data, so the page is never blank. */
    predicate Valid()
      reads this
    {
      currentStep == Revelation ==> financialData.Some?
    }

    function Screen(): (s: Screen)
      reads this
      requires Valid()
      ensures s != Blank
    {
      Rendered(currentStep, financialData)
    }

    constructor ()
      ensures Valid()
      ensures currentStep == Question && userQuestion == "" && financialData == None
    {
      currentStep := Question;
      userQuestion := "";
      financialData := None;
    }

    /** `handleQuestionSubmit`: keep the question, go to the mapping. */
    method QuestionSubmit(question: string)
      requires Valid()
      modifies this
      ensures Valid()
      ensures currentStep == Mapping && userQuestion == question && financialData == old(financialData)
    {
      userQuestion := question;
      currentStep := Mapping;
    }

    /** `handleMappingSubmit`: keep the data, go to the revelation. */
    method MappingSubmit(data: FinancialMapping.FinancialData)
      requires Valid()
      modifies this
      ensures Valid()
      ensures currentStep == Revelation && financialData == Some(data) && userQuestion == old(userQuestion)
    {
      financialData := Some(data);
      currentStep := Revelation;
    }

    /** `handleBackToQuestion`: back to the question, which is cleared. */
    method BackToQuestion()
      requires Valid()
      modifies this
      ensures Valid()
      ensures currentStep == Question && userQuestion == "" && financialData == old(financialData)
    {
      currentStep := Question;
      userQuestion := "";
    }

    /** `handleBackToMapping`: back to the mapping, whose data is dropped. */
    method BackToMapping()
      requires Valid()
      modifies this
      ensures Valid()
      ensures currentStep == Mapping && financialData == None && userQuestion == old(userQuestion)
    {
      currentStep := Mapping;
      financialData := None;
    }
  }

  /** The whole forward path, and back, from any consistent state on the
      question screen: question, mapping, revelation, back to the mapping,
      back to the question, which ends with the question cleared and the
      data dropped whatever the flow held before. */
  method ForwardAndBack(flow: Flow, question: string, data: FinancialMapping.FinancialData)
    returns (screens: seq<Screen>)
    requires flow.Valid() && flow.currentStep == Question
    modifies flow
    ensures flow.Valid()
    ensures screens == [QuestionScreen, MappingScreen, RevelationScreen, MappingScreen, QuestionScreen]
    ensures flow.currentStep == Question && flow.userQuestion == "" && flow.financialData == None
  {
    screens := [flow.Screen()];
    flow.QuestionSubmit(question);
    screens := screens + [flow.Screen()];
    flow.MappingSubmit(data);
    screens := screens + [flow.Screen()];
    flow.BackToMapping();
    screens := screens + [flow.Screen()];
    flow.BackToQuestion();
    screens := screens + [flow.Screen()];
  }
}
