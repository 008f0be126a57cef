/** The question form: a free-text question or one of the example
    questions, and the rule that decides what is submitted and when the
    submit button is enabled. */
module QuestionInput {
  import opened Wrappers
  import opened Text

  const DefaultExamples: seq<string> := [
    "Pourquoi j'ai toujours -200€ en fin de mois ?",
    "Puis-je vraiment m'acheter une voiture électrique ?",
    "Quel est l'impact de mes cafés quotidiens sur mon budget ?",
    "Comment optimiser mes dépenses pour épargner 500€/mois ?"
  ]

  /** A selected example counts only when it is a non-empty string (null
      and "" are both falsy). */
  predicate Selected(selectedExample: Option<string>) {
    selectedExample.Some? && selectedExample.value != ""
  }

  /** `handleSubmit`: what `onSubmit` receives, if it is called at all. */
  function Submission(question: string, selectedExample: Option<string>): (r: Option<string>)
    ensures r.Some? <==> Trim(question) != "" || Selected(selectedExample)
    ensures Selected(selectedExample) ==> r == Some(selectedExample.value)
    ensures !Selected(selectedExample) && r.Some? ==> r.value == Trim(question) && r.value != ""
  {
    if Trim(question) != "" || Selected(selectedExample) then
      Some(if Selected(selectedExample) then selectedExample.value else Trim(question))
    else None
  }

  /** The submit button's `disabled` attribute. */
  predicate SubmitDisabled(question: string, selectedExample: Option<string>) {
    Trim(question) == "" && !Selected(selectedExample)
  }

  /** The button is disabled exactly when submitting would do nothing, and
      a question of white space alone, with no example, is never submitted. */
  lemma DisabledIffNothingSubmitted(question: string, selectedExample: Option<string>)
    ensures SubmitDisabled(question, selectedExample) <==> Submission(question, selectedExample).None?
    ensures !Selected(selectedExample) && (forall i :: 0 <= i < |question| ==> IsWhitespace(question[i])) ==>
      Submission(question, selectedExample).None?
  {
    TrimEmptyIff(question);
  }

  /** The form's state. */
  class Form {
    var question: string
    var selectedExample: Option<string>

    constructor ()
      ensures question == "" && selectedExample == None
    {
      question := "";
      selectedExample := None;
    }

    /** Submitting changes no state and reports what `onSubmit` receives. */
    method HandleSubmit() returns (submitted: Option<string>)
      ensures submitted == Submission(question, selectedExample)
      ensures submitted.None? <==> SubmitDisabled(question, selectedExample)
    {
      DisabledIffNothingSubmitted(question, selectedExample);
      if Trim(question) != "" || Selected(selectedExample) {
        if Selected(selectedExample) {
          submitted := Some(selectedExample.value);
        } else {
          submitted := Some(Trim(question));
        }
      } else {
        submitted := None;
      }
    }

    /** `handleExampleClick`: the example becomes both the selection and the text. */
    method HandleExampleClick(example: string)
      modifies this
      ensures selectedExample == Some(example) && question == example
      ensures example != "" ==> Submission(question, selectedExample) == Some(example)
    {
      selectedExample := Some(example);
      question := example;
    }

    /** Typing replaces the text and drops the selected example. */
    method HandleInputChange(value: string)
      modifies this
      ensures question == value && selectedExample == None
      ensures Submission(question, selectedExample) == (if Trim(value) != "" then Some(Trim(value)) else None)
    {
      question := value;
      selectedExample := None;
    }
  }

  /** Whatever the form held, editing a clicked example submits the edited
      text, not the example, and nothing when the edit is blank. */
  method ClickThenEdit(form: Form, example: string, edited: string) returns (submitted: Option<string>)
    modifies form
    ensures form.question == edited && form.selectedExample == None
    ensures submitted == (if Trim(edited) != "" then Some(Trim(edited)) else None)
  {
    form.HandleExampleClick(example);
    form.HandleInputChange(edited);
    submitted := form.HandleSubmit();
  }
}
