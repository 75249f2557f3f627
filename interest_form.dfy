/** The onboarding survey: four questions answered one step at a time, then saved together as
    the user's filters, which marks the user as segmented. */
module InterestForm {
  import opened Common
  import opened Types

  /** The number of questions; the steps are numbered 0 to `QuestionCount - 1`. */
  const QuestionCount: nat := 4

  const NoUser := "Usuario no encontrado. Por favor, inicia sesión nuevamente."
  const Unanswered := "Por favor, responde todas las preguntas antes de continuar."
  const InvalidUser := "Error: Usuario no válido. Por favor, inicia sesión nuevamente."
  const SaveErrorPrefix := "Error al guardar las respuestas: "
  const UnknownError := "Error desconocido"
  const SaveThrew := "Ocurrió un error inesperado. Por favor, intenta nuevamente."

  /** `isStepValid`: the answer of the current step is not blank after trimming. */
  predicate StepValid(answers: seq<string>, step: int)
    requires 0 <= step < |answers|
  {
    !IsBlank(answers[step])
  }

  /** Every answer is non-blank after trimming (`answers.every(...)`). */
  predicate AllAnswered(answers: seq<string>) {
    forall i :: 0 <= i < |answers| ==> !IsBlank(answers[i])
  }

  /** Every answer is given exactly when every step, taken in turn, would let the survey move on. */
  lemma AllAnsweredIffEveryStepValid(answers: seq<string>)
    ensures AllAnswered(answers) <==> forall i :: 0 <= i < |answers| ==> StepValid(answers, i)
  {
    forall i | 0 <= i < |answers|
      ensures StepValid(answers, i) <==> !IsBlank(answers[i])
    {
    }
  }

  /** The Next button is enabled exactly when the step is valid and no save is running. */
  function NextEnabled(answers: seq<string>, step: int, loading: bool): (enabled: bool)
    requires 0 <= step < |answers|
    ensures enabled <==> StepValid(answers, step) && !loading
  {
    StepValid(answers, step) && !loading
  }

  /** The saved filters: answer `i` goes to column `question_{i+1}`. */
  function FiltersOf(answers: seq<string>): UserFilters
    requires |answers| == QuestionCount
  {
    UserFilters(answers[0], answers[1], answers[2], answers[3])
  }

  /** The four answers a filters row holds, in question order. */
  function AnswersOf(f: UserFilters): (answers: seq<string>)
    ensures |answers| == QuestionCount
  {
    [f.question1, f.question2, f.question3, f.question4]
  }

  /** Saving and reading back the filters gives the answers in their order, and the other way
      round: no answer is lost, moved or merged. */
  lemma FiltersRoundTrip(answers: seq<string>, f: UserFilters)
    requires |answers| == QuestionCount
    ensures AnswersOf(FiltersOf(answers)) == answers
    ensures FiltersOf(AnswersOf(f)) == f
  {
    assert AnswersOf(FiltersOf(answers))[..] == answers[..];
  }

  /** The message a failed save shows: the backend's message, or a stand-in when it is empty. */
  function SaveErrorMessage(message: string): (msg: string)
    ensures message != "" ==> msg == SaveErrorPrefix + message
    ensures message == "" ==> msg == SaveErrorPrefix + UnknownError
    ensures StartsWith(msg, SaveErrorPrefix)
  {
    SaveErrorPrefix + (if message != "" then message else UnknownError)
  }

  /** The message of the first of the two guards that run before the save starts: the user,
      then every answer. `None` when both pass. */
  function Rejection(user: Option<User>, answers: seq<string>): (msg: Option<string>)
    ensures msg.None? <==> user.Some? && AllAnswered(answers)
    ensures user.None? ==> msg == Some(NoUser)
    ensures user.Some? && !AllAnswered(answers) ==> msg == Some(Unanswered)
  {
    if user.None? then Some(NoUser)
    else if !AllAnswered(answers) then Some(Unanswered)
    else None
  }

  /** The user after a successful save: the same user with the filters set and marked as
      segmented. */
  function Segmented(user: User, answers: seq<string>): (u: User)
    requires |answers| == QuestionCount
    ensures u.hasCompletedSegmentation && u.filters == Some(FiltersOf(answers))
    ensures u.id == user.id && u.email == user.email && u.createdAt == user.createdAt
  {
    user.(filters := Some(FiltersOf(answers)), hasCompletedSegmentation := true)
  }

  class SurveyForm {
    var currentStep: int
    var answers: seq<string>
    var loading: bool
    var error: string

    /** The step stays on a question and there is one answer per question. */
    predicate Valid()
      reads this
    {
      0 <= currentStep < QuestionCount && |answers| == QuestionCount
    }

    constructor ()
      ensures Valid() && currentStep == 0 && answers == ["", "", "", ""]
      ensures !loading && error == ""
    {
      currentStep, answers, loading, error := 0, ["", "", "", ""], false, "";
    }

    /** `handleOptionSelect`: the answer of the current step, and only it, becomes `option`;
        the error is cleared. */
    method HandleOptionSelect(option: string)
      requires Valid()
      modifies this`answers, this`error
      ensures Valid()
      ensures answers == old(answers)[currentStep := option] && error == ""
      ensures StepValid(answers, currentStep) <==> !IsBlank(option)
    {
      var newAnswers := answers;
      newAnswers := newAnswers[currentStep := option];
      answers := newAnswers;
      error := "";
    }

    /** `handleNext`: moves on to the next question, or submits on the last one. `updated`
        is the user handed to `updateUser`, if any. */
    method HandleNext(user: Option<User>, outcome: Backend) returns (updated: Option<User>)
      requires Valid()
      modifies this
      ensures Valid() && answers == old(answers)
      ensures old(currentStep) < QuestionCount - 1 ==>
        currentStep == old(currentStep) + 1 && updated.None?
        && loading == old(loading) && error == old(error)
      ensures old(currentStep) == QuestionCount - 1 ==> currentStep == old(currentStep)
      ensures old(currentStep) == QuestionCount - 1 && Rejection(user, answers).Some? ==>
        error == Rejection(user, answers).value && loading == old(loading) && updated.None?
      ensures old(currentStep) == QuestionCount - 1 && Rejection(user, answers).None? && user.value.id == "" ==>
        error == InvalidUser && !loading && updated.None?
      ensures old(currentStep) == QuestionCount - 1 && Rejection(user, answers).None? && user.value.id != "" ==>
        && !loading
        && (updated.Some? <==> outcome.Succeeded?)
        && (outcome.Succeeded? ==> error == "" && updated == Some(Segmented(user.value, answers)))
        && (outcome.Failed? ==> error == SaveErrorMessage(outcome.message))
        && (outcome.Threw? ==> error == SaveThrew)
      ensures updated.Some? ==> old(currentStep) == QuestionCount - 1 && AllAnswered(answers)
    {
      if currentStep < QuestionCount - 1 {
        currentStep := currentStep + 1;
        updated := None;
      } else {
        updated := Submit(user, outcome);
      }
    }

    /** `handleSubmit`, with the user and the backend's answer to `saveUserFilters` as
        parameters. `updated` is the user handed to `updateUser`, if the save succeeded. */
    method Submit(user: Option<User>, outcome: Backend) returns (updated: Option<User>)
      requires Valid()
      modifies this`loading, this`error
      ensures Valid()
      ensures Rejection(user, answers).Some? ==>
        error == Rejection(user, answers).value && loading == old(loading) && updated.None?
      ensures Rejection(user, answers).None? && user.value.id == "" ==>
        error == InvalidUser && !loading && updated.None?
      ensures Rejection(user, answers).None? && user.value.id != "" ==>
        && !loading
        && (updated.Some? <==> outcome.Succeeded?)
        && (outcome.Succeeded? ==> error == "" && updated == Some(Segmented(user.value, answers)))
        && (outcome.Failed? ==> error == SaveErrorMessage(outcome.message))
        && (outcome.Threw? ==> error == SaveThrew)
    {
      updated := None;
      var rejection := Rejection(user, answers);
      if rejection.Some? {
        error := rejection.value;
        return;
      }
      loading := true;
      error := "";
      if user.value.id == "" {
        error := InvalidUser;
        loading := false;
        return;
      }
      match outcome {
        case Failed(message) => error := SaveErrorMessage(message);
        case Threw(_) => error := SaveThrew;
        case Succeeded => updated := Some(Segmented(user.value, answers));
      }
      loading := false;
    }
  }
}
