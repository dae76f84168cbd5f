/**
 * The diagnostic page (src/app/diagnostic/page.tsx): the steps user info, questions, email and
 * results, with the state each handler sets. The two requests the email handler makes are given
 * as their outcome: the feedback request either throws or yields the feedback; the outcome of
 * the request that saves the submission changes nothing on the page.
 */
module DiagnosticPage {
  import opened Types
  import ScoreUtils
  import FeedbackRoute

  datatype Step = UserInfoStep | Questions | EmailStep | Results

  /** The outcome of the request to the feedback endpoint: it throws, or its body is read. */
  datatype FeedbackCall = FeedbackThrew | FeedbackReceived(feedback: Feedback)

  /** What the page shows. */
  datatype View =
    | UserInfoView
    | QuestionsView(userName: string)
    | EmailView(isLoading: bool)
    | ResultsView(feedback: Feedback)
    | Blank

  /** `userInfo.name || 'there'`: the name the question flow greets, never empty. */
  function GreetingName(userInfo: Option<UserInfo>): (name: string)
    ensures name != []
    ensures userInfo.Some? && userInfo.value.name != [] ==> name == userInfo.value.name
    ensures userInfo.None? || userInfo.value.name == [] ==> name == "there"
  {
    if userInfo.Some? && userInfo.value.name != "" then userInfo.value.name else "there"
  }

  /**
   * The page's markup: one view per step, except that the results step shows nothing until
   * there is feedback.
   */
  function Render(step: Step, userInfo: Option<UserInfo>, feedback: Option<Feedback>, isLoading: bool): (v: View)
    ensures v.Blank? <==> step == Results && feedback.None?
    ensures v.ResultsView? <==> step == Results && feedback.Some?
    ensures v.ResultsView? ==> v.feedback == feedback.value
    ensures v.QuestionsView? <==> step == Questions
    ensures v.QuestionsView? ==> v.userName != []
    ensures v.EmailView? <==> step == EmailStep
  {
    match step
    case UserInfoStep => UserInfoView
    case Questions => QuestionsView(GreetingName(userInfo))
    case EmailStep => EmailView(isLoading)
    case Results => if feedback.Some? then ResultsView(feedback.value) else Blank
  }

  class Page {
    var step: Step
    /** `{}` until the first form is submitted. */
    var userInfo: Option<UserInfo>
    var answers: seq<Answer>
    var categoryScores: CategoryScores
    var feedback: Option<Feedback>
    var isLoading: bool

    /**
     * What holds between handlers: the scores form a dictionary, the user info is known from the
     * questions step on, there is no feedback before the results step, and nothing is loading.
     */
    ghost predicate Valid()
      reads this
    {
      && categoryScores.Valid()
      && (step != UserInfoStep ==> userInfo.Some?)
      && (step != Results ==> feedback.None?)
      && !isLoading
    }

    /** The page as first rendered. */
    constructor()
      ensures step == UserInfoStep && userInfo.None? && answers == [] && categoryScores == NoScores
      ensures feedback.None? && !isLoading
      ensures Valid()
    {
      step := UserInfoStep;
      userInfo := None;
      answers := [];
      categoryScores := NoScores;
      feedback := None;
      isLoading := false;
    }

    /** `handleUserInfoSubmit`, wired to the form shown at the first step. */
    method HandleUserInfoSubmit(info: UserInfo)
      requires Valid() && step == UserInfoStep
      modifies this
      ensures userInfo == Some(info) && step == Questions
      ensures answers == old(answers) && categoryScores == old(categoryScores)
      ensures feedback == old(feedback) && isLoading == old(isLoading)
      ensures Valid()
    {
      userInfo := Some(info);
      step := Questions;
    }

    /** `handleQuestionsComplete`, wired to the question flow shown at the second step. */
    method HandleQuestionsComplete(completedAnswers: seq<Answer>)
      requires Valid() && step == Questions
      modifies this
      ensures answers == completedAnswers && step == EmailStep
      ensures userInfo == old(userInfo) && categoryScores == old(categoryScores)
      ensures feedback == old(feedback) && isLoading == old(isLoading)
      ensures Valid()
    {
      answers := completedAnswers;
      step := EmailStep;
    }

    /**
     * `handleEmailSubmit`, wired to the email form shown at the third step. `request` is the body
     * posted for feedback and `saved` the submission posted for saving, when that request is made;
     * `id` and `timestamp` are what `generateId` and the clock give.
     */
    method HandleEmailSubmit(email: string, catalog: seq<Statement>, call: FeedbackCall, id: string, timestamp: string)
      returns (request: FeedbackRoute.RequestBody, saved: Option<Submission>)
      requires Valid() && step == EmailStep
      modifies this
      ensures userInfo == Some(old(userInfo).value.(email := email))
      ensures answers == old(answers)
      ensures categoryScores.order == ScoreUtils.DimensionsOf(catalog, answers)
      ensures categoryScores.data == ScoreUtils.MeanScores(catalog, answers)
      ensures request == FeedbackRoute.Body(userInfo.value, answers, categoryScores)
      ensures call.FeedbackThrew? ==> feedback.None? && saved.None?
      ensures call.FeedbackReceived? ==>
        feedback == Some(call.feedback) && saved == Some(Submission(id, userInfo.value, answers, categoryScores, timestamp))
      ensures step == Results && !isLoading
      ensures Valid()
    {
      isLoading := true;
      var fullUserInfo := userInfo.value.(email := email);
      userInfo := Some(fullUserInfo);
      var scores := ScoreUtils.CalculateCategoryScores(catalog, answers);
      categoryScores := scores;
      request := FeedbackRoute.Body(fullUserInfo, answers, scores);
      saved := None;
      match call {
        case FeedbackThrew =>
        case FeedbackReceived(f) =>
          feedback := Some(f);
          saved := Some(Submission(id, fullUserInfo, answers, scores, timestamp));
      }
      isLoading := false;
      step := Results;
    }

    /** What the page shows now. */
    function View(): View
      reads this
    {
      Render(step, userInfo, feedback, isLoading)
    }
  }
}
