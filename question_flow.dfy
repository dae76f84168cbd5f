/**
 * The question flow (src/components/QuestionFlow.tsx): one statement of the catalog at a time,
 * the buttons that submit a value for it, and `handleAnswer`, which records the value for the
 * current statement and then either moves to the next statement or hands the whole list on.
 */
module QuestionFlow {
  import opened Types

  /** The values the buttons for a statement submit, in the order they are shown. */
  function AnswerOptions(s: Statement): (vs: seq<int>)
    ensures forall v :: v in vs <==>
      || (s.answerType == Scale && 1 <= v <= 5)
      || (s.answerType == YesNo && (v == 5 || v == 1))
      || (s.answerType == Dropdown && s.dropdownOptions.Some? &&
          exists i :: 0 <= i < |s.dropdownOptions.value| && s.dropdownOptions.value[i].value == v)
    ensures s.answerType == Scale ==> vs == [1, 2, 3, 4, 5]
    ensures s.answerType == YesNo ==> vs == [YesValue, NoValue]
    ensures s.answerType == Dropdown && s.dropdownOptions.Some? ==>
      && |vs| == |s.dropdownOptions.value|
      && forall i :: 0 <= i < |vs| ==> vs[i] == s.dropdownOptions.value[i].value
  {
    match s.answerType
    case Scale => [1, 2, 3, 4, 5]
    case YesNo => [YesValue, NoValue]
    case Dropdown =>
      match s.dropdownOptions
      case None => []
      case Some(options) =>
        var vs := seq(|options|, i requires 0 <= i < |options| => options[i].value);
        assert forall i :: 0 <= i < |options| ==> vs[i] == options[i].value && vs[i] in vs;
        vs
  }

  /** "Yes" is worth the top of the scale and "No" its bottom. */
  const YesValue := 5
  const NoValue := 1

  /** The state the component keeps: the statement shown, the answers so far, the highlighted value. */
  datatype FlowState = FlowState(currentIndex: nat, answers: seq<Answer>, selectedValue: Option<int>)

  /** The state when the component mounts. */
  const Start := FlowState(0, [], None)

  /**
   * `handleAnswer(value)` on the state `st`: the next state, and the list passed to `onComplete`
   * when it is called. The current statement must exist.
   *
   * One answer is appended, for the current statement and with the chosen value, and the
   * highlighted value is cleared. Before the last statement the index moves on by one and the
   * list is not handed on; on the last one the index stays and the full list is handed on.
   */
  function Answered(statements: seq<Statement>, st: FlowState, value: int): (r: (FlowState, Option<seq<Answer>>))
    requires st.currentIndex < |statements|
    ensures var (next, completed) := r;
      && |next.answers| == |st.answers| + 1
      && next.answers[..|st.answers|] == st.answers
      && next.answers[|st.answers|].statementId == statements[st.currentIndex].id
      && next.answers[|st.answers|].value == value
      && next.selectedValue.None?
      && (st.currentIndex < |statements| - 1 <==> completed.None?)
      && (completed.None? ==> next.currentIndex == st.currentIndex + 1)
      && (completed.Some? ==> next.currentIndex == st.currentIndex && completed.value == next.answers)
  {
    var updated := st.answers + [Answer(statements[st.currentIndex].id, value)];
    if st.currentIndex < |statements| - 1 then (FlowState(st.currentIndex + 1, updated, None), None)
    else (FlowState(st.currentIndex, updated, None), Some(updated))
  }

  /** While the questionnaire runs: one answer per statement before the current one, in catalog order. */
  ghost predicate InProgress(statements: seq<Statement>, st: FlowState) {
    && st.currentIndex < |statements|
    && |st.answers| == st.currentIndex
    && (forall k :: 0 <= k < |st.answers| ==> st.answers[k].statementId == statements[k].id)
  }

  /** The answers that the chosen values make, one per statement in catalog order. */
  function Recorded(statements: seq<Statement>, values: seq<int>): seq<Answer>
    requires |values| <= |statements|
  {
    seq(|values|, k requires 0 <= k < |values| => Answer(statements[k].id, values[k]))
  }

  /**
   * The state after the values are chosen one after the other from the start, and the list handed
   * to `onComplete` by the last of them, if it was handed on.
   */
  function Replay(statements: seq<Statement>, values: seq<int>): (FlowState, Option<seq<Answer>>)
    requires 0 < |values| <= |statements|
  {
    if |values| == 1 then Answered(statements, Start, values[0])
    else
      var before := Replay(statements, values[..|values| - 1]);
      if before.0.currentIndex < |statements| then Answered(statements, before.0, values[|values| - 1])
      else before
  }

  // ---------------------------------------------------------------------------------------
  // Properties of one step

  /** A step before the last keeps the questionnaire in progress. */
  lemma InProgressPreserved(statements: seq<Statement>, st: FlowState, value: int)
    requires InProgress(statements, st)
    ensures var (next, completed) := Answered(statements, st, value);
      completed.None? ==> InProgress(statements, next)
  {
    var (next, completed) := Answered(statements, st, value);
    if completed.None? {
      forall k | 0 <= k < |next.answers| ensures next.answers[k].statementId == statements[k].id {
        if k < |st.answers| {
          assert next.answers[k] == st.answers[k];
        }
      }
    }
  }

  /** The last step of a questionnaire in progress hands on one answer per statement, in catalog order. */
  lemma CompletionCoversCatalog(statements: seq<Statement>, st: FlowState, value: int)
    requires InProgress(statements, st)
    ensures var (next, completed) := Answered(statements, st, value);
      completed.Some? ==>
        && |completed.value| == |statements|
        && forall k :: 0 <= k < |statements| ==> completed.value[k].statementId == statements[k].id
  {
    var (next, completed) := Answered(statements, st, value);
    if completed.Some? {
      forall k | 0 <= k < |statements| ensures completed.value[k].statementId == statements[k].id {
        if k < |st.answers| {
          assert completed.value[k] == st.answers[k];
        }
      }
    }
  }

  // ---------------------------------------------------------------------------------------
  // Properties of a whole run

  /**
   * Choosing fewer values than there are statements leaves the questionnaire in progress at the
   * statement after the last one answered, with the answers those values make; nothing is handed on.
   */
  lemma {:induction false} RunInProgress(statements: seq<Statement>, values: seq<int>)
    requires 0 < |values| < |statements|
    ensures Replay(statements, values) == (FlowState(|values|, Recorded(statements, values), None), None)
    ensures InProgress(statements, Replay(statements, values).0)
  {
    if |values| == 1 {
      assert Recorded(statements, values) == Start.answers + [Answer(statements[0].id, values[0])];
    } else {
      var init := values[..|values| - 1];
      RunInProgress(statements, init);
      assert Recorded(statements, init) + [Answer(statements[|init|].id, values[|init|])] == Recorded(statements, values);
    }
  }

  /**
   * Choosing one value per statement hands on exactly the answers those values make, in catalog
   * order, and leaves the last statement on screen.
   */
  lemma RunCompletes(statements: seq<Statement>, values: seq<int>)
    requires 0 < |values| == |statements|
    ensures Replay(statements, values) ==
      (FlowState(|statements| - 1, Recorded(statements, values), None), Some(Recorded(statements, values)))
  {
    if |values| > 1 {
      var init := values[..|values| - 1];
      RunInProgress(statements, init);
      assert Recorded(statements, init) + [Answer(statements[|init|].id, values[|init|])] == Recorded(statements, values);
    } else {
      assert Recorded(statements, values) == Start.answers + [Answer(statements[0].id, values[0])];
    }
  }

  /** Every value a scale or yes/no button submits is on the scale from 1 to 5. */
  lemma FixedButtonsOnScale(s: Statement)
    requires s.answerType != Dropdown
    ensures forall i :: 0 <= i < |AnswerOptions(s)| ==> 1 <= AnswerOptions(s)[i] <= 5
  {
    var vs := AnswerOptions(s);
    forall i | 0 <= i < |vs| ensures 1 <= vs[i] <= 5 {
      assert vs[i] in vs;
    }
  }

  // ---------------------------------------------------------------------------------------
  // The component

  class Flow {
    /** The catalog, fixed for the component's lifetime. */
    const statements: seq<Statement>
    var currentIndex: nat
    var answers: seq<Answer>
    var selectedValue: Option<int>

    function State(): FlowState
      reads this
    {
      FlowState(currentIndex, answers, selectedValue)
    }

    /** The component as mounted: the first statement, no answers, nothing highlighted. */
    constructor(catalog: seq<Statement>)
      ensures statements == catalog && State() == Start
    {
      statements := catalog;
      currentIndex := 0;
      answers := [];
      selectedValue := None;
    }

    /**
     * `handleAnswer(value)`; `completed` is the list passed to `onComplete`, when it is called.
     * The current statement must exist: the handler reads its id.
     */
    method HandleAnswer(value: int) returns (completed: Option<seq<Answer>>)
      requires currentIndex < |statements|
      modifies this
      ensures answers == old(answers) + [Answer(statements[old(currentIndex)].id, value)]
      ensures selectedValue.None?
      ensures old(currentIndex) < |statements| - 1 ==> currentIndex == old(currentIndex) + 1 && completed.None?
      ensures old(currentIndex) == |statements| - 1 ==> currentIndex == old(currentIndex) && completed == Some(answers)
      ensures (State(), completed) == Answered(statements, old(State()), value)
    {
      var newAnswer := Answer(statements[currentIndex].id, value);
      var updatedAnswers := answers + [newAnswer];
      answers := updatedAnswers;
      selectedValue := None;
      if currentIndex < |statements| - 1 {
        currentIndex := currentIndex + 1;
        completed := None;
      } else {
        completed := Some(updatedAnswers);
      }
    }
  }
}
