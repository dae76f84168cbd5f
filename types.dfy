/**
 * The records the questionnaire passes between its components (src/lib/types.ts),
 * and the statement lookup every component shares (`statements.find(s => s.id === id)`).
 */
module Types {

  datatype Option<+T> = None | Some(value: T) {
    function GetOr(default: T): T {
      match this
      case Some(v) => v
      case None => default
    }
  }

  datatype AnswerType = Scale | YesNo | Dropdown

  /** A dropdown choice (`label` in the source) with the points it is worth. */
  datatype DropdownOption = DropdownOption(caption: string, value: int)

  /** One scored question of the catalog; `dropdownOptions` is an optional property in the source. */
  datatype Statement = Statement(
    id: int,
    dimension: string,
    question: string,
    answerType: AnswerType,
    dropdownOptions: Option<seq<DropdownOption>>,
    interpretation: string)

  datatype Answer = Answer(statementId: int, value: int)

  datatype UserInfo = UserInfo(name: string, role: string, company: string, email: string)

  /** `score` holds a running sum while a fold accumulates and the mean once it is finalised. */
  datatype CategoryScore = CategoryScore(score: real, count: nat)

  /**
   * A JavaScript object keyed by category name. `order` is the order in which the keys were
   * inserted, which is the order `Object.keys` and `Object.entries` report them in.
   */
  datatype CategoryScores = CategoryScores(order: seq<string>, data: map<string, CategoryScore>) {
    /** Every JavaScript object has this shape: each key once, and `order` lists exactly the keys. */
    ghost predicate Valid() {
      && Distinct(order)
      && (forall k :: k in data <==> k in order)
    }
  }

  /** No element is listed twice. */
  ghost predicate Distinct(xs: seq<string>) {
    forall i, j :: 0 <= i < j < |xs| ==> xs[i] != xs[j]
  }

  const NoScores: CategoryScores := CategoryScores([], map[])

  /** What the feedback endpoint returns; the route fills all four fields. */
  datatype Feedback = Feedback(
    summary: string,
    keyObservation: string,
    firstThingToChange: string,
    watchOuts: string)

  datatype Submission = Submission(
    id: string,
    userInfo: UserInfo,
    answers: seq<Answer>,
    categoryScores: CategoryScores,
    timestamp: string)

  /** Index of the first statement with the given id, or |catalog| when there is none. */
  function FindIndex(catalog: seq<Statement>, id: int): (r: nat)
    ensures r <= |catalog|
    ensures forall j :: 0 <= j < r ==> catalog[j].id != id
    ensures r < |catalog| ==> catalog[r].id == id
  {
    if catalog == [] then 0
    else if catalog[0].id == id then 0
    else 1 + FindIndex(catalog[1..], id)
  }

  /** `statements.find((s) => s.id === id)`: the first statement with that id, if any. */
  function FindStatement(catalog: seq<Statement>, id: int): (r: Option<Statement>)
    ensures r.None? <==> forall j :: 0 <= j < |catalog| ==> catalog[j].id != id
    ensures r.Some? ==> r.value.id == id && r.value == catalog[FindIndex(catalog, id)]
  {
    var i := FindIndex(catalog, id);
    if i < |catalog| then Some(catalog[i]) else None
  }

  /** When several statements share an id, the lookup resolves to the earliest of them. */
  lemma DuplicateIdResolvesToFirst(catalog: seq<Statement>, i: nat, j: nat)
    requires i < j < |catalog| && catalog[i].id == catalog[j].id
    requires forall k :: 0 <= k < i ==> catalog[k].id != catalog[i].id
    ensures FindStatement(catalog, catalog[j].id) == Some(catalog[i])
  {}
}
