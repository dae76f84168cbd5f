/**
 * Per-dimension scoring of one questionnaire (src/lib/utils.ts, `calculateCategoryScores`).
 *
 * The reference definitions `ValuesFor`, `DimensionsOf` and `MeanScores` say what the scores
 * mean: for each dimension that some answer resolves to, the arithmetic mean of the values of
 * the answers filed under it and how many there are. The method folds the answers into a
 * dictionary exactly as the source does and is proved to produce that.
 */
module ScoreUtils {
  import opened Types

  /** The dimension an answer is filed under: that of the first catalog statement with its id. */
  function DimensionOf(catalog: seq<Statement>, a: Answer): Option<string> {
    match FindStatement(catalog, a.statementId)
    case None => None
    case Some(s) => Some(s.dimension)
  }

  /** The values of the answers filed under dimension `d`, in answer order. */
  function ValuesFor(catalog: seq<Statement>, answers: seq<Answer>, d: string): seq<int>
    decreases |answers|
  {
    if answers == [] then []
    else
      var last := answers[|answers| - 1];
      ValuesFor(catalog, answers[..|answers| - 1], d)
        + (if DimensionOf(catalog, last) == Some(d) then [last.value] else [])
  }

  function Sum(xs: seq<int>): int {
    if xs == [] then 0 else Sum(xs[..|xs| - 1]) + xs[|xs| - 1]
  }

  /** The dimensions some answer resolves to, each once, in order of first appearance. */
  function DimensionsOf(catalog: seq<Statement>, answers: seq<Answer>): (dims: seq<string>)
    ensures forall d :: d in dims <==> ValuesFor(catalog, answers, d) != []
    decreases |answers|
  {
    if answers == [] then []
    else
      var prev := DimensionsOf(catalog, answers[..|answers| - 1]);
      match DimensionOf(catalog, answers[|answers| - 1])
      case None => prev
      case Some(d) => if d in prev then prev else prev + [d]
  }

  /** No dimension is listed twice. */
  lemma {:induction false} DimensionsDistinct(catalog: seq<Statement>, answers: seq<Answer>)
    ensures Distinct(DimensionsOf(catalog, answers))
    decreases |answers|
  {
    if answers != [] {
      var prefix := answers[..|answers| - 1];
      DimensionsDistinct(catalog, prefix);
      var prev := DimensionsOf(catalog, prefix);
      match DimensionOf(catalog, answers[|answers| - 1]) {
        case None =>
          assert DimensionsOf(catalog, answers) == prev;
        case Some(d) =>
          if d !in prev {
            var dims := prev + [d];
            assert DimensionsOf(catalog, answers) == dims;
            forall i, j | 0 <= i < j < |dims| ensures dims[i] != dims[j] {
              assert dims[i] == prev[i] && prev[i] in prev;
              if j < |prev| {
                assert dims[j] == prev[j];
              }
            }
          } else {
            assert DimensionsOf(catalog, answers) == prev;
          }
      }
    }
  }

  /** Each resolved dimension mapped to the mean of its values and their number. */
  function MeanScores(catalog: seq<Statement>, answers: seq<Answer>): (m: map<string, CategoryScore>)
    ensures forall d :: d in m ==> m[d].count >= 1
  {
    map d | d in DimensionsOf(catalog, answers) ::
      var vs := ValuesFor(catalog, answers, d);
      CategoryScore(Sum(vs) as real / |vs| as real, |vs|)
  }

  /** A sum turned into a mean: the `score / count` step of finalisation. */
  function Average(e: CategoryScore): CategoryScore
    requires e.count > 0
  {
    CategoryScore(e.score / e.count as real, e.count)
  }

  /**
   * The second loop of `calculateCategoryScores` (and of the admin page's `calculateAverages`):
   * every entry's accumulated sum is replaced by the sum divided by the count, keys and their
   * order untouched.
   */
  method Finalize(totals: CategoryScores) returns (scores: CategoryScores)
    requires totals.Valid()
    requires forall k :: k in totals.data ==> totals.data[k].count > 0
    ensures scores.Valid() && scores.order == totals.order
    ensures scores.data.Keys == totals.data.Keys
    ensures forall k :: k in scores.data ==> scores.data[k] == Average(totals.data[k])
  {
    var data := totals.data;
    for j := 0 to |totals.order|
      invariant data.Keys == totals.data.Keys
      invariant forall k :: k in data ==>
        data[k] == if k in totals.order[..j] then Average(totals.data[k]) else totals.data[k]
    {
      var category := totals.order[j];
      assert category !in totals.order[..j];
      data := data[category := CategoryScore(data[category].score / data[category].count as real, data[category].count)];
    }
    scores := CategoryScores(totals.order, data);
  }

  /**
   * The `forEach` callback of `calculateCategoryScores`: look the answer's statement up and, if
   * it exists, add the value to its dimension's sum and one to its count, creating the entry
   * `{score: 0, count: 0}` first when the dimension is new. `seen` stands for the answers
   * already folded.
   */
  method FoldAnswer(catalog: seq<Statement>, order: seq<string>, data: map<string, CategoryScore>,
                    answer: Answer, ghost seen: seq<Answer>)
    returns (order': seq<string>, data': map<string, CategoryScore>)
    requires order == DimensionsOf(catalog, seen)
    requires forall k :: k in data <==> k in order
    requires Accumulated(catalog, seen, data)
    ensures order' == DimensionsOf(catalog, seen + [answer])
    ensures forall k :: k in data' <==> k in order'
    ensures Accumulated(catalog, seen + [answer], data')
  {
    order', data' := order, data;
    var statement := FindStatement(catalog, answer.statementId);
    if statement.Some? {
      var category := statement.value.dimension;
      if category !in data' {
        data' := data'[category := CategoryScore(0.0, 0)];
        order' := order' + [category];
      }
      ghost var created := data';
      data' := data'[category := CategoryScore(data'[category].score + answer.value as real, data'[category].count + 1)];
      AnswerFiled(catalog, order, data, answer, seen, category, created, order', data');
    } else {
      UnknownAnswerFolded(catalog, order, data, answer, seen);
    }
  }

  /** The proof of `FoldAnswer` when the answer's statement exists, about what it produces. */
  lemma AnswerFiled(catalog: seq<Statement>, order: seq<string>, data: map<string, CategoryScore>,
                    answer: Answer, seen: seq<Answer>, category: string,
                    created: map<string, CategoryScore>, order': seq<string>, data': map<string, CategoryScore>)
    requires order == DimensionsOf(catalog, seen)
    requires forall k :: k in data <==> k in order
    requires Accumulated(catalog, seen, data)
    requires DimensionOf(catalog, answer) == Some(category)
    requires created == if category in data then data else data[category := CategoryScore(0.0, 0)]
    requires order' == if category in data then order else order + [category]
    requires data' == created[category := CategoryScore(created[category].score + answer.value as real, created[category].count + 1)]
    ensures order' == DimensionsOf(catalog, seen + [answer])
    ensures forall k :: k in data' <==> k in order'
    ensures Accumulated(catalog, seen + [answer], data')
  {
    var next := seen + [answer];
    assert next[..|seen|] == seen;
    assert DimensionsOf(catalog, next) == if category in order then order else order + [category];
    if category !in data {
      assert ValuesFor(catalog, seen, category) == [];
    }
    FiledTotals(catalog, seen, answer, category, data, created, data');
  }

  /** The totals after the answer is filed under `category`. */
  lemma FiledTotals(catalog: seq<Statement>, seen: seq<Answer>, answer: Answer, category: string,
                    data: map<string, CategoryScore>, created: map<string, CategoryScore>, data': map<string, CategoryScore>)
    requires Accumulated(catalog, seen, data)
    requires DimensionOf(catalog, answer) == Some(category)
    requires category !in data ==> ValuesFor(catalog, seen, category) == []
    requires created == if category in data then data else data[category := CategoryScore(0.0, 0)]
    requires data' == created[category := CategoryScore(created[category].score + answer.value as real, created[category].count + 1)]
    ensures Accumulated(catalog, seen + [answer], data')
  {
    var next := seen + [answer];
    var vs := ValuesFor(catalog, seen, category);
    assert created[category] == CategoryScore(Sum(vs) as real, |vs|);
    forall k | k in data'
      ensures data'[k] == CategoryScore(Sum(ValuesFor(catalog, next, k)) as real, |ValuesFor(catalog, next, k)|)
    {
      NextValues(catalog, seen, answer, category, k);
      if k == category {
        var v := answer.value;
        assert Sum(vs + [v]) == Sum(vs) + v by {
          assert (vs + [v])[..|vs|] == vs;
        }
        assert data'[k] == CategoryScore(Sum(vs) as real + v as real, |vs| + 1);
      } else {
        assert k in data && data'[k] == data[k];
      }
    }
  }

  /** Filing one more answer under `category` appends its value there and nowhere else. */
  lemma NextValues(catalog: seq<Statement>, seen: seq<Answer>, answer: Answer, category: string, k: string)
    requires DimensionOf(catalog, answer) == Some(category)
    ensures k == category ==> ValuesFor(catalog, seen + [answer], k) == ValuesFor(catalog, seen, k) + [answer.value]
    ensures k != category ==> ValuesFor(catalog, seen + [answer], k) == ValuesFor(catalog, seen, k)
  {
    assert (seen + [answer])[..|seen|] == seen;
  }

  /** The proof of `FoldAnswer` when the answer's statement does not exist: nothing changes. */
  lemma UnknownAnswerFolded(catalog: seq<Statement>, order: seq<string>, data: map<string, CategoryScore>,
                            answer: Answer, seen: seq<Answer>)
    requires order == DimensionsOf(catalog, seen)
    requires Accumulated(catalog, seen, data)
    requires FindStatement(catalog, answer.statementId).None?
    ensures order == DimensionsOf(catalog, seen + [answer])
    ensures Accumulated(catalog, seen + [answer], data)
  {
    var next := seen + [answer];
    assert next[..|seen|] == seen;
    assert DimensionOf(catalog, answer) == None;
    forall k | k in data
      ensures data[k] == CategoryScore(Sum(ValuesFor(catalog, next, k)) as real, |ValuesFor(catalog, next, k)|)
    {
      assert ValuesFor(catalog, next, k) == ValuesFor(catalog, seen, k);
    }
  }

  /**
   * `calculateCategoryScores`: the answers folded into a dictionary of sums and counts, then
   * finalised into means. The result has exactly the reference dimensions, in the order they were
   * first met, each mapped to its mean and its number of answers.
   */
  method CalculateCategoryScores(catalog: seq<Statement>, answers: seq<Answer>) returns (scores: CategoryScores)
    ensures scores.Valid()
    ensures scores.order == DimensionsOf(catalog, answers)
    ensures scores.data == MeanScores(catalog, answers)
  {
    var order: seq<string> := [];
    var data: map<string, CategoryScore> := map[];
    for i := 0 to |answers|
      invariant order == DimensionsOf(catalog, answers[..i])
      invariant forall k :: k in data <==> k in order
      invariant Accumulated(catalog, answers[..i], data)
    {
      assert answers[..i] + [answers[i]] == answers[..i + 1];
      order, data := FoldAnswer(catalog, order, data, answers[i], answers[..i]);
    }
    assert answers[..|answers|] == answers;
    DimensionsDistinct(catalog, answers);
    scores := Finalize(CategoryScores(order, data));
    FinalizedMeans(catalog, answers, data, scores.data);
  }

  /** Dividing the accumulated sums by their counts gives the reference means. */
  lemma FinalizedMeans(catalog: seq<Statement>, answers: seq<Answer>, data: map<string, CategoryScore>, means: map<string, CategoryScore>)
    requires Accumulated(catalog, answers, data)
    requires forall k :: k in data <==> k in DimensionsOf(catalog, answers)
    requires means.Keys == data.Keys
    requires forall k :: k in means ==> data[k].count > 0 && means[k] == Average(data[k])
    ensures means == MeanScores(catalog, answers)
  {
    var m := MeanScores(catalog, answers);
    assert means.Keys == m.Keys;
    forall k | k in means ensures means[k] == m[k] {
      var vs := ValuesFor(catalog, answers, k);
      assert data[k] == CategoryScore(Sum(vs) as real, |vs|);
    }
  }

  /** `data` holds, for each of its keys, the sum and the number of the values filed under it. */
  ghost predicate Accumulated(catalog: seq<Statement>, answers: seq<Answer>, data: map<string, CategoryScore>) {
    forall k :: k in data ==>
      data[k] == CategoryScore(Sum(ValuesFor(catalog, answers, k)) as real, |ValuesFor(catalog, answers, k)|)
  }

  // ---------------------------------------------------------------------------------------
  // Properties of the reference definitions

  /** A dimension has values exactly when some answer resolves to it. */
  lemma {:induction false} ValuesForNonEmpty(catalog: seq<Statement>, answers: seq<Answer>, d: string)
    ensures ValuesFor(catalog, answers, d) != []
        <==> exists i :: 0 <= i < |answers| && DimensionOf(catalog, answers[i]) == Some(d)
    decreases |answers|
  {
    if answers != [] {
      var prefix := answers[..|answers| - 1];
      ValuesForNonEmpty(catalog, prefix, d);
      if exists i :: 0 <= i < |answers| && DimensionOf(catalog, answers[i]) == Some(d) {
        var i :| 0 <= i < |answers| && DimensionOf(catalog, answers[i]) == Some(d);
        if i < |prefix| {
          assert prefix[i] == answers[i];
        }
      }
    }
  }

  /** The keys of the result are exactly the dimensions of the answers whose statement exists. */
  lemma KeysAreResolvedDimensions(catalog: seq<Statement>, answers: seq<Answer>, d: string)
    ensures d in MeanScores(catalog, answers)
        <==> exists i :: 0 <= i < |answers| && DimensionOf(catalog, answers[i]) == Some(d)
  {
    ValuesForNonEmpty(catalog, answers, d);
  }

  lemma {:induction false} ValuesForAppend(catalog: seq<Statement>, a: seq<Answer>, b: seq<Answer>, d: string)
    ensures ValuesFor(catalog, a + b, d) == ValuesFor(catalog, a, d) + ValuesFor(catalog, b, d)
    decreases |b|
  {
    if b == [] {
      assert a + b == a;
    } else {
      var b' := b[..|b| - 1];
      assert (a + b)[..|a + b| - 1] == a + b';
      ValuesForAppend(catalog, a, b', d);
    }
  }

  /** An answer whose statement id matches no statement adds no key and leaves the key order as it was. */
  lemma {:induction false} UnknownAnswerAddsNoKey(catalog: seq<Statement>, a: seq<Answer>, x: Answer, b: seq<Answer>)
    requires FindStatement(catalog, x.statementId) == None
    ensures DimensionsOf(catalog, a + [x] + b) == DimensionsOf(catalog, a + b)
    decreases |b|
  {
    if b == [] {
      assert (a + [x] + b)[..|a|] == a + b;
    } else {
      var b' := b[..|b| - 1];
      assert (a + [x] + b)[..|a + [x] + b| - 1] == a + [x] + b';
      assert (a + b)[..|a + b| - 1] == a + b';
      UnknownAnswerAddsNoKey(catalog, a, x, b');
    }
  }

  /** An answer whose statement id matches no statement changes no score and no count. */
  lemma UnknownAnswerIgnored(catalog: seq<Statement>, a: seq<Answer>, x: Answer, b: seq<Answer>)
    requires FindStatement(catalog, x.statementId) == None
    ensures MeanScores(catalog, a + [x] + b) == MeanScores(catalog, a + b)
  {
    var with := MeanScores(catalog, a + [x] + b);
    var without := MeanScores(catalog, a + b);
    UnknownAnswerAddsNoKey(catalog, a, x, b);
    assert with.Keys == without.Keys;
    forall d | d in with ensures with[d] == without[d] {
      UnknownAnswerNoValue(catalog, a, x, b, d);
    }
  }

  lemma UnknownAnswerNoValue(catalog: seq<Statement>, a: seq<Answer>, x: Answer, b: seq<Answer>, d: string)
    requires FindStatement(catalog, x.statementId) == None
    ensures ValuesFor(catalog, a + [x] + b, d) == ValuesFor(catalog, a + b, d)
  {
    assert [x][..0] == [];
    assert ValuesFor(catalog, [x], d) == [];
    ValuesForAppend(catalog, a + [x], b, d);
    ValuesForAppend(catalog, a, b, d);
    ValuesForAppend(catalog, a, [x], d);
  }

  lemma {:induction false} SumAppend(xs: seq<int>, ys: seq<int>)
    ensures Sum(xs + ys) == Sum(xs) + Sum(ys)
    decreases |ys|
  {
    if ys == [] {
      assert xs + ys == xs;
    } else {
      assert (xs + ys)[..|xs + ys| - 1] == xs + ys[..|ys| - 1];
      SumAppend(xs, ys[..|ys| - 1]);
    }
  }

  /** The last element of `a` sits somewhere in its permutation `b`; removing it there leaves a permutation of the rest of `a`. */
  lemma PickMatch<T>(a: seq<T>, b: seq<T>) returns (i: nat)
    requires a != [] && multiset(a) == multiset(b)
    ensures i < |b| && b[i] == a[|a| - 1]
    ensures b == b[..i] + [b[i]] + b[i + 1..]
    ensures multiset(a[..|a| - 1]) == multiset(b[..i] + b[i + 1..])
  {
    var x := a[|a| - 1];
    var a' := a[..|a| - 1];
    assert a == a' + [x];
    assert x in multiset(b);
    i :| 0 <= i < |b| && b[i] == x;
    assert b == b[..i] + [x] + b[i + 1..];
    assert multiset(b) == multiset(b[..i]) + multiset{x} + multiset(b[i + 1..]);
    assert multiset(a) == multiset(a') + multiset{x};
    assert multiset(b[..i] + b[i + 1..]) == multiset(b[..i]) + multiset(b[i + 1..]);
    assert multiset(a') == multiset(a) - multiset{x};
  }

  /** Reordering a list of numbers does not change its sum. */
  lemma {:induction false} SumPermutation(xs: seq<int>, ys: seq<int>)
    requires multiset(xs) == multiset(ys)
    ensures Sum(xs) == Sum(ys)
    decreases |xs|
  {
    if xs != [] {
      var i := PickMatch(xs, ys);
      var x := ys[i];
      SumPermutation(xs[..|xs| - 1], ys[..i] + ys[i + 1..]);
      SumAppend(ys[..i], ys[i + 1..]);
      SumAppend(ys[..i] + [x], ys[i + 1..]);
      SumAppend(ys[..i], [x]);
      assert [x][..0] == [];
    }
  }

  /** The values of `b` split around position `i`, with and without the answer there. */
  lemma ValuesForAround(catalog: seq<Statement>, b: seq<Answer>, i: nat, d: string)
    requires i < |b| && b == b[..i] + [b[i]] + b[i + 1..]
    ensures ValuesFor(catalog, b, d)
      == ValuesFor(catalog, b[..i], d) + ValuesFor(catalog, [b[i]], d) + ValuesFor(catalog, b[i + 1..], d)
    ensures ValuesFor(catalog, b[..i] + b[i + 1..], d)
      == ValuesFor(catalog, b[..i], d) + ValuesFor(catalog, b[i + 1..], d)
  {
    ValuesForAppend(catalog, b[..i], b[i + 1..], d);
    ValuesForAppend(catalog, b[..i] + [b[i]], b[i + 1..], d);
    ValuesForAppend(catalog, b[..i], [b[i]], d);
  }

  /** Reordering the answers reorders each dimension's values and nothing more. */
  lemma {:induction false} ValuesForPermutation(catalog: seq<Statement>, a: seq<Answer>, b: seq<Answer>, d: string)
    requires multiset(a) == multiset(b)
    ensures multiset(ValuesFor(catalog, a, d)) == multiset(ValuesFor(catalog, b, d))
    decreases |a|
  {
    if a != [] {
      var a' := a[..|a| - 1];
      var i := PickMatch(a, b);
      ValuesForPermutation(catalog, a', b[..i] + b[i + 1..], d);
      var vx := ValuesFor(catalog, [b[i]], d);
      assert a == a' + [b[i]];
      ValuesForAppend(catalog, a', [b[i]], d);
      ValuesForAround(catalog, b, i, d);
      var l, r := ValuesFor(catalog, b[..i], d), ValuesFor(catalog, b[i + 1..], d);
      assert multiset(ValuesFor(catalog, b, d)) == multiset(l) + multiset(vx) + multiset(r);
      assert multiset(ValuesFor(catalog, a, d)) == multiset(ValuesFor(catalog, a', d)) + multiset(vx);
    }
  }

  /** The scores do not depend on the order in which the answers were given. */
  lemma PermutationInvariant(catalog: seq<Statement>, a: seq<Answer>, b: seq<Answer>)
    requires multiset(a) == multiset(b)
    ensures MeanScores(catalog, a) == MeanScores(catalog, b)
  {
    forall d ensures ValuesFor(catalog, a, d) != [] <==> ValuesFor(catalog, b, d) != []
      ensures Sum(ValuesFor(catalog, a, d)) == Sum(ValuesFor(catalog, b, d))
      ensures |ValuesFor(catalog, a, d)| == |ValuesFor(catalog, b, d)|
    {
      ValuesForPermutation(catalog, a, b, d);
      SumPermutation(ValuesFor(catalog, a, d), ValuesFor(catalog, b, d));
      assert |multiset(ValuesFor(catalog, a, d))| == |multiset(ValuesFor(catalog, b, d))|;
    }
  }

  /** Every value filed under a dimension is the value of one of the answers. */
  lemma {:induction false} ValuesComeFromAnswers(catalog: seq<Statement>, answers: seq<Answer>, d: string, lo: int, hi: int)
    requires forall i :: 0 <= i < |answers| ==> lo <= answers[i].value <= hi
    ensures forall v :: v in ValuesFor(catalog, answers, d) ==> lo <= v <= hi
    decreases |answers|
  {
    if answers != [] {
      var prefix := answers[..|answers| - 1];
      assert forall i :: 0 <= i < |prefix| ==> prefix[i] == answers[i];
      ValuesComeFromAnswers(catalog, prefix, d, lo, hi);
    }
  }

  lemma {:induction false} SumBounds(xs: seq<int>)
    requires forall v :: v in xs ==> 1 <= v <= 5
    ensures |xs| <= Sum(xs) <= 5 * |xs|
    decreases |xs|
  {
    if xs != [] {
      var xs' := xs[..|xs| - 1];
      assert forall v :: v in xs' ==> v in xs;
      assert xs[|xs| - 1] in xs;
      SumBounds(xs');
    }
  }

  lemma MeanBounds(total: real, n: real)
    requires n > 0.0 && n <= total <= 5.0 * n
    ensures 1.0 <= total / n <= 5.0
  {
    var q := total / n;
    assert total == q * n;
    NonNegativeFactor(q - 1.0, n);
    NonNegativeFactor(5.0 - q, n);
  }

  lemma NonNegativeFactor(a: real, n: real)
    requires n > 0.0 && a * n >= 0.0
    ensures a >= 0.0
  {}

  /** With every answer on the 1..5 scale, every dimension's score lies in [1, 5]. */
  lemma ScoresWithinScale(catalog: seq<Statement>, answers: seq<Answer>)
    requires forall i :: 0 <= i < |answers| ==> 1 <= answers[i].value <= 5
    ensures forall d :: d in MeanScores(catalog, answers) ==>
      1.0 <= MeanScores(catalog, answers)[d].score <= 5.0
  {
    forall d | d in MeanScores(catalog, answers)
      ensures 1.0 <= MeanScores(catalog, answers)[d].score <= 5.0
    {
      var vs := ValuesFor(catalog, answers, d);
      ValuesComeFromAnswers(catalog, answers, d, 1, 5);
      SumBounds(vs);
      MeanBounds(Sum(vs) as real, |vs| as real);
    }
  }

  /** Two statements of one dimension answered 4 and 2 give that dimension a mean of 3 over 2 answers. */
  lemma SharedDimensionExample(s1: Statement, s2: Statement)
    requires s1.id == 1 && s2.id == 2 && s1.dimension == "Visibility" && s2.dimension == "Visibility"
    ensures DimensionsOf([s1, s2], [Answer(1, 4), Answer(2, 2)]) == ["Visibility"]
    ensures MeanScores([s1, s2], [Answer(1, 4), Answer(2, 2)]) == map["Visibility" := CategoryScore(3.0, 2)]
  {
    var catalog := [s1, s2];
    var answers := [Answer(1, 4), Answer(2, 2)];
    assert FindIndex(catalog[1..], 2) == 0;
    assert DimensionOf(catalog, answers[0]) == Some("Visibility");
    assert DimensionOf(catalog, answers[1]) == Some("Visibility");
    assert answers[..1] == [Answer(1, 4)];
    assert answers[..1][..0] == [];
    assert DimensionsOf(catalog, answers[..1]) == ["Visibility"];
    assert DimensionsOf(catalog, answers) == ["Visibility"];
    assert ValuesFor(catalog, answers, "Visibility") == [4, 2];
    assert Sum([4, 2]) == 6 by {
      assert [4, 2][..1] == [4];
      assert [4][..0] == [];
    }
    var m := MeanScores(catalog, answers);
    assert m.Keys == {"Visibility"};
    assert m["Visibility"] == CategoryScore(6.0 / 2.0, 2);
  }
}
