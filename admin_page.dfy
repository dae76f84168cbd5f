/**
 * The admin dashboard's fleet-wide averages (src/app/admin/page.tsx, `calculateAverages` and the
 * state it feeds).
 *
 * Every stored submission carries its own per-dimension means. The dashboard averages, for each
 * dimension, the stored `score` values of the submissions that have that dimension: each
 * submission counts once, whatever its stored `count`, so the result is an unweighted mean of
 * means. `ScoresFor`, `KeysOf` and `FleetAverages` are the reference definitions; the method
 * folds the submissions exactly as the source does and is proved to produce them.
 */
module AdminPage {
  import opened Types
  import ScoreUtils

  /** Each submission's dictionary is a well-formed JavaScript object. */
  ghost predicate AllValid(subs: seq<Submission>) {
    forall i :: 0 <= i < |subs| ==> subs[i].categoryScores.Valid()
  }

  /** The stored scores of dimension `k`, one per submission that has it, in submission order. */
  function ScoresFor(subs: seq<Submission>, k: string): seq<real>
    decreases |subs|
  {
    if subs == [] then []
    else
      var last := subs[|subs| - 1].categoryScores;
      ScoresFor(subs[..|subs| - 1], k) + (if k in last.data then [last.data[k].score] else [])
  }

  function SumReals(xs: seq<real>): real {
    if xs == [] then 0.0 else SumReals(xs[..|xs| - 1]) + xs[|xs| - 1]
  }

  /** `known` followed by the keys of `keys` it does not already hold, in order, each once. */
  function MergeKeys(known: seq<string>, keys: seq<string>): (r: seq<string>)
    ensures forall k :: k in r <==> k in known || k in keys
    ensures |known| <= |r| && r[..|known|] == known
    decreases |keys|
  {
    if keys == [] then known
    else
      var m := MergeKeys(known, keys[..|keys| - 1]);
      var k := keys[|keys| - 1];
      if k in m then m else m + [k]
  }

  /** Merging into a list without repetitions adds none. */
  lemma {:induction false} MergeKeysDistinct(known: seq<string>, keys: seq<string>)
    requires Distinct(known)
    ensures Distinct(MergeKeys(known, keys))
    decreases |keys|
  {
    if keys != [] {
      var m := MergeKeys(known, keys[..|keys| - 1]);
      var k := keys[|keys| - 1];
      MergeKeysDistinct(known, keys[..|keys| - 1]);
      if k !in m {
        var r := m + [k];
        assert MergeKeys(known, keys) == r;
        forall i, j | 0 <= i < j < |r| ensures r[i] != r[j] {
          assert r[i] == m[i] && m[i] in m;
          if j < |m| {
            assert r[j] == m[j];
          }
        }
      }
    }
  }

  /** The union of the submissions' dimension keys, in order of first appearance. */
  function KeysOf(subs: seq<Submission>): seq<string>
    decreases |subs|
  {
    if subs == [] then []
    else MergeKeys(KeysOf(subs[..|subs| - 1]), subs[|subs| - 1].categoryScores.order)
  }

  /** No key is listed twice. */
  lemma {:induction false} KeysDistinct(subs: seq<Submission>)
    ensures Distinct(KeysOf(subs))
    decreases |subs|
  {
    if subs != [] {
      KeysDistinct(subs[..|subs| - 1]);
      MergeKeysDistinct(KeysOf(subs[..|subs| - 1]), subs[|subs| - 1].categoryScores.order);
    }
  }

  /** Each dimension of the union mapped to the plain mean of its stored scores and their number. */
  function FleetAverages(subs: seq<Submission>): (m: map<string, CategoryScore>)
    requires AllValid(subs)
    ensures forall k :: k in m ==> m[k].count >= 1
  {
    KeysHaveScores(subs);
    map k | k in KeysOf(subs) ::
      var vs := ScoresFor(subs, k);
      CategoryScore(SumReals(vs) / |vs| as real, |vs|)
  }

  /** `data` holds, for each of its keys, the sum and number of that key's stored scores. */
  ghost predicate Totals(subs: seq<Submission>, data: map<string, CategoryScore>) {
    forall k :: k in data ==> data[k] == CategoryScore(SumReals(ScoresFor(subs, k)), |ScoresFor(subs, k)|)
  }

  /**
   * The totals after the entries `done` of one submission were added to those of the
   * submissions `seen`.
   */
  ghost predicate PartialTotals(seen: seq<Submission>, entries: CategoryScores, done: seq<string>,
                                data: map<string, CategoryScore>) {
    forall k :: k in data ==> data[k] == Expected(seen, entries, done, k)
  }

  ghost function Expected(seen: seq<Submission>, entries: CategoryScores, done: seq<string>, k: string): CategoryScore {
    var vs := ScoresFor(seen, k);
    if k in done && k in entries.data then CategoryScore(SumReals(vs) + entries.data[k].score, |vs| + 1)
    else CategoryScore(SumReals(vs), |vs|)
  }

  /**
   * The innermost callback of `calculateAverages`: entry `j` of a submission adds its stored
   * score to the key's total and one to its count, creating `{score: 0, count: 0}` first when the
   * key is new.
   */
  method AddEntry(order: seq<string>, data: map<string, CategoryScore>, entries: CategoryScores, j: nat,
                  ghost seen: seq<Submission>)
    returns (order': seq<string>, data': map<string, CategoryScore>)
    requires AllValid(seen) && entries.Valid() && j < |entries.order|
    requires order == MergeKeys(KeysOf(seen), entries.order[..j])
    requires forall k :: k in data <==> k in order
    requires PartialTotals(seen, entries, entries.order[..j], data)
    ensures order' == MergeKeys(KeysOf(seen), entries.order[..j + 1])
    ensures forall k :: k in data' <==> k in order'
    ensures PartialTotals(seen, entries, entries.order[..j + 1], data')
  {
    var category := entries.order[j];
    order', data' := order, data;
    if category !in data' {
      data' := data'[category := CategoryScore(0.0, 0)];
      order' := order' + [category];
    }
    ghost var created := data';
    data' := data'[category := CategoryScore(data'[category].score + entries.data[category].score, data'[category].count + 1)];
    EntryFolded(order, data, entries, j, seen, category, created, order', data');
  }

  /** The proof of `AddEntry`, about the order and dictionary it produces. */
  lemma EntryFolded(order: seq<string>, data: map<string, CategoryScore>, entries: CategoryScores, j: nat,
                    seen: seq<Submission>, category: string, created: map<string, CategoryScore>,
                    order': seq<string>, data': map<string, CategoryScore>)
    requires AllValid(seen) && entries.Valid() && j < |entries.order|
    requires order == MergeKeys(KeysOf(seen), entries.order[..j])
    requires forall k :: k in data <==> k in order
    requires PartialTotals(seen, entries, entries.order[..j], data)
    requires category == entries.order[j]
    requires created == if category in data then data else data[category := CategoryScore(0.0, 0)]
    requires order' == if category in data then order else order + [category]
    requires data' == created[category := CategoryScore(created[category].score + entries.data[category].score, created[category].count + 1)]
    ensures order' == MergeKeys(KeysOf(seen), entries.order[..j + 1])
    ensures forall k :: k in data' <==> k in order'
    ensures PartialTotals(seen, entries, entries.order[..j + 1], data')
  {
    MergeStep(KeysOf(seen), entries.order, j);
    if category !in data {
      assert category !in KeysOf(seen);
      KeysHaveScores(seen);
    }
    assert category !in entries.order[..j];
    EntryTotals(seen, entries, entries.order[..j], category, data, created, data');
  }

  /** The totals after the entry `category`, not yet counted, is added. */
  lemma EntryTotals(seen: seq<Submission>, entries: CategoryScores, done: seq<string>, category: string,
                    data: map<string, CategoryScore>, created: map<string, CategoryScore>, data': map<string, CategoryScore>)
    requires category !in done && category in entries.data
    requires PartialTotals(seen, entries, done, data)
    requires category !in data ==> ScoresFor(seen, category) == []
    requires created == if category in data then data else data[category := CategoryScore(0.0, 0)]
    requires data' == created[category := CategoryScore(created[category].score + entries.data[category].score, created[category].count + 1)]
    ensures PartialTotals(seen, entries, done + [category], data')
  {
    var vs := ScoresFor(seen, category);
    assert created[category] == CategoryScore(SumReals(vs), |vs|);
    NewTotal(seen, entries, done, category, created[category], data');
    EntryAdded(seen, entries, done, category, data, data');
  }

  lemma NewTotal(seen: seq<Submission>, entries: CategoryScores, done: seq<string>, category: string,
                  previous: CategoryScore, data: map<string, CategoryScore>)
    requires category in entries.data
    requires previous == CategoryScore(SumReals(ScoresFor(seen, category)), |ScoresFor(seen, category)|)
    requires category in data
    requires data[category] == CategoryScore(previous.score + entries.data[category].score, previous.count + 1)
    ensures data[category] == Expected(seen, entries, done + [category], category)
  {
    assert category in done + [category];
  }

  /** Merging one more key: it is appended unless already present. */
  lemma MergeStep(known: seq<string>, keys: seq<string>, j: nat)
    requires j < |keys|
    ensures keys[..j + 1] == keys[..j] + [keys[j]]
    ensures MergeKeys(known, keys[..j + 1])
      == if keys[j] in MergeKeys(known, keys[..j]) then MergeKeys(known, keys[..j])
         else MergeKeys(known, keys[..j]) + [keys[j]]
  {
    assert keys[..j + 1][..j] == keys[..j];
  }

  lemma EntryAdded(seen: seq<Submission>, entries: CategoryScores, done: seq<string>, category: string,
                   data: map<string, CategoryScore>, data': map<string, CategoryScore>)
    requires category !in done && category in entries.data
    requires PartialTotals(seen, entries, done, data)
    requires category in data'
    requires data'[category] == Expected(seen, entries, done + [category], category)
    requires forall k :: k in data' && k != category ==> k in data && data'[k] == data[k]
    ensures PartialTotals(seen, entries, done + [category], data')
  {}

  /**
   * The inner `forEach` of `calculateAverages`: every entry of one submission, in entry order.
   * `seen` stands for the submissions already folded.
   */
  method FoldSubmission(order: seq<string>, data: map<string, CategoryScore>, sub: Submission,
                        ghost seen: seq<Submission>)
    returns (order': seq<string>, data': map<string, CategoryScore>)
    requires AllValid(seen) && sub.categoryScores.Valid()
    requires order == KeysOf(seen)
    requires forall k :: k in data <==> k in order
    requires Totals(seen, data)
    ensures order' == KeysOf(seen + [sub])
    ensures forall k :: k in data' <==> k in order'
    ensures Totals(seen + [sub], data')
  {
    var entries := sub.categoryScores;
    order', data' := order, data;
    assert entries.order[..0] == [];
    for j := 0 to |entries.order|
      invariant order' == MergeKeys(order, entries.order[..j])
      invariant forall k :: k in data' <==> k in order'
      invariant PartialTotals(seen, entries, entries.order[..j], data')
    {
      order', data' := AddEntry(order', data', entries, j, seen);
    }
    assert entries.order[..|entries.order|] == entries.order;
    SubmissionAdded(seen, sub, data');
  }

  lemma SubmissionAdded(seen: seq<Submission>, sub: Submission, data: map<string, CategoryScore>)
    requires sub.categoryScores.Valid()
    requires PartialTotals(seen, sub.categoryScores, sub.categoryScores.order, data)
    ensures KeysOf(seen + [sub]) == MergeKeys(KeysOf(seen), sub.categoryScores.order)
    ensures Totals(seen + [sub], data)
  {
    var next := seen + [sub];
    assert next[..|seen|] == seen;
    forall k | k in data
      ensures data[k] == CategoryScore(SumReals(ScoresFor(next, k)), |ScoresFor(next, k)|)
    {
      var vs := ScoresFor(seen, k);
      if k in sub.categoryScores.data {
        var x := sub.categoryScores.data[k].score;
        assert ScoresFor(next, k) == vs + [x];
        assert (vs + [x])[..|vs|] == vs;
      } else {
        assert ScoresFor(next, k) == vs;
      }
    }
  }

  /**
   * `calculateAverages` on a list of submissions: the totals of every key over all submissions,
   * then each total divided by its count. The result lists the union of the keys, in order of
   * first appearance, each with the unweighted mean of its stored scores.
   */
  method AverageScores(subs: seq<Submission>) returns (averages: CategoryScores)
    requires AllValid(subs)
    ensures averages.Valid()
    ensures averages.order == KeysOf(subs)
    ensures averages.data == FleetAverages(subs)
  {
    var order: seq<string> := [];
    var data: map<string, CategoryScore> := map[];
    for i := 0 to |subs|
      invariant order == KeysOf(subs[..i])
      invariant forall k :: k in data <==> k in order
      invariant Totals(subs[..i], data)
    {
      assert subs[..i] + [subs[i]] == subs[..i + 1];
      order, data := FoldSubmission(order, data, subs[i], subs[..i]);
    }
    assert subs[..|subs|] == subs;
    KeysHaveScores(subs);
    KeysDistinct(subs);
    averages := ScoreUtils.Finalize(CategoryScores(order, data));
  }

  /** What the submissions request yielded: a thrown error, or a body whose list may be missing. */
  datatype SubmissionsResponse = FetchFailed | Fetched(submissions: Option<seq<Submission>>)

  /** The dashboard's state: the loaded submissions, their averages and the loading flag. */
  class Dashboard {
    var submissions: seq<Submission>
    var averageScores: CategoryScores
    var isLoading: bool

    /** The state before the first load: nothing loaded, no averages, loading. */
    constructor()
      ensures submissions == [] && averageScores == NoScores && isLoading
    {
      submissions := [];
      averageScores := NoScores;
      isLoading := true;
    }

    /** `calculateAverages`: an empty list leaves the averages as they were. */
    method CalculateAverages(subs: seq<Submission>)
      requires AllValid(subs)
      modifies this
      ensures submissions == old(submissions) && isLoading == old(isLoading)
      ensures subs == [] ==> averageScores == old(averageScores)
      ensures subs != [] ==> averageScores == CategoryScores(KeysOf(subs), FleetAverages(subs))
    {
      if |subs| == 0 {
        return;
      }
      averageScores := AverageScores(subs);
    }

    /**
     * `fetchSubmissions`, with the request's outcome as a parameter: a missing list counts as an
     * empty one, a failure changes nothing but the loading flag, and loading always ends.
     */
    method FetchSubmissions(response: SubmissionsResponse)
      requires response.Fetched? && response.submissions.Some? ==> AllValid(response.submissions.value)
      modifies this
      ensures !isLoading
      ensures response.FetchFailed? ==>
        submissions == old(submissions) && averageScores == old(averageScores)
      ensures response.Fetched? ==>
        var subs := response.submissions.GetOr([]);
        && submissions == subs
        && averageScores == if subs == [] then old(averageScores) else CategoryScores(KeysOf(subs), FleetAverages(subs))
    {
      if response.Fetched? {
        var subs := response.submissions.GetOr([]);
        submissions := subs;
        CalculateAverages(subs);
      }
      isLoading := false;
    }
  }

  // ---------------------------------------------------------------------------------------
  // Properties of the reference definitions

  /** A key is in the union exactly when some submission has a stored score for it. */
  lemma {:induction false} KeysHaveScores(subs: seq<Submission>)
    requires AllValid(subs)
    ensures forall k :: k in KeysOf(subs) <==> ScoresFor(subs, k) != []
    decreases |subs|
  {
    if subs != [] {
      var prefix := subs[..|subs| - 1];
      assert AllValid(prefix) by {
        forall i | 0 <= i < |prefix| ensures prefix[i].categoryScores.Valid() {
          assert prefix[i] == subs[i];
        }
      }
      KeysHaveScores(prefix);
      assert subs[|subs| - 1].categoryScores.Valid();
    }
  }

  /** The keys of the averages are exactly the union of the keys of the submissions. */
  lemma {:induction false} KeysAreUnion(subs: seq<Submission>, k: string)
    ensures k in KeysOf(subs) <==> exists i :: 0 <= i < |subs| && k in subs[i].categoryScores.order
    decreases |subs|
  {
    if subs != [] {
      var n := |subs| - 1;
      var prefix := subs[..n];
      var last := subs[n].categoryScores.order;
      KeysAreUnion(prefix, k);
      assert KeysOf(subs) == MergeKeys(KeysOf(prefix), last);
      if k in KeysOf(prefix) {
        var i :| 0 <= i < n && k in prefix[i].categoryScores.order;
        assert subs[i] == prefix[i];
      } else if k in last {
        assert k in subs[n].categoryScores.order;
      }
      forall i | 0 <= i < |subs| && k in subs[i].categoryScores.order ensures k in KeysOf(subs) {
        if i < n {
          assert prefix[i] == subs[i];
        }
      }
    }
  }

  /** The number of submissions whose dictionary has key `k`. */
  function Holding(subs: seq<Submission>, k: string): nat {
    |set i | 0 <= i < |subs| && k in subs[i].categoryScores.data|
  }

  /** A key's count is the number of submissions that have the key, not the sum of their stored counts. */
  lemma {:induction false} CountIsHoldingSubmissions(subs: seq<Submission>, k: string)
    ensures |ScoresFor(subs, k)| == Holding(subs, k)
    decreases |subs|
  {
    var after := set i | 0 <= i < |subs| && k in subs[i].categoryScores.data;
    if subs == [] {
      assert after == {};
    } else {
      var n := |subs| - 1;
      var prefix := subs[..n];
      CountIsHoldingSubmissions(prefix, k);
      var before := set i | 0 <= i < n && k in prefix[i].categoryScores.data;
      if k in subs[n].categoryScores.data {
        assert after == before + {n};
        assert n !in before;
      } else {
        assert after == before;
      }
    }
  }

  /** Two lists that differ only in the stored counts have the same keys and the same averages. */
  lemma {:induction false} StoredCountIgnored(subs: seq<Submission>, other: seq<Submission>)
    requires AllValid(subs) && AllValid(other) && |subs| == |other|
    requires forall i :: 0 <= i < |subs| ==> subs[i].categoryScores.order == other[i].categoryScores.order
    requires forall i :: 0 <= i < |subs| ==> subs[i].categoryScores.data.Keys == other[i].categoryScores.data.Keys
    requires forall i, k :: 0 <= i < |subs| && k in subs[i].categoryScores.data ==>
      subs[i].categoryScores.data[k].score == other[i].categoryScores.data[k].score
    ensures KeysOf(subs) == KeysOf(other)
    ensures FleetAverages(subs) == FleetAverages(other)
  {
    forall k ensures ScoresFor(subs, k) == ScoresFor(other, k) {
      SameStoredScores(subs, other, k);
    }
    SameKeys(subs, other);
  }

  lemma {:induction false} SameStoredScores(subs: seq<Submission>, other: seq<Submission>, k: string)
    requires |subs| == |other|
    requires forall i :: 0 <= i < |subs| ==> subs[i].categoryScores.data.Keys == other[i].categoryScores.data.Keys
    requires forall i, k :: 0 <= i < |subs| && k in subs[i].categoryScores.data ==>
      subs[i].categoryScores.data[k].score == other[i].categoryScores.data[k].score
    ensures ScoresFor(subs, k) == ScoresFor(other, k)
    decreases |subs|
  {
    if subs != [] {
      var n := |subs| - 1;
      SameStoredScores(subs[..n], other[..n], k);
      assert subs[n].categoryScores.data.Keys == other[n].categoryScores.data.Keys;
    }
  }

  lemma {:induction false} SameKeys(subs: seq<Submission>, other: seq<Submission>)
    requires |subs| == |other|
    requires forall i :: 0 <= i < |subs| ==> subs[i].categoryScores.order == other[i].categoryScores.order
    ensures KeysOf(subs) == KeysOf(other)
    decreases |subs|
  {
    if subs != [] {
      var n := |subs| - 1;
      SameKeys(subs[..n], other[..n]);
      assert subs[n].categoryScores.order == other[n].categoryScores.order;
    }
  }

  /**
   * A submission with one answer in a dimension (mean 2) and one with three (mean 4) average to 3,
   * not to the answer-weighted 3.5.
   */
  lemma UnweightedExample(s1: Submission, s2: Submission)
    requires s1.categoryScores == CategoryScores(["Visibility"], map["Visibility" := CategoryScore(2.0, 1)])
    requires s2.categoryScores == CategoryScores(["Visibility"], map["Visibility" := CategoryScore(4.0, 3)])
    ensures AllValid([s1, s2])
    ensures KeysOf([s1, s2]) == ["Visibility"]
    ensures FleetAverages([s1, s2]) == map["Visibility" := CategoryScore(3.0, 2)]
  {
    var subs := [s1, s2];
    assert subs[..1] == [s1];
    assert subs[..1][..0] == [];
    assert ScoresFor(subs[..1], "Visibility") == [2.0];
    assert ScoresFor(subs, "Visibility") == [2.0, 4.0];
    assert SumReals([2.0, 4.0]) == 6.0 by {
      assert [2.0, 4.0][..1] == [2.0];
      assert [2.0][..0] == [];
    }
    assert MergeKeys([], ["Visibility"]) == ["Visibility"] by {
      assert ["Visibility"][..0] == [];
    }
    assert KeysOf(subs[..1]) == ["Visibility"];
    assert MergeKeys(["Visibility"], ["Visibility"]) == ["Visibility"] by {
      assert ["Visibility"][..0] == [];
    }
    assert KeysOf(subs) == ["Visibility"];
    var m := FleetAverages(subs);
    assert m.Keys == {"Visibility"};
    assert m["Visibility"] == CategoryScore(6.0 / 2.0, 2);
  }

  lemma {:induction false} SumRealsBounds(xs: seq<real>, lo: real, hi: real)
    requires forall v :: v in xs ==> lo <= v <= hi
    ensures |xs| as real * lo <= SumReals(xs) <= |xs| as real * hi
    decreases |xs|
  {
    if xs != [] {
      var xs' := xs[..|xs| - 1];
      assert forall v :: v in xs' ==> v in xs;
      assert xs[|xs| - 1] in xs;
      SumRealsBounds(xs', lo, hi);
    }
  }

  lemma {:induction false} StoredScoresWithin(subs: seq<Submission>, k: string)
    requires forall i, c :: 0 <= i < |subs| && c in subs[i].categoryScores.data ==>
      1.0 <= subs[i].categoryScores.data[c].score <= 5.0
    ensures forall v :: v in ScoresFor(subs, k) ==> 1.0 <= v <= 5.0
    decreases |subs|
  {
    if subs != [] {
      var n := |subs| - 1;
      assert forall i :: 0 <= i < n ==> subs[..n][i] == subs[i];
      StoredScoresWithin(subs[..n], k);
    }
  }

  /** When every stored score lies in [1, 5], so does every fleet average. */
  lemma AveragesWithinScale(subs: seq<Submission>)
    requires AllValid(subs)
    requires forall i, c :: 0 <= i < |subs| && c in subs[i].categoryScores.data ==>
      1.0 <= subs[i].categoryScores.data[c].score <= 5.0
    ensures forall k :: k in FleetAverages(subs) ==> 1.0 <= FleetAverages(subs)[k].score <= 5.0
  {
    forall k | k in FleetAverages(subs) ensures 1.0 <= FleetAverages(subs)[k].score <= 5.0 {
      var vs := ScoresFor(subs, k);
      StoredScoresWithin(subs, k);
      SumRealsBounds(vs, 1.0, 5.0);
      ScoreUtils.MeanBounds(SumReals(vs), |vs| as real);
    }
  }
}
