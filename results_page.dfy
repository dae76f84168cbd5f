/**
 * The chart on the results page (src/components/ResultsPage.tsx): one point per category of the
 * score dictionary, labelled with the category's name cut at its first `&`, and the tick
 * formatter that shortens a label of more than two words.
 */
module ResultsPage {
  import opened Types
  import opened Text

  /** A point of the radar chart. */
  datatype ChartPoint = ChartPoint(category: string, score: real, fullMark: int)

  /** The top of the chart's scale. */
  const FullMark := 5

  /** `category.split('&')[0].trim()`: the name up to its first `&`, without surrounding whitespace. */
  function ShortLabel(category: string): (short: string)
    ensures short == Trim(category[..IndexOf(category, '&')])
    ensures '&' !in category ==> short == Trim(category)
    ensures '&' !in short
  {
    var parts := Split(category, '&');
    assert '&' !in parts[0];
    Trim(parts[0])
  }

  /** `chartData`: one point per dictionary entry, in entry order. */
  function ChartData(scores: CategoryScores): (points: seq<ChartPoint>)
    requires scores.Valid()
    ensures |points| == |scores.order|
    ensures forall i :: 0 <= i < |points| ==>
      && points[i].category == ShortLabel(scores.order[i])
      && points[i].fullMark == FullMark
      && -0.05 <= points[i].score - scores.data[scores.order[i]].score <= 0.05
  {
    seq(|scores.order|, i requires 0 <= i < |scores.order| =>
      ChartPoint(ShortLabel(scores.order[i]), RoundTenths(scores.data[scores.order[i]].score), FullMark))
  }

  /** Two category names that agree up to their first `&` get the same chart label. */
  lemma SharedPrefixSameLabel(prefix: string, x: string, y: string)
    requires '&' !in prefix
    ensures ShortLabel(prefix + "&" + x) == ShortLabel(prefix + "&" + y) == Trim(prefix)
  {
    PrefixBeforeAmpersand(prefix, x);
    PrefixBeforeAmpersand(prefix, y);
  }

  lemma PrefixBeforeAmpersand(prefix: string, x: string)
    requires '&' !in prefix
    ensures var c := prefix + "&" + x; IndexOf(c, '&') == |prefix| && c[..|prefix|] == prefix
  {
    var c := prefix + "&" + x;
    assert c[|prefix|] == '&';
    assert c[..|prefix|] == prefix;
  }

  /** Where the second space of the text is, if it has two. */
  function SecondSpace(value: string): (j: Option<nat>)
    ensures j.Some? ==> IndexOf(value, ' ') < j.value < |value| && value[j.value] == ' '
    ensures j.Some? ==> forall p :: IndexOf(value, ' ') < p < j.value ==> value[p] != ' '
    ensures j.None? ==> forall p, q :: 0 <= p < q < |value| && value[p] == ' ' ==> value[q] != ' '
  {
    var i := IndexOf(value, ' ');
    if i == |value| then None
    else
      var i2 := IndexOf(value[i + 1..], ' ');
      if i2 == |value| - i - 1 then
        assert forall q :: i < q < |value| ==> value[q] == value[i + 1..][q - i - 1];
        None
      else
        assert forall p :: i < p < i + 1 + i2 ==> value[p] == value[i + 1..][p - i - 1];
        Some(i + 1 + i2)
  }

  /**
   * The `tickFormatter`: a label with fewer than two spaces, which splits into at most two pieces,
   * is shown as it is; a longer one is cut before its second space and followed by `...`.
   */
  function TickFormatter(value: string): (shown: string)
    ensures SecondSpace(value).None? ==> shown == value
    ensures SecondSpace(value).Some? ==> shown == value[..SecondSpace(value).value] + "..."
  {
    var words := Split(value, ' ');
    ManyPiecesIffTwoSpaces(value);
    if |words| > 2 then
      FirstTwoWords(value);
      Join(words[..2], ' ') + "..."
    else value
  }

  /** Splitting at spaces gives more than two pieces exactly when there are two spaces. */
  lemma ManyPiecesIffTwoSpaces(value: string)
    ensures |Split(value, ' ')| > 2 <==> SecondSpace(value).Some?
  {
    var i := IndexOf(value, ' ');
    if i < |value| {
      var rest := value[i + 1..];
      SplitAtFirst(value, ' ');
      if IndexOf(rest, ' ') < |rest| {
        SplitAtFirst(rest, ' ');
      } else {
        SplitWhole(rest, ' ');
      }
    } else {
      SplitWhole(value, ' ');
    }
  }

  /** The first two pieces of a split at spaces, joined again, are the text before the second space. */
  lemma {:induction false} FirstTwoWords(value: string)
    requires SecondSpace(value).Some?
    ensures |Split(value, ' ')| >= 2
    ensures Join(Split(value, ' ')[..2], ' ') == value[..SecondSpace(value).value]
  {
    var i := IndexOf(value, ' ');
    var rest := value[i + 1..];
    var i2 := IndexOf(rest, ' ');
    SplitAtFirst(value, ' ');
    assert Split(value, ' ')[..2] == [value[..i], rest[..i2]];
    JoinTwo(value[..i], rest[..i2], ' ');
    SliceAcrossSpace(value, i, i2);
  }

  lemma JoinTwo(a: string, b: string, sep: char)
    ensures Join([a, b], sep) == a + [sep] + b
  {
    assert [a, b][1..] == [b];
  }

  lemma SliceAcrossSpace(value: string, i: nat, i2: nat)
    requires i < |value| && i2 <= |value| - i - 1
    ensures value[..i + 1 + i2] == value[..i] + [value[i]] + value[i + 1..][..i2]
  {}
}
