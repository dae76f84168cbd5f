/**
 * The feedback endpoint (src/app/api/feedback/route.ts): the prompt built from a questionnaire,
 * the parser that cuts the model's reply into four labelled sections, the fixed fallback
 * feedback, and the policy of the POST handler, which always answers with status 200.
 *
 * The parser follows the four regular expressions exactly, including how a JavaScript regular
 * expression backtracks: a label matched case-insensitively at its first position where the rest
 * of the pattern can match, an optional colon, `\s*` (which may give characters back), a first
 * non-empty line, then further non-empty lines as long as none starts with a stop label.
 */
module FeedbackRoute {
  import opened Types
  import opened Text

  // ---------------------------------------------------------------------------------------
  // parseFeedback

  /** The four labelled sections of the reply. */
  datatype Section = Summary | Observation | Change | WatchOuts

  /** The label that opens a section; the watch-outs label is matched separately. */
  function Caption(s: Section): string {
    match s
    case Summary => SummaryLabel
    case Observation => ObservationLabel
    case Change => ChangeLabel
    case WatchOuts => WatchLabel
  }

  const SummaryLabel := "SUMMARY"
  const ObservationLabel := "KEY OBSERVATION"
  const ChangeLabel := "FIRST THING TO CHANGE"
  const WatchLabel := "WATCH"
  /** The shorter label that stops the summary and the observation. */
  const ChangeStop := "FIRST THING"

  /** The labels that end a section's capture when a continuation line starts with one. */
  function Stops(s: Section): seq<string> {
    match s
    case Summary => [ObservationLabel, ChangeStop, WatchLabel]
    case Observation => [ChangeStop, WatchLabel]
    case Change => [WatchLabel]
    case WatchOuts => []
  }

  /** The text a section gets when its label is missing or its capture is blank. */
  function Default(s: Section): string {
    match s
    case Summary => DefaultSummary
    case Observation => DefaultObservation
    case Change => DefaultChange
    case WatchOuts => DefaultWatchOuts
  }

  const DefaultSummary := "Analysis completed."
  const DefaultObservation := "Multiple areas identified for improvement."
  const DefaultChange := "Focus on process clarity and ownership."
  const DefaultWatchOuts := "Monitor capacity and decision-making speed."

  /** `w` (upper-case ASCII) occurs at `i`, compared as the `/i` flag does. */
  predicate WordAt(text: string, i: nat, w: string) {
    i + |w| <= |text| && forall j :: 0 <= j < |w| ==> Upper(text[i + j]) == w[j]
  }

  /** A line starting at `i` starts with one of the stop labels. */
  predicate StopAt(text: string, i: nat, stops: seq<string>) {
    exists j :: 0 <= j < |stops| && WordAt(text, i, stops[j])
  }

  /** The end of the run of whitespace that starts at `q`. */
  function SpaceRunEnd(text: string, q: nat): (e: nat)
    requires q <= |text|
    ensures q <= e <= |text|
    ensures forall i :: q <= i < e ==> IsSpace(text[i])
    ensures e < |text| ==> !IsSpace(text[e])
    decreases |text| - q
  {
    if q < |text| && IsSpace(text[q]) then SpaceRunEnd(text, q + 1) else q
  }

  /** The last position in [q, e) that holds something other than a line feed. */
  function LastNonNewline(text: string, q: nat, e: nat): (r: Option<nat>)
    requires q <= e <= |text|
    ensures r.None? <==> forall i :: q <= i < e ==> text[i] == '\n'
    ensures r.Some? ==> q <= r.value < e && text[r.value] != '\n'
    ensures r.Some? ==> forall i :: r.value < i < e ==> text[i] == '\n'
    decreases e - q
  {
    if e == q then None
    else if text[e - 1] != '\n' then Some(e - 1)
    else LastNonNewline(text, q, e - 1)
  }

  /**
   * Where `\s*([^\n]+...` starting at `q` begins its capture. `\s*` first takes the whole run of
   * whitespace; when the text ends inside that run it gives characters back until the capture can
   * start on one that is not a line feed.
   */
  function CaptureStart(text: string, q: nat): (r: Option<nat>)
    requires q <= |text|
    ensures r.None? <==> forall i :: q <= i < |text| ==> text[i] == '\n'
    ensures r.Some? ==> q <= r.value < |text| && text[r.value] != '\n'
    ensures r.Some? ==> forall i :: q <= i < r.value ==> IsSpace(text[i])
    ensures r.Some? && IsSpace(text[r.value]) ==> forall i :: r.value < i < |text| ==> text[i] == '\n'
  {
    var e := SpaceRunEnd(text, q);
    if e < |text| then Some(e) else LastNonNewline(text, q, e)
  }

  /**
   * `:?\s*(` starting at `q`: the colon is taken when present, and given back (so the capture
   * starts with it) when nothing but line feeds follows it.
   */
  function AfterColon(text: string, q: nat): (r: Option<nat>)
    requires q <= |text|
    ensures r.None? <==> forall i :: q <= i < |text| ==> text[i] == '\n'
    ensures r.Some? ==> q <= r.value < |text| && text[r.value] != '\n'
    ensures q < |text| && text[q] == ':' && (exists i :: q < i < |text| && text[i] != '\n') ==>
      r.Some? && q < r.value && forall i :: q < i < r.value ==> IsSpace(text[i])
    ensures q < |text| && text[q] == ':' && CaptureStart(text, q + 1).Some? ==> r == CaptureStart(text, q + 1)
    ensures q < |text| && text[q] == ':' && (forall i :: q < i < |text| ==> text[i] == '\n') ==> r == Some(q)
    ensures (q == |text| || text[q] != ':') ==> r == CaptureStart(text, q)
  {
    var withColon := if q < |text| && text[q] == ':' then CaptureStart(text, q + 1) else None;
    if withColon.Some? then withColon else CaptureStart(text, q)
  }

  /** `S?:?\s*(` after `WATCH-OUT` or `WATCHOUT`: the `S` is given back like the colon. */
  function AfterWatchLabel(text: string, q: nat): (r: Option<nat>)
    requires q <= |text|
    ensures r.None? <==> forall i :: q <= i < |text| ==> text[i] == '\n'
    ensures r.Some? ==> q <= r.value < |text| && text[r.value] != '\n'
    ensures q < |text| && Upper(text[q]) == 'S' && (exists i :: q < i < |text| && text[i] != '\n') ==>
      r == AfterColon(text, q + 1)
    ensures (q == |text| || Upper(text[q]) != 'S') ==> r == AfterColon(text, q)
  {
    var withS := if q < |text| && Upper(text[q]) == 'S' then AfterColon(text, q + 1) else None;
    if withS.Some? then withS else AfterColon(text, q)
  }

  const WatchDashOut := "WATCH-OUT"
  const WatchOut := "WATCHOUT"

  /**
   * The section's label occurs at `p`, compared case-insensitively: `WATCH-OUT` or `WATCHOUT`
   * (`WATCH-?OUT`) for the watch-outs, the caption for the others.
   */
  predicate LabelAt(text: string, p: nat, s: Section) {
    if s == WatchOuts then WordAt(text, p, WatchDashOut) || WordAt(text, p, WatchOut)
    else WordAt(text, p, Caption(s))
  }

  /** The end of the section's label when it occurs at `p`. */
  function LabelEnd(text: string, p: nat, s: Section): (q: Option<nat>)
    ensures q.Some? <==> LabelAt(text, p, s)
    ensures q.Some? ==> p < q.value <= |text|
    ensures s != WatchOuts && q.Some? ==> q.value == p + |Caption(s)|
    ensures s == WatchOuts && WordAt(text, p, WatchDashOut) ==> q == Some(p + |WatchDashOut|)
    ensures s == WatchOuts && WordAt(text, p, WatchOut) ==> q == Some(p + |WatchOut|)
  {
    if s == WatchOuts then
      if WordAt(text, p, WatchDashOut) then
        // `-` and `O` differ at the sixth character, so the two spellings never both occur at `p`.
        assert Upper(text[p + 5]) == WatchDashOut[5] != WatchOut[5];
        Some(p + |WatchDashOut|)
      else if WordAt(text, p, WatchOut) then Some(p + |WatchOut|)
      else None
    else if WordAt(text, p, Caption(s)) then Some(p + |Caption(s)|)
    else None
  }

  /** Where the section's capture starts when the pattern is tried at `p`, if it matches there. */
  function StartAt(text: string, p: nat, s: Section): (r: Option<nat>)
    ensures r.Some? <==>
      LabelAt(text, p, s) && exists i :: LabelEnd(text, p, s).value <= i < |text| && text[i] != '\n'
    ensures r.Some? ==> p < r.value < |text| && text[r.value] != '\n'
  {
    match LabelEnd(text, p, s)
    case None => None
    case Some(q) => if s == WatchOuts then AfterWatchLabel(text, q) else AfterColon(text, q)
  }

  /** The end of the line that starts at `i`. */
  function LineEnd(text: string, i: nat): (e: nat)
    requires i <= |text|
    ensures i <= e <= |text|
    ensures forall j :: i <= j < e ==> text[j] != '\n'
    ensures e < |text| ==> text[e] == '\n'
    decreases |text| - i
  {
    if i < |text| && text[i] != '\n' then LineEnd(text, i + 1) else i
  }

  /**
   * The end of `[^\n]+(?:\n(?!stops)[^\n]+)*` from `r`: the capture runs over whole lines and
   * stops before the first line feed that is followed by the end of the text, by an empty line or
   * by a line starting with a stop label. It never stops earlier.
   */
  function CaptureEnd(text: string, r: nat, stops: seq<string>): (e: nat)
    requires r <= |text|
    ensures LineEnd(text, r) <= e <= |text|
    ensures e < |text| ==> text[e] == '\n'
    ensures forall i :: r <= i < e && text[i] == '\n' ==>
      i + 1 < e && text[i + 1] != '\n' && !StopAt(text, i + 1, stops)
    ensures e < |text| ==> e + 1 == |text| || text[e + 1] == '\n' || StopAt(text, e + 1, stops)
    decreases |text| - r
  {
    var le := LineEnd(text, r);
    if le + 1 < |text| && text[le + 1] != '\n' && !StopAt(text, le + 1, stops) then
      var e := CaptureEnd(text, le + 1, stops);
      assert LineEnd(text, le + 1) > le + 1;
      e
    else le
  }

  /** For each position of the text, whether the section's pattern matches there. */
  function Hits(text: string, s: Section): (h: seq<bool>)
    ensures |h| == |text| + 1
    ensures forall i :: 0 <= i < |h| ==> h[i] == StartAt(text, i, s).Some?
  {
    seq(|text| + 1, i => i >= 0 && StartAt(text, i, s).Some?)
  }

  /** The first position at or after `from` that holds a hit. */
  function FirstHit(h: seq<bool>, from: nat): (p: Option<nat>)
    requires from <= |h|
    ensures p.Some? ==> from <= p.value < |h| && h[p.value]
    ensures p.Some? ==> forall i :: from <= i < p.value ==> !h[i]
    ensures p.None? ==> forall i :: from <= i < |h| ==> !h[i]
    decreases |h| - from
  {
    if from == |h| then None
    else if h[from] then Some(from)
    else FirstHit(h, from + 1)
  }

  /** `text.match(pattern)`: the first position where the section's pattern matches. */
  function FindMatch(text: string, s: Section): (p: Option<nat>)
    ensures p.Some? ==> p.value < |text| && StartAt(text, p.value, s).Some?
    ensures p.Some? ==> forall i :: 0 <= i < p.value ==> StartAt(text, i, s).None?
    ensures p.None? ==> forall i :: 0 <= i <= |text| ==> StartAt(text, i, s).None?
  {
    var h := Hits(text, s);
    var p := FirstHit(h, 0);
    assert p.Some? ==> h[p.value];
    p
  }

  /** Capture group 1 of the section's pattern in `text`, if the pattern matches anywhere. */
  function Capture(text: string, s: Section): (c: Option<string>)
    ensures c.None? <==> forall p :: 0 <= p <= |text| ==> StartAt(text, p, s).None?
    ensures c.Some? ==> c.value != [] && c.value[0] != '\n'
  {
    match FindMatch(text, s)
    case None => None
    case Some(p) =>
      var start := StartAt(text, p, s).value;
      Some(text[start..CaptureEnd(text, start, Stops(s))])
  }

  /** Every default is non-empty and has no surrounding whitespace. */
  lemma DefaultTrimmed(s: Section)
    ensures Default(s) != [] && !IsSpace(Default(s)[0]) && !IsSpace(Default(s)[|Default(s)| - 1])
  {}

  /**
   * What `parseFeedback` gives one section, `match?.[1]?.trim() || default`: never empty and never
   * padded; the trimmed capture, or the default when the pattern does not match or captures only
   * whitespace.
   */
  function SectionText(text: string, s: Section): (r: string)
    ensures r != [] && !IsSpace(r[0]) && !IsSpace(r[|r| - 1])
    ensures Capture(text, s).None? ==> r == Default(s)
    ensures Capture(text, s).Some? && AllSpace(Capture(text, s).value) ==> r == Default(s)
    ensures Capture(text, s).Some? && !AllSpace(Capture(text, s).value) ==> r == Trim(Capture(text, s).value)
  {
    DefaultTrimmed(s);
    var c := Capture(text, s);
    if c.Some? && Trim(c.value) != [] then Trim(c.value) else Default(s)
  }

  function SectionOf(f: Feedback, s: Section): string {
    match s
    case Summary => f.summary
    case Observation => f.keyObservation
    case Change => f.firstThingToChange
    case WatchOuts => f.watchOuts
  }

  /**
   * `parseFeedback`: each field of the result is read from its own section of the reply, and
   * every field is filled, trimmed, and its section's default when the section is missing.
   */
  function ParseFeedback(text: string): (f: Feedback)
    ensures forall s: Section :: SectionOf(f, s) == SectionText(text, s)
    ensures forall s: Section :: SectionOf(f, s) != []
    ensures forall s: Section :: !IsSpace(SectionOf(f, s)[0]) && !IsSpace(SectionOf(f, s)[|SectionOf(f, s)| - 1])
    ensures forall s: Section :: Capture(text, s).None? ==> SectionOf(f, s) == Default(s)
  {
    var f := Feedback(SectionText(text, Summary), SectionText(text, Observation), SectionText(text, Change),
                      SectionText(text, WatchOuts));
    FieldsAreSections(text, f);
    f
  }

  /** A feedback whose four fields are the four section texts has each section's text in its field. */
  lemma FieldsAreSections(text: string, f: Feedback)
    requires f.summary == SectionText(text, Summary) && f.keyObservation == SectionText(text, Observation)
    requires f.firstThingToChange == SectionText(text, Change) && f.watchOuts == SectionText(text, WatchOuts)
    ensures forall s: Section :: SectionOf(f, s) == SectionText(text, s)
  {
    forall s: Section ensures SectionOf(f, s) == SectionText(text, s) {
      match s {
        case Summary =>
        case Observation =>
        case Change =>
        case WatchOuts =>
      }
    }
  }

  /** A section whose label occurs nowhere in the reply, in any case, gets its default. */
  lemma AbsentLabelDefaults(text: string, s: Section)
    requires forall p :: 0 <= p <= |text| ==> !LabelAt(text, p, s)
    ensures SectionText(text, s) == Default(s)
  {
    forall p | 0 <= p <= |text| ensures StartAt(text, p, s).None? {
      assert !LabelAt(text, p, s);
    }
  }

  /**
   * The label is matched in any case; the colon and the whitespace after it are skipped, and
   * `WATCH-?OUTS?` admits the dash and the plural.
   */
  lemma LabelledLineExamples()
    ensures SectionText("SUMMARY: x", Summary) == "x"
    ensures SectionText("summary:x", Summary) == "x"
    ensures SectionText("Watch-outs: y", WatchOuts) == "y"
    ensures SectionText("WATCHOUT y", WatchOuts) == "y"
  {
    SummaryExample("SUMMARY: x", 9);
    SummaryExample("summary:x", 8);
    DashedWatchExample("Watch-outs: y");
    PlainWatchExample("WATCHOUT y");
  }

  lemma SummaryExample(text: string, x: nat)
    requires (text == "SUMMARY: x" && x == 9) || (text == "summary:x" && x == 8)
    ensures SectionText(text, Summary) == "x"
  {
    assert LabelEnd(text, 0, Summary) == Some(7);
    assert SpaceRunEnd(text, x) == x;
    assert SpaceRunEnd(text, 8) == x;
    assert StartAt(text, 0, Summary) == Some(x);
    assert FindMatch(text, Summary) == Some(0);
    assert LineEnd(text, x + 1) == x + 1;
    assert LineEnd(text, x) == x + 1;
    assert text[x..x + 1] == "x";
    assert NoSpace("x");
  }

  lemma DashedWatchExample(text: string)
    requires text == "Watch-outs: y"
    ensures SectionText(text, WatchOuts) == "y"
  {
    assert LabelEnd(text, 0, WatchOuts) == Some(9);
    assert SpaceRunEnd(text, 12) == 12;
    assert SpaceRunEnd(text, 11) == 12;
    assert AfterColon(text, 10) == Some(12);
    assert AfterWatchLabel(text, 9) == Some(12);
    assert StartAt(text, 0, WatchOuts) == Some(12);
    assert FindMatch(text, WatchOuts) == Some(0);
    assert LineEnd(text, 13) == 13;
    assert LineEnd(text, 12) == 13;
    assert text[12..13] == "y";
    assert NoSpace("y");
  }

  lemma PlainWatchExample(text: string)
    requires text == "WATCHOUT y"
    ensures SectionText(text, WatchOuts) == "y"
  {
    assert LabelEnd(text, 0, WatchOuts) == Some(8);
    assert SpaceRunEnd(text, 9) == 9;
    assert SpaceRunEnd(text, 8) == 9;
    assert AfterColon(text, 8) == Some(9);
    assert StartAt(text, 0, WatchOuts) == Some(9);
    assert FindMatch(text, WatchOuts) == Some(0);
    assert LineEnd(text, 10) == 10;
    assert LineEnd(text, 9) == 10;
    assert text[9..10] == "y";
    assert NoSpace("y");
  }

  /** An empty reply yields the four defaults. */
  lemma EmptyReplyDefaults()
    ensures ParseFeedback("") == Feedback(Default(Summary), Default(Observation), Default(Change), Default(WatchOuts))
  {
    EmptySection(Summary);
    EmptySection(Observation);
    EmptySection(Change);
    EmptySection(WatchOuts);
  }

  /** No label can match in an empty reply. */
  lemma EmptySection(s: Section)
    ensures SectionText("", s) == Default(s)
  {
    assert StartAt("", 0, s).None?;
    assert Capture("", s).None?;
  }

  /**
   * A colon followed by nothing but line feeds is given back to the capture: the section's text
   * is then ":" itself, not its default.
   */
  lemma ColonGivenBack(text: string, q: nat, stops: seq<string>)
    requires q < |text| && text[q] == ':'
    requires forall i :: q < i < |text| ==> text[i] == '\n'
    ensures AfterColon(text, q) == Some(q)
    ensures text[q..CaptureEnd(text, q, stops)] == ":"
  {
    assert CaptureStart(text, q + 1).None?;
    assert SpaceRunEnd(text, q) == q;
    var e := CaptureEnd(text, q, stops);
    assert LineEnd(text, q + 1) == q + 1;
    assert LineEnd(text, q) == q + 1 by {
      assert q + 1 < |text| ==> text[q + 1] == '\n';
    }
    assert e == q + 1;
  }

  /**
   * The watch-outs capture ignores every label: it runs to the first empty line or the end of
   * the text.
   */
  lemma WatchOutsRunToBlankLine(text: string, r: nat)
    requires r <= |text|
    ensures var e := CaptureEnd(text, r, Stops(WatchOuts));
      && (forall i :: r <= i < e && text[i] == '\n' ==> i + 1 < e && text[i + 1] != '\n')
      && (e == |text| || e + 1 == |text| || text[e + 1] == '\n')
  {
    var e := CaptureEnd(text, r, Stops(WatchOuts));
    assert e < |text| ==> !StopAt(text, e + 1, Stops(WatchOuts));
  }

  /** A line opening with a label that comes earlier in the prompt's order does not stop a capture. */
  lemma EarlierLabelsDoNotStop(text: string, i: nat)
    ensures WordAt(text, i, SummaryLabel) ==> !StopAt(text, i, Stops(Observation)) && !StopAt(text, i, Stops(Change))
    ensures WordAt(text, i, ObservationLabel) ==> !StopAt(text, i, Stops(Change))
  {
    if WordAt(text, i, SummaryLabel) {
      assert SummaryLabel[0] == 'S';
      assert Upper(text[i + 0]) == SummaryLabel[0];
      OtherInitialNoStop(text, i, Stops(Observation), 'S');
      OtherInitialNoStop(text, i, Stops(Change), 'S');
    }
    if WordAt(text, i, ObservationLabel) {
      assert ObservationLabel[0] == 'K';
      assert Upper(text[i + 0]) == ObservationLabel[0];
      OtherInitialNoStop(text, i, Stops(Change), 'K');
    }
  }

  /** No stop label matches where the text shows a letter none of them starts with. */
  lemma OtherInitialNoStop(text: string, i: nat, stops: seq<string>, c: char)
    requires i < |text| && Upper(text[i]) == c
    requires forall j :: 0 <= j < |stops| ==> stops[j] != [] && stops[j][0] != c
    ensures !StopAt(text, i, stops)
  {
    forall j | 0 <= j < |stops| ensures !WordAt(text, i, stops[j]) {
      assert Upper(text[i + 0]) != stops[j][0];
    }
  }

  // ---------------------------------------------------------------------------------------
  // generatePlaceholderFeedback

  const PlaceholderGreeting := "Thank you for completing the diagnostic, "
  const PlaceholderClosing := ". Your responses reveal important insights about your supply chain operations and areas where strategic improvements could drive significant impact."

  /** `generatePlaceholderFeedback`: only the summary depends on the user, through the name. */
  const PlaceholderObservation := "Based on your responses, there appears to be a need for stronger end-to-end visibility and clearer process ownership across your supply chain operations. This is a common challenge for growing organizations."
  const PlaceholderChange := "Establish clear decision-making authority for each key process. Start by documenting who owns each critical decision point in your supply chain flow."
  const PlaceholderWatchOuts := "Watch for capacity constraints as you scale. Monitor how well your current processes handle volume increases, and ensure your team has bandwidth for strategic work, not just firefighting."

  function PlaceholderFeedback(name: string): (f: Feedback)
    ensures Greets(f.summary, name)
    ensures f.keyObservation == PlaceholderObservation && f.firstThingToChange == PlaceholderChange
    ensures f.watchOuts == PlaceholderWatchOuts
  {
    var summary := PlaceholderGreeting + name + PlaceholderClosing;
    OpensWith(PlaceholderGreeting, name, PlaceholderClosing);
    assert summary[|PlaceholderGreeting| + |name|..] == PlaceholderClosing;
    Feedback(summary, PlaceholderObservation, PlaceholderChange, PlaceholderWatchOuts)
  }

  /** The summary is the greeting, then the name, then the closing sentence. */
  predicate Greets(summary: string, name: string) {
    var g := |PlaceholderGreeting|;
    && |summary| == g + |name| + |PlaceholderClosing|
    && summary[..g] == PlaceholderGreeting
    && summary[g..g + |name|] == name
    && summary[g + |name|..] == PlaceholderClosing
  }

  /** Two placeholders agree on the three constant fields and differ in the summary exactly when the names differ. */
  lemma PlaceholderDependsOnlyOnName(a: string, b: string)
    ensures PlaceholderFeedback(a).keyObservation == PlaceholderFeedback(b).keyObservation
    ensures PlaceholderFeedback(a).firstThingToChange == PlaceholderFeedback(b).firstThingToChange
    ensures PlaceholderFeedback(a).watchOuts == PlaceholderFeedback(b).watchOuts
    ensures PlaceholderFeedback(a).summary == PlaceholderFeedback(b).summary <==> a == b
  {
    if PlaceholderFeedback(a).summary == PlaceholderFeedback(b).summary {
      MiddleDetermined(PlaceholderGreeting, a, b, PlaceholderClosing);
    }
  }

  /** A text framed by the same prefix and suffix determines what sits between them. */
  lemma MiddleDetermined(g: string, x: string, y: string, c: string)
    requires g + x + c == g + y + c
    ensures x == y
  {
    assert |x| == |y|;
    assert x == (g + x + c)[|g|..|g| + |x|];
    assert y == (g + y + c)[|g|..|g| + |y|];
  }

  // ---------------------------------------------------------------------------------------
  // buildAnalysisContext

  const PreambleOpening := "You are a Senior Supply Chain Consultant analyzing diagnostic results for "
  const WorksAs := ", who works as "
  const At := " at "
  const PreambleEnd := ".\n\n"

  /** The opening sentence naming the user, the role and the company. */
  function Preamble(u: UserInfo): string {
    PreambleOpening + u.name + WorksAs + u.role + At + u.company + PreambleEnd
  }

  const ScoresHeading := "CATEGORY SCORES (out of 5):\n"
  const ResponsesHeading := "\nDETAILED RESPONSES:\n"

  /** The fixed instructions that close the prompt, naming the four labels the parser reads. */
  const Instructions :=
    "\n\nBased on this analysis, provide feedback in the following format:\n\n"
    + "SUMMARY: (2-3 sentences summarizing what you observe about their supply chain maturity, mentioning specific areas where they are strong or weak)\n\n"
    + "KEY OBSERVATION: (One paragraph identifying the most critical pattern or insight from their responses)\n\n"
    + "FIRST THING TO CHANGE: (One specific, actionable recommendation for immediate improvement)\n\n"
    + "WATCH-OUTS: (2-3 specific risks or challenges they should monitor based on their current state)\n\n"
    + "Keep the tone professional but conversational. Reference specific responses they gave, not just scores."

  function ScoreLine(category: string, score: real): string {
    "- " + category + ": " + ToFixed1(score) + "\n"
  }

  /** One line per dictionary entry, in entry order. */
  function ScoreLines(scores: CategoryScores, keys: seq<string>): string
    requires forall i :: 0 <= i < |keys| ==> keys[i] in scores.data
  {
    if keys == [] then ""
    else
      var k := keys[|keys| - 1];
      ScoreLines(scores, keys[..|keys| - 1]) + ScoreLine(k, scores.data[k].score)
  }

  function QuestionLine(s: Statement): string {
    "\nQ: " + s.question + "\n"
  }

  function AnswerLine(a: Answer): string {
    "A: " + IntToString(a.value) + "/5\n"
  }

  function InterpretationLine(s: Statement): string {
    "Context: " + s.interpretation + "\n"
  }

  /** The three lines that show one answered statement. */
  function ResponseBlock(s: Statement, a: Answer): string {
    QuestionLine(s) + AnswerLine(a) + InterpretationLine(s)
  }

  /** The block one answer contributes: nothing when its statement does not exist. */
  function AnswerLines(catalog: seq<Statement>, a: Answer): string {
    match FindStatement(catalog, a.statementId)
    case None => ""
    case Some(s) => ResponseBlock(s, a)
  }

  /** The question, answer and interpretation of every answer whose statement exists, in answer order. */
  function ResponseLines(catalog: seq<Statement>, answers: seq<Answer>): string {
    if answers == [] then ""
    else ResponseLines(catalog, answers[..|answers| - 1]) + AnswerLines(catalog, answers[|answers| - 1])
  }

  /** The whole prompt: the preamble first and the instructions naming the four labels last. */
  function AnalysisContext(catalog: seq<Statement>, u: UserInfo, answers: seq<Answer>, scores: CategoryScores): (c: string)
    requires scores.Valid()
    ensures StartsWith(c, Preamble(u)) && EndsWith(c, Instructions)
  {
    Framed(Preamble(u), ContextBody(catalog, answers, scores), Instructions);
    Preamble(u) + ContextBody(catalog, answers, scores) + Instructions
  }

  /** What sits between the preamble and the instructions: the scores, then the responses. */
  function ContextBody(catalog: seq<Statement>, answers: seq<Answer>, scores: CategoryScores): string
    requires scores.Valid()
  {
    ScoresHeading + ScoreLines(scores, scores.order) + ResponsesHeading + ResponseLines(catalog, answers)
  }

  predicate StartsWith(t: string, a: string) {
    |a| <= |t| && t[..|a|] == a
  }

  predicate EndsWith(t: string, c: string) {
    |c| <= |t| && t[|t| - |c|..] == c
  }

  lemma Framed(a: string, b: string, c: string)
    ensures StartsWith(a + b + c, a) && EndsWith(a + b + c, c)
  {
    var t := a + b + c;
    assert t[..|a|] == a;
    assert t[|t| - |c|..] == c;
  }

  /** `buildAnalysisContext`: the prompt accumulated piece by piece with `+=`. */
  method BuildAnalysisContext(catalog: seq<Statement>, u: UserInfo, answers: seq<Answer>, scores: CategoryScores)
    returns (context: string)
    requires scores.Valid()
    ensures context == AnalysisContext(catalog, u, answers, scores)
  {
    context := Preamble(u);
    context := context + ScoresHeading;
    context := AppendScoreLines(context, scores);
    context := context + ResponsesHeading;
    context := AppendResponses(context, catalog, answers);
    context := context + Instructions;
    Nest(Preamble(u), ScoresHeading, ScoreLines(scores, scores.order), ResponsesHeading,
         ResponseLines(catalog, answers), Instructions);
  }

  /** The first `forEach` of `buildAnalysisContext`: one line per dictionary entry. */
  method AppendScoreLines(context: string, scores: CategoryScores) returns (result: string)
    requires forall i :: 0 <= i < |scores.order| ==> scores.order[i] in scores.data
    ensures result == context + ScoreLines(scores, scores.order)
  {
    result := context;
    for i := 0 to |scores.order|
      invariant result == context + ScoreLines(scores, scores.order[..i])
    {
      var category := scores.order[i];
      var line := ScoreLine(category, scores.data[category].score);
      assert scores.order[..i + 1][..i] == scores.order[..i];
      Assoc(context, ScoreLines(scores, scores.order[..i]), line);
      result := result + line;
    }
    assert scores.order[..|scores.order|] == scores.order;
  }

  /** The second `forEach` of `buildAnalysisContext`: three lines per answer whose statement exists. */
  method AppendResponses(context: string, catalog: seq<Statement>, answers: seq<Answer>) returns (result: string)
    ensures result == context + ResponseLines(catalog, answers)
  {
    result := context;
    for i := 0 to |answers|
      invariant result == context + ResponseLines(catalog, answers[..i])
    {
      var answer := answers[i];
      assert answers[..i + 1][..i] == answers[..i];
      var statement := FindStatement(catalog, answer.statementId);
      if statement.Some? {
        ghost var before := result;
        result := result + QuestionLine(statement.value);
        result := result + AnswerLine(answer);
        result := result + InterpretationLine(statement.value);
        Regroup(before, QuestionLine(statement.value), AnswerLine(answer), InterpretationLine(statement.value));
        Assoc(context, ResponseLines(catalog, answers[..i]), ResponseBlock(statement.value, answer));
      }
    }
    assert answers[..|answers|] == answers;
  }

  lemma Assoc(a: string, b: string, c: string)
    ensures a + b + c == a + (b + c)
  {}

  lemma Regroup(a: string, b: string, c: string, d: string)
    ensures a + b + c + d == a + (b + c + d)
  {}

  /** The responses of two runs of answers are those of each run, one after the other. */
  lemma {:induction false} ResponseLinesAppend(catalog: seq<Statement>, a: seq<Answer>, b: seq<Answer>)
    ensures ResponseLines(catalog, a + b) == ResponseLines(catalog, a) + ResponseLines(catalog, b)
    decreases |b|
  {
    if b == [] {
      assert a + b == a;
    } else {
      var b', x := b[..|b| - 1], b[|b| - 1];
      assert (a + b)[..|a + b| - 1] == a + b';
      assert (a + b)[|a + b| - 1] == x;
      ResponseLinesAppend(catalog, a, b');
      Assoc(ResponseLines(catalog, a), ResponseLines(catalog, b'), AnswerLines(catalog, x));
    }
  }

  /** An answer whose statement id matches no statement leaves no trace in the prompt. */
  lemma UnknownAnswerSkipped(catalog: seq<Statement>, u: UserInfo, a: seq<Answer>, x: Answer, b: seq<Answer>,
                             scores: CategoryScores)
    requires scores.Valid()
    requires FindStatement(catalog, x.statementId) == None
    ensures AnalysisContext(catalog, u, a + [x] + b, scores) == AnalysisContext(catalog, u, a + b, scores)
  {
    UnknownAnswerNoLines(catalog, a, x, b);
  }

  lemma UnknownAnswerNoLines(catalog: seq<Statement>, a: seq<Answer>, x: Answer, b: seq<Answer>)
    requires FindStatement(catalog, x.statementId) == None
    ensures ResponseLines(catalog, a + [x] + b) == ResponseLines(catalog, a + b)
  {
    var ax := a + [x];
    ResponseLinesAppend(catalog, ax, b);
    ResponseLinesAppend(catalog, a, [x]);
    UnknownAnswerAlone(catalog, x);
    ResponseLinesAppend(catalog, a, b);
  }

  lemma UnknownAnswerAlone(catalog: seq<Statement>, x: Answer)
    requires FindStatement(catalog, x.statementId) == None
    ensures ResponseLines(catalog, [x]) == ""
  {
    assert [x][..0] == [];
  }

  /** The prompt opens with the preamble naming the user, role and company, then the scores. */
  lemma ContextOpensWithPreamble(catalog: seq<Statement>, u: UserInfo, answers: seq<Answer>, scores: CategoryScores)
    requires scores.Valid()
    ensures var c := AnalysisContext(catalog, u, answers, scores);
      var n := |Preamble(u)|;
      && c[..n] == Preamble(u)
      && c[n..n + |ScoresHeading|] == ScoresHeading
  {
    var p, h := Preamble(u), ScoresHeading;
    var s, r, l, i := ScoreLines(scores, scores.order), ResponsesHeading, ResponseLines(catalog, answers), Instructions;
    Nest(p, h, s, r, l, i);
    Regroup(p + h, s, r, l);
    Assoc(p + h, s + r + l, i);
    OpensWith(p, h, s + r + l + i);
  }

  lemma Nest(p: string, h: string, s: string, r: string, l: string, i: string)
    ensures p + h + s + r + l + i == p + (h + s + r + l) + i
  {}

  lemma OpensWith(a: string, b: string, c: string)
    ensures (a + b + c)[..|a|] == a && (a + b + c)[|a|..|a| + |b|] == b
  {}

  // ---------------------------------------------------------------------------------------
  // POST

  /** The request body: unreadable (the handler throws before calling out) or its three parts. */
  datatype RequestBody = Malformed | Body(userInfo: UserInfo, answers: seq<Answer>, categoryScores: CategoryScores)

  /** The outcome of the call to the language model: a failure of any kind, or the reply's text. */
  datatype CallOutcome = CallFailed | Completed(text: string)

  datatype Response = Response(status: int, feedback: Feedback)

  /** `!apiKey`: the key is unset or empty. */
  predicate NoKey(apiKey: Option<string>) {
    apiKey.None? || apiKey.value == ""
  }

  /**
   * `POST /api/feedback`. The answer is always a 200. Without a key the placeholder greets the
   * user; on any failure it greets "User"; otherwise the reply is parsed. `prompt` is the text
   * sent to the model, when a call is made.
   */
  method Post(body: RequestBody, apiKey: Option<string>, catalog: seq<Statement>, outcome: CallOutcome)
    returns (response: Response, prompt: Option<string>)
    requires body.Body? ==> body.categoryScores.Valid()
    ensures response.status == 200
    ensures body.Malformed? ==> response.feedback == PlaceholderFeedback("User") && prompt.None?
    ensures body.Body? && NoKey(apiKey) ==> response.feedback == PlaceholderFeedback(body.userInfo.name) && prompt.None?
    ensures body.Body? && !NoKey(apiKey) ==>
      prompt == Some(AnalysisContext(catalog, body.userInfo, body.answers, body.categoryScores))
    ensures body.Body? && !NoKey(apiKey) && outcome.CallFailed? ==> response.feedback == PlaceholderFeedback("User")
    ensures body.Body? && !NoKey(apiKey) && outcome.Completed? ==> response.feedback == ParseFeedback(outcome.text)
  {
    prompt := None;
    if body.Malformed? {
      return Response(200, PlaceholderFeedback("User")), prompt;
    }
    if NoKey(apiKey) {
      return Response(200, PlaceholderFeedback(body.userInfo.name)), prompt;
    }
    var context := BuildAnalysisContext(catalog, body.userInfo, body.answers, body.categoryScores);
    prompt := Some(context);
    match outcome
    case CallFailed =>
      response := Response(200, PlaceholderFeedback("User"));
    case Completed(text) =>
      response := Response(200, ParseFeedback(text));
  }
}
