/**
 * The demo heuristic content scorer: from a pasted text to an SEO score, a
 * GEO score and three advisory notes.
 */
module Scorer {
  import opened Text
  import opened Headings

  /** The advisory notes the scorer can emit. */
  datatype Note =
    | EmptyInput
    | AddHeadings | HeadingsOk
    | AddQuestions | QuestionsOk
    | ShortContent | LengthOk
  {
    /** The exact text shown for the note. */
    function Message(): string {
      match this
      case EmptyInput => "Paste some content first to run an analysis."
      case AddHeadings => "Add clearer section headings so search and AI can parse structure."
      case HeadingsOk => "Heading structure looks reasonable \U{2013} review H1 / H2 labels."
      case AddQuestions => "Try adding a short Q&A or FAQ style section for GEO."
      case QuestionsOk => "Nice use of questions \U{2013} good for featured snippets and AI prompts."
      case ShortContent => "Content is on the shorter side \U{2013} consider expanding key sections."
      case LengthOk => "Length is solid for deeper SEO and GEO coverage."
    }
  }

  /** The record the scorer returns: `{seo, geo, notes}`. */
  datatype Analysis = Analysis(seo: int, geo: int, notes: seq<Note>)

  /** The fixed result for empty or whitespace-only input. */
  const EmptyResult := Analysis(0, 0, [EmptyInput])

  /** `Math.round`: the nearest integer, halves rounded towards +infinity. */
  function RoundHalfUp(x: real): (r: int)
    ensures x - 0.5 < r as real <= x + 0.5
  {
    (x + 0.5).Floor
  }

  /** The floor of `x` is the integer `q` with `q <= x < q + 1`. */
  lemma FloorIs(x: real, q: int)
    requires q as real <= x < q as real + 1.0
    ensures x.Floor == q
  {
  }

  /** `Math.round(length / 40 + headings * 4)`, computed exactly on integers. */
  function SeoRaw(length: nat, headings: nat): (r: int)
    ensures r == RoundHalfUp(length as real / 40.0 + (headings * 4) as real)
  {
    var sum := length + 160 * headings + 20;
    FloorIs(sum as real / 40.0, sum / 40);
    sum / 40
  }

  /** `Math.round(length / 55 + questions * 6)`, computed exactly on integers. */
  function GeoRaw(length: nat, questions: nat): (r: int)
    ensures r == RoundHalfUp(length as real / 55.0 + (questions * 6) as real)
  {
    var sum := 2 * length + 660 * questions + 55;
    FloorIs(sum as real / 110.0, sum / 110);
    sum / 110
  }

  /** `Math.max(20, Math.min(100, raw))`: capped at 100 first, then floored at 20. */
  function Clamp(raw: int): (score: int)
    ensures 20 <= score <= 100
    ensures 20 <= raw <= 100 ==> score == raw
    ensures raw > 100 ==> score == 100
    ensures raw < 20 ==> score == 20
  {
    var capped := if raw < 100 then raw else 100;
    if 20 < capped then capped else 20
  }

  function SeoScore(length: nat, headings: nat): int {
    Clamp(SeoRaw(length, headings))
  }

  function GeoScore(length: nat, questions: nat): int {
    Clamp(GeoRaw(length, questions))
  }

  /** The three advisory notes, one per independent threshold test. */
  function Notes(length: nat, headings: nat, questions: nat): (notes: seq<Note>)
    ensures |notes| == 3
    ensures notes[0] == AddHeadings <==> headings < 2
    ensures notes[0] == HeadingsOk <==> headings >= 2
    ensures notes[1] == AddQuestions <==> questions < 2
    ensures notes[1] == QuestionsOk <==> questions >= 2
    ensures notes[2] == ShortContent <==> length < 800
    ensures notes[2] == LengthOk <==> length >= 800
  {
    [ if headings < 2 then AddHeadings else HeadingsOk,
      if questions < 2 then AddQuestions else QuestionsOk,
      if length < 800 then ShortContent else LengthOk ]
  }

  /** `demoScoreContent`: the scorer proper. */
  function DemoScoreContent(text: JsString): (r: Analysis)
    ensures r == EmptyResult <==> AllWs(text)
    ensures 0 <= r.seo <= 100 && 0 <= r.geo <= 100
    ensures !AllWs(text) ==> 20 <= r.seo && 20 <= r.geo && |r.notes| == 3
  {
    var clean := Trim(text);
    if clean == [] then EmptyResult
    else
      var length := |clean|;
      var headings := CountHeadings(clean);
      var questions := CountOf(clean, QUESTION);
      Analysis(SeoScore(length, headings), GeoScore(length, questions),
               Notes(length, headings, questions))
  }

  /** For non-blank text, the SEO score is the rounded (then clamped) value
      of the source's real-valued formula over the trimmed text. */
  lemma SeoScoreFormula(text: JsString)
    requires !AllWs(text)
    ensures var clean := Trim(text);
      DemoScoreContent(text).seo
        == Clamp(RoundHalfUp(|clean| as real / 40.0 + (CountHeadings(clean) * 4) as real))
  {
    var clean := Trim(text);
    assert clean != [];
    var n, h := |clean|, CountHeadings(clean);
    assert DemoScoreContent(text).seo == Clamp(SeoRaw(n, h));
  }

  /** For non-blank text, the GEO score is the rounded (then clamped) value
      of the source's real-valued formula, counting the `?` of the trimmed text. */
  lemma GeoScoreFormula(text: JsString)
    requires !AllWs(text)
    ensures var clean := Trim(text);
      DemoScoreContent(text).geo
        == Clamp(RoundHalfUp(|clean| as real / 55.0 + (multiset(clean)[QUESTION] * 6) as real))
  {
    var clean := Trim(text);
    assert clean != [];
    var n, q := |clean|, CountOf(clean, QUESTION);
    assert DemoScoreContent(text).geo == Clamp(GeoRaw(n, q));
  }

  /** For non-blank text, the notes are the heading note, the question note
      and the length note, in that order, each chosen by its own threshold. */
  lemma NoteSelection(text: JsString)
    requires !AllWs(text)
    ensures var clean, notes := Trim(text), DemoScoreContent(text).notes;
      && |notes| == 3
      && (notes[0] == AddHeadings <==> CountHeadings(clean) < 2)
      && (notes[0] == HeadingsOk <==> CountHeadings(clean) >= 2)
      && (notes[1] == AddQuestions <==> multiset(clean)[QUESTION] < 2)
      && (notes[1] == QuestionsOk <==> multiset(clean)[QUESTION] >= 2)
      && (notes[2] == ShortContent <==> |clean| < 800)
      && (notes[2] == LengthOk <==> |clean| >= 800)
  {
  }

  /** The result depends only on the trimmed text. */
  lemma ScoreOfTrimmed(text: JsString)
    ensures DemoScoreContent(Trim(text)) == DemoScoreContent(text)
  {
    TrimIdempotent(text);
  }

  /** Adding leading or trailing whitespace never changes the result. */
  lemma ScoreIgnoresPadding(pre: JsString, text: JsString, post: JsString)
    requires AllWs(pre) && AllWs(post)
    ensures DemoScoreContent(pre + text + post) == DemoScoreContent(text)
  {
    TrimIgnoresPadding(pre, text, post);
  }

  /** The SEO score never drops when the length or the heading count grows. */
  lemma SeoScoreMonotone(length1: nat, headings1: nat, length2: nat, headings2: nat)
    requires length1 <= length2 && headings1 <= headings2
    ensures SeoScore(length1, headings1) <= SeoScore(length2, headings2)
  {
    assert length1 + 160 * headings1 + 20 <= length2 + 160 * headings2 + 20;
  }

  /** The GEO score never drops when the length or the question count grows. */
  lemma GeoScoreMonotone(length1: nat, questions1: nat, length2: nat, questions2: nat)
    requires length1 <= length2 && questions1 <= questions2
    ensures GeoScore(length1, questions1) <= GeoScore(length2, questions2)
  {
    assert 2 * length1 + 660 * questions1 + 55 <= 2 * length2 + 660 * questions2 + 55;
  }

  /** Of two texts whose trimmed forms have the same length, the
      one with at least as many headings has at least the SEO score of the
      other, whatever their question counts. */
  lemma MoreHeadingsNeverLowerSeo(a: JsString, b: JsString)
    requires |Trim(a)| == |Trim(b)|
    requires CountHeadings(Trim(a)) <= CountHeadings(Trim(b))
    ensures DemoScoreContent(a).seo <= DemoScoreContent(b).seo
  {
    SeoScoreMonotone(|Trim(a)|, CountHeadings(Trim(a)), |Trim(b)|, CountHeadings(Trim(b)));
  }

  /** Of two texts whose trimmed forms have the same length, the
      one with at least as many `?` has at least the GEO score of the other,
      whatever their heading counts. */
  lemma MoreQuestionsNeverLowerGeo(a: JsString, b: JsString)
    requires |Trim(a)| == |Trim(b)|
    requires CountOf(Trim(a), QUESTION) <= CountOf(Trim(b), QUESTION)
    ensures DemoScoreContent(a).geo <= DemoScoreContent(b).geo
  {
    GeoScoreMonotone(|Trim(a)|, CountOf(Trim(a), QUESTION), |Trim(b)|, CountOf(Trim(b), QUESTION));
  }

  /** The SEO score does not depend on the question count: two texts with
      the same trimmed length and heading count score the same. */
  lemma SeoIgnoresQuestions(a: JsString, b: JsString)
    requires |Trim(a)| == |Trim(b)|
    requires CountHeadings(Trim(a)) == CountHeadings(Trim(b))
    ensures DemoScoreContent(a).seo == DemoScoreContent(b).seo
  {
  }

  /** The GEO score does not depend on the heading count: two texts with
      the same trimmed length and `?` count score the same. */
  lemma GeoIgnoresHeadings(a: JsString, b: JsString)
    requires |Trim(a)| == |Trim(b)|
    requires CountOf(Trim(a), QUESTION) == CountOf(Trim(b), QUESTION)
    ensures DemoScoreContent(a).geo == DemoScoreContent(b).geo
  {
  }

  /** 2000 filler letters, no headings, no questions: SEO 50, GEO 36. */
  lemma FillerScenario(text: JsString)
    requires |text| == 2000
    requires forall k :: 0 <= k < |text| ==> text[k] == 0x61
    ensures DemoScoreContent(text) == Analysis(50, 36, [AddHeadings, AddQuestions, LengthOk])
  {
    TrimUnique(text, 0, |text|);
    assert text[0..|text|] == text;
    FirstLineNeverCounted(text, []);
    assert text + [] == text;
    assert QUESTION !in multiset(text);
  }

  /** Three headings in 3100 code units: `round(77.5 + 12)` is 90, below the
      cap, and the heading note is the positive one. */
  lemma ThreeHeadingsScenario(text: JsString)
    requires |Trim(text)| == 3100 && CountHeadings(Trim(text)) == 3
    ensures DemoScoreContent(text).seo == 90
    ensures DemoScoreContent(text).notes[0] == HeadingsOk
  {
    assert Trim(text) != [];
    assert SeoRaw(3100, 3) == 90;
  }

  /** The SEO score is capped exactly when `length + 160 * headings` reaches
      3980, and floored exactly when it stays below 820. */
  lemma SeoScoreSaturation(length: nat, headings: nat)
    ensures SeoScore(length, headings) == 100 <==> length + 160 * headings >= 3980
    ensures SeoScore(length, headings) == 20 <==> length + 160 * headings < 820
  {
    var sum := length + 160 * headings + 20;
    assert sum >= 4000 <==> sum / 40 >= 100;
    assert sum < 840 <==> sum / 40 <= 20;
  }

  /** The GEO score is capped exactly when `2 * length + 660 * questions`
      reaches 10945, and floored exactly when it stays below 2255. */
  lemma GeoScoreSaturation(length: nat, questions: nat)
    ensures GeoScore(length, questions) == 100 <==> 2 * length + 660 * questions >= 10945
    ensures GeoScore(length, questions) == 20 <==> 2 * length + 660 * questions < 2255
  {
    var sum := 2 * length + 660 * questions + 55;
    assert sum >= 11000 <==> sum / 110 >= 100;
    assert sum < 2310 <==> sum / 110 <= 20;
  }
}
