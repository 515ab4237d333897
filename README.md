# AI Mapper demo content scorer, in Dafny

AI Mapper is a static web prototype. Its only real logic is the heuristic
scorer `demoScoreContent` in `app.js`. The scorer takes the pasted text,
trims it and returns a fixed sentinel for blank input. Otherwise it counts
markdown-style headings (`/\n#+\s/g`) and question marks (`/\?/g`). From the
trimmed length and these two counts it computes two scores, each rounded,
capped at 100 and floored at 20:

- an SEO score, from the length and the heading count;
- a GEO ("generative engine") score, from the length and the question count.

It also picks three advisory notes. The page then maps each score to a
quality label through a fixed ladder of thresholds.

This project models that scorer and the two label ladders as pure Dafny
functions, and proves the properties below about them.

- `text.dfy` (module `Text`) models JavaScript strings as sequences of UTF-16
  code units. A JavaScript string's `length` counts code units, and Dafny's
  `char` cannot hold an unpaired surrogate, so the model uses code units
  rather than `char`. The module also models `String.prototype.trim`, the
  whitespace set shared by `trim` and the regular-expression class `\s`, and
  the `?` count.
- `headings.dfy` (module `Headings`) counts the matches of `/\n#+\s/g`. It is
  written as a recursive scan. A lemma proves it equal to the ECMAScript
  global-match loop, which searches from `lastIndex` and resumes after the end
  of each match.
- `scorer.dfy` (module `Scorer`) models `demoScoreContent` itself. Notes are
  an enumeration; each note's `Message()` is its exact text.
- `quality.dfy` (module `Quality`) models the two label ladders lifted out of
  `updateResults`.

The scores are computed on exact integers. For a trimmed length `n`, heading
count `h` and question count `q`:

- `Math.round(n / 40 + 4h)` equals `(n + 160h + 20) div 40`;
- `Math.round(n / 55 + 6q)` equals `(2n + 660q + 55) div 110`.

`SeoRaw` and `GeoRaw` prove each equality against the real-valued formula,
with rounding to the nearest integer and halves rounded up.

The binary64 arithmetic of the source gives the same results:

- a half in `n / 40` (n ≡ 20 mod 40) is represented exactly;
- `n / 55` never has a fractional part of exactly one half;
- otherwise the value is at least 1/110 away from a half.

Rounding happens first, then the cap at 100, then the floor at 20, in the
order of the code.

Three headings in 3100 trimmed code units score SEO `round(77.5 + 12) =
round(89.5) = 90`, below the cap of 100 (`ThreeHeadingsScenario`).

## Model

| member | source | states |
|---|---|---|
| Text.Trim | app.js:28 | The trimmed text is empty exactly when the input is all whitespace. A non-empty result starts and ends with a non-whitespace code unit, and is never longer than the input. |
| Text.IsWs | app.js:28 | The whitespace set of `trim` and `\s` (ECMA-262 WhiteSpace and LineTerminator). Space and line feed are whitespace; `#` and `?` are not, so the whitespace that ends a heading match can never be part of its `#+` run. |
| Text.TrimUnique | app.js:28 | Any split of a string into a whitespace prefix, a core that is empty or has non-whitespace at both ends, and a whitespace suffix gives that core as `trim`'s result. |
| Text.TrimIdempotent | app.js:28 | Trimming a trimmed text changes nothing. |
| Text.TrimIgnoresLeading | app.js:28 | Whitespace added in front of a string does not change its trimmed form. |
| Text.TrimIgnoresTrailing | app.js:28 | Whitespace added after a string does not change its trimmed form. |
| Text.TrimIgnoresPadding | app.js:28 | Whitespace added on both sides does not change the trimmed form. |
| Text.CountOf | app.js:39 | The number of `/\?/g` matches (0 when `match` returns null) is the multiplicity of `?` in the text. |
| Headings.HashRun | app.js:38 | The greedy `#+` run: every counted code unit is `#`, and the next one is not. |
| Headings.HeadingMatch | app.js:38 | A match at the start of a string has length at least 3. It starts with a line feed, then has only `#` up to its last code unit, and that last code unit is whitespace. |
| Headings.HeadingMatchComplete | app.js:38 | A line feed, k ≥ 1 `#` and then whitespace is always recognised, as a match of length k + 2. |
| Headings.CountHeadings | app.js:38 | Each counted heading takes at least three code units, so 3 × count ≤ length. |
| Headings.HeadingsAtMostNewlines | app.js:38 | There are never more headings than line feeds, since each match consumes its own line feed. |
| Headings.FirstLineNeverCounted | app.js:38 | Text before the first line feed never contributes a heading: the count of `line + rest` equals the count of `rest`. |
| Headings.NextMatch | app.js:38 | The regular-expression search from `lastIndex`: the first position at or after it where the pattern matches, or the end of the string. |
| Headings.MatchEnd | app.js:38 | The `lastIndex` after a match lies at least three code units past the match start and within the string. |
| Headings.GlobalMatchCount | app.js:38 | The ECMAScript global-match loop behind `clean.match(/\n#+\s/g)`: find the next match from `lastIndex`, count it and resume past it. Each match takes at least three code units, so 3 × count ≤ the code units left after `lastIndex`. |
| Headings.SkipStep | app.js:38 | Where the pattern does not match, both the scan and the global-match loop move on by one code unit. |
| Headings.MatchStep | app.js:38 | Where the pattern matches, both the scan and the global-match loop count one and resume just past the match. |
| Headings.CountHeadingsIsGlobalMatch | app.js:38 | The recursive heading count equals the ECMAScript global-match loop from any `lastIndex`. From index 0 it is the length of the array `match` returns. |
| Headings.TrailingLineBreakIsConsumed | app.js:38 | In `"\n#\n# x"` the first match consumes the second line feed as its whitespace, so only one heading is counted. |
| Scorer.RoundHalfUp | app.js:41-42 | `Math.round`: the result is the integer r with x − 0.5 < r ≤ x + 0.5, the nearest integer with halves rounded towards +infinity. |
| Scorer.SeoRaw | app.js:41 | The integer formula equals `Math.round(length / 40 + headings * 4)` over exact reals. |
| Scorer.GeoRaw | app.js:42 | The integer formula equals `Math.round(length / 55 + questions * 6)` over exact reals. |
| Scorer.Clamp | app.js:41-45 | `max(20, min(100, raw))`: the result is in [20, 100], equals `raw` when `raw` is already in range, 100 above it and 20 below it. |
| Scorer.Notes | app.js:47-65 | Exactly three notes: the heading, question and length notes, in that order. Each is the "add"/"short" note exactly when its count is below 2 (length below 800), and the alternative note otherwise. |
| Scorer.DemoScoreContent | app.js:27-68 | The result is the sentinel `{0, 0, ["Paste some content first…"]}` exactly when the input is empty or all whitespace. Both scores lie in [0, 100]. For non-blank input both scores are at least 20 and there are three notes. |
| Scorer.SeoScoreFormula | app.js:37-44 | For non-blank input, the SEO score is `max(20, min(100, round(len / 40 + 4 × headings)))` over the trimmed text, rounded before clamping. |
| Scorer.GeoScoreFormula | app.js:37-45 | For non-blank input, the GEO score is `max(20, min(100, round(len / 55 + 6 × questions)))`, with questions the number of `?` in the trimmed text. |
| Scorer.NoteSelection | app.js:47-67 | For non-blank input, the returned notes are chosen by the heading count, the `?` count and the length of the trimmed text. Each slot's "add"/"short" note appears exactly when its count is below its threshold (2, 2 and 800). |
| Scorer.ScoreOfTrimmed | app.js:28-39 | Scoring the trimmed text gives the same result as scoring the original. |
| Scorer.ScoreIgnoresPadding | app.js:28-39 | Whitespace added before or after the text never changes the result. |
| Scorer.SeoScoreMonotone | app.js:41-44 | The SEO score never drops when the length or the heading count grows. |
| Scorer.GeoScoreMonotone | app.js:42-45 | The GEO score never drops when the length or the question count grows. |
| Scorer.MoreHeadingsNeverLowerSeo | app.js:37-44 | Between two texts of equal trimmed length, the one with at least as many headings has at least the other's SEO score, whatever the question counts. |
| Scorer.MoreQuestionsNeverLowerGeo | app.js:37-45 | Between two texts of equal trimmed length, the one with at least as many `?` has at least the other's GEO score, whatever the heading counts. |
| Scorer.SeoIgnoresQuestions | app.js:37-44 | Texts with the same trimmed length and heading count get the same SEO score. |
| Scorer.GeoIgnoresHeadings | app.js:37-45 | Texts with the same trimmed length and `?` count get the same GEO score. |
| Scorer.FillerScenario | app.js:27-68 | 2000 filler letters give SEO 50, GEO 36 and the notes add-headings, add-Q&A and length-solid. |
| Scorer.ThreeHeadingsScenario | app.js:41-53 | 3100 trimmed code units with three headings give SEO 90, below the cap, and the positive heading note. |
| Scorer.SeoScoreSaturation | app.js:41-44 | SEO is capped at 100 exactly when `length + 160 × headings ≥ 3980`. It is floored at 20 exactly when that sum is below 820. |
| Scorer.GeoScoreSaturation | app.js:42-45 | GEO is capped at 100 exactly when `2 × length + 660 × questions ≥ 10945`. It is floored at 20 exactly when that sum is below 2255. |
| Quality.SeoQualityOf | app.js:80-84 | The SEO ladder: "Strong" exactly at 80 and above, "Good" exactly in [60, 80), "Needs focus" exactly in [40, 60), "Weak" exactly below 40. |
| Quality.GeoQualityOf | app.js:86-90 | The GEO ladder: "AI-ready" exactly at 80 and above, "Promising" exactly in [60, 80), "Under-leveraged" exactly in [40, 60), "Needs work" exactly below 40. |
| Quality.SeoQualityMonotone | app.js:80-84 | A higher SEO score never gets a lower-ranked label. |
| Quality.GeoQualityMonotone | app.js:86-90 | A higher GEO score never gets a lower-ranked label. |
| Quality.StrongSeoThreshold | app.js:80-84 | Combined with the SEO formula, a text is labelled "Strong" exactly when `length + 160 × headings ≥ 3180`. |
| Quality.AiReadyGeoThreshold | app.js:86-90 | Combined with the GEO formula, a text is labelled "AI-ready" exactly when `2 × length + 660 × questions ≥ 8745`. |
| Quality.EmptyResultLabels | app.js:80-90 | The sentinel result for blank input, with both scores 0, is labelled "Weak" and "Needs work". |

## Left out

- Supabase client initialisation and `saveToSupabase` (app.js:13-20, 103-125): a third-party network client, asynchronous, reporting through alerts and the console.
- The DOM side of `updateResults` (app.js:70-78, 92-100): element lookup, `textContent` and `innerHTML` writes, the list of notes, and the dash shown for a score of 0. Only its two label ladders are modelled.
- The `DOMContentLoaded` handlers (app.js:127-185): click listeners, scrolling, enabling and disabling buttons, the 400 ms `setTimeout` and the `new Date().toISOString()` timestamp. They are UI, timing and the wall clock. Their callers always pass `contentInput.value || ""`, a string, so the model's input is always a string.
- IEEE binary64 arithmetic as such: the two divisions and `Math.round` are modelled on exact integers. The reasons these agree are given above. Lengths beyond 2^53, where doubles lose integer precision, are not modelled; both scores are capped long before that.
- A general regular-expression engine: only the two patterns the scorer uses, `\n#+\s` and `\?`, are modelled.
- The note and label texts are modelled as enumerations (`Scorer.Note`, `Quality.SeoQuality`, `Quality.GeoQuality`). Their exact strings come from `Message()` and `Label()`.
- `Scorer.SeoScore` and `Scorer.GeoScore` are compositions (`Clamp` of the raw score) with no contract of their own. Their properties are stated by `SeoScoreFormula`, `GeoScoreFormula`, the monotonicity lemmas and the saturation lemmas.
