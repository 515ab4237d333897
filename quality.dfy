/**
 * The quality labels shown next to the two scores: a fixed ladder of
 * thresholds per score.
 */
module Quality {
  import opened Scorer

  /** SEO quality, lowest rank first. */
  datatype SeoQuality = Weak | NeedsFocus | Good | Strong {
    function Label(): string {
      match this
      case Weak => "Weak"
      case NeedsFocus => "Needs focus"
      case Good => "Good"
      case Strong => "Strong"
    }

    function Rank(): nat {
      match this
      case Weak => 0
      case NeedsFocus => 1
      case Good => 2
      case Strong => 3
    }
  }

  /** GEO quality, lowest rank first. */
  datatype GeoQuality = NeedsWork | UnderLeveraged | Promising | AiReady {
    function Label(): string {
      match this
      case NeedsWork => "Needs work"
      case UnderLeveraged => "Under-leveraged"
      case Promising => "Promising"
      case AiReady => "AI-ready"
    }

    function Rank(): nat {
      match this
      case NeedsWork => 0
      case UnderLeveraged => 1
      case Promising => 2
      case AiReady => 3
    }
  }

  /** The SEO ladder: 80 and up, 60 and up, 40 and up, below 40. */
  function SeoQualityOf(seo: int): (q: SeoQuality)
    ensures q == Strong <==> 80 <= seo
    ensures q == Good <==> 60 <= seo < 80
    ensures q == NeedsFocus <==> 40 <= seo < 60
    ensures q == Weak <==> seo < 40
  {
    if seo >= 80 then Strong
    else if seo >= 60 then Good
    else if seo >= 40 then NeedsFocus
    else Weak
  }

  /** The GEO ladder: 80 and up, 60 and up, 40 and up, below 40. */
  function GeoQualityOf(geo: int): (q: GeoQuality)
    ensures q == AiReady <==> 80 <= geo
    ensures q == Promising <==> 60 <= geo < 80
    ensures q == UnderLeveraged <==> 40 <= geo < 60
    ensures q == NeedsWork <==> geo < 40
  {
    if geo >= 80 then AiReady
    else if geo >= 60 then Promising
    else if geo >= 40 then UnderLeveraged
    else NeedsWork
  }

  /** A higher SEO score never gets a lower-ranked label. */
  lemma SeoQualityMonotone(a: int, b: int)
    requires a <= b
    ensures SeoQualityOf(a).Rank() <= SeoQualityOf(b).Rank()
  {
  }

  /** A higher GEO score never gets a lower-ranked label. */
  lemma GeoQualityMonotone(a: int, b: int)
    requires a <= b
    ensures GeoQualityOf(a).Rank() <= GeoQualityOf(b).Rank()
  {
  }

  /** A text is labelled "Strong" for SEO exactly when
      `length + 160 * headings` reaches 3180. */
  lemma StrongSeoThreshold(length: nat, headings: nat)
    ensures SeoQualityOf(SeoScore(length, headings)) == Strong
        <==> length + 160 * headings >= 3180
  {
    var sum := length + 160 * headings + 20;
    assert sum >= 3200 <==> sum / 40 >= 80;
  }

  /** A text is labelled "AI-ready" for GEO exactly when
      `2 * length + 660 * questions` reaches 8745. */
  lemma AiReadyGeoThreshold(length: nat, questions: nat)
    ensures GeoQualityOf(GeoScore(length, questions)) == AiReady
        <==> 2 * length + 660 * questions >= 8745
  {
    var sum := 2 * length + 660 * questions + 55;
    assert sum >= 8800 <==> sum / 110 >= 80;
  }

  /** The empty-input result, with both scores 0, is labelled "Weak" and
      "Needs work". */
  lemma EmptyResultLabels()
    ensures SeoQualityOf(EmptyResult.seo) == Weak
    ensures GeoQualityOf(EmptyResult.geo) == NeedsWork
  {
  }
}
