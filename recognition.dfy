/** The jewelry recognizer of ai-services/image-processing/jewelry_recognition.py.

    A photo goes through an external object detector (YOLO); every detected
    box is cropped, its category is decided by a keyword override on the
    detector's label or else by shape rules on the crop's largest contour, its
    metal by the share of pixels in three HSV colour bands or else by mean
    brightness; the candidate with the highest detector confidence wins. With no
    detection the whole photo is classified and reported at confidence 0.6.

    What OpenCV and YOLO compute is taken as input: a `Region` carries the
    region's pixels as OpenCV converts them to HSV, its mean grey level and the
    features of its largest external contour; a `Photo` carries its whole-image
    `Region` and what the detector returned for it. */
module JewelryRecognition {
  import opened Wrappers
  import opened Text

  // ---------------------------------------------------------------------------
  // The recognizer's tables (fixed when the recognizer is constructed)
  // ---------------------------------------------------------------------------

  /** Categories with their synonyms, scanned in this order. */
  type KeywordTable = seq<(string, seq<string>)>

  const JewelryTypes: KeywordTable := [
    ("ring", ["ring", "band", "engagement ring", "wedding ring"]),
    ("necklace", ["necklace", "chain", "pendant", "locket"]),
    ("earring", ["earring", "ear stud", "hoop", "drop earring"]),
    ("bracelet", ["bracelet", "bangle", "cuff", "wristband"]),
    ("anklet", ["anklet", "ankle bracelet"]),
    ("brooch", ["brooch", "pin"]),
    ("mangalsutra", ["mangalsutra", "thali"]),
    ("nose_ring", ["nose ring", "nath"]),
    ("bangles", ["bangles", "kada"]),
    ("waist_belt", ["waist belt", "vaddanam", "belly chain"])
  ]

  /** A pixel in OpenCV's HSV encoding (hue 0..180, saturation and value 0..255). */
  datatype Hsv = Hsv(h: int, s: int, v: int)

  /** A metal's colour signature: a closed box in HSV space. The keywords are
      part of the table but no operation reads them. */
  datatype MetalBand = MetalBand(name: string, lower: Hsv, upper: Hsv, keywords: seq<string>)

  const YellowGold := MetalBand("yellow_gold", Hsv(15, 50, 50), Hsv(35, 255, 255),
    ["gold", "yellow gold", "22k gold", "24k gold", "18k gold"])
  const RoseGold := MetalBand("rose_gold", Hsv(0, 30, 100), Hsv(15, 180, 255),
    ["rose gold", "pink gold", "red gold"])
  const WhiteGoldSilver := MetalBand("white_gold_silver", Hsv(0, 0, 150), Hsv(180, 50, 255),
    ["white gold", "silver", "platinum", "white metal"])

  const MetalColors: seq<MetalBand> := [YellowGold, RoseGold, WhiteGoldSilver]

  /** Every category the recognizer can report. */
  const CategoryLabels: set<string> := {"ring", "necklace", "earring", "bracelet", "anklet", "brooch",
    "mangalsutra", "nose_ring", "bangles", "waist_belt", "jewelry"}

  /** The categories the shape rules can produce. */
  const ShapeLabels: set<string> := {"ring", "bracelet", "earring", "necklace", "jewelry"}

  /** Every metal the recognizer can report. */
  const MetalLabels: set<string> := {"gold", "rose_gold", "silver", "unknown"}

  /** What OpenCV raises when asked to convert an image with no pixels. */
  const EmptyImageError := "cvtColor: the source image is empty"

  // ---------------------------------------------------------------------------
  // Inputs produced by the detector and by OpenCV
  // ---------------------------------------------------------------------------

  /** Features of the largest external contour: its enclosed area, its closed
      arc length and the size of its bounding rectangle. */
  datatype Contour = Contour(area: real, perimeter: real, width: nat, height: nat)

  /** An image region (a crop or the whole photo) as OpenCV sees it. */
  datatype Region = Region(pixels: seq<Hsv>, meanGray: real, largestContour: Option<Contour>)

  /** One detector box: corners, confidence, class name and the crop it selects. */
  datatype Detection = Detection(x1: real, y1: real, x2: real, y2: real,
                                 confidence: real, className: string, crop: Region)

  /** What the detector does with a photo: returns boxes or raises. */
  datatype DetectorOutput = Boxes(detections: seq<Detection>) | DetectorError(message: string)

  datatype Photo = Photo(full: Region, detector: DetectorOutput)

  // ---------------------------------------------------------------------------
  // Results
  // ---------------------------------------------------------------------------

  datatype BoundingBox = BoundingBox(x1: int, y1: int, x2: int, y2: int)

  /** The dictionary `recognize` returns. */
  datatype Candidate = Candidate(jewelryType: string, metal: string, confidence: real,
                                 boundingBox: Option<BoundingBox>, detectedClass: string)

  /** One entry of `recognize_batch`: a result, or the failure record. */
  datatype BatchEntry =
    | Recognized(result: Candidate)
    | Failed(jewelryType: string, metal: string, confidence: real, error: string)

  // ---------------------------------------------------------------------------
  // Step 1 of the category classifier: the keyword override
  // ---------------------------------------------------------------------------

  /** Some keyword from index `j` on occurs in `s` (the inner `for keyword`). */
  predicate AnyKeywordFrom(keywords: seq<string>, s: string, j: nat)
    decreases |keywords| - j
  {
    j < |keywords| && (Contains(s, keywords[j]) || AnyKeywordFrom(keywords, s, j + 1))
  }

  /** The category decided by the table scan from entry `t` on (the outer
      `for jewelry_type, keywords`); None when the scan falls through. */
  function KeywordCategoryFrom(table: KeywordTable, s: string, t: nat): Option<string>
    decreases |table| - t
  {
    if t >= |table| then None
    else if AnyKeywordFrom(table[t].1, s, 0) then Some(table[t].0)
    else KeywordCategoryFrom(table, s, t + 1)
  }

  function KeywordCategory(table: KeywordTable, s: string): Option<string> {
    KeywordCategoryFrom(table, s, 0)
  }

  /** Some keyword of the list is a substring of `s`. */
  ghost predicate MentionsKeyword(keywords: seq<string>, s: string) {
    exists m :: 0 <= m < |keywords| && Contains(s, keywords[m])
  }

  lemma {:induction false} AnyKeywordFromMentions(keywords: seq<string>, s: string, j: nat)
    ensures AnyKeywordFrom(keywords, s, j) <==> exists m :: j <= m < |keywords| && Contains(s, keywords[m])
    decreases |keywords| - j
  {
    if j < |keywords| {
      AnyKeywordFromMentions(keywords, s, j + 1);
      if exists m :: j <= m < |keywords| && Contains(s, keywords[m]) {
        var m :| j <= m < |keywords| && Contains(s, keywords[m]);
        assert m == j || j + 1 <= m;
      }
    }
  }

  lemma {:induction false} KeywordCategoryFromFirstMatch(table: KeywordTable, s: string, t: nat)
    ensures forall i :: t <= i < |table| && MentionsKeyword(table[i].1, s)
              && (forall j :: t <= j < i ==> !MentionsKeyword(table[j].1, s))
              ==> KeywordCategoryFrom(table, s, t) == Some(table[i].0)
    ensures (forall i :: t <= i < |table| ==> !MentionsKeyword(table[i].1, s))
              ==> KeywordCategoryFrom(table, s, t) == None
    decreases |table| - t
  {
    if t < |table| {
      AnyKeywordFromMentions(table[t].1, s, 0);
      KeywordCategoryFromFirstMatch(table, s, t + 1);
    }
  }

  /** The keyword override is first-match: the category is that of the first
      table entry, in table order, one of whose keywords is a substring of the
      label, and there is none when no entry has one. */
  lemma KeywordCategoryFirstMatch(table: KeywordTable, s: string)
    ensures forall i :: 0 <= i < |table| && MentionsKeyword(table[i].1, s)
              && (forall j :: 0 <= j < i ==> !MentionsKeyword(table[j].1, s))
              ==> KeywordCategory(table, s) == Some(table[i].0)
    ensures (forall i :: 0 <= i < |table| ==> !MentionsKeyword(table[i].1, s))
              ==> KeywordCategory(table, s) == None
  {
    KeywordCategoryFromFirstMatch(table, s, 0);
  }

  lemma {:induction false} KeywordCategoryFromInTable(table: KeywordTable, s: string, t: nat)
    ensures KeywordCategoryFrom(table, s, t).Some? ==>
              exists i :: t <= i < |table| && KeywordCategoryFrom(table, s, t).value == table[i].0
    decreases |table| - t
  {
    if t < |table| && !AnyKeywordFrom(table[t].1, s, 0) {
      KeywordCategoryFromInTable(table, s, t + 1);
    }
  }

  /** The categories a table names. */
  function TableCategories(table: KeywordTable): set<string> {
    set i | 0 <= i < |table| :: table[i].0
  }

  /** Whatever the label, the override yields a category the table names. */
  lemma KeywordCategoryInTable(table: KeywordTable, s: string)
    ensures KeywordCategory(table, s).Some? ==> KeywordCategory(table, s).value in TableCategories(table)
  {
    KeywordCategoryFromInTable(table, s, 0);
  }

  /** Every category the recognizer's table names, and every category the
      shape rules produce, belongs to the closed category set. */
  lemma CategoryLabelsCovered()
    ensures TableCategories(JewelryTypes) <= CategoryLabels
    ensures ShapeLabels <= CategoryLabels
  {
    forall i | 0 <= i < |JewelryTypes| ensures JewelryTypes[i].0 in CategoryLabels {
      assert i == 0 || i == 1 || i == 2 || i == 3 || i == 4 || i == 5 || i == 6 || i == 7 || i == 8 || i == 9;
    }
  }

  /** The whole-image fallback passes no label, and the empty label matches no
      keyword. */
  lemma EmptyLabelMatchesNothing()
    ensures KeywordCategory(JewelryTypes, "") == None
  {
    forall i, m | 0 <= i < |JewelryTypes| && 0 <= m < |JewelryTypes[i].1|
      ensures !Contains("", JewelryTypes[i].1[m])
    {
      EmptyContainsNothing(JewelryTypes[i].1[m]);
    }
    KeywordCategoryFirstMatch(JewelryTypes, "");
  }

  /** "ring" is the first keyword of the first entry, so any label whose
      lower-cased form contains it is a ring. */
  lemma RingSubstringWins(s: string)
    requires Contains(s, "ring")
    ensures KeywordCategory(JewelryTypes, s) == Some("ring")
  {
  }

  /** A label mentioning an earring (or a nose ring) contains "ring" too and so
      is classified as a ring, never as an earring. */
  lemma EarringLabelIsRing(s: string)
    requires Contains(s, "earring") || Contains(s, "nose ring")
    ensures KeywordCategory(JewelryTypes, s) == Some("ring")
  {
    ContainsIsOccurrence(s, "earring");
    ContainsIsOccurrence(s, "nose ring");
    if Contains(s, "earring") {
      var p :| OccursAt(s, "earring", p);
      assert s[p + 3..p + 7] == s[p..p + 7][3..7];
      SliceContains(s, "ring", p + 3);
    } else {
      var p :| OccursAt(s, "nose ring", p);
      assert s[p + 5..p + 9] == s[p..p + 9][5..9];
      SliceContains(s, "ring", p + 5);
    }
  }

  /** "bangles" contains "bangle" and nothing of the three entries before
      "bracelet", so the label "bangles" is a bracelet. */
  lemma BanglesLabelIsBracelet()
    ensures KeywordCategory(JewelryTypes, "bangles") == Some("bracelet")
  {
    assert !AnyKeywordFrom(JewelryTypes[0].1, "bangles", 0);
    assert !AnyKeywordFrom(JewelryTypes[1].1, "bangles", 0);
    assert !AnyKeywordFrom(JewelryTypes[2].1, "bangles", 0);
    assert AnyKeywordFrom(JewelryTypes[3].1, "bangles", 0) by {
      SliceContains("bangles", "bangle", 0);
    }
  }

  /** "wristband", a bracelet keyword, contains the ring keyword "band", so the
      label "wristband" is a ring. */
  lemma WristbandLabelIsRing()
    ensures KeywordCategory(JewelryTypes, "wristband") == Some("ring")
  {
    assert AnyKeywordFrom(JewelryTypes[0].1, "wristband", 0) by {
      SliceContains("wristband", "band", 5);
    }
  }

  /** "belly chain" (a waist_belt keyword) contains "chain", which the necklace
      entry scanned earlier claims. */
  lemma BellyChainLabelIsNecklace()
    ensures KeywordCategory(JewelryTypes, "belly chain") == Some("necklace")
  {
    assert !Contains("belly chain", "ring") && !Contains("belly chain", "band");
    assert !AnyKeywordFrom(JewelryTypes[0].1, "belly chain", 0);
    assert AnyKeywordFrom(JewelryTypes[1].1, "belly chain", 0) by {
      SliceContains("belly chain", "chain", 6);
    }
  }

  // ---------------------------------------------------------------------------
  // Step 2 of the category classifier: the shape rules
  // ---------------------------------------------------------------------------

  /** numpy's value of pi. */
  const Pi: real := 3.141592653589793

  const CircularityMin: real := 0.7
  const RoundRatioLow: real := 0.8
  const RoundRatioHigh: real := 1.2
  const RingRatioMin: real := 0.95
  const TallRatioLow: real := 0.3
  const TallRatioHigh: real := 0.7
  const WideRatioMin: real := 1.5

  /** Width over height of the bounding rectangle; 1 for a flat one. */
  function AspectRatio(c: Contour): real {
    if c.height > 0 then c.width as real / c.height as real else 1.0
  }

  /** 4 pi area / perimeter squared; 0 for a zero perimeter. */
  function Circularity(c: Contour): real {
    if c.perimeter > 0.0 then 4.0 * Pi * c.area / (c.perimeter * c.perimeter) else 0.0
  }

  /** The first-match rule chain over the largest contour's features. */
  function ShapeCategory(contour: Option<Contour>): (r: string)
    ensures r in ShapeLabels
  {
    match contour
    case None => "jewelry"
    case Some(c) =>
      var ratio := AspectRatio(c);
      if Circularity(c) > CircularityMin && ratio > RoundRatioLow && ratio < RoundRatioHigh then
        if ratio > RingRatioMin then "ring" else "bracelet"
      else if ratio > TallRatioLow && ratio < TallRatioHigh then
        "earring"
      else if ratio > WideRatioMin then
        if c.width > c.height * 3 then "necklace" else "bracelet"
      else
        "jewelry"
  }

  /** With no contour at all the shape rules give the generic category. */
  lemma NoContourIsJewelry()
    ensures ShapeCategory(None) == "jewelry"
  {
  }

  /** A ring needs a round silhouette: circularity above 0.7 and an aspect
      ratio strictly between 0.95 and 1.2, and that is enough. */
  lemma ShapeRingExactly(c: Contour)
    ensures ShapeCategory(Some(c)) == "ring" <==>
      Circularity(c) > 0.7 && 0.95 < AspectRatio(c) < 1.2
  {
  }

  /** An earring is decided by the aspect ratio alone: the round rule can never
      claim a ratio below 0.7, so circularity does not matter. */
  lemma ShapeEarringExactly(c: Contour)
    ensures ShapeCategory(Some(c)) == "earring" <==> 0.3 < AspectRatio(c) < 0.7
  {
  }

  /** Width more than three heights is the same as an aspect ratio above 3 once
      the ratio exceeds 1.5 (which needs a non-zero height). */
  lemma ShapeNecklaceExactly(c: Contour)
    ensures ShapeCategory(Some(c)) == "necklace" <==> c.height > 0 && AspectRatio(c) > 3.0
  {
    if c.height > 0 {
      RatioAboveThree(c.width, c.height);
    }
  }

  /** `w > 3 h` and `w / h > 3` agree for a positive height. */
  lemma RatioAboveThree(w: nat, h: nat)
    requires h > 0
    ensures w as real / h as real > 3.0 <==> w > h * 3
  {
    var q, hr := w as real / h as real, h as real;
    assert w as real == q * hr;
    assert w as real - 3.0 * hr == (q - 3.0) * hr;
    if q > 3.0 {
      PositiveProduct(q - 3.0, hr);
    } else {
      PositiveProduct(3.0 - q, hr);
      assert (3.0 - q) * hr == -((q - 3.0) * hr);
    }
  }

  lemma PositiveProduct(a: real, b: real)
    requires a >= 0.0 && b > 0.0
    ensures a * b >= 0.0
    ensures a > 0.0 ==> a * b > 0.0
  {
  }

  /** A bracelet is either a slightly narrow round silhouette or a moderately
      wide one. */
  lemma ShapeBraceletExactly(c: Contour)
    ensures ShapeCategory(Some(c)) == "bracelet" <==>
      (Circularity(c) > 0.7 && 0.8 < AspectRatio(c) <= 0.95)
      || (c.height > 0 && 1.5 < AspectRatio(c) <= 3.0)
  {
    ShapeNecklaceExactly(c);
  }

  /** A bounding rectangle of height 0 counts as square, so only ring or the
      generic category remain. */
  lemma FlatContourIsRingOrJewelry(c: Contour)
    requires c.height == 0
    ensures ShapeCategory(Some(c)) in {"ring", "jewelry"}
  {
  }

  /** A near-perfect circle inscribed in a 10 x 10 box is a ring, and so is the
      same shape stretched to an 11 x 10 box (aspect ratio 1.1 is above 0.95);
      squeezed to 9 x 10 it is a bracelet. */
  lemma RoundShapeExamples()
    ensures ShapeCategory(Some(Contour(78.5, 31.4, 10, 10))) == "ring"
    ensures ShapeCategory(Some(Contour(86.4, 33.0, 11, 10))) == "ring"
    ensures ShapeCategory(Some(Contour(70.7, 29.9, 9, 10))) == "bracelet"
  {
    assert Circularity(Contour(78.5, 31.4, 10, 10)) > 0.7;
    assert Circularity(Contour(86.4, 33.0, 11, 10)) > 0.7;
    assert Circularity(Contour(70.7, 29.9, 9, 10)) > 0.7;
  }

  /** The whole category classifier: keyword override on the lower-cased
      label, otherwise the shape rules, which first convert the image and so
      raise on an empty one. */
  function ClassifyJewelryType(table: KeywordTable, image: Region, detectedClass: string): (r: Result<string>)
    ensures r.Success? ==> r.value in ShapeLabels || r.value in TableCategories(table)
    ensures r.Failure? ==> r.error == EmptyImageError
    ensures KeywordCategory(table, ToLower(detectedClass)).Some? ==>
              r == Success(KeywordCategory(table, ToLower(detectedClass)).value)
    ensures r.Failure? <==> KeywordCategory(table, ToLower(detectedClass)).None? && |image.pixels| == 0
  {
    KeywordCategoryInTable(table, ToLower(detectedClass));
    match KeywordCategory(table, ToLower(detectedClass))
    case Some(category) => Success(category)
    case None =>
      if |image.pixels| == 0 then Failure(EmptyImageError)
      else Success(ShapeCategory(image.largestContour))
  }

  /** The keyword override wins over any geometry: a detector label of
      "14k Yellow Gold Wedding Ring" gives a ring, whatever the crop. */
  lemma WeddingRingLabelIsRing(image: Region)
    ensures ClassifyJewelryType(JewelryTypes, image, "14k Yellow Gold Wedding Ring") == Success("ring")
  {
    var lower := ToLower("14k Yellow Gold Wedding Ring");
    assert lower[24..28] == "ring";
    SliceContains(lower, "ring", 24);
  }

  /** With no keyword in the label, the category is the shape rules' verdict
      on a non-empty image, and the image's emptiness is an error. */
  lemma UnmatchedLabelUsesShape(table: KeywordTable, image: Region, detectedClass: string)
    requires KeywordCategory(table, ToLower(detectedClass)) == None
    ensures |image.pixels| > 0 ==>
      ClassifyJewelryType(table, image, detectedClass) == Success(ShapeCategory(image.largestContour))
    ensures |image.pixels| == 0 ==> ClassifyJewelryType(table, image, detectedClass).Failure?
  {
  }

  // ---------------------------------------------------------------------------
  // The colour-based metal classifier
  // ---------------------------------------------------------------------------

  const YellowGoldMinPercent: real := 10.0
  const RoseGoldMinPercent: real := 8.0
  const WhiteSilverMinPercent: real := 15.0
  const SilverMinBrightness: real := 180.0
  const GoldMinBrightness: real := 100.0

  /** `cv2.inRange`: all three components within the closed bounds. */
  predicate InBand(p: Hsv, band: MetalBand) {
    band.lower.h <= p.h <= band.upper.h
    && band.lower.s <= p.s <= band.upper.s
    && band.lower.v <= p.v <= band.upper.v
  }

  /** Number of pixels set in the band's mask. */
  function CountInBand(pixels: seq<Hsv>, band: MetalBand): (n: nat)
    ensures n <= |pixels|
  {
    if |pixels| == 0 then 0
    else CountInBand(pixels[..|pixels| - 1], band) + (if InBand(pixels[|pixels| - 1], band) then 1 else 0)
  }

  /** `count / size * 100`. */
  function Percentage(count: nat, total: nat): (p: real)
    requires total > 0
    ensures count <= total ==> 0.0 <= p <= 100.0
    ensures p == 0.0 <==> count == 0
  {
    var fraction := count as real / total as real;
    assert fraction * total as real == count as real;
    fraction * 100.0
  }

  /** Share of a region's pixels inside a band, in percent. */
  function BandPercentage(pixels: seq<Hsv>, band: MetalBand): (p: real)
    requires |pixels| > 0
    ensures 0.0 <= p <= 100.0
  {
    Percentage(CountInBand(pixels, band), |pixels|)
  }

  /** The fixed-priority threshold chain with its brightness fallback. */
  function MetalRule(yellowGold: real, roseGold: real, whiteSilver: real, brightness: real): (r: string)
    ensures r in MetalLabels
  {
    if yellowGold > YellowGoldMinPercent then "gold"
    else if roseGold > RoseGoldMinPercent then "rose_gold"
    else if whiteSilver > WhiteSilverMinPercent then "silver"
    else if brightness > SilverMinBrightness then "silver"
    else if brightness > GoldMinBrightness then "gold"
    else "unknown"
  }

  /** `_detect_metal` on a region: converting an empty image raises. */
  function MetalOf(image: Region): (r: Result<string>)
    ensures r.Success? ==> r.value in MetalLabels
    ensures r.Failure? <==> |image.pixels| == 0
  {
    if |image.pixels| == 0 then Failure(EmptyImageError)
    else
      Success(MetalRule(BandPercentage(image.pixels, YellowGold), BandPercentage(image.pixels, RoseGold),
                        BandPercentage(image.pixels, WhiteGoldSilver), image.meanGray))
  }

  /** Each metal, stated as the exact region of percentages and brightness
      that yields it. */
  lemma MetalRuleExactly(y: real, r: real, w: real, b: real)
    ensures MetalRule(y, r, w, b) == "gold" <==> y > 10.0 || (r <= 8.0 && w <= 15.0 && 100.0 < b <= 180.0)
    ensures MetalRule(y, r, w, b) == "rose_gold" <==> y <= 10.0 && r > 8.0
    ensures MetalRule(y, r, w, b) == "silver" <==> y <= 10.0 && r <= 8.0 && (w > 15.0 || b > 180.0)
    ensures MetalRule(y, r, w, b) == "unknown" <==> y <= 10.0 && r <= 8.0 && w <= 15.0 && b <= 100.0
  {
  }

  /** Yellow gold is checked first: 12% yellow with 20% white is gold. Without
      any band pixels, brightness 190, 150 and 50 give silver, gold and unknown. */
  lemma MetalPriorityExamples(b: real)
    ensures MetalRule(12.0, 0.0, 20.0, b) == "gold"
    ensures MetalRule(0.0, 0.0, 0.0, 190.0) == "silver"
    ensures MetalRule(0.0, 0.0, 0.0, 150.0) == "gold"
    ensures MetalRule(0.0, 0.0, 0.0, 50.0) == "unknown"
  {
  }

  /** The yellow-gold and rose-gold bands share hue 15, so a pixel can lie in
      both; a region made only of such pixels is gold because yellow gold is
      checked first, although it is 100% rose gold as well. */
  lemma OverlappingBandsFavourYellowGold(gray: real, contour: Option<Contour>)
    ensures InBand(Hsv(15, 50, 100), YellowGold) && InBand(Hsv(15, 50, 100), RoseGold)
    ensures MetalOf(Region([Hsv(15, 50, 100)], gray, contour)) == Success("gold")
  {
    var pixels := [Hsv(15, 50, 100)];
    assert pixels[..0] == [];
    assert CountInBand(pixels, YellowGold) == 1;
  }

  // ---------------------------------------------------------------------------
  // Candidates, selection and the whole-image fallback
  // ---------------------------------------------------------------------------

  /** The confidence reported when the whole photo is classified. */
  const FallbackConfidence: real := 0.6

  /** Python's `int()` on a float: truncation toward zero. */
  function Trunc(x: real): (n: int)
    ensures 0.0 <= x ==> n as real <= x < n as real + 1.0
    ensures x < 0.0 ==> n as real - 1.0 < x <= n as real
  {
    if x >= 0.0 then x.Floor else -((-x).Floor)
  }

  function BoxOf(d: Detection): BoundingBox {
    BoundingBox(Trunc(d.x1), Trunc(d.y1), Trunc(d.x2), Trunc(d.y2))
  }

  /** The candidate a detector box gives, or the error its crop raises
      (category first, then metal). */
  function CandidateOf(table: KeywordTable, d: Detection): (r: Result<Candidate>)
    ensures r.Success? ==>
              && r.value.confidence == d.confidence && r.value.detectedClass == d.className
              && r.value.boundingBox == Some(BoxOf(d))
              && (r.value.jewelryType in ShapeLabels || r.value.jewelryType in TableCategories(table))
              && r.value.metal in MetalLabels
    ensures r.Success? <==> ClassifyJewelryType(table, d.crop, d.className).Success? && MetalOf(d.crop).Success?
    ensures r.Success? ==>
              && Success(r.value.jewelryType) == ClassifyJewelryType(table, d.crop, d.className)
              && Success(r.value.metal) == MetalOf(d.crop)
  {
    var jewelryType :- ClassifyJewelryType(table, d.crop, d.className);
    var metal :- MetalOf(d.crop);
    Success(Candidate(jewelryType, metal, d.confidence, Some(BoxOf(d)), d.className))
  }

  /** The candidates of all boxes in detector order, or the first error. */
  function CandidatesOf(table: KeywordTable, dets: seq<Detection>): (r: Result<seq<Candidate>>)
    ensures r.Success? <==> forall i :: 0 <= i < |dets| ==> CandidateOf(table, dets[i]).Success?
    ensures r.Success? ==>
              && |r.value| == |dets|
              && forall i :: 0 <= i < |dets| ==> CandidateOf(table, dets[i]) == Success(r.value[i])
    ensures r.Failure? ==>
              exists i :: && 0 <= i < |dets| && CandidateOf(table, dets[i]) == Failure(r.error)
                          && forall j :: 0 <= j < i ==> CandidateOf(table, dets[j]).Success?
  {
    if |dets| == 0 then Success([])
    else
      match CandidateOf(table, dets[0])
      case Failure(e) => Failure(e)
      case Success(c) =>
        match CandidatesOf(table, dets[1..])
        case Failure(e) =>
          assert forall i :: 1 <= i < |dets| ==> dets[1..][i - 1] == dets[i];
          Failure(e)
        case Success(cs) =>
          assert forall i :: 1 <= i < |dets| ==> dets[1..][i - 1] == dets[i];
          Success([c] + cs)
  }

  /** Recognition stops at the first box whose crop raises, with its error. */
  lemma FirstFailingCandidate(table: KeywordTable, dets: seq<Detection>, i: nat)
    requires i < |dets| && CandidateOf(table, dets[i]).Failure?
    requires forall j :: 0 <= j < i ==> CandidateOf(table, dets[j]).Success?
    ensures CandidatesOf(table, dets) == Failure(CandidateOf(table, dets[i]).error)
  {
    var r := CandidatesOf(table, dets);
    var k :| && 0 <= k < |dets| && CandidateOf(table, dets[k]) == Failure(r.error)
             && forall j :: 0 <= j < k ==> CandidateOf(table, dets[j]).Success?;
    assert k == i;
  }

  /** When every box gives a candidate, these are the candidates. */
  lemma AllCandidates(table: KeywordTable, dets: seq<Detection>, cands: seq<Candidate>)
    requires |cands| == |dets|
    requires forall j :: 0 <= j < |dets| ==> CandidateOf(table, dets[j]) == Success(cands[j])
    ensures CandidatesOf(table, dets) == Success(cands)
  {
    var r := CandidatesOf(table, dets);
    assert r.Success?;
    assert r.value == cands;
  }

  /** Python's `max(..., key=confidence)`: a scan that replaces the current
      best only on a strictly greater confidence, so the first maximum wins. */
  function BestIndex(cands: seq<Candidate>): (k: nat)
    requires |cands| > 0
    ensures k < |cands|
    ensures forall j :: 0 <= j < |cands| ==> cands[j].confidence <= cands[k].confidence
    ensures forall j :: 0 <= j < k ==> cands[j].confidence < cands[k].confidence
  {
    if |cands| == 1 then 0
    else
      var k := BestIndex(cands[..|cands| - 1]);
      if cands[|cands| - 1].confidence > cands[k].confidence then |cands| - 1 else k
  }

  /** The whole photo classified without a detector label. */
  function FallbackOf(table: KeywordTable, full: Region): Result<Candidate> {
    var jewelryType :- ClassifyJewelryType(table, full, "");
    var metal :- MetalOf(full);
    Success(Candidate(jewelryType, metal, FallbackConfidence, None, "unknown"))
  }

  /** What `recognize` returns for a photo, or the error it raises. The photo
      is converted to OpenCV's colour order before the detector runs, so an
      empty photo raises the conversion error first. */
  function Recognition(table: KeywordTable, photo: Photo): Result<Candidate> {
    if |photo.full.pixels| == 0 then Failure(EmptyImageError)
    else match photo.detector
    case DetectorError(message) => Failure(message)
    case Boxes(dets) =>
      if |dets| == 0 then FallbackOf(table, photo.full)
      else
        var cands :- CandidatesOf(table, dets);
        Success(cands[BestIndex(cands)])
  }

  /** With the recognizer's table, category and metal always come from their
      closed sets. */
  lemma RecognitionInLabels(photo: Photo)
    ensures var r := Recognition(JewelryTypes, photo);
      r.Success? ==> r.value.jewelryType in CategoryLabels && r.value.metal in MetalLabels
  {
    CategoryLabelsCovered();
    if photo.detector.Boxes? && |photo.detector.detections| > 0 {
      var dets := photo.detector.detections;
      var r := CandidatesOf(JewelryTypes, dets);
      if r.Success? {
        var k := BestIndex(r.value);
        assert CandidateOf(JewelryTypes, dets[k]) == Success(r.value[k]);
      }
    }
  }

  /** With at least one box: the result is the candidate of the first box of
      maximal detector confidence, carrying that confidence unchanged and a
      bounding box; and recognition fails exactly when some crop raises. */
  lemma RecognitionPicksFirstMostConfident(table: KeywordTable, photo: Photo)
    requires photo.detector.Boxes? && |photo.detector.detections| > 0
    ensures var dets := photo.detector.detections;
      Recognition(table, photo).Success? <==>
        |photo.full.pixels| > 0 && forall i :: 0 <= i < |dets| ==> CandidateOf(table, dets[i]).Success?
    ensures var dets, r := photo.detector.detections, Recognition(table, photo);
      r.Success? ==>
        exists k ::
          && 0 <= k < |dets|
          && r == CandidateOf(table, dets[k])
          && r.value.confidence == dets[k].confidence
          && r.value.boundingBox == Some(BoxOf(dets[k]))
          && r.value.detectedClass == dets[k].className
          && (forall j :: 0 <= j < |dets| ==> dets[j].confidence <= dets[k].confidence)
          && (forall j :: 0 <= j < k ==> dets[j].confidence < dets[k].confidence)
  {
    var dets := photo.detector.detections;
    var r := CandidatesOf(table, dets);
    if r.Success? {
      var cs := r.value;
      var k := BestIndex(cs);
      assert CandidateOf(table, dets[k]) == Success(cs[k]);
      forall j | 0 <= j < |dets| ensures dets[j].confidence == cs[j].confidence {
        assert CandidateOf(table, dets[j]) == Success(cs[j]);
      }
    }
  }

  /** With no box: the whole photo is classified by its shape alone (the empty
      label matches no keyword), at confidence exactly 0.6, without a bounding
      box and with detected class "unknown"; it fails only on an empty photo. */
  lemma RecognitionFallback(photo: Photo)
    requires photo.detector == Boxes([])
    ensures Recognition(JewelryTypes, photo).Failure? <==> |photo.full.pixels| == 0
    ensures var r := Recognition(JewelryTypes, photo);
      r.Success? ==>
        && r.value.confidence == 0.6
        && r.value.boundingBox == None
        && r.value.detectedClass == "unknown"
        && r.value.jewelryType == ShapeCategory(photo.full.largestContour)
        && Success(r.value.metal) == MetalOf(photo.full)
  {
    assert ToLower("") == "";
    EmptyLabelMatchesNothing();
  }

  /** A detector that raises on a non-empty photo makes recognition raise the
      same error. */
  lemma RecognitionPropagatesDetectorError(table: KeywordTable, photo: Photo, message: string)
    requires photo.detector == DetectorError(message) && |photo.full.pixels| > 0
    ensures Recognition(table, photo) == Failure(message)
  {
  }

  /** An empty photo raises the colour-conversion error whatever the detector
      would have returned. */
  lemma EmptyPhotoRaisesConversionError(table: KeywordTable, photo: Photo)
    requires |photo.full.pixels| == 0
    ensures Recognition(table, photo) == Failure(EmptyImageError)
  {
  }

  /** The batch entry for one recognition outcome. */
  function EntryOf(r: Result<Candidate>): (e: BatchEntry)
    ensures r.Success? ==> e == Recognized(r.value)
    ensures r.Failure? ==>
              && e.Failed? && e.jewelryType == "unknown" && e.metal == "unknown"
              && e.confidence == 0.0 && e.error == r.error
  {
    match r
    case Success(c) => Recognized(c)
    case Failure(message) => Failed("unknown", "unknown", 0.0, message)
  }

  // ---------------------------------------------------------------------------
  // The recognizer object and its lazily created process-wide instance
  // ---------------------------------------------------------------------------

  /** The recognizer. The detector's answers arrive with each photo; the
      keyword table is fixed at construction and the colour bands are the
      constant `MetalColors`. */
  class JewelryRecognizer {
    const jewelryTypes: KeywordTable

    constructor ()
      ensures jewelryTypes == JewelryTypes
    {
      jewelryTypes := JewelryTypes;
    }

    /** `_detect_metal`: fills the per-band percentages, then applies the
        threshold chain. */
    method DetectMetal(image: Region) returns (r: Result<string>)
      ensures r == MetalOf(image)
    {
      if |image.pixels| == 0 {
        return Failure(EmptyImageError);
      }
      var percentages: map<string, real> := map[];
      var i := 0;
      while i < |MetalColors|
        invariant 0 <= i <= |MetalColors|
        invariant forall j :: 0 <= j < i ==>
                    && MetalColors[j].name in percentages
                    && percentages[MetalColors[j].name] == BandPercentage(image.pixels, MetalColors[j])
      {
        var band := MetalColors[i];
        percentages := percentages[band.name := BandPercentage(image.pixels, band)];
        i := i + 1;
      }
      assert MetalColors[0] == YellowGold && MetalColors[1] == RoseGold && MetalColors[2] == WhiteGoldSilver;
      r := Success(MetalRule(percentages["yellow_gold"], percentages["rose_gold"],
                             percentages["white_gold_silver"], image.meanGray));
    }

    /** One pass of `recognize`'s loop: classify the crop's category, then its
        metal, and build the candidate for the box. */
    method AnalyzeDetection(d: Detection) returns (r: Result<Candidate>)
      ensures r == CandidateOf(jewelryTypes, d)
    {
      var jewelryType := ClassifyJewelryType(jewelryTypes, d.crop, d.className);
      if jewelryType.Failure? {
        return Failure(jewelryType.error);
      }
      var metal := DetectMetal(d.crop);
      if metal.Failure? {
        return Failure(metal.error);
      }
      r := Success(Candidate(jewelryType.value, metal.value, d.confidence, Some(BoxOf(d)), d.className));
    }

    /** `recognize` without any box: classify the whole photo, with no label. */
    method AnalyzeWholeImage(full: Region) returns (r: Result<Candidate>)
      ensures r == FallbackOf(jewelryTypes, full)
    {
      var jewelryType := ClassifyJewelryType(jewelryTypes, full, "");
      if jewelryType.Failure? {
        return Failure(jewelryType.error);
      }
      var metal := DetectMetal(full);
      if metal.Failure? {
        return Failure(metal.error);
      }
      r := Success(Candidate(jewelryType.value, metal.value, FallbackConfidence, None, "unknown"));
    }

    /** `recognize`: one candidate per box in detector order, then the most
        confident one; the whole photo when there is no box. */
    method Recognize(photo: Photo) returns (r: Result<Candidate>)
      ensures r == Recognition(jewelryTypes, photo)
    {
      if |photo.full.pixels| == 0 {
        return Failure(EmptyImageError);
      }
      if photo.detector.DetectorError? {
        return Failure(photo.detector.message);
      }
      var dets := photo.detector.detections;
      var detections: seq<Candidate> := [];
      var i := 0;
      while i < |dets|
        invariant 0 <= i <= |dets|
        invariant |detections| == i
        invariant forall j :: 0 <= j < i ==> CandidateOf(jewelryTypes, dets[j]) == Success(detections[j])
      {
        var candidate := AnalyzeDetection(dets[i]);
        if candidate.Failure? {
          FirstFailingCandidate(jewelryTypes, dets, i);
          return Failure(candidate.error);
        }
        detections := detections + [candidate.value];
        i := i + 1;
      }
      if |detections| == 0 {
        r := AnalyzeWholeImage(photo.full);
        return;
      }
      AllCandidates(jewelryTypes, dets, detections);
      r := Success(detections[BestIndex(detections)]);
    }

    /** `recognize_batch`: one entry per photo, in order; a photo whose
        recognition raises gets the failure record and the rest are unaffected. */
    method RecognizeBatch(photos: seq<Photo>) returns (results: seq<BatchEntry>)
      ensures |results| == |photos|
      ensures forall i :: 0 <= i < |photos| ==> results[i] == EntryOf(Recognition(jewelryTypes, photos[i]))
    {
      results := [];
      var i := 0;
      while i < |photos|
        invariant 0 <= i <= |photos|
        invariant |results| == i
        invariant forall j :: 0 <= j < i ==> results[j] == EntryOf(Recognition(jewelryTypes, photos[j]))
      {
        var r := Recognize(photos[i]);
        results := results + [EntryOf(r)];
        i := i + 1;
      }
    }
  }

  /** The module-level `recognizer` slot behind `get_recognizer`. */
  class RecognizerRegistry {
    var recognizer: JewelryRecognizer?

    /** Only ever a default-constructed recognizer is stored, so the stored one
        carries the built-in keyword table. */
    ghost predicate Valid()
      reads this
    {
      recognizer != null ==> recognizer.jewelryTypes == JewelryTypes
    }

    constructor ()
      ensures Valid() && recognizer == null
    {
      recognizer := null;
    }

    /** Creates the recognizer on first use and hands out the same one after. */
    method GetRecognizer() returns (r: JewelryRecognizer)
      requires Valid()
      modifies this
      ensures Valid()
      ensures r.jewelryTypes == JewelryTypes
      ensures old(recognizer) == null ==> fresh(r)
      ensures old(recognizer) != null ==> r == old(recognizer)
      ensures recognizer == r
    {
      if recognizer == null {
        recognizer := new JewelryRecognizer();
      }
      r := recognizer;
    }
  }
}
