/**
 * The result-mapping and rule helpers of the image-processing service
 * (ai-services/image-processing/main.py): product names, HSN codes, the
 * database metal type, the template description, the colour/shape tag rules
 * and the image-quality score and recommendations.
 */
module ImageProcessing {
  import opened Wrappers
  import opened Text
  import opened JewelryRecognition

  // ---------------------------------------------------------------------------
  // Product name (format_jewelry_name)
  // ---------------------------------------------------------------------------

  /** Display names of the known jewellery types. */
  const JewelryNames: map<string, string> := map[
    "ring" := "Ring",
    "necklace" := "Necklace",
    "earring" := "Earrings (Pair)",
    "bracelet" := "Bracelet",
    "anklet" := "Anklet",
    "brooch" := "Brooch",
    "mangalsutra" := "Mangalsutra",
    "nose_ring" := "Nose Ring",
    "bangles" := "Bangles",
    "waist_belt" := "Waist Belt"]

  /** Display names of the metals; `unknown` maps to no prefix at all. */
  const MetalNames: map<string, string> := map[
    "gold" := "Gold",
    "rose_gold" := "Rose Gold",
    "silver" := "Silver",
    "unknown" := ""]

  /** The metals that put a word in front of the product name. */
  const NamedMetals: set<string> := {"gold", "rose_gold", "silver"}

  /** `metal_names.get(metal, '')`: the prefix is non-empty exactly for a named metal. */
  function MetalPrefix(metal: string): (r: string)
    ensures r != "" <==> metal in NamedMetals
    ensures metal in NamedMetals ==> r == MetalNames[metal]
  {
    if metal in MetalNames then MetalNames[metal] else ""
  }

  /** `jewelry_names.get(t, t.title())`. */
  function TypeName(jewelryType: string): (r: string)
    ensures jewelryType !in JewelryNames ==> r == Title(jewelryType)
    ensures jewelryType in JewelryNames ==> |r| > 0 && IsUpper(r[0])
  {
    if jewelryType in JewelryNames then JewelryNames[jewelryType] else Title(jewelryType)
  }

  /** The suggested product name: "<Metal> <Type>" for a named metal, the type name alone otherwise. */
  function FormatJewelryName(jewelryType: string, metal: string): (r: string)
    ensures metal in NamedMetals ==> r == MetalNames[metal] + " " + TypeName(jewelryType)
    ensures metal !in NamedMetals ==> r == TypeName(jewelryType)
  {
    var prefix := MetalPrefix(metal);
    if prefix != "" then prefix + " " + TypeName(jewelryType) else TypeName(jewelryType)
  }

  lemma GoldEarringName()
    ensures FormatJewelryName("earring", "gold") == "Gold Earrings (Pair)"
    ensures FormatJewelryName("nose_ring", "rose_gold") == "Rose Gold Nose Ring"
  {
    assert MetalPrefix("gold") == "Gold" && TypeName("earring") == "Earrings (Pair)";
    assert "Gold" + " " + "Earrings (Pair)" == "Gold Earrings (Pair)";
    assert MetalPrefix("rose_gold") == "Rose Gold" && TypeName("nose_ring") == "Nose Ring";
    assert "Rose Gold" + " " + "Nose Ring" == "Rose Gold Nose Ring";
  }

  /** A type outside the table is title-cased: `jewelry` becomes "Jewelry". */
  lemma JewelryTypeName()
    ensures TypeName("jewelry") == "Jewelry"
  {
    assert "jewelry" !in JewelryNames;
    TitleOfLowerWord("jewelry");
  }

  /** The generic category of an unknown metal is named "Jewelry". */
  lemma UnlistedTypeIsTitleCased()
    ensures FormatJewelryName("jewelry", "unknown") == "Jewelry"
  {
    JewelryTypeName();
    UnnamedMetalGivesTypeOnly("jewelry", "unknown");
  }

  /** A named metal is put in front of the type name. */
  lemma NamedMetalName(jewelryType: string, metal: string)
    requires metal in NamedMetals
    ensures FormatJewelryName(jewelryType, metal) == MetalNames[metal] + " " + TypeName(jewelryType)
    ensures MetalNames[metal] in {"Gold", "Rose Gold", "Silver"}
  {
  }

  /** An unknown or unmapped metal leaves the type name alone. */
  lemma UnnamedMetalGivesTypeOnly(jewelryType: string, metal: string)
    requires metal == "unknown" || metal !in MetalNames
    ensures FormatJewelryName(jewelryType, metal) == TypeName(jewelryType)
  {
  }

  /** Every name built from a recognition result is a capitalised, non-empty phrase. */
  lemma RecognizedNamesCapitalised(jewelryType: string, metal: string)
    requires jewelryType in CategoryLabels && metal in MetalLabels
    ensures var r := FormatJewelryName(jewelryType, metal); |r| > 0 && IsUpper(r[0])
  {
    if jewelryType == "jewelry" {
      UnlistedTypeIsTitleCased();
    }
  }

  // ---------------------------------------------------------------------------
  // HSN code (get_hsn_code)
  // ---------------------------------------------------------------------------

  /** Harmonised System codes by type; the whole family is heading 7113.19. */
  const HsnCodes: map<string, string> := map[
    "ring" := "71131910",
    "necklace" := "71131920",
    "earring" := "71131930",
    "bracelet" := "71131940",
    "anklet" := "71131950",
    "bangles" := "71131940",
    "mangalsutra" := "71131920",
    "nose_ring" := "71131930"]

  const DefaultHsnCode := "71131900"

  /** `hsn_codes.get(t, '71131900')`: always an 8-digit code under 7113.19; the default exactly off the table. */
  function HsnCode(jewelryType: string): (r: string)
    ensures |r| == 8 && r[..6] == "711319"
    ensures r == DefaultHsnCode <==> jewelryType !in HsnCodes
  {
    if jewelryType in HsnCodes then HsnCodes[jewelryType] else DefaultHsnCode
  }

  /** Types that share a tariff line. */
  lemma HsnSharedLines()
    ensures HsnCode("bracelet") == HsnCode("bangles") == "71131940"
    ensures HsnCode("necklace") == HsnCode("mangalsutra") == "71131920"
    ensures HsnCode("earring") == HsnCode("nose_ring") == "71131930"
  {
  }

  /** Recognizer categories without an entry fall back to the default code. */
  lemma HsnDefaults()
    ensures HsnCode("jewelry") == DefaultHsnCode
    ensures HsnCode("brooch") == DefaultHsnCode
    ensures HsnCode("waist_belt") == DefaultHsnCode
    ensures HsnCode("unknown") == DefaultHsnCode
  {
  }

  // ---------------------------------------------------------------------------
  // Database metal type (map_metal_type)
  // ---------------------------------------------------------------------------

  const MetalTypes: map<string, string> := map[
    "gold" := "GOLD",
    "rose_gold" := "GOLD",
    "silver" := "SILVER",
    "unknown" := "GOLD"]

  /** `metal_map.get(metal, 'GOLD')`: only `silver` is stored as silver. */
  function MapMetalType(metal: string): (r: string)
    ensures r == "GOLD" || r == "SILVER"
    ensures r == "SILVER" <==> metal == "silver"
  {
    if metal in MetalTypes then MetalTypes[metal] else "GOLD"
  }

  // ---------------------------------------------------------------------------
  // Product description (generate_product_description)
  // ---------------------------------------------------------------------------

  /** The tags that name the category in a description, in the order they are tested. */
  const DescriptionCategories: seq<string> := ["necklace", "ring", "earring", "bracelet"]

  const BodySentence := "This elegant piece features a timeless design that complements any style. "
  const DiamondSentence := "Adorned with sparkling diamonds. "
  const ClosingSentence := "Perfect for special occasions or everyday wear."

  /** The metal word: gold wins over silver, and neither gives "metal". */
  function MetalWord(tags: seq<string>): (r: string)
    ensures r == "gold" || r == "silver" || r == "metal"
    ensures r == "gold" <==> "gold" in tags
    ensures r == "silver" <==> "gold" !in tags && "silver" in tags
  {
    if "gold" in tags then "gold" else if "silver" in tags then "silver" else "metal"
  }

  /** `next((t for t in tags if t in [...]), 'jewelry')`: the first tag that names a category. */
  function CategoryWord(tags: seq<string>): (r: string)
    ensures r == "jewelry" <==> forall i :: 0 <= i < |tags| ==> tags[i] !in DescriptionCategories
    ensures r != "jewelry" ==>
      exists i :: 0 <= i < |tags| && tags[i] == r && r in DescriptionCategories
        && forall j :: 0 <= j < i ==> tags[j] !in DescriptionCategories
  {
    if |tags| == 0 then "jewelry"
    else if tags[0] in DescriptionCategories then tags[0]
    else
      var r := CategoryWord(tags[1..]);
      assert forall i :: 1 <= i < |tags| ==> tags[i] == tags[1..][i - 1];
      r
  }

  /** The fixed rest of the lead after the metal and category words. */
  const LeadTail := "crafted with precision and attention to detail. " + BodySentence

  /** "Exquisite <metal> <category> ": the words that vary between descriptions. */
  function OpeningWords(tags: seq<string>): string {
    "Exquisite " + (MetalWord(tags) + " " + CategoryWord(tags) + " ")
  }

  /** The text before the optional diamond sentence: the opening and body sentences. */
  function Lead(tags: seq<string>): string {
    OpeningWords(tags) + LeadTail
  }

  /** A string begins with whatever was put in front of it. */
  lemma PrefixPart(a: string, b: string)
    ensures |a| <= |a + b| && (a + b)[..|a|] == a
  {
  }

  /** The parts of a concatenation sit where they were put. */
  lemma ConcatParts(a: string, b: string, c: string)
    ensures |a| <= |a + b + c| && (a + b + c)[..|a|] == a
    ensures OccursAt(a + b + c, b, |a|)
    ensures |c| <= |a + b + c| && (a + b + c)[|a + b + c| - |c|..] == c
  {
    var s := a + b + c;
    assert s[|a|..|a| + |b|] == b;
  }

  /** The two halves of a join sit where they were put. */
  lemma JoinParts(a: string, c: string)
    ensures |a| <= |a + c| && (a + c)[..|a|] == a
    ensures (a + c)[|a + c| - |c|..] == c
  {
  }

  /**
   * When `c` disagrees with `k` at offset `j`, `a + c` has no `k` right after
   * `a`.
   */
  lemma MismatchAfter(a: string, c: string, k: string, j: nat)
    requires j < |k| && j < |c| && c[j] != k[j]
    ensures !OccursAt(a + c, k, |a|)
  {
    assert (a + c)[|a| + j] == c[j];
  }

  /** The closing sentence and the diamond sentence differ at offset 31. */
  lemma SentencesDiffer()
    ensures 31 < |ClosingSentence| && 31 < |DiamondSentence|
    ensures ClosingSentence[31] != DiamondSentence[31]
  {
  }

  /**
   * The lead, then the diamond sentence when `diamond` holds, then the
   * closing sentence.
   */
  function Compose(lead: string, diamond: bool): (r: string)
    ensures |lead| <= |r| && r[..|lead|] == lead
    ensures |ClosingSentence| <= |r| && r[|r| - |ClosingSentence|..] == ClosingSentence
    ensures diamond <==> OccursAt(r, DiamondSentence, |lead|)
    ensures |r| == |lead| + (if diamond then |DiamondSentence| else 0) + |ClosingSentence|
  {
    if diamond then
      ConcatParts(lead, DiamondSentence, ClosingSentence);
      lead + DiamondSentence + ClosingSentence
    else
      JoinParts(lead, ClosingSentence);
      SentencesDiffer();
      MismatchAfter(lead, ClosingSentence, DiamondSentence, 31);
      lead + ClosingSentence
  }

  /**
   * The template description. It starts with the lead (opening and body
   * sentences), carries the diamond sentence right after the lead exactly
   * when "diamond" is a tag, and always ends with the closing sentence. The
   * file name is not used.
   */
  function ProductDescription(tags: seq<string>, filename: string): (r: string)
    ensures |Lead(tags)| <= |r| && r[..|Lead(tags)|] == Lead(tags)
    ensures |ClosingSentence| <= |r| && r[|r| - |ClosingSentence|..] == ClosingSentence
    ensures "diamond" in tags <==> OccursAt(r, DiamondSentence, |Lead(tags)|)
    ensures |r| == |Lead(tags)| + (if "diamond" in tags then |DiamondSentence| else 0) + |ClosingSentence|
  {
    Compose(Lead(tags), "diamond" in tags)
  }

  /** Every description opens "Exquisite <metal> <category> ", so it begins "Exquisite ". */
  lemma DescriptionOpening(tags: seq<string>, filename: string)
    ensures var r := ProductDescription(tags, filename);
      |OpeningWords(tags)| <= |r| && r[..|OpeningWords(tags)|] == OpeningWords(tags)
      && r[..10] == "Exquisite "
  {
    var r := ProductDescription(tags, filename);
    var lead := Lead(tags);
    var opening := OpeningWords(tags);
    PrefixPart(opening, LeadTail);
    assert r[..|opening|] == r[..|lead|][..|opening|];
    PrefixPart("Exquisite ", MetalWord(tags) + " " + CategoryWord(tags) + " ");
    assert r[..10] == opening[..10];
  }

  /**
   * The catalog upload describes a recognition result by the tags
   * [type, metal]: the metal word is "gold" or "silver" only for those two
   * metals (so `rose_gold` reads "metal"), and the category word is the type
   * itself for the four description categories and "jewelry" otherwise.
   */
  lemma CatalogDescriptionWords(jewelryType: string, metal: string)
    requires jewelryType in CategoryLabels && metal in MetalLabels
    ensures MetalWord([jewelryType, metal]) == (if metal == "gold" || metal == "silver" then metal else "metal")
    ensures CategoryWord([jewelryType, metal]) == (if jewelryType in DescriptionCategories then jewelryType else "jewelry")
  {
    var tags := [jewelryType, metal];
    assert metal !in DescriptionCategories;
    if jewelryType in DescriptionCategories {
      assert CategoryWord(tags) != "jewelry";
      var i :| 0 <= i < |tags| && tags[i] == CategoryWord(tags) && CategoryWord(tags) in DescriptionCategories
        && forall j :: 0 <= j < i ==> tags[j] !in DescriptionCategories;
      assert i == 0;
    } else {
      assert forall i :: 0 <= i < |tags| ==> tags[i] !in DescriptionCategories;
    }
  }

  /** A rose-gold ring from the catalog upload is described as a "metal ring". */
  lemma RoseGoldReadsMetal()
    ensures MetalWord(["ring", "rose_gold"]) == "metal"
    ensures OpeningWords(["ring", "rose_gold"]) == "Exquisite metal ring "
  {
    CatalogDescriptionWords("ring", "rose_gold");
  }

  // ---------------------------------------------------------------------------
  // Automatic tags (generate_tags)
  // ---------------------------------------------------------------------------

  /**
   * The statistics the tag rules look at: the per-channel mean of the pixel
   * array (empty for a single-channel image, where `avg_color[0]` raises) and
   * the image size.
   */
  datatype ImageStats = ImageStats(channelMeans: seq<real>, width: nat, height: nat)

  const FallbackTags: set<string> := {"jewelry", "handcrafted"}
  const GenericTags: set<string> := {"handcrafted", "elegant", "premium"}
  const ShapeTags: set<string> := {"necklace", "earring", "ring"}

  function Sum(xs: seq<real>): real
    decreases |xs|
  {
    if |xs| == 0 then 0.0 else Sum(xs[..|xs| - 1]) + xs[|xs| - 1]
  }

  function Mean(xs: seq<real>): real
    requires |xs| > 0
  {
    Sum(xs) / (|xs| as real)
  }

  /** The tag rules raise, and the fallback list is returned instead. */
  predicate TagRulesRaise(stats: ImageStats) {
    |stats.channelMeans| == 0 || stats.height == 0
  }

  function ImageAspect(stats: ImageStats): real
    requires stats.height > 0
  {
    (stats.width as real) / (stats.height as real)
  }

  /** The colour tag: gold for a first-channel mean over 180, else silver for an overall mean over 200. */
  function MetalTags(s: ImageStats): set<string>
    requires |s.channelMeans| > 0
  {
    if s.channelMeans[0] > 180.0 then {"gold"}
    else if Mean(s.channelMeans) > 200.0 then {"silver"}
    else {}
  }

  /** The shape tag by aspect ratio: wide is a necklace, tall an earring, anything between a ring. */
  function ShapeTag(s: ImageStats): string
    requires s.height > 0
  {
    var ratio := ImageAspect(s);
    if ratio > 1.5 then "necklace" else if ratio < 0.8 then "earring" else "ring"
  }

  /**
   * The tag set. `None` stands for a failure of the classification network's
   * preprocessing or inference. Otherwise: gold for a red mean over 180, else
   * silver for an overall mean over 200; exactly one shape tag by aspect
   * ratio; and the three generic tags.
   */
  function GenerateTags(stats: Option<ImageStats>): (r: set<string>)
    ensures (stats.None? || TagRulesRaise(stats.value)) ==> r == FallbackTags
    ensures stats.Some? && !TagRulesRaise(stats.value) ==>
      var s := stats.value;
      && GenericTags <= r
      && r <= GenericTags + ShapeTags + {"gold", "silver"}
      && ("gold" in r <==> s.channelMeans[0] > 180.0)
      && ("silver" in r <==> !(s.channelMeans[0] > 180.0) && Mean(s.channelMeans) > 200.0)
      && ("necklace" in r <==> ImageAspect(s) > 1.5)
      && ("earring" in r <==> ImageAspect(s) < 0.8)
      && ("ring" in r <==> 0.8 <= ImageAspect(s) <= 1.5)
  {
    match stats
    case None => FallbackTags
    case Some(s) =>
      if TagRulesRaise(s) then FallbackTags
      else MetalTags(s) + {ShapeTag(s)} + GenericTags
  }

  /** Exactly one shape tag is produced whenever the rules run. */
  lemma ExactlyOneShapeTag(s: ImageStats)
    requires !TagRulesRaise(s)
    ensures |GenerateTags(Some(s)) * ShapeTags| == 1
  {
    var r := GenerateTags(Some(s));
    assert r == MetalTags(s) + {ShapeTag(s)} + GenericTags;
    assert MetalTags(s) * ShapeTags == {};
    assert r * ShapeTags == {ShapeTag(s)};
  }

  /**
   * The upload pipeline describes an image by its generated tags, listed in
   * any order: the description names the single shape tag as its category,
   * and gold, silver or "metal" as the colour rule decided.
   */
  lemma DescriptionOfGeneratedTags(s: ImageStats, tags: seq<string>)
    requires !TagRulesRaise(s)
    requires (set t | t in tags) == GenerateTags(Some(s))
    ensures CategoryWord(tags) in ShapeTags && CategoryWord(tags) in GenerateTags(Some(s))
    ensures MetalWord(tags) == (if "gold" in GenerateTags(Some(s)) then "gold"
                                else if "silver" in GenerateTags(Some(s)) then "silver" else "metal")
  {
    var r := GenerateTags(Some(s));
    assert forall t :: t in tags <==> t in r;
    assert "bracelet" !in r;
    var c := CategoryWord(tags);
    var shape := ShapeTag(s);
    assert shape in r;
    var k :| 0 <= k < |tags| && tags[k] == shape;
    assert tags[k] in DescriptionCategories;
    assert c != "jewelry";
    var i :| 0 <= i < |tags| && tags[i] == c && c in DescriptionCategories
      && forall j :: 0 <= j < i ==> tags[j] !in DescriptionCategories;
    assert c in r;
  }

  // ---------------------------------------------------------------------------
  // Image quality (analyze_quality)
  // ---------------------------------------------------------------------------

  const BlurryAdvice := "Image appears blurry. Use better focus."
  const DarkAdvice := "Image is too dark. Increase lighting."
  const BrightAdvice := "Image is too bright. Reduce lighting."
  const LowContrastAdvice := "Low contrast. Adjust lighting or camera settings."
  const GoodQuality := "Image quality is good!"

  /** The unclamped score: sharpness over 100 and brightness and contrast over 2.55, averaged. */
  function RawQuality(sharpness: real, brightness: real, contrast: real): real {
    (sharpness / 100.0 + brightness / 2.55 + contrast / 2.55) / 3.0
  }

  /** `min(100, raw)`: never above 100 nor above the raw score, and equal to one of them. */
  function QualityScore(sharpness: real, brightness: real, contrast: real): (r: real)
    ensures r <= 100.0 && r <= RawQuality(sharpness, brightness, contrast)
    ensures r == 100.0 || r == RawQuality(sharpness, brightness, contrast)
  {
    var raw := RawQuality(sharpness, brightness, contrast);
    if 100.0 <= raw then 100.0 else raw
  }

  /** The number of recommendation rules that fire. */
  function FiredRules(sharpness: real, brightness: real, contrast: real): nat {
    (if sharpness < 100.0 then 1 else 0) + (if brightness < 100.0 then 1 else 0)
    + (if brightness > 200.0 then 1 else 0) + (if contrast < 50.0 then 1 else 0)
  }

  /** The position of an advice line in the order the rules are tested. */
  function AdviceRank(line: string): nat {
    if line == BlurryAdvice then 0
    else if line == DarkAdvice then 1
    else if line == BrightAdvice then 2
    else if line == LowContrastAdvice then 3
    else 4
  }

  /** The four advice lines are distinct, so each has its own rank. */
  lemma AdviceRanks()
    ensures AdviceRank(BlurryAdvice) == 0 && AdviceRank(DarkAdvice) == 1
    ensures AdviceRank(BrightAdvice) == 2 && AdviceRank(LowContrastAdvice) == 3
  {
    assert |DarkAdvice| == |BrightAdvice| == 37;
    assert |BlurryAdvice| == 39 && |LowContrastAdvice| == 49;
    assert DarkAdvice[25] != BrightAdvice[25];
  }

  /**
   * The recommendations a quality analysis returns: the advice of every rule
   * that fires, in the order the rules are tested, or the single "good" line
   * when none fires.
   */
  function Recommendations(sharpness: real, brightness: real, contrast: real): (r: seq<string>)
    ensures BlurryAdvice in r <==> sharpness < 100.0
    ensures DarkAdvice in r <==> brightness < 100.0
    ensures BrightAdvice in r <==> brightness > 200.0
    ensures LowContrastAdvice in r <==> contrast < 50.0
    ensures r == [GoodQuality] <==> FiredRules(sharpness, brightness, contrast) == 0
    ensures |r| == if FiredRules(sharpness, brightness, contrast) == 0 then 1 else FiredRules(sharpness, brightness, contrast)
    ensures FiredRules(sharpness, brightness, contrast) > 0 ==>
              forall i, j :: 0 <= i < j < |r| ==> AdviceRank(r[i]) < AdviceRank(r[j])
  {
    AdviceRanks();
    var advice :=
      (if sharpness < 100.0 then [BlurryAdvice] else [])
      + (if brightness < 100.0 then [DarkAdvice] else [])
      + (if brightness > 200.0 then [BrightAdvice] else [])
      + (if contrast < 50.0 then [LowContrastAdvice] else []);
    if advice == [] then [GoodQuality] else advice
  }

  /** A picture is never both too dark and too bright, so at most three remarks are made. */
  lemma DarkAndBrightExclusive(sharpness: real, brightness: real, contrast: real)
    ensures var r := Recommendations(sharpness, brightness, contrast);
      !(DarkAdvice in r && BrightAdvice in r) && 1 <= |r| <= 3
  {
  }
}
