# Jewelry recognition and catalog helpers — a Dafny model

This project models the decision logic of the jewelry AI image service:

- **the recognizer** (`ai-services/image-processing/jewelry_recognition.py`), which
  - classifies a detector box or a whole photo into a jewelry category: a keyword override on the detector's label, then contour shape rules;
  - classifies its metal by HSV colour bands, falling back to brightness;
  - picks the most confident detection, or a whole-image fallback at confidence 0.6;
  - runs a batch with one failure record per photo that raises;
  - keeps one lazily created global recognizer;
- **the result helpers** (`ai-services/image-processing/main.py`): the product name, the HSN code, the database metal type, the template description, the automatic tag rules, and the image-quality score and recommendations.

The modules are:

- `Wrappers`: `Option`, and a `Result` that stands for a raised exception.
- `Text`: ASCII lower-casing, Python's substring test `k in s`, and `str.title`.
- `JewelryRecognition`: the recognizer.
- `ImageProcessing`: the main.py helpers.

The recognizer is imperative in the source, and it is imperative here:

- `JewelryRecognizer` is a class whose keyword table is a field fixed by its constructor.
- `DetectMetal` fills the percentage map in a loop.
- `Recognize` and `RecognizeBatch` append in loops.
- `RecognizerRegistry` holds the optional global instance.

Each method of `JewelryRecognizer` is proved to equal a specification function (`MetalOf`, `CandidateOf`, `FallbackOf`, `Recognition`, `EntryOf`), and the properties are proved about those functions. `RecognizerRegistry` keeps the invariant `Valid`: the recognizer it stores, if any, carries the built-in keyword table, so every recognizer `GetRecognizer` hands out does.

OpenCV and YOLO are not modelled; their outputs are inputs:

- A `Region` gives an image's HSV pixels, its mean grey value and the features of its largest contour (area, perimeter, bounding width and height).
- The detector gives either a sequence of boxes or an error. Each box has its coordinates, its confidence, its class name and its crop's `Region`.
- An image with no pixels makes OpenCV's colour conversions raise. `recognize` converts the whole photo before it runs the detector (`jewelry_recognition.py:77`), so an empty photo fails with the conversion error before any detection. A crop with no pixels fails the same way when its category or metal is computed.

The round branch of the shape rules (`jewelry_recognition.py:172-177`) is commented as "likely ring or bangle", but it tests `aspect_ratio > 0.95` first. A round contour with ratio 1.1 therefore passes that test and is a `ring`. Only a round contour with ratio at most 0.95 is a `bracelet` (`RoundShapeExamples`).

Because keywords are matched as substrings in table order, several keywords can never select their own category:

- "earring", "drop earring" and "nose ring" all give `ring`.
- "wristband" gives `ring`, through "band".
- "bangles" gives `bracelet`.
- "ankle bracelet", the anklet entry's second keyword, contains "bracelet", which the bracelet entry scanned earlier claims, so it gives `bracelet`.
- "belly chain" gives `necklace`.

The lemmas below prove these cases as the code behaves, except "ankle bracelet", which follows from the same first-match rule (`KeywordCategoryFirstMatch`) and the table order.

## Model

| member | source | states |
|---|---|---|
| Text.ToLower | ai-services/image-processing/jewelry_recognition.py:143 | lower-casing keeps the length, maps each character through ASCII lower case and leaves no upper-case letter |
| Text.ContainsIsOccurrence | ai-services/image-processing/jewelry_recognition.py:146 | the index-wise substring scan holds exactly when the keyword occurs at some position of the label |
| Text.Contains | ai-services/image-processing/jewelry_recognition.py:146 | none; see `Text.ContainsIsOccurrence`, which shows it is Python's `keyword in detected_lower` |
| Text.TitleOfLowerWord | ai-services/image-processing/main.py:559 | title-casing a lower-case word upper-cases its first letter and keeps the rest |
| Text.Title | ai-services/image-processing/main.py:559 | `jewelry_type.title()` keeps the length; see `Text.TitleOfLowerWord` for its value on a lower-case word |
| JewelryRecognition.KeywordCategoryFirstMatch | ai-services/image-processing/jewelry_recognition.py:142-147 | the override returns the first table entry, in table order, that has some keyword occurring in the label; it returns nothing when no entry matches |
| JewelryRecognition.KeywordCategoryInTable | ai-services/image-processing/jewelry_recognition.py:144-147 | an override result is always a category named in the table |
| JewelryRecognition.KeywordCategory | ai-services/image-processing/jewelry_recognition.py:142-147 | none; see `KeywordCategoryFirstMatch` and `KeywordCategoryInTable` |
| JewelryRecognition.CategoryLabelsCovered | ai-services/image-processing/jewelry_recognition.py:32-43 | every table category and every shape label is one of the eleven category labels |
| JewelryRecognition.EmptyLabelMatchesNothing | ai-services/image-processing/jewelry_recognition.py:116 | the whole-image call passes an empty label, on which no keyword matches |
| JewelryRecognition.RingSubstringWins | ai-services/image-processing/jewelry_recognition.py:33 | any label containing "ring" is a ring, because that keyword comes first |
| JewelryRecognition.EarringLabelIsRing | ai-services/image-processing/jewelry_recognition.py:32-43 | labels containing "earring" or "nose ring" are classified as ring |
| JewelryRecognition.BanglesLabelIsBracelet | ai-services/image-processing/jewelry_recognition.py:32-43 | the label "bangles" is a bracelet, through "bangle" |
| JewelryRecognition.WristbandLabelIsRing | ai-services/image-processing/jewelry_recognition.py:32-43 | the bracelet keyword "wristband" is classified as ring, through "band" |
| JewelryRecognition.BellyChainLabelIsNecklace | ai-services/image-processing/jewelry_recognition.py:32-43 | the waist-belt keyword "belly chain" is classified as necklace, through "chain" |
| JewelryRecognition.ShapeCategory | ai-services/image-processing/jewelry_recognition.py:157-189 | the shape rules always give one of ring, bracelet, earring, necklace, jewelry |
| JewelryRecognition.AspectRatio | ai-services/image-processing/jewelry_recognition.py:164-165 | none; see `ShapeNecklaceExactly` and `FlatContourIsRingOrJewelry` for `w / h` and the value 1 when h is 0 |
| JewelryRecognition.Circularity | ai-services/image-processing/jewelry_recognition.py:168-169 | none; see `ShapeRingExactly` and `ShapeBraceletExactly`, which state the rules in terms of it |
| JewelryRecognition.NoContourIsJewelry | ai-services/image-processing/jewelry_recognition.py:157-189 | with no contour the result is jewelry |
| JewelryRecognition.ShapeRingExactly | ai-services/image-processing/jewelry_recognition.py:165-177 | ring exactly when circularity > 0.7 and 0.95 < aspect ratio < 1.2 |
| JewelryRecognition.ShapeEarringExactly | ai-services/image-processing/jewelry_recognition.py:172-180 | earring exactly when 0.3 < aspect ratio < 0.7 |
| JewelryRecognition.ShapeNecklaceExactly | ai-services/image-processing/jewelry_recognition.py:181-184 | necklace exactly when the height is positive and the aspect ratio exceeds 3, which is the test w > 3h |
| JewelryRecognition.ShapeBraceletExactly | ai-services/image-processing/jewelry_recognition.py:172-186 | bracelet exactly for a round contour with 0.8 < ratio <= 0.95, or a positive height with 1.5 < ratio <= 3 |
| JewelryRecognition.FlatContourIsRingOrJewelry | ai-services/image-processing/jewelry_recognition.py:165 | a zero-height contour counts as ratio 1, so it is only ever ring or jewelry |
| JewelryRecognition.RoundShapeExamples | ai-services/image-processing/jewelry_recognition.py:172-177 | a round contour with ratio 1.0 or 1.1 is a ring; with ratio 0.9 it is a bracelet |
| JewelryRecognition.ClassifyJewelryType | ai-services/image-processing/jewelry_recognition.py:131-189 | a category is a shape label or a table category; a table keyword found in the lower-cased class name decides the category outright, before any image test; the call fails, with the empty-image error, exactly when no keyword matches and the image has no pixels |
| JewelryRecognition.WeddingRingLabelIsRing | ai-services/image-processing/jewelry_recognition.py:142-147 | "14k Yellow Gold Wedding Ring" is a ring whatever the image |
| JewelryRecognition.UnmatchedLabelUsesShape | ai-services/image-processing/jewelry_recognition.py:149-189 | when no keyword matches, the result is the shape rule on the largest contour, or a failure for an empty image |
| JewelryRecognition.CountInBand | ai-services/image-processing/jewelry_recognition.py:208-209 | a mask count never exceeds the number of pixels |
| JewelryRecognition.InBand | ai-services/image-processing/jewelry_recognition.py:208 | none; `cv2.inRange` with inclusive bounds on all three channels; see `CountInBand` and `OverlappingBandsFavourYellowGold` |
| JewelryRecognition.Percentage | ai-services/image-processing/jewelry_recognition.py:209 | a percentage of a count within the total lies in [0, 100], and is 0 exactly for a zero count |
| JewelryRecognition.BandPercentage | ai-services/image-processing/jewelry_recognition.py:207-210 | every band percentage lies in [0, 100] |
| JewelryRecognition.MetalRule | ai-services/image-processing/jewelry_recognition.py:212-229 | the metal is always one of gold, rose_gold, silver, unknown |
| JewelryRecognition.MetalRuleExactly | ai-services/image-processing/jewelry_recognition.py:212-229 | each of the four metals, stated as an if-and-only-if over the three band percentages and the brightness, in the code's priority order |
| JewelryRecognition.MetalPriorityExamples | ai-services/image-processing/jewelry_recognition.py:213-229 | 12% yellow with 20% white is gold; the brightness fallback gives silver above 180, gold above 100, else unknown |
| JewelryRecognition.OverlappingBandsFavourYellowGold | ai-services/image-processing/jewelry_recognition.py:46-56 | a pixel inside both the yellow and the rose band is reported as gold |
| JewelryRecognition.MetalOf | ai-services/image-processing/jewelry_recognition.py:191-229 | the metal comes from the closed set, and the call fails exactly for an image with no pixels |
| JewelryRecognition.Trunc | ai-services/image-processing/jewelry_recognition.py:108-109 | Python's int() on a float truncates toward zero |
| JewelryRecognition.BoxOf | ai-services/image-processing/jewelry_recognition.py:107-110 | none; see `CandidateOf`, whose box is the four truncated corners |
| JewelryRecognition.CandidateOf | ai-services/image-processing/jewelry_recognition.py:89-112 | a box's candidate exists exactly when its crop's category and metal can both be computed; it then has that category (`ClassifyJewelryType` on the crop and class name) and that metal (`MetalOf` on the crop), copies the confidence and class name unchanged, and carries the truncated box |
| JewelryRecognition.CandidatesOf | ai-services/image-processing/jewelry_recognition.py:85-112 | the candidate list succeeds exactly when every box does; it then matches the boxes one for one; otherwise it carries the first failing box's error |
| JewelryRecognition.FirstFailingCandidate | ai-services/image-processing/jewelry_recognition.py:85-112 | the first box whose analysis raises decides the error |
| JewelryRecognition.AllCandidates | ai-services/image-processing/jewelry_recognition.py:85-112 | when every box succeeds, the list is exactly their candidates, in order |
| JewelryRecognition.BestIndex | ai-services/image-processing/jewelry_recognition.py:128 | the chosen index has maximal confidence, and no earlier candidate ties it |
| JewelryRecognition.FallbackOf | ai-services/image-processing/jewelry_recognition.py:114-125 | none; see `RecognitionFallback` and `JewelryRecognizer.AnalyzeWholeImage` |
| JewelryRecognition.Recognition | ai-services/image-processing/jewelry_recognition.py:66-129 | none; see `RecognitionPicksFirstMostConfident`, `RecognitionFallback`, `RecognitionPropagatesDetectorError`, `EmptyPhotoRaisesConversionError`, `RecognitionInLabels` and `JewelryRecognizer.Recognize` |
| JewelryRecognition.RecognitionInLabels | ai-services/image-processing/jewelry_recognition.py:66-129 | a recognition result always has a category label and a metal label |
| JewelryRecognition.RecognitionPicksFirstMostConfident | ai-services/image-processing/jewelry_recognition.py:77-129 | with boxes present, recognition succeeds exactly when the photo has pixels and every box does; it then returns the first box of maximal confidence, with its confidence, class and non-null bounding box |
| JewelryRecognition.RecognitionFallback | ai-services/image-processing/jewelry_recognition.py:114-125 | with no boxes the result has confidence 0.6, no bounding box, class "unknown", the full image's shape category and the full image's metal (`MetalOf`); it fails exactly when the image is empty |
| JewelryRecognition.RecognitionPropagatesDetectorError | ai-services/image-processing/jewelry_recognition.py:77-80 | once the photo has been converted, a detector error is raised unchanged |
| JewelryRecognition.EmptyPhotoRaisesConversionError | ai-services/image-processing/jewelry_recognition.py:77 | an empty photo fails with the conversion error, whatever the detector would return |
| JewelryRecognition.EntryOf | ai-services/image-processing/jewelry_recognition.py:243-253 | a success is stored as is; a failure becomes unknown/unknown/0.0 with the error text |
| JewelryRecognition.JewelryRecognizer.constructor | ai-services/image-processing/jewelry_recognition.py:23-43 | the recognizer's keyword table is the ten-entry table |
| JewelryRecognition.JewelryRecognizer.DetectMetal | ai-services/image-processing/jewelry_recognition.py:191-229 | the loop filling the percentage map over the three bands returns exactly the metal rule's result |
| JewelryRecognition.JewelryRecognizer.AnalyzeDetection | ai-services/image-processing/jewelry_recognition.py:89-112 | analysing one box gives that box's candidate or error |
| JewelryRecognition.JewelryRecognizer.AnalyzeWholeImage | ai-services/image-processing/jewelry_recognition.py:115-125 | the whole-image analysis gives the fallback candidate or error |
| JewelryRecognition.JewelryRecognizer.Recognize | ai-services/image-processing/jewelry_recognition.py:66-129 | the loop over boxes with a running list and the final max agrees with the recognition function |
| JewelryRecognition.JewelryRecognizer.RecognizeBatch | ai-services/image-processing/jewelry_recognition.py:231-255 | one entry per photo, in order, each the entry of that photo's own recognition, so a failing photo does not affect the others |
| JewelryRecognition.RecognizerRegistry.constructor | ai-services/image-processing/jewelry_recognition.py:259 | the global starts unset, and the registry invariant holds |
| JewelryRecognition.RecognizerRegistry.GetRecognizer | ai-services/image-processing/jewelry_recognition.py:262-267 | the first call creates a fresh recognizer and stores it; later calls return the stored one; the registry invariant is kept, so every call returns a recognizer with the built-in keyword table |
| ImageProcessing.MetalPrefix | ai-services/image-processing/main.py:551-558 | the name prefix is non-empty exactly for gold, rose_gold and silver |
| ImageProcessing.TypeName | ai-services/image-processing/main.py:538-559 | a listed type has a capitalised non-empty name; an unlisted type is title-cased |
| ImageProcessing.FormatJewelryName | ai-services/image-processing/main.py:536-563 | "<metal name> <type name>" for a named metal, the type name alone otherwise |
| ImageProcessing.GoldEarringName | ai-services/image-processing/main.py:536-563 | ("earring","gold") gives "Gold Earrings (Pair)"; ("nose_ring","rose_gold") gives "Rose Gold Nose Ring" |
| ImageProcessing.JewelryTypeName | ai-services/image-processing/main.py:559 | the unlisted type jewelry is named "Jewelry" |
| ImageProcessing.UnlistedTypeIsTitleCased | ai-services/image-processing/main.py:558-563 | ("jewelry","unknown") gives "Jewelry" |
| ImageProcessing.NamedMetalName | ai-services/image-processing/main.py:558-562 | a named metal puts "Gold", "Rose Gold" or "Silver" and a space before the type name |
| ImageProcessing.UnnamedMetalGivesTypeOnly | ai-services/image-processing/main.py:558-563 | an unknown or unmapped metal gives the type name alone |
| ImageProcessing.RecognizedNamesCapitalised | ai-services/image-processing/main.py:536-563 | every name built from a recognizer category and metal is non-empty and starts with a capital |
| ImageProcessing.HsnCode | ai-services/image-processing/main.py:566-578 | always 8 characters beginning "711319"; the default 71131900 exactly for types off the table |
| ImageProcessing.HsnSharedLines | ai-services/image-processing/main.py:568-577 | bracelet and bangles share 71131940, necklace and mangalsutra share 71131920, earring and nose_ring share 71131930 |
| ImageProcessing.HsnDefaults | ai-services/image-processing/main.py:566-578 | jewelry, brooch, waist_belt and unknown get the default code |
| ImageProcessing.MapMetalType | ai-services/image-processing/main.py:581-589 | always GOLD or SILVER, and SILVER exactly for "silver" |
| ImageProcessing.MetalWord | ai-services/image-processing/main.py:386 | "gold" exactly when gold is a tag; "silver" exactly when silver but not gold is; otherwise "metal" |
| ImageProcessing.CategoryWord | ai-services/image-processing/main.py:387 | the first tag among necklace/ring/earring/bracelet, in tag order, and "jewelry" exactly when there is none |
| ImageProcessing.Compose | ai-services/image-processing/main.py:389-397 | the text starts with the lead and ends with the closing sentence; the diamond sentence follows the lead exactly when requested; the length is the lead's, plus the diamond sentence's when requested, plus the closing sentence's, so nothing else is in the text |
| ImageProcessing.ProductDescription | ai-services/image-processing/main.py:372-397 | the description starts with its opening and body sentences and ends with "Perfect for special occasions or everyday wear."; the diamond sentence appears right after the body exactly when "diamond" is a tag; nothing else is in the text, by its length |
| ImageProcessing.Lead | ai-services/image-processing/main.py:389-390 | none; see `Compose`, `ProductDescription` and `DescriptionOpening` |
| ImageProcessing.DescriptionOpening | ai-services/image-processing/main.py:389 | every description begins "Exquisite <metal> <category> ", and so begins "Exquisite " |
| ImageProcessing.CatalogDescriptionWords | ai-services/image-processing/main.py:386-387 | for the catalog tags [type, metal], the metal word is gold or silver only for those metals, and the category is the type itself for the four description categories, else "jewelry" |
| ImageProcessing.RoseGoldReadsMetal | ai-services/image-processing/main.py:502-505 | a rose-gold ring from the catalog upload is described as "Exquisite metal ring " |
| ImageProcessing.GenerateTags | ai-services/image-processing/main.py:315-369 | a failure gives {jewelry, handcrafted}; otherwise gold iff red mean > 180, silver iff not gold and overall mean > 200, necklace iff ratio > 1.5, earring iff ratio < 0.8, ring otherwise, always the three generic tags, and nothing else |
| ImageProcessing.ExactlyOneShapeTag | ai-services/image-processing/main.py:352-360 | the tag set holds exactly one of necklace, earring, ring |
| ImageProcessing.MetalTags | ai-services/image-processing/main.py:346-349 | none; see `GenerateTags` for the colour rule it decides |
| ImageProcessing.ShapeTag | ai-services/image-processing/main.py:352-360 | none; see `GenerateTags` and `ExactlyOneShapeTag` |
| ImageProcessing.DescriptionOfGeneratedTags | ai-services/image-processing/main.py:132-142 | describing the generated tags, in any order, names their single shape tag and the metal the colour rule chose |
| ImageProcessing.QualityScore | ai-services/image-processing/main.py:264 | the score is at most 100 and at most the raw average, and equals one of them |
| ImageProcessing.RawQuality | ai-services/image-processing/main.py:264 | none; see `QualityScore`, which clamps it at 100 |
| ImageProcessing.Recommendations | ai-services/image-processing/main.py:266-285 | each advice line appears exactly when its threshold fires; the good-quality line is the whole list exactly when none fires; the length is the number of rules fired, or 1; the advice lines come in the order the rules are tested: blurry, dark, bright, low contrast |
| ImageProcessing.DarkAndBrightExclusive | ai-services/image-processing/main.py:269-272 | "too dark" and "too bright" never both appear, so there are one to three lines |

## Left out

- YOLO inference, OpenCV contour extraction, HSV conversion, masking and grey means, and the crop slicing itself are not modelled. Their results are inputs: the detector output and, for the full image and for each box, a `Region`.
- The confidence threshold `conf=0.3` is applied inside the detector, so the model sees only the boxes the detector returns.
- The nested loop over several YOLO `results` is modelled as one flat sequence of boxes in the same order.
- The `approxPolyDP` call (jewelry_recognition.py:161) has no effect on the result and is left out.
- The metal `keywords` lists (jewelry_recognition.py:50-60) are kept as a field of `MetalBand`, but no operation reads them, in the code or in the model.
- The exception text OpenCV raises for an empty image is a fixed stand-in string, `EmptyImageError`.
- Floating-point arithmetic is modelled with exact reals. This covers `np.pi`, the divisions and the quality score.
- `round(..., 2)` on the quality score and metrics is left out.
- `str.lower` and `str.title` are modelled for ASCII letters only.
- GenerateTags: the result is a set, because `list(set(tags))` has an order that depends on hashing. The fixed failure list `["jewelry", "handcrafted"]` (main.py:369) loses its order too. The order changes neither `MetalWord` nor `CategoryWord`, since neither tag is a metal or description category.
- GenerateTags: the classification network's preprocessing and inference are not modelled. A failure there is the `None` input, and the top-5 predictions are computed but never used.
- GenerateTags: a single-channel image is modelled as an empty channel-mean list, where `avg_color[0]` raises. A zero height is modelled as the division that raises.
- FastAPI endpoints, file reading and decoding, rembg background removal, uuid and temporary-file saving, and logging are not modelled.
- The thread safety of the lazily created global recognizer is not modelled.
- ProductDescription: the file-name argument is accepted and ignored, as in the code.
