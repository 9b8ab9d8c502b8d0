/** The heuristic-size nutrition pipeline of the FastSAM food scanner
    (YOLO_streamlit_app.py). Detections are kept only when their class is on
    the food allow-list; each kept detection's segmentation mask, as a share
    of the whole image, picks a size class; and the class's base calories are
    scaled by that size's multiplier and truncated to whole kilocalories.
    The detector and the segmenter are not modelled: their outputs (class
    names, boxes, mask pixel counts) are inputs here. */
module FastSamScanner {
  import opened Results
  import opened PyNumeric

  /** A mask covering less than this share of the image is Small. */
  const SmallThreshold: real := 0.05
  /** A mask covering more than this share of the image is Large. */
  const LargeThreshold: real := 0.15

  datatype SizeLabel = Small | Medium | Large

  datatype SizeEstimate = SizeEstimate(sizeClass: SizeLabel, multiplier: real)

  /** The exceptions the scanner's code can raise and does not catch:
      `ZeroDivisionError` when `calculate_heuristic_size` divides two Python
      numbers by an image of no pixels, and `IndexError` when the segmenter
      returns more masks than there are food classes. */
  datatype ScanError = ZeroDivision | IndexOutOfRange

  /** The calorie multiplier that belongs to each size class. */
  function Multiplier(sizeClass: SizeLabel): real {
    match sizeClass
    case Small => 0.7
    case Medium => 1.0
    case Large => 1.3
  }

  /** Share of the image covered by a mask. */
  function Ratio(maskPixels: nat, totalPixels: nat): real
    requires totalPixels > 0
  {
    maskPixels as real / totalPixels as real
  }

  /** Size class of a mask; the Small test is made before the Large one and
      both comparisons are strict, so both thresholds themselves are Medium.
      Python's true division raises when the image has no pixels. */
  function CalculateHeuristicSize(maskPixels: nat, totalPixels: nat): (r: Result<SizeEstimate, ScanError>)
    ensures r.Err? <==> totalPixels == 0
    ensures r.Err? ==> r.error == ZeroDivision
    ensures r.Ok? ==> r.value.multiplier == Multiplier(r.value.sizeClass)
    ensures totalPixels > 0 ==>
      (r.value.sizeClass == Small <==> Ratio(maskPixels, totalPixels) < SmallThreshold)
    ensures totalPixels > 0 ==>
      (r.value.sizeClass == Large <==> Ratio(maskPixels, totalPixels) > LargeThreshold)
    ensures totalPixels > 0 ==>
      (r.value.sizeClass == Medium <==> SmallThreshold <= Ratio(maskPixels, totalPixels) <= LargeThreshold)
  {
    if totalPixels == 0 then Err(ZeroDivision)
    else
      var ratio := Ratio(maskPixels, totalPixels);
      if ratio < SmallThreshold then Ok(SizeEstimate(Small, 0.7))
      else if ratio > LargeThreshold then Ok(SizeEstimate(Large, 1.3))
      else Ok(SizeEstimate(Medium, 1.0))
  }

  /** The quotient of numpy's true division of a mask's pixel count (a numpy
      scalar) by the image's pixel count. Dividing by 0 does not raise in
      numpy: a positive count gives `inf` and 0 gives `nan`, with a warning. */
  datatype NumpyQuotient = Finite(value: real) | PosInf | NaN

  function NumpyDivide(maskPixels: nat, totalPixels: nat): (q: NumpyQuotient)
    ensures q.Finite? <==> totalPixels > 0
    ensures q.Finite? ==> q.value == Ratio(maskPixels, totalPixels)
    ensures q == NaN <==> maskPixels == 0 && totalPixels == 0
  {
    if totalPixels > 0 then Finite(Ratio(maskPixels, totalPixels))
    else if maskPixels == 0 then NaN
    else PosInf
  }

  /** `q < c` on a float: false for `inf` and for `nan`. */
  predicate QuotientBelow(q: NumpyQuotient, c: real) {
    q.Finite? && q.value < c
  }

  /** `q > c` on a float: true for `inf`, false for `nan`. */
  predicate QuotientAbove(q: NumpyQuotient, c: real) {
    q == PosInf || (q.Finite? && q.value > c)
  }

  /** `calculate_heuristic_size(mask_np.sum(), total_pixels)` as the calorie
      loop calls it: the mask's pixel count is a numpy scalar, so the ratio is
      numpy's quotient and the two comparisons are made on it. */
  function MaskSize(maskPixels: nat, totalPixels: nat): (s: SizeEstimate)
    ensures totalPixels > 0 ==> CalculateHeuristicSize(maskPixels, totalPixels) == Ok(s)
    ensures totalPixels == 0 && maskPixels == 0 ==> s.sizeClass == Medium
    ensures totalPixels == 0 && maskPixels > 0 ==> s.sizeClass == Large
    ensures s.multiplier == Multiplier(s.sizeClass)
  {
    var q := NumpyDivide(maskPixels, totalPixels);
    if QuotientBelow(q, SmallThreshold) then SizeEstimate(Small, 0.7)
    else if QuotientAbove(q, LargeThreshold) then SizeEstimate(Large, 1.3)
    else SizeEstimate(Medium, 1.0)
  }

  /** A larger mask on the same image never gets a smaller multiplier, and
      every multiplier is one of 0.7, 1.0 and 1.3. */
  lemma MultiplierMonotone(smaller: nat, larger: nat, totalPixels: nat)
    requires totalPixels > 0 && smaller <= larger
    ensures CalculateHeuristicSize(smaller, totalPixels).value.multiplier
            <= CalculateHeuristicSize(larger, totalPixels).value.multiplier
    ensures CalculateHeuristicSize(larger, totalPixels).value.multiplier in {0.7, 1.0, 1.3}
  {
    var t := totalPixels as real;
    var gap := (larger - smaller) as real;
    assert larger as real / t == smaller as real / t + gap / t;
  }

  // ---------------------------------------------------------------------
  // The mock nutrition database and the food allow-list

  datatype NutritionInfo = NutritionInfo(baseCalories: nat, unit: string)

  /** Base calories per typical item; 'default' is the fallback entry. */
  const NutritionDb: map<string, NutritionInfo> := map[
    "apple" := NutritionInfo(95, "1 medium"),
    "banana" := NutritionInfo(105, "1 medium"),
    "orange" := NutritionInfo(62, "1 medium"),
    "broccoli" := NutritionInfo(50, "1 cup chopped"),
    "carrot" := NutritionInfo(30, "1 medium"),
    "default" := NutritionInfo(50, "estimated serving")
  ]

  /** Detector classes the scanner treats as food. */
  const CocoFoodClasses: seq<string> :=
    ["apple", "banana", "orange", "broccoli", "carrot", "pizza", "donut", "cake"]

  /** `NUTRITION_DB.get(class_name, NUTRITION_DB['default'])`. */
  function LookupNutrition(className: string): (info: NutritionInfo)
    ensures className in NutritionDb ==> info == NutritionDb[className]
    ensures className !in NutritionDb ==> info == NutritionInfo(50, "estimated serving")
    ensures 30 <= info.baseCalories <= 105
  {
    if className in NutritionDb then NutritionDb[className] else NutritionDb["default"]
  }

  /** Three allow-listed classes have no entry of their own; they, and only
      they among the allow-list, are priced with the default 50 kcal. */
  lemma AllowListedFallbacks(className: string)
    requires className in CocoFoodClasses
    ensures className !in NutritionDb <==> className in ["pizza", "donut", "cake"]
    ensures className in ["pizza", "donut", "cake"] ==>
      LookupNutrition(className).baseCalories == 50
  {
  }

  // ---------------------------------------------------------------------
  // Filtering the detections to food classes

  datatype Box = Box(x1: real, y1: real, x2: real, y2: real)

  /** One detector box, with its class id already resolved to a name. */
  datatype Detection = Detection(className: string, box: Box)

  predicate IsFoodClass(className: string) {
    className in CocoFoodClasses
  }

  /** The food detections, in detection order. */
  function FoodDetections(ds: seq<Detection>): (fs: seq<Detection>)
    ensures |fs| <= |ds|
    ensures forall d :: d in fs ==> d in ds && IsFoodClass(d.className)
  {
    if ds == [] then []
    else
      var last := ds[|ds| - 1];
      FoodDetections(ds[..|ds| - 1]) + (if IsFoodClass(last.className) then [last] else [])
  }

  /** Exactly the food detections are kept. */
  lemma {:induction false} FoodDetectionsKeepsAllFood(ds: seq<Detection>, d: Detection)
    ensures d in FoodDetections(ds) <==> d in ds && IsFoodClass(d.className)
  {
    if ds != [] {
      var init := ds[..|ds| - 1];
      assert ds == init + [ds[|ds| - 1]];
      FoodDetectionsKeepsAllFood(init, d);
    }
  }

  /** The filter works element by element, so it keeps the input order:
      filtering a concatenation is concatenating the filtered parts. */
  lemma {:induction false} FoodDetectionsAppend(a: seq<Detection>, b: seq<Detection>)
    ensures FoodDetections(a + b) == FoodDetections(a) + FoodDetections(b)
  {
    if b != [] {
      var init := b[..|b| - 1];
      assert (a + b)[..|a + b| - 1] == a + init;
      FoodDetectionsAppend(a, init);
    } else {
      assert a + b == a;
    }
  }

  /** Filtering twice is filtering once. */
  lemma {:induction false} FoodDetectionsIdempotent(ds: seq<Detection>)
    ensures FoodDetections(FoodDetections(ds)) == FoodDetections(ds)
  {
    if ds != [] {
      var init := ds[..|ds| - 1];
      var last := ds[|ds| - 1];
      FoodDetectionsIdempotent(init);
      var tail := if IsFoodClass(last.className) then [last] else [];
      FoodDetectionsAppend(FoodDetections(init), tail);
      if IsFoodClass(last.className) {
        assert FoodDetections(tail) == FoodDetections([]) + [last] by {
          assert tail[..|tail| - 1] == [];
        }
      }
    }
  }

  /** Filtering one more detection appends it exactly when it is food. */
  lemma FoodDetectionsNext(ds: seq<Detection>, i: nat)
    requires i < |ds|
    ensures FoodDetections(ds[..i + 1])
         == FoodDetections(ds[..i]) + (if IsFoodClass(ds[i].className) then [ds[i]] else [])
  {
    assert ds[..i + 1][..i] == ds[..i];
  }

  /** The class names of a list of detections, in order. */
  function ClassNames(ds: seq<Detection>): (names: seq<string>)
    ensures |names| == |ds|
    ensures forall i :: 0 <= i < |ds| ==> names[i] == ds[i].className
  {
    seq(|ds|, i requires 0 <= i < |ds| => ds[i].className)
  }

  /** The boxes of a list of detections, in order. */
  function BoxesOf(ds: seq<Detection>): (boxes: seq<Box>)
    ensures |boxes| == |ds|
    ensures forall i :: 0 <= i < |ds| ==> boxes[i] == ds[i].box
  {
    seq(|ds|, i requires 0 <= i < |ds| => ds[i].box)
  }

  /** One more detection adds its box and its class name last. */
  lemma ProjectionsSnoc(ds: seq<Detection>, d: Detection)
    ensures BoxesOf(ds + [d]) == BoxesOf(ds) + [d.box]
    ensures ClassNames(ds + [d]) == ClassNames(ds) + [d.className]
  {
  }

  /** The filter loop: the boxes and the class names of the food detections,
      as two index-aligned lists. */
  method FilterFoodDetections(detections: seq<Detection>)
    returns (foodBoxes: seq<Box>, foodClasses: seq<string>)
    ensures |foodBoxes| == |foodClasses| == |FoodDetections(detections)|
    ensures forall i :: 0 <= i < |foodClasses| ==>
      foodClasses[i] == FoodDetections(detections)[i].className &&
      foodBoxes[i] == FoodDetections(detections)[i].box
  {
    foodBoxes, foodClasses := [], [];
    for i := 0 to |detections|
      invariant foodBoxes == BoxesOf(FoodDetections(detections[..i]))
      invariant foodClasses == ClassNames(FoodDetections(detections[..i]))
    {
      var det := detections[i];
      FoodDetectionsNext(detections, i);
      ghost var fs := FoodDetections(detections[..i]);
      if det.className in CocoFoodClasses {
        ProjectionsSnoc(fs, det);
        foodBoxes := foodBoxes + [det.box];
        foodClasses := foodClasses + [det.className];
      } else {
        assert fs + [] == fs;
      }
    }
    assert detections[..|detections|] == detections;
  }

  // ---------------------------------------------------------------------
  // Calorie estimation per mask

  /** One line of the results table. The displayed item name is the class
      name with its first letter capitalised; the model keeps the class name. */
  datatype CalorieRow = CalorieRow(foodItem: string, size: SizeLabel, multiplier: real, estCalories: int)

  datatype CalorieTable = CalorieTable(rows: seq<CalorieRow>, totalCalories: int)

  /** `int(base_cals * multiplier)`: the scaled calories, truncated. */
  function ScaledCalories(baseCalories: nat, multiplier: real): int {
    Truncate(baseCalories as real * multiplier)
  }

  /** The row for one mask of a food class. On an image with pixels its size
      is the heuristic size of the mask; on an image of none, numpy's `nan`
      makes an empty mask Medium and its `inf` makes any other mask Large. */
  function CalorieRowFor(className: string, maskPixels: nat, totalPixels: nat): (row: CalorieRow)
    ensures row.foodItem == className
    ensures totalPixels > 0 ==>
      CalculateHeuristicSize(maskPixels, totalPixels) == Ok(SizeEstimate(row.size, row.multiplier))
    ensures totalPixels == 0 ==> row.size == (if maskPixels == 0 then Medium else Large)
    ensures row.multiplier == Multiplier(row.size)
    ensures row.estCalories == ScaledCalories(LookupNutrition(className).baseCalories, row.multiplier)
    ensures 21 <= row.estCalories <= 136
  {
    var size := MaskSize(maskPixels, totalPixels);
    var info := LookupNutrition(className);
    CalorieRow(className, size.sizeClass, size.multiplier, ScaledCalories(info.baseCalories, size.multiplier))
  }

  /** The sum of the rows' estimated calories. */
  function SumCalories(rows: seq<CalorieRow>): int {
    if rows == [] then 0 else SumCalories(rows[..|rows| - 1]) + rows[|rows| - 1].estCalories
  }

  /** What the calorie loop produces: with no masks, an empty table; with
      masks, one row per mask in mask order, or the `IndexError` of the first
      mask without a food class. No division in the loop raises. */
  function CalorieTableFor(masks: Option<seq<nat>>, foodClasses: seq<string>, totalPixels: nat)
    : (r: Result<CalorieTable, ScanError>)
    ensures masks.None? ==> r == Ok(CalorieTable([], 0))
    ensures masks.Some? ==> (r.Ok? <==> |masks.value| <= |foodClasses|)
    ensures r.Ok? && masks.Some? ==> |r.value.rows| == |masks.value|
    ensures r.Err? ==> r.error == IndexOutOfRange
  {
    match masks
    case None => Ok(CalorieTable([], 0))
    case Some(ms) =>
      if |ms| > |foodClasses| then Err(IndexOutOfRange)
      else
        var rows := CalorieRows(ms, foodClasses, totalPixels);
        Ok(CalorieTable(rows, SumCalories(rows)))
  }

  /** One row per mask, in mask order, the i-th mask belonging to the i-th class. */
  function CalorieRows(ms: seq<nat>, foodClasses: seq<string>, totalPixels: nat): (rows: seq<CalorieRow>)
    requires |ms| <= |foodClasses|
    ensures |rows| == |ms|
    ensures forall i :: 0 <= i < |ms| ==> rows[i] == CalorieRowFor(foodClasses[i], ms[i], totalPixels)
  {
    seq(|ms|, i requires 0 <= i < |ms| => CalorieRowFor(foodClasses[i], ms[i], totalPixels))
  }

  /** Reading `food_classes[i]` past its end ends the loop with IndexError. */
  lemma CalorieTableIndexError(ms: seq<nat>, foodClasses: seq<string>, totalPixels: nat, i: nat)
    requires |foodClasses| <= i < |ms|
    ensures CalorieTableFor(Some(ms), foodClasses, totalPixels) == Err(IndexOutOfRange)
  {
  }

  /** A loop that ran over every mask built exactly the table of rows. */
  lemma CalorieTableComplete(ms: seq<nat>, foodClasses: seq<string>, totalPixels: nat, rows: seq<CalorieRow>)
    requires |ms| <= |foodClasses|
    requires |rows| == |ms|
    requires forall j :: 0 <= j < |ms| ==> rows[j] == CalorieRowFor(foodClasses[j], ms[j], totalPixels)
    ensures CalorieTableFor(Some(ms), foodClasses, totalPixels) == Ok(CalorieTable(rows, SumCalories(rows)))
  {
    assert rows == CalorieRows(ms, foodClasses, totalPixels);
  }

  /** Appending one row adds its calories to the total. */
  lemma SumCaloriesSnoc(rows: seq<CalorieRow>, row: CalorieRow)
    ensures SumCalories(rows + [row]) == SumCalories(rows) + row.estCalories
  {
    assert (rows + [row])[..|rows|] == rows;
  }

  /** The calorie loop over the masks, accumulating the table and the total. */
  method EstimateCalories(masks: Option<seq<nat>>, foodClasses: seq<string>, totalPixels: nat)
    returns (outcome: Result<CalorieTable, ScanError>)
    ensures outcome == CalorieTableFor(masks, foodClasses, totalPixels)
  {
    var totalCaloriesEst := 0;
    var tableData: seq<CalorieRow> := [];
    if masks.Some? {
      var ms := masks.value;
      for i := 0 to |ms|
        invariant i <= |foodClasses| || i == 0
        invariant |tableData| == i
        invariant forall j :: 0 <= j < i ==>
          tableData[j] == CalorieRowFor(foodClasses[j], ms[j], totalPixels)
        invariant totalCaloriesEst == SumCalories(tableData)
      {
        if i >= |foodClasses| {
          CalorieTableIndexError(ms, foodClasses, totalPixels, i);
          return Err(IndexOutOfRange);
        }
        var className := foodClasses[i];
        var size := MaskSize(ms[i], totalPixels);
        var info := LookupNutrition(className);
        var estimatedCals := ScaledCalories(info.baseCalories, size.multiplier);
        totalCaloriesEst := totalCaloriesEst + estimatedCals;
        var row := CalorieRow(className, size.sizeClass, size.multiplier, estimatedCals);
        assert row == CalorieRowFor(className, ms[i], totalPixels);
        SumCaloriesSnoc(tableData, row);
        tableData := tableData + [row];
      }
      CalorieTableComplete(ms, foodClasses, totalPixels, tableData);
    }
    outcome := Ok(CalorieTable(tableData, totalCaloriesEst));
  }

  /** Totals are additive over the rows. */
  lemma {:induction false} SumCaloriesAppend(a: seq<CalorieRow>, b: seq<CalorieRow>)
    ensures SumCalories(a + b) == SumCalories(a) + SumCalories(b)
  {
    if b != [] {
      var init := b[..|b| - 1];
      assert (a + b)[..|a + b| - 1] == a + init;
      SumCaloriesAppend(a, init);
    } else {
      assert a + b == a;
    }
  }

  /** Every row of a successful table estimates between 21 kcal (a small
      carrot) and 136 kcal (a large banana), so the total lies between 21 and
      136 kcal per mask; in particular it is never negative. */
  lemma CalorieTableTotalBounds(masks: Option<seq<nat>>, foodClasses: seq<string>, totalPixels: nat)
    requires CalorieTableFor(masks, foodClasses, totalPixels).Ok?
    ensures var t := CalorieTableFor(masks, foodClasses, totalPixels).value;
      t.totalCalories == SumCalories(t.rows) &&
      21 * |t.rows| <= t.totalCalories <= 136 * |t.rows|
  {
    var t := CalorieTableFor(masks, foodClasses, totalPixels).value;
    if masks.Some? && |masks.value| > 0 {
      SumCaloriesBounds(t.rows);
    }
  }

  lemma {:induction false} SumCaloriesBounds(rows: seq<CalorieRow>)
    requires forall i :: 0 <= i < |rows| ==> 21 <= rows[i].estCalories <= 136
    ensures 21 * |rows| <= SumCalories(rows) <= 136 * |rows|
  {
    if rows != [] {
      SumCaloriesBounds(rows[..|rows| - 1]);
    }
  }

  /** On an image of no pixels an empty apple mask is `nan` of the image,
      hence Medium: the loop prices it at the full 95 kcal instead of raising. */
  lemma EmptyMaskOnEmptyImage()
    ensures CalorieTableFor(Some([0]), ["apple"], 0)
         == Ok(CalorieTable([CalorieRow("apple", Medium, 1.0, 95)], 95))
  {
    var rows := CalorieRows([0], ["apple"], 0);
    assert rows[0] == CalorieRow("apple", Medium, 1.0, 95);
    assert rows == [CalorieRow("apple", Medium, 1.0, 95)];
    assert SumCalories(rows) == SumCalories([]) + 95;
  }

  /** `int(95 * 0.7)` truncates 66.5 to 66: a small apple is 66 kcal. */
  lemma SmallAppleIs66()
    ensures CalorieRowFor("apple", 1, 100).estCalories == 66
  {
  }

  // ---------------------------------------------------------------------
  // The analysis step run when the user presses "Analyze Nutrition"

  datatype ScanOutcome =
    | NoObjectsDetected                // the detector returned no boxes
    | NoFoodDetected                   // boxes, but none of a food class
    | Crashed(error: ScanError)        // an uncaught exception
    | Report(foodClasses: seq<string>, table: CalorieTable)

  /** `total_pixels = img_width * img_height`. */
  function ImagePixels(imgWidth: nat, imgHeight: nat): nat
  {
    imgWidth * imgHeight
  }

  /** Every class that survives the filter is on the allow-list. */
  lemma FoodClassNamesAllowListed(ds: seq<Detection>)
    ensures forall i :: 0 <= i < |ClassNames(FoodDetections(ds))| ==>
      ClassNames(FoodDetections(ds))[i] in CocoFoodClasses
  {
    var fs := FoodDetections(ds);
    forall i | 0 <= i < |fs| ensures ClassNames(fs)[i] in CocoFoodClasses {
      assert fs[i] in fs;
    }
  }

  /** Filter the detections, then (the segmenter having answered `masks` for
      the food boxes) estimate the calories of each mask. */
  method AnalyzeNutrition(detections: seq<Detection>, imgWidth: nat, imgHeight: nat, masks: Option<seq<nat>>)
    returns (outcome: ScanOutcome)
    ensures detections == [] <==> outcome == NoObjectsDetected
    ensures detections != [] && FoodDetections(detections) == [] <==> outcome == NoFoodDetected
    ensures FoodDetections(detections) != [] ==>
      match CalorieTableFor(masks, ClassNames(FoodDetections(detections)), ImagePixels(imgWidth, imgHeight))
      case Ok(table) => outcome == Report(ClassNames(FoodDetections(detections)), table)
      case Err(e) => outcome == Crashed(e)
    ensures outcome.Report? ==>
      forall i :: 0 <= i < |outcome.foodClasses| ==> outcome.foodClasses[i] in CocoFoodClasses
  {
    var totalPixels := ImagePixels(imgWidth, imgHeight);
    if |detections| == 0 {
      return NoObjectsDetected;
    }
    var foodBoxes, foodClasses := FilterFoodDetections(detections);
    if |foodBoxes| == 0 {
      return NoFoodDetected;
    }
    assert foodClasses == ClassNames(FoodDetections(detections));
    FoodClassNamesAllowListed(detections);
    var calories := EstimateCalories(masks, foodClasses, totalPixels);
    match calories
    case Ok(table) => outcome := Report(foodClasses, table);
    case Err(e) => outcome := Crashed(e);
  }
}
